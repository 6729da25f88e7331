/**
 * Altitude sampling and detection-window sizing of the KM altimeter part:
 * the numeric rules its physics tick (updateAltitude) is built from.
 * Doubles are modelled as mathematical reals.
 */
module AltitudeSampling {

  /** Math.Abs on a double. */
  function Abs(x: real): (r: real)
    ensures r >= 0.0
    ensures r == x || r == -x
  {
    if x < 0.0 then -x else x
  }

  /**
   * The altitude the part reacts to: the lower of the sea-level altitude and
   * the height above terrain (sea-level altitude minus terrain altitude).
   */
  function LowerAltitude(altSea: real, terrainAltitude: real): (alt: real)
    ensures alt <= altSea && alt <= altSea - terrainAltitude
    ensures alt == altSea || alt == altSea - terrainAltitude
    ensures alt == altSea - terrainAltitude <==> terrainAltitude >= 0.0
  {
    var altSurface := altSea - terrainAltitude;
    if altSurface < altSea then altSurface else altSea
  }

  /** The 5% margin added to one tick's travel. */
  const Margin: real := 1.05

  /**
   * Half-width of the detection window: one tick's vertical travel plus the
   * margin, as a non-negative distance.
   */
  function DetectionWindow(fixedDeltaTime: real, verticalSpeed: real): (w: real)
    ensures w >= 0.0
    ensures w == Abs(verticalSpeed) * Abs(fixedDeltaTime) * Margin
    ensures w == 0.0 <==> fixedDeltaTime == 0.0 || verticalSpeed == 0.0
    ensures Abs(verticalSpeed * fixedDeltaTime) <= w
    ensures w > 0.0 ==> Abs(verticalSpeed * fixedDeltaTime) < w
  {
    Abs((fixedDeltaTime * verticalSpeed) * Margin)
  }
}
