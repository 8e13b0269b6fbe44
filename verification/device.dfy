/**
  The readings the metadata provider takes from the device and the
  application: orientation, activity state and battery. The operating system
  supplies them; here they are plain values passed in by the caller.
 */
module Device {

  /** The physical orientation of the device. */
  datatype Orientation =
    | UnknownOrientation
    | Portrait | PortraitUpsideDown
    | LandscapeLeft | LandscapeRight
    | FaceUp | FaceDown
  {
    /** Upright either way up. */
    predicate IsPortrait() { this == Portrait || this == PortraitUpsideDown }

    /** On either side. */
    predicate IsLandscape() { this == LandscapeLeft || this == LandscapeRight }
  }

  /** The activity state of the application. */
  datatype ApplicationState = Active | Inactive | Background

  /** The charging state of the battery. */
  datatype BatteryState = UnknownBattery | Unplugged | Charging | Full

  /** No orientation is both portrait and landscape; flat and unknown are neither. */
  lemma OrientationClasses(o: Orientation)
    ensures !(o.IsPortrait() && o.IsLandscape())
    ensures o in {UnknownOrientation, FaceUp, FaceDown} <==> !o.IsPortrait() && !o.IsLandscape()
  {
  }

  /** The battery counts as plugged in while it is charging or full. */
  function BatteryPluggedIn(state: BatteryState): (r: bool)
    ensures r <==> state == Charging || state == Full
    ensures !r <==> state == UnknownBattery || state == Unplugged
  {
    assert state.UnknownBattery? || state.Unplugged? || state.Charging? || state.Full?;
    state in [Charging, Full]
  }

  /**
    The battery level in percent: the reading times 100 truncated towards
    zero, or -1 when the reading is negative (the device reports -1.0 when
    battery monitoring is off).
   */
  function BatteryLevel(level: real): (r: int)
    ensures r == -1 <==> level < 0.0
    ensures level >= 0.0 ==> r >= 0 && r as real <= level * 100.0 < r as real + 1.0
    ensures 0.0 <= level <= 1.0 ==> 0 <= r <= 100
  {
    if level >= 0.0 then (level * 100.0).Floor else -1
  }

  /** A higher non-negative reading never gives a lower percentage. */
  lemma BatteryLevelMonotone(a: real, b: real)
    requires 0.0 <= a <= b
    ensures BatteryLevel(a) <= BatteryLevel(b)
  {
  }
}
