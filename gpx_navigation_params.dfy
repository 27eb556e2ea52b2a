/** The parameters of a navigation started from a GPX track, set by chained setters. */
module GpxNavigation {
  import opened Wrappers

  /** Java's 32-bit int. */
  newtype int32 = x: int | -0x8000_0000 <= x < 0x8000_0000

  /** The whole observable state of a parameter holder. */
  datatype ParamsValue = ParamsValue(
    force: bool,
    checkLocationPermission: bool,
    passWholeRoute: bool,
    snapToRoad: bool,
    snapToRoadMode: Option<string>,
    snapToRoadThreshold: int32)

  class GpxNavigationParams {
    var force: bool
    var checkLocationPermission: bool
    var passWholeRoute: bool
    var snapToRoad: bool
    var snapToRoadMode: Option<string>
    var snapToRoadThreshold: int32

    function Value(): ParamsValue
      reads this
    {
      ParamsValue(force, checkLocationPermission, passWholeRoute, snapToRoad, snapToRoadMode, snapToRoadThreshold)
    }

    /** Fresh parameters: all flags off, no snap mode, threshold 50. */
    constructor ()
      ensures Value() == ParamsValue(false, false, false, false, None, 50)
    {
      force := false;
      checkLocationPermission := false;
      passWholeRoute := false;
      snapToRoad := false;
      snapToRoadMode := None;
      snapToRoadThreshold := 50;
    }

    /** Each getter reads back its own component of the holder's value. */
    function IsForce(): (r: bool) reads this ensures r == Value().force { force }
    function IsCheckLocationPermission(): (r: bool) reads this ensures r == Value().checkLocationPermission
    { checkLocationPermission }
    function IsPassWholeRoute(): (r: bool) reads this ensures r == Value().passWholeRoute { passWholeRoute }
    function IsSnapToRoad(): (r: bool) reads this ensures r == Value().snapToRoad { snapToRoad }
    function GetSnapToRoadMode(): (r: Option<string>) reads this ensures r == Value().snapToRoadMode
    { snapToRoadMode }
    function GetSnapToRoadThreshold(): (r: int32) reads this ensures r == Value().snapToRoadThreshold
    { snapToRoadThreshold }

    method SetForce(force: bool) returns (r: GpxNavigationParams)
      modifies this
      ensures r == this && IsForce() == force
      ensures Value() == old(Value()).(force := force)
    {
      this.force := force;
      r := this;
    }

    method SetCheckLocationPermission(checkLocationPermission: bool) returns (r: GpxNavigationParams)
      modifies this
      ensures r == this && IsCheckLocationPermission() == checkLocationPermission
      ensures Value() == old(Value()).(checkLocationPermission := checkLocationPermission)
    {
      this.checkLocationPermission := checkLocationPermission;
      r := this;
    }

    method SetPassWholeRoute(passWholeRoute: bool) returns (r: GpxNavigationParams)
      modifies this
      ensures r == this && IsPassWholeRoute() == passWholeRoute
      ensures Value() == old(Value()).(passWholeRoute := passWholeRoute)
    {
      this.passWholeRoute := passWholeRoute;
      r := this;
    }

    method SetSnapToRoad(snapToRoad: bool) returns (r: GpxNavigationParams)
      modifies this
      ensures r == this && IsSnapToRoad() == snapToRoad
      ensures Value() == old(Value()).(snapToRoad := snapToRoad)
    {
      this.snapToRoad := snapToRoad;
      r := this;
    }

    /** Any mode is stored as given, a null one included. */
    method SetSnapToRoadMode(snapToRoadMode: Option<string>) returns (r: GpxNavigationParams)
      modifies this
      ensures r == this && GetSnapToRoadMode() == snapToRoadMode
      ensures Value() == old(Value()).(snapToRoadMode := snapToRoadMode)
    {
      this.snapToRoadMode := snapToRoadMode;
      r := this;
    }

    /** Any threshold is stored as given, a negative one included. */
    method SetSnapToRoadThreshold(snapToRoadThreshold: int32) returns (r: GpxNavigationParams)
      modifies this
      ensures r == this && GetSnapToRoadThreshold() == snapToRoadThreshold
      ensures Value() == old(Value()).(snapToRoadThreshold := snapToRoadThreshold)
    {
      this.snapToRoadThreshold := snapToRoadThreshold;
      r := this;
    }
  }

  /** A chain of setters on fresh parameters leaves each getter returning the value last set. */
  method ChainedSetup(mode: Option<string>, threshold: int32) returns (p: GpxNavigationParams)
    ensures fresh(p)
    ensures p.Value() == ParamsValue(true, false, true, true, mode, threshold)
  {
    p := new GpxNavigationParams();
    var q := p.SetForce(true);
    q := q.SetPassWholeRoute(true);
    q := q.SetSnapToRoad(true);
    q := q.SetSnapToRoadMode(mode);
    q := q.SetSnapToRoadThreshold(threshold);
    assert q == p;
  }
}
