/** The native camera library (WebCamLib.cpp) without its DirectShow calls:
    property capabilities, the mask-based routing of a CameraProperty to its
    DirectShow interface, range validation, the absolute and percentage
    getters and setters, capability probing, the selection of a capture format
    and the start/stop state of the active camera.

    Every COM call is replaced by the answer of an abstract device (`Device`):
    whether the capture filter exposes an interface, and what its Get,
    GetRange and Set calls report. */
module WebCamLib {
  import opened Clr
  import opened WebCamLibTypes

  // ---------------------------------------------------------------------
  // CameraPropertyCapabilities

  datatype CameraPropertyCapabilities = CameraPropertyCapabilities(
    cameraIndex: int,
    prop: CameraProperty,
    isGetSupported: bool,
    isSetSupported: bool,
    isGetRangeSupported: bool)
  {
    /** Some access to the property works. */
    function IsSupported(): (r: bool)
      ensures !r <==> !isGetSupported && !isSetSupported && !isGetRangeSupported
    {
      isGetSupported || isSetSupported || isGetRangeSupported
    }

    /** Every access to the property works; this implies IsSupported. */
    function IsFullySupported(): (r: bool)
      ensures r ==> IsSupported()
      ensures r ==> isGetSupported && isSetSupported && isGetRangeSupported
      ensures !r ==> !isGetSupported || !isSetSupported || !isGetRangeSupported
    {
      isGetSupported && isSetSupported && isGetRangeSupported
    }
  }

  // ---------------------------------------------------------------------
  // Routing a CameraProperty to its family

  /** The property's value has the mask's bit set. */
  function IsPropertyMaskEqual(p: CameraProperty, mask: PropertyTypeMask): (r: bool)
    ensures r <==> FamilyOf(p) == mask
  {
    MasksDisjoint(p);
    Code(p) & MaskBits(mask) != 0
  }

  function IsCameraControlProperty(p: CameraProperty): (r: bool)
    ensures r <==> p.CameraControl?
  {
    IsPropertyMaskEqual(p, CameraControlPropertyMask)
  }

  function IsVideoProcAmpProperty(p: CameraProperty): (r: bool)
    ensures r <==> p.VideoProcAmp?
  {
    IsPropertyMaskEqual(p, VideoProcAmpPropertyMask)
  }

  /** Clears the camera-control mask bit, or throws OverflowException for a
      property outside the camera-control family. */
  function GetCameraControlProperty(p: CameraProperty): (r: Outcome<bv32>)
    ensures p.CameraControl? ==> r == Ok(ControlBase(p.control))
    ensures p.VideoProcAmp? ==> r == Throws(OverflowException)
  {
    ClearingMaskGivesBase(p);
    if IsCameraControlProperty(p) then
      Ok(Code(p) & !MaskBits(CameraControlPropertyMask))
    else
      Throws(OverflowException)
  }

  /** Clears the video-proc-amp mask bit, or throws OverflowException for a
      property outside the video-proc-amp family. */
  function GetVideoProcAmpProperty(p: CameraProperty): (r: Outcome<bv32>)
    ensures p.VideoProcAmp? ==> r == Ok(ProcAmpBase(p.procAmp))
    ensures p.CameraControl? ==> r == Throws(OverflowException)
  {
    ClearingMaskGivesBase(p);
    if IsVideoProcAmpProperty(p) then
      Ok(Code(p) & !MaskBits(VideoProcAmpPropertyMask))
    else
      Throws(OverflowException)
  }

  // ---------------------------------------------------------------------
  // The device behind the capture filter

  /** The two DirectShow interfaces a capture filter may expose. */
  datatype Interface = IAMCameraControl | IAMVideoProcAmp

  /** CameraControl_Flags_Auto / VideoProcAmp_Flags_Auto and the Manual flags
      (the two families use the same values). */
  const FlagsAuto: int := 1
  const FlagsManual: int := 2

  datatype Reading = Reading(value: int, flags: int)
  datatype RangeReading = RangeReading(minimum: int, maximum: int, steppingDelta: int, defaultValue: int, flags: int)

  /** What the capture filter answers. `queryInterface` says whether
      QueryInterface for the interface succeeds; `get`, `getRange` and `setCall`
      give the outcome of the interface's Get, GetRange and Set calls for a
      property number (None or false for a failed HRESULT). `staleMinimum` and
      `staleMaximum` are the values the uninitialised locals of
      ValidatePropertyValue hold when the range cannot be read. */
  datatype Device = Device(
    queryInterface: Interface -> bool,
    get: (Interface, int) -> Option<Reading>,
    getRange: (Interface, int) -> Option<RangeReading>,
    setCall: (Interface, int, int, int) -> bool,
    staleMinimum: int,
    staleMaximum: int)

  /** The device together with whether the capture filter exists
      (g_pIBaseFilterCam != NULL, that is, a camera has been started). */
  datatype Backend = Backend(filterPresent: bool, device: Device)

  /** An interface and the property number passed to its calls. */
  datatype Target = Target(iface: Interface, property: int)

  function InterfaceOf(p: CameraProperty): Interface
  {
    if p.CameraControl? then IAMCameraControl else IAMVideoProcAmp
  }

  /** The value and auto flag a successful Get reports. */
  datatype PropertyValue = PropertyValue(value: int, isAuto: bool)

  /** What a successful GetRange reports. */
  datatype PropertyRange = PropertyRange(minimum: int, maximum: int, steppingDelta: int, defaults: int, isAuto: bool)

  /** The family test and decoding that every CameraProperty overload does
      before calling the family's interface. */
  function Dispatch(p: CameraProperty): (r: Outcome<Option<Target>>)
    ensures r == Ok(Some(Target(InterfaceOf(p), BaseOf(p) as int)))
  {
    if IsCameraControlProperty(p) then
      match GetCameraControlProperty(p)
      case Ok(b) => Ok(Some(Target(IAMCameraControl, b as int)))
      case Throws(e) => Throws(e)
    else if IsVideoProcAmpProperty(p) then
      match GetVideoProcAmpProperty(p)
      case Ok(b) => Ok(Some(Target(IAMVideoProcAmp, b as int)))
      case Throws(e) => Throws(e)
    else
      Ok(None)
  }

  // The overloads for one family's interface. The camera filter is
  // dereferenced without a null test in IsPropertySupported and
  // GetPropertyRange; the value getters and setters test it and throw.

  function TargetSupported(b: Backend, t: Target): (r: Outcome<bool>)
    ensures !b.filterPresent ==> r == Throws(NullReferenceException)
    ensures b.filterPresent && !b.device.queryInterface(t.iface) ==> r == Throws(InvalidOperationException)
    ensures r.Ok? ==> b.filterPresent && (r.value <==> b.device.get(t.iface, t.property).Some?)
  {
    if !b.filterPresent then Throws(NullReferenceException)
    else if !b.device.queryInterface(t.iface) then Throws(InvalidOperationException)
    else Ok(b.device.get(t.iface, t.property).Some?)
  }

  function TargetRange(b: Backend, t: Target): (r: Outcome<Option<PropertyRange>>)
    ensures r.Throws? <==> !b.filterPresent
    ensures r.Throws? ==> r.error == NullReferenceException
    ensures r.Ok? && r.value.Some? <==> b.filterPresent && b.device.queryInterface(t.iface) && b.device.getRange(t.iface, t.property).Some?
    ensures r.Ok? && r.value.Some? ==>
      var d := b.device.getRange(t.iface, t.property).value;
      r.value.value.minimum == d.minimum && r.value.value.maximum == d.maximum && (r.value.value.isAuto <==> d.flags == FlagsAuto)
  {
    if !b.filterPresent then Throws(NullReferenceException)
    else if !b.device.queryInterface(t.iface) then Ok(None)
    else
      match b.device.getRange(t.iface, t.property)
      case None => Ok(None)
      case Some(r) => Ok(Some(PropertyRange(r.minimum, r.maximum, r.steppingDelta, r.defaultValue, r.flags == FlagsAuto)))
  }

  function TargetValue(b: Backend, t: Target): (r: Outcome<Option<PropertyValue>>)
    ensures r.Throws? <==> !b.filterPresent
    ensures r.Throws? ==> r.error == InvalidOperationException
    ensures r.Ok? && r.value.Some? <==> b.filterPresent && b.device.queryInterface(t.iface) && b.device.get(t.iface, t.property).Some?
    ensures r.Ok? && r.value.Some? ==>
      var d := b.device.get(t.iface, t.property).value;
      r.value.value.value == d.value && (r.value.value.isAuto <==> d.flags == FlagsAuto)
  {
    if !b.filterPresent then Throws(InvalidOperationException)
    else if !b.device.queryInterface(t.iface) then Ok(None)
    else
      match b.device.get(t.iface, t.property)
      case None => Ok(None)
      case Some(r) => Ok(Some(PropertyValue(r.value, r.flags == FlagsAuto)))
  }

  function TargetSet(b: Backend, t: Target, value: int, bAuto: bool): (r: Outcome<bool>)
    ensures r.Throws? <==> !b.filterPresent
    ensures r.Throws? ==> r.error == InvalidOperationException
    ensures b.filterPresent && !b.device.queryInterface(t.iface) ==> r == Ok(false)
    ensures r == Ok(true) ==>
      b.device.queryInterface(t.iface) && b.device.setCall(t.iface, t.property, value, if bAuto then FlagsAuto else FlagsManual)
    ensures b.filterPresent && b.device.queryInterface(t.iface) ==>
      r == Ok(b.device.setCall(t.iface, t.property, value, if bAuto then FlagsAuto else FlagsManual))
  {
    if !b.filterPresent then Throws(InvalidOperationException)
    else if !b.device.queryInterface(t.iface) then Ok(false)
    else Ok(b.device.setCall(t.iface, t.property, value, if bAuto then FlagsAuto else FlagsManual))
  }

  /** What the device's Get reports for the property, read through its
      family's interface at its base number. */
  function DeviceReading(b: Backend, p: CameraProperty): Option<Reading>
  {
    b.device.get(InterfaceOf(p), BaseOf(p) as int)
  }

  /** What the device's GetRange reports for the property. */
  function DeviceRange(b: Backend, p: CameraProperty): Option<RangeReading>
  {
    b.device.getRange(InterfaceOf(p), BaseOf(p) as int)
  }

  // ---------------------------------------------------------------------
  // The CameraProperty operations

  /** A property is supported when its family's Get succeeds. */
  function IsPropertySupported(b: Backend, p: CameraProperty): (r: Outcome<bool>)
    ensures !b.filterPresent ==> r == Throws(NullReferenceException)
    ensures b.filterPresent && !b.device.queryInterface(InterfaceOf(p)) ==> r == Throws(InvalidOperationException)
    ensures b.filterPresent && b.device.queryInterface(InterfaceOf(p)) ==> r == Ok(DeviceReading(b, p).Some?)
  {
    match Dispatch(p)
    case Throws(e) => Throws(e)
    case Ok(None) => Ok(false)
    case Ok(Some(t)) => TargetSupported(b, t)
  }

  function GetPropertyRange(b: Backend, p: CameraProperty): (r: Outcome<Option<PropertyRange>>)
    ensures !b.filterPresent ==> r == Throws(NullReferenceException)
    ensures b.filterPresent ==> r.Ok?
    ensures r.Ok? && r.value.Some? <==> b.filterPresent && b.device.queryInterface(InterfaceOf(p)) && DeviceRange(b, p).Some?
    ensures r.Ok? && r.value.Some? ==>
      var d := DeviceRange(b, p).value;
      r.value.value == PropertyRange(d.minimum, d.maximum, d.steppingDelta, d.defaultValue, d.flags == FlagsAuto)
  {
    match Dispatch(p)
    case Throws(e) => Throws(e)
    case Ok(None) => Ok(None)
    case Ok(Some(t)) => TargetRange(b, t)
  }

  /** GetProperty_value: the absolute value and auto flag, or None when the
      interface or its Get call fails; throws when no camera is started. */
  function GetPropertyValue(b: Backend, p: CameraProperty): (r: Outcome<Option<PropertyValue>>)
    ensures !b.filterPresent ==> r == Throws(InvalidOperationException)
    ensures b.filterPresent ==> r.Ok?
    ensures r.Ok? && r.value.Some? <==> b.filterPresent && b.device.queryInterface(InterfaceOf(p)) && DeviceReading(b, p).Some?
    ensures r.Ok? && r.value.Some? ==>
      r.value.value == PropertyValue(DeviceReading(b, p).value.value, DeviceReading(b, p).value.flags == FlagsAuto)
  {
    match Dispatch(p)
    case Throws(e) => Throws(e)
    case Ok(None) => Ok(None)
    case Ok(Some(t)) => TargetValue(b, t)
  }

  /** Only WhiteBalance and Gain are treated as having no range. */
  function PropertyHasRange(p: CameraProperty): (r: bool)
    ensures p.CameraControl? ==> r
    ensures !r <==> p == VideoProcAmp(WhiteBalance) || p == VideoProcAmp(Gain)
  {
    p != VideoProcAmp(WhiteBalance) && p != VideoProcAmp(Gain)
  }

  predicate InRange(value: int, minimum: int, maximum: int)
  {
    minimum <= value <= maximum
  }

  /** A value is valid when the property has no range, or lies within the
      range read from the device. The range read's failure is not tested:
      then the bounds are whatever the uninitialised locals held. */
  function ValidatePropertyValue(b: Backend, p: CameraProperty, value: int): (r: Outcome<bool>)
    ensures !PropertyHasRange(p) ==> r == Ok(true)
    ensures PropertyHasRange(p) && !b.filterPresent ==> r == Throws(NullReferenceException)
    ensures PropertyHasRange(p) && GetPropertyRange(b, p).Ok? && GetPropertyRange(b, p).value.Some? ==>
      var rg := GetPropertyRange(b, p).value.value;
      r == Ok(InRange(value, rg.minimum, rg.maximum))
    ensures PropertyHasRange(p) && GetPropertyRange(b, p) == Ok(None) ==>
      r == Ok(InRange(value, b.device.staleMinimum, b.device.staleMaximum))
  {
    if PropertyHasRange(p) then
      match GetPropertyRange(b, p)
      case Throws(e) => Throws(e)
      case Ok(Some(rg)) => Ok(InRange(value, rg.minimum, rg.maximum))
      case Ok(None) => Ok(InRange(value, b.device.staleMinimum, b.device.staleMaximum))
    else
      Ok(true)
  }

  /** SetProperty_value: the device's Set is reached only for a valid value;
      an invalid one throws ArgumentOutOfRangeException when
      throwValidationError holds and returns false otherwise. */
  function SetPropertyValue(b: Backend, p: CameraProperty, value: int, bAuto: bool, throwValidationError: bool): (r: Outcome<bool>)
    ensures ValidatePropertyValue(b, p, value).Throws? ==> r == Throws(ValidatePropertyValue(b, p, value).error)
    ensures ValidatePropertyValue(b, p, value) == Ok(false) ==>
      r == if throwValidationError then Throws(ArgumentOutOfRangeException) else Ok(false)
    ensures ValidatePropertyValue(b, p, value) == Ok(true) ==>
      r == TargetSet(b, Target(InterfaceOf(p), BaseOf(p) as int), value, bAuto)
  {
    match ValidatePropertyValue(b, p, value)
    case Throws(e) => Throws(e)
    case Ok(valid) =>
      if valid then
        match Dispatch(p)
        case Throws(e) => Throws(e)
        case Ok(None) => Ok(false)
        case Ok(Some(t)) => TargetSet(b, t, value, bAuto)
      else if throwValidationError then
        Throws(ArgumentOutOfRangeException)
      else
        Ok(false)
  }

  /** Validation does not consult the device's Set, so when it rejects the
      value the outcome is the same whatever Set would have answered: the
      backend is not written. */
  lemma SetPropertyValueSkipsBackendWhenInvalid(b: Backend, p: CameraProperty, value: int, bAuto: bool,
                                               throwValidationError: bool, otherSet: (Interface, int, int, int) -> bool)
    requires ValidatePropertyValue(b, p, value) == Ok(false)
    ensures SetPropertyValue(b.(device := b.device.(setCall := otherSet)), p, value, bAuto, throwValidationError)
         == SetPropertyValue(b, p, value, bAuto, throwValidationError)
    ensures SetPropertyValue(b, p, value, bAuto, throwValidationError) != Ok(true)
  {
  }

  // ---------------------------------------------------------------------
  // Percentage conversion

  /** The getter's conversion: the offset from the minimum, times 100,
      divided (rounding toward zero) by the number of values in the range. */
  function ValueToPercentage(value: int, minimum: int, maximum: int): (r: int)
    requires maximum - minimum + 1 != 0
    ensures value >= minimum && maximum >= minimum ==>
      0 <= (value - minimum) * 100 - r * (maximum - minimum + 1) < maximum - minimum + 1
    ensures value < minimum && maximum >= minimum ==> r <= 0
  {
    TruncDiv((value - minimum) * 100, maximum - minimum + 1)
  }

  /** The setter's conversion: the percentage of the span, rounded toward
      zero, added to the minimum. */
  function PercentageToValue(percentage: int, minimum: int, maximum: int): (r: int)
    ensures maximum >= minimum && percentage >= 0 ==>
      0 <= (maximum - minimum) * percentage - 100 * (r - minimum) < 100
  {
    assert maximum >= minimum && percentage >= 0 ==> (maximum - minimum) * percentage >= 0;
    TruncDiv((maximum - minimum) * percentage, 100) + minimum
  }

  /** A percentage in [0, 100] maps into the range, 0 to its minimum and 100
      to its maximum. */
  lemma PercentageToValueInRange(percentage: int, minimum: int, maximum: int)
    requires minimum <= maximum && 0 <= percentage <= 100
    ensures InRange(PercentageToValue(percentage, minimum, maximum), minimum, maximum)
    ensures percentage == 0 ==> PercentageToValue(percentage, minimum, maximum) == minimum
    ensures percentage == 100 ==> PercentageToValue(percentage, minimum, maximum) == maximum
  {
    var span := maximum - minimum;
    var q := (span * percentage) / 100;
    assert span * percentage <= span * 100 by {
      assert span * (100 - percentage) >= 0;
    }
    assert 100 * q <= span * percentage;
    assert q <= span;
  }

  /** A value within the range maps to a percentage in [0, 99]: the divisor
      counts the values of the range, so the maximum itself stays below 100. */
  lemma ValueToPercentageBounds(value: int, minimum: int, maximum: int)
    requires InRange(value, minimum, maximum)
    ensures 0 <= ValueToPercentage(value, minimum, maximum) <= 99
  {
    var x := value - minimum;
    var n := maximum - minimum + 1;
    var p := (x * 100) / n;
    assert n * p <= x * 100;
    assert x * 100 < n * 100;
  }

  /** The two conversions are not inverses. Converting a value to a
      percentage and back never overshoots it, and falls short by less than
      (span + 200) / 100 units. */
  lemma ValuePercentageRoundTrip(value: int, minimum: int, maximum: int)
    requires InRange(value, minimum, maximum)
    ensures var back := PercentageToValue(ValueToPercentage(value, minimum, maximum), minimum, maximum);
      back <= value && 100 * (value - back) < (maximum - minimum) + 200
  {
    ValueToPercentageBounds(value, minimum, maximum);
    var x := value - minimum;
    var span := maximum - minimum;
    var n := span + 1;
    var p := ValueToPercentage(value, minimum, maximum);
    assert p == (x * 100) / n;
    assert n * p <= x * 100 < n * p + n;
    var q := (span * p) / 100;
    assert PercentageToValue(p, minimum, maximum) == q + minimum;
    assert 100 * q <= span * p < 100 * q + 100;
    assert span * p <= n * p by {
      assert n * p - span * p == p;
    }
    assert span * p == n * p - p;
  }

  /** Over [0, 1000] the maximum reads as 99%, and 99% sets 990: the value
      drifts by ten units in one round trip. */
  lemma ValueRoundTripDrifts()
    ensures ValueToPercentage(1000, 0, 1000) == 99
    ensures PercentageToValue(ValueToPercentage(1000, 0, 1000), 0, 1000) == 990
  {
  }

  /** Over the two-value range [0, 1], 100% sets the maximum, which reads
      back as 50%. */
  lemma PercentageRoundTripLoses()
    ensures PercentageToValue(100, 0, 1) == 1
    ensures ValueToPercentage(PercentageToValue(100, 0, 1), 0, 1) == 50
  {
  }

  /** GetProperty_percentage: fails (None) when the value or the range cannot
      be read; otherwise converts the value with the range read. A range
      whose maximum is one below its minimum divides by zero. */
  function GetPropertyPercentage(b: Backend, p: CameraProperty): (r: Outcome<Option<PropertyValue>>)
    ensures !b.filterPresent ==> r == Throws(InvalidOperationException)
    ensures GetPropertyValue(b, p) == Ok(None) ==> r == Ok(None)
    ensures GetPropertyValue(b, p).Ok? && GetPropertyValue(b, p).value.Some? && GetPropertyRange(b, p) == Ok(None) ==> r == Ok(None)
    ensures r.Ok? && r.value.Some? ==>
      GetPropertyValue(b, p).Ok? && GetPropertyValue(b, p).value.Some? &&
      GetPropertyRange(b, p).Ok? && GetPropertyRange(b, p).value.Some? &&
      var v := GetPropertyValue(b, p).value.value;
      var rg := GetPropertyRange(b, p).value.value;
      r.value.value.isAuto == v.isAuto &&
      (InRange(v.value, rg.minimum, rg.maximum) ==> 0 <= r.value.value.value <= 99)
    ensures GetPropertyValue(b, p).Throws? ==> r == Throws(GetPropertyValue(b, p).error)
    ensures GetPropertyValue(b, p).Ok? ==> GetPropertyRange(b, p).Ok?
    ensures GetPropertyValue(b, p).Ok? && GetPropertyValue(b, p).value.Some? &&
            GetPropertyRange(b, p).Ok? && GetPropertyRange(b, p).value.Some? ==>
      var v := GetPropertyValue(b, p).value.value;
      var rg := GetPropertyRange(b, p).value.value;
      if rg.maximum - rg.minimum + 1 == 0 then r == Throws(DivideByZeroException)
      else r == Ok(Some(PropertyValue(ValueToPercentage(v.value, rg.minimum, rg.maximum), v.isAuto)))
  {
    match GetPropertyValue(b, p)
    case Throws(e) => Throws(e)
    case Ok(None) => Ok(None)
    case Ok(Some(v)) =>
      match GetPropertyRange(b, p)
      case Throws(e) => Throws(e)
      case Ok(None) => Ok(None)
      case Ok(Some(rg)) =>
        if rg.maximum - rg.minimum + 1 == 0 then Throws(DivideByZeroException)
        else
          assert InRange(v.value, rg.minimum, rg.maximum) ==>
                   0 <= ValueToPercentage(v.value, rg.minimum, rg.maximum) <= 99 by {
            if InRange(v.value, rg.minimum, rg.maximum) {
              ValueToPercentageBounds(v.value, rg.minimum, rg.maximum);
            }
          }
          Ok(Some(PropertyValue(ValueToPercentage(v.value, rg.minimum, rg.maximum), v.isAuto)))
  }

  /** SetProperty_percentage: throws ArgumentException for an unsupported
      property and ArgumentOutOfRangeException for a percentage outside
      [0, 100]; returns false when the range cannot be read; otherwise sets
      the converted value through the validating setter. */
  function SetPropertyPercentage(b: Backend, p: CameraProperty, percentage: int, bAuto: bool): (r: Outcome<bool>)
    ensures IsPropertySupported(b, p) == Ok(false) ==> r == Throws(ArgumentException)
    ensures IsPropertySupported(b, p) == Ok(true) && !(0 <= percentage <= 100) ==> r == Throws(ArgumentOutOfRangeException)
    ensures IsPropertySupported(b, p) == Ok(true) && 0 <= percentage <= 100 && GetPropertyRange(b, p) == Ok(None) ==> r == Ok(false)
    ensures IsPropertySupported(b, p).Throws? ==> r == Throws(IsPropertySupported(b, p).error)
    ensures IsPropertySupported(b, p) == Ok(true) && 0 <= percentage <= 100 &&
            GetPropertyRange(b, p).Ok? && GetPropertyRange(b, p).value.Some? ==>
      var rg := GetPropertyRange(b, p).value.value;
      r == SetPropertyValue(b, p, PercentageToValue(percentage, rg.minimum, rg.maximum), bAuto, true)
  {
    match IsPropertySupported(b, p)
    case Throws(e) => Throws(e)
    case Ok(supported) =>
      if !supported then
        Throws(ArgumentException)
      else if 0 <= percentage <= 100 then
        match GetPropertyRange(b, p)
        case Throws(e) => Throws(e)
        case Ok(None) => Ok(false)
        case Ok(Some(rg)) => SetPropertyValue(b, p, PercentageToValue(percentage, rg.minimum, rg.maximum), bAuto, true)
      else
        Throws(ArgumentOutOfRangeException)
  }

  /** For a supported property, a percentage in [0, 100] and a readable range
      with minimum <= maximum, the converted value lies in the range, passes
      validation, and the outcome is exactly the device's Set of that value. */
  lemma SetPropertyPercentageWritesValueInRange(b: Backend, p: CameraProperty, percentage: int, bAuto: bool)
    requires IsPropertySupported(b, p) == Ok(true) && 0 <= percentage <= 100
    requires GetPropertyRange(b, p).Ok? && GetPropertyRange(b, p).value.Some?
    requires GetPropertyRange(b, p).value.value.minimum <= GetPropertyRange(b, p).value.value.maximum
    ensures var rg := GetPropertyRange(b, p).value.value;
      var v := PercentageToValue(percentage, rg.minimum, rg.maximum);
      InRange(v, rg.minimum, rg.maximum) &&
      SetPropertyPercentage(b, p, percentage, bAuto) == Ok(b.device.setCall(InterfaceOf(p), BaseOf(p) as int, v, if bAuto then FlagsAuto else FlagsManual))
  {
    var rg := GetPropertyRange(b, p).value.value;
    PercentageToValueInRange(percentage, rg.minimum, rg.maximum);
  }

  /** A ranged property whose device reports its maximum below its minimum
      has no valid value: every percentage converts to at most the minimum,
      which validation rejects, so the setter throws. */
  lemma SetPropertyPercentageInvertedRangeThrows(b: Backend, p: CameraProperty, percentage: int, bAuto: bool)
    requires IsPropertySupported(b, p) == Ok(true) && 0 <= percentage <= 100 && PropertyHasRange(p)
    requires GetPropertyRange(b, p).Ok? && GetPropertyRange(b, p).value.Some?
    requires GetPropertyRange(b, p).value.value.maximum < GetPropertyRange(b, p).value.value.minimum
    ensures SetPropertyPercentage(b, p, percentage, bAuto) == Throws(ArgumentOutOfRangeException)
  {
    var rg := GetPropertyRange(b, p).value.value;
    var v := PercentageToValue(percentage, rg.minimum, rg.maximum);
    assert (rg.maximum - rg.minimum) * percentage <= 0;
    assert v <= rg.minimum;
    assert ValidatePropertyValue(b, p, v) == Ok(false);
  }

  /** WhiteBalance and Gain are not validated: the converted value is
      written whatever it is, so with an inverted range it lies outside
      [min, max]. */
  lemma SetPropertyPercentageUnrangedWritesUnchecked(b: Backend, p: CameraProperty, percentage: int, bAuto: bool)
    requires IsPropertySupported(b, p) == Ok(true) && 0 <= percentage <= 100 && !PropertyHasRange(p)
    requires GetPropertyRange(b, p).Ok? && GetPropertyRange(b, p).value.Some?
    ensures var rg := GetPropertyRange(b, p).value.value;
      var v := PercentageToValue(percentage, rg.minimum, rg.maximum);
      SetPropertyPercentage(b, p, percentage, bAuto) == Ok(b.device.setCall(InterfaceOf(p), BaseOf(p) as int, v, if bAuto then FlagsAuto else FlagsManual))
    ensures var rg := GetPropertyRange(b, p).value.value;
      rg.maximum < rg.minimum && percentage > 0 ==> !InRange(PercentageToValue(percentage, rg.minimum, rg.maximum), rg.minimum, rg.maximum)
  {
  }

  /** GetProperty: the absolute getter when isValue holds, the percentage
      getter otherwise. */
  function GetProperty(b: Backend, p: CameraProperty, isValue: bool): (r: Outcome<Option<PropertyValue>>)
    ensures isValue ==> r == GetPropertyValue(b, p)
    ensures !isValue ==> r == GetPropertyPercentage(b, p)
  {
    if isValue then GetPropertyValue(b, p) else GetPropertyPercentage(b, p)
  }

  /** SetProperty: the absolute setter (throwing on a validation error) when
      isValue holds, the percentage setter otherwise. */
  function SetProperty(b: Backend, p: CameraProperty, isValue: bool, value: int, bAuto: bool): (r: Outcome<bool>)
    ensures isValue ==> r == SetPropertyValue(b, p, value, bAuto, true)
    ensures !isValue ==> r == SetPropertyPercentage(b, p, value, bAuto)
  {
    if isValue then SetPropertyValue(b, p, value, bAuto, true) else SetPropertyPercentage(b, p, value, bAuto)
  }

  /** Probes a property: get is supported when the value can be read, set
      when writing that value back succeeds (tried only after a successful
      get), and range support is PropertyHasRange. */
  function GetPropertyCapability(b: Backend, activeCameraIndex: int, p: CameraProperty): (r: Outcome<CameraPropertyCapabilities>)
    ensures r.Ok? ==> r.value.prop == p && r.value.cameraIndex == activeCameraIndex
    ensures r.Ok? ==> (r.value.isSetSupported ==> r.value.isGetSupported)
    ensures r.Ok? ==> r.value.isGetRangeSupported == PropertyHasRange(p)
    ensures r.Ok? ==> GetPropertyValue(b, p).Ok? && (r.value.isGetSupported <==> GetPropertyValue(b, p).value.Some?)
    ensures GetPropertyValue(b, p).Throws? ==> r == Throws(GetPropertyValue(b, p).error)
    ensures GetPropertyValue(b, p).Ok? && GetPropertyValue(b, p).value.Some? ==>
      var v := GetPropertyValue(b, p).value.value;
      var writeBack := SetPropertyValue(b, p, v.value, v.isAuto, true);
      (writeBack.Throws? ==> r == Throws(writeBack.error)) &&
      (writeBack.Ok? ==> r.Ok? && r.value.isGetSupported && r.value.isSetSupported == writeBack.value)
  {
    var propertyHasRange := PropertyHasRange(p);
    match GetPropertyValue(b, p)
    case Throws(e) => Throws(e)
    case Ok(None) => Ok(CameraPropertyCapabilities(activeCameraIndex, p, false, false, propertyHasRange))
    case Ok(Some(v)) =>
      match SetPropertyValue(b, p, v.value, v.isAuto, true)
      case Throws(e) => Throws(e)
      case Ok(isSetSupported) => Ok(CameraPropertyCapabilities(activeCameraIndex, p, true, isSetSupported, propertyHasRange))
  }

  /** The write-back of the probe validates the value just read against the
      range just read: a device whose current value lies outside its own
      reported range makes the probe throw ArgumentOutOfRangeException, and
      otherwise set support is exactly what the device's Set answers. */
  lemma CapabilityWriteBackValidates(b: Backend, activeCameraIndex: int, p: CameraProperty)
    requires GetPropertyValue(b, p).Ok? && GetPropertyValue(b, p).value.Some?
    ensures var v := GetPropertyValue(b, p).value.value;
      ValidatePropertyValue(b, p, v.value) == Ok(false) ==>
      GetPropertyCapability(b, activeCameraIndex, p) == Throws(ArgumentOutOfRangeException)
    ensures var v := GetPropertyValue(b, p).value.value;
      ValidatePropertyValue(b, p, v.value) == Ok(true) ==>
      var r := GetPropertyCapability(b, activeCameraIndex, p);
      r.Ok? && r.value.isSetSupported == b.device.setCall(InterfaceOf(p), BaseOf(p) as int, v.value, if v.isAuto then FlagsAuto else FlagsManual)
  {
  }

  /** A concrete device whose Brightness reads 50 against a reported range of
      [0, 10]: probing it throws. */
  lemma CapabilityProbeThrowsOutsideReportedRange(b: Backend)
    requires b.filterPresent && b.device.queryInterface(IAMVideoProcAmp)
    requires b.device.get(IAMVideoProcAmp, 0) == Some(Reading(50, FlagsManual))
    requires b.device.getRange(IAMVideoProcAmp, 0) == Some(RangeReading(0, 10, 1, 5, FlagsManual))
    ensures GetPropertyCapability(b, 0, VideoProcAmp(Brightness)) == Throws(ArgumentOutOfRangeException)
  {
    CapabilityWriteBackValidates(b, 0, VideoProcAmp(Brightness));
  }

  // ---------------------------------------------------------------------
  // Capture format selection

  /** BITMAPINFOHEADER.biBitCount is a WORD: an unsigned 16-bit value. */
  type Word = x: int | 0 <= x < 0x1_0000

  /** One entry of the stream's capability list: whether GetStreamCaps
      succeeded for it, whether its format block is a VIDEOINFOHEADER of
      sufficient size, its dimensions and depth, and whether SetFormat would
      accept it. */
  datatype MediaFormat = MediaFormat(
    capsOk: bool,
    isVideoInfo: bool,
    headerFits: bool,
    width: int,
    height: int,
    bitCount: Word,
    setFormatOk: bool)

  /** The capture pin's stream configuration: whether FindInterface and
      GetNumberOfCapabilities succeed, whether the capability structure has
      the expected size, and the formats in the pin's order. */
  datatype StreamConfig = StreamConfig(
    interfaceFound: bool,
    countOk: bool,
    capsStructMatches: bool,
    formats: seq<MediaFormat>)

  /** The test applied to each format. biBitCount is unsigned, so its
      comparison with -1 never holds. */
  predicate FormatMatches(f: MediaFormat, width: int, height: int, bpp: int)
    ensures FormatMatches(f, width, height, bpp) ==>
      f.capsOk && f.isVideoInfo && f.headerFits && f.width == width && f.height == height && f.bitCount == bpp
  {
    f.capsOk && f.isVideoInfo && f.headerFits &&
    f.width == width && f.height == height && (f.bitCount == -1 || f.bitCount == bpp)
  }

  /** A format is selected only at exactly the requested depth: a request
      for any depth (bpp == -1) matches no format. */
  lemma AnyDepthRequestMatchesNothing(f: MediaFormat, width: int, height: int, bpp: int)
    ensures FormatMatches(f, width, height, bpp) ==> f.bitCount == bpp
    ensures !FormatMatches(f, width, height, -1)
  {
  }

  /** The position of the first matching format. */
  function FirstMatch(formats: seq<MediaFormat>, width: int, height: int, bpp: int): (r: Option<nat>)
    ensures r.Some? ==> r.value < |formats| && FormatMatches(formats[r.value], width, height, bpp)
    ensures r.Some? ==> forall j :: 0 <= j < r.value ==> !FormatMatches(formats[j], width, height, bpp)
    ensures r.None? ==> forall j :: 0 <= j < |formats| ==> !FormatMatches(formats[j], width, height, bpp)
  {
    if |formats| == 0 then None
    else if FormatMatches(formats[0], width, height, bpp) then Some(0)
    else
      match FirstMatch(formats[1..], width, height, bpp)
      case None => None
      case Some(k) => Some(k + 1)
  }

  /** Whether the HRESULT SetCaptureFormat returns is a success: a failed
      FindInterface or GetNumberOfCapabilities is returned as is; with a
      matching format, SetFormat's result; without one, the result of the
      last GetStreamCaps (success when the list is empty or the structure
      size differs). */
  function CaptureFormatSucceeds(config: StreamConfig, width: int, height: int, bpp: int): bool
  {
    if !config.interfaceFound || !config.countOk then false
    else if !config.capsStructMatches then true
    else
      match FirstMatch(config.formats, width, height, bpp)
      case Some(i) => config.formats[i].setFormatOk
      case None => |config.formats| == 0 || config.formats[|config.formats| - 1].capsOk
  }

  /** Applies the first format whose width and height equal the request and
      whose depth matches, and stops there; without a match no format is set. */
  method SetCaptureFormat(config: StreamConfig, width: int, height: int, bpp: int)
    returns (ok: bool, applied: Option<nat>)
    ensures applied == if config.interfaceFound && config.countOk && config.capsStructMatches
                       then FirstMatch(config.formats, width, height, bpp) else None
    ensures ok == CaptureFormatSucceeds(config, width, height, bpp)
  {
    applied := None;
    if !config.interfaceFound {
      return false, None;
    }
    if !config.countOk {
      return false, None;
    }
    ok := true;
    if config.capsStructMatches {
      var i := 0;
      while i < |config.formats|
        invariant 0 <= i <= |config.formats|
        invariant applied == None
        invariant forall j :: 0 <= j < i ==> !FormatMatches(config.formats[j], width, height, bpp)
        invariant ok == (i == 0 || config.formats[i - 1].capsOk)
      {
        var f := config.formats[i];
        ok := f.capsOk;
        if f.capsOk && f.isVideoInfo && f.headerFits {
          if f.width == width && f.height == height && (f.bitCount == -1 || f.bitCount == bpp) {
            ok := f.setFormatOk;
            applied := Some(i);
            break;
          }
        }
        i := i + 1;
      }
    }
  }

  // ---------------------------------------------------------------------
  // Start and stop

  const MaxCameras: nat := 10

  /** What building the filter graph in StartCamera meets: whether a managed
      subscriber is attached to OnImageCapture, whether the graph, capture
      graph builder and camera filter are created and joined, the stream
      configuration SetCaptureFormat works on, and the rest of the build. */
  datatype StartEnvironment = StartEnvironment(
    subscribed: bool,
    graphSetupOk: bool,
    streamConfig: StreamConfig,
    tail: GraphTail)

  /** After the format is set: the grabber, renderer and stream are set up
      and the negotiated size read back (or not), and Run succeeds (or not). */
  datatype GraphTail =
    | TailFailed
    | RunFailed(width: int, height: int, bpp: int)
    | Running(width: int, height: int, bpp: int)

  /** StartCamera succeeds exactly when every step of the build succeeds. */
  function StartSucceeds(env: StartEnvironment, width: int, height: int, bpp: int): bool
  {
    env.graphSetupOk && CaptureFormatSucceeds(env.streamConfig, width, height, bpp) && env.tail.Running?
  }

  /** The size written back to the caller: the negotiated one once the
      connected media type has been read, the requested one otherwise. */
  function NegotiatedSize(env: StartEnvironment, width: int, height: int, bpp: int): (int, int, int)
  {
    if env.graphSetupOk && CaptureFormatSucceeds(env.streamConfig, width, height, bpp) then
      match env.tail
      case TailFailed => (width, height, bpp)
      case RunFailed(w, h, d) => (w, h, d)
      case Running(w, h, d) => (w, h, d)
    else (width, height, bpp)
  }

  class CameraMethods {
    /** The number of cameras found by RefreshCameraList (at most MaxCameras). */
    const count: nat
    const device: Device
    /** The camera StartCamera last started, -1 after StopCamera. */
    var activeCameraIndex: int
    /** The filter graph and its filters exist (g_pGraphBuilder,
        g_pIBaseFilterCam and the others are non-null). */
    var graphBuilt: bool
    /** g_pfnCaptureCallback is non-null. */
    var captureCallbackInstalled: bool

    ghost predicate Valid()
      reads this
    {
      && (graphBuilt ==> 0 <= activeCameraIndex < count)
      && (!graphBuilt ==> !captureCallbackInstalled && (activeCameraIndex == -1 || activeCameraIndex == 0))
    }

    /** The enumeration stops after MaxCameras devices. The index field is
        left at the runtime's zero, not -1. */
    constructor (devicesFound: nat, device: Device)
      ensures Valid() && count <= MaxCameras
      ensures count == if devicesFound < MaxCameras then devicesFound else MaxCameras
      ensures this.device == device
      ensures activeCameraIndex == 0 && !graphBuilt && !captureCallbackInstalled
    {
      count := if devicesFound < MaxCameras then devicesFound else MaxCameras;
      this.device := device;
      activeCameraIndex := 0;
      graphBuilt := false;
      captureCallbackInstalled := false;
    }

    function CurrentBackend(): Backend
      reads this
    {
      Backend(graphBuilt, device)
    }

    /** Releases the graph, uninstalls the capture callback and records that
      no camera is active; safe to call in any state. */
    method StopCamera()
      modifies this
      ensures Valid()
      ensures !graphBuilt && !captureCallbackInstalled && activeCameraIndex == -1
    {
      captureCallbackInstalled := false;
      graphBuilt := false;
      activeCameraIndex := -1;
    }

    /** Throws ArgumentException for an index beyond the cameras found or when
        a graph already exists, leaving everything as it was. Otherwise
        builds the graph; on success the camera becomes the active one, on
        failure the graph is torn down as by StopCamera. */
    method StartCamera(camIndex: int, width: int, height: int, bpp: int, env: StartEnvironment)
      returns (r: Outcome<bool>, newWidth: int, newHeight: int, newBpp: int)
      requires Valid() && camIndex >= 0
      modifies this
      ensures Valid()
      ensures camIndex >= count || old(graphBuilt) ==>
        r == Throws(ArgumentException) && unchanged(this) && (newWidth, newHeight, newBpp) == (width, height, bpp)
      ensures camIndex < count && !old(graphBuilt) ==>
        r == Ok(StartSucceeds(env, width, height, bpp)) &&
        (newWidth, newHeight, newBpp) == NegotiatedSize(env, width, height, bpp)
      ensures r == Ok(true) ==> graphBuilt && activeCameraIndex == camIndex && captureCallbackInstalled == env.subscribed
      ensures r == Ok(false) ==> !graphBuilt && activeCameraIndex == -1 && !captureCallbackInstalled
    {
      newWidth, newHeight, newBpp := width, height, bpp;
      if camIndex >= count {
        r := Throws(ArgumentException);
        return;
      }
      if graphBuilt {
        r := Throws(ArgumentException);
        return;
      }
      if env.subscribed {
        captureCallbackInstalled := true;
      }
      var hr := env.graphSetupOk;
      if hr {
        var formatOk, _ := SetCaptureFormat(env.streamConfig, width, height, bpp);
        hr := formatOk;
      }
      if hr {
        match env.tail {
          case TailFailed =>
            hr := false;
          case RunFailed(w, h, d) =>
            newWidth, newHeight, newBpp := w, h, d;
            hr := false;
          case Running(w, h, d) =>
            newWidth, newHeight, newBpp := w, h, d;
        }
      }
      if !hr {
        StopCamera();
      } else {
        graphBuilt := true;
        activeCameraIndex := camIndex;
      }
      r := Ok(hr);
    }

    /** The capabilities of every property, keyed by property, probed in the
        order of the enumeration's values. */
    method PropertyCapabilities() returns (r: Outcome<map<CameraProperty, CameraPropertyCapabilities>>)
      ensures r == ProbeAll(CurrentBackend(), activeCameraIndex, AllProperties)
    {
      var b := CurrentBackend();
      var result: map<CameraProperty, CameraPropertyCapabilities> := map[];
      var i := 0;
      while i < |AllProperties|
        invariant 0 <= i <= |AllProperties|
        invariant ProbeAll(b, activeCameraIndex, AllProperties[..i]) == Ok(result)
      {
        var prop := AllProperties[i];
        assert AllProperties[..i + 1][..i] == AllProperties[..i];
        match GetPropertyCapability(b, activeCameraIndex, prop) {
          case Throws(e) =>
            assert ProbeAll(b, activeCameraIndex, AllProperties[..i + 1]) == Throws(e);
            ProbeAllStopsAtFirstFailure(b, activeCameraIndex, AllProperties, i + 1);
            return Throws(e);
          case Ok(c) =>
            if prop in result {
              assert ProbeAll(b, activeCameraIndex, AllProperties[..i + 1]) == Throws(ArgumentException);
              ProbeAllStopsAtFirstFailure(b, activeCameraIndex, AllProperties, i + 1);
              return Throws(ArgumentException);
            }
            result := result[prop := c];
        }
        i := i + 1;
      }
      assert AllProperties[..i] == AllProperties;
      r := Ok(result);
    }
  }

  /** The dictionary built by probing the properties in order: each probe's
      exception ends the walk, and adding a key that is already present
      throws ArgumentException, as Dictionary.Add does. */
  function ProbeAll(b: Backend, activeCameraIndex: int, props: seq<CameraProperty>): (r: Outcome<map<CameraProperty, CameraPropertyCapabilities>>)
    ensures r.Ok? ==> forall q :: q in r.value <==> q in props
    ensures r.Ok? ==> forall q :: q in r.value ==> r.value[q].prop == q && r.value[q].cameraIndex == activeCameraIndex
  {
    if |props| == 0 then Ok(map[])
    else
      var last := props[|props| - 1];
      match ProbeAll(b, activeCameraIndex, props[..|props| - 1])
      case Throws(e) => Throws(e)
      case Ok(m) =>
        match GetPropertyCapability(b, activeCameraIndex, last)
        case Throws(e) => Throws(e)
        case Ok(c) => if last in m then Throws(ArgumentException) else Ok(m[last := c])
  }

  /** Once a prefix of the walk fails, the whole walk fails the same way. */
  lemma {:induction false} ProbeAllStopsAtFirstFailure(b: Backend, activeCameraIndex: int, props: seq<CameraProperty>, k: nat)
    requires k <= |props| && ProbeAll(b, activeCameraIndex, props[..k]).Throws?
    ensures ProbeAll(b, activeCameraIndex, props) == ProbeAll(b, activeCameraIndex, props[..k])
    decreases |props| - k
  {
    if k < |props| {
      assert props[..k + 1][..k] == props[..k];
      ProbeAllStopsAtFirstFailure(b, activeCameraIndex, props, k + 1);
    } else {
      assert props[..k] == props;
    }
  }

  /** Over distinct properties the walk succeeds exactly when every probe
      does, and then maps each probed property, and only those, to its
      capabilities. */
  lemma {:induction false} ProbeAllSucceeds(b: Backend, activeCameraIndex: int, props: seq<CameraProperty>)
    requires forall i, j :: 0 <= i < j < |props| ==> props[i] != props[j]
    ensures ProbeAll(b, activeCameraIndex, props).Ok? <==>
      forall i :: 0 <= i < |props| ==> GetPropertyCapability(b, activeCameraIndex, props[i]).Ok?
    ensures ProbeAll(b, activeCameraIndex, props).Ok? ==>
      var m := ProbeAll(b, activeCameraIndex, props).value;
      (forall q :: q in m <==> q in props) &&
      (forall q :: q in m ==> m[q] == GetPropertyCapability(b, activeCameraIndex, q).value)
  {
    if |props| > 0 {
      var init := props[..|props| - 1];
      var last := props[|props| - 1];
      ProbeAllSucceeds(b, activeCameraIndex, init);
      assert forall i :: 0 <= i < |init| ==> init[i] == props[i];
      assert last !in init;
      assert forall q :: q in props <==> q in init || q == last;
    }
  }

  /** Probing the eighteen properties throws exactly when some single probe
      throws; otherwise every property is a key, mapped to its capabilities. */
  lemma PropertyCapabilitiesCoverEveryProperty(b: Backend, activeCameraIndex: int)
    ensures ProbeAll(b, activeCameraIndex, AllProperties).Ok? <==>
      forall p :: GetPropertyCapability(b, activeCameraIndex, p).Ok?
    ensures ProbeAll(b, activeCameraIndex, AllProperties).Ok? ==>
      forall p :: p in ProbeAll(b, activeCameraIndex, AllProperties).value &&
        ProbeAll(b, activeCameraIndex, AllProperties).value[p] == GetPropertyCapability(b, activeCameraIndex, p).value
  {
    AllPropertiesComplete(AllProperties[0]);
    forall i, j | 0 <= i < j < |AllProperties|
      ensures AllProperties[i] != AllProperties[j]
    {
      CodeInjective(AllProperties[i], AllProperties[j]);
    }
    ProbeAllSucceeds(b, activeCameraIndex, AllProperties);
    forall p
      ensures p in AllProperties
    {
      AllPropertiesComplete(p);
    }
  }
}
