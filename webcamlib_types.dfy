/** The property identifiers of the native library (WebCamLib.h): the two
    DirectShow property families, their masks, and the closed CameraProperty
    enumeration whose every value is a family's base value with the family's
    mask bit set. */
module WebCamLibTypes {
  import opened Clr

  /** PropertyTypeMask: one bit per property family. */
  datatype PropertyTypeMask = CameraControlPropertyMask | VideoProcAmpPropertyMask

  function MaskBits(m: PropertyTypeMask): (b: bv32)
    ensures b != 0 && b & (b - 1) == 0
    ensures b & 0xFFF == 0
  {
    match m
    case CameraControlPropertyMask => 0x1000
    case VideoProcAmpPropertyMask => 0x2000
  }

  /** The IAMCameraControl properties, in declaration order. */
  datatype CameraControlProperty =
    | Pan_degrees | Tilt_degrees | Roll_degrees | Zoom_mm
    | Exposure_lgSec | Iris_10f | FocalLength_mm | Flash

  /** The IAMVideoProcAmp properties, in declaration order. */
  datatype VideoProcAmpProperty =
    | Brightness | Contrast | Hue | Saturation | Sharpness
    | Gamma | ColorEnable | WhiteBalance | BacklightCompensation | Gain

  /** The value of a CameraControlProperty enumerator: its declaration index. */
  function ControlBase(c: CameraControlProperty): (b: bv32)
    ensures b < 8
  {
    match c
    case Pan_degrees => 0
    case Tilt_degrees => 1
    case Roll_degrees => 2
    case Zoom_mm => 3
    case Exposure_lgSec => 4
    case Iris_10f => 5
    case FocalLength_mm => 6
    case Flash => 7
  }

  /** The value of a VideoProcAmpProperty enumerator: its declaration index. */
  function ProcAmpBase(v: VideoProcAmpProperty): (b: bv32)
    ensures b < 10
  {
    match v
    case Brightness => 0
    case Contrast => 1
    case Hue => 2
    case Saturation => 3
    case Sharpness => 4
    case Gamma => 5
    case ColorEnable => 6
    case WhiteBalance => 7
    case BacklightCompensation => 8
    case Gain => 9
  }

  /** The eighteen CameraProperty values: eight camera-control properties
      and ten video-proc-amp properties. */
  datatype CameraProperty =
    | CameraControl(control: CameraControlProperty)
    | VideoProcAmp(procAmp: VideoProcAmpProperty)

  /** The family a property belongs to, as its mask. */
  function FamilyOf(p: CameraProperty): PropertyTypeMask
  {
    match p
    case CameraControl(_) => CameraControlPropertyMask
    case VideoProcAmp(_) => VideoProcAmpPropertyMask
  }

  /** The base value inside its family's enumeration. */
  function BaseOf(p: CameraProperty): (b: bv32)
    ensures b < 0x1000
  {
    match p
    case CameraControl(c) => ControlBase(c)
    case VideoProcAmp(v) => ProcAmpBase(v)
  }

  /** The integer value of a CameraProperty enumerator: `base | mask`. */
  function Code(p: CameraProperty): (c: bv32)
    ensures 0x1000 <= c < 0x3000
    ensures c & MaskBits(FamilyOf(p)) == MaskBits(FamilyOf(p))
  {
    BaseOf(p) | MaskBits(FamilyOf(p))
  }

  /** Decoding of a base value back to its camera-control enumerator. */
  function ControlFromBase(b: bv32): Option<CameraControlProperty>
  {
    if b == 0 then Some(Pan_degrees)
    else if b == 1 then Some(Tilt_degrees)
    else if b == 2 then Some(Roll_degrees)
    else if b == 3 then Some(Zoom_mm)
    else if b == 4 then Some(Exposure_lgSec)
    else if b == 5 then Some(Iris_10f)
    else if b == 6 then Some(FocalLength_mm)
    else if b == 7 then Some(Flash)
    else None
  }

  /** Decoding of a base value back to its video-proc-amp enumerator. */
  function ProcAmpFromBase(b: bv32): Option<VideoProcAmpProperty>
  {
    if b == 0 then Some(Brightness)
    else if b == 1 then Some(Contrast)
    else if b == 2 then Some(Hue)
    else if b == 3 then Some(Saturation)
    else if b == 4 then Some(Sharpness)
    else if b == 5 then Some(Gamma)
    else if b == 6 then Some(ColorEnable)
    else if b == 7 then Some(WhiteBalance)
    else if b == 8 then Some(BacklightCompensation)
    else if b == 9 then Some(Gain)
    else None
  }

  /** Reading an integer back as a CameraProperty: the mask bits above bit 11
      name the family, the low twelve bits the base value. */
  function FromCode(code: bv32): Option<CameraProperty>
  {
    var base := code & 0xFFF;
    var family := code & !0xFFF;
    if family == 0x1000 then
      match ControlFromBase(base)
      case Some(c) => Some(CameraControl(c))
      case None => None
    else if family == 0x2000 then
      match ProcAmpFromBase(base)
      case Some(v) => Some(VideoProcAmp(v))
      case None => None
    else None
  }

  /** The enumerators of each family decode back from their values. */
  lemma BaseRoundTrip(p: CameraProperty)
    ensures p.CameraControl? ==> ControlFromBase(BaseOf(p)) == Some(p.control)
    ensures p.VideoProcAmp? ==> ProcAmpFromBase(BaseOf(p)) == Some(p.procAmp)
  {
  }

  /** `base | mask` keeps the base in the low twelve bits and the family's
      single mask bit above them. */
  lemma EncodingSplits(p: CameraProperty)
    ensures Code(p) & 0xFFF == BaseOf(p)
    ensures Code(p) & !0xFFF == MaskBits(FamilyOf(p))
  {
  }

  /** Clearing the family's mask bit leaves the base value. */
  lemma ClearingMaskGivesBase(p: CameraProperty)
    ensures Code(p) & !MaskBits(FamilyOf(p)) == BaseOf(p)
  {
  }

  /** Decoding a CameraProperty's value gives the property back, so the
      eighteen values are pairwise distinct. */
  lemma CodeRoundTrip(p: CameraProperty)
    ensures FromCode(Code(p)) == Some(p)
  {
    EncodingSplits(p);
    BaseRoundTrip(p);
  }

  lemma CodeInjective(p: CameraProperty, q: CameraProperty)
    ensures Code(p) == Code(q) <==> p == q
  {
    CodeRoundTrip(p);
    CodeRoundTrip(q);
  }

  /** The two masks are distinct single bits that share no bit, so a value
      carries at most one family's mask. */
  lemma MasksDisjoint(p: CameraProperty)
    ensures MaskBits(CameraControlPropertyMask) & MaskBits(VideoProcAmpPropertyMask) == 0
    ensures (Code(p) & MaskBits(CameraControlPropertyMask) != 0) <==> p.CameraControl?
    ensures (Code(p) & MaskBits(VideoProcAmpPropertyMask) != 0) <==> p.VideoProcAmp?
  {
  }

  /** The values of CameraProperty in ascending order, the order in which the
      runtime enumerates them. */
  const AllProperties: seq<CameraProperty> := [
    CameraControl(Pan_degrees), CameraControl(Tilt_degrees), CameraControl(Roll_degrees),
    CameraControl(Zoom_mm), CameraControl(Exposure_lgSec), CameraControl(Iris_10f),
    CameraControl(FocalLength_mm), CameraControl(Flash),
    VideoProcAmp(Brightness), VideoProcAmp(Contrast), VideoProcAmp(Hue),
    VideoProcAmp(Saturation), VideoProcAmp(Sharpness), VideoProcAmp(Gamma),
    VideoProcAmp(ColorEnable), VideoProcAmp(WhiteBalance),
    VideoProcAmp(BacklightCompensation), VideoProcAmp(Gain)
  ]

  /** Every property is listed once, and the list ascends by value. */
  lemma AllPropertiesComplete(p: CameraProperty)
    ensures |AllProperties| == 18
    ensures p in AllProperties
    ensures forall i, j :: 0 <= i < j < |AllProperties| ==> Code(AllProperties[i]) < Code(AllProperties[j])
  {
    match p
    case CameraControl(c) => match c {
      case Pan_degrees => case Tilt_degrees => case Roll_degrees => case Zoom_mm =>
      case Exposure_lgSec => case Iris_10f => case FocalLength_mm => case Flash =>
    }
    case VideoProcAmp(v) => match v {
      case Brightness => case Contrast => case Hue => case Saturation => case Sharpness =>
      case Gamma => case ColorEnable => case WhiteBalance => case BacklightCompensation => case Gain =>
    }
  }
}
