/** The managed camera wrapper (Camera.cs): the value types describing
    property ranges and capture sizes, the orientation state machine behind
    FlipHorizontal, FlipVertical and RotateFlip, and the per-camera frame
    engine that stores every captured image and forwards frames to
    subscribers under an optional frame-rate limit. */
module VisionCamera {
  import opened Clr
  import opened Imaging

  // ---------------------------------------------------------------------
  // Property value and range records

  datatype CameraControlPropertyValue = CameraControlPropertyValue(value: Int32, isAuto: bool)
  {
    /** Manual is the negation of Auto: a value is manual exactly when it is
        the same value with the auto flag cleared. */
    predicate IsManual()
      ensures IsManual() <==> this == CameraControlPropertyValue(value, false)
    {
      !isAuto
    }
  }

  datatype CameraControlPropertyRange = CameraControlPropertyRange(
    minimum: Int32, maximum: Int32, step: Int32, defaults: Int32, isAuto: bool)
  {
    /** Maximum - Minimum in unchecked 32-bit arithmetic: the true
        difference whenever it fits, and in every case the amount that,
        added to Minimum with wrap-around, gives Maximum back. */
    function Range(): (r: Int32)
      ensures Int32Min <= maximum - minimum <= Int32Max ==> r == maximum - minimum
      ensures Wrap32(minimum + r) == maximum
    {
      var d := maximum - minimum;
      var r := Wrap32(d);
      var k := (d - r) / TwoTo32;
      assert d - r == k * TwoTo32;
      Wrap32Unique(minimum + r, maximum, -k);
      r
    }

    /** Manual is the negation of Auto, whatever the bounds. */
    predicate IsManual()
      ensures IsManual() <==> this == this.(isAuto := false)
    {
      !isAuto
    }
  }

  // ---------------------------------------------------------------------
  // CaptureSize

  /** The lexicographic order on (Width, Height, ColorDepth). */
  predicate LexLess(a: CaptureSize, b: CaptureSize)
  {
    || a.width < b.width
    || (a.width == b.width && a.height < b.height)
    || (a.width == b.width && a.height == b.height && a.colorDepth < b.colorDepth)
  }

  datatype CaptureSize = CaptureSize(width: Int32, height: Int32, colorDepth: Int32)
  {
    /** -1, 0 or 1 as this size is before, equal to or after the other in
        the lexicographic order on (Width, Height, ColorDepth). */
    function CompareTo(other: CaptureSize): (r: int)
      ensures r == -1 <==> LexLess(this, other)
      ensures r == 1 <==> LexLess(other, this)
      ensures r == 0 <==> this == other
    {
      if width < other.width then -1
      else if width > other.width then 1
      else if height < other.height then -1
      else if height > other.height then 1
      else if colorDepth < other.colorDepth then -1
      else if colorDepth > other.colorDepth then 1
      else 0
    }

    /** IEquatable: CompareTo gives 0. */
    function Equals(other: CaptureSize): (r: bool)
      ensures r <==> width == other.width && height == other.height && colorDepth == other.colorDepth
    {
      CompareTo(other) == 0
    }

    /** Object.Equals: false for null (None) or another type, otherwise
        the typed Equals. */
    function EqualsObject(obj: Option<CaptureSize>): (r: bool)
      ensures r <==> obj == Some(this)
    {
      match obj
      case None => false
      case Some(other) => Equals(other)
    }

    /** Width ^ (Height << 11) ^ (ColorDepth << 23) on 32-bit integers. */
    function GetHashCode(): (h: Int32)
      ensures ToBits(h) & 0x7FF == ToBits(width) & 0x7FF
    {
      var bits := ToBits(width) ^ (ToBits(height) << 11) ^ (ToBits(colorDepth) << 23);
      assert bits & 0x7FF == ToBits(width) & 0x7FF;
      FromBits(bits)
    }
  }

  /** CompareTo is antisymmetric and transitive, so it is a total order. */
  lemma CompareToIsTotalOrder(a: CaptureSize, b: CaptureSize, c: CaptureSize)
    ensures a.CompareTo(b) == -b.CompareTo(a)
    ensures a.CompareTo(b) <= 0 && b.CompareTo(c) <= 0 ==> a.CompareTo(c) <= 0
    ensures a.CompareTo(b) == 0 <==> a.Equals(b)
  {
  }

  /** Sizes that are Equal have the same hash code. Equals is equality of
      all three fields, so this holds of any function of the fields; the
      informative facts about the hash are its low-bits ensures and
      HashCollision. */
  lemma EqualSizesHashEqually(a: CaptureSize, b: CaptureSize)
    requires a.Equals(b)
    ensures a.GetHashCode() == b.GetHashCode()
  {
  }

  /** The hash is not injective: a width of 2048 lands on the bit a height
      of 1 sets. */
  lemma HashCollision()
    ensures !CaptureSize(2048, 0, 24).Equals(CaptureSize(0, 1, 24))
    ensures CaptureSize(2048, 0, 24).GetHashCode() == CaptureSize(0, 1, 24).GetHashCode()
  {
  }

  // ---------------------------------------------------------------------
  // Orientation

  /** System.Drawing.RotateFlipType: the rotation in quarter turns in the
      low two bits, a horizontal flip in the bit of value 4. */
  newtype RotateFlipType = x: int | 0 <= x < 8

  const RotateNoneFlipNone: RotateFlipType := 0
  const Rotate90FlipNone: RotateFlipType := 1
  const Rotate180FlipNone: RotateFlipType := 2
  const Rotate270FlipNone: RotateFlipType := 3
  const RotateNoneFlipX: RotateFlipType := 4
  const Rotate90FlipX: RotateFlipType := 5
  const Rotate180FlipX: RotateFlipType := 6
  const Rotate270FlipX: RotateFlipType := 7

  /** The FlipHorizontal getter. */
  predicate FlipsHorizontally(rf: RotateFlipType)
    ensures FlipsHorizontally(rf) ==> !QuarterTurn(rf)
  {
    rf == RotateNoneFlipX || rf == Rotate180FlipNone
  }

  /** The FlipVertical getter. */
  predicate FlipsVertically(rf: RotateFlipType)
    ensures FlipsVertically(rf) ==> !QuarterTurn(rf)
    ensures FlipsVertically(rf) && FlipsHorizontally(rf) <==> rf == Rotate180FlipNone
  {
    rf == Rotate180FlipX || rf == Rotate180FlipNone
  }

  /** An odd value turns the image a quarter (90 or 270 degrees). */
  predicate QuarterTurn(rf: RotateFlipType)
  {
    rf % 2 == 1
  }

  /** The value the FlipHorizontal setter assigns to RotateFlip. */
  function FlipHorizontalTarget(value: bool, current: RotateFlipType): (r: RotateFlipType)
    ensures FlipsHorizontally(r) == value && FlipsVertically(r) == FlipsVertically(current)
  {
    if value && FlipsVertically(current) then Rotate180FlipNone
    else if value && !FlipsVertically(current) then RotateNoneFlipX
    else if !value && FlipsVertically(current) then Rotate180FlipX
    else RotateNoneFlipNone
  }

  /** The value the FlipVertical setter assigns to RotateFlip. */
  function FlipVerticalTarget(value: bool, current: RotateFlipType): (r: RotateFlipType)
    ensures FlipsVertically(r) == value && FlipsHorizontally(r) == FlipsHorizontally(current)
  {
    if value && FlipsHorizontally(current) then Rotate180FlipNone
    else if value && !FlipsHorizontally(current) then Rotate180FlipX
    else if !value && FlipsHorizontally(current) then RotateNoneFlipX
    else RotateNoneFlipNone
  }

  /** Setting FlipHorizontal to v, from any state, makes the getter read v,
      keeps FlipVertical, and ends in an unrotated state; symmetrically for
      FlipVertical. */
  lemma FlipSettersAreIndependent(value: bool, current: RotateFlipType)
    ensures FlipsHorizontally(FlipHorizontalTarget(value, current)) == value
    ensures FlipsVertically(FlipHorizontalTarget(value, current)) == FlipsVertically(current)
    ensures !QuarterTurn(FlipHorizontalTarget(value, current))
    ensures FlipsVertically(FlipVerticalTarget(value, current)) == value
    ensures FlipsHorizontally(FlipVerticalTarget(value, current)) == FlipsHorizontally(current)
    ensures !QuarterTurn(FlipVerticalTarget(value, current))
  {
  }

  /** The orientation state of a camera: RotateFlip and the capture size. */
  datatype Geometry = Geometry(rotateFlip: RotateFlipType, width: int, height: int)

  /** The RotateFlip setter: width and height trade places when the old and
      new values differ in parity (one turns a quarter, the other not). */
  function WithRotateFlip(g: Geometry, value: RotateFlipType): (r: Geometry)
    ensures r.rotateFlip == value
    ensures {r.width, r.height} == {g.width, g.height}
  {
    if g.rotateFlip % 2 != value % 2 then Geometry(value, g.height, g.width)
    else Geometry(value, g.width, g.height)
  }

  /** The size of the image before rotation: the capture size, turned back
      when the current value turns a quarter. */
  function SensorSize(g: Geometry): (int, int)
  {
    if QuarterTurn(g.rotateFlip) then (g.height, g.width) else (g.width, g.height)
  }

  /** The setter swaps exactly on a parity change, keeps the unrotated size
      the same, and setting the old value back restores the old state. */
  lemma RotateFlipSwapsOnParityChange(g: Geometry, value: RotateFlipType)
    ensures QuarterTurn(g.rotateFlip) != QuarterTurn(value) ==>
      WithRotateFlip(g, value).width == g.height && WithRotateFlip(g, value).height == g.width
    ensures QuarterTurn(g.rotateFlip) == QuarterTurn(value) ==>
      WithRotateFlip(g, value).width == g.width && WithRotateFlip(g, value).height == g.height
    ensures SensorSize(WithRotateFlip(g, value)) == SensorSize(g)
    ensures WithRotateFlip(WithRotateFlip(g, value), g.rotateFlip) == g
  {
  }

  // ---------------------------------------------------------------------
  // Frame-rate throttle

  /** DateTime ticks: 100-nanosecond units since DateTime.MinValue, which is
      tick 0. */
  const TicksPerMillisecond: nat := 10000
  const MinValueTicks: nat := 0

  /** The time between frames, 1000 / Fps milliseconds: infinite for an Fps
      of 0, negative for a negative Fps. */
  datatype Interval = Finite(ms: real) | Infinite

  function IntervalFor(fps: int): (r: Interval)
    ensures fps == 0 <==> r.Infinite?
    ensures fps > 0 ==> r.Finite? && r.ms > 0.0
    ensures fps < 0 ==> r.Finite? && r.ms < 0.0
  {
    if fps == 0 then Infinite else Finite(1000.0 / fps as real)
  }

  /** x reaches the interval. */
  predicate Reaches(x: real, i: Interval)
  {
    i.Finite? && x >= i.ms
  }

  /** The scaled whole milliseconds between two tick counts: the ticks
      difference divided (rounding toward zero) by the ticks per
      millisecond, times 1.15. */
  function ElapsedMilliseconds(last: nat, now: nat): (r: real)
    ensures last <= now ==> r >= 0.0
    ensures now < last ==> r <= 0.0
    ensures last <= now < last + TicksPerMillisecond ==> r == 0.0
  {
    TruncDiv(now - last, TicksPerMillisecond as int) as real * 1.15
  }

  /** The fields the throttle reads and writes: _fpslimit, _timeBetweenFrames,
      _dtLastCap (as ticks) and _timeBehind. */
  datatype Throttle = Throttle(fpsLimit: int, timeBetweenFrames: Interval, lastCapture: nat, timeBehind: real)

  /** Whether a frame is forwarded, and the throttle's next state. */
  datatype Admission = Admission(forward: bool, next: Throttle)

  function Max0(x: real): real
  {
    if x < 0.0 then 0.0 else x
  }

  /** The decision ImageCaptured takes for a frame arriving at tick `now`:
      without a limit (-1) or for the first frame every frame is forwarded;
      otherwise a frame is forwarded iff the scaled elapsed time plus the
      backlog reaches the interval, and then the backlog becomes the
      overshoot (never negative); a dropped frame clears the backlog and
      keeps the last capture time. */
  function Admit(t: Throttle, now: nat): (r: Admission)
    ensures r.next.fpsLimit == t.fpsLimit && r.next.timeBetweenFrames == t.timeBetweenFrames
    ensures t.fpsLimit == -1 || t.lastCapture == MinValueTicks ==>
      r.forward && r.next == t.(lastCapture := now)
    ensures t.fpsLimit != -1 && t.lastCapture != MinValueTicks ==>
      (r.forward <==> Reaches(ElapsedMilliseconds(t.lastCapture, now) + t.timeBehind, t.timeBetweenFrames))
    ensures t.fpsLimit != -1 && t.lastCapture != MinValueTicks && r.forward ==>
      r.next == t.(lastCapture := now, timeBehind := Max0(ElapsedMilliseconds(t.lastCapture, now) - t.timeBetweenFrames.ms))
    ensures !r.forward ==> r.next == t.(timeBehind := 0.0)
    ensures t.timeBehind >= 0.0 ==> r.next.timeBehind >= 0.0
  {
    if t.fpsLimit != -1 && t.lastCapture != MinValueTicks then
      var ms := ElapsedMilliseconds(t.lastCapture, now);
      if Reaches(ms + t.timeBehind, t.timeBetweenFrames) then
        Admission(true, t.(lastCapture := now, timeBehind := Max0(ms - t.timeBetweenFrames.ms)))
      else
        Admission(false, t.(timeBehind := 0.0))
    else
      Admission(true, t.(lastCapture := now))
  }

  /** A frame forwarded at `now` would also be forwarded at any later tick:
      waiting longer never turns acceptance into a drop. */
  lemma LaterFrameIsAlsoForwarded(t: Throttle, now: nat, later: nat)
    requires now <= later && Admit(t, now).forward
    ensures Admit(t, later).forward
  {
    if t.fpsLimit != -1 && t.lastCapture != MinValueTicks {
      TruncDivMonotone(now - t.lastCapture, later - t.lastCapture, TicksPerMillisecond as int);
    }
  }

  /** The throttle over a run of frames arriving at the given ticks: which
      were forwarded, and the final state. */
  function AdmitAll(t: Throttle, arrivals: seq<nat>): (r: (seq<bool>, Throttle))
    ensures |r.0| == |arrivals|
    ensures r.1.fpsLimit == t.fpsLimit && r.1.timeBetweenFrames == t.timeBetweenFrames
    ensures |arrivals| > 0 ==> r.0[0] == Admit(t, arrivals[0]).forward
    ensures |arrivals| == 0 ==> r.1 == t
    decreases |arrivals|
  {
    if |arrivals| == 0 then ([], t)
    else
      var a := Admit(t, arrivals[0]);
      var rest := AdmitAll(a.next, arrivals[1..]);
      ([a.forward] + rest.0, rest.1)
  }

  /** A non-negative backlog stays non-negative over any run. */
  lemma {:induction false} BacklogStaysNonNegative(t: Throttle, arrivals: seq<nat>)
    requires t.timeBehind >= 0.0
    ensures AdmitAll(t, arrivals).1.timeBehind >= 0.0
    decreases |arrivals|
  {
    if |arrivals| > 0 {
      BacklogStaysNonNegative(Admit(t, arrivals[0]).next, arrivals[1..]);
    }
  }

  /** Without a limit every frame of a run is forwarded, and the last
      capture time is that of the last frame. */
  lemma {:induction false} NoLimitForwardsEveryFrame(t: Throttle, arrivals: seq<nat>)
    requires t.fpsLimit == -1
    ensures forall i :: 0 <= i < |arrivals| ==> AdmitAll(t, arrivals).0[i]
    ensures |arrivals| > 0 ==> AdmitAll(t, arrivals).1.lastCapture == arrivals[|arrivals| - 1]
    ensures AdmitAll(t, arrivals).1.timeBehind == t.timeBehind
    decreases |arrivals|
  {
    if |arrivals| > 0 {
      var next := Admit(t, arrivals[0]).next;
      NoLimitForwardsEveryFrame(next, arrivals[1..]);
    }
  }

  /** With Fps set to 0 the interval is infinite: once a frame has been
      forwarded, no later frame ever is. */
  lemma {:induction false} ZeroFpsForwardsNothingAfterFirst(t: Throttle, arrivals: seq<nat>)
    requires t.fpsLimit == 0 && t.timeBetweenFrames == IntervalFor(0) && t.lastCapture != MinValueTicks
    ensures forall i :: 0 <= i < |arrivals| ==> !AdmitAll(t, arrivals).0[i]
    ensures AdmitAll(t, arrivals).1.lastCapture == t.lastCapture
    decreases |arrivals|
  {
    if |arrivals| > 0 {
      var next := Admit(t, arrivals[0]).next;
      ZeroFpsForwardsNothingAfterFirst(next, arrivals[1..]);
    }
  }

  /** After a dropped frame the backlog is gone: the next frame is forwarded
      only if a whole interval has elapsed since the last forwarded one. */
  lemma AfterDropNeedsWholeInterval(t: Throttle, dropped: nat, now: nat)
    requires !Admit(t, dropped).forward
    ensures Admit(Admit(t, dropped).next, now).forward <==>
      Reaches(ElapsedMilliseconds(t.lastCapture, now), t.timeBetweenFrames)
  {
  }

  // ---------------------------------------------------------------------
  // The camera

  class Camera {
    const name: string
    const index: int
    var fpsLimit: int
    var timeBetweenFrames: Interval
    var width: int
    var height: int
    var bpp: int
    var rotateFlip: RotateFlipType
    /** The latest-frame slot (_bitmap); null until the first frame. */
    var bitmap: Bitmap?
    /** _dtLastCap as ticks. */
    var lastCapture: nat
    var timeBehind: real
    /** OnImageCaptured has at least one handler. */
    var hasSubscribers: bool
    /** The images passed to OnImageCaptured, in order. */
    var notifications: seq<Bitmap>

    ghost predicate Valid()
      reads this
    {
      && timeBehind >= 0.0
      && (fpsLimit != -1 ==> timeBetweenFrames == IntervalFor(fpsLimit))
    }

    /** A camera starts unrotated at 320 x 240, 24 bits per pixel, without a
        frame limit and without an image. */
    constructor (name: string, index: int)
      ensures Valid()
      ensures this.name == name && this.index == index
      ensures fpsLimit == -1 && !HasFrameLimit()
      ensures width == 320 && height == 240 && bpp == 24 && rotateFlip == RotateNoneFlipNone
      ensures bitmap == null && lastCapture == MinValueTicks && timeBehind == 0.0
      ensures !hasSubscribers && notifications == []
    {
      this.name := name;
      this.index := index;
      fpsLimit := -1;
      timeBetweenFrames := Finite(0.0);
      width := 320;
      height := 240;
      bpp := 24;
      rotateFlip := RotateNoneFlipNone;
      bitmap := null;
      lastCapture := MinValueTicks;
      timeBehind := 0.0;
      hasSubscribers := false;
      notifications := [];
    }

    function ThrottleState(): Throttle
      reads this
    {
      Throttle(fpsLimit, timeBetweenFrames, lastCapture, timeBehind)
    }

    function CurrentGeometry(): Geometry
      reads this
    {
      Geometry(rotateFlip, width, height)
    }

    /** -1 means no limit. */
    predicate HasFrameLimit()
      reads this
      ensures !HasFrameLimit() ==> forall now: nat :: Admit(ThrottleState(), now).forward
    {
      fpsLimit != -1
    }

    predicate FlipHorizontal()
      reads this
    {
      FlipsHorizontally(rotateFlip)
    }

    predicate FlipVertical()
      reads this
    {
      FlipsVertically(rotateFlip)
    }

    /** A handler is attached to OnImageCaptured. */
    method Subscribe()
      modifies this
      ensures hasSubscribers
      ensures ThrottleState() == old(ThrottleState()) && CurrentGeometry() == old(CurrentGeometry())
      ensures bitmap == old(bitmap) && notifications == old(notifications) && bpp == old(bpp)
    {
      hasSubscribers := true;
    }

    /** The Fps setter: the limit and the interval derived from it. */
    method SetFps(value: int)
      requires Valid()
      modifies this
      ensures Valid()
      ensures fpsLimit == value && timeBetweenFrames == IntervalFor(value)
      ensures HasFrameLimit() <==> value != -1
      ensures lastCapture == old(lastCapture) && timeBehind == old(timeBehind)
      ensures CurrentGeometry() == old(CurrentGeometry()) && bitmap == old(bitmap)
      ensures notifications == old(notifications) && hasSubscribers == old(hasSubscribers) && bpp == old(bpp)
    {
      fpsLimit := value;
      timeBetweenFrames := IntervalFor(value);
    }

    method SetRotateFlip(value: RotateFlipType)
      modifies this
      ensures CurrentGeometry() == WithRotateFlip(old(CurrentGeometry()), value)
      ensures ThrottleState() == old(ThrottleState()) && bitmap == old(bitmap)
      ensures notifications == old(notifications) && hasSubscribers == old(hasSubscribers) && bpp == old(bpp)
    {
      if rotateFlip % 2 != value % 2 {
        var temp := width;
        width := height;
        height := temp;
      }
      rotateFlip := value;
    }

    /** The FlipHorizontal setter: goes through the RotateFlip setter with
        the value that keeps the vertical flip. */
    method SetFlipHorizontal(value: bool)
      modifies this
      ensures CurrentGeometry() == WithRotateFlip(old(CurrentGeometry()), FlipHorizontalTarget(value, old(rotateFlip)))
      ensures FlipHorizontal() == value && FlipVertical() == old(FlipVertical())
      ensures ThrottleState() == old(ThrottleState()) && bitmap == old(bitmap)
      ensures notifications == old(notifications) && hasSubscribers == old(hasSubscribers) && bpp == old(bpp)
    {
      FlipSettersAreIndependent(value, rotateFlip);
      if value && FlipVertical() {
        SetRotateFlip(Rotate180FlipNone);
      } else if value && !FlipVertical() {
        SetRotateFlip(RotateNoneFlipX);
      } else if !value && FlipVertical() {
        SetRotateFlip(Rotate180FlipX);
      } else {
        SetRotateFlip(RotateNoneFlipNone);
      }
    }

    /** The FlipVertical setter: goes through the RotateFlip setter with the
        value that keeps the horizontal flip. */
    method SetFlipVertical(value: bool)
      modifies this
      ensures CurrentGeometry() == WithRotateFlip(old(CurrentGeometry()), FlipVerticalTarget(value, old(rotateFlip)))
      ensures FlipVertical() == value && FlipHorizontal() == old(FlipHorizontal())
      ensures ThrottleState() == old(ThrottleState()) && bitmap == old(bitmap)
      ensures notifications == old(notifications) && hasSubscribers == old(hasSubscribers) && bpp == old(bpp)
    {
      FlipSettersAreIndependent(value, rotateFlip);
      if value && FlipHorizontal() {
        SetRotateFlip(Rotate180FlipNone);
      } else if value && !FlipHorizontal() {
        SetRotateFlip(Rotate180FlipX);
      } else if !value && FlipHorizontal() {
        SetRotateFlip(RotateNoneFlipX);
      } else {
        SetRotateFlip(RotateNoneFlipNone);
      }
    }

    /** A captured image arriving at tick `now`: always stored in the slot,
        then forwarded to the subscribers (if any) when the throttle admits
        it, in which case the capture time is recorded. */
    method ImageCaptured(image: Bitmap, now: nat)
      requires Valid()
      modifies this
      ensures Valid()
      ensures bitmap == image
      ensures ThrottleState() == Admit(old(ThrottleState()), now).next
      ensures notifications == old(notifications) +
        (if Admit(old(ThrottleState()), now).forward && hasSubscribers then [image] else [])
      ensures CurrentGeometry() == old(CurrentGeometry()) && hasSubscribers == old(hasSubscribers) && bpp == old(bpp)
    {
      bitmap := image;
      if fpsLimit != -1 {
        if lastCapture != MinValueTicks {
          var milliseconds := ElapsedMilliseconds(lastCapture, now);
          if Reaches(milliseconds + timeBehind, timeBetweenFrames) {
            timeBehind := milliseconds - timeBetweenFrames.ms;
            if timeBehind < 0.0 {
              timeBehind := 0.0;
            }
          } else {
            timeBehind := 0.0;
            return;
          }
        }
      }
      if hasSubscribers {
        notifications := notifications + [image];
      }
      lastCapture := now;
    }

    /** A new copy of the latest image, or null before the first frame. */
    method GetCurrentImage() returns (b: Bitmap?)
      ensures bitmap == null ==> b == null
      ensures bitmap != null ==> b != null && fresh(b) && b.pixels == bitmap.pixels
    {
      if bitmap == null {
        return null;
      }
      b := new Bitmap.Copy(bitmap);
    }
  }

  /** The slot holds whatever arrived last, forwarded or dropped: after two
      frames the current image is a copy of the second, and before any frame
      there is none. */
  method LatestFrameWins(first: seq<int>, second: seq<int>, fps: int, t1: nat, t2: nat)
    returns (before: bool, latest: seq<int>)
    ensures !before && latest == second
  {
    var camera := new Camera("camera", 0);
    camera.SetFps(fps);
    var none := camera.GetCurrentImage();
    before := none != null;
    var a := new Bitmap(first);
    var b := new Bitmap(second);
    camera.ImageCaptured(a, t1);
    camera.ImageCaptured(b, t2);
    var current := camera.GetCurrentImage();
    latest := current.pixels;
  }
}
