# csharpWebCam core in Dafny

This project models the decision and arithmetic layer of the csharpWebCam
webcam wrapper. DirectShow, COM and System.Drawing are replaced by abstract
inputs.

Native library (WebCamLib):
- **Property identifiers** (`WebCamLibTypes`, from `WebCamLib.h`). There are two property families, each with a mask bit, and eighteen `CameraProperty` values. Each value is a family base value combined with its family's mask bit.
- **Sample-grabber callback** (`SampleGrabber`, from `WebCamLib.h`). It keeps a hand-written reference count and forwards each captured buffer to the global capture callback when one is installed.
- **Property engine and capture session** (`WebCamLib`, from `WebCamLib.cpp`). It covers:
  - capability flags;
  - mask tests and decoding;
  - routing of each property to its DirectShow interface;
  - range validation;
  - the absolute and percentage getters and setters;
  - capability probing and the capability dictionary;
  - first-match capture-format selection;
  - the active-camera state of `StartCamera` and `StopCamera`.

  Each COM call is answered by a `Device` value, which records whether `QueryInterface` succeeds and what `Get`, `GetRange` and `Set` report. A `Backend` pairs the device with whether a capture filter exists.

Managed wrapper (WebCamWrapper):
- **Camera** (`VisionCamera`, from `Camera.cs`). It covers:
  - the property range record and its `Range`;
  - `CaptureSize` with its order, equality and hash;
  - the orientation state machine of `FlipHorizontal`, `FlipVertical` and `RotateFlip`, including the width/height swap;
  - the per-camera frame engine: the latest-frame slot, the frame-rate throttle and notification of subscribers.
- **Frame** (`VisionContracts`, from `Frame.cs`). It covers the process-wide frame-id counter, the copy taken by the constructor, the lazily created working image, and the `ImageData` setter, which does nothing.

Shared vocabulary is in `Clr`:
- `Option` values, and an `Outcome` that is either a result or a thrown exception;
- 32-bit integers with unchecked wrap-around (`Wrap32`);
- C++/C# integer division, which truncates toward zero (`TruncDiv`).

`Imaging.Bitmap` is an opaque image: a class holding a pixel sequence, so identity and content can be told apart.

Where the comments disagree with the code, or the code's behaviour is easy to misread, the model follows the code:
- **Capture-format depth.** The comment above `SetCaptureFormat` (WebCamLib.cpp:1267) says a requested depth of -1 selects any depth. The code instead compares `biBitCount` with -1. `biBitCount` is an unsigned 16-bit `WORD`, so that comparison never holds and a request for depth -1 matches no format (`AnyDepthRequestMatchesNothing`).
- **Active camera before any start.** `activeCameraIndex` is documented as -1 when no camera is active. Before any start it is the runtime's zero, and it becomes -1 only after `StopCamera`.
- **Percentage formulas.** `SetProperty_percentage` scales by `max - min` (WebCamLib.cpp:720). `GetProperty_percentage` divides by `max - min + 1` (WebCamLib.cpp:648), so a value at the maximum reads as at most 99%.
- **Percentage round trip.** Because of the two different formulas, value -> percentage -> value drifts: over [0, 1000] the value 1000 reads as 99% and sets back as 990 (`ValueRoundTripDrifts`). Percentage -> value -> percentage can halve: 100% over [0, 1] reads back as 50% (`PercentageRoundTripLoses`).
- **Capability probe write-back.** `GetPropertyCapability` writes the value it just read back through the validating, throwing setter (WebCamLib.cpp:941). A device whose current value lies outside its own reported range makes the probe throw ArgumentOutOfRangeException, and through it the whole `PropertyCapabilities` call (`CapabilityProbeThrowsOutsideReportedRange`).

## Model

| member | source | states |
|---|---|---|
| WebCamLibTypes.ControlBase | WebCamLib/WebCamLib.h:50-60 | a camera-control enumerator's value is its declaration index, below 8 |
| WebCamLibTypes.ProcAmpBase | WebCamLib/WebCamLib.h:63-75 | a video-proc-amp enumerator's value is its declaration index, below 10 |
| WebCamLibTypes.BaseOf | WebCamLib/WebCamLib.h:77-97 | every property's base value lies below the mask bits (below 0x1000) |
| WebCamLibTypes.MaskBits | WebCamLib/WebCamLib.h:43-47 | each family mask is a single bit, clear of the low twelve bits that hold base values |
| WebCamLibTypes.Code | WebCamLib/WebCamLib.h:79-96 | a property's value lies in [0x1000, 0x3000) and carries its family's mask bit |
| WebCamLibTypes.BaseRoundTrip | WebCamLib/WebCamLib.h:50-75 | each family's base values decode back to their enumerators |
| WebCamLibTypes.EncodingSplits | WebCamLib/WebCamLib.h:79-96 | `base \| mask` keeps the base in the low twelve bits and exactly the family's mask above them |
| WebCamLibTypes.ClearingMaskGivesBase | WebCamLib/WebCamLib.h:79-96 | clearing the family's mask bit from a property's value gives its base value |
| WebCamLibTypes.CodeRoundTrip | WebCamLib/WebCamLib.h:79-96 | decoding a property's integer value gives the property back |
| WebCamLibTypes.CodeInjective | WebCamLib/WebCamLib.h:79-96 | two properties have the same value iff they are the same property, so the eighteen values are distinct |
| WebCamLibTypes.MasksDisjoint | WebCamLib/WebCamLib.h:43-47 | the masks share no bit, and a property's value carries the camera-control bit iff it is a camera-control property (and likewise for video-proc-amp) |
| WebCamLibTypes.AllPropertiesComplete | WebCamLib/WebCamLib.h:77-97 | the enumeration has eighteen values, lists every property, and ascends strictly by value |
| SampleGrabber.AsULong | WebCamLib/WebCamLib.h:394-402 | the signed count is returned unchanged as ULONG when non-negative, and as n + 2^32 when negative (after an over-release); always congruent to n modulo 2^32 |
| SampleGrabber.SampleGrabberCB.constructor | WebCamLib/WebCamLib.h:364-367 | a new callback object has reference count 0 |
| SampleGrabber.SampleGrabberCB.SampleCB | WebCamLib/WebCamLib.h:369-372 | always fails with E_FAIL |
| SampleGrabber.SampleGrabberCB.BufferCB | WebCamLib/WebCamLib.h:374-382 | returns S_OK; the buffer and its length reach the capture callback exactly when one is installed, and nothing else changes |
| SampleGrabber.SampleGrabberCB.QueryInterface | WebCamLib/WebCamLib.h:384-387 | always fails with E_FAIL |
| SampleGrabber.SampleGrabberCB.AddRef | WebCamLib/WebCamLib.h:389-392 | increments the count and returns the incremented count |
| SampleGrabber.SampleGrabberCB.Release | WebCamLib/WebCamLib.h:394-402 | decrements the count, returns the new count, and deletes the object iff the count is 0 or below |
| SampleGrabber.InstalledCallbackLifecycle | WebCamLib/WebCamLib.h:364-402 | new, AddRef, Release: the counts returned are 1 then 0, and the object ends deleted |
| WebCamLib.CameraPropertyCapabilities.IsSupported | WebCamLib/WebCamLib.cpp:121-124 | false exactly when none of get, set and range is supported |
| WebCamLib.CameraPropertyCapabilities.IsFullySupported | WebCamLib/WebCamLib.cpp:126-129 | true exactly when get, set and range are all supported; it implies IsSupported |
| WebCamLib.IsPropertyMaskEqual | WebCamLib/WebCamLib.cpp:566-569 | the value has the mask's bit iff the property belongs to that mask's family |
| WebCamLib.IsCameraControlProperty | WebCamLib/WebCamLib.cpp:556-559 | true exactly for the eight camera-control properties |
| WebCamLib.IsVideoProcAmpProperty | WebCamLib/WebCamLib.cpp:561-564 | true exactly for the ten video-proc-amp properties |
| WebCamLib.GetCameraControlProperty | WebCamLib/WebCamLib.cpp:588-600 | a camera-control property decodes to its base enumerator; a video-proc-amp property throws OverflowException |
| WebCamLib.GetVideoProcAmpProperty | WebCamLib/WebCamLib.cpp:602-614 | a video-proc-amp property decodes to its base enumerator; a camera-control property throws OverflowException |
| WebCamLib.Dispatch | WebCamLib/WebCamLib.cpp:735-745 | every property is routed, without throwing, to its family's interface at its base number |
| WebCamLib.TargetSupported | WebCamLib/WebCamLib.cpp:514-554 | one family's support overload: NullReferenceException with no filter, InvalidOperationException when QueryInterface fails, otherwise true iff the interface's Get succeeds |
| WebCamLib.TargetRange | WebCamLib/WebCamLib.cpp:747-801 | one family's range overload: throws iff there is no filter; a range iff QueryInterface and GetRange succeed, with the device's bounds and auto meaning flags == 1 |
| WebCamLib.TargetValue | WebCamLib/WebCamLib.cpp:803-853 | one family's value getter: throws InvalidOperationException iff there is no camera; a value iff QueryInterface and Get succeed, with the device's value and auto meaning flags == 1 |
| WebCamLib.TargetSet | WebCamLib/WebCamLib.cpp:855-897 | one family's value setter: throws InvalidOperationException iff there is no camera; false when QueryInterface fails; otherwise the device's Set with the auto or manual flag, so true only when Set succeeds |
| WebCamLib.IsPropertySupported | WebCamLib/WebCamLib.cpp:502-554 | with no filter it throws NullReferenceException; if the interface query fails it throws InvalidOperationException; otherwise it is true iff the device's Get succeeds |
| WebCamLib.GetPropertyRange | WebCamLib/WebCamLib.cpp:747-801 | with no filter it throws NullReferenceException; otherwise a range is returned iff the interface query and GetRange both succeed, and it is exactly the device's range, with auto meaning flags == 1 |
| WebCamLib.GetPropertyValue | WebCamLib/WebCamLib.cpp:803-853 | with no camera started it throws InvalidOperationException; otherwise a value is returned iff the interface query and Get both succeed, and it is the device's value with auto meaning flags == 1 |
| WebCamLib.PropertyHasRange | WebCamLib/WebCamLib.cpp:904-909 | false exactly for WhiteBalance and Gain |
| WebCamLib.ValidatePropertyValue | WebCamLib/WebCamLib.cpp:916-930 | true for properties without a range; otherwise min <= value <= max against the range read, or against the stale bounds when that read fails; throws as the range read does |
| WebCamLib.SetPropertyValue | WebCamLib/WebCamLib.cpp:686-701 | the device's Set is reached only for a valid value; an invalid value throws ArgumentOutOfRangeException if throwValidationError, else returns false; validation's exception propagates |
| WebCamLib.SetPropertyValueSkipsBackendWhenInvalid | WebCamLib/WebCamLib.cpp:686-701 | when validation rejects the value the result does not depend on the device's Set at all, and it is never success |
| WebCamLib.ValueToPercentage | WebCamLib/WebCamLib.cpp:648 | for v >= min and min <= max, the percentage p satisfies p * (max-min+1) <= (v-min)*100 < (p+1) * (max-min+1): the floor of the scaled offset; below the minimum it is at most 0 |
| WebCamLib.PercentageToValue | WebCamLib/WebCamLib.cpp:720 | for p >= 0 and min <= max, the value v satisfies 100 * (v-min) <= (max-min)*p < 100 * (v-min+1): the minimum plus the floor of p% of the span |
| WebCamLib.PercentageToValueInRange | WebCamLib/WebCamLib.cpp:720 | for min <= max and 0 <= p <= 100 the value `((max-min)*p)/100 + min` lies in [min, max]; 0% gives min and 100% gives max |
| WebCamLib.ValueToPercentageBounds | WebCamLib/WebCamLib.cpp:648 | for v in [min, max] the percentage `((v-min)*100)/(max-min+1)` lies in [0, 99] |
| WebCamLib.ValuePercentageRoundTrip | WebCamLib/WebCamLib.cpp:648-720 | value -> percentage -> value never overshoots, and falls short by less than (max-min+200)/100 units |
| WebCamLib.ValueRoundTripDrifts | WebCamLib/WebCamLib.cpp:648-720 | over [0, 1000] the value 1000 reads as 99%, which sets back as 990 |
| WebCamLib.PercentageRoundTripLoses | WebCamLib/WebCamLib.cpp:648-720 | over [0, 1], 100% sets 1, which reads back as 50%: the conversions are not inverses |
| WebCamLib.GetPropertyPercentage | WebCamLib/WebCamLib.cpp:638-652 | the value read's exception or failure decides the result; then the range read's; with both read, the range read then never throws; it throws DivideByZeroException when max - min + 1 == 0 and otherwise returns ValueToPercentage of the value with the value's auto flag, which lies in [0, 99] whenever the value lies in the range |
| WebCamLib.SetPropertyPercentage | WebCamLib/WebCamLib.cpp:708-728 | throws ArgumentException for an unsupported property and ArgumentOutOfRangeException for a percentage outside [0, 100]; returns false when the range cannot be read; support-check exceptions propagate; with the range read, the outcome is the throwing value setter applied to PercentageToValue of the percentage |
| WebCamLib.SetPropertyPercentageInvertedRangeThrows | WebCamLib/WebCamLib.cpp:708-728 | for a ranged property whose device reports max < min, every percentage in [0, 100] throws ArgumentOutOfRangeException |
| WebCamLib.SetPropertyPercentageUnrangedWritesUnchecked | WebCamLib/WebCamLib.cpp:708-728 | for WhiteBalance and Gain the converted value is written without validation, and with an inverted range and a positive percentage it lies outside [min, max] |
| WebCamLib.SetPropertyPercentageWritesValueInRange | WebCamLib/WebCamLib.cpp:708-728 | for a supported property, p in [0, 100] and a readable range with min <= max, the converted value lies in the range and the outcome is exactly the device's Set of it |
| WebCamLib.GetProperty | WebCamLib/WebCamLib.cpp:576-586 | the absolute getter when isValue, the percentage getter otherwise |
| WebCamLib.SetProperty | WebCamLib/WebCamLib.cpp:659-669 | the throwing absolute setter when isValue, the percentage setter otherwise |
| WebCamLib.GetPropertyCapability | WebCamLib/WebCamLib.cpp:932-948 | range support equals PropertyHasRange; get support holds iff the value read succeeds, and the read's exception propagates; after a successful read, the write-back of that value through the throwing setter decides the rest: its exception propagates, and otherwise set support is its result |
| WebCamLib.CapabilityWriteBackValidates | WebCamLib/WebCamLib.cpp:932-948 | after a successful read, the probe throws ArgumentOutOfRangeException when the value read fails validation, and otherwise set support is exactly the device's Set of that value |
| WebCamLib.CapabilityProbeThrowsOutsideReportedRange | WebCamLib/WebCamLib.cpp:932-948 | a device reading Brightness as 50 against a reported range of [0, 10] makes the probe throw ArgumentOutOfRangeException |
| WebCamLib.FormatMatches | WebCamLib/WebCamLib.cpp:1297-1309 | a matching format was read successfully, is a large enough VIDEOINFOHEADER, and has exactly the requested width, height and depth |
| WebCamLib.AnyDepthRequestMatchesNothing | WebCamLib/WebCamLib.cpp:1309 | a format matches only at exactly the requested depth, so a depth request of -1 matches no format |
| WebCamLib.FirstMatch | WebCamLib/WebCamLib.cpp:1289-1321 | the index returned is that of a matching format with no match before it; None means no format matches |
| WebCamLib.SetCaptureFormat | WebCamLib/WebCamLib.cpp:1269-1325 | applies exactly the first matching format, or none when there is no match or the lookups fail; success follows FindInterface, GetNumberOfCapabilities, then SetFormat or the last GetStreamCaps |
| WebCamLib.CameraMethods.constructor | WebCamLib/WebCamLib.cpp:206-272 | at most MAX_CAMERAS (10) cameras are counted; no graph, no callback, and an active index of 0 |
| WebCamLib.CameraMethods.StopCamera | WebCamLib/WebCamLib.cpp:984-1026 | from any state, leaves no graph, no callback and an active index of -1 (so it can be repeated) |
| WebCamLib.CameraMethods.StartCamera | WebCamLib/WebCamLib.cpp:299-494 | throws ArgumentException, changing nothing, for an index >= Count or an existing graph; otherwise it succeeds iff every build step does; on success it sets the active index to camIndex, and on failure it tears down as StopCamera; the negotiated size is written back |
| WebCamLib.CameraMethods.PropertyCapabilities | WebCamLib/WebCamLib.cpp:950-963 | the loop builds exactly the dictionary (or exception) of probing the properties in enumeration order |
| WebCamLib.ProbeAll | WebCamLib/WebCamLib.cpp:950-963 | a successful walk has exactly the probed properties as keys, each mapped to capabilities of that property at the active camera index |
| WebCamLib.ProbeAllStopsAtFirstFailure | WebCamLib/WebCamLib.cpp:950-963 | the first exception during the walk is the walk's outcome |
| WebCamLib.ProbeAllSucceeds | WebCamLib/WebCamLib.cpp:950-963 | over distinct properties the walk succeeds iff every probe does, mapping each probed property (and no other) to its capabilities |
| WebCamLib.PropertyCapabilitiesCoverEveryProperty | WebCamLib/WebCamLib.cpp:950-963 | the dictionary exists iff no probe throws, and then has every property as a key, mapped to its probe's result |
| Clr.TruncDiv | WebCamLib/WebCamLib.cpp:648 | integer division rounds toward zero: the remainder a - q*b has the dividend's sign and is smaller in magnitude than the divisor, and the quotient has the sign of the operands' product |
| Clr.Wrap32 | WebCamWrapper/Camera/Camera.cs:79 | unchecked int arithmetic: the identity within Int32, and always congruent to the exact result modulo 2^32 |
| Clr.TruncDivMonotone | WebCamWrapper/Camera/Camera.cs:646 | the truncated millisecond count is monotone in the tick difference |
| Imaging.Bitmap.Copy | WebCamWrapper/Camera/Camera.cs:412 | copying a bitmap gives a new object with the same pixels |
| VisionCamera.CameraControlPropertyValue.IsManual | WebCamWrapper/Camera/Camera.cs:43-49 | a value is manual exactly when it is the same value with Auto cleared |
| VisionCamera.CameraControlPropertyRange.IsManual | WebCamWrapper/Camera/Camera.cs:101-107 | a range is manual exactly when it is the same range with Auto cleared |
| VisionCamera.CameraControlPropertyRange.Range | WebCamWrapper/Camera/Camera.cs:75-81 | Maximum - Minimum when it fits in 32 bits; in every case Minimum + Range wraps to Maximum |
| VisionCamera.CaptureSize.CompareTo | WebCamWrapper/Camera/Camera.cs:144-170 | -1, 1 or 0 exactly when this size is before, after or equal to the other in the lexicographic order on (Width, Height, ColorDepth) |
| VisionCamera.CaptureSize.Equals | WebCamWrapper/Camera/Camera.cs:176-179 | true iff all three fields are equal |
| VisionCamera.CaptureSize.EqualsObject | WebCamWrapper/Camera/Camera.cs:183-192 | true iff the object is a CaptureSize equal to this one; false for null |
| VisionCamera.CompareToIsTotalOrder | WebCamWrapper/Camera/Camera.cs:144-179 | CompareTo is antisymmetric and transitive, and agrees with Equals |
| VisionCamera.CaptureSize.GetHashCode | WebCamWrapper/Camera/Camera.cs:194-203 | the low eleven bits of the hash are the width's, since height and depth are shifted above them |
| VisionCamera.EqualSizesHashEqually | WebCamWrapper/Camera/Camera.cs:194-203 | equal sizes have equal hash codes |
| VisionCamera.HashCollision | WebCamWrapper/Camera/Camera.cs:194-203 | the 32-bit hash collides for distinct sizes (2048 x 0 and 0 x 1) |
| VisionCamera.FlipsHorizontally | WebCamWrapper/Camera/Camera.cs:310-313 | a horizontally flipped state is never a quarter turn |
| VisionCamera.FlipsVertically | WebCamWrapper/Camera/Camera.cs:338-341 | a vertically flipped state is never a quarter turn, and the state flips both ways iff it is Rotate180FlipNone |
| VisionCamera.FlipHorizontalTarget | WebCamWrapper/Camera/Camera.cs:315-333 | the target reads the requested horizontal flip and keeps the vertical flip |
| VisionCamera.FlipVerticalTarget | WebCamWrapper/Camera/Camera.cs:343-361 | the target reads the requested vertical flip and keeps the horizontal flip |
| VisionCamera.FlipSettersAreIndependent | WebCamWrapper/Camera/Camera.cs:308-362 | from any state, setting FlipHorizontal to v makes it read v, keeps FlipVertical and ends unrotated; symmetrically for FlipVertical |
| VisionCamera.WithRotateFlip | WebCamWrapper/Camera/Camera.cs:373-383 | the new value is stored and the width and height are the old two, possibly swapped |
| VisionCamera.RotateFlipSwapsOnParityChange | WebCamWrapper/Camera/Camera.cs:367-384 | width and height trade places exactly when old and new values differ in parity; the unrotated size is preserved; setting the old value back restores the state |
| VisionCamera.IntervalFor | WebCamWrapper/Camera/Camera.cs:247-251 | 1000/Fps ms is infinite exactly for Fps 0, positive for a positive Fps and negative for a negative one |
| VisionCamera.ElapsedMilliseconds | WebCamWrapper/Camera/Camera.cs:646 | non-negative for a later tick, non-positive for an earlier one, and 0 for a difference under one millisecond (whole milliseconds are counted) |
| VisionCamera.Admit | WebCamWrapper/Camera/Camera.cs:641-669 | no limit or first frame: forwarded and time recorded; otherwise forwarded iff scaled elapsed ms + backlog reaches the interval, the backlog becoming max(0, elapsed - interval); a drop clears the backlog and keeps the last time; the backlog stays non-negative |
| VisionCamera.LaterFrameIsAlsoForwarded | WebCamWrapper/Camera/Camera.cs:644-659 | a frame that would be forwarded at some tick is also forwarded at any later tick |
| VisionCamera.AdmitAll | WebCamWrapper/Camera/Camera.cs:641-669 | over a run, one decision per frame, the first being Admit's; the limit and interval are never changed by frames |
| VisionCamera.BacklogStaysNonNegative | WebCamWrapper/Camera/Camera.cs:646-659 | over any run of frames the backlog never becomes negative |
| VisionCamera.NoLimitForwardsEveryFrame | WebCamWrapper/Camera/Camera.cs:641-669 | with Fps -1 every frame of a run is forwarded, the last capture time is the last frame's, and the backlog is untouched |
| VisionCamera.ZeroFpsForwardsNothingAfterFirst | WebCamWrapper/Camera/Camera.cs:646-659 | with Fps 0, once a frame has been forwarded no later frame ever is |
| VisionCamera.AfterDropNeedsWholeInterval | WebCamWrapper/Camera/Camera.cs:646-659 | after a drop, the next frame is forwarded iff a whole interval has elapsed since the last forwarded frame |
| VisionCamera.Camera.constructor | WebCamWrapper/Camera/Camera.cs:580-590 | a camera starts unrotated at 320 x 240 x 24, without limit, image, last capture or backlog |
| VisionCamera.Camera.HasFrameLimit | WebCamWrapper/Camera/Camera.cs:642 | without a limit (-1) a frame arriving at any tick is forwarded |
| VisionCamera.Camera.Subscribe | WebCamWrapper/Camera/Camera.cs:567 | attaching a handler changes nothing but the subscription |
| VisionCamera.Camera.SetFps | WebCamWrapper/Camera/Camera.cs:241-252 | sets the limit and its interval; HasFrameLimit holds iff the value is not -1; nothing else changes |
| VisionCamera.Camera.SetRotateFlip | WebCamWrapper/Camera/Camera.cs:367-384 | the new orientation and size are WithRotateFlip of the old; nothing else changes |
| VisionCamera.Camera.SetFlipHorizontal | WebCamWrapper/Camera/Camera.cs:308-334 | FlipHorizontal reads the value afterwards, FlipVertical is kept, and the size follows the RotateFlip setter |
| VisionCamera.Camera.SetFlipVertical | WebCamWrapper/Camera/Camera.cs:336-362 | FlipVertical reads the value afterwards, FlipHorizontal is kept, and the size follows the RotateFlip setter |
| VisionCamera.Camera.ImageCaptured | WebCamWrapper/Camera/Camera.cs:631-670 | every image is stored in the slot; the throttle fields move as Admit says; subscribers get the image exactly when it is admitted and there are subscribers |
| VisionCamera.Camera.GetCurrentImage | WebCamWrapper/Camera/Camera.cs:402-416 | null before the first frame, afterwards a new object with the stored image's pixels |
| VisionCamera.LatestFrameWins | WebCamWrapper/Camera/Camera.cs:636-639 | there is no image before any frame; after two frames the current image is the second, whether or not it was forwarded |
| VisionContracts.IdsIncreaseUntilWrap | WebCamWrapper/Contracts/Frame.cs:62-73 | the first Int32Max ids are strictly increasing from 1; after 2^32 ids the counter repeats |
| VisionContracts.IdCounter.constructor | WebCamWrapper/Contracts/Frame.cs:62 | the counter starts at 1 with no id issued |
| VisionContracts.IdCounter.NextId | WebCamWrapper/Contracts/Frame.cs:63-73 | returns the current id and advances the counter by one, with 32-bit wrap-around; the n-th id issued is n + 1 wrapped |
| VisionContracts.Frame.constructor | WebCamWrapper/Contracts/Frame.cs:33-37 | the frame takes the next id and keeps a new copy of the image, not the caller's object |
| VisionContracts.NewFrame | WebCamWrapper/Contracts/Frame.cs:33-37 | the id is always consumed; a null image then throws NullReferenceException, and otherwise a new frame holds that id and a copy of the image |
| VisionContracts.Frame.GetImage | WebCamWrapper/Contracts/Frame.cs:21-29 | the first read creates and keeps a copy of OriginalImage (throwing NullReferenceException for a null original); later reads return the kept object |
| VisionContracts.Frame.SetImage | WebCamWrapper/Contracts/Frame.cs:30 | assignment replaces the working image and nothing else |
| VisionContracts.Frame.GetImageData | WebCamWrapper/Contracts/Frame.cs:42-55 | the working image, created as by the Image getter, encoded |
| VisionContracts.Frame.SetImageData | WebCamWrapper/Contracts/Frame.cs:57 | has no effect |
| VisionContracts.FrameLifecycle | WebCamWrapper/Contracts/Frame.cs:19-37 | two frames get ids 1 and 3 around a failed null construction, which consumed id 2; the original is a copy; rereading Image returns the same object; an assigned image is read back |

## Left out

- DirectShow and COM plumbing is not modelled: graph construction, moniker enumeration, property dialogs, `ConfigureSampleGrabber`, media-type freeing and `Cleanup`. These are foreign calls. Their outcomes are inputs: the `Device` answers, the `StartEnvironment` build outcomes and the `StreamConfig` formats.
- `RefreshCameraList` is reduced to the number of devices found. The camera names and monikers are not modelled.
- `GetCaptureSizes`, `CaptureSizes` and `GetCameraInfo` are not modelled. They enumerate device data through COM.
- The `pMoniker == NULL` check in `StartCamera` is not modelled. Every index below Count has a moniker.
- WebCamLib.CameraMethods.StartCamera: requires camIndex >= 0. The source indexes its camera array with a negative index unchecked, which is undefined behaviour.
- Reflection-based hookup of `OnImageCapture` and `GCHandle` pinning are reduced to whether a managed subscriber exists.
- `CaptureCallbackProc` is not modelled: building a Bitmap from the raw buffer, the pixel-level RotateFlip, Clone, and PNG encoding are library calls. `Bitmap` is opaque and `GetImageData` takes the encoder as a parameter.
- Locks (`CameraMethodsLock`, `_bitmapLock`, `SyncObject`) are not modelled. Every operation is modelled sequentially.
- VisionCamera.Admit: `1000.0 / Fps` and `* 1.15` are computed on exact reals, not IEEE doubles. Rounding is not modelled.
- The `(int)(1 / seconds)` frame-rate estimate passed with each notification is not modelled. Notifications carry only the image.
- `DateTime.Now` is a parameter: the arrival tick.
- WebCamLib.GetPropertyPercentage: the native `long` arithmetic is unbounded in the model. 32-bit overflow of `(v - min) * 100` and `(max - min) * p` is not modelled.
- WebCamLib.SetPropertyPercentage: the same holds for its 32-bit `long` products.
- WebCamLib.ValidatePropertyValue: the uninitialised bounds read after a failed range query are arbitrary inputs (`staleMinimum`, `staleMaximum`).
- Out-parameters written before a later failure are not modelled, for example `bAuto` after a failed range read in `GetProperty_percentage`. Results are returned as `Outcome`/`Option` values.
- `RotateFlipType` is limited to its eight defined values. A C# enum can hold any int, and a negative value would give a negative remainder in the parity test.
- The property pass-throughs in Camera.cs are not modelled: `SetProperty`, `IsCameraPropertySupported`, `SetCameraProperty`, `GetCameraProperty` and `GetCameraPropertyRange`. They call `CameraMethods` members (`SetCamaraControlProperty`, `GetCameraControlPropertyRange` and others) that the native library shown does not define.
- `StartCapture`, `StopCapture`, `Dispose`, `ShowPropertiesDialog` and `ToString` are not modelled. They forward to the native library or format text.
- The `CaptureWidth`, `CaptureHeight` and `CaptureBitsPerPixel` accessors are modelled as the class's fields.
- `CompareTo(null)` and `Equals(null)` throw a NullReferenceException in the source. The model has no null `CaptureSize`; the untyped `Equals` takes an `Option`.
- The native library's graph interfaces (WebCamLib.cpp:141-147) and `g_pfnCaptureCallback` (WebCamLib.h:356) are process-wide globals. The model keeps them as fields of `CameraMethods` and assumes one `CameraMethods` instance per process. With two instances, starting one while the other runs would throw, and stopping one would tear down the other's graph; neither is modelled.
- `System.Drawing.Bitmap` is not part of this model. Its copy constructor `Bitmap(Image)` is assumed to throw NullReferenceException for a null image, because it reads the image's `Width` before anything else; `NewFrame` and `Frame.GetImage` use that exception.
- The unchecked `g_pIBaseFilterCam->QueryInterface` calls in `IsPropertySupported` and `GetPropertyRange` are assumed to raise NullReferenceException when no camera is started: the class is compiled to IL, and the runtime reports a fault at a null address as that exception. The exception kind is not derived from the source.
- SampleGrabber.SampleGrabberCB.AddRef: requires the count below Int32Max. The source increments a plain `int`, whose overflow is undefined behaviour in C++.
- SampleGrabber.SampleGrabberCB.Release: requires the count above Int32Min. The source decrements a plain `int`, whose overflow is undefined behaviour in C++.
- `Frame.Id` has a public setter, which is not modelled. The `OriginalImage` setter is modelled as the field.
- `CameraMethods.Count` has a public setter, which is not modelled. Count is fixed at construction.
