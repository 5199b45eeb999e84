/** The sample-grabber callback object of the native library (WebCamLib.h):
    a COM object with a hand-written reference count that forwards every
    captured buffer to the global capture callback, when one is installed. */
module SampleGrabber {
  import opened Clr

  type HRESULT = Int32

  const S_OK: HRESULT := 0
  /** 0x80004005 read as a signed 32-bit value. */
  const E_FAIL: HRESULT := -0x7FFF_BFFB

  /** SUCCEEDED(hr): the severity bit is clear. */
  predicate Succeeded(hr: HRESULT)
  {
    hr >= 0
  }

  type ULONG = x: int | 0 <= x < 0x1_0000_0000

  /** The conversion of the signed counter to the unsigned COM return type. */
  function AsULong(n: Int32): (r: ULONG)
    ensures n >= 0 ==> r == n
    ensures n < 0 ==> r == n + 0x1_0000_0000
    ensures (r - n) % 0x1_0000_0000 == 0
  {
    if n >= 0 then n else n + 0x1_0000_0000
  }

  /** One buffer handed to the global capture callback: its length and bytes. */
  datatype Delivery = Delivery(size: int, data: seq<bv8>)

  /** The managed delegate that g_pfnCaptureCallback points to, reduced to
      the record of the buffers it has received. */
  class CaptureCallback {
    var deliveries: seq<Delivery>

    constructor ()
      ensures deliveries == []
    {
      deliveries := [];
    }
  }

  class SampleGrabberCB {
    var refCount: Int32
    /** Set once `delete this` has run; the object must not be used afterwards. */
    var deleted: bool

    constructor ()
      ensures refCount == 0 && !deleted
    {
      refCount := 0;
      deleted := false;
    }

    /** ISampleGrabberCB::SampleCB is not implemented: it always fails. */
    method SampleCB(sampleTime: real) returns (hr: HRESULT)
      requires !deleted
      ensures !Succeeded(hr) && hr == E_FAIL
    {
      hr := E_FAIL;
    }

    /** Forwards the buffer to the installed capture callback, if any, and
        reports success whether or not a callback was installed. */
    method BufferCB(sampleTime: real, buffer: seq<bv8>, bufferLen: int, callback: CaptureCallback?)
      returns (hr: HRESULT)
      requires !deleted
      modifies callback
      ensures hr == S_OK
      ensures callback != null ==> callback.deliveries == old(callback.deliveries) + [Delivery(bufferLen, buffer)]
    {
      if callback != null {
        callback.deliveries := callback.deliveries + [Delivery(bufferLen, buffer)];
      }
      hr := S_OK;
    }

    /** IUnknown::QueryInterface is not implemented: it always fails. */
    method QueryInterface(riid: int) returns (hr: HRESULT)
      requires !deleted
      ensures !Succeeded(hr) && hr == E_FAIL
    {
      hr := E_FAIL;
    }

    method AddRef() returns (r: ULONG)
      requires !deleted && refCount < Int32Max
      modifies this
      ensures refCount == old(refCount) + 1 && !deleted
      ensures r == AsULong(refCount)
    {
      refCount := refCount + 1;
      r := AsULong(refCount);
    }

    /** Decrements the count and deletes the object once no reference is
        left (a count of zero or below). */
    method Release() returns (r: ULONG)
      requires !deleted && refCount > Int32Min
      modifies this
      ensures refCount == old(refCount) - 1
      ensures deleted <==> refCount <= 0
      ensures r == AsULong(refCount)
    {
      var n := refCount - 1;
      refCount := n;
      if n <= 0 {
        deleted := true;
      }
      r := AsULong(n);
    }
  }

  /** The life of a grabber callback installed by SetCallback: a new object
      starts at count zero, the one reference taken makes it one, and
      releasing that reference deletes the object and reports zero. */
  method InstalledCallbackLifecycle() returns (afterAddRef: ULONG, afterRelease: ULONG, deletedAtEnd: bool)
    ensures afterAddRef == 1 && afterRelease == 0 && deletedAtEnd
  {
    var cb := new SampleGrabberCB();
    afterAddRef := cb.AddRef();
    afterRelease := cb.Release();
    deletedAtEnd := cb.deleted;
  }
}
