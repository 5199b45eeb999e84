/** The frame record of the vision contracts (Frame.cs): a numbered copy of
    a captured image with a lazily created working image. Frame numbers come
    from one process-wide counter, modelled here as an IdCounter object that
    every Frame constructor is given. */
module VisionContracts {
  import opened Clr
  import opened Imaging

  /** The n-th id the counter hands out (n counted from 0): n + 1 in
      unchecked 32-bit arithmetic. */
  function IssuedId(n: nat): Int32
  {
    Wrap32(n + 1)
  }

  /** The first Int32Max ids are 1, 2, 3, ... and so strictly increasing;
      only after 2^32 ids does the counter come back to an id it gave out. */
  lemma IdsIncreaseUntilWrap(m: nat, n: nat)
    requires m < n < Int32Max
    ensures 1 <= IssuedId(m) < IssuedId(n) <= Int32Max
    ensures IssuedId(TwoTo32) == IssuedId(0)
  {
    Wrap32Unique(TwoTo32 + 1, 1, 1);
  }

  /** The static counter: _nextId starts at 1 and NextId returns it and
      increments it. `issued` records every id handed out so far. */
  class IdCounter {
    var nextId: Int32
    ghost var issued: seq<Int32>

    ghost predicate Valid()
      reads this
    {
      && nextId == IssuedId(|issued|)
      && forall n :: 0 <= n < |issued| ==> issued[n] == IssuedId(n)
    }

    constructor ()
      ensures Valid() && nextId == 1 && issued == []
    {
      nextId := 1;
      issued := [];
    }

    /** Returns the current id and advances the counter, wrapping from
        Int32Max to Int32Min. */
    method NextId() returns (id: Int32)
      requires Valid()
      modifies this
      ensures Valid()
      ensures id == old(nextId) && issued == old(issued) + [id]
      ensures nextId == Wrap32(id + 1)
    {
      id := nextId;
      var k := (|issued| + 1 - id) / TwoTo32;
      assert |issued| + 1 - id == k * TwoTo32;
      Wrap32Unique(|issued| + 2, Wrap32(id + 1), k + ((id + 1 - Wrap32(id + 1)) / TwoTo32)) by {
        var j := (id + 1 - Wrap32(id + 1)) / TwoTo32;
        assert id + 1 - Wrap32(id + 1) == j * TwoTo32;
      }
      nextId := Wrap32(id + 1);
      issued := issued + [id];
    }
  }

  class Frame {
    var id: Int32
    var originalImage: Bitmap?
    /** The working copy (_image); null until first read or assignment. */
    var image: Bitmap?

    /** Numbers the frame from the counter and keeps a copy of the caller's
        image, not the caller's object. */
    constructor (originalImage: Bitmap, counter: IdCounter)
      requires counter.Valid()
      modifies counter
      ensures counter.Valid()
      ensures id == old(counter.nextId) && counter.issued == old(counter.issued) + [id]
      ensures this.originalImage != null && fresh(this.originalImage)
      ensures this.originalImage.pixels == originalImage.pixels
      ensures image == null
    {
      var newId := counter.NextId();
      id := newId;
      this.originalImage := new Bitmap.Copy(originalImage);
      image := null;
    }

    /** The Image getter: the first read copies OriginalImage (throwing
        NullReferenceException when that is null) and keeps the copy; later
        reads return the kept object. */
    method GetImage() returns (r: Outcome<Bitmap>)
      modifies this
      ensures id == old(id) && originalImage == old(originalImage)
      ensures old(image) != null ==> r == Ok(old(image)) && image == old(image)
      ensures old(image) == null && originalImage != null ==>
        r.Ok? && fresh(r.value) && r.value.pixels == originalImage.pixels && image == r.value
      ensures old(image) == null && originalImage == null ==>
        r == Throws(NullReferenceException) && image == null
    {
      if image == null {
        if originalImage == null {
          return Throws(NullReferenceException);
        }
        image := new Bitmap.Copy(originalImage);
      }
      r := Ok(image);
    }

    /** The Image setter replaces the working copy. */
    method SetImage(value: Bitmap?)
      modifies this
      ensures image == value && id == old(id) && originalImage == old(originalImage)
    {
      image := value;
    }

    /** The ImageData getter: the working image (created as by the Image
        getter) encoded by `encode`, which stands for the PNG encoder. */
    method GetImageData(encode: seq<int> -> seq<bv8>) returns (r: Outcome<seq<bv8>>)
      modifies this
      ensures id == old(id) && originalImage == old(originalImage)
      ensures old(image) != null ==> r == Ok(encode(old(image).pixels)) && image == old(image)
      ensures old(image) == null && originalImage != null ==>
        r == Ok(encode(originalImage.pixels)) && image != null && fresh(image)
      ensures old(image) == null && originalImage == null ==> r == Throws(NullReferenceException)
    {
      var current := GetImage();
      match current {
        case Throws(e) =>
          return Throws(e);
        case Ok(b) =>
          r := Ok(encode(b.pixels));
      }
    }

    /** The ImageData setter exists only for serialisation and does nothing. */
    method SetImageData(data: seq<bv8>)
      ensures unchanged(this)
    {
    }
  }

  /** `new Frame(originalImage)` with a possibly null argument: the id is
      taken before the image is copied, so a null image still consumes an
      id, and then the copy throws. */
  method NewFrame(originalImage: Bitmap?, counter: IdCounter) returns (r: Outcome<Frame>)
    requires counter.Valid()
    modifies counter
    ensures counter.Valid() && counter.issued == old(counter.issued) + [old(counter.nextId)]
    ensures originalImage == null ==> r == Throws(NullReferenceException)
    ensures originalImage != null ==>
      r.Ok? && fresh(r.value) && r.value.id == old(counter.nextId) && r.value.image == null &&
      r.value.originalImage != null && fresh(r.value.originalImage) &&
      r.value.originalImage.pixels == originalImage.pixels
  {
    if originalImage == null {
      var _ := counter.NextId();
      return Throws(NullReferenceException);
    }
    var frame := new Frame(originalImage, counter);
    return Ok(frame);
  }

  /** Two frames from one counter get ids 1 and 3 when a failed construction
      from a null image comes between them; each keeps its own
      copy; the working image is created once and then returned as is,
      until an assignment replaces it. */
  method FrameLifecycle(source: Bitmap, replacement: Bitmap)
    returns (firstId: Int32, secondId: Int32, nullConsumesId: bool, copied: bool, sameOnReread: bool, replaced: bool)
    ensures firstId == 1 && secondId == 3
    ensures nullConsumesId && copied && sameOnReread && replaced
  {
    var counter := new IdCounter();
    var first := new Frame(source, counter);
    var failed := NewFrame(null, counter);
    var second := new Frame(source, counter);
    firstId, secondId := first.id, second.id;
    nullConsumesId := failed == Throws(NullReferenceException) && secondId == 3;
    copied := first.originalImage != source && first.originalImage.pixels == source.pixels;
    var a := first.GetImage();
    var b := first.GetImage();
    sameOnReread := a.Ok? && a == b && a.value != first.originalImage;
    first.SetImage(replacement);
    var c := first.GetImage();
    replaced := c == Ok(replacement);
  }
}
