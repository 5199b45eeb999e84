/** The image type of the managed wrapper, kept opaque: a Bitmap is an object
    whose content is a sequence of pixel values. Only identity (which object)
    and content (which pixels) matter to the modelled code; decoding, drawing,
    rotation and encoding are library work that is not modelled. */
module Imaging {

  class Bitmap {
    var pixels: seq<int>

    /** A bitmap produced by the imaging library from captured data. */
    constructor (pixels: seq<int>)
      ensures this.pixels == pixels
    {
      this.pixels := pixels;
    }

    /** `new Bitmap(source)`: a new object holding the same image. */
    constructor Copy(source: Bitmap)
      ensures pixels == source.pixels
    {
      pixels := source.pixels;
    }
  }
}
