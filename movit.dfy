/** The parts of the effect library that the adapter touches. Their behaviour
    is not visible to the adapter: the inner inputs are records of how they were
    built, and the effect chain is a log of the calls made to it. */
module Movit {
  import opened CppUnsigned

  /** `Colorspace`; only `COLORSPACE_sRGB` is told apart from the others. */
  datatype Colorspace = ColorspaceSRGB | OtherColorspace(code: int)

  /** `GammaCurve`; only `GAMMA_sRGB` is told apart from the others. */
  datatype GammaCurve = GammaSRGB | OtherGammaCurve(code: int)

  datatype ImageFormat = ImageFormat(colorSpace: Colorspace, gammaCurve: GammaCurve)

  /** The image format with sRGB colour space and sRGB gamma curve. */
  const SRGB_FORMAT: ImageFormat := ImageFormat(ColorspaceSRGB, GammaSRGB)

  /** `MovitPixelFormat`: the packed layout of a flat input, opaque here. */
  datatype PixelFormat = PixelFormat(code: int)

  /** `YCbCrFormat`. The adapter reads only the two chroma subsampling factors;
      `otherFields` stands for everything else the library keeps in it. */
  datatype YCbCrFormat = YCbCrFormat(chromaSubsamplingX: u32, chromaSubsamplingY: u32, otherFields: int)

  /** The inner input the adapter owns: a packed `FlatInput` (always built with
      unsigned-byte components) or a planar `YCbCrInput`. */
  datatype InnerInput =
    | Flat(format: ImageFormat, pixelFormat: PixelFormat, width: u32, height: u32)
    | YCbCr(format: ImageFormat, ycbcrFormat: YCbCrFormat, width: u32, height: u32)

  /** A call made on the effect chain. */
  datatype ChainCall = AddOutput(format: ImageFormat) | SetDitherBits(bits: u32)

  /** A call made on the inner input by `finalize` or `set_gl_state`. */
  datatype InputCall =
    | SetInt(key: string, value: int)
    | FinalizeInput
    | SetGlState(programNum: u32, prefix: string, samplerNum: u32)

  /** `EffectChain`, reduced to the log of the calls the adapter makes on it. */
  class EffectChain {
    var log: seq<ChainCall>

    constructor ()
      ensures log == []
    {
      log := [];
    }

    method AddOutput(format: ImageFormat)
      modifies this
      ensures log == old(log) + [ChainCall.AddOutput(format)]
    {
      log := log + [ChainCall.AddOutput(format)];
    }

    method SetDitherBits(bits: u32)
      modifies this
      ensures log == old(log) + [ChainCall.SetDitherBits(bits)]
    {
      log := log + [ChainCall.SetDitherBits(bits)];
    }
  }
}
