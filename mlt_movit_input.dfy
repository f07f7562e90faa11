/** `MltInput`: the adapter that lets the effect chain read frames supplied by
    the framework, either as packed RGB through a flat input or as planar YCbCr
    through a YCbCr input. The first configuration call picks the kind of inner
    input, creates it and sets up the chain; every later one is ignored.

    The configuration calls are given twice on purpose: `Configure` states one
    call as a function of the fields, and the methods `UseFlatInput` and
    `UseYCbCrInput` of the class update the fields in place and are proved to
    end in `Configure`'s result. The lemmas about series of calls are stated
    about `Configure` and `ConfigureAll`. */
module MltMovitInput {
  import opened CppUnsigned
  import opened Movit
  import opened PlaneOffsets

  datatype Option<T> = None | Some(value: T)

  /** One configuration call: `useFlatInput` or `useYCbCrInput`. */
  datatype ConfigRequest =
    | UseFlat(pixelFormat: PixelFormat, width: u32, height: u32)
    | UseYCbCr(imageFormat: ImageFormat, ycbcrFormat: YCbCrFormat, width: u32, height: u32)

  /** A pointer that `set_pixel_data` hands to the inner input, as an offset into
      the frame buffer: the whole buffer for a flat input, or one numbered plane
      for a YCbCr input. */
  datatype PixelForward = FlatPixels(offset: u32) | PlanePixels(plane: nat, offset: u32)

  /** How `finalize` ends: it finalizes the inner input, or its `assert(ok)` fails. */
  datatype FinalizeOutcome = Finalized | AssertionFailed

  /** The adapter's fields, as a value. */
  datatype AdapterState = AdapterState(
    width: u32,
    height: u32,
    outputLinearGamma: int,
    needsMipmaps: int,
    input: Option<InnerInput>,
    isRGB: bool,
    ycbcrFormat: YCbCrFormat)

  /** The number of dither bits both configuration calls ask of the chain. */
  const DITHER_BITS: u32 := 8

  /** What holds of the adapter's fields between calls: no inner input means RGB
      mode; a flat inner input is an sRGB one in RGB mode; a YCbCr inner input
      goes with YCbCr mode and the recorded YCbCr format; and the stored
      dimensions are those of the inner input. */
  predicate Consistent(s: AdapterState) {
    match s.input
    case None => s.isRGB
    case Some(Flat(format, _, w, h)) =>
      s.isRGB && format == SRGB_FORMAT && w == s.width && h == s.height
    case Some(YCbCr(_, yf, w, h)) =>
      !s.isRGB && yf == s.ycbcrFormat && w == s.width && h == s.height
  }

  /** The inner input a configuration call builds. */
  function InputFor(req: ConfigRequest): InnerInput {
    match req
    case UseFlat(pf, w, h) => Flat(SRGB_FORMAT, pf, w, h)
    case UseYCbCr(format, yf, w, h) => YCbCr(format, yf, w, h)
  }

  /** One configuration call: the new fields and the calls it makes on the chain. */
  function Configure(s: AdapterState, req: ConfigRequest): (AdapterState, seq<ChainCall>) {
    if s.input.Some? then (s, [])
    else
      var setUp := [AddOutput(SRGB_FORMAT), SetDitherBits(DITHER_BITS)];
      match req
      case UseFlat(_, w, h) =>
        (s.(width := w, height := h, input := Some(InputFor(req))), setUp)
      case UseYCbCr(_, yf, w, h) =>
        (s.(width := w, height := h, input := Some(InputFor(req)), isRGB := false, ycbcrFormat := yf), setUp)
  }

  /** A series of configuration calls: the final fields and every chain call, in order. */
  function ConfigureAll(s: AdapterState, reqs: seq<ConfigRequest>): (AdapterState, seq<ChainCall>)
    decreases |reqs|
  {
    if reqs == [] then (s, [])
    else
      var first := Configure(s, reqs[0]);
      var rest := ConfigureAll(first.0, reqs[1..]);
      (rest.0, first.1 + rest.1)
  }

  /** Every configuration call keeps the fields consistent, and the first one
      leaves the adapter configured in the mode it asked for. */
  lemma ConfigureKeepsConsistent(s: AdapterState, req: ConfigRequest)
    requires Consistent(s)
    ensures Consistent(Configure(s, req).0)
    ensures Configure(s, req).0.input.Some?
    ensures s.input.None? ==> (Configure(s, req).0.isRGB <==> req.UseFlat?)
  {
  }

  /** Once an inner input exists, no series of configuration calls changes any
      field or calls the chain. */
  lemma {:induction false} ConfiguredIgnoresAll(s: AdapterState, reqs: seq<ConfigRequest>)
    requires s.input.Some?
    ensures ConfigureAll(s, reqs) == (s, [])
    decreases |reqs|
  {
    if reqs != [] {
      ConfiguredIgnoresAll(s, reqs[1..]);
      assert Configure(s, reqs[0]).1 + ConfigureAll(s, reqs[1..]).1 == [];
    }
  }

  /** The first configuration call wins: a series of calls on an unconfigured
      adapter ends exactly where its first call alone ends. */
  lemma {:induction false} FirstConfigurationWins(s: AdapterState, reqs: seq<ConfigRequest>)
    requires s.input.None? && reqs != []
    ensures ConfigureAll(s, reqs) == Configure(s, reqs[0])
  {
    var first := Configure(s, reqs[0]);
    ConfiguredIgnoresAll(first.0, reqs[1..]);
    assert first.1 + [] == first.1;
  }

  /** Whatever series of configuration calls an unconfigured adapter receives,
      the chain gets one sRGB output and 8 dither bits, once, as soon as there is
      a first call; the mode, the inner input and the dimensions are the first
      call's; and the gamma and mipmap flags are untouched. */
  lemma {:induction false} ChainSetUpOnce(s: AdapterState, reqs: seq<ConfigRequest>)
    requires Consistent(s) && s.input.None?
    ensures reqs == [] ==> ConfigureAll(s, reqs) == (s, [])
    ensures reqs != [] ==>
      var (t, calls) := ConfigureAll(s, reqs);
      && calls == [AddOutput(SRGB_FORMAT), SetDitherBits(DITHER_BITS)]
      && Consistent(t)
      && t.input == Some(InputFor(reqs[0]))
      && (t.isRGB <==> reqs[0].UseFlat?)
      && t.width == reqs[0].width && t.height == reqs[0].height
      && t.outputLinearGamma == s.outputLinearGamma && t.needsMipmaps == s.needsMipmaps
  {
    if reqs != [] {
      FirstConfigurationWins(s, reqs);
      ConfigureKeepsConsistent(s, reqs[0]);
    }
  }

  /** `MltInput`. */
  class MltInput {
    var width: u32
    var height: u32
    var outputLinearGamma: int
    var needsMipmaps: int
    var input: Option<InnerInput>
    var isRGB: bool
    var ycbcrFormat: YCbCrFormat

    function State(): AdapterState
      reads this
    {
      AdapterState(width, height, outputLinearGamma, needsMipmaps, input, isRGB, ycbcrFormat)
    }

    ghost predicate Valid()
      reads this
    {
      Consistent(State())
    }

    /** A new adapter has no inner input, is in RGB mode, has both flags off and
        the given dimensions. The YCbCr format is left uninitialised. */
    constructor (width: u32, height: u32)
      ensures Valid()
      ensures this.width == width && this.height == height
      ensures outputLinearGamma == 0 && needsMipmaps == 0
      ensures input == None && isRGB
    {
      this.width := width;
      this.height := height;
      outputLinearGamma := 0;
      needsMipmaps := 0;
      input := None;
      isRGB := true;
    }

    /** `useFlatInput`: on an unconfigured adapter, builds an sRGB flat input of
        the given size and pixel format, stores the size, and asks the chain for
        one sRGB output and 8 dither bits; on a configured one, does nothing. */
    method UseFlatInput(chain: EffectChain, pixelFormat: PixelFormat, width: u32, height: u32)
      requires Valid()
      modifies this, chain
      ensures Valid()
      ensures old(input).None? ==>
        && input == Some(Flat(SRGB_FORMAT, pixelFormat, width, height))
        && this.width == width && this.height == height && isRGB
        && chain.log == old(chain.log) + [AddOutput(SRGB_FORMAT), SetDitherBits(DITHER_BITS)]
      ensures old(input).Some? ==> unchanged(this) && chain.log == old(chain.log)
      ensures State() == Configure(old(State()), UseFlat(pixelFormat, width, height)).0
      ensures chain.log == old(chain.log) + Configure(old(State()), UseFlat(pixelFormat, width, height)).1
    {
      if input.None? {
        this.width := width;
        this.height := height;
        var imageFormat := ImageFormat(ColorspaceSRGB, GammaSRGB);
        input := Some(Flat(imageFormat, pixelFormat, width, height));
        chain.AddOutput(imageFormat);
        chain.SetDitherBits(DITHER_BITS);
      }
    }

    /** `useYCbCrInput`: on an unconfigured adapter, builds a YCbCr input of the
        given formats and size, stores the size, asks the chain for one sRGB
        output and 8 dither bits, switches to YCbCr mode and records the YCbCr
        format; on a configured one, does nothing. */
    method UseYCbCrInput(chain: EffectChain, imageFormat: ImageFormat, ycbcrFormat: YCbCrFormat,
                         width: u32, height: u32)
      requires Valid()
      modifies this, chain
      ensures Valid()
      ensures old(input).None? ==>
        && input == Some(YCbCr(imageFormat, ycbcrFormat, width, height))
        && this.width == width && this.height == height
        && !isRGB && this.ycbcrFormat == ycbcrFormat
        && chain.log == old(chain.log) + [AddOutput(SRGB_FORMAT), SetDitherBits(DITHER_BITS)]
      ensures old(input).Some? ==> unchanged(this) && chain.log == old(chain.log)
      ensures State() == Configure(old(State()), UseYCbCr(imageFormat, ycbcrFormat, width, height)).0
      ensures chain.log == old(chain.log) + Configure(old(State()), UseYCbCr(imageFormat, ycbcrFormat, width, height)).1
    {
      if input.None? {
        this.width := width;
        this.height := height;
        input := Some(YCbCr(imageFormat, ycbcrFormat, width, height));
        var outputFormat := ImageFormat(ColorspaceSRGB, GammaSRGB);
        chain.AddOutput(outputFormat);
        chain.SetDitherBits(DITHER_BITS);
        isRGB := false;
        this.ycbcrFormat := ycbcrFormat;
      }
    }

    /** `set_pixel_data`: the pointers it hands to the inner input, in order. A
        flat input gets the whole buffer; a YCbCr input gets planes 0, 1 and 2
        at the offsets its own size and subsampling give, and when nothing
        wraps those are `0`, `W*H` and `W*H + ((W/sx)*H)/sy`. */
    method SetPixelData() returns (forwards: seq<PixelForward>)
      requires Valid() && input.Some?
      requires !isRGB ==> ycbcrFormat.chromaSubsamplingX != 0 && ycbcrFormat.chromaSubsamplingY != 0
      ensures input.value.Flat? ==> forwards == [FlatPixels(0)]
      ensures input.value.YCbCr? ==>
        var yf := input.value.ycbcrFormat;
        var offsets := YCbCrPlaneOffsets(input.value.width, input.value.height,
                                         yf.chromaSubsamplingX, yf.chromaSubsamplingY);
        && |forwards| == 3
        && forall i :: 0 <= i < 3 ==> forwards[i] == PlanePixels(i, offsets[i])
      ensures input.value.YCbCr? ==>
        var (w, h, yf) := (input.value.width as nat, input.value.height as nat, input.value.ycbcrFormat);
        var (sx, sy) := (yf.chromaSubsamplingX as nat, yf.chromaSubsamplingY as nat);
        ExactCrOffset(w, h, sx, sy) < MODULUS ==>
          && forwards[1].offset as int == w * h
          && forwards[2].offset as int == ExactCrOffset(w, h, sx, sy)
    {
      if isRGB {
        forwards := [FlatPixels(0)];
      } else {
        var sx, sy := ycbcrFormat.chromaSubsamplingX, ycbcrFormat.chromaSubsamplingY;
        var offsets := YCbCrPlaneOffsets(width, height, sx, sy);
        forwards := [PlanePixels(0, offsets[0])];
        forwards := forwards + [PlanePixels(1, offsets[1])];
        forwards := forwards + [PlanePixels(2, offsets[2])];
        if ExactCrOffset(width as nat, height as nat, sx as nat, sy as nat) < MODULUS {
          PlaneOffsetsWithoutWrap(width, height, sx, sy);
        }
      }
    }

    /** `finalize`: hands both flags to the inner input, one `set_int` each,
        whatever the first answer; fails its assertion only when the inner input
        rejects both (the answers are `ok |=`-combined); otherwise finalizes the
        inner input. */
    method Finalize(gammaAccepted: bool, mipmapsAccepted: bool)
      returns (calls: seq<InputCall>, outcome: FinalizeOutcome)
      requires Valid() && input.Some?
      ensures |calls| >= 2
      ensures calls[0] == SetInt("output_linear_gamma", outputLinearGamma)
      ensures calls[1] == SetInt("needs_mipmaps", needsMipmaps)
      ensures outcome == AssertionFailed <==> !gammaAccepted && !mipmapsAccepted
      ensures calls[2..] == if outcome == Finalized then [FinalizeInput] else []
    {
      calls := [SetInt("output_linear_gamma", outputLinearGamma)];
      var ok := gammaAccepted;
      calls := calls + [SetInt("needs_mipmaps", needsMipmaps)];
      ok := ok || mipmapsAccepted;
      if !ok {
        outcome := AssertionFailed;
        return;
      }
      calls := calls + [FinalizeInput];
      outcome := Finalized;
    }

    /** `get_width`: the stored width, which is the inner input's once there is one. */
    function GetWidth(): (w: u32)
      reads this
      requires Valid()
      ensures input.Some? ==> w == input.value.width
    {
      width
    }

    /** `get_height`: the stored height, which is the inner input's once there is one. */
    function GetHeight(): (h: u32)
      reads this
      requires Valid()
      ensures input.Some? ==> h == input.value.height
    {
      height
    }

    /** `output_fragment_shader`: only on a configured adapter; the inner
        input's shader text, unchanged. */
    method OutputFragmentShader(innerShader: string) returns (shader: string)
      requires Valid() && input.Some?
      ensures shader == innerShader
    {
      shader := innerShader;
    }

    /** `set_gl_state`: only on a configured adapter; the one call it passes on. */
    method SetGlState(programNum: u32, prefix: string, samplerNum: u32) returns (call: InputCall)
      requires Valid() && input.Some?
      ensures call == InputCall.SetGlState(programNum, prefix, samplerNum)
    {
      call := InputCall.SetGlState(programNum, prefix, samplerNum);
    }

    /** `can_output_linear_gamma`: only on a configured adapter; the inner input's answer. */
    method CanOutputLinearGamma(innerAnswer: bool) returns (can: bool)
      requires Valid() && input.Some?
      ensures can == innerAnswer
    {
      can := innerAnswer;
    }

    /** `get_color_space`: only on a configured adapter; the inner input's answer. */
    method GetColorSpace(innerColorSpace: Colorspace) returns (colorSpace: Colorspace)
      requires Valid() && input.Some?
      ensures colorSpace == innerColorSpace
    {
      colorSpace := innerColorSpace;
    }

    /** `get_gamma_curve`: only on a configured adapter; the inner input's answer. */
    method GetGammaCurve(innerGammaCurve: GammaCurve) returns (gammaCurve: GammaCurve)
      requires Valid() && input.Some?
      ensures gammaCurve == innerGammaCurve
    {
      gammaCurve := innerGammaCurve;
    }
  }

  /** Configuring as RGB and then as YCbCr: only the first call has an effect.
      `ConfiguredIgnoresAll` states the same for any series of calls. */
  method ReconfigurationIsIgnored(pixelFormat: PixelFormat, imageFormat: ImageFormat, ycbcrFormat: YCbCrFormat,
                                  w0: u32, h0: u32, w1: u32, h1: u32, w2: u32, h2: u32)
    returns (adapter: MltInput, chain: EffectChain)
    ensures adapter.Valid() && adapter.isRGB
    ensures adapter.input == Some(Flat(SRGB_FORMAT, pixelFormat, w1, h1))
    ensures adapter.GetWidth() == w1 && adapter.GetHeight() == h1
    ensures chain.log == [AddOutput(SRGB_FORMAT), SetDitherBits(DITHER_BITS)]
  {
    chain := new EffectChain();
    adapter := new MltInput(w0, h0);
    adapter.UseFlatInput(chain, pixelFormat, w1, h1);
    adapter.UseYCbCrInput(chain, imageFormat, ycbcrFormat, w2, h2);
  }

  /** Configuring as YCbCr and then as RGB: only the first call has an effect. */
  method ReverseReconfigurationIsIgnored(pixelFormat: PixelFormat, imageFormat: ImageFormat, ycbcrFormat: YCbCrFormat,
                                         w0: u32, h0: u32, w1: u32, h1: u32, w2: u32, h2: u32)
    returns (adapter: MltInput, chain: EffectChain)
    ensures adapter.Valid() && !adapter.isRGB && adapter.ycbcrFormat == ycbcrFormat
    ensures adapter.input == Some(YCbCr(imageFormat, ycbcrFormat, w1, h1))
    ensures adapter.GetWidth() == w1 && adapter.GetHeight() == h1
    ensures chain.log == [AddOutput(SRGB_FORMAT), SetDitherBits(DITHER_BITS)]
  {
    chain := new EffectChain();
    adapter := new MltInput(w0, h0);
    adapter.UseYCbCrInput(chain, imageFormat, ycbcrFormat, w1, h1);
    adapter.UseFlatInput(chain, pixelFormat, w2, h2);
  }
}
