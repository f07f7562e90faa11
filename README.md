# MltInput: a verified model of the framework's input adapter for the GPU effect chain

`MltInput` (src/modules/opengl/mlt_movit_input.h) is the input effect through which
the framework hands decoded frames to the GPU effect chain. It owns at most one
inner input of the effect library: a packed `FlatInput` for RGB frames or a planar
`YCbCrInput` for YCbCr frames. The first call of `useFlatInput` or
`useYCbCrInput` picks the kind, builds the inner input, stores the frame size and
asks the chain for one sRGB output and 8 dither bits; every later configuration
call is ignored. `set_pixel_data` passes a frame on, splitting one contiguous
YCbCr buffer into its three planes. `finalize` passes the two registered flags
on and then finalizes the inner input. The remaining queries are forwarded
unchanged and need a configured adapter.

The project has four modules:

- `CppUnsigned` (unsigned.dfy): C++ `unsigned` arithmetic, taken to be 32 bits
  wide. `+` and `*` wrap modulo 2^32. `/` truncates.
- `Movit` (movit.dfy): the library types the adapter uses, kept opaque. Colour
  spaces and gamma curves tell only sRGB apart from the others. The inner input
  is a tagged variant, `Flat` or `YCbCr`, recording how it was built. The effect
  chain is a class whose only state is the log of calls made on it
  (`add_output`, `set_dither_bits`).
- `PlaneOffsets` (plane_offsets.dfy): the offsets of the Y, Cb and Cr planes,
  evaluated the way line 119 evaluates them. `W / sx * H / sy` associates to
  the left, so it is `((W / sx) * H) / sy`, with every step in unsigned
  arithmetic.
- `MltMovitInput` (mlt_movit_input.dfy): the adapter's fields as a value
  (`AdapterState`) and the consistency invariant on them. `Configure` and
  `ConfigureAll` give one configuration call and a series of them as functions,
  with lemmas about them. The class `MltInput` has the source's fields. Its
  methods are proved against those functions.

Modelling choices:

- The source selects the inner input's type with an unchecked cast guarded by
  `isRGB`. The model matches on the variant instead. The invariant
  `Consistent` proves that `isRGB` and the variant always agree.
- Calls into the library are shown by what they pass on. `set_pixel_data`
  returns the pointers it forwards, as offsets into the frame buffer.
  `finalize` returns the calls it makes on the inner input.
- Answers that come from the library are parameters supplied by the caller:
  whether each `set_int` is accepted, the shader text, the colour space, the
  gamma curve and the linear-gamma capability.
- `assert` is modelled as it behaves in a debug build. `assert(input)` becomes
  a precondition. `assert(ok)` in `finalize` becomes the outcome
  `AssertionFailed`, reached without finalizing the inner input.
- A `(W/sx)*(H/sy)` chroma plane that starts at `W*H` ends at
  `W*H + (W/sx)*(H/sy)`, while line 119 computes the Cr offset as
  `W*H + ((W/sx)*H)/sy`. The model follows the code. `DivideAfterMultiplying`
  and `CrPlaneFollowsCbPlane` prove how the two relate: they are equal when `sy`
  divides `H`. Otherwise the code's value can be larger, and when `W/sx > 0` by
  less than one chroma row (`W/sx`). `OddHeightCrOffset` gives an instance:
  15 where `(W/sx)*(H/sy)` gives 14. Which value the
  frame producer's layout needs is outside this model, so this is not reported
  as a defect.

## Model

| member | source | states |
|---|---|---|
| `MltMovitInput.MltInput.constructor` | src/modules/opengl/mlt_movit_input.h:30-40 | a new adapter has no inner input and is in RGB mode. Both flags are 0, and width and height are the arguments. |
| `MltMovitInput.MltInput.UseFlatInput` | src/modules/opengl/mlt_movit_input.h:84-95 | unconfigured: builds an sRGB `Flat` input of the given pixel format and size, stores the size, stays in RGB mode, and appends exactly `add_output(sRGB/sRGB)` and `set_dither_bits(8)` to the chain log. Configured: changes no field and no log entry. The invariant is kept. |
| `MltMovitInput.MltInput.UseYCbCrInput` | src/modules/opengl/mlt_movit_input.h:96-109 | unconfigured: builds a `YCbCr` input of the given formats and size, stores the size, switches to YCbCr mode, records the YCbCr format, and appends exactly `add_output(sRGB/sRGB)` and `set_dither_bits(8)`. Configured: changes nothing. The invariant is kept. |
| `MltMovitInput.ConfigureKeepsConsistent` | src/modules/opengl/mlt_movit_input.h:84-109 | any configuration call keeps the fields consistent (mode agrees with the inner input's kind, sizes agree) and leaves the adapter configured. On an unconfigured adapter the mode is RGB exactly for `useFlatInput`. |
| `MltMovitInput.ConfiguredIgnoresAll` | src/modules/opengl/mlt_movit_input.h:84-109 | once there is an inner input, no series of configuration calls of either kind changes any field or makes any chain call |
| `MltMovitInput.FirstConfigurationWins` | src/modules/opengl/mlt_movit_input.h:84-109 | a series of configuration calls on an unconfigured adapter ends in exactly the fields and chain calls of its first call alone |
| `MltMovitInput.ChainSetUpOnce` | src/modules/opengl/mlt_movit_input.h:84-109 | over any non-empty series of configuration calls from an unconfigured adapter, the chain gets exactly one sRGB output and one 8-bit dither request. Mode, inner input and dimensions are fixed by the first call. The flags are untouched. An empty series changes nothing. |
| `MltMovitInput.ReconfigurationIsIgnored` | src/modules/opengl/mlt_movit_input.h:84-109 | `useFlatInput` followed by `useYCbCrInput`: the adapter stays RGB with the first call's flat input and size, and the chain log holds only the first call's two entries |
| `MltMovitInput.ReverseReconfigurationIsIgnored` | src/modules/opengl/mlt_movit_input.h:84-109 | `useYCbCrInput` followed by `useFlatInput`: the adapter stays in YCbCr mode with the first call's YCbCr input, format and size, and the chain log holds only the first call's two entries |
| `MltMovitInput.MltInput.SetPixelData` | src/modules/opengl/mlt_movit_input.h:110-121 | needs a configured adapter, and in YCbCr mode non-zero subsampling factors. A flat input gets the whole buffer once, at offset 0. A YCbCr input gets planes 0, 1, 2 in that order, at the offsets computed from its own size and subsampling. When nothing wraps, these are `W*H` and `W*H + ((W/sx)*H)/sy`. |
| `PlaneOffsets.PlaneOffsetsWithoutWrap` | src/modules/opengl/mlt_movit_input.h:117-119 | if `W*H + ((W/sx)*H)/sy` fits in 32 bits, no intermediate step wraps. The Cb offset is exactly `W*H`, the Cr offset exactly that sum, and `0 <= Cb <= Cr`. |
| `PlaneOffsets.PlaneOffsetsModular` | src/modules/opengl/mlt_movit_input.h:118-119 | for all inputs, wrapped or not: the Cb offset is `(W*H) mod 2^32`, and the Cr offset is `((W*H) mod 2^32 + (((W/sx)*H) mod 2^32)/sy) mod 2^32` |
| `PlaneOffsets.DivideAfterMultiplying` | src/modules/opengl/mlt_movit_input.h:119 | `((W/sx)*H)/sy` is at least `(W/sx)*(H/sy)`, equal when `sy` divides `H`, and, when `W/sx > 0`, less than `(W/sx)*(H/sy) + W/sx` |
| `PlaneOffsets.CrPlaneFollowsCbPlane` | src/modules/opengl/mlt_movit_input.h:118-119 | without wrap-around, the Cr plane starts no earlier than the end of a `(W/sx)*(H/sy)` Cb plane. It starts exactly there when `sy` divides `H`. When `W/sx > 0` it starts less than one chroma row later. |
| `PlaneOffsets.OddHeightCrOffset` | src/modules/opengl/mlt_movit_input.h:119 | for a 4x3 frame with 2x2 subsampling the offsets are 0, 12, 15, while `W*H + (W/sx)*(H/sy)` is 14 |
| `PlaneOffsets.LumaSizeWraps` | src/modules/opengl/mlt_movit_input.h:118-119 | for a 65536x65536 frame, `W*H` wraps to 0, so the Cb pointer equals the Y pointer. The offsets are 0, 0, 2^30. |
| `MltMovitInput.MltInput.Finalize` | src/modules/opengl/mlt_movit_input.h:57-63 | needs a configured adapter. Always forwards both flags, `output_linear_gamma` then `needs_mipmaps`. Fails its assertion exactly when both forwards are rejected (the two answers are or-ed together). Otherwise it then finalizes the inner input, and nothing follows a failure. |
| `MltMovitInput.MltInput.GetWidth` | src/modules/opengl/mlt_movit_input.h:68-70 | returns the stored width in every state. Once configured, it equals the inner input's width. |
| `MltMovitInput.MltInput.GetHeight` | src/modules/opengl/mlt_movit_input.h:71-73 | returns the stored height in every state. Once configured, it equals the inner input's height. |
| `MltMovitInput.MltInput.OutputFragmentShader` | src/modules/opengl/mlt_movit_input.h:47-50 | callable only on a configured adapter; returns the inner input's shader text unchanged |
| `MltMovitInput.MltInput.SetGlState` | src/modules/opengl/mlt_movit_input.h:51-54 | callable only on a configured adapter; passes the program number, prefix and sampler number on in one call |
| `MltMovitInput.MltInput.CanOutputLinearGamma` | src/modules/opengl/mlt_movit_input.h:64-67 | callable only on a configured adapter; returns the inner input's answer |
| `MltMovitInput.MltInput.GetColorSpace` | src/modules/opengl/mlt_movit_input.h:74-77 | callable only on a configured adapter; returns the inner input's colour space |
| `MltMovitInput.MltInput.GetGammaCurve` | src/modules/opengl/mlt_movit_input.h:78-81 | callable only on a configured adapter; returns the inner input's gamma curve |

## Left out

- The effect library's `FlatInput`, `YCbCrInput` and `EffectChain` are not part of this model. Their behaviour is not visible. The inner inputs are records of how they were built, and the chain is a log of calls.
- The state the inner input keeps after `set_int`, `finalize`, `set_pixel_data` and `set_gl_state` is not modelled. These methods return the calls they pass on instead.
- The `register_int` parameter registry and the inherited `set_int` on the adapter are not modelled, because they live in the library. In the model the two flags keep the values the constructor gave them, and `finalize` forwards whatever they hold.
- `effect_type_id` is left out. It returns the constant name "MltInput" and has nothing to prove.
- The destructor and the heap lifetime of the inner input are left out. Ownership is the `Option` field.
- Shader generation and GL state binding are left out, because they are driver and library concerns. Only their "configured" precondition is modelled.
- Release builds, where `assert` compiles to nothing, are not modelled.
- The frame buffer's own size is not modelled, because the adapter never sees it. `SetPixelData` gives offsets, not bounds.
- The unsigned type is taken to be 32 bits wide, as on the platforms the framework targets.
