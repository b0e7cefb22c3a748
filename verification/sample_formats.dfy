/** The mapping from the output device's sample formats to the resampler's. */
module SampleFormats {
  import opened Wrappers

  /** The output device's sample formats. `Unlisted` stands for any format the
      device library may add beyond these ten (its enumeration is open-ended). */
  datatype DeviceFormat = I8 | I16 | I32 | I64 | U8 | U16 | U32 | U64 | F32 | F64 | Unlisted

  /** Whether the channels of a frame share one buffer (packed) or have one each (planar). */
  datatype Layout = Packed | Planar

  /** The resampler's sample formats: a numeric type together with a layout. */
  datatype ResamplerFormat =
    | NoFormat
    | SampleU8(layout: Layout)
    | SampleI16(layout: Layout)
    | SampleI32(layout: Layout)
    | SampleI64(layout: Layout)
    | SampleF32(layout: Layout)
    | SampleF64(layout: Layout)

  datatype Numeric = Signed | Unsigned | Float

  /** Width in bits and kind of number of a device format (0 and Signed for Unlisted). */
  function DeviceWidth(f: DeviceFormat): (nat, Numeric)
  {
    match f
    case I8 => (8, Signed)
    case I16 => (16, Signed)
    case I32 => (32, Signed)
    case I64 => (64, Signed)
    case U8 => (8, Unsigned)
    case U16 => (16, Unsigned)
    case U32 => (32, Unsigned)
    case U64 => (64, Unsigned)
    case F32 => (32, Float)
    case F64 => (64, Float)
    case Unlisted => (0, Signed)
  }

  /** Width in bits and kind of number of a resampler format (0 and Signed for NoFormat). */
  function ResamplerWidth(s: ResamplerFormat): (nat, Numeric)
  {
    match s
    case NoFormat => (0, Signed)
    case SampleU8(_) => (8, Unsigned)
    case SampleI16(_) => (16, Signed)
    case SampleI32(_) => (32, Signed)
    case SampleI64(_) => (64, Signed)
    case SampleF32(_) => (32, Float)
    case SampleF64(_) => (64, Float)
  }

  /** The formats the resampler has an equivalent for. */
  predicate ResamplerSupports(f: DeviceFormat)
  {
    f == I16 || f == I32 || f == I64 || f == U8 || f == F32 || f == F64
  }

  /** A device format the resampler cannot produce; the player aborts with it. */
  datatype FormatError = Unsupported(format: DeviceFormat)

  /** The resampler format that matches a device format, always packed; the
      narrow signed, the wide unsigned and any unlisted format fail. */
  function AsFfmpegSample(f: DeviceFormat): (r: Result<ResamplerFormat, FormatError>)
    ensures r.Success? <==> ResamplerSupports(f)
    ensures r.Failure? ==> r.error == Unsupported(f)
    ensures r.Success? ==> !r.value.NoFormat? && r.value.layout == Packed
    ensures r.Success? ==> ResamplerWidth(r.value) == DeviceWidth(f)
  {
    match f
    case I8 => Failure(Unsupported(f))
    case I16 => Success(SampleI16(Packed))
    case I32 => Success(SampleI32(Packed))
    case I64 => Success(SampleI64(Packed))
    case U8 => Success(SampleU8(Packed))
    case U16 => Failure(Unsupported(f))
    case U32 => Failure(Unsupported(f))
    case U64 => Failure(Unsupported(f))
    case F32 => Success(SampleF32(Packed))
    case F64 => Success(SampleF64(Packed))
    case Unlisted => Failure(Unsupported(f))
  }

  /** The device format a packed resampler format stands for; planar formats
      and NoFormat have none. */
  function FromResamplerFormat(s: ResamplerFormat): (r: Option<DeviceFormat>)
    ensures r.Some? <==> !s.NoFormat? && s.layout == Packed
    ensures r.Some? ==> DeviceWidth(r.value) == ResamplerWidth(s)
  {
    match s
    case SampleU8(Packed) => Some(U8)
    case SampleI16(Packed) => Some(I16)
    case SampleI32(Packed) => Some(I32)
    case SampleI64(Packed) => Some(I64)
    case SampleF32(Packed) => Some(F32)
    case SampleF64(Packed) => Some(F64)
    case _ => None
  }

  /** The mapping and its inverse agree in both directions: every supported
      device format comes back from the format it maps to, and every packed
      resampler format is what its device format maps to. */
  lemma AsFfmpegSampleInverse(f: DeviceFormat, s: ResamplerFormat)
    ensures AsFfmpegSample(f) == Success(s) <==> FromResamplerFormat(s) == Some(f)
  {
  }

  /** No two device formats map to the same resampler format. */
  lemma AsFfmpegSampleInjective(f: DeviceFormat, g: DeviceFormat)
    requires AsFfmpegSample(f).Success? && AsFfmpegSample(g).Success?
    requires AsFfmpegSample(f).value == AsFfmpegSample(g).value
    ensures f == g
  {
    AsFfmpegSampleInverse(f, AsFfmpegSample(f).value);
    AsFfmpegSampleInverse(g, AsFfmpegSample(g).value);
  }
}
