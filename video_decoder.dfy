/**
 * The video decoder as far as its behaviour is written down: construction
 * resolves and checks the output data type, and the call operator checks the
 * input value before any bitstream is touched.
 */
module VideoDecoder {
  import opened Wrappers

  /** A single byte of an encoded stream. */
  newtype byte = x: int | 0 <= x < 256

  /** The element types of a tensor (`at::ScalarType`). */
  datatype ScalarType =
    | Byte | Char | Short | Int | Long | Half | Float | Double
    | ComplexHalf | ComplexFloat | ComplexDouble | Bool | BFloat16

  /** The tagged data value passed between pipeline stages. */
  datatype Data =
    | BoolData(b: bool)
    | IntData(i: int)
    | FloatData(f: real)
    | StringData(s: string)
    | TensorData
    | MemoryBlock(bytes: seq<byte>)
    | ListData(items: seq<Data>)
    | DictData(entries: map<string, Data>)
    | PyObjectData

  /** The name a data value's type is formatted as in messages (`d.type()`). */
  function TypeName(d: Data): (name: string)
    ensures |name| > 0
  {
    match d
    case BoolData(_) => "bool"
    case IntData(_) => "int"
    case FloatData(_) => "float"
    case StringData(_) => "string"
    case TensorData => "tensor"
    case MemoryBlock(_) => "memory_block"
    case ListData(_) => "list"
    case DictData(_) => "dict"
    case PyObjectData => "pyobj"
  }

  /** The exceptions the decoder throws. */
  datatype Error =
    | NotSupportedError(message: string)
    | InvalidArgument(message: string)

  /** The options the decoder reads: the requested output type, if any. */
  datatype VideoDecoderOptions = VideoDecoderOptions(maybeDtype: Option<ScalarType>)

  /** The decoder keeps the options it was constructed with. */
  datatype VideoDecoder = VideoDecoder(opts: VideoDecoderOptions) {
    /** Every decoder that construction hands out satisfies this. */
    predicate Valid() {
      IsSupported(ResolvedDtype(opts))
    }
  }

  /** The output types the decoder supports: 32-bit float, 32- and 16-bit signed int. */
  const SupportedDtypes: set<ScalarType> := {Float, Int, Short}

  predicate IsSupported(t: ScalarType) {
    t in SupportedDtypes
  }

  /** The output type a decoder produces: the stated one, float32 by default. */
  function ResolvedDtype(opts: VideoDecoderOptions): (t: ScalarType)
    ensures opts.maybeDtype.None? ==> t == Float
    ensures opts.maybeDtype.Some? ==> t == opts.maybeDtype.value
  {
    opts.maybeDtype.GetOr(Float)
  }

  const UnsupportedDtypeMessage: string :=
    "`video_decoder` supports only `torch.float32`, `torch.int32`, and `torch.int16` data types."

  /**
   * The constructor `video_decoder(opts, pin_memory)`.  It succeeds exactly when
   * the resolved type is supported, and the decoder then holds `opts`; otherwise
   * it throws `not_supported_error`.  The `pin_memory` argument is accepted and
   * not used.
   */
  function NewVideoDecoder(opts: VideoDecoderOptions, pinMemory: bool): (r: Result<VideoDecoder, Error>)
    ensures r.Success? <==> ResolvedDtype(opts) in SupportedDtypes
    ensures r.Success? ==> r.value.opts == opts && r.value.Valid()
    ensures r.Failure? ==> r.error == NotSupportedError(UnsupportedDtypeMessage)
  {
    var dtype := ResolvedDtype(opts);
    if dtype != Float && dtype != Int && dtype != Short then
      Failure(NotSupportedError(UnsupportedDtypeMessage))
    else
      Success(VideoDecoder(opts))
  }

  const TypeMismatchPrefix: string := "The input data must be of type `memory_block`, but is of type `"
  const TypeMismatchSuffix: string := "` instead."

  /** The message of the wrong-variant error, naming the variant observed. */
  function TypeMismatchMessage(d: Data): string {
    TypeMismatchPrefix + TypeName(d) + TypeMismatchSuffix
  }

  const EmptyBlockMessage: string := "The input memory block has zero length and cannot be decoded."

  /**
   * The checks of `video_decoder::operator()`: first that the value is a memory
   * block, then that the block is non-empty.  The bitstream decoding that
   * follows is not part of the source's written behaviour, so on success the
   * result is the validated block the decoding would read.  The decoder is
   * taken by value and cannot be changed by the call.
   */
  function Decode(dec: VideoDecoder, d: Data): (r: Result<seq<byte>, Error>)
    requires dec.Valid()
    ensures r.Success? <==> d.MemoryBlock? && |d.bytes| > 0
    ensures r.Success? ==> r.value == d.bytes
    ensures !d.MemoryBlock? ==> r == Failure(InvalidArgument(TypeMismatchMessage(d)))
    ensures d.MemoryBlock? && |d.bytes| == 0 ==> r == Failure(InvalidArgument(EmptyBlockMessage))
  {
    if !d.MemoryBlock? then
      Failure(InvalidArgument(TypeMismatchMessage(d)))
    else if |d.bytes| == 0 then
      Failure(InvalidArgument(EmptyBlockMessage))
    else
      Success(d.bytes)
  }

  /** Options without a type always construct, and the decoder produces float32. */
  lemma AbsentDtypeAlwaysConstructs(opts: VideoDecoderOptions, pinMemory: bool)
    requires opts.maybeDtype.None?
    ensures NewVideoDecoder(opts, pinMemory).Success?
    ensures ResolvedDtype(NewVideoDecoder(opts, pinMemory).value.opts) == Float
  {
  }

  /** A float64 request fails at construction, so there is no decoder to call. */
  lemma DoubleRejectedAtConstruction(opts: VideoDecoderOptions, pinMemory: bool, dec: VideoDecoder)
    requires opts.maybeDtype == Some(Double)
    ensures NewVideoDecoder(opts, pinMemory) == Failure(NotSupportedError(UnsupportedDtypeMessage))
    ensures dec.opts == opts ==> !dec.Valid()
  {
  }

  /** The `pin_memory` argument has no effect on construction. */
  lemma PinMemoryIgnored(opts: VideoDecoderOptions)
    ensures NewVideoDecoder(opts, true) == NewVideoDecoder(opts, false)
  {
  }

  /** The wrong-variant message contains the observed type's name after its fixed prefix. */
  lemma {:induction false} TypeMismatchNamesObservedType(d: Data)
    ensures var m := TypeMismatchMessage(d);
      |m| == |TypeMismatchPrefix| + |TypeName(d)| + |TypeMismatchSuffix| &&
      m[|TypeMismatchPrefix|..|TypeMismatchPrefix| + |TypeName(d)|] == TypeName(d)
  {
    var m := TypeMismatchMessage(d);
    var p := |TypeMismatchPrefix|;
    assert m == TypeMismatchPrefix + (TypeName(d) + TypeMismatchSuffix);
    assert m[p..] == TypeName(d) + TypeMismatchSuffix;
    assert m[p..][..|TypeName(d)|] == TypeName(d);
  }

  /** The two invalid-argument messages are different, whatever type was observed. */
  lemma {:induction false} RejectionMessagesDistinct(d: Data)
    ensures TypeMismatchMessage(d) != EmptyBlockMessage
  {
    // "... instead." and "... decoded." differ three characters from the end.
    var m := TypeMismatchMessage(d);
    assert m == (TypeMismatchPrefix + TypeName(d)) + TypeMismatchSuffix;
    assert m[|m| - 3] == 'a';
    assert EmptyBlockMessage[|EmptyBlockMessage| - 3] == 'e';
  }

  /**
   * The type check precedes the emptiness check: a value that is not a memory
   * block never yields the empty-block error, and every failed decode names its
   * cause unambiguously.
   */
  lemma {:induction false} TypeCheckFirst(dec: VideoDecoder, d: Data)
    requires dec.Valid()
    requires !d.MemoryBlock?
    ensures Decode(dec, d).Failure?
    ensures Decode(dec, d).error != InvalidArgument(EmptyBlockMessage)
  {
    RejectionMessagesDistinct(d);
  }

  /** The outcome of a decode depends on the input only, never on which valid decoder runs it. */
  lemma DecodeIndependentOfDecoder(a: VideoDecoder, b: VideoDecoder, d: Data)
    requires a.Valid() && b.Valid()
    ensures Decode(a, d) == Decode(b, d)
  {
  }
}
