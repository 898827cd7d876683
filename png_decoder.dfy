/**
 * The configuration of the PNG decoder: an immutable value with an optional
 * target device and a pin-memory flag.  Each setter returns a modified copy
 * and leaves the receiver as it was, so one base configuration can be shared
 * by many decoders.
 */
module PngDecoder {
  import opened Wrappers

  /** The kind of device a tensor is placed on. */
  datatype DeviceType = Cpu | Cuda | Mps | Meta

  /** A device: its kind and an index (-1 when the index is unspecified). */
  datatype Device = Device(deviceType: DeviceType, index: int)

  /**
   * `png_decoder_options`.  The fields are private in the source; callers see
   * them only through the getters and setters below.
   */
  datatype PngDecoderOptions = PngDecoderOptions(device: Option<Device>, pin: bool) {

    /** The getter `maybe_device()`. */
    function MaybeDevice(): (r: Option<Device>) {
      device
    }

    /** The getter `pin_memory()`. */
    function PinMemory(): (r: bool) {
      pin
    }

    /**
     * The setter `maybe_device(value)`: a copy whose device reads back as
     * `value` and whose pin-memory flag is the receiver's.
     */
    function WithMaybeDevice(value: Option<Device>): (r: PngDecoderOptions)
      ensures r.MaybeDevice() == value
      ensures r.PinMemory() == PinMemory()
    {
      this.(device := value)
    }

    /**
     * The setter `pin_memory(value)`: a copy whose pin-memory flag reads back
     * as `value` and whose device is the receiver's.
     */
    function WithPinMemory(value: bool): (r: PngDecoderOptions)
      ensures r.PinMemory() == value
      ensures r.MaybeDevice() == MaybeDevice()
    {
      this.(pin := value)
    }
  }

  /** Default-constructed options: no device, memory not pinned. */
  function DefaultOptions(): (r: PngDecoderOptions)
    ensures r.MaybeDevice() == None
    ensures !r.PinMemory()
  {
    PngDecoderOptions(None, false)
  }

  /** Options are determined by what their two getters report. */
  lemma {:induction false} OptionsDeterminedByGetters(a: PngDecoderOptions, b: PngDecoderOptions)
    requires a.MaybeDevice() == b.MaybeDevice() && a.PinMemory() == b.PinMemory()
    ensures a == b
  {
  }

  /** Setting the device twice keeps only the last value. */
  lemma MaybeDeviceLastWriteWins(o: PngDecoderOptions, v: Option<Device>, w: Option<Device>)
    ensures o.WithMaybeDevice(v).WithMaybeDevice(w) == o.WithMaybeDevice(w)
  {
  }

  /** Setting the pin-memory flag twice keeps only the last value. */
  lemma PinMemoryLastWriteWins(o: PngDecoderOptions, b: bool, c: bool)
    ensures o.WithPinMemory(b).WithPinMemory(c) == o.WithPinMemory(c)
  {
  }

  /** Setters on the two different fields commute. */
  lemma SettersCommute(o: PngDecoderOptions, v: Option<Device>, b: bool)
    ensures o.WithMaybeDevice(v).WithPinMemory(b) == o.WithPinMemory(b).WithMaybeDevice(v)
  {
  }

  /**
   * Setting a field to the value it already reports changes nothing: a
   * setter only ever differs from its receiver in the field it writes.
   */
  lemma SettersIdempotentOnOwnValue(o: PngDecoderOptions)
    ensures o.WithMaybeDevice(o.MaybeDevice()) == o
    ensures o.WithPinMemory(o.PinMemory()) == o
  {
  }

  /** `png_decoder`: a decoder keeps the options it was constructed with. */
  datatype PngDecoder = PngDecoder(opts: PngDecoderOptions)

  /**
   * The constructor `png_decoder(opts = {})`: it validates nothing and stores
   * the options, and without an argument it uses the default options.
   */
  function NewPngDecoder(opts: PngDecoderOptions := DefaultOptions()): (r: PngDecoder)
    ensures r.opts.MaybeDevice() == opts.MaybeDevice()
    ensures r.opts.PinMemory() == opts.PinMemory()
  {
    PngDecoder(opts)
  }

  /** A decoder constructed without arguments places output on no particular device, unpinned. */
  lemma DefaultDecoderUsesDefaultOptions()
    ensures NewPngDecoder().opts == DefaultOptions()
    ensures NewPngDecoder().opts.MaybeDevice() == None && !NewPngDecoder().opts.PinMemory()
  {
  }
}
