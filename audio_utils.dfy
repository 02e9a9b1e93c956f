/**
 * Audio byte handling: turning a recording's data URL into its base64
 * payload, and turning the speech service's base64 raw PCM (16-bit signed,
 * one channel, 24 kHz) into a playable buffer of samples in [-1, 1).
 * The browser's `FileReader`, `atob` and `AudioContext` are not modelled:
 * what the reader produced and what `atob` decodes to are parameters.
 */
module AudioUtils {
  import opened Js

  /** A Uint8Array element. */
  type Byte = x: int | 0 <= x < 256

  /** An Int16Array element. */
  type Int16 = x: int | -32768 <= x < 32768

  /** How a promise settled. */
  datatype Settled<+T> = Fulfilled(value: T) | Rejected

  /** How `FileReader.readAsDataURL` finished: `onerror`, or `onloadend` with `result`. */
  datatype ReadOutcome = ReadFailed | Loaded(result: string)

  /**
   * The prefix strip of `blobToBase64`: the text after the first comma of
   * the data URL, up to the next comma (`result.split(',')[1]`), and
   * `undefined` when there is no comma.
   */
  function StripDataUrlPrefix(dataUrl: string): (payload: Option<string>)
    ensures payload.None? <==> ',' !in dataUrl
    ensures payload.Some? ==> ',' !in payload.value
  {
    var pieces := Split(dataUrl, ',');
    if |pieces| > 1 then Some(pieces[1]) else None
  }

  /**
   * `blobToBase64` as a promise: it rejects only when the reader fails;
   * otherwise it resolves, possibly to `undefined`.
   */
  function BlobToBase64(read: ReadOutcome): (settled: Settled<Option<string>>)
    ensures settled.Rejected? <==> read.ReadFailed?
    ensures read.Loaded? ==> (settled.value.Some? <==> ',' in read.result)
  {
    match read
    case ReadFailed => Rejected
    case Loaded(result) => Fulfilled(StripDataUrlPrefix(result))
  }

  /** For `data:<mime>;base64,<payload>` with no comma in mime or payload, exactly the payload. */
  lemma {:induction false} StripDataUrl(mime: string, payload: string)
    requires ',' !in mime && ',' !in payload
    ensures BlobToBase64(Loaded("data:" + mime + ";base64," + payload)) == Fulfilled(Some(payload))
  {
    var head := "data:" + mime + ";base64";
    assert ',' !in head;
    assert "data:" + mime + ";base64," + payload == head + ([','] + payload);
    SplitPrefix(head, payload, ',');
    SplitNoSeparator(payload, ',');
  }

  /** With no comma at all, the strip gives `undefined`, and the promise still resolves. */
  lemma NoCommaResolvesUndefined(result: string)
    requires ',' !in result
    ensures BlobToBase64(Loaded(result)) == Fulfilled(None)
  {
  }

  /** `Uint8Array` assignment of a character code: ToUint8, the code modulo 256. */
  function ToUint8(c: char): (b: Byte)
    ensures (c as int) < 256 ==> b == c as int
    ensures ((c as int) - b) % 256 == 0
  {
    (c as int) % 256
  }

  /** The bytes `decode` produces from a binary string, one per character. */
  function BinaryBytes(binary: string): (bytes: seq<Byte>)
    ensures |bytes| == |binary|
    ensures forall i :: 0 <= i < |binary| && (binary[i] as int) < 256 ==> bytes[i] == binary[i] as int
  {
    seq(|binary|, i requires 0 <= i < |binary| => ToUint8(binary[i]))
  }

  /**
   * `decode` from the binary string on: a `Uint8Array` of the string's length
   * whose element i is the code of character i (every code of a binary
   * string is below 256, so nothing is lost).
   */
  method Decode(binary: string) returns (bytes: array<Byte>)
    ensures bytes[..] == BinaryBytes(binary)
  {
    var len := |binary|;
    bytes := new Byte[len];
    for i := 0 to len
      invariant forall k :: 0 <= k < i ==> bytes[k] == ToUint8(binary[k])
    {
      bytes[i] := ToUint8(binary[i]);
    }
  }

  /** The signed 16-bit value of two bytes in little-endian order. */
  function Int16Le(lo: Byte, hi: Byte): (v: Int16)
    ensures v == lo + 256 * hi || v == lo + 256 * hi - 65536
    ensures v < 0 <==> hi >= 128
  {
    var u := lo + 256 * hi;
    if u >= 32768 then u - 65536 else u
  }

  /** The two little-endian bytes of a signed 16-bit value. */
  function LeBytes(sample: Int16): (bytes: seq<Byte>) {
    var u := if sample < 0 then sample + 65536 else sample;
    [u % 256, u / 256]
  }

  /** Reading back the bytes of a sample gives the sample. */
  lemma Int16LeOfLeBytes(sample: Int16)
    ensures Int16Le(LeBytes(sample)[0], LeBytes(sample)[1]) == sample
  {
  }

  /** Writing out the sample two bytes stand for gives those bytes. */
  lemma LeBytesOfInt16Le(lo: Byte, hi: Byte)
    ensures LeBytes(Int16Le(lo, hi)) == [lo, hi]
  {
  }

  /** Why a playback attempt produced no sound. */
  datatype PlaybackError =
    | InvalidCharacterError  // `atob` rejected the payload
    | RangeError             // `new Int16Array(buffer)` on an odd byte length
    | NotSupportedError      // `createBuffer` with zero frames

  /**
   * `new Int16Array(bytes.buffer)` with the platform's byte order, taken to
   * be little-endian: element i is bytes 2i and 2i+1; an odd length throws
   * RangeError.
   */
  function Int16View(bytes: seq<Byte>): (view: Result<seq<Int16>>)
    ensures view.Failure? <==> |bytes| % 2 == 1
    ensures view.Failure? ==> view.error == RangeError
    ensures view.Success? ==> |view.value| * 2 == |bytes|
  {
    if |bytes| % 2 == 1 then Failure(RangeError)
    else Success(seq(|bytes| / 2, i requires 0 <= i < |bytes| / 2 => Int16Le(bytes[2 * i], bytes[2 * i + 1])))
  }

  datatype Result<+T> = Success(value: T) | Failure(error: PlaybackError)

  /** The bytes of a run of samples, each little-endian. */
  function LeBytesOf(samples: seq<Int16>): (bytes: seq<Byte>)
    ensures |bytes| == 2 * |samples|
  {
    if samples == [] then [] else LeBytes(samples[0]) + LeBytesOf(samples[1..])
  }

  /** The bytes of sample i sit at 2i and 2i+1. */
  lemma {:induction false} LeBytesOfAt(samples: seq<Int16>, i: nat)
    requires i < |samples|
    ensures LeBytesOf(samples)[2 * i] == LeBytes(samples[i])[0]
    ensures LeBytesOf(samples)[2 * i + 1] == LeBytes(samples[i])[1]
  {
    if i > 0 {
      LeBytesOfAt(samples[1..], i - 1);
    }
  }

  /** Viewing the little-endian bytes of samples as Int16 gives the samples back. */
  lemma Int16ViewRoundTrip(samples: seq<Int16>)
    ensures Int16View(LeBytesOf(samples)) == Success(samples)
  {
    var bytes := LeBytesOf(samples);
    var view := Int16View(bytes);
    assert |view.value| == |samples|;
    forall i | 0 <= i < |samples| ensures view.value[i] == samples[i] {
      LeBytesOfAt(samples, i);
      Int16LeOfLeBytes(samples[i]);
    }
    assert view.value == samples;
  }

  /** Scale a sample to [-1, 1): divide by 32768 (exact in float32 and float64). */
  function Normalize(sample: Int16): (v: real)
    ensures -1.0 <= v < 1.0
    ensures v * 32768.0 == sample as real
  {
    sample as real / 32768.0
  }

  /** The floor and ceiling of the scale. */
  lemma NormalizeExtremes()
    ensures Normalize(-32768) == -1.0
    ensures Normalize(32767) == 32767.0 / 32768.0
  {
  }

  const SampleRate := 24000
  const NumChannels := 1

  /** What `createBuffer` was given and what the loop wrote into each channel. */
  datatype AudioBuffer = AudioBuffer(numberOfChannels: nat, length: nat, sampleRate: nat,
                                     channels: seq<seq<real>>)

  /** How `playPCMData` ended: a buffer scheduled to play, or an error caught and logged. */
  datatype Playback = Played(buffer: AudioBuffer) | Swallowed(error: PlaybackError)

  /** What `atob` gives: a binary string, or an InvalidCharacterError. */
  datatype Base64Decoding = InvalidBase64 | Binary(binary: string)

  /** The samples of a PCM payload, normalised, in order. */
  function PcmFrames(samples: seq<Int16>): (frames: seq<real>)
    ensures |frames| == |samples|
    ensures forall i :: 0 <= i < |samples| ==> frames[i] * 32768.0 == samples[i] as real
  {
    seq(|samples|, i requires 0 <= i < |samples| => Normalize(samples[i]))
  }

  /**
   * The outcome `playPCMData` reaches for a binary string: a one-channel
   * 24 kHz buffer of the normalised samples, or the error that stops it.
   */
  function PlaybackOf(binary: string): (playback: Playback)
    ensures playback.Played? <==> |binary| % 2 == 0 && |binary| > 0
    ensures playback.Swallowed? ==> playback.error != InvalidCharacterError
    ensures playback.Played? ==> playback.buffer.length * 2 == |binary| && |playback.buffer.channels| == 1
  {
    match Int16View(BinaryBytes(binary))
    case Failure(e) => Swallowed(e)
    case Success(samples) =>
      if |samples| == 0 then Swallowed(NotSupportedError)
      else Played(AudioBuffer(NumChannels, |samples|, SampleRate, [PcmFrames(samples)]))
  }

  /**
   * `playPCMData`: decode, view as Int16, create the buffer and fill it
   * channel by channel with sample/32768. Every failure is caught, so the
   * promise always resolves; the result says whether anything was scheduled.
   */
  method PlayPcmData(base64Audio: string, atob: string -> Base64Decoding) returns (playback: Playback)
    ensures atob(base64Audio).InvalidBase64? ==> playback == Swallowed(InvalidCharacterError)
    ensures atob(base64Audio).Binary? ==> playback == PlaybackOf(atob(base64Audio).binary)
  {
    var decoded := atob(base64Audio);
    if decoded.InvalidBase64? {
      return Swallowed(InvalidCharacterError);
    }
    var bytes := Decode(decoded.binary);
    var view := Int16View(bytes[..]);
    if view.Failure? {
      return Swallowed(view.error);
    }
    var dataInt16 := view.value;
    var frameCount := |dataInt16| / NumChannels;
    if frameCount == 0 {
      return Swallowed(NotSupportedError);
    }
    var channels: seq<seq<real>> := [];
    for channel := 0 to NumChannels
      invariant |channels| == channel
      invariant forall c :: 0 <= c < channel ==> channels[c] == PcmFrames(dataInt16)
    {
      var channelData := new real[frameCount];
      for i := 0 to frameCount
        invariant forall k :: 0 <= k < i ==> channelData[k] == Normalize(dataInt16[k * NumChannels + channel])
      {
        channelData[i] := dataInt16[i * NumChannels + channel] as real / 32768.0;
      }
      channels := channels + [channelData[..]];
    }
    playback := Played(AudioBuffer(NumChannels, frameCount, SampleRate, channels));
  }

  /** The binary string whose character codes are the given bytes (what `atob` yields for them). */
  function BinaryOf(bytes: seq<Byte>): (binary: string)
    ensures |binary| == |bytes|
  {
    seq(|bytes|, i requires 0 <= i < |bytes| => bytes[i] as char)
  }

  /** `decode` recovers the bytes of a binary string exactly. */
  lemma BinaryBytesOf(bytes: seq<Byte>)
    ensures BinaryBytes(BinaryOf(bytes)) == bytes
  {
    var b := BinaryBytes(BinaryOf(bytes));
    forall i | 0 <= i < |bytes| ensures b[i] == bytes[i] {
      assert BinaryOf(bytes)[i] as int == bytes[i];
    }
  }

  /**
   * The shape of a playback: an odd byte count plays nothing (RangeError),
   * no bytes play nothing (NotSupportedError), and otherwise one channel of
   * n/2 frames at 24 kHz whose frame i is the little-endian sample of bytes
   * 2i and 2i+1 divided by 32768.
   */
  lemma PlaybackShape(binary: string)
    ensures var n := |binary|;
            var bytes := BinaryBytes(binary);
            var playback := PlaybackOf(binary);
            && (n % 2 == 1 ==> playback == Swallowed(RangeError))
            && (n == 0 ==> playback == Swallowed(NotSupportedError))
            && (n % 2 == 0 && n > 0 ==>
                  && playback.Played?
                  && playback.buffer.numberOfChannels == 1
                  && playback.buffer.sampleRate == 24000
                  && playback.buffer.length == n / 2
                  && |playback.buffer.channels| == 1
                  && |playback.buffer.channels[0]| == n / 2
                  && forall i :: 0 <= i < n / 2 ==>
                       var v := playback.buffer.channels[0][i];
                       v == Normalize(Int16Le(bytes[2 * i], bytes[2 * i + 1])) && -1.0 <= v < 1.0)
  {
  }

  /**
   * Playing the little-endian bytes of a non-empty run of samples schedules
   * exactly those samples, each divided by 32768.
   */
  lemma PlaybackRoundTrip(samples: seq<Int16>)
    requires samples != []
    ensures PlaybackOf(BinaryOf(LeBytesOf(samples))) ==
              Played(AudioBuffer(1, |samples|, 24000, [PcmFrames(samples)]))
  {
    BinaryBytesOf(LeBytesOf(samples));
    Int16ViewRoundTrip(samples);
  }

  /**
   * N samples of 32767 play as N frames of 32767/32768, and N samples of
   * -32768 as N frames of exactly -1.
   */
  lemma PlaybackOfExtremes(n: nat)
    requires n > 0
    ensures var loud := seq(n, _ => 32767);
            PlaybackOf(BinaryOf(LeBytesOf(loud))).buffer.channels[0] == seq(n, _ => 32767.0 / 32768.0)
    ensures var low := seq(n, _ => -32768);
            PlaybackOf(BinaryOf(LeBytesOf(low))).buffer.channels[0] == seq(n, _ => -1.0)
  {
    var loud: seq<Int16> := seq(n, _ => 32767);
    var low: seq<Int16> := seq(n, _ => -32768);
    PlaybackRoundTrip(loud);
    PlaybackRoundTrip(low);
  }
}
