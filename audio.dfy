/**
 * The PCM codec of utils/audio.ts.
 *
 * Uplink: float samples are clamped to [-1, 1], scaled to signed 16-bit
 * integers (negative samples by 32768, the others by 32767), laid out as
 * little-endian bytes and wrapped in base64. Downlink: base64 back to bytes,
 * bytes to 16-bit integers, each divided by 32768.
 *
 * Samples are exact reals. For finite float32 input every step of the source
 * (min, max, the products by 32767 and 32768, the truncating store) is exact
 * in double precision, so the real-valued model loses nothing.
 */
module Audio {
  import opened Wrappers
  import opened Base64

  type Int16 = x: int | -32768 <= x <= 32767

  /** The MIME tag of every uplink blob. */
  const PCM_MIME_TYPE: string := "audio/pcm;rate=16000"
  /** The rate decodeAudioData uses when none is given (the downlink rate). */
  const OUTPUT_SAMPLE_RATE: nat := 24000

  /** What session.sendRealtimeInput receives as `media`. */
  datatype Blob = Blob(data: string, mimeType: string)

  /** A mono AudioBuffer: its one channel of samples and its sample rate. */
  datatype AudioBuffer = AudioBuffer(channel: seq<real>, sampleRate: nat)
  {
    /** Playback length in seconds. */
    function Duration(): (d: real)
      requires sampleRate > 0
      ensures d >= 0.0
      ensures d * sampleRate as real == |channel| as real
    {
      |channel| as real / sampleRate as real
    }
  }

  /** `Math.max(-1, Math.min(1, x))`. */
  function Clamp(x: real): real {
    if x > 1.0 then 1.0 else if x < -1.0 then -1.0 else x
  }

  /** Truncation toward zero, as ECMAScript's ToIntegerOrInfinity performs it. */
  function Truncate(x: real): (n: int)
    ensures x >= 0.0 ==> n as real <= x < n as real + 1.0
    ensures x < 0.0 ==> n as real - 1.0 < x <= n as real
  {
    if x >= 0.0 then x.Floor else -((-x).Floor)
  }

  /**
   * ECMAScript ToInt16, the conversion a store into an Int16Array applies:
   * truncate, then reduce modulo 2^16 into the signed range.
   */
  function ToInt16(x: real): (v: Int16)
    ensures -32768 <= Truncate(x) <= 32767 ==> v == Truncate(x)
    ensures (v - Truncate(x)) % 65536 == 0
  {
    var m := Truncate(x) % 65536;
    if m >= 32768 then m - 65536 else m
  }

  /** One sample as float32ToInt16 stores it. */
  function EncodeSample(x: real): (v: Int16)
    ensures x >= 1.0 ==> v == 32767
    ensures x <= -1.0 ==> v == -32768
    ensures x == 0.0 ==> v == 0
    ensures x < 0.0 ==> v <= 0
    ensures x >= 0.0 ==> v >= 0
  {
    var s := Clamp(x);
    ScaledInRange(s);
    ToInt16(if s < 0.0 then s * 32768.0 else s * 32767.0)
  }

  /** After clamping, the scaled value truncates into the 16-bit range without wrapping. */
  lemma ScaledInRange(s: real)
    requires -1.0 <= s <= 1.0
    ensures s < 0.0 ==> -32768 <= Truncate(s * 32768.0) <= 0
    ensures s >= 0.0 ==> 0 <= Truncate(s * 32767.0) <= 32767
  {
  }

  function EncodeSamples(xs: seq<real>): (vs: seq<Int16>)
    ensures |vs| == |xs|
  {
    seq(|xs|, i requires 0 <= i < |xs| => EncodeSample(xs[i]))
  }

  /** float32ToInt16: one 16-bit sample per input sample, each encoded by EncodeSample. */
  method Float32ToInt16(float32: array<real>) returns (int16: array<Int16>)
    ensures fresh(int16)
    ensures int16.Length == float32.Length
    ensures int16[..] == EncodeSamples(float32[..])
  {
    int16 := new Int16[float32.Length];
    for i := 0 to float32.Length
      invariant forall j :: 0 <= j < i ==> int16[j] == EncodeSample(float32[j])
    {
      var s := Clamp(float32[i]);
      int16[i] := ToInt16(if s < 0.0 then s * 32768.0 else s * 32767.0);
    }
  }

  /** Truncation never reverses the order of its arguments. */
  lemma TruncateMonotone(x: real, y: real)
    requires x <= y
    ensures Truncate(x) <= Truncate(y)
  {
    if 0.0 <= x {
      assert x.Floor as real <= y;
    } else if y < 0.0 {
      assert (-y).Floor as real <= -x;
    }
  }

  /** Encoding is monotone: a larger sample never encodes to a smaller integer. */
  lemma EncodeMonotone(a: real, b: real)
    requires a <= b
    ensures EncodeSample(a) <= EncodeSample(b)
  {
    var sa, sb := Clamp(a), Clamp(b);
    ScaledInRange(sa);
    ScaledInRange(sb);
    if sb < 0.0 {
      TruncateMonotone(sa * 32768.0, sb * 32768.0);
    } else if 0.0 <= sa {
      TruncateMonotone(sa * 32767.0, sb * 32767.0);
    }
  }

  /** The float int16ToAudioBuffer stores for one 16-bit sample. */
  function DecodeSample(v: Int16): (x: real)
    ensures -1.0 <= x < 1.0
    ensures x == -1.0 <==> v == -32768
    ensures x < 0.0 <==> v < 0
  {
    v as real / 32768.0
  }

  function DecodeSamples(vs: seq<Int16>): (xs: seq<real>)
    ensures |xs| == |vs|
  {
    seq(|vs|, i requires 0 <= i < |vs| => DecodeSample(vs[i]))
  }

  /**
   * int16ToAudioBuffer: a one-channel buffer at the given rate, holding one
   * float per 16-bit sample, each the sample divided by 32768.
   */
  method Int16ToAudioBuffer(int16Data: array<Int16>, sampleRate: nat) returns (buffer: AudioBuffer)
    requires sampleRate > 0
    ensures buffer.sampleRate == sampleRate
    ensures buffer.channel == DecodeSamples(int16Data[..])
  {
    var channelData := new real[int16Data.Length];
    for i := 0 to int16Data.Length
      invariant forall j :: 0 <= j < i ==> channelData[j] == DecodeSample(int16Data[j])
    {
      channelData[i] := int16Data[i] as real / 32768.0;
    }
    buffer := AudioBuffer(channelData[..], sampleRate);
  }

  /**
   * Decoding an encoded sample lands within one quantisation step of the
   * clamped sample for negative input and within two for the rest (the
   * encoder scales those by 32767 and the decoder divides by 32768); it is
   * -1 exactly for input at or below -1.
   */
  lemma QuantisationError(x: real)
    ensures var s, y := Clamp(x), DecodeSample(EncodeSample(x));
      (s < 0.0 ==> s <= y < s + 1.0 / 32768.0) &&
      (s >= 0.0 ==> s - 2.0 / 32768.0 < y <= s) &&
      (y == -1.0 <==> x <= -1.0)
  {
    var s := Clamp(x);
    ScaledInRange(s);
  }

  /** For positive samples one quantisation step is not enough: here the error is 1.5 steps. */
  lemma PositiveErrorExceedsOneStep()
    ensures var x := 32766.5 / 32767.0;
      EncodeSample(x) == 32766 && Clamp(x) - DecodeSample(EncodeSample(x)) > 1.0 / 32768.0
  {
    var x := 32766.5 / 32767.0;
    assert x * 32767.0 == 32766.5;
  }

  /** The two bytes of a 16-bit sample in its two's-complement form, low byte first. */
  function LowByte(v: Int16): Byte {
    v % 65536 % 256
  }

  function HighByte(v: Int16): Byte {
    v % 65536 / 256
  }

  /** The 16-bit sample two little-endian bytes hold. */
  function FromBytes(low: Byte, high: Byte): Int16 {
    var u := low + 256 * high;
    if u >= 32768 then u - 65536 else u
  }

  lemma SampleBytesRoundTrip(v: Int16)
    ensures FromBytes(LowByte(v), HighByte(v)) == v
  {
  }

  lemma BytesSampleRoundTrip(low: Byte, high: Byte)
    ensures LowByte(FromBytes(low, high)) == low && HighByte(FromBytes(low, high)) == high
  {
  }

  /** `new Uint8Array(int16.buffer)`: the buffer's bytes, little-endian. */
  function Int16ToBytes(vs: seq<Int16>): (bytes: seq<Byte>)
    ensures |bytes| == 2 * |vs|
  {
    seq(2 * |vs|, i requires 0 <= i < 2 * |vs| => if i % 2 == 0 then LowByte(vs[i / 2]) else HighByte(vs[i / 2]))
  }

  /** `new Int16Array(bytes.buffer)`: a RangeError unless the byte length is even. */
  function BytesToInt16(bytes: seq<Byte>): (r: Result<seq<Int16>, JsError>)
    ensures r.Err? <==> |bytes| % 2 == 1
    ensures r.Err? ==> r.error == RangeError
    ensures r.Ok? ==> 2 * |r.value| == |bytes|
  {
    if |bytes| % 2 == 1 then Err(RangeError)
    else Ok(seq(|bytes| / 2, i requires 0 <= i < |bytes| / 2 => FromBytes(bytes[2 * i], bytes[2 * i + 1])))
  }

  /** Viewing the bytes of 16-bit samples as 16-bit samples gives them back. */
  lemma Int16BytesRoundTrip(vs: seq<Int16>)
    ensures BytesToInt16(Int16ToBytes(vs)) == Ok(vs)
  {
    var bytes := Int16ToBytes(vs);
    var back := BytesToInt16(bytes).value;
    forall i | 0 <= i < |vs|
      ensures back[i] == vs[i]
    {
      assert bytes[2 * i] == LowByte(vs[i]) && bytes[2 * i + 1] == HighByte(vs[i]);
      SampleBytesRoundTrip(vs[i]);
    }
    assert back == vs;
  }

  /** Every even-length byte sequence is the buffer of the samples it is viewed as. */
  lemma BytesInt16RoundTrip(bytes: seq<Byte>)
    requires |bytes| % 2 == 0
    ensures Int16ToBytes(BytesToInt16(bytes).value) == bytes
  {
    var vs := BytesToInt16(bytes).value;
    var back := Int16ToBytes(vs);
    forall i | 0 <= i < |bytes|
      ensures back[i] == bytes[i]
    {
      var k := i / 2;
      BytesSampleRoundTrip(bytes[2 * k], bytes[2 * k + 1]);
    }
  }

  /**
   * base64Encode: one character per byte with that byte as its code, then
   * btoa; the result is the base64 text of the bytes and btoa never throws.
   */
  method Base64Encode(bytes: array<Byte>) returns (r: string)
    ensures Btoa(BinaryString(bytes[..])) == Ok(r)
    ensures r == EncodeBase64(bytes[..])
  {
    var binary := "";
    for i := 0 to bytes.Length
      invariant binary == BinaryString(bytes[..i])
    {
      binary := binary + [bytes[i] as char];
    }
    assert bytes[..bytes.Length] == bytes[..];
    assert CharCodes(binary) == bytes[..];
    var encoded := Btoa(binary);
    r := encoded.value;
  }

  /**
   * base64Decode: atob, then one byte per character, each the character's
   * code. Fails exactly when atob throws.
   */
  method Base64Decode(base64: string) returns (r: Result<array<Byte>, JsError>)
    ensures r.Ok? <==> DecodeBase64(base64).Ok?
    ensures r.Err? ==> r.error == InvalidCharacterError
    ensures r.Ok? ==> r.value[..] == DecodeBase64(base64).value
    ensures r.Ok? ==> r.value.Length == |Atob(base64).value|
  {
    var decoded := Atob(base64);
    if decoded.Err? {
      return Err(decoded.error);
    }
    var binaryString := decoded.value;
    var bytes := new Byte[|binaryString|];
    for i := 0 to |binaryString|
      invariant forall j :: 0 <= j < i ==> bytes[j] == binaryString[j] as int
    {
      bytes[i] := binaryString[i] as int % 256;
    }
    assert bytes[..] == CharCodes(binaryString);
    r := Ok(bytes);
  }

  /** createPcmBlob: the base64 of the little-endian bytes of the encoded samples, tagged 16 kHz PCM. */
  function CreatePcmBlob(data: seq<real>): (blob: Blob)
    ensures blob.mimeType == PCM_MIME_TYPE
    ensures DecodeBase64(blob.data) == Ok(Int16ToBytes(EncodeSamples(data)))
    ensures |blob.data| == 4 * ((2 * |data| + 2) / 3)
  {
    var bytes := Int16ToBytes(EncodeSamples(data));
    Base64RoundTrip(bytes);
    EncodedLength(bytes);
    Blob(EncodeBase64(bytes), PCM_MIME_TYPE)
  }

  /**
   * decodeAudioData: atob, bytes, a 16-bit view and int16ToAudioBuffer. Fails
   * with atob's error on text that is not base64 and with a RangeError when
   * the decoded bytes are odd in number.
   */
  function DecodeAudioData(base64: string, sampleRate: nat): (r: Result<AudioBuffer, JsError>)
    requires sampleRate > 0
    ensures r.Ok? <==> DecodeBase64(base64).Ok? && |DecodeBase64(base64).value| % 2 == 0
    ensures r.Err? && DecodeBase64(base64).Ok? ==> r.error == RangeError
    ensures r.Ok? ==> r.value.sampleRate == sampleRate && 2 * |r.value.channel| == |DecodeBase64(base64).value|
    ensures r.Ok? ==> forall i :: 0 <= i < |r.value.channel| ==> -1.0 <= r.value.channel[i] < 1.0
  {
    match Atob(base64)
    case Err(e) => Err(e)
    case Ok(binaryString) =>
      match BytesToInt16(CharCodes(binaryString))
      case Err(e) => Err(e)
      case Ok(int16) => Ok(AudioBuffer(DecodeSamples(int16), sampleRate))
  }

  /** Base64 text of the little-endian bytes of 16-bit samples decodes to those samples over 32768. */
  lemma DecodeEncodedSamples(vs: seq<Int16>, sampleRate: nat)
    requires sampleRate > 0
    ensures DecodeAudioData(EncodeBase64(Int16ToBytes(vs)), sampleRate)
         == Ok(AudioBuffer(DecodeSamples(vs), sampleRate))
  {
    var bytes := Int16ToBytes(vs);
    Base64RoundTrip(bytes);
    Int16BytesRoundTrip(vs);
    assert CharCodes(BinaryString(bytes)) == bytes;
  }

  /**
   * The uplink encoding read back by the downlink decoder: one sample per
   * input sample, each within the quantisation error of QuantisationError
   * of the clamped input, and -1 exactly where the input is at most -1.
   */
  lemma PcmRoundTrip(xs: seq<real>, sampleRate: nat)
    requires sampleRate > 0
    ensures DecodeAudioData(CreatePcmBlob(xs).data, sampleRate).Ok?
    ensures var ys := DecodeAudioData(CreatePcmBlob(xs).data, sampleRate).value.channel;
      |ys| == |xs| &&
      forall i :: 0 <= i < |xs| ==>
        Clamp(xs[i]) - 2.0 / 32768.0 < ys[i] < Clamp(xs[i]) + 1.0 / 32768.0 &&
        (ys[i] == -1.0 <==> xs[i] <= -1.0)
  {
    DecodeEncodedSamples(EncodeSamples(xs), sampleRate);
    forall i | 0 <= i < |xs| {
      QuantisationError(xs[i]);
    }
  }
}
