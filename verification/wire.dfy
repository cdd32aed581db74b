/**
  What the client puts on the WebSocket.  An audio message is the byte buffer of
  the `Int16Array` produced by the quantizer: two bytes per sample, low byte first
  (the byte order of the browser platform), with no header.  The end of a segment
  is a JSON text message whose only member `eof` is 1.  The decoder is the reading
  the recognition server applies to an audio message.
 */
module Wire {
  import opened Quantizer

  type Byte = b: int | 0 <= b < 256

  datatype Option<T> = None | Some(value: T)

  datatype Message = Binary(data: seq<Byte>) | Text(body: string)

  /** The end-of-segment text: a JSON object whose only member `eof` is 1. */
  const EofJson: string := "{\"eof\":1}"

  /** The two bytes of one stored 16-bit sample, low byte first. */
  function EncodeSample(v: int): (bytes: seq<Byte>)
    ensures |bytes| == 2
  {
    var u := v % 65536;
    [u % 256, u / 256]
  }

  /** Reads a little-endian two's-complement 16-bit sample. */
  function DecodeSample(lo: Byte, hi: Byte): (v: int)
    ensures IsInt16(v)
  {
    var u := lo + 256 * hi;
    if u <= Int16Max then u else u - 65536
  }

  /** The bytes of an `Int16Array` holding `samples`. */
  function EncodePcm(samples: seq<int>): (bytes: seq<Byte>)
    ensures |bytes| == 2 * |samples|
  {
    if |samples| == 0 then [] else EncodeSample(samples[0]) + EncodePcm(samples[1..])
  }

  /** Reads a byte buffer as 16-bit samples; a buffer of odd length is not one. */
  function DecodePcm(bytes: seq<Byte>): (samples: Option<seq<int>>)
    ensures samples.Some? <==> |bytes| % 2 == 0
    ensures samples.Some? ==> |samples.value| * 2 == |bytes|
    decreases |bytes|
  {
    if |bytes| == 0 then Some([])
    else if |bytes| == 1 then None
    else
      match DecodePcm(bytes[2..])
      case None => None
      case Some(rest) => Some([DecodeSample(bytes[0], bytes[1])] + rest)
  }

  lemma SampleRoundTrip(v: int)
    requires IsInt16(v)
    ensures var b := EncodeSample(v); DecodeSample(b[0], b[1]) == v
  {
  }

  /** Decoding what the client sends gives back the quantized samples. */
  lemma {:induction false} PcmRoundTrip(samples: seq<int>)
    requires forall i :: 0 <= i < |samples| ==> IsInt16(samples[i])
    ensures DecodePcm(EncodePcm(samples)) == Some(samples)
  {
    if |samples| > 0 {
      var bytes := EncodePcm(samples);
      assert bytes[2..] == EncodePcm(samples[1..]);
      SampleRoundTrip(samples[0]);
      PcmRoundTrip(samples[1..]);
      assert [samples[0]] + samples[1..] == samples;
    }
  }

  /** Every buffer that decodes is exactly the encoding of what it decodes to,
      so the encoding is a bijection onto the even-length buffers. */
  lemma {:induction false} PcmDecodeEncode(bytes: seq<Byte>)
    requires DecodePcm(bytes).Some?
    ensures EncodePcm(DecodePcm(bytes).value) == bytes
    decreases |bytes|
  {
    if |bytes| > 0 {
      var samples := DecodePcm(bytes).value;
      PcmDecodeEncode(bytes[2..]);
      assert samples[1..] == DecodePcm(bytes[2..]).value;
      var lo, hi := bytes[0], bytes[1];
      assert EncodeSample(DecodeSample(lo, hi)) == [lo, hi];
      assert bytes == [lo, hi] + bytes[2..];
    }
  }

  /** The binary message carrying one audio frame: the bytes of its quantized samples. */
  function AudioMessage(frame: seq<real>): (m: Message)
    ensures m.Binary? && |m.data| == 2 * |frame|
    ensures DecodePcm(m.data) == Some(Pcm16(frame))
  {
    PcmRoundTrip(Pcm16(frame));
    Binary(EncodePcm(Pcm16(frame)))
  }
}
