/** The RTP dictionaries of mediasoup/rtp_capabilities.go as values. */
module RtpTypes {
  import opened H264Profile
  import opened Wrappers

  datatype RtcpFeedback = RtcpFeedback(feedbackType: string, parameter: string)

  datatype CodecParameters = CodecParameters(
    h264: H264Parameters,
    apt: int,
    spropStereo: int,
    useinbandfec: int,
    usedtx: int,
    maxplaybackrate: int,
    xGoogleMinBitrate: int,
    xGoogleMaxBitrate: int,
    xGoogleStartBitrate: int)

  const NO_H264 := H264Parameters(0, "", 0)
  const NO_PARAMETERS := CodecParameters(NO_H264, 0, 0, 0, 0, 0, 0, 0, 0)

  datatype Codec = Codec(
    kind: string,
    mimeType: string,
    clockRate: int,
    channels: int,
    payloadType: int,
    preferredPayloadType: int,
    parameters: Option<CodecParameters>,
    rtcpFeedback: seq<RtcpFeedback>)

  /** The zero value of the codec struct. */
  const NO_CODEC := Codec("", "", 0, 0, 0, 0, None, [])

  datatype HeaderExtension = HeaderExtension(
    id: int,
    kind: string,
    uri: string,
    encrypt: Option<bool>,
    preferredId: int,
    preferredEncrypt: bool)

  datatype Encoding = Encoding(
    rid: string,
    ssrc: int,
    rtx: Option<Encoding>,
    maxBitrate: int,
    codecPayloadType: int,
    dtx: bool)

  datatype Rtcp = Rtcp(cname: string, reducedSize: bool, mux: Option<bool>)

  datatype RtpCapabilities = RtpCapabilities(
    codecs: seq<Codec>,
    headerExtensions: seq<HeaderExtension>,
    fecMechanisms: seq<string>)

  datatype RtpParameters = RtpParameters(
    mid: string,
    codecs: seq<Codec>,
    headerExtensions: seq<HeaderExtension>,
    encodings: seq<Encoding>,
    rtcp: Rtcp)

  datatype MappingCodec = MappingCodec(payloadType: int, mappedPayloadType: int)
  datatype MappingHeaderExtension = MappingHeaderExtension(id: int, mappedId: int)
  datatype MappingEncoding = MappingEncoding(rid: string, ssrc: int, mappedSsrc: int)

  datatype RtpMapping = RtpMapping(
    codecs: seq<MappingCodec>,
    headerExtensions: seq<MappingHeaderExtension>,
    encodings: seq<MappingEncoding>)

  // ---------------------------------------------------------------- text

  function LowerChar(c: char): char {
    if 'A' <= c <= 'Z' then (c as int + 32) as char else c
  }

  /** strings.ToLower on ASCII text. */
  function ToLower(s: string): (r: string)
    ensures |r| == |s|
  {
    seq(|s|, i requires 0 <= i < |s| => LowerChar(s[i]))
  }

  predicate HasPrefix(s: string, prefix: string) {
    prefix <= s
  }

  predicate HasSuffix(s: string, suffix: string) {
    |suffix| <= |s| && s[|s| - |suffix|..] == suffix
  }

  /** Whether a mime type names a retransmission codec, whatever its case. */
  predicate IsRtx(mimeType: string) {
    HasSuffix(ToLower(mimeType), "/rtx")
  }

  predicate IsMedia(codec: Codec) {
    !IsRtx(codec.mimeType)
  }

  /** A mime type names a retransmission codec exactly when its last four characters are /rtx, up to case. */
  lemma RtxSuffix(mimeType: string)
    ensures IsRtx(mimeType) <==> |mimeType| >= 4 && ToLower(mimeType[|mimeType| - 4..]) == "/rtx"
  {
    if |mimeType| >= 4 {
      assert ToLower(mimeType)[|mimeType| - 4..] == ToLower(mimeType[|mimeType| - 4..]);
    }
  }
}
