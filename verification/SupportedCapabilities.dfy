/** The table of codecs and header extensions the library supports. */
module SupportedCapabilities {
  import opened H264Profile
  import opened RtpTypes
  import opened Wrappers

  function Audio(mimeType: string, clockRate: int, channels: int, payloadType: int): Codec {
    Codec("audio", mimeType, clockRate, channels, 0, payloadType, None, [])
  }

  const VIDEO_FEEDBACK: seq<RtcpFeedback> := [
    RtcpFeedback("nack", ""),
    RtcpFeedback("nack", "pli"),
    RtcpFeedback("ccm", "fir"),
    RtcpFeedback("goog-remb", "")
  ]

  function Video(mimeType: string, parameters: Option<CodecParameters>): Codec {
    Codec("video", mimeType, 90000, 0, 0, 0, parameters, VIDEO_FEEDBACK)
  }

  function Packetization(mode: int): Option<CodecParameters> {
    Some(NO_PARAMETERS.(h264 := H264Parameters(mode, "", 1)))
  }

  const SUPPORTED_CODECS: seq<Codec> := [
    Audio("audio/opus", 48000, 2, 0),
    Audio("audio/PCMU", 8000, 0, 0),
    Audio("audio/PCMA", 8000, 0, 8),
    Audio("audio/ISAC", 32000, 0, 0),
    Audio("audio/ISAC", 16000, 0, 0),
    Audio("audio/G722", 8000, 0, 9),
    Audio("audio/iLBC", 8000, 0, 0),
    Audio("audio/SILK", 24000, 0, 0),
    Audio("audio/SILK", 16000, 0, 0),
    Audio("audio/SILK", 12000, 0, 0),
    Audio("audio/SILK", 8000, 0, 0),
    Audio("audio/CN", 32000, 0, 13),
    Audio("audio/CN", 16000, 0, 13),
    Audio("audio/CN", 8000, 0, 13),
    Audio("audio/telephone-event", 48000, 0, 0),
    Audio("audio/telephone-event", 32000, 0, 0),
    Audio("audio/telephone-event", 16000, 0, 0),
    Audio("audio/telephone-event", 8000, 0, 0),
    Video("video/VP8", None),
    Video("video/VP9", None),
    Video("video/H264", Packetization(1)),
    Video("video/H264", Packetization(0)),
    Video("video/H265", Packetization(1)),
    Video("video/H265", Packetization(0))
  ]

  function Extension(kind: string, uri: string, id: int): HeaderExtension {
    HeaderExtension(0, kind, uri, None, id, false)
  }

  const URI_AUDIO_LEVEL := "urn:ietf:params:rtp-hdrext:ssrc-audio-level"
  const URI_TOFFSET := "urn:ietf:params:rtp-hdrext:toffset"
  const URI_ABS_SEND_TIME := "http://www.webrtc.org/experiments/rtp-hdrext/abs-send-time"
  const URI_ORIENTATION := "urn:3gpp:video-orientation"
  const URI_MID := "urn:ietf:params:rtp-hdrext:sdes:mid"
  const URI_STREAM_ID := "urn:ietf:params:rtp-hdrext:sdes:rtp-stream-id"
  const URI_REPAIRED_STREAM_ID := "urn:ietf:params:rtp-hdrext:sdes:repaired-rtp-stream-id"

  const SUPPORTED_HEADER_EXTENSIONS: seq<HeaderExtension> := [
    Extension("audio", URI_AUDIO_LEVEL, 1),
    Extension("video", URI_TOFFSET, 2),
    Extension("audio", URI_ABS_SEND_TIME, 3),
    Extension("video", URI_ABS_SEND_TIME, 3),
    Extension("video", URI_ORIENTATION, 4),
    Extension("audio", URI_MID, 5),
    Extension("video", URI_MID, 5),
    Extension("video", URI_STREAM_ID, 6),
    Extension("video", URI_REPAIRED_STREAM_ID, 7)
  ]

  const STATIC_PAYLOAD_TYPES: set<int> := {8, 9, 13}

  /** What the rest of the model needs to know about a row of the table. */
  predicate GoodRow(c: Codec) {
    && c.clockRate != 0 && c.channels >= 0
    && c.payloadType == 0
    && IsMedia(c)
    && (c.preferredPayloadType == 0 || c.preferredPayloadType in STATIC_PAYLOAD_TYPES)
    && (if c.kind == "video" then c.preferredPayloadType == 0 && HasPrefix(ToLower(c.mimeType), "video/")
        else c.kind == "audio" && HasPrefix(ToLower(c.mimeType), "audio/"))
  }

  lemma NotRtx(s: string)
    requires |s| > 0 && LowerChar(s[|s| - 1]) != 'x'
    ensures !IsRtx(s)
  {
    var l := ToLower(s);
    if |l| >= 4 {
      assert l[|l| - 4..][3] == LowerChar(s[|s| - 1]);
    }
  }

  lemma AudioRow(name: string, clockRate: int, channels: int, payloadType: int)
    requires |name| > 0 && LowerChar(name[|name| - 1]) != 'x'
    requires clockRate != 0 && channels >= 0 && (payloadType == 0 || payloadType in STATIC_PAYLOAD_TYPES)
    ensures GoodRow(Audio("audio/" + name, clockRate, channels, payloadType))
  {
    NotRtx("audio/" + name);
    assert ToLower("audio/" + name)[..6] == "audio/";
  }

  lemma VideoRow(name: string, parameters: Option<CodecParameters>)
    requires |name| > 0 && LowerChar(name[|name| - 1]) != 'x'
    ensures GoodRow(Video("video/" + name, parameters))
  {
    NotRtx("video/" + name);
    assert ToLower("video/" + name)[..6] == "video/";
  }

  lemma AudioRows(k: nat)
    requires k < 18
    ensures GoodRow(SUPPORTED_CODECS[k])
  {
    var c := SUPPORTED_CODECS[k];
    assert c == Audio(c.mimeType, c.clockRate, c.channels, c.preferredPayloadType);
    assert c.clockRate != 0 && c.channels >= 0;
    assert c.preferredPayloadType == 0 || c.preferredPayloadType in STATIC_PAYLOAD_TYPES;
    var name := c.mimeType[6..];
    assert c.mimeType == "audio/" + name;
    assert LowerChar(name[|name| - 1]) != 'x';
    AudioRow(name, c.clockRate, c.channels, c.preferredPayloadType);
  }

  lemma VideoRows(k: nat)
    requires 18 <= k < |SUPPORTED_CODECS|
    ensures GoodRow(SUPPORTED_CODECS[k])
  {
    var c := SUPPORTED_CODECS[k];
    assert c == Video(c.mimeType, c.parameters);
    var name := c.mimeType[6..];
    assert c.mimeType == "video/" + name;
    assert LowerChar(name[|name| - 1]) != 'x';
    VideoRow(name, c.parameters);
  }

  lemma TableRows(k: nat)
    requires k < |SUPPORTED_CODECS|
    ensures GoodRow(SUPPORTED_CODECS[k])
  {
    if k < 18 {
      AudioRows(k);
    } else {
      VideoRows(k);
    }
  }

  /** The static payload types of section 6 of RFC 3551 that the table uses: 8 for PCMA, 9 for G722, 13 for CN. */
  lemma StaticTypesOfTable(k: nat)
    requires k < |SUPPORTED_CODECS|
    ensures var c := SUPPORTED_CODECS[k];
            && (c.preferredPayloadType == 8 <==> c.mimeType == "audio/PCMA")
            && (c.preferredPayloadType == 9 <==> c.mimeType == "audio/G722")
            && (c.preferredPayloadType == 13 <==> c.mimeType == "audio/CN")
            && c.preferredPayloadType in {0, 8, 9, 13}
  {
    var c := SUPPORTED_CODECS[k];
    assert k !in {2, 5, 11, 12, 13} ==> c.preferredPayloadType == 0;
    assert |"audio/CN"| == 8 && (k !in {11, 12, 13} ==> |c.mimeType| > 8);
    assert "audio/PCMA"[6..] == "PCMA" && "audio/G722"[6..] == "G722";
    assert k == 2 || k >= 18 || |c.mimeType| != 10 || c.mimeType[9] != 'A';
    assert k == 5 || k >= 18 || |c.mimeType| != 10 || c.mimeType[9] != '2';
    assert k >= 18 ==> c.mimeType[0] == 'v';
  }

  /** The table gives one extension id to each uri, whatever the kind. */
  lemma ExtensionIds(i: nat, j: nat)
    requires i < |SUPPORTED_HEADER_EXTENSIONS| && j < |SUPPORTED_HEADER_EXTENSIONS|
    requires SUPPORTED_HEADER_EXTENSIONS[i].uri == SUPPORTED_HEADER_EXTENSIONS[j].uri
    ensures SUPPORTED_HEADER_EXTENSIONS[i].preferredId == SUPPORTED_HEADER_EXTENSIONS[j].preferredId
  {
    assert |URI_AUDIO_LEVEL| == 43 && |URI_TOFFSET| == 34 && |URI_ABS_SEND_TIME| == 58 && |URI_ORIENTATION| == 26;
    assert |URI_MID| == 35 && |URI_STREAM_ID| == 45 && |URI_REPAIRED_STREAM_ID| == 54;
  }
}
