/**
 * CanConsume and GetConsumerRtpParameters (mediasoup/ortc.go): whether, and
 * with which codecs, a remote endpoint can consume a producer.
 */
module ConsumerParameters {
  import opened Consumable
  import opened H264Profile
  import opened Matching
  import opened ProducerMapping
  import opened RouterCapabilities
  import opened RtpTypes
  import opened Selection
  import opened Wrappers

  /** The case-sensitive test both functions use. */
  predicate EndsWithRtx(mimeType: string) {
    HasSuffix(mimeType, "/rtx")
  }

  predicate Kept(codec: Codec, caps: seq<Codec>) {
    FirstMatch(codec, caps, true).Some?
  }

  /** The consumable codecs the remote matches, each with the remote's feedback. */
  function KeptCodecs(codecs: seq<Codec>, caps: seq<Codec>): seq<Codec> {
    if codecs == [] then []
    else
      var n := |codecs| - 1;
      var k := FirstMatch(codecs[n], caps, true);
      KeptCodecs(codecs[..n], caps)
      + if k.Some? then [codecs[n].(rtcpFeedback := caps[k.value].rtcpFeedback)] else []
  }

  /** The remote capabilities matched by the consumable codecs, in their order. */
  function MatchingCaps(codecs: seq<Codec>, caps: seq<Codec>): seq<Codec> {
    if codecs == [] then []
    else
      var n := |codecs| - 1;
      var k := FirstMatch(codecs[n], caps, true);
      MatchingCaps(codecs[..n], caps) + if k.Some? then [caps[k.value]] else []
  }

  predicate CanConsumeCodecs(codecs: seq<Codec>, caps: seq<Codec>) {
    var matching := MatchingCaps(codecs, caps);
    AllValid(caps) && matching != [] && !EndsWithRtx(matching[0].mimeType)
  }

  predicate HasExtension(capExts: seq<HeaderExtension>, id: int) {
    exists i :: 0 <= i < |capExts| && capExts[i].preferredId == id
  }

  function KeptExtensions(exts: seq<HeaderExtension>, capExts: seq<HeaderExtension>): seq<HeaderExtension> {
    if exts == [] then []
    else
      var n := |exts| - 1;
      KeptExtensions(exts[..n], capExts) + if HasExtension(capExts, exts[n].id) then [exts[n]] else []
  }

  predicate AnyRtx(codecs: seq<Codec>) {
    exists i :: 0 <= i < |codecs| && EndsWithRtx(codecs[i].mimeType)
  }

  function PlainEncoding(ssrc: int): Encoding {
    Encoding("", ssrc, None, 0, 0, false)
  }

  /** `ssrc` and `rtxSsrc` stand for the random numbers drawn. */
  function Consumer(consumable: RtpParameters, caps: RtpCapabilities, ssrc: int, rtxSsrc: int): Result<RtpParameters> {
    var codecs := KeptCodecs(consumable.codecs, caps.codecs);
    if !AllValid(caps.codecs) then Err(TypeError)
    else if codecs == [] || EndsWithRtx(codecs[0].mimeType) then Err(UnsupportedError)
    else
      Ok(RtpParameters(
           "",
           codecs,
           KeptExtensions(consumable.headerExtensions, caps.headerExtensions),
           [PlainEncoding(ssrc).(rtx := if AnyRtx(codecs) then Some(PlainEncoding(rtxSsrc)) else None)],
           consumable.rtcp))
  }

  // ---------------------------------------------------------------- the loops of the source

  method CheckCaps(caps: seq<Codec>) returns (ok: bool)
    ensures ok <==> AllValid(caps)
  {
    for i := 0 to |caps|
      invariant forall k :: 0 <= k < i ==> ValidCodec(caps[k])
    {
      if !ValidCodec(caps[i]) {
        return false;
      }
    }
    return true;
  }

  method CanConsume(consumable: RtpParameters, caps: RtpCapabilities) returns (can: bool)
    ensures can <==> CanConsumeCodecs(consumable.codecs, caps.codecs)
  {
    hide FirstMatch, ValidCodec;
    var ok := CheckCaps(caps.codecs);
    if !ok {
      return false;
    }
    var matching: seq<Codec> := [];
    for i := 0 to |consumable.codecs|
      invariant matching == MatchingCaps(consumable.codecs[..i], caps.codecs)
    {
      assert consumable.codecs[..i + 1][..i] == consumable.codecs[..i];
      var k := SelectMatchedCodecs(consumable.codecs[i], caps.codecs, true);
      if k.Some? {
        matching := matching + [caps.codecs[k.value]];
      }
    }
    assert consumable.codecs[..|consumable.codecs|] == consumable.codecs;
    return |matching| > 0 && !EndsWithRtx(matching[0].mimeType);
  }

  method KeepCodecs(codecs: seq<Codec>, caps: seq<Codec>) returns (kept: seq<Codec>, rtxSupported: bool)
    ensures kept == KeptCodecs(codecs, caps)
    ensures rtxSupported <==> AnyRtx(kept)
  {
    hide FirstMatch, EndsWithRtx;
    kept, rtxSupported := [], false;
    for i := 0 to |codecs|
      invariant kept == KeptCodecs(codecs[..i], caps)
      invariant rtxSupported <==> AnyRtx(kept)
    {
      assert codecs[..i + 1][..i] == codecs[..i];
      var k := SelectMatchedCodecs(codecs[i], caps, true);
      if k.Some? {
        var codec := codecs[i].(rtcpFeedback := caps[k.value].rtcpFeedback);
        AnyRtxSnoc(kept, codec);
        kept := kept + [codec];
        if !rtxSupported && EndsWithRtx(codec.mimeType) {
          rtxSupported := true;
        }
      }
    }
    assert codecs[..|codecs|] == codecs;
  }

  lemma AnyRtxSnoc(codecs: seq<Codec>, codec: Codec)
    ensures AnyRtx(codecs + [codec]) <==> AnyRtx(codecs) || EndsWithRtx(codec.mimeType)
  {
    hide EndsWithRtx;
    var all := codecs + [codec];
    if AnyRtx(codecs) {
      var i :| 0 <= i < |codecs| && EndsWithRtx(codecs[i].mimeType);
      assert EndsWithRtx(all[i].mimeType);
    }
    if EndsWithRtx(codec.mimeType) {
      assert EndsWithRtx(all[|codecs|].mimeType);
    }
  }

  method KeepExtensions(exts: seq<HeaderExtension>, capExts: seq<HeaderExtension>) returns (kept: seq<HeaderExtension>)
    ensures kept == KeptExtensions(exts, capExts)
  {
    kept := [];
    for i := 0 to |exts|
      invariant kept == KeptExtensions(exts[..i], capExts)
    {
      assert exts[..i + 1][..i] == exts[..i];
      for j := 0 to |capExts|
        invariant kept == KeptExtensions(exts[..i], capExts)
        invariant forall k :: 0 <= k < j ==> capExts[k].preferredId != exts[i].id
      {
        if capExts[j].preferredId == exts[i].id {
          assert HasExtension(capExts, exts[i].id);
          kept := kept + [exts[i]];
          break;
        }
      }
    }
    assert exts[..|exts|] == exts;
  }

  method GetConsumerRtpParameters(consumable: RtpParameters, caps: RtpCapabilities, ssrc: int, rtxSsrc: int)
    returns (r: Result<RtpParameters>)
    ensures r == Consumer(consumable, caps, ssrc, rtxSsrc)
  {
    var ok := CheckCaps(caps.codecs);
    if !ok {
      return Err(TypeError);
    }
    var codecs, rtxSupported := KeepCodecs(consumable.codecs, caps.codecs);
    if |codecs| == 0 || EndsWithRtx(codecs[0].mimeType) {
      return Err(UnsupportedError);
    }
    var exts := KeepExtensions(consumable.headerExtensions, caps.headerExtensions);
    var encoding := PlainEncoding(ssrc);
    if rtxSupported {
      encoding := encoding.(rtx := Some(PlainEncoding(rtxSsrc)));
    }
    r := Ok(RtpParameters("", codecs, exts, [encoding], consumable.rtcp));
  }

  // ---------------------------------------------------------------- agreement

  /** The first consumable codec that the remote matches. */
  function FirstKept(codecs: seq<Codec>, caps: seq<Codec>): (r: Option<nat>)
    ensures r.Some? ==> r.value < |codecs| && Kept(codecs[r.value], caps)
                        && forall i :: 0 <= i < r.value ==> !Kept(codecs[i], caps)
    ensures r.None? ==> forall i :: 0 <= i < |codecs| ==> !Kept(codecs[i], caps)
  {
    if codecs == [] then None
    else
      var n := |codecs| - 1;
      hide Kept;
      var r := FirstKept(codecs[..n], caps);
      if r.Some? then r else if Kept(codecs[n], caps) then Some(n) else None
  }

  lemma {:induction false} FirstKeptLeads(codecs: seq<Codec>, caps: seq<Codec>)
    ensures FirstKept(codecs, caps).None? ==> KeptCodecs(codecs, caps) == [] && MatchingCaps(codecs, caps) == []
    ensures FirstKept(codecs, caps).Some? ==>
              var i := FirstKept(codecs, caps).value;
              && KeptCodecs(codecs, caps) != [] && KeptCodecs(codecs, caps)[0].mimeType == codecs[i].mimeType
              && MatchingCaps(codecs, caps) != [] && MatchingCaps(codecs, caps)[0] == CapOf(codecs[i], caps)
  {
    hide FirstMatch;
    if codecs != [] {
      var n := |codecs| - 1;
      FirstKeptLeads(codecs[..n], caps);
    }
  }

  /** A retransmission codec is written in lower case, as routers write it. */
  predicate LowerCase(codec: Codec) {
    IsRtx(codec.mimeType) ==> EndsWithRtx(codec.mimeType)
  }

  ghost predicate LowerCaseRtx(codecs: seq<Codec>) {
    forall i :: 0 <= i < |codecs| ==> LowerCase(codecs[i])
  }

  lemma EndsWithRtxIsRtx(mimeType: string)
    requires EndsWithRtx(mimeType)
    ensures IsRtx(mimeType)
  {
    var l := ToLower(mimeType);
    assert forall i :: 0 <= i < 4 ==> mimeType[|mimeType| - 4 + i] == "/rtx"[i] by {
      assert mimeType[|mimeType| - 4..] == "/rtx";
    }
    assert l[|l| - 4..] == "/rtx";
  }

  /** The first kept codec is an RTX that the remote does not write in lower case. */
  predicate ShoutedRtxFirst(codecs: seq<Codec>, caps: seq<Codec>) {
    var i := FirstKept(codecs, caps);
    && i.Some?
    && IsRtx(codecs[i.value].mimeType)
    && !EndsWithRtx(CapOf(codecs[i.value], caps).mimeType)
  }

  lemma SameTypeSameRtx(codec: Codec, caps: seq<Codec>)
    requires Kept(codec, caps)
    ensures IsRtx(CapOf(codec, caps).mimeType) <==> IsRtx(codec.mimeType)
  {
    hide Answer;
  }

  /**
   * For consumable parameters as routers make them, getting consumer parameters
   * succeeds only if CanConsume says so, and the two agree exactly unless the
   * first codec the remote matches is an RTX the remote writes with capitals.
   */
  lemma CanConsumeAgreesIff(consumable: RtpParameters, caps: RtpCapabilities, ssrc: int, rtxSsrc: int)
    requires LowerCaseRtx(consumable.codecs)
    ensures var can := CanConsumeCodecs(consumable.codecs, caps.codecs);
            var got := Consumer(consumable, caps, ssrc, rtxSsrc).Ok?;
            && (got ==> can)
            && ((can <==> got) <==> !(AllValid(caps.codecs) && ShoutedRtxFirst(consumable.codecs, caps.codecs)))
  {
    hide FirstMatch, IsRtx, EndsWithRtx, ValidCodec, KeptExtensions;
    var codecs, cs := consumable.codecs, caps.codecs;
    FirstKeptLeads(codecs, cs);
    var k := FirstKept(codecs, cs);
    if k.Some? {
      SameTypeSameRtx(codecs[k.value], cs);
      var mine, theirs := codecs[k.value].mimeType, CapOf(codecs[k.value], cs).mimeType;
      if EndsWithRtx(mine) {
        EndsWithRtxIsRtx(mine);
      }
      if EndsWithRtx(theirs) {
        EndsWithRtxIsRtx(theirs);
      }
    }
  }

  /** A remote that knows only video/RTX, against VP8 and its RTX: CanConsume says yes and consuming fails. */
  lemma CapitalsDisagree(consumable: RtpParameters, caps: RtpCapabilities, ssrc: int, rtxSsrc: int)
    requires consumable.codecs == [
               NO_CODEC.(mimeType := "video/VP8", clockRate := 90000),
               NO_CODEC.(mimeType := "video/rtx", clockRate := 90000)]
    requires caps.codecs == [NO_CODEC.(mimeType := "video/RTX", clockRate := 90000)]
    ensures CanConsumeCodecs(consumable.codecs, caps.codecs)
    ensures Consumer(consumable, caps, ssrc, rtxSsrc).Err?
  {
    hide Answer, KeptExtensions;
    var codecs, cap := consumable.codecs, caps.codecs[0];
    assert ToLower(cap.mimeType) == "video/rtx" && ToLower(codecs[0].mimeType) == "video/vp8";
    assert ToLower("video/vp8")[6] == 'v' && "video/rtx"[6] == 'r';
    assert !Matches(codecs[0], cap, true);
    assert ToLower(codecs[1].mimeType) == "video/rtx";
    assert "video/rtx" != "video/h264";
    assert Matches(codecs[1], cap, true);
    assert "video/rtx"[5..] == "/rtx" && "video/RTX"[5..] == "/RTX" && "/RTX"[1] != "/rtx"[1];
    assert FirstMatch(codecs[0], caps.codecs, true) == None;
    assert FirstMatch(codecs[1], caps.codecs, true) == Some(0);
    FirstKeptLeads(codecs, caps.codecs);
    assert FirstKept(codecs, caps.codecs) == Some(1);
  }

  /** In particular they agree when the remote writes its RTX mime types in lower case. */
  lemma CanConsumePredicts(consumable: RtpParameters, caps: RtpCapabilities, ssrc: int, rtxSsrc: int)
    requires LowerCaseRtx(consumable.codecs) && LowerCaseRtx(caps.codecs)
    ensures CanConsumeCodecs(consumable.codecs, caps.codecs) <==> Consumer(consumable, caps, ssrc, rtxSsrc).Ok?
  {
    hide IsRtx, EndsWithRtx, KeptCodecs, MatchingCaps, Consumer, CanConsumeCodecs, ValidCodec;
    CanConsumeAgreesIff(consumable, caps, ssrc, rtxSsrc);
    var codecs, cs := consumable.codecs, caps.codecs;
    var k := FirstKept(codecs, cs);
    if k.Some? {
      SameTypeSameRtx(codecs[k.value], cs);
    }
  }

  // ---------------------------------------------------------------- what is kept

  /** A kept codec: the consumable one with the feedback of the remote capability it matches first. */
  function WithRemoteFeedback(codec: Codec, caps: seq<Codec>): Codec {
    codec.(rtcpFeedback := CapOf(codec, caps).rtcpFeedback)
  }

  /** The kept codecs are, in order, exactly the matched ones, and differ from them only in their feedback. */
  lemma {:induction false} KeptIsSubsequence(codecs: seq<Codec>, caps: seq<Codec>)
    ensures Selects(
              KeptCodecs(codecs, caps), codecs,
              (c: Codec) => Kept(c, caps), (c: Codec) => WithRemoteFeedback(c, caps))
  {
    hide FirstMatch;
    if codecs != [] {
      var n := |codecs| - 1;
      KeptIsSubsequence(codecs[..n], caps);
      SelectsOne(
        KeptCodecs(codecs[..n], caps), codecs,
        (c: Codec) => Kept(c, caps), (c: Codec) => WithRemoteFeedback(c, caps));
    }
  }

  /** The remote prefers this id for some extension. */
  ghost predicate RemotePrefers(capExts: seq<HeaderExtension>, id: int) {
    exists e :: e in capExts && e.preferredId == id
  }

  lemma HasExtensionIff(capExts: seq<HeaderExtension>, id: int)
    ensures HasExtension(capExts, id) <==> RemotePrefers(capExts, id)
  {
  }

  /** The kept extensions are, in order, exactly those whose id the remote has. */
  lemma {:induction false} KeptExtensionsExact(exts: seq<HeaderExtension>, capExts: seq<HeaderExtension>)
    ensures Selects(
              KeptExtensions(exts, capExts), exts,
              (e: HeaderExtension) => RemotePrefers(capExts, e.id), (e: HeaderExtension) => e)
  {
    hide HasExtension, RemotePrefers;
    if exts != [] {
      var n := |exts| - 1;
      KeptExtensionsExact(exts[..n], capExts);
      HasExtensionIff(capExts, exts[n].id);
      SelectsOne(
        KeptExtensions(exts[..n], capExts), exts,
        (e: HeaderExtension) => RemotePrefers(capExts, e.id), (e: HeaderExtension) => e);
    }
  }

  /** What a consumer gets: the kept codecs and extensions, one encoding with the drawn ssrcs, the producer's rtcp. */
  lemma ConsumerMeaning(consumable: RtpParameters, caps: RtpCapabilities, ssrc: int, rtxSsrc: int)
    requires Consumer(consumable, caps, ssrc, rtxSsrc).Ok?
    ensures var r := Consumer(consumable, caps, ssrc, rtxSsrc).value;
            && r.mid == "" && r.rtcp == consumable.rtcp
            && Selects(
                 r.codecs, consumable.codecs,
                 (c: Codec) => Kept(c, caps.codecs), (c: Codec) => WithRemoteFeedback(c, caps.codecs))
            && Selects(
                 r.headerExtensions, consumable.headerExtensions,
                 (e: HeaderExtension) => RemotePrefers(caps.headerExtensions, e.id), (e: HeaderExtension) => e)
            && |r.encodings| == 1
            && r.encodings[0] == Encoding("", ssrc, r.encodings[0].rtx, 0, 0, false)
            && (r.encodings[0].rtx.Some? ==> r.encodings[0].rtx == Some(Encoding("", rtxSsrc, None, 0, 0, false)))
  {
    hide Kept, RemotePrefers, AllValid, AnyRtx, EndsWithRtx, KeptCodecs, KeptExtensions;
    KeptIsSubsequence(consumable.codecs, caps.codecs);
    KeptExtensionsExact(consumable.headerExtensions, caps.headerExtensions);
  }

  /** On success the single encoding has an RTX exactly when an RTX codec was kept. */
  lemma EncodingRtxIff(consumable: RtpParameters, caps: RtpCapabilities, ssrc: int, rtxSsrc: int)
    requires LowerCaseRtx(consumable.codecs) && Consumer(consumable, caps, ssrc, rtxSsrc).Ok?
    ensures var r := Consumer(consumable, caps, ssrc, rtxSsrc).value;
            && |r.encodings| == 1 && r.encodings[0].ssrc == ssrc
            && (r.encodings[0].rtx.Some? <==>
                  exists p: nat :: p < |consumable.codecs| && IsRtx(consumable.codecs[p].mimeType)
                                   && Kept(consumable.codecs[p], caps.codecs))
  {
    hide FirstMatch, EndsWithRtx, IsRtx, AllValid, KeptExtensions, Selects, Kept;
    var codecs, cs := consumable.codecs, caps.codecs;
    var kept := KeptCodecs(codecs, cs);
    KeptIsSubsequence(codecs, cs);
    if AnyRtx(kept) {
      var i :| 0 <= i < |kept| && EndsWithRtx(kept[i].mimeType);
      EndsWithRtxIsRtx(kept[i].mimeType);
      var p := SelectedFrom(kept, codecs, (c: Codec) => Kept(c, cs), (c: Codec) => WithRemoteFeedback(c, cs), i);
      assert IsRtx(codecs[p].mimeType);
    }
    if p: nat :| p < |codecs| && IsRtx(codecs[p].mimeType) && Kept(codecs[p], cs) {
      var i := SelectedTo(kept, codecs, (c: Codec) => Kept(c, cs), (c: Codec) => WithRemoteFeedback(c, cs), p);
      assert LowerCase(codecs[p]);
      assert EndsWithRtx(kept[i].mimeType);
    }
  }

  /**
   * RTX codecs are matched by format alone. When the remote knows the RTX of
   * the producer's first codec but not that codec, consuming fails whatever
   * other codecs it supports.
   */
  lemma RtxShadowsLaterCodecs(consumable: RtpParameters, caps: RtpCapabilities, ssrc: int, rtxSsrc: int)
    requires LowerCaseRtx(consumable.codecs) && |consumable.codecs| >= 2
    requires !Kept(consumable.codecs[0], caps.codecs)
    requires IsRtx(consumable.codecs[1].mimeType) && Kept(consumable.codecs[1], caps.codecs)
    ensures Consumer(consumable, caps, ssrc, rtxSsrc).Err?
  {
    hide FirstMatch, EndsWithRtx, IsRtx, AllValid, KeptExtensions;
    FirstKeptLeads(consumable.codecs, caps.codecs);
    assert FirstKept(consumable.codecs, caps.codecs) == Some(1);
  }

  /**
   * Consuming succeeds exactly when the remote is valid and the first codec it
   * matches is a media codec; the two failures have their own errors.
   */
  lemma ConsumeSucceedsIff(consumable: RtpParameters, caps: RtpCapabilities, ssrc: int, rtxSsrc: int)
    requires LowerCaseRtx(consumable.codecs)
    ensures var r := Consumer(consumable, caps, ssrc, rtxSsrc);
            r.Err? ==> r.error == if AllValid(caps.codecs) then UnsupportedError else TypeError
    ensures Consumer(consumable, caps, ssrc, rtxSsrc).Ok? <==>
            && AllValid(caps.codecs)
            && exists i :: 0 <= i < |consumable.codecs|
                 && IsMedia(consumable.codecs[i]) && Kept(consumable.codecs[i], caps.codecs)
                 && forall j :: 0 <= j < i ==> !Kept(consumable.codecs[j], caps.codecs)
  {
    hide FirstMatch, EndsWithRtx, IsRtx, AllValid, KeptExtensions;
    var codecs, cs := consumable.codecs, caps.codecs;
    FirstKeptLeads(codecs, cs);
    var k := FirstKept(codecs, cs);
    if k.Some? && EndsWithRtx(codecs[k.value].mimeType) {
      EndsWithRtxIsRtx(codecs[k.value].mimeType);
    }
  }

  /** A looked up capability is one of the router's, or the zero codec. */
  lemma {:induction false} CapIsLowerCase(caps: seq<Codec>, payloadType: int)
    requires LowerCaseRtx(caps)
    ensures LowerCase(CapWithPayloadType(caps, payloadType))
  {
    if caps == [] {
      assert ToLower(NO_CODEC.mimeType) == "";
    } else {
      CapIsLowerCase(caps[1..], payloadType);
    }
  }

  lemma {:induction false} ConsumableIsLowerCase(codecs: seq<Codec>, caps: seq<Codec>, entries: seq<MappingCodec>)
    requires RtxHaveParameters(caps) && LowerCaseRtx(caps)
    ensures LowerCaseRtx(ConsumableCodecs(codecs, caps, entries))
  {
    hide IsRtx, EndsWithRtx, RtxHaveParameters, FirstRtxFor;
    if codecs != [] {
      var last := codecs[|codecs| - 1];
      ConsumableIsLowerCase(codecs[..|codecs| - 1], caps, entries);
      CapIsLowerCase(caps, MappedPayloadType(entries, last.payloadType));
    }
  }

  lemma RouterIsLowerCase(caps: seq<Codec>)
    requires RouterCodecs(caps)
    ensures LowerCaseRtx(caps)
  {
    forall i | 0 <= i < |caps|
      ensures LowerCase(caps[i])
    {
      assert GoodAt(caps, i);
      assert "video/rtx"[5..] == "/rtx";
    }
  }

  /** What a router offers, for any producer and any mapping, meets the hypothesis of the theorems above. */
  lemma OfferedIsLowerCase(kind: string, params: RtpParameters, caps: RtpCapabilities, m: RtpMapping)
    requires RouterCodecs(caps.codecs) && RtxHaveParameters(caps.codecs) && |params.encodings| <= |m.encodings|
    ensures var r := Consumables(kind, params, caps, m);
            r.Ok? ==> LowerCaseRtx(r.value.codecs)
  {
    hide RouterCodecs, RtxHaveParameters;
    RouterIsLowerCase(caps.codecs);
    ConsumableIsLowerCase(params.codecs, caps.codecs, m.codecs);
  }
}
