/**
 * GetPipeConsumerRtpParameters (mediasoup/ortc.go), and what happens when its
 * result is produced into a second router with the same capabilities.
 */
module PipeConsumer {
  import opened Consumable
  import opened H264Profile
  import opened Matching
  import opened ProducerMapping
  import opened RouterCapabilities
  import opened RouterGeneration
  import opened RtpTypes
  import opened Selection
  import opened SupportedCapabilities
  import opened Wrappers

  predicate KeepsFeedback(fb: RtcpFeedback) {
    (fb.feedbackType == "nack" && fb.parameter == "pli") || (fb.feedbackType == "ccm" && fb.parameter == "fir")
  }

  function PipeFeedback(fbs: seq<RtcpFeedback>): seq<RtcpFeedback> {
    if fbs == [] then []
    else
      var n := |fbs| - 1;
      PipeFeedback(fbs[..n]) + if KeepsFeedback(fbs[n]) then [fbs[n]] else []
  }

  function PipeCodec(codec: Codec): Codec {
    codec.(rtcpFeedback := PipeFeedback(codec.rtcpFeedback))
  }

  function PipeCodecs(codecs: seq<Codec>): seq<Codec> {
    if codecs == [] then []
    else
      var n := |codecs| - 1;
      PipeCodecs(codecs[..n]) + if IsMedia(codecs[n]) then [PipeCodec(codecs[n])] else []
  }

  function PipeExtensions(exts: seq<HeaderExtension>): seq<HeaderExtension> {
    if exts == [] then []
    else
      var n := |exts| - 1;
      PipeExtensions(exts[..n]) + if exts[n].uri != URI_ABS_SEND_TIME then [exts[n]] else []
  }

  function PipeEncodings(encodings: seq<Encoding>): seq<Encoding> {
    seq(|encodings|, i requires 0 <= i < |encodings| => encodings[i].(rtx := None))
  }

  function Pipe(consumable: RtpParameters): RtpParameters {
    RtpParameters(
      "",
      PipeCodecs(consumable.codecs),
      PipeExtensions(consumable.headerExtensions),
      PipeEncodings(consumable.encodings),
      consumable.rtcp)
  }

  method ReduceFeedback(fbs: seq<RtcpFeedback>) returns (r: seq<RtcpFeedback>)
    ensures r == PipeFeedback(fbs)
  {
    r := [];
    for i := 0 to |fbs|
      invariant r == PipeFeedback(fbs[..i])
    {
      assert fbs[..i + 1][..i] == fbs[..i];
      if KeepsFeedback(fbs[i]) {
        r := r + [fbs[i]];
      }
    }
    assert fbs[..|fbs|] == fbs;
  }

  /** GetPipeConsumerRtpParameters as the loops the source runs. */
  method GetPipeConsumerRtpParameters(consumable: RtpParameters) returns (r: RtpParameters)
    ensures r == Pipe(consumable)
  {
    hide IsRtx;
    var codecs, exts, encodings := [], [], [];
    for i := 0 to |consumable.codecs|
      invariant codecs == PipeCodecs(consumable.codecs[..i])
    {
      assert consumable.codecs[..i + 1][..i] == consumable.codecs[..i];
      if IsMedia(consumable.codecs[i]) {
        var feedback := ReduceFeedback(consumable.codecs[i].rtcpFeedback);
        codecs := codecs + [consumable.codecs[i].(rtcpFeedback := feedback)];
      }
    }
    assert consumable.codecs[..|consumable.codecs|] == consumable.codecs;
    for i := 0 to |consumable.headerExtensions|
      invariant exts == PipeExtensions(consumable.headerExtensions[..i])
    {
      assert consumable.headerExtensions[..i + 1][..i] == consumable.headerExtensions[..i];
      if consumable.headerExtensions[i].uri != URI_ABS_SEND_TIME {
        exts := exts + [consumable.headerExtensions[i]];
      }
    }
    assert consumable.headerExtensions[..|consumable.headerExtensions|] == consumable.headerExtensions;
    for i := 0 to |consumable.encodings|
      invariant |encodings| == i
      invariant forall k :: 0 <= k < i ==> encodings[k] == PipeEncodings(consumable.encodings)[k]
    {
      encodings := encodings + [consumable.encodings[i].(rtx := None)];
    }
    assert encodings == PipeEncodings(consumable.encodings);
    r := RtpParameters("", codecs, exts, encodings, consumable.rtcp);
  }

  // ---------------------------------------------------------------- what a pipe consumer gets

  /** The feedback that survives. */
  predicate SurvivesPipe(fb: RtcpFeedback) {
    fb == RtcpFeedback("nack", "pli") || fb == RtcpFeedback("ccm", "fir")
  }

  lemma {:induction false} PipeFeedbackExact(fbs: seq<RtcpFeedback>)
    ensures Selects(PipeFeedback(fbs), fbs, (fb: RtcpFeedback) => SurvivesPipe(fb), (fb: RtcpFeedback) => fb)
  {
    if fbs != [] {
      var n := |fbs| - 1;
      PipeFeedbackExact(fbs[..n]);
      SelectsOne(PipeFeedback(fbs[..n]), fbs, (fb: RtcpFeedback) => SurvivesPipe(fb), (fb: RtcpFeedback) => fb);
    }
  }

  lemma {:induction false} PipeCodecsExact(codecs: seq<Codec>)
    ensures Selects(PipeCodecs(codecs), codecs, (c: Codec) => IsMedia(c), (c: Codec) => PipeCodec(c))
  {
    hide IsRtx, PipeCodec;
    if codecs != [] {
      var n := |codecs| - 1;
      PipeCodecsExact(codecs[..n]);
      SelectsOne(PipeCodecs(codecs[..n]), codecs, (c: Codec) => IsMedia(c), (c: Codec) => PipeCodec(c));
    }
  }

  predicate IsNotSendTime(ext: HeaderExtension) {
    ext.uri != URI_ABS_SEND_TIME
  }

  lemma {:induction false} PipeExtensionsExact(exts: seq<HeaderExtension>)
    ensures Selects(
              PipeExtensions(exts), exts, (e: HeaderExtension) => IsNotSendTime(e), (e: HeaderExtension) => e)
  {
    if exts != [] {
      var n := |exts| - 1;
      PipeExtensionsExact(exts[..n]);
      assert IsNotSendTime(exts[n]) <==> exts[n].uri != URI_ABS_SEND_TIME;
      hide IsNotSendTime;
      SelectsOne(
        PipeExtensions(exts[..n]), exts, (e: HeaderExtension) => IsNotSendTime(e), (e: HeaderExtension) => e);
    }
  }

  /**
   * A pipe consumer gets, in order, exactly the media codecs, each with exactly
   * its nack pli and ccm fir feedback; all extensions but abs-send-time; every
   * encoding without its rtx; and the rtcp.
   */
  lemma PipeMeaning(consumable: RtpParameters)
    ensures var r := Pipe(consumable);
            && r.mid == "" && r.rtcp == consumable.rtcp
            && Selects(r.codecs, consumable.codecs, (c: Codec) => IsMedia(c), (c: Codec) => PipeCodec(c))
            && Selects(
                 r.headerExtensions, consumable.headerExtensions,
                 (e: HeaderExtension) => IsNotSendTime(e), (e: HeaderExtension) => e)
            && |r.encodings| == |consumable.encodings|
            && forall i :: 0 <= i < |r.encodings| ==> r.encodings[i] == consumable.encodings[i].(rtx := None)
  {
    hide IsRtx, PipeCodec, IsNotSendTime;
    PipeCodecsExact(consumable.codecs);
    PipeExtensionsExact(consumable.headerExtensions);
  }

  /** One codec as a pipe consumer gets it. */
  lemma PipeCodecMeaning(codec: Codec)
    ensures PipeCodec(codec) == codec.(rtcpFeedback := PipeCodec(codec).rtcpFeedback)
    ensures Selects(
              PipeCodec(codec).rtcpFeedback, codec.rtcpFeedback,
              (fb: RtcpFeedback) => SurvivesPipe(fb), (fb: RtcpFeedback) => fb)
  {
    PipeFeedbackExact(codec.rtcpFeedback);
  }

  // ---------------------------------------------------------------- the codecs of a pipe consumer

  /** The codecs a pipe consumer sends, one per media codec of the original producer. */
  function PipedMedia(codecs: seq<Codec>, capOf: seq<Codec>): seq<Codec>
    requires |capOf| == |codecs|
  {
    if codecs == [] then []
    else
      var n := |codecs| - 1;
      PipedMedia(codecs[..n], capOf[..n])
      + if IsMedia(codecs[n]) then [PipeCodec(FromCap(capOf[n], codecs[n].parameters))] else []
  }

  lemma {:induction false} PipeCodecsOfConcat(a: seq<Codec>, b: seq<Codec>)
    ensures PipeCodecs(a + b) == PipeCodecs(a) + PipeCodecs(b)
  {
    hide IsRtx;
    if b == [] {
      assert a + b == a;
    } else {
      var n := |b| - 1;
      assert (a + b)[..|a + b| - 1] == a + b[..n];
      PipeCodecsOfConcat(a, b[..n]);
    }
  }

  lemma PipeOfBlock(cap: Codec, parameters: Option<CodecParameters>, caps: seq<Codec>)
    requires RtxHaveParameters(caps) && IsMedia(cap)
    ensures PipeCodecs(BlockFor(cap, parameters, caps)) == [PipeCodec(FromCap(cap, parameters))]
  {
    hide IsRtx;
    var block := BlockFor(cap, parameters, caps);
    assert IsMedia(block[0]);
    var first := [block[0]];
    assert PipeCodecs(first) == [PipeCodec(block[0])] by {
      assert first[..0] == [];
    }
    if |block| == 2 {
      assert block[..1] == first;
      assert !IsMedia(block[1]);
    } else {
      assert block == first;
    }
  }

  /** Piping the consumable codecs drops every RTX and keeps every media codec. */
  lemma {:induction false} PipeOfBlocks(codecs: seq<Codec>, capOf: seq<Codec>, caps: seq<Codec>)
    requires RtxHaveParameters(caps) && |capOf| == |codecs|
    requires forall i :: 0 <= i < |codecs| && IsMedia(codecs[i]) ==> IsMedia(capOf[i])
    ensures PipeCodecs(Blocks(codecs, capOf, caps)) == PipedMedia(codecs, capOf)
  {
    hide IsRtx;
    if codecs != [] {
      var n := |codecs| - 1;
      PipeOfBlocks(codecs[..n], capOf[..n], caps);
      var head := Blocks(codecs[..n], capOf[..n], caps);
      if IsMedia(codecs[n]) {
        PipeOfBlock(capOf[n], codecs[n].parameters, caps);
        PipeCodecsOfConcat(head, BlockFor(capOf[n], codecs[n].parameters, caps));
      } else {
        assert Blocks(codecs, capOf, caps) == head;
      }
    }
  }

  /** One piped codec matches the capability the original matched, and is not rewritten again. */
  lemma PipedCodecIsFixpoint(codec: Codec, caps: seq<Codec>, j: nat)
    requires RouterCodecs(caps) && IsMedia(codec) && FirstMatch(codec, caps, true) == Some(j)
    ensures var piped := PipeCodec(FromCap(caps[j], AdjustedBy(codec, caps).parameters));
            && FirstMatch(piped, caps, true) == Some(j)
            && IsMedia(piped)
            && ValidCodec(piped)
            && AdjustedBy(piped, caps) == piped
            && piped.payloadType == caps[j].preferredPayloadType
            && piped.parameters == AdjustedBy(codec, caps).parameters
  {
    hide Answer;
    assert GoodAt(caps, j);
    var piped := PipeCodec(FromCap(caps[j], AdjustedBy(codec, caps).parameters));
    forall i | 0 <= i < |caps| && IsAudioType(caps[i].mimeType)
      ensures caps[i].channels > 0
    {
      assert GoodAt(caps, i);
    }
    RematchSelectsSame(piped, codec, caps);
  }

  /** What holds of the whole list of piped codecs when every media codec was matched. */
  ghost predicate PipedIsFixpoint(piped: seq<Codec>, caps: seq<Codec>) {
    forall i :: 0 <= i < |piped| ==>
      && IsMedia(piped[i])
      && ValidCodec(piped[i])
      && FirstMatch(piped[i], caps, true).Some?
      && AdjustedBy(piped[i], caps) == piped[i]
      && piped[i].payloadType == CapOf(piped[i], caps).preferredPayloadType
  }

  /** Adding a codec that is itself a fixpoint. */
  lemma FixpointSnoc(before: seq<Codec>, added: Codec, caps: seq<Codec>)
    requires RtxHaveParameters(caps) && PipedIsFixpoint(before, caps) && PipedIsFixpoint([added], caps)
    ensures PipedIsFixpoint(before + [added], caps)
    ensures Blocks(before + [added], CapsFor(before + [added], caps), caps) ==
            Blocks(before, CapsFor(before, caps), caps) + BlockFor(CapOf(added, caps), added.parameters, caps)
  {
    hide Answer, IsRtx, RtxHaveParameters, FirstMatch, ValidCodec, AdjustedBy, BlockFor, CapOf;
    var piped, n := before + [added], |before|;
    forall i | 0 <= i < |piped|
      ensures PipedIsFixpoint([piped[i]], caps)
    {
      if i < n {
        assert piped[i] == before[i];
      }
    }
    assert forall i :: 0 <= i < |piped| ==> [piped[i]][0] == piped[i];
    assert piped[..n] == before && piped[n] == added;
    assert CapsFor(piped, caps)[..n] == CapsFor(before, caps);
    assert [added][0] == added;
  }

  lemma {:induction false} PipedMediaIsFixpoint(codecs: seq<Codec>, caps: seq<Codec>)
    requires RouterCodecs(caps) && AllMatched(codecs, caps) && RtxHaveParameters(caps)
    ensures var codecs', capOf := AdjustedCodecs(codecs, caps), CapsFor(codecs, caps);
            var piped := PipedMedia(codecs', capOf);
            && PipedIsFixpoint(piped, caps)
            && Blocks(piped, CapsFor(piped, caps), caps) == Blocks(codecs', capOf, caps)
  {
    hide Answer, IsRtx, ToLower, RouterCodecs, RtxHaveParameters, FirstMatch, ValidCodec, AdjustedBy, BlockFor,
      PipeCodec, FromCap;
    if codecs != [] {
      var n := |codecs| - 1;
      var codec := codecs[n];
      PipedMediaIsFixpoint(codecs[..n], caps);
      var codecs', capOf := AdjustedCodecs(codecs, caps), CapsFor(codecs, caps);
      assert codecs'[..n] == AdjustedCodecs(codecs[..n], caps);
      assert capOf[..n] == CapsFor(codecs[..n], caps);
      AdjustedKeepsFormat(codecs, caps, n);
      var before := PipedMedia(codecs'[..n], capOf[..n]);
      if IsMedia(codec) {
        var j := FirstMatch(codec, caps, true).value;
        PipedCodecIsFixpoint(codec, caps, j);
        var added := PipeCodec(FromCap(caps[j], codecs'[n].parameters));
        assert CapOf(added, caps) == caps[j] && added.parameters == codecs'[n].parameters;
        assert PipedMedia(codecs', capOf) == before + [added];
        FixpointSnoc(before, added, caps);
      } else {
        assert PipedMedia(codecs', capOf) == before;
      }
    }
  }

  // ---------------------------------------------------------------- header extensions

  /** The router gives one id to each uri. */
  ghost predicate UriDeterminesId(exts: seq<HeaderExtension>) {
    forall i, j :: 0 <= i < |exts| && 0 <= j < |exts| && exts[i].uri == exts[j].uri ==>
      exts[i].preferredId == exts[j].preferredId
  }

  /** `ext` carries the uri and id of a router extension, and no kind. */
  ghost predicate TakenFrom(ext: HeaderExtension, capExts: seq<HeaderExtension>) {
    ext.kind == "" && exists i :: 0 <= i < |capExts| && capExts[i].uri == ext.uri && capExts[i].preferredId == ext.id
  }

  lemma {:induction false} ConsumableExtensionsTaken(kind: string, capExts: seq<HeaderExtension>, n: nat)
    requires n <= |capExts|
    ensures forall e :: e in ConsumableExtensions(kind, capExts[..n]) ==> TakenFrom(e, capExts)
  {
    if n > 0 {
      ConsumableExtensionsTaken(kind, capExts, n - 1);
      assert capExts[..n][..n - 1] == capExts[..n - 1];
      assert capExts[..n][n - 1] == capExts[n - 1];
      var added := HeaderExtension(capExts[n - 1].preferredId, "", capExts[n - 1].uri, None, 0, false);
      assert TakenFrom(added, capExts);
      forall e | e in ConsumableExtensions(kind, capExts[..n])
        ensures TakenFrom(e, capExts)
      {
        assert e in ConsumableExtensions(kind, capExts[..n - 1]) || e == added;
      }
    }
  }

  lemma {:induction false} PipeExtensionsKeep(exts: seq<HeaderExtension>)
    ensures forall e :: e in PipeExtensions(exts) ==> e in exts
  {
    if exts != [] {
      PipeExtensionsKeep(exts[..|exts| - 1]);
    }
  }

  /** Every extension of a pipe consumer is mapped to its own id. */
  lemma PipedExtensionsMapToSelf(kind: string, capExts: seq<HeaderExtension>)
    requires UriDeterminesId(capExts)
    ensures var exts := PipeExtensions(ConsumableExtensions(kind, capExts));
            && ExtensionsSupported(exts, capExts)
            && forall i :: 0 <= i < |exts| ==>
                 MapExtensions(exts, capExts)[i] == MappingHeaderExtension(exts[i].id, exts[i].id)
  {
    var exts := PipeExtensions(ConsumableExtensions(kind, capExts));
    ConsumableExtensionsTaken(kind, capExts, |capExts|);
    assert capExts[..|capExts|] == capExts;
    PipeExtensionsKeep(ConsumableExtensions(kind, capExts));
    forall i | 0 <= i < |exts|
      ensures FirstExtension(exts[i], capExts).Some?
      ensures capExts[FirstExtension(exts[i], capExts).value].preferredId == exts[i].id
    {
      assert exts[i] in exts && TakenFrom(exts[i], capExts);
      var k :| 0 <= k < |capExts| && capExts[k].uri == exts[i].uri && capExts[k].preferredId == exts[i].id;
      assert MatchHeaderExtensions(exts[i], capExts[k]);
    }
  }

  // ---------------------------------------------------------------- pipe transparency

  /** What a producer offers after it has been produced into a router. */
  function Offered(kind: string, params: RtpParameters, caps: RtpCapabilities, m: RtpMapping): RtpParameters
    requires RtxHaveParameters(caps.codecs) && |params.encodings| <= |m.encodings|
    requires Consumables(kind, params.(codecs := AdjustedCodecs(params.codecs, caps.codecs)), caps, m).Ok?
  {
    Consumables(kind, params.(codecs := AdjustedCodecs(params.codecs, caps.codecs)), caps, m).value
  }

  /** The hypotheses about the producer and its first router. */
  ghost predicate Produced(params: RtpParameters, caps: RtpCapabilities, ssrcs: nat -> int, m: RtpMapping) {
    && RouterCaps(caps)
    && DistinctProducer(params.codecs)
    && MappingError(params, caps).None?
    && IsMapping(params, caps, ssrcs, m)
  }

  lemma ProducedIsOffered(kind: string, params: RtpParameters, caps: RtpCapabilities, ssrcs: nat -> int, m: RtpMapping)
    requires Produced(params, caps, ssrcs, m)
    ensures |m.encodings| == |params.encodings|
    ensures Consumables(kind, params.(codecs := AdjustedCodecs(params.codecs, caps.codecs)), caps, m).Ok?
    ensures Offered(kind, params, caps, m).codecs ==
            Blocks(AdjustedCodecs(params.codecs, caps.codecs), CapsFor(params.codecs, caps.codecs), caps.codecs)
  {
    ConsumableCodecsAreBlocks(kind, params, caps, ssrcs, m);
  }

  /** The piped codecs are the piped media of the producer. */
  lemma PipedCodecs(kind: string, params: RtpParameters, caps: RtpCapabilities, ssrcs: nat -> int, m: RtpMapping)
    requires Produced(params, caps, ssrcs, m)
    ensures |m.encodings| == |params.encodings|
    ensures Consumables(kind, params.(codecs := AdjustedCodecs(params.codecs, caps.codecs)), caps, m).Ok?
    ensures Pipe(Offered(kind, params, caps, m)).codecs ==
            PipedMedia(AdjustedCodecs(params.codecs, caps.codecs), CapsFor(params.codecs, caps.codecs))
  {
    ProducedIsOffered(kind, params, caps, ssrcs, m);
    var codecs, cs := params.codecs, caps.codecs;
    var codecs', capOf := AdjustedCodecs(codecs, cs), CapsFor(codecs, cs);
    CapsForMedia(codecs, cs);
    PipeOfBlocks(codecs', capOf, cs);
  }

  /** A list of codecs that are all fixpoints is mapped to itself. */
  lemma FixpointMapsToSelf(params: RtpParameters, caps: RtpCapabilities, ssrcs: nat -> int, m: RtpMapping)
    requires RtxHaveParameters(caps.codecs) && PipedIsFixpoint(params.codecs, caps.codecs)
    requires MappingError(params, caps).None? && IsMapping(params, caps, ssrcs, m)
    ensures forall i :: 0 <= i < |m.codecs| ==> m.codecs[i].payloadType == m.codecs[i].mappedPayloadType
  {
    hide Answer, IsRtx, FirstMatch, RtxHaveParameters, AdjustedBy, RtxPass;
    var codecs := params.codecs;
    var all := Entries(codecs, RtxPass(codecs, caps.codecs, |codecs|).value);
    forall i | 0 <= i < |m.codecs|
      ensures m.codecs[i].payloadType == m.codecs[i].mappedPayloadType
    {
      assert m.codecs[i] in multiset(m.codecs);
      assert m.codecs[i] in multiset(all);
      var p :| 0 <= p < |all| && all[p] == m.codecs[i];
      RtxPassDomain(codecs, caps.codecs, |codecs|, p);
    }
  }

  lemma FixpointIsAccepted(params: RtpParameters, caps: RtpCapabilities)
    requires RtxHaveParameters(caps.codecs) && PipedIsFixpoint(params.codecs, caps.codecs)
    requires ExtensionsSupported(params.headerExtensions, caps.headerExtensions)
    ensures MappingError(params, caps).None?
    ensures AdjustedCodecs(params.codecs, caps.codecs) == params.codecs
  {
    hide Answer, IsRtx, FirstMatch, RtxHaveParameters, AdjustedBy;
    MediaOnlyAcceptedIff(params, caps);
  }

  /** The consumable codecs of a list of fixpoints are its own blocks. */
  lemma FixpointOffers(kind: string, params: RtpParameters, caps: RtpCapabilities, ssrcs: nat -> int, m: RtpMapping)
    requires RouterCaps(caps) && PipedIsFixpoint(params.codecs, caps.codecs)
    requires MappingError(params, caps).None? && IsMapping(params, caps, ssrcs, m)
    ensures |m.encodings| == |params.encodings|
    ensures Consumables(kind, params, caps, m).Ok?
    ensures Consumables(kind, params, caps, m).value.codecs ==
            Blocks(params.codecs, CapsFor(params.codecs, caps.codecs), caps.codecs)
  {
    hide Answer, IsRtx, FirstMatch, AdjustedBy, SlotsIncrease, CapOf;
    MappingMapsTo(params, caps, ssrcs, m);
    FixpointMapsToSelf(params, caps, ssrcs, m);
    forall i | 0 <= i < |params.codecs|
      ensures var cap := CapsFor(params.codecs, caps.codecs)[i]; cap in caps.codecs || cap == NO_CODEC
    {
      CapsForInCaps(params.codecs, caps.codecs, i);
    }
    PositivePayloadTypes(caps.codecs);
    ConsumableIsBlocks(params.codecs, CapsFor(params.codecs, caps.codecs), caps.codecs, m.codecs);
  }

  /**
   * Pipe transparency. A producer whose codecs all match is piped into a second
   * router with the same capabilities: the pipe consumer's parameters are
   * accepted unchanged, every payload type and extension id is mapped to
   * itself, and what the pipe producer offers equals what the original offers,
   * but for the fresh ssrcs.
   */
  lemma PipeTransparency(
      kind: string, params: RtpParameters, caps: RtpCapabilities,
      ssrcs: nat -> int, m: RtpMapping, ssrcs': nat -> int, m': RtpMapping)
    requires Produced(params, caps, ssrcs, m)
    requires AllMatched(params.codecs, caps.codecs) && UriDeterminesId(caps.headerExtensions)
    ensures |m.encodings| == |params.encodings|
    ensures Consumables(kind, params.(codecs := AdjustedCodecs(params.codecs, caps.codecs)), caps, m).Ok?
    ensures var offered := Offered(kind, params, caps, m);
            var piped := Pipe(offered);
            && MappingError(piped, caps).None?
            && AdjustedCodecs(piped.codecs, caps.codecs) == piped.codecs
            && (IsMapping(piped, caps, ssrcs', m') ==>
                  && (forall i :: 0 <= i < |m'.codecs| ==> m'.codecs[i].payloadType == m'.codecs[i].mappedPayloadType)
                  && (forall i :: 0 <= i < |m'.headerExtensions| ==>
                        m'.headerExtensions[i].id == m'.headerExtensions[i].mappedId)
                  && |m'.encodings| == |piped.encodings|
                  && var again := Consumables(kind, piped, caps, m');
                     && again.Ok?
                     && again.value.codecs == offered.codecs
                     && again.value.headerExtensions == offered.headerExtensions
                     && again.value.rtcp == offered.rtcp
                     && |again.value.encodings| == |offered.encodings|
                     && forall i :: 0 <= i < |offered.encodings| ==>
                          again.value.encodings[i] == offered.encodings[i].(ssrc := ssrcs'(i)))
  {
    hide Answer, IsRtx, FirstMatch, RouterCodecs, SlotsIncrease, RtxPass, AdjustedBy, ValidCodec;
    PipedCodecs(kind, params, caps, ssrcs, m);
    ProducedIsOffered(kind, params, caps, ssrcs, m);
    var offered := Offered(kind, params, caps, m);
    var piped := Pipe(offered);
    PipedMediaIsFixpoint(params.codecs, caps.codecs);
    PipedExtensionsMapToSelf(kind, caps.headerExtensions);
    FixpointIsAccepted(piped, caps);
    if IsMapping(piped, caps, ssrcs', m') {
      FixpointMapsToSelf(piped, caps, ssrcs', m');
      FixpointOffers(kind, piped, caps, ssrcs', m');
    }
  }

  lemma {:induction false} PipedMediaContains(codecs: seq<Codec>, capOf: seq<Codec>, i: nat)
    requires |capOf| == |codecs| && i < |codecs| && IsMedia(codecs[i])
    ensures PipeCodec(FromCap(capOf[i], codecs[i].parameters)) in PipedMedia(codecs, capOf)
  {
    hide IsRtx;
    var n := |codecs| - 1;
    if i < n {
      PipedMediaContains(codecs[..n], capOf[..n], i);
    }
  }

  /** A codec the first router did not support becomes a codec without a mime type, which the second rejects. */
  lemma PipedUnsupportedIsInvalid(codecs: seq<Codec>, caps: seq<Codec>, i: nat)
    requires i < |codecs| && Unsupported(codecs[i], caps)
    ensures !AllValid(PipedMedia(AdjustedCodecs(codecs, caps), CapsFor(codecs, caps)))
  {
    hide Answer, FirstMatch;
    var codecs', capOf := AdjustedCodecs(codecs, caps), CapsFor(codecs, caps);
    var piped := PipedMedia(codecs', capOf);
    AdjustedKeepsFormat(codecs, caps, i);
    PipedMediaContains(codecs', capOf, i);
    var bad := PipeCodec(FromCap(capOf[i], codecs'[i].parameters));
    var k :| 0 <= k < |piped| && piped[k] == bad;
    assert !ValidCodec(piped[k]);
  }

  /** The second router accepts the pipe consumer's parameters exactly when the first supported every codec. */
  lemma PipeAcceptedIff(kind: string, params: RtpParameters, caps: RtpCapabilities, ssrcs: nat -> int, m: RtpMapping)
    requires Produced(params, caps, ssrcs, m) && UriDeterminesId(caps.headerExtensions)
    ensures |m.encodings| == |params.encodings|
    ensures Consumables(kind, params.(codecs := AdjustedCodecs(params.codecs, caps.codecs)), caps, m).Ok?
    ensures MappingError(Pipe(Offered(kind, params, caps, m)), caps).None? <==> AllMatched(params.codecs, caps.codecs)
  {
    hide Answer, IsRtx, FirstMatch, RouterCodecs, SlotsIncrease, RtxPass, AdjustedBy, ValidCodec;
    PipedCodecs(kind, params, caps, ssrcs, m);
    if AllMatched(params.codecs, caps.codecs) {
      PipeTransparency(kind, params, caps, ssrcs, m, ssrcs, m);
    } else {
      var i :| 0 <= i < |params.codecs| && IsMedia(params.codecs[i])
               && FirstMatch(params.codecs[i], caps.codecs, true).None?;
      PipedUnsupportedIsInvalid(params.codecs, caps.codecs, i);
    }
  }

  /** Generated capabilities meet the hypotheses exactly when no static payload type is asked for twice. */
  lemma GeneratedRouterCaps(medias: seq<Codec>)
    requires Generate(medias).Ok?
    ensures forall i :: 0 <= i < |medias| ==> Supported(SUPPORTED_CODECS, medias[i])
    ensures RouterCaps(Generate(medias).value) <==> NoStaticTwice(SUPPORTED_CODECS, medias)
    ensures UriDeterminesId(Generate(medias).value.headerExtensions)
  {
    hide Supported, NoStaticTwice, RouterCodecs, SlotsIncrease, Allocate, IsRtx;
    GeneratedCodecs(medias);
    RouterRtxHaveParameters(Generate(medias).value.codecs);
    DistinctIffNoStaticTwice(medias);
    SupportedUris();
  }

  lemma SupportedUris()
    ensures UriDeterminesId(SUPPORTED_HEADER_EXTENSIONS)
  {
    forall i, j | 0 <= i < |SUPPORTED_HEADER_EXTENSIONS| && 0 <= j < |SUPPORTED_HEADER_EXTENSIONS|
                  && SUPPORTED_HEADER_EXTENSIONS[i].uri == SUPPORTED_HEADER_EXTENSIONS[j].uri
      ensures SUPPORTED_HEADER_EXTENSIONS[i].preferredId == SUPPORTED_HEADER_EXTENSIONS[j].preferredId
    {
      ExtensionIds(i, j);
    }
  }
}
