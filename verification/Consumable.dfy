/**
 * GetConsumableRtpParameters (mediasoup/ortc.go): the parameters a producer
 * offers to every consumer, in the router's own payload types.
 */
module Consumable {
  import opened H264Profile
  import opened Matching
  import opened ProducerMapping
  import opened RouterCapabilities
  import opened RtpTypes
  import opened Selection
  import opened SupportedCapabilities
  import opened Wrappers

  /** The first mapping entry for a payload type; zero when there is none. */
  function MappedPayloadType(entries: seq<MappingCodec>, payloadType: int): int {
    if entries == [] then 0
    else if entries[0].payloadType == payloadType then entries[0].mappedPayloadType
    else MappedPayloadType(entries[1..], payloadType)
  }

  /** The first capability with the given preferred payload type; the zero codec when there is none. */
  function CapWithPayloadType(caps: seq<Codec>, payloadType: int): Codec {
    if caps == [] then NO_CODEC
    else if caps[0].preferredPayloadType == payloadType then caps[0]
    else CapWithPayloadType(caps[1..], payloadType)
  }

  /** A consumable codec: the format of the capability, the given parameters. */
  function FromCap(cap: Codec, parameters: Option<CodecParameters>): Codec {
    Codec("", cap.mimeType, cap.clockRate, cap.channels, cap.preferredPayloadType, 0, parameters, cap.rtcpFeedback)
  }

  /** What one media codec mapped to `cap` contributes: itself, and the RTX of its payload type if any. */
  function BlockFor(cap: Codec, parameters: Option<CodecParameters>, caps: seq<Codec>): seq<Codec>
    requires RtxHaveParameters(caps)
  {
    var rtx := FirstRtxFor(caps, cap.preferredPayloadType);
    if rtx.None? then [FromCap(cap, parameters)]
    else [FromCap(cap, parameters), FromCap(caps[rtx.value], caps[rtx.value].parameters)]
  }

  function ConsumableCodecs(codecs: seq<Codec>, caps: seq<Codec>, entries: seq<MappingCodec>): seq<Codec>
    requires RtxHaveParameters(caps)
  {
    if codecs == [] then []
    else
      var last := codecs[|codecs| - 1];
      ConsumableCodecs(codecs[..|codecs| - 1], caps, entries)
      + if IsMedia(last) then
          BlockFor(CapWithPayloadType(caps, MappedPayloadType(entries, last.payloadType)), last.parameters, caps)
        else
          []
  }

  /** The extensions kept out of the consumable parameters. */
  const INTERNAL_URIS: set<string> := {URI_MID, URI_STREAM_ID, URI_REPAIRED_STREAM_ID}

  function ConsumableExtensions(kind: string, capExts: seq<HeaderExtension>): seq<HeaderExtension> {
    if capExts == [] then []
    else
      var last := capExts[|capExts| - 1];
      ConsumableExtensions(kind, capExts[..|capExts| - 1])
      + if last.kind != kind || last.uri in INTERNAL_URIS then []
        else [HeaderExtension(last.preferredId, "", last.uri, None, 0, false)]
  }

  function ConsumableEncodings(encodings: seq<Encoding>, mapped: seq<MappingEncoding>): seq<Encoding>
    requires |encodings| <= |mapped|
  {
    seq(|encodings|, i requires 0 <= i < |encodings| =>
          encodings[i].(rid := "", rtx := None, codecPayloadType := 0, ssrc := mapped[i].mappedSsrc))
  }

  function Consumables(kind: string, params: RtpParameters, caps: RtpCapabilities, m: RtpMapping): Result<RtpParameters>
    requires RtxHaveParameters(caps.codecs) && |params.encodings| <= |m.encodings|
  {
    if !AllValid(params.codecs) then Err(TypeError)
    else Ok(RtpParameters(
              "",
              ConsumableCodecs(params.codecs, caps.codecs, m.codecs),
              ConsumableExtensions(kind, caps.headerExtensions),
              ConsumableEncodings(params.encodings, m.encodings),
              Rtcp(params.rtcp.cname, true, Some(true))))
  }

  // ---------------------------------------------------------------- the loops of the source

  method LookupMapped(entries: seq<MappingCodec>, payloadType: int) returns (mapped: int)
    ensures mapped == MappedPayloadType(entries, payloadType)
  {
    for i := 0 to |entries|
      invariant MappedPayloadType(entries, payloadType) == MappedPayloadType(entries[i..], payloadType)
    {
      if entries[i].payloadType == payloadType {
        return entries[i].mappedPayloadType;
      }
    }
    return 0;
  }

  method LookupCap(caps: seq<Codec>, payloadType: int) returns (cap: Codec)
    ensures cap == CapWithPayloadType(caps, payloadType)
  {
    for i := 0 to |caps|
      invariant CapWithPayloadType(caps, payloadType) == CapWithPayloadType(caps[i..], payloadType)
    {
      if caps[i].preferredPayloadType == payloadType {
        return caps[i];
      }
    }
    return NO_CODEC;
  }

  method CollectCodecs(codecs: seq<Codec>, caps: seq<Codec>, entries: seq<MappingCodec>)
    returns (r: Result<seq<Codec>>)
    requires RtxHaveParameters(caps)
    ensures r == if AllValid(codecs) then Ok(ConsumableCodecs(codecs, caps, entries)) else Err(TypeError)
  {
    hide ValidCodec, IsRtx;
    var consumable: seq<Codec> := [];
    for i := 0 to |codecs|
      invariant forall k :: 0 <= k < i ==> ValidCodec(codecs[k])
      invariant consumable == ConsumableCodecs(codecs[..i], caps, entries)
    {
      assert codecs[..i + 1][..i] == codecs[..i];
      var codec := codecs[i];
      if !ValidCodec(codec) {
        return Err(TypeError);
      }
      if !IsMedia(codec) {
        continue;
      }
      var mapped := LookupMapped(entries, codec.payloadType);
      var cap := LookupCap(caps, mapped);
      consumable := consumable + [FromCap(cap, codec.parameters)];
      var rtx := FindRtx(caps, cap.preferredPayloadType);
      if rtx.Some? {
        consumable := consumable + [FromCap(caps[rtx.value], caps[rtx.value].parameters)];
      }
    }
    assert codecs[..|codecs|] == codecs;
    r := Ok(consumable);
  }

  method CollectExtensions(kind: string, capExts: seq<HeaderExtension>) returns (exts: seq<HeaderExtension>)
    ensures exts == ConsumableExtensions(kind, capExts)
  {
    exts := [];
    for i := 0 to |capExts|
      invariant exts == ConsumableExtensions(kind, capExts[..i])
    {
      assert capExts[..i + 1][..i] == capExts[..i];
      if capExts[i].kind == kind && capExts[i].uri !in INTERNAL_URIS {
        exts := exts + [HeaderExtension(capExts[i].preferredId, "", capExts[i].uri, None, 0, false)];
      }
    }
    assert capExts[..|capExts|] == capExts;
  }

  method CollectEncodings(encodings: seq<Encoding>, mapped: seq<MappingEncoding>) returns (r: seq<Encoding>)
    requires |encodings| <= |mapped|
    ensures r == ConsumableEncodings(encodings, mapped)
  {
    r := [];
    for i := 0 to |encodings|
      invariant |r| == i
      invariant forall k :: 0 <= k < i ==> r[k] == ConsumableEncodings(encodings, mapped)[k]
    {
      r := r + [encodings[i].(rid := "", rtx := None, codecPayloadType := 0, ssrc := mapped[i].mappedSsrc)];
    }
  }

  /** GetConsumableRtpParameters. It indexes the encoding mapping unchecked. */
  method GetConsumableRtpParameters(kind: string, params: RtpParameters, caps: RtpCapabilities, m: RtpMapping)
    returns (r: Result<RtpParameters>)
    requires RtxHaveParameters(caps.codecs) && |params.encodings| <= |m.encodings|
    ensures r == Consumables(kind, params, caps, m)
  {
    var codecs := CollectCodecs(params.codecs, caps.codecs, m.codecs);
    if codecs.Err? {
      return Err(codecs.error);
    }
    var exts := CollectExtensions(kind, caps.headerExtensions);
    var encodings := CollectEncodings(params.encodings, m.encodings);
    r := Ok(RtpParameters("", codecs.value, exts, encodings, Rtcp(params.rtcp.cname, true, Some(true))));
  }

  /** The router's extensions of one kind, but for the three sdes ones. */
  predicate IsOffered(e: HeaderExtension, kind: string) {
    e.kind == kind && e.uri != URI_MID && e.uri != URI_STREAM_ID && e.uri != URI_REPAIRED_STREAM_ID
  }

  /** An extension as it is offered: its uri, and its preferred id as the id. */
  function AsOffered(e: HeaderExtension): HeaderExtension {
    HeaderExtension(e.preferredId, "", e.uri, None, 0, false)
  }

  lemma OfferedIff(e: HeaderExtension, kind: string)
    ensures IsOffered(e, kind) <==> !(e.kind != kind || e.uri in INTERNAL_URIS)
  {
  }

  /** The offered extensions are, in order, exactly the router's extensions to offer. */
  lemma {:induction false} ConsumableExtensionsExact(kind: string, capExts: seq<HeaderExtension>)
    ensures Selects(
              ConsumableExtensions(kind, capExts), capExts,
              (e: HeaderExtension) => IsOffered(e, kind), (e: HeaderExtension) => AsOffered(e))
  {
    hide IsOffered;
    if capExts != [] {
      var n := |capExts| - 1;
      ConsumableExtensionsExact(kind, capExts[..n]);
      OfferedIff(capExts[n], kind);
      SelectsOne(
        ConsumableExtensions(kind, capExts[..n]), capExts,
        (e: HeaderExtension) => IsOffered(e, kind), (e: HeaderExtension) => AsOffered(e));
    }
  }

  /**
   * What is offered besides the codecs: the extensions; every encoding with its
   * mapped ssrc and without rid, rtx and codec; the producer's cname with
   * reduced-size rtcp and multiplexing. Only an invalid codec fails.
   */
  lemma ConsumableMeaning(kind: string, params: RtpParameters, caps: RtpCapabilities, m: RtpMapping)
    requires RtxHaveParameters(caps.codecs) && |params.encodings| <= |m.encodings|
    ensures var r := Consumables(kind, params, caps, m);
            && (r.Ok? <==> forall i :: 0 <= i < |params.codecs| ==>
                             params.codecs[i].mimeType != "" && params.codecs[i].clockRate != 0)
            && (r.Err? ==> r.error == TypeError)
            && (r.Ok? ==>
                  && r.value.mid == ""
                  && Selects(
                       r.value.headerExtensions, caps.headerExtensions,
                       (e: HeaderExtension) => IsOffered(e, kind), (e: HeaderExtension) => AsOffered(e))
                  && |r.value.encodings| == |params.encodings|
                  && (forall i :: 0 <= i < |params.encodings| ==>
                        var e, e' := params.encodings[i], r.value.encodings[i];
                        && e'.rid == "" && e'.ssrc == m.encodings[i].mappedSsrc && e'.rtx == None
                        && e'.maxBitrate == e.maxBitrate && e'.codecPayloadType == 0 && e'.dtx == e.dtx)
                  && r.value.rtcp.cname == params.rtcp.cname
                  && r.value.rtcp.reducedSize && r.value.rtcp.mux == Some(true))
  {
    ConsumableExtensionsExact(kind, caps.headerExtensions);
  }

  /** What generated capabilities offer: for audio the level and send time, for video offset, send time, orientation. */
  lemma OfferedByKind(kind: string)
    requires kind == "audio" || kind == "video"
    ensures var exts := ConsumableExtensions(kind, SUPPORTED_HEADER_EXTENSIONS);
            && |exts| == (if kind == "audio" then 2 else 3)
            && exts[0].id == (if kind == "audio" then 1 else 2)
            && exts[1].id == 3
            && (kind == "video" ==> exts[2].id == 4)
  {
    hide IsOffered, ConsumableExtensions;
    OfferedRows(kind);
    OfferedOfNine(kind, SUPPORTED_HEADER_EXTENSIONS);
  }

  lemma OfferedOfNine(kind: string, all: seq<HeaderExtension>)
    requires |all| == 9
    requires forall n :: 0 <= n < 9 ==>
               (IsOffered(all[n], kind) <==> n in (if kind == "audio" then {0, 2} else {1, 3, 4}))
    ensures ConsumableExtensions(kind, all) ==
            if kind == "audio" then [AsOffered(all[0]), AsOffered(all[2])]
            else [AsOffered(all[1]), AsOffered(all[3]), AsOffered(all[4])]
  {
    hide IsOffered, ConsumableExtensions, AsOffered;
    OfferNone(kind);
    OfferOne(kind, all, 0);
    OfferOne(kind, all, 1);
    OfferOne(kind, all, 2);
    OfferOne(kind, all, 3);
    OfferOne(kind, all, 4);
    OfferOne(kind, all, 5);
    OfferOne(kind, all, 6);
    OfferOne(kind, all, 7);
    OfferOne(kind, all, 8);
    assert all[..0] == [] && all[..9] == all;
  }

  lemma OfferOne(kind: string, capExts: seq<HeaderExtension>, n: nat)
    requires n < |capExts|
    ensures var before, e := ConsumableExtensions(kind, capExts[..n]), capExts[n];
            ConsumableExtensions(kind, capExts[..n + 1]) == before + if IsOffered(e, kind) then [AsOffered(e)] else []
  {
    hide IsOffered;
    assert capExts[..n + 1][..n] == capExts[..n] && capExts[..n + 1][n] == capExts[n];
    OfferedIff(capExts[n], kind);
  }

  lemma OfferNone(kind: string)
    ensures ConsumableExtensions(kind, []) == []
  {
  }

  lemma OfferedRows(kind: string)
    requires kind == "audio" || kind == "video"
    ensures forall n :: 0 <= n < 9 ==>
              var offered := if kind == "audio" then {0, 2} else {1, 3, 4};
              IsOffered(SUPPORTED_HEADER_EXTENSIONS[n], kind) <==> n in offered
  {
    assert |URI_AUDIO_LEVEL| == 43 && |URI_TOFFSET| == 34 && |URI_ABS_SEND_TIME| == 58 && |URI_ORIENTATION| == 26;
    assert |URI_MID| == 35 && |URI_STREAM_ID| == 45 && |URI_REPAIRED_STREAM_ID| == 54;
  }

  /** The mapping of the same producer always has an entry for every encoding. */
  lemma EncodingsInRange(params: RtpParameters, caps: RtpCapabilities, ssrcs: nat -> int, m: RtpMapping)
    requires RtxHaveParameters(caps.codecs) && MappingError(params, caps).None?
    requires IsMapping(params, caps, ssrcs, m)
    ensures |m.encodings| == |params.encodings|
  {
  }

  // ---------------------------------------------------------------- correctness

  /** A payload type has one mapped value, whatever the order of the entries. */
  ghost predicate Functional(entries: seq<MappingCodec>) {
    forall i, j :: 0 <= i < |entries| && 0 <= j < |entries| && entries[i].payloadType == entries[j].payloadType ==>
      entries[i].mappedPayloadType == entries[j].mappedPayloadType
  }

  lemma {:induction false} MappedPayloadTypeOf(entries: seq<MappingCodec>, e: MappingCodec)
    requires Functional(entries) && e in entries
    ensures MappedPayloadType(entries, e.payloadType) == e.mappedPayloadType
  {
    if entries[0].payloadType == e.payloadType {
      var i :| 0 <= i < |entries| && entries[i] == e;
    } else {
      MappedPayloadTypeOf(entries[1..], e);
    }
  }

  lemma {:induction false} CapWithPayloadTypeOf(caps: seq<Codec>, j: nat)
    requires DistinctPayloadTypes(caps) && j < |caps|
    ensures CapWithPayloadType(caps, caps[j].preferredPayloadType) == caps[j]
  {
    if j > 0 {
      assert caps[0].preferredPayloadType != caps[j].preferredPayloadType;
      CapWithPayloadTypeOf(caps[1..], j - 1);
    }
  }

  /** The entries of the mapping say, for every media codec, the payload type of its capability. */
  ghost predicate MapsTo(codecs: seq<Codec>, capOf: seq<Codec>, entries: seq<MappingCodec>)
    requires |capOf| == |codecs|
  {
    forall i :: 0 <= i < |codecs| && IsMedia(codecs[i]) ==>
      MappingCodec(codecs[i].payloadType, capOf[i].preferredPayloadType) in entries
  }

  /** The consumable codecs that `capOf` calls for, without going through payload types. */
  function Blocks(codecs: seq<Codec>, capOf: seq<Codec>, caps: seq<Codec>): seq<Codec>
    requires RtxHaveParameters(caps) && |capOf| == |codecs|
  {
    if codecs == [] then []
    else
      var n := |codecs| - 1;
      Blocks(codecs[..n], capOf[..n], caps)
      + if IsMedia(codecs[n]) then BlockFor(capOf[n], codecs[n].parameters, caps) else []
  }

  lemma {:induction false} NoCapWithZero(caps: seq<Codec>)
    requires forall i :: 0 <= i < |caps| ==> caps[i].preferredPayloadType > 0
    ensures CapWithPayloadType(caps, 0) == NO_CODEC
  {
    if caps != [] {
      NoCapWithZero(caps[1..]);
    }
  }

  /** Looking capabilities up through payload types finds the ones that were matched. */
  lemma {:induction false} ConsumableIsBlocks(
      codecs: seq<Codec>, capOf: seq<Codec>, caps: seq<Codec>, entries: seq<MappingCodec>)
    requires RtxHaveParameters(caps) && DistinctPayloadTypes(caps) && Functional(entries)
    requires forall i :: 0 <= i < |caps| ==> caps[i].preferredPayloadType > 0
    requires |capOf| == |codecs| && MapsTo(codecs, capOf, entries)
    requires forall i :: 0 <= i < |codecs| && IsMedia(codecs[i]) ==> capOf[i] in caps || capOf[i] == NO_CODEC
    ensures ConsumableCodecs(codecs, caps, entries) == Blocks(codecs, capOf, caps)
  {
    hide IsRtx;
    if codecs != [] {
      var n := |codecs| - 1;
      ConsumableIsBlocks(codecs[..n], capOf[..n], caps, entries);
      if IsMedia(codecs[n]) {
        MappedPayloadTypeOf(entries, MappingCodec(codecs[n].payloadType, capOf[n].preferredPayloadType));
        if capOf[n] in caps {
          var j :| 0 <= j < |caps| && caps[j] == capOf[n];
          CapWithPayloadTypeOf(caps, j);
        } else {
          NoCapWithZero(caps);
        }
      }
    }
  }

  ghost predicate DistinctProducer(codecs: seq<Codec>) {
    forall i, j :: 0 <= i < j < |codecs| ==> codecs[i].payloadType != codecs[j].payloadType
  }

  /** The capability of every codec position, the zero codec where a media codec has none. */
  function CapsFor(codecs: seq<Codec>, caps: seq<Codec>): (r: seq<Codec>)
    ensures |r| == |codecs|
  {
    seq(|codecs|, i requires 0 <= i < |codecs| => CapOf(codecs[i], caps))
  }

  /** Any reading order of the mapping gives the entry of every media codec. */
  lemma MappingMapsTo(params: RtpParameters, caps: RtpCapabilities, ssrcs: nat -> int, m: RtpMapping)
    requires RtxHaveParameters(caps.codecs) && MappingError(params, caps).None? && IsMapping(params, caps, ssrcs, m)
    ensures MapsTo(params.codecs, CapsFor(params.codecs, caps.codecs), m.codecs)
  {
    hide Answer, IsRtx, FirstMatch, RtxPass, IsMapping, RtxHaveParameters;
    forall i | 0 <= i < |params.codecs| && IsMedia(params.codecs[i])
      ensures var cap := CapsFor(params.codecs, caps.codecs)[i];
              MappingCodec(params.codecs[i].payloadType, cap.preferredPayloadType) in m.codecs
    {
      EntryOfCodec(params, caps, ssrcs, m, i);
      RtxPassDomain(params.codecs, caps.codecs, |params.codecs|, i);
    }
  }

  lemma MappingIsFunctional(params: RtpParameters, caps: RtpCapabilities, ssrcs: nat -> int, m: RtpMapping)
    requires RtxHaveParameters(caps.codecs) && MappingError(params, caps).None? && IsMapping(params, caps, ssrcs, m)
    requires DistinctProducer(params.codecs)
    ensures Functional(m.codecs)
  {
    hide Answer, IsRtx, RtxPass, RtxHaveParameters;
    var table := RtxPass(params.codecs, caps.codecs, |params.codecs|).value;
    var all := Entries(params.codecs, table);
    forall i, j | 0 <= i < |m.codecs| && 0 <= j < |m.codecs| && m.codecs[i].payloadType == m.codecs[j].payloadType
      ensures m.codecs[i].mappedPayloadType == m.codecs[j].mappedPayloadType
    {
      assert m.codecs[i] in multiset(m.codecs) && m.codecs[j] in multiset(m.codecs);
      assert m.codecs[i] in multiset(all) && m.codecs[j] in multiset(all);
      var p :| 0 <= p < |all| && all[p] == m.codecs[i];
      var q :| 0 <= q < |all| && all[q] == m.codecs[j];
      assert params.codecs[p].payloadType == params.codecs[q].payloadType;
    }
  }

  /** Rewriting changes nothing but the parameters. */
  lemma AdjustedKeepsFormat(codecs: seq<Codec>, caps: seq<Codec>, i: nat)
    requires i < |codecs|
    ensures var codec, codec' := codecs[i], AdjustedCodecs(codecs, caps)[i];
            codec' == codec.(parameters := codec'.parameters)
  {
  }

  lemma CapsForInCaps(codecs: seq<Codec>, caps: seq<Codec>, i: nat)
    requires i < |codecs|
    ensures CapsFor(codecs, caps)[i] in caps || CapsFor(codecs, caps)[i] == NO_CODEC
  {
  }

  /** A capability a media codec matched is a media codec; so is the zero codec. */
  lemma CapIsMedia(codec: Codec, caps: seq<Codec>)
    requires IsMedia(codec)
    ensures IsMedia(CapOf(codec, caps))
  {
    hide Answer;
  }

  lemma CapsForMedia(codecs: seq<Codec>, caps: seq<Codec>)
    ensures forall i :: 0 <= i < |codecs| && IsMedia(AdjustedCodecs(codecs, caps)[i]) ==>
              IsMedia(CapsFor(codecs, caps)[i])
  {
    forall i | 0 <= i < |codecs| && IsMedia(AdjustedCodecs(codecs, caps)[i])
      ensures IsMedia(CapsFor(codecs, caps)[i])
    {
      hide Answer;
      AdjustedKeepsFormat(codecs, caps, i);
      CapIsMedia(codecs[i], caps);
    }
  }

  lemma PositivePayloadTypes(caps: seq<Codec>)
    requires RouterCodecs(caps)
    ensures forall i :: 0 <= i < |caps| ==> caps[i].preferredPayloadType > 0
  {
    forall i | 0 <= i < |caps|
      ensures caps[i].preferredPayloadType > 0
    {
      assert GoodAt(caps, i);
    }
  }

  /** What the router needs to be for consumable parameters to be right. */
  ghost predicate RouterCaps(caps: RtpCapabilities) {
    && RouterCodecs(caps.codecs)
    && SlotsIncrease(caps.codecs, 88)
    && DistinctPayloadTypes(caps.codecs)
    && RtxHaveParameters(caps.codecs)
  }

  /**
   * Producing: for every order in which the mapping is read out, the consumable
   * codecs are the blocks of the capabilities the producer's codecs matched.
   */
  lemma ConsumableCodecsAreBlocks(
      kind: string, params: RtpParameters, caps: RtpCapabilities, ssrcs: nat -> int, m: RtpMapping)
    requires RouterCaps(caps) && DistinctProducer(params.codecs)
    requires MappingError(params, caps).None? && IsMapping(params, caps, ssrcs, m)
    ensures |m.encodings| == |params.encodings|
    ensures var codecs' := AdjustedCodecs(params.codecs, caps.codecs);
            var r := Consumables(kind, params.(codecs := codecs'), caps, m);
            r.Ok? && r.value.codecs == Blocks(codecs', CapsFor(params.codecs, caps.codecs), caps.codecs)
  {
    var codecs, codecs' := params.codecs, AdjustedCodecs(params.codecs, caps.codecs);
    var capOf := CapsFor(codecs, caps.codecs);
    MappingMapsTo(params, caps, ssrcs, m);
    MappingIsFunctional(params, caps, ssrcs, m);
    assert MapsTo(codecs', capOf, m.codecs) && AllValid(codecs')
           && forall i :: 0 <= i < |codecs'| && IsMedia(codecs'[i]) ==>
                capOf[i] in caps.codecs || capOf[i] == NO_CODEC by {
      hide IsRtx, Answer, RouterCodecs, SlotsIncrease, RtxPass, CapOf, AdjustedCodecs;
      forall i | 0 <= i < |codecs'|
        ensures codecs'[i].mimeType == codecs[i].mimeType && codecs'[i].payloadType == codecs[i].payloadType
        ensures ValidCodec(codecs'[i])
        ensures capOf[i] in caps.codecs || capOf[i] == NO_CODEC
      {
        AdjustedKeepsFormat(codecs, caps.codecs, i);
        CapsForInCaps(codecs, caps.codecs, i);
      }
    }
    PositivePayloadTypes(caps.codecs);
    ConsumableIsBlocks(codecs', capOf, caps.codecs, m.codecs);
  }

  lemma MatchIsSameFormat(codec: Codec, caps: seq<Codec>, j: nat)
    requires FirstMatch(codec, caps, true) == Some(j) && IsMedia(codec)
    ensures j < |caps| && IsMedia(caps[j])
    ensures ToLower(caps[j].mimeType) == ToLower(codec.mimeType) && caps[j].clockRate == codec.clockRate
  {
    hide Answer, ToLower;
  }

  /**
   * What one block is, for a matched codec: the producer's format in the
   * router's payload type, directly followed by its own RTX exactly when the
   * router codec carries video.
   */
  lemma BlockMeaning(codec: Codec, parameters: Option<CodecParameters>, caps: seq<Codec>, j: nat)
    requires RouterCodecs(caps) && SlotsIncrease(caps, 88) && RtxHaveParameters(caps)
    requires FirstMatch(codec, caps, true) == Some(j) && IsMedia(codec)
    ensures var block := BlockFor(caps[j], parameters, caps);
            && 1 <= |block| <= 2
            && ToLower(block[0].mimeType) == ToLower(codec.mimeType)
            && block[0].clockRate == codec.clockRate
            && block[0].channels == caps[j].channels
            && block[0].payloadType == caps[j].preferredPayloadType
            && block[0].parameters == parameters
            && block[0].rtcpFeedback == caps[j].rtcpFeedback
            && (|block| == 2 <==> caps[j].kind == "video")
            && (|block| == 2 ==>
                  && j + 1 < |caps|
                  && block[1].mimeType == "video/rtx"
                  && block[1].clockRate == codec.clockRate
                  && block[1].rtcpFeedback == []
                  && block[1].payloadType == caps[j + 1].preferredPayloadType
                  && block[1].parameters == Some(NO_PARAMETERS.(apt := block[0].payloadType)))
  {
    hide Answer, IsRtx, FirstMatch, RouterCodecs, SlotsIncrease, RtxHaveParameters;
    MatchIsSameFormat(codec, caps, j);
    hide Matches, SameFormat, ToLower, IsAudioType;
    RouterCodecAt(caps, j);
    RtxForRouterCodec(caps, j);
  }
}
