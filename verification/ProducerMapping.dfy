/**
 * GetProducerRtpParametersMapping (mediasoup/ortc.go): every codec, header
 * extension and encoding of a producer is mapped to the router's values.
 */
module ProducerMapping {
  import opened H264Profile
  import opened Matching
  import opened RouterCapabilities
  import opened RtpTypes
  import opened Wrappers

  /** The RTX capabilities carry parameters; the code dereferences them unchecked. */
  ghost predicate RtxHaveParameters(caps: seq<Codec>) {
    forall i :: 0 <= i < |caps| && !IsMedia(caps[i]) ==> caps[i].parameters.Some?
  }

  /** The first codec with the given payload type. */
  function FirstWithPayloadType(codecs: seq<Codec>, payloadType: int): (r: Option<nat>)
    ensures r.Some? ==> r.value < |codecs| && codecs[r.value].payloadType == payloadType
                        && forall j :: 0 <= j < r.value ==> codecs[j].payloadType != payloadType
    ensures r.None? ==> forall j :: 0 <= j < |codecs| ==> codecs[j].payloadType != payloadType
  {
    if codecs == [] then None
    else
      var last := |codecs| - 1;
      var r := FirstWithPayloadType(codecs[..last], payloadType);
      if r.Some? then r else if codecs[last].payloadType == payloadType then Some(last) else None
  }

  predicate IsRtxWithApt(codec: Codec, apt: int) {
    !IsMedia(codec) && codec.parameters.Some? && codec.parameters.value.apt == apt
  }

  /** The first RTX capability associated with payload type `apt`. */
  function FirstRtxFor(caps: seq<Codec>, apt: int): (r: Option<nat>)
    requires RtxHaveParameters(caps)
    ensures r.Some? ==> r.value < |caps| && IsRtxWithApt(caps[r.value], apt)
                        && forall j :: 0 <= j < r.value ==> !IsRtxWithApt(caps[j], apt)
    ensures r.None? ==> forall j :: 0 <= j < |caps| ==> !IsRtxWithApt(caps[j], apt)
  {
    if caps == [] then None
    else
      var last := |caps| - 1;
      var r := FirstRtxFor(caps[..last], apt);
      if r.Some? then r else if IsRtxWithApt(caps[last], apt) then Some(last) else None
  }

  // ---------------------------------------------------------------- specification

  /** The capability a media codec is mapped to; the zero codec when none matches. */
  function CapOf(codec: Codec, caps: seq<Codec>): Codec {
    var k := FirstMatch(codec, caps, true);
    if k.Some? then caps[k.value] else NO_CODEC
  }

  function AdjustedBy(codec: Codec, caps: seq<Codec>): Codec {
    var k := FirstMatch(codec, caps, true);
    if IsMedia(codec) && k.Some? then Adjusted(codec, caps[k.value]) else codec
  }

  /** The producer's codecs after the strict matching has rewritten their parameters. */
  function AdjustedCodecs(codecs: seq<Codec>, caps: seq<Codec>): (r: seq<Codec>)
    ensures |r| == |codecs|
  {
    seq(|codecs|, i requires 0 <= i < |codecs| => AdjustedBy(codecs[i], caps))
  }

  predicate AllValid(codecs: seq<Codec>) {
    forall i :: 0 <= i < |codecs| ==> ValidCodec(codecs[i])
  }

  /** How many codecs precede the first invalid one. */
  function ValidPrefix(codecs: seq<Codec>): (n: nat)
    ensures n <= |codecs| && AllValid(codecs[..n]) && (n < |codecs| ==> !ValidCodec(codecs[n]))
  {
    if codecs == [] then 0
    else
      var last := |codecs| - 1;
      var n := ValidPrefix(codecs[..last]);
      assert codecs[..last][..n] == codecs[..n];
      if n < last then n
      else if ValidCodec(codecs[last]) then last + 1 else last
  }

  /** The first `n` codecs rewritten. */
  function RewrittenTo(codecs: seq<Codec>, caps: seq<Codec>, n: nat): seq<Codec>
    requires n <= |codecs|
  {
    AdjustedCodecs(codecs[..n], caps) + codecs[n..]
  }

  /** The producer's codecs as any call leaves them: rewritten up to the first invalid one. */
  function Rewritten(codecs: seq<Codec>, caps: seq<Codec>): seq<Codec> {
    RewrittenTo(codecs, caps, ValidPrefix(codecs))
  }

  lemma RewriteOne(codecs: seq<Codec>, caps: seq<Codec>, i: nat)
    requires i < |codecs|
    ensures |RewrittenTo(codecs, caps, i)| == |codecs|
    ensures RewrittenTo(codecs, caps, i)[i := AdjustedBy(codecs[i], caps)] == RewrittenTo(codecs, caps, i + 1)
  {
    hide AdjustedBy;
  }

  lemma RewriteNone(codecs: seq<Codec>, caps: seq<Codec>)
    ensures RewrittenTo(codecs, caps, 0) == codecs
  {
  }

  lemma ValidPrefixIs(codecs: seq<Codec>, n: nat)
    requires n <= |codecs| && forall k :: 0 <= k < n ==> ValidCodec(codecs[k])
    requires n < |codecs| ==> !ValidCodec(codecs[n])
    ensures ValidPrefix(codecs) == n
  {
    hide ValidCodec;
    var m := ValidPrefix(codecs);
    assert forall k :: 0 <= k < m ==> codecs[..m][k] == codecs[k];
  }

  lemma RewrittenWhenValid(codecs: seq<Codec>, caps: seq<Codec>)
    requires AllValid(codecs)
    ensures Rewritten(codecs, caps) == AdjustedCodecs(codecs, caps)
  {
    assert codecs[..|codecs|] == codecs;
  }

  /**
   * The codecToCapCodec map: its keys are the addresses of the codecs, so it is
   * a capability, or nothing yet, for every codec position.
   */
  type CapTable = seq<Option<Codec>>

  function MediaCap(codec: Codec, caps: seq<Codec>): Option<Codec> {
    if IsMedia(codec) then Some(CapOf(codec, caps)) else None
  }

  /** The table after the first loop. */
  function MediaCaps(codecs: seq<Codec>, caps: seq<Codec>): (r: CapTable)
    ensures |r| == |codecs|
  {
    seq(|codecs|, i requires 0 <= i < |codecs| => MediaCap(codecs[i], caps))
  }

  /** Looking a key up in the map gives the zero codec when it is absent. */
  function Lookup(table: CapTable, i: nat): Codec
    requires i < |table|
  {
    if table[i].Some? then table[i].value else NO_CODEC
  }

  /** What the second loop finds for the RTX codec at position `i`. */
  function RtxCap(codecs: seq<Codec>, caps: seq<Codec>, table: CapTable, i: nat): Result<Codec>
    requires i < |codecs| == |table| && RtxHaveParameters(caps)
  {
    if codecs[i].parameters.None? then Err(TypeError)
    else
      var media := FirstWithPayloadType(codecs, codecs[i].parameters.value.apt);
      if media.None? then Err(TypeError)
      else
        var rtx := FirstRtxFor(caps, Lookup(table, media.value).preferredPayloadType);
        if rtx.None? then Err(UnsupportedError) else Ok(caps[rtx.value])
  }

  /** The table after `n` iterations of the second loop, which only looks at RTX codecs. */
  function RtxPass(codecs: seq<Codec>, caps: seq<Codec>, n: nat): (r: Result<CapTable>)
    requires n <= |codecs| && RtxHaveParameters(caps)
    ensures r.Ok? ==> |r.value| == |codecs|
  {
    if n == 0 then Ok(MediaCaps(codecs, caps))
    else
      match RtxPass(codecs, caps, n - 1)
      case Err(e) => Err(e)
      case Ok(table) =>
        if IsMedia(codecs[n - 1]) then Ok(table)
        else
          match RtxCap(codecs, caps, table, n - 1)
          case Err(e) => Err(e)
          case Ok(cap) => Ok(table[n - 1 := Some(cap)])
  }

  predicate ExtensionsSupported(exts: seq<HeaderExtension>, capExts: seq<HeaderExtension>) {
    forall i :: 0 <= i < |exts| ==> FirstExtension(exts[i], capExts).Some?
  }

  function MapExtensions(exts: seq<HeaderExtension>, capExts: seq<HeaderExtension>): seq<MappingHeaderExtension>
    requires ExtensionsSupported(exts, capExts)
  {
    seq(|exts|, i requires 0 <= i < |exts| =>
          MappingHeaderExtension(exts[i].id, capExts[FirstExtension(exts[i], capExts).value].preferredId))
  }

  function MapEncodings(encodings: seq<Encoding>, ssrcs: nat -> int): seq<MappingEncoding> {
    seq(|encodings|, i requires 0 <= i < |encodings| =>
          MappingEncoding(encodings[i].rid, encodings[i].ssrc, ssrcs(i)))
  }

  predicate Unsupported(codec: Codec, caps: seq<Codec>) {
    IsMedia(codec) && FirstMatch(codec, caps, true).None?
  }

  /**
   * The error the unsupported branch of the first loop leaves behind: the next
   * iteration overwrites it, so only the last codec can make it survive.
   */
  predicate LastIsUnsupported(codecs: seq<Codec>, caps: seq<Codec>) {
    codecs != [] && Unsupported(codecs[|codecs| - 1], caps)
  }

  function MappingError(params: RtpParameters, caps: RtpCapabilities): Option<Error>
    requires RtxHaveParameters(caps.codecs)
  {
    if !AllValid(params.codecs) then Some(TypeError)
    else
      match RtxPass(params.codecs, caps.codecs, |params.codecs|)
      case Err(e) => Some(e)
      case Ok(_) =>
        if !ExtensionsSupported(params.headerExtensions, caps.headerExtensions) then Some(UnsupportedError)
        else if LastIsUnsupported(params.codecs, caps.codecs) then Some(UnsupportedError)
        else None
  }

  /** After `n` iterations the table holds the media codecs and the first `n` positions. */
  lemma {:induction false} RtxPassDomain(codecs: seq<Codec>, caps: seq<Codec>, n: nat, i: nat)
    requires n <= |codecs| && RtxHaveParameters(caps) && RtxPass(codecs, caps, n).Ok? && i < |codecs|
    ensures var table := RtxPass(codecs, caps, n).value;
            if IsMedia(codecs[i]) then table[i] == Some(CapOf(codecs[i], caps)) else table[i].Some? <==> i < n
  {
    hide IsRtx, FirstMatch, RtxHaveParameters, FirstRtxFor;
    if n > 0 {
      RtxPassDomain(codecs, caps, n - 1, i);
    }
  }

  /** One entry per codec, in the order of the codecs. */
  function Entries(codecs: seq<Codec>, table: CapTable): (r: seq<MappingCodec>)
    requires |codecs| == |table|
    ensures |r| == |codecs|
  {
    seq(|codecs|, i requires 0 <= i < |codecs| =>
          MappingCodec(codecs[i].payloadType, Lookup(table, i).preferredPayloadType))
  }

  /** What a successful call returns: the codec entries come in any order, since they are read out of a map. */
  ghost predicate IsMapping(params: RtpParameters, caps: RtpCapabilities, ssrcs: nat -> int, m: RtpMapping)
    requires RtxHaveParameters(caps.codecs) && MappingError(params, caps).None?
  {
    && multiset(m.codecs) ==
         multiset(Entries(params.codecs, RtxPass(params.codecs, caps.codecs, |params.codecs|).value))
    && m.headerExtensions == MapExtensions(params.headerExtensions, caps.headerExtensions)
    && m.encodings == MapEncodings(params.encodings, ssrcs)
  }

  lemma {:induction false} RtxPassFailsEarly(codecs: seq<Codec>, caps: seq<Codec>, n: nat, k: nat)
    requires n <= k <= |codecs| && RtxHaveParameters(caps) && RtxPass(codecs, caps, n).Err?
    ensures RtxPass(codecs, caps, k) == RtxPass(codecs, caps, n)
  {
    if n < k {
      RtxPassFailsEarly(codecs, caps, n, k - 1);
    }
  }

  // ---------------------------------------------------------------- the loops of the source

  method FindRtx(caps: seq<Codec>, apt: int) returns (r: Option<nat>)
    requires RtxHaveParameters(caps)
    ensures r == FirstRtxFor(caps, apt)
  {
    for j := 0 to |caps|
      invariant forall k :: 0 <= k < j ==> !IsRtxWithApt(caps[k], apt)
    {
      if !IsMedia(caps[j]) && caps[j].parameters.value.apt == apt {
        return Some(j);
      }
    }
    return None;
  }

  method FindByPayloadType(codecs: seq<Codec>, payloadType: int) returns (r: Option<nat>)
    ensures r == FirstWithPayloadType(codecs, payloadType)
  {
    for j := 0 to |codecs|
      invariant forall k :: 0 <= k < j ==> codecs[k].payloadType != payloadType
    {
      if codecs[j].payloadType == payloadType {
        return Some(j);
      }
    }
    return None;
  }

  /** The body of the first loop: match strictly, and rewrite the matched codec's parameters. */
  method MatchOne(codec: Codec, caps: seq<Codec>) returns (codec': Codec, cap: Option<Codec>, unsupported: bool)
    ensures codec' == AdjustedBy(codec, caps)
    ensures cap == MediaCap(codec, caps)
    ensures unsupported <==> Unsupported(codec, caps)
  {
    if !IsMedia(codec) {
      return codec, None, false;
    }
    var k := SelectMatchedCodecs(codec, caps, true);
    if k.None? {
      return codec, Some(NO_CODEC), true;
    }
    return Adjusted(codec, caps[k.value]), Some(caps[k.value]), false;
  }

  /** The first loop. The error of an unsupported codec is kept only until the next iteration. */
  method MatchMedia(codecs: seq<Codec>, caps: seq<Codec>)
    returns (ok: bool, codecs': seq<Codec>, table: CapTable, err: Option<Error>)
    ensures ok <==> AllValid(codecs)
    ensures codecs' == Rewritten(codecs, caps)
    ensures ok ==> table == MediaCaps(codecs, caps)
    ensures ok ==> err == if LastIsUnsupported(codecs, caps) then Some(UnsupportedError) else None
  {
    hide AdjustedBy, RewrittenTo, MediaCap, Unsupported, ValidCodec, ValidPrefix;
    RewriteNone(codecs, caps);
    codecs', table, err := codecs, [], None;
    for i := 0 to |codecs|
      invariant forall k :: 0 <= k < i ==> ValidCodec(codecs[k])
      invariant |table| == i && codecs' == RewrittenTo(codecs, caps, i)
      invariant forall k :: 0 <= k < i ==> table[k] == MediaCap(codecs[k], caps)
      invariant err == if i > 0 && Unsupported(codecs[i - 1], caps) then Some(UnsupportedError) else None
    {
      if !ValidCodec(codecs[i]) {
        ValidPrefixIs(codecs, i);
        return false, codecs', table, Some(TypeError);
      }
      var codec', cap, unsupported := MatchOne(codecs[i], caps);
      err := if unsupported then Some(UnsupportedError) else None;
      RewriteOne(codecs, caps, i);
      codecs', table := codecs'[i := codec'], table + [cap];
    }
    ok := true;
    ValidPrefixIs(codecs, |codecs|);
  }

  /** The second loop: associate every RTX codec with an RTX capability. */
  method MatchRtx(codecs: seq<Codec>, caps: seq<Codec>, mediaCaps: CapTable) returns (r: Result<CapTable>)
    requires RtxHaveParameters(caps) && mediaCaps == MediaCaps(codecs, caps)
    ensures r == RtxPass(codecs, caps, |codecs|)
  {
    hide IsRtx, FirstMatch, MediaCaps, RtxHaveParameters, ValidCodec;
    var table := mediaCaps;
    for i := 0 to |codecs|
      invariant RtxPass(codecs, caps, i) == Ok(table)
    {
      if IsMedia(codecs[i]) {
        continue;
      }
      if RtxPass(codecs, caps, i + 1).Err? {
        RtxPassFailsEarly(codecs, caps, i + 1, |codecs|);
      }
      if codecs[i].parameters.None? {
        return Err(TypeError);
      }
      var media := FindByPayloadType(codecs, codecs[i].parameters.value.apt);
      if media.None? {
        return Err(TypeError);
      }
      var rtx := FindRtx(caps, Lookup(table, media.value).preferredPayloadType);
      if rtx.None? {
        return Err(UnsupportedError);
      }
      table := table[i := Some(caps[rtx.value])];
    }
    r := Ok(table);
  }

  /** Reading the map out: Go iterates over it in an unspecified order. */
  method ReadEntries(codecs: seq<Codec>, table: CapTable) returns (entries: seq<MappingCodec>)
    requires |codecs| == |table|
    ensures multiset(entries) == multiset(Entries(codecs, table))
  {
    entries := [];
    var rest := Entries(codecs, table);
    while rest != []
      invariant multiset(entries) + multiset(rest) == multiset(Entries(codecs, table))
      decreases |rest|
    {
      var p :| 0 <= p < |rest|;
      assert rest == rest[..p] + [rest[p]] + rest[p + 1..];
      entries, rest := entries + [rest[p]], rest[..p] + rest[p + 1..];
    }
  }

  method MatchExtensions(exts: seq<HeaderExtension>, capExts: seq<HeaderExtension>)
    returns (r: Result<seq<MappingHeaderExtension>>)
    ensures r == if ExtensionsSupported(exts, capExts) then Ok(MapExtensions(exts, capExts)) else Err(UnsupportedError)
  {
    var mapped: seq<MappingHeaderExtension> := [];
    for i := 0 to |exts|
      invariant |mapped| == i
      invariant forall k :: 0 <= k < i ==> FirstExtension(exts[k], capExts).Some?
      invariant forall k :: 0 <= k < i ==>
                  mapped[k] == MappingHeaderExtension(
                    exts[k].id, capExts[FirstExtension(exts[k], capExts).value].preferredId)
    {
      var k := FirstExtension(exts[i], capExts);
      if k.None? {
        return Err(UnsupportedError);
      }
      mapped := mapped + [MappingHeaderExtension(exts[i].id, capExts[k.value].preferredId)];
    }
    assert ExtensionsSupported(exts, capExts);
    assert mapped == MapExtensions(exts, capExts);
    r := Ok(mapped);
  }

  /**
   * GetProducerRtpParametersMapping. `codecs'` are the producer's codecs as the
   * caller finds them afterwards; `ssrcs` stands for the random numbers drawn.
   */
  method GetProducerRtpParametersMapping(params: RtpParameters, caps: RtpCapabilities, ssrcs: nat -> int)
    returns (r: Result<RtpMapping>, codecs': seq<Codec>)
    requires RtxHaveParameters(caps.codecs)
    ensures r.Err? <==> MappingError(params, caps).Some?
    ensures r.Err? ==> MappingError(params, caps) == Some(r.error)
    ensures r.Ok? ==> IsMapping(params, caps, ssrcs, r.value)
    ensures codecs' == Rewritten(params.codecs, caps.codecs)
    ensures r.Ok? ==> codecs' == AdjustedCodecs(params.codecs, caps.codecs)
  {
    var ok, mediaCaps, err;
    ok, codecs', mediaCaps, err := MatchMedia(params.codecs, caps.codecs);
    if !ok {
      return Err(TypeError), codecs';
    }
    RewrittenWhenValid(params.codecs, caps.codecs);
    var rtx := MatchRtx(params.codecs, caps.codecs, mediaCaps);
    if rtx.Err? {
      return Err(rtx.error), codecs';
    }
    var entries := ReadEntries(params.codecs, rtx.value);
    var exts := MatchExtensions(params.headerExtensions, caps.headerExtensions);
    if exts.Err? {
      return Err(exts.error), codecs';
    }
    if err.Some? {
      return Err(err.value), codecs';
    }
    r := Ok(RtpMapping(entries, exts.value, MapEncodings(params.encodings, ssrcs)));
  }

  // ---------------------------------------------------------------- RTX association

  lemma RouterRtxHaveParameters(caps: seq<Codec>)
    requires RouterCodecs(caps)
    ensures RtxHaveParameters(caps)
  {
    forall i | 0 <= i < |caps| && !IsMedia(caps[i])
      ensures caps[i].parameters.Some?
    {
      assert GoodAt(caps, i);
    }
  }

  /** Only the RTX right after a router codec can be associated with its payload type. */
  lemma RtxWithAptIsNext(caps: seq<Codec>, j: nat, k: nat)
    requires RouterCodecs(caps) && SlotsIncrease(caps, 88)
    requires j < |caps| && k < |caps| && IsRtxWithApt(caps[k], caps[j].preferredPayloadType)
    ensures k == j + 1 && IsMedia(caps[j]) && caps[j].kind == "video"
  {
    assert GoodAt(caps, k);
    var v := k - 1;
    assert GoodAt(caps, v);
    assert caps[v].preferredPayloadType == caps[j].preferredPayloadType;
    if v < j {
      CollisionsAreStatic(caps, v, j);
    } else if j < v {
      CollisionsAreStatic(caps, j, v);
    }
  }

  /** In a router, an RTX capability exists exactly for the video codecs, and is the one that follows. */
  lemma RtxForRouterCodec(caps: seq<Codec>, j: nat)
    requires RouterCodecs(caps) && SlotsIncrease(caps, 88) && RtxHaveParameters(caps) && j < |caps|
    ensures FirstRtxFor(caps, caps[j].preferredPayloadType) ==
            if IsMedia(caps[j]) && caps[j].kind == "video" then Some(j + 1) else None
  {
    assert GoodAt(caps, j);
    var pt := caps[j].preferredPayloadType;
    if FirstRtxFor(caps, pt).Some? {
      RtxWithAptIsNext(caps, j, FirstRtxFor(caps, pt).value);
    } else if IsMedia(caps[j]) && caps[j].kind == "video" {
      assert IsRtxWithApt(caps[j + 1], pt);
    }
  }

  lemma NoRtxForZero(caps: seq<Codec>)
    requires RouterCodecs(caps) && RtxHaveParameters(caps)
    ensures FirstRtxFor(caps, 0) == None
  {
    forall k | 0 <= k < |caps|
      ensures !IsRtxWithApt(caps[k], 0)
    {
      assert GoodAt(caps, k);
      if !IsMedia(caps[k]) {
        assert GoodAt(caps, k - 1);
      }
    }
  }

  /** The table holds, at the position of an RTX codec, nothing or an RTX capability. */
  lemma {:induction false} RtxPassHoldsRtx(codecs: seq<Codec>, caps: seq<Codec>, n: nat, i: nat)
    requires n <= |codecs| && RtxHaveParameters(caps) && RtxPass(codecs, caps, n).Ok?
    requires i < |codecs| && !IsMedia(codecs[i])
    ensures var cap := RtxPass(codecs, caps, n).value[i];
            cap.None? || exists j :: 0 <= j < |caps| && !IsMedia(caps[j]) && cap == Some(caps[j])
  {
    if n > 0 {
      RtxPassHoldsRtx(codecs, caps, n - 1, i);
      if n - 1 == i {
        var table := RtxPass(codecs, caps, n - 1).value;
        var media := FirstWithPayloadType(codecs, codecs[i].parameters.value.apt).value;
        var j := FirstRtxFor(caps, Lookup(table, media).preferredPayloadType).value;
        assert !IsMedia(caps[j]) && RtxPass(codecs, caps, n).value[i] == Some(caps[j]);
      }
    }
  }

  lemma {:induction false} RtxPassStable(codecs: seq<Codec>, caps: seq<Codec>, n: nat, i: nat)
    requires i < n <= |codecs| && RtxHaveParameters(caps) && RtxPass(codecs, caps, n).Ok?
    ensures RtxPass(codecs, caps, i + 1).Ok?
    ensures RtxPass(codecs, caps, n).value[i] == RtxPass(codecs, caps, i + 1).value[i]
  {
    if i + 1 < n {
      RtxPassStable(codecs, caps, n - 1, i);
    }
  }

  /** Whatever the table holds for an RTX codec, no RTX capability is associated with it. */
  lemma NoRtxForRtx(codecs: seq<Codec>, caps: seq<Codec>, n: nat, k: nat)
    requires RouterCodecs(caps) && SlotsIncrease(caps, 88) && RtxHaveParameters(caps)
    requires n <= |codecs| && RtxPass(codecs, caps, n).Ok?
    requires k < |codecs| && !IsMedia(codecs[k])
    ensures FirstRtxFor(caps, Lookup(RtxPass(codecs, caps, n).value, k).preferredPayloadType) == None
  {
    var table := RtxPass(codecs, caps, n).value;
    RtxPassHoldsRtx(codecs, caps, n, k);
    if table[k].Some? {
      var r :| 0 <= r < |caps| && !IsMedia(caps[r]) && table[k] == Some(caps[r]);
      RtxForRouterCodec(caps, r);
    } else {
      NoRtxForZero(caps);
    }
  }

  /** Nor for a media codec the router does not support. */
  lemma NoRtxForUnsupported(codecs: seq<Codec>, caps: seq<Codec>, n: nat, k: nat)
    requires RouterCodecs(caps) && RtxHaveParameters(caps)
    requires n <= |codecs| && RtxPass(codecs, caps, n).Ok?
    requires k < |codecs| && Unsupported(codecs[k], caps)
    ensures FirstRtxFor(caps, Lookup(RtxPass(codecs, caps, n).value, k).preferredPayloadType) == None
  {
    RtxPassDomain(codecs, caps, n, k);
    NoRtxForZero(caps);
  }

  /**
   * A successful mapping sends every producer RTX codec to the RTX capability
   * that follows the capability of its associated media codec, and the
   * associated codec is never an RTX itself.
   */
  lemma RtxAssociationSurvives(codecs: seq<Codec>, caps: seq<Codec>, i: nat) returns (k: nat, j: nat)
    requires RouterCodecs(caps) && SlotsIncrease(caps, 88) && RtxHaveParameters(caps)
    requires RtxPass(codecs, caps, |codecs|).Ok?
    requires i < |codecs| && !IsMedia(codecs[i])
    ensures codecs[i].parameters.Some?
    ensures FirstWithPayloadType(codecs, codecs[i].parameters.value.apt) == Some(k)
    ensures IsMedia(codecs[k]) && FirstMatch(codecs[k], caps, true) == Some(j)
    ensures j + 1 < |caps| && IsRtxOf(caps[j + 1], caps[j])
    ensures RtxPass(codecs, caps, |codecs|).value[i] == Some(caps[j + 1])
    ensures RtxPass(codecs, caps, |codecs|).value[k] == Some(caps[j])
  {
    hide IsRtx, FirstMatch, RouterCodecs, SlotsIncrease, RtxHaveParameters, FirstRtxFor, FirstWithPayloadType;
    RtxPassIff(codecs, caps, |codecs|);
    assert NamesVideo(codecs, caps, i);
    k := FirstWithPayloadType(codecs, codecs[i].parameters.value.apt).value;
    j := FirstMatch(codecs[k], caps, true).value;
    RtxPassStable(codecs, caps, |codecs|, i);
    assert RtxCap(codecs, caps, RtxPass(codecs, caps, i).value, i).Ok?;
    RtxPassDomain(codecs, caps, i, k);
    RtxPassDomain(codecs, caps, |codecs|, k);
    MatchedIsMedia(codecs[k], caps);
    RtxForRouterCodec(caps, j);
    RouterCodecAt(caps, j);
  }

  // ---------------------------------------------------------------- the returned mapping

  /** Whatever the reading order, the mapping has one entry per codec, and the entry of every codec. */
  lemma EntryOfCodec(params: RtpParameters, caps: RtpCapabilities, ssrcs: nat -> int, m: RtpMapping, i: nat)
    requires RtxHaveParameters(caps.codecs) && MappingError(params, caps).None? && IsMapping(params, caps, ssrcs, m)
    requires i < |params.codecs|
    ensures |m.codecs| == |params.codecs|
    ensures var table := RtxPass(params.codecs, caps.codecs, |params.codecs|).value;
            MappingCodec(params.codecs[i].payloadType, Lookup(table, i).preferredPayloadType) in m.codecs
  {
    hide IsRtx, FirstMatch, RtxHaveParameters, RtxPass;
    var all := Entries(params.codecs, RtxPass(params.codecs, caps.codecs, |params.codecs|).value);
    assert all[i] in multiset(all);
    assert all[i] in multiset(m.codecs);
    assert |multiset(m.codecs)| == |multiset(all)|;
  }

  /** A supported media codec is mapped to the payload type of the first capability it matches. */
  lemma MediaIsMapped(params: RtpParameters, caps: RtpCapabilities, ssrcs: nat -> int, m: RtpMapping, i: nat, j: nat)
    requires RtxHaveParameters(caps.codecs) && MappingError(params, caps).None? && IsMapping(params, caps, ssrcs, m)
    requires i < |params.codecs| && IsMedia(params.codecs[i])
    requires FirstMatch(params.codecs[i], caps.codecs, true) == Some(j)
    ensures MappingCodec(params.codecs[i].payloadType, caps.codecs[j].preferredPayloadType) in m.codecs
  {
    hide IsRtx, FirstMatch, RtxHaveParameters, IsMapping, RtxPass;
    EntryOfCodec(params, caps, ssrcs, m, i);
    RtxPassDomain(params.codecs, caps.codecs, |params.codecs|, i);
  }

  /**
   * Renumbering keeps RTX with its media codec: in the mapping a router
   * returns, the RTX codec is sent to the RTX capability whose apt is the
   * payload type that the codec its own apt names is sent to.
   */
  lemma RtxIsMapped(params: RtpParameters, caps: RtpCapabilities, ssrcs: nat -> int, m: RtpMapping, i: nat)
    returns (k: nat, j: nat)
    requires RouterCodecs(caps.codecs) && SlotsIncrease(caps.codecs, 88) && RtxHaveParameters(caps.codecs)
    requires MappingError(params, caps).None? && IsMapping(params, caps, ssrcs, m)
    requires i < |params.codecs| && !IsMedia(params.codecs[i])
    ensures params.codecs[i].parameters.Some?
    ensures FirstWithPayloadType(params.codecs, params.codecs[i].parameters.value.apt) == Some(k)
    ensures FirstMatch(params.codecs[k], caps.codecs, true) == Some(j) && j + 1 < |caps.codecs|
    ensures var media, rtx := caps.codecs[j], caps.codecs[j + 1];
            && MappingCodec(params.codecs[k].payloadType, media.preferredPayloadType) in m.codecs
            && MappingCodec(params.codecs[i].payloadType, rtx.preferredPayloadType) in m.codecs
            && rtx.mimeType == "video/rtx" && rtx.clockRate == params.codecs[k].clockRate
            && rtx.parameters.Some? && rtx.parameters.value.apt == media.preferredPayloadType
  {
    hide IsRtx, FirstMatch, RouterCodecs, SlotsIncrease, RtxHaveParameters, IsMapping, RtxPass, FirstWithPayloadType,
      Answer, ToLower;
    k, j := RtxAssociationSurvives(params.codecs, caps.codecs, i);
    EntryOfCodec(params, caps, ssrcs, m, i);
    MediaIsMapped(params, caps, ssrcs, m, k, j);
  }

  /** A missing kind agrees with every kind. */
  predicate KindsAgree(a: string, b: string) {
    a == "" || b == "" || a == b
  }

  /** The rest of the mapping: extensions by their first matching capability, encodings by the drawn ssrcs. */
  lemma MappingMeaning(params: RtpParameters, caps: RtpCapabilities, ssrcs: nat -> int, m: RtpMapping)
    requires RtxHaveParameters(caps.codecs) && MappingError(params, caps).None? && IsMapping(params, caps, ssrcs, m)
    ensures |m.codecs| == |params.codecs|
    ensures |m.headerExtensions| == |params.headerExtensions|
    ensures forall i :: 0 <= i < |params.headerExtensions| ==>
              var ext, capExts := params.headerExtensions[i], caps.headerExtensions;
              var j := FirstExtension(ext, capExts);
              && j.Some? && ext.uri == capExts[j.value].uri
              && KindsAgree(ext.kind, capExts[j.value].kind)
              && (forall k :: 0 <= k < j.value ==> ext.uri != capExts[k].uri || !KindsAgree(ext.kind, capExts[k].kind))
              && m.headerExtensions[i] == MappingHeaderExtension(ext.id, capExts[j.value].preferredId)
    ensures |m.encodings| == |params.encodings|
    ensures forall i :: 0 <= i < |params.encodings| ==>
              m.encodings[i] == MappingEncoding(params.encodings[i].rid, params.encodings[i].ssrc, ssrcs(i))
  {
    hide IsRtx, FirstMatch, RtxHaveParameters, RtxPass;
    var all := Entries(params.codecs, RtxPass(params.codecs, caps.codecs, |params.codecs|).value);
    assert |multiset(m.codecs)| == |multiset(all)|;
  }

  /** Matching leaves the negotiated profile-level-id in an H264 codec's parameters, and changes nothing else. */
  lemma RewritingMeaning(codecs: seq<Codec>, caps: seq<Codec>, i: nat)
    requires i < |codecs|
    ensures var codec, codec', j := codecs[i], AdjustedCodecs(codecs, caps)[i], FirstMatch(codecs[i], caps, true);
            if IsMedia(codec) && IsH264(codec.mimeType) && j.Some? && codec.parameters.Some? then
              && codec'.parameters.Some?
              && Answer(H264Of(codec), H264Of(caps[j.value])) == Some(codec'.parameters.value.h264.profileLevelId)
              && codec' == codec.(parameters := codec'.parameters)
              && codec'.parameters.value == codec.parameters.value.(h264 := codec'.parameters.value.h264)
              && codec'.parameters.value.h264 == codec.parameters.value.h264.(
                   profileLevelId := codec'.parameters.value.h264.profileLevelId)
            else
              codec' == codec
  {
    hide IsRtx, Answer, ToLower;
  }

  /** An RTX codec whose apt names another RTX codec, or itself, makes the mapping fail. */
  lemma AptNamingRtxFails(codecs: seq<Codec>, caps: seq<Codec>, i: nat)
    requires RouterCodecs(caps) && SlotsIncrease(caps, 88) && RtxHaveParameters(caps)
    requires i < |codecs| && !IsMedia(codecs[i]) && codecs[i].parameters.Some?
    requires var k := FirstWithPayloadType(codecs, codecs[i].parameters.value.apt);
             k.Some? && !IsMedia(codecs[k.value])
    ensures RtxPass(codecs, caps, |codecs|).Err?
  {
    if RtxPass(codecs, caps, |codecs|).Ok? {
      var k, j := RtxAssociationSurvives(codecs, caps, i);
    }
  }

  // ---------------------------------------------------------------- unsupported codecs

  ghost predicate AllMatched(codecs: seq<Codec>, caps: seq<Codec>) {
    forall i :: 0 <= i < |codecs| && IsMedia(codecs[i]) ==> FirstMatch(codecs[i], caps, true).Some?
  }

  /** The apt of the RTX codec names, first, a media codec that the router carries as video. */
  predicate NamesVideo(codecs: seq<Codec>, caps: seq<Codec>, i: nat)
    requires i < |codecs|
  {
    && codecs[i].parameters.Some?
    && var k := FirstWithPayloadType(codecs, codecs[i].parameters.value.apt);
       && k.Some?
       && IsMedia(codecs[k.value])
       && var j := FirstMatch(codecs[k.value], caps, true);
          j.Some? && caps[j.value].kind == "video"
  }

  lemma RtxCapIff(codecs: seq<Codec>, caps: seq<Codec>, i: nat)
    requires RouterCodecs(caps) && SlotsIncrease(caps, 88) && RtxHaveParameters(caps)
    requires i < |codecs| && RtxPass(codecs, caps, i).Ok? && !IsMedia(codecs[i])
    ensures RtxCap(codecs, caps, RtxPass(codecs, caps, i).value, i).Ok? <==> NamesVideo(codecs, caps, i)
  {
    hide RouterCodecs, SlotsIncrease, RtxHaveParameters, IsRtx, FirstMatch;
    if codecs[i].parameters.Some? {
      var media := FirstWithPayloadType(codecs, codecs[i].parameters.value.apt);
      if media.Some? {
        var k := media.value;
        RtxPassDomain(codecs, caps, i, k);
        if !IsMedia(codecs[k]) {
          NoRtxForRtx(codecs, caps, i, k);
        } else if Unsupported(codecs[k], caps) {
          NoRtxForUnsupported(codecs, caps, i, k);
        } else {
          MatchedIsMedia(codecs[k], caps);
          RtxForRouterCodec(caps, FirstMatch(codecs[k], caps, true).value);
        }
      }
    }
  }

  lemma MatchedIsMedia(codec: Codec, caps: seq<Codec>)
    requires IsMedia(codec) && FirstMatch(codec, caps, true).Some?
    ensures IsMedia(caps[FirstMatch(codec, caps, true).value])
  {
    hide Answer;
  }

  /** The second loop succeeds exactly when every RTX names a codec that the router carries as video. */
  lemma {:induction false} RtxPassIff(codecs: seq<Codec>, caps: seq<Codec>, n: nat)
    requires RouterCodecs(caps) && SlotsIncrease(caps, 88) && RtxHaveParameters(caps) && n <= |codecs|
    ensures RtxPass(codecs, caps, n).Ok? <==>
            forall i :: 0 <= i < n && !IsMedia(codecs[i]) ==> NamesVideo(codecs, caps, i)
  {
    hide RouterCodecs, SlotsIncrease, RtxHaveParameters, IsRtx, NamesVideo, RtxCap;
    if n > 0 {
      RtxPassIff(codecs, caps, n - 1);
      if RtxPass(codecs, caps, n - 1).Ok? && !IsMedia(codecs[n - 1]) {
        RtxCapIff(codecs, caps, n - 1);
      }
    }
  }

  /**
   * A router accepts a producer exactly when its codecs are valid, every RTX
   * names a codec that the router carries as video, the extensions are
   * supported, and the last codec is not unsupported: other codecs may be.
   */
  lemma AcceptedIff(params: RtpParameters, caps: RtpCapabilities)
    requires RouterCodecs(caps.codecs) && SlotsIncrease(caps.codecs, 88) && RtxHaveParameters(caps.codecs)
    ensures MappingError(params, caps).None? <==>
            && (forall i :: 0 <= i < |params.codecs| ==>
                  params.codecs[i].mimeType != "" && params.codecs[i].clockRate != 0)
            && (forall i :: 0 <= i < |params.codecs| && !IsMedia(params.codecs[i]) ==>
                  NamesVideo(params.codecs, caps.codecs, i))
            && ExtensionsSupported(params.headerExtensions, caps.headerExtensions)
            && !LastIsUnsupported(params.codecs, caps.codecs)
  {
    hide RouterCodecs, SlotsIncrease, RtxHaveParameters, IsRtx, NamesVideo, RtxPass;
    RtxPassIff(params.codecs, caps.codecs, |params.codecs|);
  }

  /** The RTX codec has no parameters, or its apt names no codec at all. */
  predicate NamesNothing(codecs: seq<Codec>, i: nat)
    requires i < |codecs|
  {
    codecs[i].parameters.None? || FirstWithPayloadType(codecs, codecs[i].parameters.value.apt).None?
  }

  /** The error of a producer with valid codecs is that of its first RTX that names no video codec. */
  lemma RtxErrorIs(params: RtpParameters, caps: RtpCapabilities, i: nat)
    requires RouterCodecs(caps.codecs) && SlotsIncrease(caps.codecs, 88) && RtxHaveParameters(caps.codecs)
    requires AllValid(params.codecs) && i < |params.codecs|
    requires !IsMedia(params.codecs[i]) && !NamesVideo(params.codecs, caps.codecs, i)
    requires forall k :: 0 <= k < i && !IsMedia(params.codecs[k]) ==> NamesVideo(params.codecs, caps.codecs, k)
    ensures MappingError(params, caps) == Some(if NamesNothing(params.codecs, i) then TypeError else UnsupportedError)
  {
    hide RouterCodecs, SlotsIncrease, RtxHaveParameters, IsRtx, NamesVideo, FirstWithPayloadType, FirstRtxFor;
    RtxPassIff(params.codecs, caps.codecs, i);
    RtxCapIff(params.codecs, caps.codecs, i);
    assert RtxPass(params.codecs, caps.codecs, i + 1).Err?;
    RtxPassFailsEarly(params.codecs, caps.codecs, i + 1, |params.codecs|);
  }

  /** The other two errors: invalid codecs are a type error, and all else is unsupported. */
  lemma OtherErrorIs(params: RtpParameters, caps: RtpCapabilities)
    requires RouterCodecs(caps.codecs) && SlotsIncrease(caps.codecs, 88) && RtxHaveParameters(caps.codecs)
    requires MappingError(params, caps).Some?
    requires AllValid(params.codecs) ==>
               forall k :: 0 <= k < |params.codecs| && !IsMedia(params.codecs[k]) ==>
                 NamesVideo(params.codecs, caps.codecs, k)
    ensures MappingError(params, caps) == Some(if AllValid(params.codecs) then UnsupportedError else TypeError)
  {
    hide RouterCodecs, SlotsIncrease, RtxHaveParameters, IsRtx, NamesVideo, RtxPass;
    RtxPassIff(params.codecs, caps.codecs, |params.codecs|);
  }

  /** Without RTX codecs the same holds of any capabilities. */
  lemma MediaOnlyAcceptedIff(params: RtpParameters, caps: RtpCapabilities)
    requires RtxHaveParameters(caps.codecs)
    requires forall i :: 0 <= i < |params.codecs| ==> IsMedia(params.codecs[i])
    ensures MappingError(params, caps).None? <==>
            && AllValid(params.codecs)
            && ExtensionsSupported(params.headerExtensions, caps.headerExtensions)
            && (params.codecs != [] ==> FirstMatch(params.codecs[|params.codecs| - 1], caps.codecs, true).Some?)
  {
    MediaOnlyPass(params.codecs, caps.codecs, |params.codecs|);
  }

  lemma {:induction false} MediaOnlyPass(codecs: seq<Codec>, caps: seq<Codec>, n: nat)
    requires RtxHaveParameters(caps) && n <= |codecs|
    requires forall i :: 0 <= i < |codecs| ==> IsMedia(codecs[i])
    ensures RtxPass(codecs, caps, n).Ok?
  {
    if n > 0 {
      MediaOnlyPass(codecs, caps, n - 1);
    }
  }

  /** Hence accepted producers have only supported codecs exactly when there are no others before the last. */
  lemma AcceptedMeansMatchedIff(params: RtpParameters, caps: RtpCapabilities)
    requires RtxHaveParameters(caps.codecs) && MappingError(params, caps).None?
    ensures AllMatched(params.codecs, caps.codecs) <==>
            forall i :: 0 <= i < |params.codecs| - 1 ==> !Unsupported(params.codecs[i], caps.codecs)
  {
    if params.codecs != [] {
      assert !Unsupported(params.codecs[|params.codecs| - 1], caps.codecs);
    }
  }

  /** Two codecs, the first unknown to a router of the second only, are accepted. */
  lemma UnsupportedAccepted(unknown: Codec, known: Codec, cap: Codec)
    requires ValidCodec(unknown) && ValidCodec(known) && IsMedia(unknown) && IsMedia(known) && IsMedia(cap)
    requires !Matches(unknown, cap, true) && Matches(known, cap, true)
    ensures var params := RtpParameters("", [unknown, known], [], [], Rtcp("", false, None));
            var caps := RtpCapabilities([cap], [], []);
            RtxHaveParameters(caps.codecs) && MappingError(params, caps).None?
            && !AllMatched(params.codecs, caps.codecs)
  {
    var params := RtpParameters("", [unknown, known], [], [], Rtcp("", false, None));
    var caps := RtpCapabilities([cap], [], []);
    assert FirstMatch(unknown, [cap], true).None? && FirstMatch(known, [cap], true).Some?;
    MediaOnlyAcceptedIff(params, caps);
    assert IsMedia(params.codecs[0]) && FirstMatch(params.codecs[0], caps.codecs, true).None?;
  }
}
