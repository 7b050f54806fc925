/**
 * The payload-type allocator of GenerateRouterRtpCapabilities
 * (mediasoup/ortc.go): media codecs are matched with a table, given payload
 * types, and paired with RTX codecs (RFC 4588) when they carry video.
 */
module RouterCapabilities {
  import opened H264Profile
  import opened Matching
  import opened RtpTypes
  import opened SupportedCapabilities
  import opened Wrappers

  function Range(lo: int, hi: int): (s: seq<int>)
    requires lo <= hi
    ensures |s| == hi - lo
    ensures forall i :: 0 <= i < |s| ==> s[i] == lo + i
  {
    seq(hi - lo, i => lo + i)
  }

  /** The payload types handed out, in order (section 6 of RFC 3551). */
  const DYNAMIC_PAYLOAD_TYPES: seq<int> := Range(100, 128) + Range(96, 100) + Range(77, 96) + Range(35, 72)

  /** The position of a payload type in that list. */
  function Slot(payloadType: int): int {
    if 100 <= payloadType < 128 then payloadType - 100
    else if 96 <= payloadType < 100 then 28 + payloadType - 96
    else if 77 <= payloadType < 96 then 32 + payloadType - 77
    else if 35 <= payloadType < 72 then 51 + payloadType - 35
    else -1
  }

  lemma SlotOfDynamic(i: nat)
    requires i < |DYNAMIC_PAYLOAD_TYPES|
    ensures |DYNAMIC_PAYLOAD_TYPES| == 88
    ensures Slot(DYNAMIC_PAYLOAD_TYPES[i]) == i
    ensures DYNAMIC_PAYLOAD_TYPES[i] > 0 && DYNAMIC_PAYLOAD_TYPES[i] !in STATIC_PAYLOAD_TYPES
  {
  }

  // ---------------------------------------------------------------- generation

  function Override(base: int, value: int): int {
    if value != 0 then value else base
  }

  /** mergo.Merge with override: every non-zero field of `over` replaces that of `base`. */
  function MergeParameters(base: CodecParameters, over: CodecParameters): CodecParameters {
    CodecParameters(
      H264Parameters(
        Override(base.h264.packetizationMode, over.h264.packetizationMode),
        if over.h264.profileLevelId != "" then over.h264.profileLevelId else base.h264.profileLevelId,
        Override(base.h264.levelAsymmetryAllowed, over.h264.levelAsymmetryAllowed)),
      Override(base.apt, over.apt),
      Override(base.spropStereo, over.spropStereo),
      Override(base.useinbandfec, over.useinbandfec),
      Override(base.usedtx, over.usedtx),
      Override(base.maxplaybackrate, over.maxplaybackrate),
      Override(base.xGoogleMinBitrate, over.xGoogleMinBitrate),
      Override(base.xGoogleMaxBitrate, over.xGoogleMaxBitrate),
      Override(base.xGoogleStartBitrate, over.xGoogleStartBitrate))
  }

  /** The given parameters with those of the media codec, if it has any, merged in. */
  function Merged(base: CodecParameters, media: Codec): CodecParameters {
    if media.parameters.Some? then MergeParameters(base, media.parameters.value) else base
  }

  /**
   * A row of the table with its channels normalised. A row without parameters
   * gets ones of its own, with the media codec's merged in. A row with
   * parameters shares them with every codec made from it, and they stay out of
   * the copy.
   */
  function Normalized(row: Codec, media: Codec): Codec {
    row.(
      channels := if row.kind != "audio" then 0 else if row.channels == 0 then 1 else row.channels,
      parameters := if row.parameters.Some? then None else Some(Merged(NO_PARAMETERS, media)))
  }

  function RtxFor(media: Codec, payloadType: int): Codec {
    Codec(media.kind, media.kind + "/rtx", media.clockRate, 0, 0, payloadType,
          Some(NO_PARAMETERS.(apt := media.preferredPayloadType)), [])
  }

  /** The codecs produced so far, the rows whose parameters they share, and the next unused dynamic payload type. */
  datatype Allocation = Allocation(codecs: seq<Codec>, rows: seq<Option<nat>>, next: nat)

  ghost predicate GoodTable(table: seq<Codec>) {
    forall i :: 0 <= i < |table| ==> GoodRow(table[i])
  }

  predicate Supported(table: seq<Codec>, media: Codec) {
    ValidCodec(media) && FirstMatch(media, table, false).Some?
  }

  function RowOf(table: seq<Codec>, media: Codec): Codec
    requires Supported(table, media)
  {
    table[FirstMatch(media, table, false).value]
  }

  function Extend(table: seq<Codec>, st: Allocation, media: Codec): Result<Allocation> {
    if !ValidCodec(media) then Err(TypeError)
    else if !Supported(table, media) then Err(UnsupportedError)
    else
      var row := RowOf(table, media);
      var codec := Normalized(row, media);
      var shares := if row.parameters.Some? then FirstMatch(media, table, false) else None;
      var dynamic := codec.preferredPayloadType == 0;
      if dynamic && st.next >= |DYNAMIC_PAYLOAD_TYPES| then Err(AllocationError)
      else
        var codec := if dynamic then codec.(preferredPayloadType := DYNAMIC_PAYLOAD_TYPES[st.next]) else codec;
        var next := if dynamic then st.next + 1 else st.next;
        if codec.kind != "video" then Ok(Allocation(st.codecs + [codec], st.rows + [shares], next))
        else if next >= |DYNAMIC_PAYLOAD_TYPES| then Err(AllocationError)
        else
          var rtx := RtxFor(codec, DYNAMIC_PAYLOAD_TYPES[next]);
          Ok(Allocation(st.codecs + [codec, rtx], st.rows + [shares, None], next + 1))
  }

  function Allocate(table: seq<Codec>, medias: seq<Codec>): Result<Allocation> {
    if medias == [] then
      Ok(Allocation([], [], 0))
    else
      var last := |medias| - 1;
      match Allocate(table, medias[..last])
      case Err(e) => Err(e)
      case Ok(st) => Extend(table, st, medias[last])
  }

  /** An error on a prefix is the error of the whole list. */
  lemma {:induction false} AllocateFailsEarly(table: seq<Codec>, medias: seq<Codec>, n: nat)
    requires n <= |medias| && Allocate(table, medias[..n]).Err?
    ensures Allocate(table, medias) == Allocate(table, medias[..n])
  {
    if n == |medias| {
      assert medias[..n] == medias;
    } else {
      var last := |medias| - 1;
      assert medias[..last][..n] == medias[..n];
      AllocateFailsEarly(table, medias[..last], n);
    }
  }

  // ---------------------------------------------------------------- when it succeeds

  /** Dynamic payload types one media codec needs: two for video, one for audio without a static one. */
  function Need(table: seq<Codec>, media: Codec): nat
    requires Supported(table, media)
  {
    var row := RowOf(table, media);
    if row.kind == "video" then 2 else if row.preferredPayloadType == 0 then 1 else 0
  }

  function Demand(table: seq<Codec>, medias: seq<Codec>): nat
    requires forall i :: 0 <= i < |medias| ==> Supported(table, medias[i])
  {
    if medias == [] then 0 else Demand(table, medias[..|medias| - 1]) + Need(table, medias[|medias| - 1])
  }

  lemma ExtendNeeds(table: seq<Codec>, st: Allocation, media: Codec)
    requires GoodTable(table) && Supported(table, media) && st.next <= 88
    ensures Extend(table, st, media).Ok? <==> st.next + Need(table, media) <= 88
    ensures Extend(table, st, media).Ok? ==> Extend(table, st, media).value.next == st.next + Need(table, media)
    ensures Extend(table, st, media).Err? ==> Extend(table, st, media).error == AllocationError
  {
    assert GoodRow(RowOf(table, media));
  }

  lemma {:induction false} AllocateDemand(table: seq<Codec>, medias: seq<Codec>)
    requires GoodTable(table)
    requires forall i :: 0 <= i < |medias| ==> Supported(table, medias[i])
    ensures Allocate(table, medias).Ok? <==> Demand(table, medias) <= 88
    ensures Allocate(table, medias).Ok? ==> Allocate(table, medias).value.next == Demand(table, medias)
    ensures Allocate(table, medias).Err? ==> Allocate(table, medias).error == AllocationError
  {
    if medias != [] {
      var prefix, final := medias[..|medias| - 1], medias[|medias| - 1];
      AllocateDemand(table, prefix);
      assert Demand(table, medias) == Demand(table, prefix) + Need(table, final);
      var before := Allocate(table, prefix);
      if before.Ok? {
        assert Allocate(table, medias) == Extend(table, before.value, final);
        ExtendNeeds(table, before.value, final);
      } else {
        assert Allocate(table, medias) == before;
      }
    }
  }

  lemma ExtendSupported(table: seq<Codec>, st: Allocation, media: Codec)
    requires Extend(table, st, media).Ok?
    ensures Supported(table, media)
  {
  }

  lemma {:induction false} AllocateSupported(table: seq<Codec>, medias: seq<Codec>, i: nat)
    requires i < |medias| && Allocate(table, medias).Ok?
    ensures Supported(table, medias[i])
  {
    var prefix, final := medias[..|medias| - 1], medias[|medias| - 1];
    var before := Allocate(table, prefix);
    assert before.Ok? && Extend(table, before.value, final).Ok?;
    if i < |prefix| {
      assert prefix[i] == medias[i];
      AllocateSupported(table, prefix, i);
    } else {
      ExtendSupported(table, before.value, final);
    }
  }

  lemma AllocateSucceedsIff(table: seq<Codec>, medias: seq<Codec>)
    requires GoodTable(table)
    ensures Allocate(table, medias).Ok? <==>
            && (forall i :: 0 <= i < |medias| ==> Supported(table, medias[i]))
            && Demand(table, medias) <= 88
  {
    if forall i :: 0 <= i < |medias| ==> Supported(table, medias[i]) {
      AllocateDemand(table, medias);
    } else if Allocate(table, medias).Ok? {
      forall i | 0 <= i < |medias|
        ensures Supported(table, medias[i])
      {
        AllocateSupported(table, medias, i);
      }
    }
  }

  /** The error of the first codec that is invalid, unsupported or one too many. */
  lemma AllocateErrorIs(table: seq<Codec>, medias: seq<Codec>, n: nat)
    requires GoodTable(table) && n < |medias|
    requires forall i :: 0 <= i < n ==> Supported(table, medias[i])
    requires Demand(table, medias[..n]) <= 88
    ensures !ValidCodec(medias[n]) ==> Allocate(table, medias) == Err(TypeError)
    ensures ValidCodec(medias[n]) && !Supported(table, medias[n]) ==> Allocate(table, medias) == Err(UnsupportedError)
    ensures Supported(table, medias[n]) && Demand(table, medias[..n]) + Need(table, medias[n]) > 88 ==>
              Allocate(table, medias) == Err(AllocationError)
  {
    hide FirstMatch, GoodTable, Need;
    var before, upTo := medias[..n], medias[..n + 1];
    AllocateDemand(table, before);
    var st := Allocate(table, before).value;
    assert upTo[..n] == before && upTo[n] == medias[n];
    assert Allocate(table, upTo) == Extend(table, st, medias[n]);
    if Supported(table, medias[n]) {
      ExtendNeeds(table, st, medias[n]);
    }
    if Allocate(table, upTo).Err? {
      AllocateFailsEarly(table, medias, n + 1);
    }
  }

  // ---------------------------------------------------------------- what it produces

  /** `rtx` is the retransmission codec of `media`. */
  predicate IsRtxOf(rtx: Codec, media: Codec) {
    && IsRtx(rtx.mimeType)
    && rtx.kind == "video"
    && rtx.mimeType == "video/rtx"
    && rtx.channels == 0
    && rtx.rtcpFeedback == []
    && rtx.clockRate == media.clockRate
    && rtx.parameters == Some(NO_PARAMETERS.(apt := media.preferredPayloadType))
  }

  /** Every codec of a router is a media codec, directly followed by its RTX when it carries video, or such an RTX. */
  predicate GoodAt(cs: seq<Codec>, i: nat)
    requires i < |cs|
  {
    && ValidCodec(cs[i])
    && cs[i].preferredPayloadType > 0
    && (IsAudioType(cs[i].mimeType) ==> cs[i].channels > 0)
    && (if IsMedia(cs[i]) then
          if cs[i].kind == "video" then
            && i + 1 < |cs|
            && IsRtxOf(cs[i + 1], cs[i])
            && cs[i].preferredPayloadType !in STATIC_PAYLOAD_TYPES
          else
            cs[i].kind == "audio"
        else
          i > 0 && IsMedia(cs[i - 1]) && cs[i - 1].kind == "video" && IsRtxOf(cs[i], cs[i - 1]))
  }

  ghost predicate RouterCodecs(cs: seq<Codec>) {
    forall i :: 0 <= i < |cs| ==> GoodAt(cs, i)
  }

  lemma RouterCodecAt(cs: seq<Codec>, j: nat)
    requires RouterCodecs(cs) && j < |cs|
    ensures GoodAt(cs, j)
  {
  }

  /** Dynamic payload types are used up in order, all of them below `next`. */
  ghost predicate SlotsIncrease(cs: seq<Codec>, next: int) {
    && (forall i :: 0 <= i < |cs| && cs[i].preferredPayloadType !in STATIC_PAYLOAD_TYPES ==>
          0 <= Slot(cs[i].preferredPayloadType) < next)
    && (forall i, j | 0 <= i < j < |cs| ::
          cs[i].preferredPayloadType !in STATIC_PAYLOAD_TYPES && cs[j].preferredPayloadType !in STATIC_PAYLOAD_TYPES ==>
          Slot(cs[i].preferredPayloadType) < Slot(cs[j].preferredPayloadType))
  }

  lemma VideoIsNotAudio(mimeType: string)
    requires HasPrefix(ToLower(mimeType), "video/")
    ensures !IsAudioType(mimeType)
  {
    assert ToLower(mimeType)[0] == "video/"[0];
    assert "audio/"[0] == 'a';
  }

  lemma VideoRtxIsRtx()
    ensures IsRtx("video/rtx") && !IsAudioType("video/rtx")
  {
    var l := ToLower("video/rtx");
    assert l == "video/rtx";
    assert l[5..] == "/rtx";
    assert l[..6] == "video/";
    VideoIsNotAudio("video/rtx");
  }

  lemma AudioBlock(c: Codec)
    requires ValidCodec(c) && c.preferredPayloadType > 0 && IsMedia(c) && c.kind == "audio" && c.channels > 0
    ensures RouterCodecs([c])
  {
  }

  lemma VideoBlock(c: Codec, payloadType: int)
    requires ValidCodec(c) && IsMedia(c) && c.kind == "video" && !IsAudioType(c.mimeType)
    requires c.preferredPayloadType > 0 && c.preferredPayloadType !in STATIC_PAYLOAD_TYPES && payloadType > 0
    ensures RouterCodecs([c, RtxFor(c, payloadType)])
  {
    VideoRtxIsRtx();
    var rtx := RtxFor(c, payloadType);
    assert rtx.mimeType == "video/rtx";
    var block := [c, rtx];
    assert GoodAt(block, 0) && GoodAt(block, 1);
  }

  lemma GoodRowIsMedia(row: Codec, media: Codec)
    requires GoodRow(row)
    ensures var c := Normalized(row, media);
            && c.kind == row.kind && c.mimeType == row.mimeType && ValidCodec(c) && IsMedia(c)
            && c.preferredPayloadType == row.preferredPayloadType
            && (c.kind == "video" ==> !IsAudioType(c.mimeType))
            && (c.kind == "audio" ==> c.channels > 0)
  {
    if row.kind == "video" {
      VideoIsNotAudio(row.mimeType);
    }
  }

  /** The block one media codec contributes is well formed on its own, with fresh payload types. */
  lemma BlockIsGood(table: seq<Codec>, st: Allocation, media: Codec) returns (block: seq<Codec>)
    requires GoodTable(table) && st.next <= 88 && Extend(table, st, media).Ok?
    ensures Extend(table, st, media).value.codecs == st.codecs + block
    ensures RouterCodecs(block)
    ensures SlotsIncrease(block, Extend(table, st, media).value.next)
    ensures st.next <= Extend(table, st, media).value.next <= 88
    ensures forall i :: 0 <= i < |block| && block[i].preferredPayloadType !in STATIC_PAYLOAD_TYPES ==>
              Slot(block[i].preferredPayloadType) >= st.next
  {
    var row := RowOf(table, media);
    assert GoodRow(row);
    GoodRowIsMedia(row, media);
    var c := Normalized(row, media);
    if row.preferredPayloadType == 0 {
      SlotOfDynamic(st.next);
      c := c.(preferredPayloadType := DYNAMIC_PAYLOAD_TYPES[st.next]);
    }
    if row.kind == "video" {
      SlotOfDynamic(st.next + 1);
      VideoBlock(c, DYNAMIC_PAYLOAD_TYPES[st.next + 1]);
      block := [c, RtxFor(c, DYNAMIC_PAYLOAD_TYPES[st.next + 1])];
    } else {
      AudioBlock(c);
      block := [c];
    }
  }

  lemma AppendBlock(cs: seq<Codec>, block: seq<Codec>, next: int, next': int)
    requires RouterCodecs(cs) && SlotsIncrease(cs, next)
    requires RouterCodecs(block) && SlotsIncrease(block, next') && next <= next'
    requires forall i :: 0 <= i < |block| && block[i].preferredPayloadType !in STATIC_PAYLOAD_TYPES ==>
               Slot(block[i].preferredPayloadType) >= next
    ensures RouterCodecs(cs + block) && SlotsIncrease(cs + block, next')
  {
    var all := cs + block;
    forall i | 0 <= i < |all|
      ensures GoodAt(all, i)
    {
      if i < |cs| {
        assert GoodAt(cs, i);
      } else {
        assert GoodAt(block, i - |cs|);
      }
    }
  }

  lemma {:induction false} AllocateIsGood(table: seq<Codec>, medias: seq<Codec>)
    requires GoodTable(table) && Allocate(table, medias).Ok?
    ensures var st := Allocate(table, medias).value;
            RouterCodecs(st.codecs) && SlotsIncrease(st.codecs, st.next) && st.next <= 88
  {
    if medias != [] {
      var last := |medias| - 1;
      AllocateIsGood(table, medias[..last]);
      var before := Allocate(table, medias[..last]).value;
      var after := Allocate(table, medias).value;
      var block := BlockIsGood(table, before, medias[last]);
      AppendBlock(before.codecs, block, before.next, after.next);
    }
  }

  /** How many codecs a list of media codecs yields: two for each video codec, one for each audio codec. */
  function Yield(table: seq<Codec>, medias: seq<Codec>): nat
    requires forall i :: 0 <= i < |medias| ==> Supported(table, medias[i])
  {
    if medias == [] then 0
    else
      var n := |medias| - 1;
      Yield(table, medias[..n]) + if RowOf(table, medias[n]).kind == "video" then 2 else 1
  }

  /**
   * At the place `at` there is the row of the table that `media` asks for, with
   * its static payload type or the next dynamic one, its own parameters or the
   * row's, and then its RTX with the dynamic payload type after that.
   */
  ghost predicate HoldsAt(table: seq<Codec>, st: Allocation, at: nat, demand: nat, media: Codec)
    requires Supported(table, media)
  {
    var row := RowOf(table, media);
    && at < |st.codecs| == |st.rows|
    && var c := st.codecs[at];
       && ToLower(c.mimeType) == ToLower(media.mimeType)
       && c.clockRate == media.clockRate
       && c.kind == row.kind
       && c.channels == (if row.kind == "video" then 0 else if row.channels > 0 then row.channels else 1)
       && c.rtcpFeedback == row.rtcpFeedback
       && (if row.parameters.Some? then st.rows[at] == FirstMatch(media, table, false)
           else st.rows[at] == None && c.parameters == Some(Merged(NO_PARAMETERS, media)))
       && (if row.preferredPayloadType != 0 then c.preferredPayloadType == row.preferredPayloadType
           else demand < 88 && c.preferredPayloadType == DYNAMIC_PAYLOAD_TYPES[demand])
       && (row.kind == "video" ==>
             && at + 1 < |st.codecs| && demand + 1 < 88
             && st.codecs[at + 1].preferredPayloadType == DYNAMIC_PAYLOAD_TYPES[demand + 1])
  }

  /** One media codec adds what it asks for at the end, and leaves what was there. */
  lemma ExtendHolds(table: seq<Codec>, st: Allocation, media: Codec)
    requires GoodTable(table) && Supported(table, media) && Extend(table, st, media).Ok? && |st.rows| == |st.codecs|
    ensures var st' := Extend(table, st, media).value;
            && st.codecs <= st'.codecs && st.rows <= st'.rows
            && |st'.codecs| == |st.codecs| + (if RowOf(table, media).kind == "video" then 2 else 1)
            && HoldsAt(table, st', |st.codecs|, st.next, media)
  {
    hide MergeParameters, Answer, ToLower;
    assert GoodRow(RowOf(table, media));
  }

  /** The i-th media codec is where the demands of the ones before it say, in format and payload types. */
  lemma {:induction false} AllocatedAt(table: seq<Codec>, medias: seq<Codec>, i: nat)
    requires GoodTable(table) && Allocate(table, medias).Ok?
    requires forall k :: 0 <= k < |medias| ==> Supported(table, medias[k])
    ensures var st := Allocate(table, medias).value; |st.codecs| == |st.rows| == Yield(table, medias)
    ensures i < |medias| ==>
              HoldsAt(table, Allocate(table, medias).value,
                      Yield(table, medias[..i]), Demand(table, medias[..i]), medias[i])
  {
    hide Supported, HoldsAt, Extend, GoodTable;
    if medias != [] {
      var n := |medias| - 1;
      var prefix, final := medias[..n], medias[n];
      var before := Allocate(table, prefix).value;
      assert Allocate(table, medias) == Extend(table, before, final);
      AllocatedAt(table, prefix, i);
      AllocateDemand(table, prefix);
      ExtendHolds(table, before, final);
      HoldsBounds(table, Allocate(table, medias).value, |before.codecs|, before.next, final);
      if i < n {
        assert prefix[..i] == medias[..i];
        HoldsLonger(table, before, Allocate(table, medias).value,
                    Yield(table, medias[..i]), Demand(table, medias[..i]), medias[i]);
      }
    }
  }

  lemma HoldsBounds(table: seq<Codec>, st: Allocation, at: nat, demand: nat, media: Codec)
    requires Supported(table, media) && HoldsAt(table, st, at, demand, media)
    ensures |st.codecs| == |st.rows|
  {
  }

  lemma HoldsLonger(table: seq<Codec>, st: Allocation, st': Allocation, at: nat, demand: nat, media: Codec)
    requires Supported(table, media) && HoldsAt(table, st, at, demand, media)
    requires st.codecs <= st'.codecs && st.rows <= st'.rows && |st'.codecs| == |st'.rows|
    ensures HoldsAt(table, st', at, demand, media)
  {
    hide Answer, ToLower, FirstMatch, Merged;
    assert st'.codecs[at] == st.codecs[at] && st'.rows[at] == st.rows[at];
    assert at + 1 < |st.codecs| ==> st'.codecs[at + 1] == st.codecs[at + 1];
  }

  /** The RTX that follows a video codec is the only one associated with it. */
  lemma RtxIsUnique(cs: seq<Codec>, i: nat, j: nat)
    requires RouterCodecs(cs) && SlotsIncrease(cs, 88)
    requires i < |cs| && IsMedia(cs[i]) && cs[i].kind == "video"
    requires j < |cs| && !IsMedia(cs[j])
    ensures cs[j].parameters.Some?
    ensures cs[j].parameters.value.apt == cs[i].preferredPayloadType <==> j == i + 1
  {
    assert GoodAt(cs, i) && GoodAt(cs, j) && GoodAt(cs, j - 1);
  }

  ghost predicate DistinctPayloadTypes(cs: seq<Codec>) {
    forall i, j :: 0 <= i < j < |cs| ==> cs[i].preferredPayloadType != cs[j].preferredPayloadType
  }

  /** Two codecs of a router share a payload type only if it is a static one. */
  lemma CollisionsAreStatic(cs: seq<Codec>, i: nat, j: nat)
    requires SlotsIncrease(cs, 88) && i < j < |cs|
    requires cs[i].preferredPayloadType == cs[j].preferredPayloadType
    ensures cs[i].preferredPayloadType in STATIC_PAYLOAD_TYPES
  {
  }

  /** The static payload types the media codecs ask for. */
  function StaticTypes(table: seq<Codec>, medias: seq<Codec>): set<int>
    requires forall i :: 0 <= i < |medias| ==> Supported(table, medias[i])
  {
    if medias == [] then {}
    else StaticTypes(table, medias[..|medias| - 1]) + {RowOf(table, medias[|medias| - 1]).preferredPayloadType} - {0}
  }

  /** No static payload type is asked for twice. */
  predicate NoStaticTwice(table: seq<Codec>, medias: seq<Codec>)
    requires forall i :: 0 <= i < |medias| ==> Supported(table, medias[i])
  {
    medias != [] ==>
      var prefix, row := medias[..|medias| - 1], RowOf(table, medias[|medias| - 1]);
      NoStaticTwice(table, prefix) && row.preferredPayloadType !in StaticTypes(table, prefix)
  }

  ghost predicate HasStaticTypes(cs: seq<Codec>, types: set<int>) {
    && types <= STATIC_PAYLOAD_TYPES
    && (forall i :: 0 <= i < |cs| && cs[i].preferredPayloadType in STATIC_PAYLOAD_TYPES ==>
          cs[i].preferredPayloadType in types)
    && (forall p :: p in types ==> exists i :: 0 <= i < |cs| && cs[i].preferredPayloadType == p)
  }

  /** The payload types of one block: a single static one, or only fresh dynamic ones. */
  lemma BlockTypes(table: seq<Codec>, st: Allocation, media: Codec, block: seq<Codec>)
    requires GoodTable(table) && st.next <= 88 && Extend(table, st, media).Ok?
    requires Extend(table, st, media).value.codecs == st.codecs + block
    ensures var p := RowOf(table, media).preferredPayloadType;
            if p == 0 then forall i :: 0 <= i < |block| ==> block[i].preferredPayloadType !in STATIC_PAYLOAD_TYPES
            else p in STATIC_PAYLOAD_TYPES && |block| == 1 && block[0].preferredPayloadType == p
  {
    var row := RowOf(table, media);
    assert GoodRow(row);
    assert block == Extend(table, st, media).value.codecs[|st.codecs|..];
    if row.preferredPayloadType == 0 {
      SlotOfDynamic(st.next);
      if row.kind == "video" {
        SlotOfDynamic(st.next + 1);
      }
    }
  }

  lemma AppendStatic(cs: seq<Codec>, c: Codec, types: set<int>)
    requires HasStaticTypes(cs, types) && c.preferredPayloadType in STATIC_PAYLOAD_TYPES
    ensures HasStaticTypes(cs + [c], types + {c.preferredPayloadType})
    ensures DistinctPayloadTypes(cs + [c]) <==> DistinctPayloadTypes(cs) && c.preferredPayloadType !in types
  {
    var all := cs + [c];
    forall p | p in types + {c.preferredPayloadType}
      ensures exists i :: 0 <= i < |all| && all[i].preferredPayloadType == p
    {
      if p == c.preferredPayloadType {
        assert all[|cs|].preferredPayloadType == p;
      } else {
        var i :| 0 <= i < |cs| && cs[i].preferredPayloadType == p;
        assert all[i] == cs[i];
      }
    }
    assert forall i :: 0 <= i < |cs| ==> all[i] == cs[i];
    if c.preferredPayloadType in types {
      var i :| 0 <= i < |cs| && cs[i].preferredPayloadType == c.preferredPayloadType;
      assert all[i].preferredPayloadType == all[|cs|].preferredPayloadType;
    }
  }

  lemma AppendDynamic(cs: seq<Codec>, block: seq<Codec>, types: set<int>)
    requires HasStaticTypes(cs, types) && SlotsIncrease(cs + block, 88)
    requires forall i :: 0 <= i < |block| ==> block[i].preferredPayloadType !in STATIC_PAYLOAD_TYPES
    ensures HasStaticTypes(cs + block, types)
    ensures DistinctPayloadTypes(cs + block) <==> DistinctPayloadTypes(cs)
  {
    var all := cs + block;
    forall p | p in types
      ensures exists i :: 0 <= i < |all| && all[i].preferredPayloadType == p
    {
      var i :| 0 <= i < |cs| && cs[i].preferredPayloadType == p;
      assert all[i] == cs[i];
    }
    assert forall i :: 0 <= i < |cs| ==> all[i] == cs[i];
    assert forall i :: |cs| <= i < |all| ==> all[i] == block[i - |cs|];
  }

  lemma NoCodecsNoTypes()
    ensures HasStaticTypes([], {}) && DistinctPayloadTypes([])
  {
  }

  lemma {:induction false} AllocateDistinct(table: seq<Codec>, medias: seq<Codec>)
    requires GoodTable(table) && Allocate(table, medias).Ok?
    requires forall i :: 0 <= i < |medias| ==> Supported(table, medias[i])
    ensures var cs := Allocate(table, medias).value.codecs;
            && HasStaticTypes(cs, StaticTypes(table, medias))
            && (DistinctPayloadTypes(cs) <==> NoStaticTwice(table, medias))
  {
    hide HasStaticTypes, DistinctPayloadTypes, RouterCodecs, GoodTable, Extend, Supported;
    AllocateIsGood(table, medias);
    if medias == [] {
      NoCodecsNoTypes();
    } else {
      var prefix, final := medias[..|medias| - 1], medias[|medias| - 1];
      AllocateIsGood(table, prefix);
      AllocateDistinct(table, prefix);
      var before := Allocate(table, prefix).value;
      assert Allocate(table, medias) == Extend(table, before, final);
      var block := BlockIsGood(table, before, final);
      BlockTypes(table, before, final, block);
      var types := StaticTypes(table, prefix);
      if RowOf(table, final).preferredPayloadType == 0 {
        AppendDynamic(before.codecs, block, types);
        assert StaticTypes(table, medias) == types;
      } else {
        AppendStatic(before.codecs, block[0], types);
        assert block == [block[0]];
        assert StaticTypes(table, medias) == types + {block[0].preferredPayloadType};
      }
    }
  }
}
