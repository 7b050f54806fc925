/**
 * GenerateRouterRtpCapabilities (mediasoup/ortc.go) with the parameters that
 * capabilities share: a row of the supported table holds its parameters behind
 * a pointer, every codec made from the row keeps that pointer, and merging a
 * media codec's parameters writes through it.
 */
module RouterGeneration {
  import opened H264Profile
  import opened Matching
  import opened RouterCapabilities
  import opened RtpTypes
  import opened SupportedCapabilities
  import opened Wrappers

  // ---------------------------------------------------------------- rows that are written to

  /** Merging into row `k`, if it has parameters. */
  function MergeRow(table: seq<Codec>, k: nat, media: Codec): (r: seq<Codec>)
    requires k < |table|
    ensures |r| == |table|
  {
    if table[k].parameters.None? then table
    else table[k := table[k].(parameters := Some(Merged(table[k].parameters.value, media)))]
  }

  /** Merging into the row that the media codec selects, if any. */
  function MergeSelected(table: seq<Codec>, before: seq<Codec>, media: Codec): (r: seq<Codec>)
    requires |before| == |table|
    ensures |r| == |table|
  {
    var k := FirstMatch(media, table, false);
    if k.Some? then MergeRow(before, k.value, media) else before
  }

  /** The table after every media codec has been merged into the row it selects. */
  function RowsAfter(table: seq<Codec>, medias: seq<Codec>): (r: seq<Codec>)
    ensures |r| == |table|
  {
    if medias == [] then table
    else MergeSelected(table, RowsAfter(table, medias[..|medias| - 1]), medias[|medias| - 1])
  }

  /** The two tables differ in parameter values only, and not in what matching looks at. */
  ghost predicate Alike(table: seq<Codec>, table': seq<Codec>) {
    && |table'| == |table|
    && forall j :: 0 <= j < |table| ==> AlikeRows(table[j], table'[j])
  }

  predicate AlikeRows(row: Codec, row': Codec) {
    && row' == row.(parameters := row'.parameters)
    && (row'.parameters.Some? <==> row.parameters.Some?)
    && (IsH264(row.mimeType) ==> H264Of(row').packetizationMode == H264Of(row).packetizationMode)
  }

  lemma AlikeSelects(media: Codec, table: seq<Codec>, table': seq<Codec>)
    requires Alike(table, table')
    ensures FirstMatch(media, table', false) == FirstMatch(media, table, false)
  {
    hide Answer, ToLower, FirstMatch;
    forall j | 0 <= j < |table|
      ensures Matches(media, table'[j], false) <==> Matches(media, table[j], false)
    {
      assert AlikeRows(table[j], table'[j]);
    }
  }

  /** A row is only merged with codecs that match it, so its packetization mode stays. */
  lemma MergeKeepsAlike(table: seq<Codec>, table': seq<Codec>, k: nat, media: Codec)
    requires Alike(table, table') && FirstMatch(media, table, false) == Some(k)
    ensures Alike(table, MergeRow(table', k, media))
  {
    hide Answer, ToLower;
    assert AlikeRows(table[k], table'[k]) && Matches(media, table[k], false);
    var table'' := MergeRow(table', k, media);
    assert AlikeRows(table[k], table''[k]);
    forall j | 0 <= j < |table|
      ensures AlikeRows(table[j], table''[j])
    {
      assert j == k || table''[j] == table'[j];
    }
  }

  lemma {:induction false} RowsStayAlike(table: seq<Codec>, medias: seq<Codec>)
    ensures Alike(table, RowsAfter(table, medias))
  {
    hide Answer, ToLower, FirstMatch, MergeRow;
    if medias != [] {
      var n := |medias| - 1;
      RowsStayAlike(table, medias[..n]);
      var k := FirstMatch(medias[n], table, false);
      if k.Some? {
        MergeKeepsAlike(table, RowsAfter(table, medias[..n]), k.value, medias[n]);
      }
    }
  }

  // ---------------------------------------------------------------- reading the parameters

  /** Codecs that share a row's parameters are media codecs without parameters of their own. */
  ghost predicate GoodSharing(st: Allocation, n: nat) {
    && |st.rows| == |st.codecs|
    && forall i :: 0 <= i < |st.rows| && st.rows[i].Some? ==> st.rows[i].value < n && IsMedia(st.codecs[i])
  }

  lemma ExtendSharing(table: seq<Codec>, st: Allocation, media: Codec)
    requires GoodTable(table) && GoodSharing(st, |table|) && Extend(table, st, media).Ok?
    ensures GoodSharing(Extend(table, st, media).value, |table|)
  {
    hide Answer, IsRtx;
    assert GoodRow(RowOf(table, media));
  }

  lemma {:induction false} AllocateSharing(table: seq<Codec>, medias: seq<Codec>)
    requires GoodTable(table) && Allocate(table, medias).Ok?
    ensures GoodSharing(Allocate(table, medias).value, |table|)
  {
    hide GoodTable, GoodSharing, Extend;
    if medias == [] {
      NothingIsShared(|table|);
    } else {
      var n := |medias| - 1;
      AllocateSharing(table, medias[..n]);
      ExtendSharing(table, Allocate(table, medias[..n]).value, medias[n]);
    }
  }

  lemma NothingIsShared(n: nat)
    ensures GoodSharing(Allocation([], [], 0), n)
  {
  }

  /** The capability at position `i`, with the parameters its pointer leads to. */
  function ReadAt(st: Allocation, table: seq<Codec>, i: nat): Codec
    requires GoodSharing(st, |table|) && i < |st.codecs|
  {
    if st.rows[i].Some? then st.codecs[i].(parameters := table[st.rows[i].value].parameters) else st.codecs[i]
  }

  function ReadAll(st: Allocation, table: seq<Codec>): (r: seq<Codec>)
    requires GoodSharing(st, |table|)
    ensures |r| == |st.codecs|
  {
    seq(|st.codecs|, i requires 0 <= i < |st.codecs| => ReadAt(st, table, i))
  }

  function Generate(medias: seq<Codec>): Result<RtpCapabilities> {
    if medias == [] then Err(TypeError)
    else
      match Allocate(SUPPORTED_CODECS, medias)
      case Err(e) => Err(e)
      case Ok(st) =>
        SupportedTableIsGood();
        AllocateSharing(SUPPORTED_CODECS, medias);
        Ok(RtpCapabilities(ReadAll(st, RowsAfter(SUPPORTED_CODECS, medias)), SUPPORTED_HEADER_EXTENSIONS, []))
  }

  lemma SupportedTableIsGood()
    ensures GoodTable(SUPPORTED_CODECS)
  {
    forall k | 0 <= k < |SUPPORTED_CODECS|
      ensures GoodRow(SUPPORTED_CODECS[k])
    {
      TableRows(k);
    }
  }

  // ---------------------------------------------------------------- the loop of the source

  /** One iteration: match, normalise, merge through the row, assign payload types, pair with RTX. */
  method AddCodec(ghost original: seq<Codec>, table: seq<Codec>, st: Allocation, media: Codec)
    returns (r: Result<Allocation>, table': seq<Codec>)
    requires Alike(original, table)
    ensures r == Extend(original, st, media)
    ensures r.Ok? ==>
              var k := FirstMatch(media, original, false); k.Some? && table' == MergeRow(table, k.value, media)
  {
    hide Answer, ToLower, Merged;
    table' := table;
    if !ValidCodec(media) {
      return Err(TypeError), table';
    }
    AlikeSelects(media, original, table);
    var row := SelectMatchedCodecs(media, table, false);
    if row == None {
      return Err(UnsupportedError), table';
    }
    var k := row.value;
    assert AlikeRows(original[k], table[k]);
    var codec, shares, next := Normalized(table[k], media), None, st.next;
    if table[k].parameters.Some? {
      shares := Some(k);
      table' := table[k := table[k].(parameters := Some(Merged(table[k].parameters.value, media)))];
    }
    if codec.preferredPayloadType == 0 {
      if next >= |DYNAMIC_PAYLOAD_TYPES| {
        return Err(AllocationError), table';
      }
      codec := codec.(preferredPayloadType := DYNAMIC_PAYLOAD_TYPES[next]);
      next := next + 1;
    }
    if codec.kind != "video" {
      return Ok(Allocation(st.codecs + [codec], st.rows + [shares], next)), table';
    }
    if next >= |DYNAMIC_PAYLOAD_TYPES| {
      return Err(AllocationError), table';
    }
    var rtx := RtxFor(codec, DYNAMIC_PAYLOAD_TYPES[next]);
    return Ok(Allocation(st.codecs + [codec, rtx], st.rows + [shares, None], next + 1)), table';
  }

  /** The loop, over any table. */
  method AllocateAll(original: seq<Codec>, medias: seq<Codec>) returns (r: Result<Allocation>, table: seq<Codec>)
    ensures r == Allocate(original, medias)
    ensures r.Ok? ==> table == RowsAfter(original, medias)
  {
    hide Extend, MergeRow, FirstMatch;
    var st := Allocation([], [], 0);
    table := original;
    assert medias[..0] == [];
    for i := 0 to |medias|
      invariant Allocate(original, medias[..i]) == Ok(st)
      invariant table == RowsAfter(original, medias[..i])
    {
      assert medias[..i + 1][..i] == medias[..i] && medias[..i + 1][i] == medias[i];
      RowsStayAlike(original, medias[..i]);
      r, table := AddCodec(original, table, st, medias[i]);
      if r.Err? {
        AllocateFailsEarly(original, medias, i + 1);
        return;
      }
      st := r.value;
    }
    assert medias[..|medias|] == medias;
    r := Ok(st);
  }

  method GenerateRouterRtpCapabilities(medias: seq<Codec>) returns (caps: Result<RtpCapabilities>)
    ensures caps == Generate(medias)
  {
    hide Allocate, RowsAfter;
    if |medias| == 0 {
      return Err(TypeError);
    }
    var r, table := AllocateAll(SUPPORTED_CODECS, medias);
    if r.Err? {
      return Err(r.error);
    }
    SupportedTableIsGood();
    AllocateSharing(SUPPORTED_CODECS, medias);
    return Ok(RtpCapabilities(ReadAll(r.value, table), SUPPORTED_HEADER_EXTENSIONS, []));
  }

  // ---------------------------------------------------------------- what generation gives

  /**
   * Generation succeeds exactly for the non-empty lists of supported codecs
   * whose dynamic audio codecs plus twice the video codecs number at most 88.
   */
  lemma GenerateSucceedsIff(medias: seq<Codec>)
    ensures Generate(medias).Ok? <==>
            && medias != []
            && (forall i :: 0 <= i < |medias| ==> Supported(SUPPORTED_CODECS, medias[i]))
            && Demand(SUPPORTED_CODECS, medias) <= 88
  {
    hide GoodTable, Allocate, Supported, Demand, RowsAfter, ReadAll;
    SupportedTableIsGood();
    AllocateSucceedsIff(SUPPORTED_CODECS, medias);
  }

  /** Which error generation ends with: that of the first media codec that is invalid, unsupported or one too many. */
  lemma GenerateErrorIs(medias: seq<Codec>, n: nat)
    requires n < |medias|
    requires forall i :: 0 <= i < n ==> Supported(SUPPORTED_CODECS, medias[i])
    requires Demand(SUPPORTED_CODECS, medias[..n]) <= 88
    ensures !ValidCodec(medias[n]) ==> Generate(medias) == Err(TypeError)
    ensures ValidCodec(medias[n]) && !Supported(SUPPORTED_CODECS, medias[n]) ==>
              Generate(medias) == Err(UnsupportedError)
    ensures Supported(SUPPORTED_CODECS, medias[n])
            && Demand(SUPPORTED_CODECS, medias[..n]) + Need(SUPPORTED_CODECS, medias[n]) > 88 ==>
              Generate(medias) == Err(AllocationError)
  {
    hide GoodTable, Supported, Demand, RowsAfter, ReadAll, FirstMatch, Need;
    SupportedTableIsGood();
    AllocateErrorIs(SUPPORTED_CODECS, medias, n);
  }

  /** Reading parameters changes neither the structure nor the payload types. */
  lemma ReadKeeps(st: Allocation, table: seq<Codec>, next: int)
    requires GoodSharing(st, |table|)
    ensures RouterCodecs(st.codecs) ==> RouterCodecs(ReadAll(st, table))
    ensures SlotsIncrease(st.codecs, next) ==> SlotsIncrease(ReadAll(st, table), next)
    ensures DistinctPayloadTypes(st.codecs) <==> DistinctPayloadTypes(ReadAll(st, table))
  {
    hide IsRtx, IsAudioType, Slot;
    var cs, cs' := st.codecs, ReadAll(st, table);
    forall i | 0 <= i < |cs|
      ensures cs'[i] == cs[i].(parameters := cs'[i].parameters) && (!IsMedia(cs[i]) ==> cs'[i] == cs[i])
    {
    }
    if RouterCodecs(cs) {
      forall i | 0 <= i < |cs'|
        ensures GoodAt(cs', i)
      {
        assert GoodAt(cs, i);
        if i + 1 < |cs| {
          assert GoodAt(cs, i + 1);
        }
      }
    }
  }

  lemma GeneratedCodecs(medias: seq<Codec>)
    requires Generate(medias).Ok?
    ensures var cs := Generate(medias).value.codecs;
            RouterCodecs(cs) && SlotsIncrease(cs, 88)
    ensures Generate(medias).value.headerExtensions == SUPPORTED_HEADER_EXTENSIONS
    ensures Generate(medias).value.fecMechanisms == []
  {
    hide GoodTable, Allocate, RowsAfter, ReadAll, RouterCodecs, GoodSharing;
    SupportedTableIsGood();
    AllocateIsGood(SUPPORTED_CODECS, medias);
    AllocateSharing(SUPPORTED_CODECS, medias);
    ReadKeeps(Allocate(SUPPORTED_CODECS, medias).value, RowsAfter(SUPPORTED_CODECS, medias), 88);
  }

  /** All payload types of a router are distinct exactly when no static one is asked for twice. */
  lemma DistinctIffNoStaticTwice(medias: seq<Codec>)
    requires Generate(medias).Ok?
    ensures forall i :: 0 <= i < |medias| ==> Supported(SUPPORTED_CODECS, medias[i])
    ensures DistinctPayloadTypes(Generate(medias).value.codecs) <==> NoStaticTwice(SUPPORTED_CODECS, medias)
  {
    hide GoodTable, Allocate, RowsAfter, ReadAll, GoodSharing, Supported, Demand, StaticTypes, NoStaticTwice,
      HasStaticTypes, DistinctPayloadTypes;
    SupportedTableIsGood();
    AllocateSucceedsIff(SUPPORTED_CODECS, medias);
    AllocateDistinct(SUPPORTED_CODECS, medias);
    AllocateSharing(SUPPORTED_CODECS, medias);
    ReadKeeps(Allocate(SUPPORTED_CODECS, medias).value, RowsAfter(SUPPORTED_CODECS, medias), 88);
  }

  // ---------------------------------------------------------------- parameters

  /** The parameters that the i-th media codec's capability ends up with. */
  function FinalParameters(table: seq<Codec>, medias: seq<Codec>, i: nat): CodecParameters
    requires i < |medias| && Supported(table, medias[i])
  {
    RowsStayAlike(table, medias);
    var k := FirstMatch(medias[i], table, false).value;
    assert AlikeRows(table[k], RowsAfter(table, medias)[k]);
    if table[k].parameters.None? then Merged(NO_PARAMETERS, medias[i])
    else RowsAfter(table, medias)[k].parameters.value
  }

  /** The parameters it asks for: those of its row with its own merged in. */
  function OwnParameters(table: seq<Codec>, media: Codec): CodecParameters
    requires Supported(table, media)
  {
    var row := RowOf(table, media);
    Merged(if row.parameters.Some? then row.parameters.value else NO_PARAMETERS, media)
  }

  /**
   * At the place `at` there is the capability that `media` asks for, with its
   * static payload type or the next dynamic one and the given parameters, and
   * then its RTX with the dynamic payload type after that.
   */
  ghost predicate CapabilityAt(
      table: seq<Codec>, cs: seq<Codec>, at: nat, demand: nat, media: Codec, parameters: CodecParameters)
    requires Supported(table, media)
  {
    var row := RowOf(table, media);
    && at < |cs|
    && ToLower(cs[at].mimeType) == ToLower(media.mimeType)
    && cs[at].clockRate == media.clockRate
    && cs[at].kind == row.kind
    && cs[at].channels == (if row.kind == "video" then 0 else if row.channels > 0 then row.channels else 1)
    && cs[at].rtcpFeedback == row.rtcpFeedback
    && cs[at].parameters == Some(parameters)
    && (if row.preferredPayloadType != 0 then cs[at].preferredPayloadType == row.preferredPayloadType
        else demand < 88 && cs[at].preferredPayloadType == DYNAMIC_PAYLOAD_TYPES[demand])
    && (row.kind == "video" ==>
          && at + 1 < |cs| && demand + 1 < 88
          && cs[at + 1].preferredPayloadType == DYNAMIC_PAYLOAD_TYPES[demand + 1])
  }

  lemma ReadHolds(table: seq<Codec>, medias: seq<Codec>, i: nat, st: Allocation, at: nat, demand: nat)
    requires i < |medias| && Supported(table, medias[i]) && HoldsAt(table, st, at, demand, medias[i])
    requires GoodSharing(st, |table|)
    ensures CapabilityAt(
              table, ReadAll(st, RowsAfter(table, medias)), at, demand, medias[i], FinalParameters(table, medias, i))
  {
    hide Answer, ToLower, Merged, RowsAfter, IsRtx;
    RowsStayAlike(table, medias);
    var k := FirstMatch(medias[i], table, false).value;
    assert AlikeRows(table[k], RowsAfter(table, medias)[k]);
  }

  /** The i-th media codec's capability: place, format, payload types and final parameters. */
  lemma GeneratedAt(medias: seq<Codec>, i: nat)
    requires Generate(medias).Ok? && i < |medias|
    ensures forall j :: 0 <= j < |medias| ==> Supported(SUPPORTED_CODECS, medias[j])
    ensures |Generate(medias).value.codecs| == Yield(SUPPORTED_CODECS, medias)
    ensures CapabilityAt(
              SUPPORTED_CODECS, Generate(medias).value.codecs,
              Yield(SUPPORTED_CODECS, medias[..i]), Demand(SUPPORTED_CODECS, medias[..i]),
              medias[i], FinalParameters(SUPPORTED_CODECS, medias, i))
  {
    hide GoodTable, Allocate, RowsAfter, ReadAll, GoodSharing, Supported, Demand, Yield, HoldsAt, CapabilityAt,
      FinalParameters;
    SupportedTableIsGood();
    AllocateSucceedsIff(SUPPORTED_CODECS, medias);
    AllocateSharing(SUPPORTED_CODECS, medias);
    AllocatedAt(SUPPORTED_CODECS, medias, i);
    ReadHolds(SUPPORTED_CODECS, medias, i, Allocate(SUPPORTED_CODECS, medias).value,
              Yield(SUPPORTED_CODECS, medias[..i]), Demand(SUPPORTED_CODECS, medias[..i]));
  }

  // ---------------------------------------------------------------- which parameters survive

  datatype Field =
    | PacketizationMode
    | ProfileLevel
    | LevelAsymmetryAllowed
    | Apt
    | SpropStereo
    | Useinbandfec
    | Usedtx
    | Maxplaybackrate
    | MinBitrate
    | MaxBitrate
    | StartBitrate

  datatype Value = Number(n: int) | Text(s: string)

  function Get(p: CodecParameters, f: Field): Value {
    match f
    case PacketizationMode => Number(p.h264.packetizationMode)
    case ProfileLevel => Text(p.h264.profileLevelId)
    case LevelAsymmetryAllowed => Number(p.h264.levelAsymmetryAllowed)
    case Apt => Number(p.apt)
    case SpropStereo => Number(p.spropStereo)
    case Useinbandfec => Number(p.useinbandfec)
    case Usedtx => Number(p.usedtx)
    case Maxplaybackrate => Number(p.maxplaybackrate)
    case MinBitrate => Number(p.xGoogleMinBitrate)
    case MaxBitrate => Number(p.xGoogleMaxBitrate)
    case StartBitrate => Number(p.xGoogleStartBitrate)
  }

  /** The media codec gives the field a value other than zero. */
  predicate Gives(media: Codec, f: Field) {
    media.parameters.Some? && Get(media.parameters.value, f) != Get(NO_PARAMETERS, f)
  }

  lemma MergedField(base: CodecParameters, media: Codec, f: Field)
    ensures Get(Merged(base, media), f) == if Gives(media, f) then Get(media.parameters.value, f) else Get(base, f)
  {
  }

  lemma FieldsDetermine(p: CodecParameters, q: CodecParameters)
    requires forall f :: Get(p, f) == Get(q, f)
    ensures p == q
  {
    assert Get(p, PacketizationMode) == Get(q, PacketizationMode) && Get(p, ProfileLevel) == Get(q, ProfileLevel);
    assert Get(p, LevelAsymmetryAllowed) == Get(q, LevelAsymmetryAllowed) && Get(p, Apt) == Get(q, Apt);
    assert Get(p, SpropStereo) == Get(q, SpropStereo) && Get(p, Useinbandfec) == Get(q, Useinbandfec);
    assert Get(p, Usedtx) == Get(q, Usedtx) && Get(p, Maxplaybackrate) == Get(q, Maxplaybackrate);
    assert Get(p, MinBitrate) == Get(q, MinBitrate) && Get(p, MaxBitrate) == Get(q, MaxBitrate);
    assert Get(p, StartBitrate) == Get(q, StartBitrate);
  }

  /** The media codec selects row `k` and gives field `f` a value. */
  predicate GivesRow(table: seq<Codec>, media: Codec, k: nat, f: Field) {
    FirstMatch(media, table, false) == Some(k) && Gives(media, f)
  }

  /** The last media codec that does so. */
  function LastGiver(table: seq<Codec>, medias: seq<Codec>, k: nat, f: Field): (r: Option<nat>)
    ensures r.Some? ==>
              && r.value < |medias| && GivesRow(table, medias[r.value], k, f)
              && forall j :: r.value < j < |medias| ==> !GivesRow(table, medias[j], k, f)
    ensures r.None? ==> forall j :: 0 <= j < |medias| ==> !GivesRow(table, medias[j], k, f)
  {
    hide GivesRow;
    if medias == [] then None
    else
      var n := |medias| - 1;
      if GivesRow(table, medias[n], k, f) then Some(n) else LastGiver(table, medias[..n], k, f)
  }

  /** One more media codec changes a field of row `k` exactly if it selects the row and gives the field. */
  lemma RowFieldOne(table: seq<Codec>, before: seq<Codec>, media: Codec, k: nat, f: Field)
    requires |before| == |table| && k < |table| && before[k].parameters.Some?
    ensures var row := MergeSelected(table, before, media)[k];
            && row.parameters.Some?
            && Get(row.parameters.value, f) ==
                 if GivesRow(table, media, k, f) then Get(media.parameters.value, f)
                 else Get(before[k].parameters.value, f)
  {
    hide FirstMatch, Get, Merged;
    MergedField(before[k].parameters.value, media, f);
  }

  /** A field of a row ends with what the last media codec that gives it says, whoever else has selected the row. */
  lemma {:induction false} RowField(table: seq<Codec>, medias: seq<Codec>, k: nat, f: Field)
    requires k < |table| && table[k].parameters.Some?
    ensures RowsAfter(table, medias)[k].parameters.Some?
    ensures var j := LastGiver(table, medias, k, f);
            Get(RowsAfter(table, medias)[k].parameters.value, f) ==
              if j.Some? then Get(medias[j.value].parameters.value, f) else Get(table[k].parameters.value, f)
  {
    if medias == [] {
      assert RowsAfter(table, medias) == table;
    } else {
      hide MergeSelected, Get, GivesRow;
      var n := |medias| - 1;
      RowField(table, medias[..n], k, f);
      RowFieldOne(table, RowsAfter(table, medias[..n]), medias[n], k, f);
      assert RowsAfter(table, medias) == MergeSelected(table, RowsAfter(table, medias[..n]), medias[n]);
      assert LastGiver(table, medias, k, f) ==
             if GivesRow(table, medias[n], k, f) then Some(n) else LastGiver(table, medias[..n], k, f);
    }
  }

  /**
   * A capability ends up with the parameters its media codec asks for exactly
   * when its row has none to share or, for every field, the last media codec
   * that selects the row and gives the field says what this one would have.
   */
  lemma ParametersKeptIff(table: seq<Codec>, medias: seq<Codec>, i: nat)
    requires i < |medias| && Supported(table, medias[i])
    ensures var own, k := OwnParameters(table, medias[i]), FirstMatch(medias[i], table, false).value;
            FinalParameters(table, medias, i) == own <==>
            table[k].parameters.None? ||
            forall f :: var j := LastGiver(table, medias, k, f);
              j.Some? ==> Get(medias[j.value].parameters.value, f) == Get(own, f)
  {
    hide FirstMatch, Get, Merged, RowsAfter, LastGiver, Matches;
    var own, k := OwnParameters(table, medias[i]), FirstMatch(medias[i], table, false).value;
    if table[k].parameters.Some? {
      forall f
        ensures var j := LastGiver(table, medias, k, f);
                Get(FinalParameters(table, medias, i), f) ==
                  if j.Some? then Get(medias[j.value].parameters.value, f) else Get(own, f)
      {
        RowField(table, medias, k, f);
        MergedField(table[k].parameters.value, medias[i], f);
      }
      if forall f :: Get(FinalParameters(table, medias, i), f) == Get(own, f) {
        FieldsDetermine(FinalParameters(table, medias, i), own);
      }
    }
  }

  // ---------------------------------------------------------------- two inputs

  /** What one or two supported codecs need and yield. */
  lemma TwoCodecs(table: seq<Codec>, a: Codec, b: Codec)
    requires Supported(table, a) && Supported(table, b)
    ensures Demand(table, []) == 0 && Demand(table, [a]) == Need(table, a)
    ensures [a][..0] == []
    ensures Demand(table, [a, b]) == Need(table, a) + Need(table, b)
    ensures Yield(table, []) == 0
    ensures Yield(table, [a]) == if RowOf(table, a).kind == "video" then 2 else 1
    ensures Yield(table, [a, b]) == Yield(table, [a]) + if RowOf(table, b).kind == "video" then 2 else 1
    ensures [a, b][..0] == [] && [a, b][..1] == [a]
  {
    hide Supported, Need;
    var one, two := [a], [a, b];
    assert one[..0] == [] && two[..0] == [] && two[..1] == one;
    assert Demand(table, one) == Need(table, a) && Demand(table, two) == Demand(table, one) + Need(table, b);
    assert Yield(table, one) == if RowOf(table, a).kind == "video" then 2 else 1;
  }

  function H264Media(id: string): Codec {
    NO_CODEC.(
      mimeType := "video/H264", clockRate := 90000,
      parameters := Some(NO_PARAMETERS.(h264 := H264Parameters(1, id, 0))))
  }

  lemma H264Row(id: string)
    ensures FirstMatch(H264Media(id), SUPPORTED_CODECS, false) == Some(20)
  {
    var media := H264Media(id);
    assert ToLower(media.mimeType) == "video/h264";
    forall j | 0 <= j < 20
      ensures !Matches(media, SUPPORTED_CODECS[j], false)
    {
      if j < 18 {
        assert ToLower(SUPPORTED_CODECS[j].mimeType)[0] == 'a';
      } else {
        assert |SUPPORTED_CODECS[j].mimeType| == 9;
      }
    }
    assert Matches(media, SUPPORTED_CODECS[20], false);
  }

  /** Two H264 codecs with different profiles generate two capabilities with the second profile. */
  lemma TwoProfilesCollapse(a: string, b: string)
    requires a != "" && b != ""
    ensures var caps := Generate([H264Media(a), H264Media(b)]);
            && caps.Ok? && |caps.value.codecs| == 4
            && caps.value.codecs[0].parameters.Some? && caps.value.codecs[2].parameters.Some?
            && caps.value.codecs[0].parameters.value.h264.profileLevelId == b
            && caps.value.codecs[2].parameters.value.h264.profileLevelId == b
  {
    hide Matches, Demand, Yield, Generate, RowsAfter, ReadAll;
    var table, medias := SUPPORTED_CODECS, [H264Media(a), H264Media(b)];
    H264Row(a);
    H264Row(b);
    assert table[20].kind == "video" && table[20].parameters.Some?;
    TwoCodecs(table, medias[0], medias[1]);
    GenerateSucceedsIff(medias);
    GeneratedAt(medias, 0);
    GeneratedAt(medias, 1);
    RowField(table, medias, 20, ProfileLevel);
    assert LastGiver(table, medias, 20, ProfileLevel) == Some(1);
  }

  /**
   * PCMU, whose payload type is 0 in section 6 of RFC 3551, gets a dynamic one:
   * the table's 0 reads as none.
   */
  lemma PcmuIsDynamic(medias: seq<Codec>)
    requires medias == [NO_CODEC.(mimeType := "audio/PCMU", clockRate := 8000)]
    ensures var caps := Generate(medias);
            caps.Ok? && |caps.value.codecs| == 1 && caps.value.codecs[0].preferredPayloadType == 100
  {
    var media, table := medias[0], SUPPORTED_CODECS;
    assert FirstMatch(media, table, false) == Some(1) by {
      assert ToLower("audio/opus")[6] == 'o' && ToLower("audio/PCMU")[6] == 'p';
      assert !Matches(media, table[0], false) && Matches(media, table[1], false);
    }
    hide Matches, Generate, RowsAfter, ReadAll;
    assert table[1].kind == "audio" && table[1].preferredPayloadType == 0;
    TwoCodecs(table, media, media);
    hide Demand, Yield;
    GenerateSucceedsIff(medias);
    GeneratedAt(medias, 0);
  }

  function ComfortNoise(clockRate: int): Codec {
    NO_CODEC.(mimeType := "audio/CN", clockRate := clockRate)
  }

  lemma ComfortNoiseRow(clockRate: int, j: nat)
    requires (clockRate == 32000 && j == 11) || (clockRate == 16000 && j == 12)
    ensures FirstMatch(ComfortNoise(clockRate), SUPPORTED_CODECS, false) == Some(j)
  {
    var media := ComfortNoise(clockRate);
    assert ToLower("audio/CN") == "audio/cn";
    forall i | 0 <= i < j
      ensures !Matches(media, SUPPORTED_CODECS[i], false)
    {
      if i < 11 {
        assert |SUPPORTED_CODECS[i].mimeType| == 10;
      }
    }
    assert Matches(media, SUPPORTED_CODECS[j], false);
  }

  /** Comfort noise at two clock rates generates two capabilities with payload type 13. */
  lemma StaticTypeTwice(medias: seq<Codec>)
    requires medias == [ComfortNoise(32000), ComfortNoise(16000)]
    ensures var caps := Generate(medias);
            && caps.Ok? && |caps.value.codecs| == 2
            && caps.value.codecs[0].preferredPayloadType == 13
            && caps.value.codecs[1].preferredPayloadType == 13
  {
    ComfortNoiseRow(32000, 11);
    ComfortNoiseRow(16000, 12);
    hide Matches, Demand, Yield, Generate, RowsAfter, ReadAll;
    assert SUPPORTED_CODECS[11].preferredPayloadType == 13 && SUPPORTED_CODECS[12].preferredPayloadType == 13;
    assert SUPPORTED_CODECS[11].kind == "audio" && SUPPORTED_CODECS[12].kind == "audio";
    TwoCodecs(SUPPORTED_CODECS, medias[0], medias[1]);
    GenerateSucceedsIff(medias);
    GeneratedAt(medias, 0);
    GeneratedAt(medias, 1);
  }
}
