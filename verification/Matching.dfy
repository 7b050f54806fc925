/** Codec and header extension matching (mediasoup/ortc.go, the unexported helpers). */
module Matching {
  import opened H264Profile
  import opened RtpTypes
  import opened Wrappers

  /** checkCodecCapability and checkCodecParameters. */
  predicate ValidCodec(codec: Codec) {
    codec.mimeType != "" && codec.clockRate != 0
  }

  predicate IsAudioType(mimeType: string) {
    HasPrefix(ToLower(mimeType), "audio/")
  }

  predicate IsH264(mimeType: string) {
    ToLower(mimeType) == "video/h264"
  }

  /** The H264 parameters of a codec; absent parameters count as empty ones. */
  function H264Of(codec: Codec): H264Parameters {
    if codec.parameters.Some? then codec.parameters.value.h264 else NO_H264
  }

  /** The part of the comparison that does not look at codec parameters. */
  predicate SameFormat(a: Codec, b: Codec) {
    && ToLower(a.mimeType) == ToLower(b.mimeType)
    && a.clockRate == b.clockRate
    && !(IsAudioType(a.mimeType) && a.channels > 0 && b.channels > 0 && a.channels != b.channels)
  }

  /** matchedCodecs, without the rewriting; `strict` also compares H264 profiles. */
  predicate Matches(a: Codec, b: Codec, strict: bool) {
    && SameFormat(a, b)
    && (IsH264(a.mimeType) ==>
          && H264Of(a).packetizationMode == H264Of(b).packetizationMode
          && (strict ==> Answer(H264Of(a), H264Of(b)).Some?))
  }

  /**
   * The rewriting of matchedCodecs on a strict match, as the owner of `a` sees
   * it. The negotiated profile-level-id is written through the parameters
   * pointer; without parameters the fresh ones are attached to a copy of the
   * codec only, and are lost.
   */
  function Adjusted(a: Codec, b: Codec): Codec
    requires Matches(a, b, true)
  {
    if IsH264(a.mimeType) && a.parameters.Some? then
      var parameters := a.parameters.value;
      a.(parameters := Some(parameters.(h264 := parameters.h264.(
        profileLevelId := Answer(H264Of(a), H264Of(b)).value))))
    else
      a
  }

  /** selectMatchedCodecs as the index of the codec it returns. */
  function FirstMatch(a: Codec, bs: seq<Codec>, strict: bool): (r: Option<nat>)
    ensures r.Some? ==> r.value < |bs| && Matches(a, bs[r.value], strict)
                        && forall j :: 0 <= j < r.value ==> !Matches(a, bs[j], strict)
    ensures r.None? ==> forall j :: 0 <= j < |bs| ==> !Matches(a, bs[j], strict)
  {
    if bs == [] then
      None
    else
      var last := |bs| - 1;
      var r := FirstMatch(a, bs[..last], strict);
      if r.Some? then r else if Matches(a, bs[last], strict) then Some(last) else None
  }

  method SelectMatchedCodecs(a: Codec, bs: seq<Codec>, strict: bool) returns (r: Option<nat>)
    ensures r == FirstMatch(a, bs, strict)
  {
    for i := 0 to |bs|
      invariant forall j :: 0 <= j < i ==> !Matches(a, bs[j], strict)
    {
      if Matches(a, bs[i], strict) {
        return Some(i);
      }
    }
    return None;
  }

  predicate MatchHeaderExtensions(a: HeaderExtension, b: HeaderExtension) {
    !(a.kind != "" && b.kind != "" && a.kind != b.kind) && a.uri == b.uri
  }

  function FirstExtension(a: HeaderExtension, bs: seq<HeaderExtension>): (r: Option<nat>)
    ensures r.Some? ==> r.value < |bs| && MatchHeaderExtensions(a, bs[r.value])
                        && forall j :: 0 <= j < r.value ==> !MatchHeaderExtensions(a, bs[j])
    ensures r.None? ==> forall j :: 0 <= j < |bs| ==> !MatchHeaderExtensions(a, bs[j])
  {
    if bs == [] then
      None
    else
      var last := |bs| - 1;
      var r := FirstExtension(a, bs[..last]);
      if r.Some? then r else if MatchHeaderExtensions(a, bs[last]) then Some(last) else None
  }

  /**
   * Two codecs match exactly when they have the same mime type up to case, the
   * same clock rate, no different channels if they are audio and, for H264, the
   * same packetization mode and, if strict, the same profile.
   */
  lemma MatchesIff(a: Codec, b: Codec, strict: bool)
    ensures Matches(a, b, strict) <==>
            && ToLower(a.mimeType) == ToLower(b.mimeType)
            && a.clockRate == b.clockRate
            && (HasPrefix(ToLower(a.mimeType), "audio/") ==>
                  a.channels <= 0 || b.channels <= 0 || a.channels == b.channels)
            && (ToLower(a.mimeType) == "video/h264" ==>
                  && H264Of(a).packetizationMode == H264Of(b).packetizationMode
                  && (strict ==> IsSameProfile(H264Of(a).profileLevelId, H264Of(b).profileLevelId)))
  {
    AnswerDefined(H264Of(a), H264Of(b));
    hide Answer, ToLower;
  }

  // ---------------------------------------------------------------- what matching preserves

  /** `a` once it has been matched with `b`: the format of `b`, the rewritten parameters of `a`. */
  predicate TakesFormatOf(a': Codec, a: Codec, b: Codec)
    requires Matches(a, b, true)
  {
    && a'.mimeType == b.mimeType
    && a'.clockRate == b.clockRate
    && a'.channels == b.channels
    && a'.parameters == Adjusted(a, b).parameters
  }

  /** Matching again with the same codec succeeds and rewrites nothing. */
  lemma RematchIsFixpoint(a': Codec, a: Codec, b: Codec)
    requires Matches(a, b, true) && TakesFormatOf(a', a, b)
    ensures Matches(a', b, true)
    ensures Adjusted(a', b).parameters == a'.parameters
  {
    if IsH264(a.mimeType) && a.parameters.Some? {
      AnswerIsFixpoint(H264Of(a), H264Of(b));
    }
  }

  /** A codec that took the format of `b` matches nothing the original did not match. */
  lemma RematchIsNoWeaker(a': Codec, a: Codec, b: Codec, other: Codec)
    requires Matches(a, b, true) && TakesFormatOf(a', a, b)
    requires IsAudioType(b.mimeType) ==> b.channels > 0
    requires Matches(a', other, true)
    ensures Matches(a, other, true)
  {
    if IsH264(a.mimeType) && a.parameters.Some? {
      AnswerDefined(H264Of(a'), H264Of(other));
      AnswerDefined(H264Of(a), H264Of(other));
      AnswerKeepsProfile(H264Of(a), H264Of(b), H264Of(other).profileLevelId);
    }
  }

  /** Hence the first match stays the first match. */
  lemma RematchSelectsSame(a': Codec, a: Codec, bs: seq<Codec>)
    requires FirstMatch(a, bs, true).Some?
    requires TakesFormatOf(a', a, bs[FirstMatch(a, bs, true).value])
    requires forall i :: 0 <= i < |bs| && IsAudioType(bs[i].mimeType) ==> bs[i].channels > 0
    ensures FirstMatch(a', bs, true) == FirstMatch(a, bs, true)
    ensures Adjusted(a', bs[FirstMatch(a, bs, true).value]).parameters == a'.parameters
  {
    var k := FirstMatch(a, bs, true).value;
    RematchIsFixpoint(a', a, bs[k]);
    forall j | 0 <= j < k
      ensures !Matches(a', bs[j], true)
    {
      if Matches(a', bs[j], true) {
        RematchIsNoWeaker(a', a, bs[k], bs[j]);
      }
    }
  }
}
