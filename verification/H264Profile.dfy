/**
 * The H.264 profile-level-id codec (mediasoup/h264profile/h264profile.go):
 * parsing, canonical printing, bit patterns and the level negotiated in an
 * SDP answer (sections 8.1 and 8.2.2 of RFC 6184).
 */
module H264Profile {
  import opened Bytes
  import opened Wrappers

  const PROFILE_CONSTRAINED_BASELINE: byte := 1
  const PROFILE_BASELINE: byte := 2
  const PROFILE_MAIN: byte := 3
  const PROFILE_CONSTRAINED_HIGH: byte := 4
  const PROFILE_HIGH: byte := 5

  const LEVEL1_B: byte := 0
  const LEVEL1: byte := 10
  const LEVEL1_1: byte := 11
  const LEVEL3_1: byte := 31

  datatype ProfileLevelId = ProfileLevelId(profile: byte, level: byte)

  const DEFAULT_PROFILE_LEVEL_ID := ProfileLevelId(PROFILE_CONSTRAINED_BASELINE, LEVEL3_1)

  /** The level_idc values other than 11, which denotes 1.1 or 1b. */
  predicate IsPlainLevel(idc: byte) {
    idc in {10, 12, 13, 20, 21, 22, 30, 31, 32, 40, 41, 42, 50, 51, 52}
  }

  /** The profiles and levels that have a canonical text. */
  predicate IsPrintable(id: ProfileLevelId) {
    && 1 <= id.profile <= 5
    && (id.level == LEVEL1_B ==> id.profile <= 3)
    && (id.level == LEVEL1_B || id.level == LEVEL1_1 || IsPlainLevel(id.level))
  }

  // ---------------------------------------------------------------- hexadecimal

  function HexDigit(n: nat): char
    requires n < 16
  {
    "0123456789abcdef"[n]
  }

  function HexValue(c: char): (v: Option<nat>)
    ensures v.Some? ==> v.value < 16
  {
    if '0' <= c <= '9' then Some(c as int - '0' as int)
    else if 'a' <= c <= 'f' then Some(c as int - 'a' as int + 10)
    else if 'A' <= c <= 'F' then Some(c as int - 'A' as int + 10)
    else None
  }

  /** The value of a string of hexadecimal digits, most significant first. */
  function HexNumber(s: string): Option<nat> {
    if s == [] then
      Some(0)
    else
      match (HexNumber(s[..|s| - 1]), HexValue(s[|s| - 1]))
      case (Some(n), Some(d)) => Some(16 * n + d)
      case _ => None
  }

  /**
   * strconv.ParseInt(s, 16, 32) with its error dropped: an optional sign, then
   * digits; zero when the syntax is wrong. It is only called on six characters,
   * so the value always fits.
   */
  function ParseInt16(s: string): int {
    var signed := s != [] && (s[0] == '+' || s[0] == '-');
    var digits := if signed then s[1..] else s;
    match HexNumber(digits)
    case Some(n) => if signed && s[0] == '-' then 0 - (n as int) else n
    case None => 0
  }

  predicate AllHex(s: string) {
    forall i :: 0 <= i < |s| ==> HexValue(s[i]).Some?
  }

  lemma {:induction false} HexNumberDomain(s: string)
    ensures HexNumber(s).Some? <==> AllHex(s)
    ensures HexNumber(s).Some? ==> HexNumber(s).value < Pow16(|s|)
  {
    if s != [] {
      var last := |s| - 1;
      HexNumberDomain(s[..last]);
      assert AllHex(s) <==> AllHex(s[..last]) && HexValue(s[last]).Some? by {
        assert forall i :: 0 <= i < last ==> s[..last][i] == s[i];
      }
    }
  }

  function Pow16(k: nat): nat {
    if k == 0 then 1 else 16 * Pow16(k - 1)
  }

  /** Three bytes written as six digits are read back as those bytes. */
  lemma HexNumberOfSix(s: string)
    requires |s| == 6 && AllHex(s)
    ensures HexNumber(s) == Some(
              65536 * (16 * HexValue(s[0]).value + HexValue(s[1]).value)
              + 256 * (16 * HexValue(s[2]).value + HexValue(s[3]).value)
              + 16 * HexValue(s[4]).value + HexValue(s[5]).value)
  {
    forall k | 0 <= k <= 6
      ensures HexNumber(s[..k]).Some?
    {
      HexNumberDomain(s[..k]);
    }
    assert s[..6] == s;
    forall k | 0 <= k < 6
      ensures HexNumber(s[..k + 1]).value == 16 * HexNumber(s[..k]).value + HexValue(s[k]).value
    {
      assert s[..k + 1][..k] == s[..k];
    }
    assert s[..0] == [];
  }

  // ---------------------------------------------------------------- bit patterns

  datatype BitPattern = BitPattern(mask: byte, maskedValue: byte) {
    predicate IsMatch(value: byte) {
      maskedValue == And(value, mask)
    }
  }

  function BitsOf(c: char, str: string): (bits: seq<bool>)
    ensures |bits| == |str|
  {
    seq(|str|, i requires 0 <= i < |str| => str[i] == c)
  }

  /** The characters that a byte has bits for: the last eight. */
  function LastEight(str: string): (r: string)
    ensures |r| <= 8 && (|str| <= 8 ==> r == str)
  {
    if |str| <= 8 then str else str[|str| - 8..]
  }

  /** The byte whose set bits are the positions of `c`, the last position being the lowest bit. */
  function ByteMask(c: char, str: string): byte {
    var bits := BitsOf(c, LastEight(str));
    FromBitsBound(bits);
    Pow2Grows(|bits|, 8);
    assert Pow2(8) == 256;
    FromBits(bits)
  }

  lemma {:induction false} Pow2Grows(m: nat, n: nat)
    requires m <= n
    ensures Pow2(m) <= Pow2(n)
  {
    if m < n {
      Pow2Grows(m, n - 1);
    }
  }

  lemma {:induction false} NoBits(n: nat)
    ensures FromBits(seq(n, _ => false)) == 0
  {
    if n > 0 {
      NoBits(n - 1);
      assert seq(n, _ => false)[..n - 1] == seq(n - 1, _ => false);
    }
  }

  /** byteMaskString: or-ing one shifted bit per matching position; a bit shifted out of the byte is lost. */
  method ByteMaskString(c: char, str: string) returns (mask: byte)
    ensures mask == ByteMask(c, str)
  {
    var acc := 0;
    ghost var n := |LastEight(str)|;
    ghost var skipped := |str| - n;
    ghost var bits := seq(n, _ => false);
    NoBits(n);
    for i := 0 to |str|
      invariant |bits| == n && acc == FromBits(bits)
      invariant forall k :: 0 <= k < n ==> bits[k] == (skipped + k < i && str[skipped + k] == c)
    {
      if str[i] == c {
        var shift := |str| - 1 - i;
        if shift < 8 {
          OrSingleBit(bits, i - skipped);
          acc := Or(acc, Pow2(shift));
          bits := bits[i - skipped := true];
        } else {
          OrZero(acc);
          acc := Or(acc, 0);
        }
      }
    }
    assert bits == BitsOf(c, LastEight(str));
    assert acc == ByteMask(c, str);
    mask := acc;
  }

  function NewBitPattern(str: string): BitPattern
    requires |str| == 8
  {
    BitPattern(255 - ByteMask('x', str), ByteMask('1', str))
  }

  /** One position of a pattern: x matches both bits, 1 a set bit, anything else a clear one. */
  predicate MatchesAt(str: string, value: byte, i: nat)
    requires i < |str| == 8
  {
    str[i] == 'x' || (BitAt(value, 7 - i) <==> str[i] == '1')
  }

  /** A masked comparison holds exactly when the bits kept by the mask are the ones asked for. */
  lemma MaskedComparison(ones: seq<bool>, bits: seq<bool>, mask: seq<bool>)
    requires |ones| == |bits| == |mask|
    ensures FromBits(ones) == And(FromBits(bits), FromBits(mask))
       <==> forall i :: 0 <= i < |mask| ==> ones[i] == (bits[i] && mask[i])
  {
    AndOfFromBits(bits, mask);
    var kept := AndBits(bits, mask);
    if FromBits(ones) == FromBits(kept) {
      FromBitsInjective(ones, kept);
    } else {
      assert ones != kept;
    }
  }

  /** isMatch agrees with the positionwise meaning, for every string of eight characters. */
  lemma BitPatternMeaning(str: string, value: byte)
    requires |str| == 8
    ensures NewBitPattern(str).IsMatch(value) <==> forall i :: 0 <= i < 8 ==> MatchesAt(str, value, i)
  {
    hide BitAt, And, ToBits, FromBits;
    var n := |str|;
    var xs, ones, bits := BitsOf('x', str), BitsOf('1', str), ToBits(value, n);
    assert Pow2(8) == 256;
    FromToBits(value, n);
    ComplementOfFromBits(xs);
    MaskedComparison(ones, bits, NotBits(xs));
    forall i | 0 <= i < n
      ensures MatchesAt(str, value, i) <==> ones[i] == (bits[i] && !xs[i])
    {
      ToBitsAt(value, n, i);
    }
  }

  // ---------------------------------------------------------------- the profile table

  datatype ProfilePattern = ProfilePattern(profileIdc: byte, profileIop: string, profile: byte) {
    predicate Matches(idc: byte, iop: byte)
      requires |profileIop| == 8
    {
      idc == profileIdc && NewBitPattern(profileIop).IsMatch(iop)
    }
  }

  /** The profile table of section 8.1 of RFC 6184, as far as the library supports it. */
  const PROFILE_PATTERNS: seq<ProfilePattern> := [
    ProfilePattern(0x42, "x1xx0000", PROFILE_CONSTRAINED_BASELINE),
    ProfilePattern(0x4D, "1xxx0000", PROFILE_CONSTRAINED_BASELINE),
    ProfilePattern(0x58, "11xx0000", PROFILE_CONSTRAINED_BASELINE),
    ProfilePattern(0x42, "x0xx0000", PROFILE_BASELINE),
    ProfilePattern(0x58, "10xx0000", PROFILE_BASELINE),
    ProfilePattern(0x4D, "0x0x0000", PROFILE_MAIN),
    ProfilePattern(0x64, "00000000", PROFILE_HIGH),
    ProfilePattern(0x64, "00001100", PROFILE_CONSTRAINED_HIGH)
  ]

  predicate RowMatches(k: nat, idc: byte, iop: byte)
    requires k < |PROFILE_PATTERNS|
  {
    PROFILE_PATTERNS[k].Matches(idc, iop)
  }

  /** At most one row of the table matches any profile_idc and profile_iop. */
  lemma PatternsAreDisjoint(i: nat, j: nat, idc: byte, iop: byte)
    requires i < |PROFILE_PATTERNS| && j < |PROFILE_PATTERNS|
    requires RowMatches(i, idc, iop) && RowMatches(j, idc, iop)
    ensures i == j
  {
    hide RowMatches, BitAt;
    RowMeaning(i, idc, iop);
    RowMeaning(j, idc, iop);
  }

  /** The profile of the row that matches, if there is one. */
  function ProfileOf(idc: byte, iop: byte): Option<byte> {
    if exists k :: 0 <= k < |PROFILE_PATTERNS| && RowMatches(k, idc, iop) then
      OnlyOneRow(idc, iop);
      var k :| 0 <= k < |PROFILE_PATTERNS| && RowMatches(k, idc, iop);
      Some(PROFILE_PATTERNS[k].profile)
    else
      None
  }

  lemma OnlyOneRow(idc: byte, iop: byte)
    ensures forall i, j | 0 <= i < |PROFILE_PATTERNS| && 0 <= j < |PROFILE_PATTERNS| ::
              RowMatches(i, idc, iop) && RowMatches(j, idc, iop) ==> i == j
  {
    hide NewBitPattern;
    forall i, j | 0 <= i < |PROFILE_PATTERNS| && 0 <= j < |PROFILE_PATTERNS|
                  && RowMatches(i, idc, iop) && RowMatches(j, idc, iop)
      ensures i == j
    {
      PatternsAreDisjoint(i, j, idc, iop);
    }
  }

  lemma ProfileOfRow(j: nat, idc: byte, iop: byte)
    requires j < |PROFILE_PATTERNS| && RowMatches(j, idc, iop)
    ensures ProfileOf(idc, iop) == Some(PROFILE_PATTERNS[j].profile)
  {
    hide NewBitPattern;
    OnlyOneRow(idc, iop);
  }

  // ---------------------------------------------------------------- parsing and printing

  function ParseLevel(levelIdc: byte, profileIop: byte): Option<byte> {
    if levelIdc == LEVEL1_1 then
      // The constraint set 3 flag, 0x10, tells level 1b from level 1.1.
      Some(if BitAt(profileIop, 4) then LEVEL1_B else LEVEL1_1)
    else if IsPlainLevel(levelIdc) then Some(levelIdc)
    else None
  }

  function ParseBytes(idc: byte, iop: byte, levelIdc: byte): Option<ProfileLevelId> {
    match (ParseLevel(levelIdc, iop), ProfileOf(idc, iop))
    case (Some(level), Some(profile)) => Some(ProfileLevelId(profile, level))
    case _ => None
  }

  function Parse(str: string): Option<ProfileLevelId> {
    if |str| != 6 then None
    else
      var numeric := ParseInt16(str);
      if numeric == 0 then None
      else ParseBytes(numeric / 65536 % 256, numeric / 256 % 256, numeric % 256)
  }

  /** ParseProfileLevelId, with the table search as the loop the source runs. */
  method ParseProfileLevelId(str: string) returns (id: Option<ProfileLevelId>)
    ensures id == Parse(str)
  {
    if |str| != 6 {
      return None;
    }
    var numeric := ParseInt16(str);
    if numeric == 0 {
      return None;
    }
    var levelIdc: byte, profileIop: byte, profileIdc: byte :=
      numeric % 256, numeric / 256 % 256, numeric / 65536 % 256;
    var level := ParseLevel(levelIdc, profileIop);
    if level == None {
      return None;
    }
    for k := 0 to |PROFILE_PATTERNS|
      invariant forall i :: 0 <= i < k ==> !RowMatches(i, profileIdc, profileIop)
    {
      if RowMatches(k, profileIdc, profileIop) {
        ProfileOfRow(k, profileIdc, profileIop);
        return Some(ProfileLevelId(PROFILE_PATTERNS[k].profile, level.value));
      }
    }
    return None;
  }

  /** ParseSdpProfileLevelId: an absent id means the default one. */
  function ParseSdp(str: string): Option<ProfileLevelId> {
    if str == "" then Some(DEFAULT_PROFILE_LEVEL_ID) else Parse(str)
  }

  predicate IsSameProfile(str1: string, str2: string) {
    var id1, id2 := ParseSdp(str1), ParseSdp(str2);
    id1.Some? && id2.Some? && id1.value.profile == id2.value.profile
  }

  function HexByte(b: byte): (s: string) {
    [HexDigit(b / 16), HexDigit(b % 16)]
  }

  /** The profile_idc and profile_iop the printer uses for a profile. */
  function CanonicalIdcIop(profile: byte): string {
    if profile == PROFILE_CONSTRAINED_BASELINE then "42e0"
    else if profile == PROFILE_BASELINE then "4200"
    else if profile == PROFILE_MAIN then "4d00"
    else if profile == PROFILE_CONSTRAINED_HIGH then "640c"
    else if profile == PROFILE_HIGH then "6400"
    else ""
  }

  /** ProfileLevelId.String: the canonical text, empty when there is none. */
  function Print(id: ProfileLevelId): string {
    if id.level == LEVEL1_B then
      if id.profile == PROFILE_CONSTRAINED_BASELINE then "42f00b"
      else if id.profile == PROFILE_BASELINE then "42100b"
      else if id.profile == PROFILE_MAIN then "4d100b"
      else ""
    else if CanonicalIdcIop(id.profile) == "" then ""
    else CanonicalIdcIop(id.profile) + HexByte(id.level)
  }

  /** The byte written as the two digits at position `i`. */
  function ByteAt(s: string, i: nat): byte
    requires i + 1 < |s| && AllHex(s)
  {
    16 * HexValue(s[i]).value + HexValue(s[i + 1]).value
  }

  /** Six hexadecimal digits are parsed as the three bytes they spell. */
  lemma ParseOfHex(s: string)
    requires |s| == 6 && AllHex(s)
    ensures Parse(s) == ParseBytes(ByteAt(s, 0), ByteAt(s, 2), ByteAt(s, 4))
  {
    HexNumberOfSix(s);
    assert HexValue(s[0]).Some?;
    SplitBytes(HexNumber(s).value, ByteAt(s, 0), ByteAt(s, 2), ByteAt(s, 4));
    NoProfileFor(0, 0);
  }

  lemma SplitBytes(n: int, b0: byte, b1: byte, b2: byte)
    requires n == b0 as int * 65536 + b1 as int * 256 + b2
    ensures n / 65536 % 256 == b0 && n / 256 % 256 == b1 && n % 256 == b2
  {
    assert n / 256 == b0 as int * 256 + b1;
  }

  // ---------------------------------------------------------------- what the table and the levels say

  /** The levels of table A-1 of the H.264 standard, and 1b by the flag. */
  lemma AcceptedLevels(idc: byte, iop: byte)
    ensures ParseLevel(idc, iop) ==
            if idc == 11 then Some(if BitAt(iop, 4) then LEVEL1_B else 11)
            else if idc / 10 in {1, 2, 3, 4, 5} && idc % 10 <= (if idc / 10 == 1 then 3 else 2) then Some(idc)
            else None
  {
    assert idc / 10 in {1, 2, 3, 4, 5} ==> 10 <= idc < 60;
  }

  /** What each row of the table asks for. */
  predicate RowAsks(k: nat, idc: byte, iop: byte) {
    match k
    case 0 => idc == 0x42 && iop % 16 == 0 && BitAt(iop, 6)
    case 1 => idc == 0x4D && iop % 16 == 0 && BitAt(iop, 7)
    case 2 => idc == 0x58 && iop % 16 == 0 && BitAt(iop, 7) && BitAt(iop, 6)
    case 3 => idc == 0x42 && iop % 16 == 0 && !BitAt(iop, 6)
    case 4 => idc == 0x58 && iop % 16 == 0 && BitAt(iop, 7) && !BitAt(iop, 6)
    case 5 => idc == 0x4D && iop % 16 == 0 && !BitAt(iop, 7) && !BitAt(iop, 5)
    case 6 => idc == 0x64 && iop == 0
    case _ => idc == 0x64 && iop == 12
  }

  /** The three conditions on whole numbers, as conditions on bits. */
  lemma BitConditions(v: byte)
    ensures v % 16 == 0 <==> !BitAt(v, 3) && !BitAt(v, 2) && !BitAt(v, 1) && !BitAt(v, 0)
    ensures v == 0 <==>
            && !BitAt(v, 7) && !BitAt(v, 6) && !BitAt(v, 5) && !BitAt(v, 4)
            && !BitAt(v, 3) && !BitAt(v, 2) && !BitAt(v, 1) && !BitAt(v, 0)
    ensures v == 12 <==>
            && !BitAt(v, 7) && !BitAt(v, 6) && !BitAt(v, 5) && !BitAt(v, 4)
            && BitAt(v, 3) && BitAt(v, 2) && !BitAt(v, 1) && !BitAt(v, 0)
  {
    hide BitAt;
    LowNibble(v);
    HighNibble(v);
    assert v == 16 * (v / 16) + v % 16;
  }

  lemma RowMeaning(k: nat, idc: byte, iop: byte)
    requires k < |PROFILE_PATTERNS|
    ensures RowMatches(k, idc, iop) <==> RowAsks(k, idc, iop)
  {
    var str := PROFILE_PATTERNS[k].profileIop;
    hide NewBitPattern, BitAt;
    BitPatternMeaning(str, iop);
    BitConditions(iop);
    assert (forall i :: 0 <= i < 8 ==> MatchesAt(str, iop, i)) <==>
      MatchesAt(str, iop, 0) && MatchesAt(str, iop, 1) && MatchesAt(str, iop, 2) && MatchesAt(str, iop, 3)
      && MatchesAt(str, iop, 4) && MatchesAt(str, iop, 5) && MatchesAt(str, iop, 6) && MatchesAt(str, iop, 7);
  }

  /** The profiles of table 5 of RFC 6184, by profile_idc and the flags of profile_iop. */
  function ProfileByFlags(idc: byte, iop: byte): Option<byte> {
    var set0, set1, set2 := BitAt(iop, 7), BitAt(iop, 6), BitAt(iop, 5);
    if idc == 0x64 then
      if iop == 0x00 then Some(PROFILE_HIGH) else if iop == 0x0C then Some(PROFILE_CONSTRAINED_HIGH) else None
    else if iop % 16 != 0 then None
    else if idc == 0x42 then Some(if set1 then PROFILE_CONSTRAINED_BASELINE else PROFILE_BASELINE)
    else if idc == 0x4D then
      if set0 then Some(PROFILE_CONSTRAINED_BASELINE) else if set2 then None else Some(PROFILE_MAIN)
    else if idc == 0x58 && set0 then Some(if set1 then PROFILE_CONSTRAINED_BASELINE else PROFILE_BASELINE)
    else None
  }

  /** The table says what those flags say. */
  lemma ProfileTable(idc: byte, iop: byte)
    ensures ProfileOf(idc, iop) == ProfileByFlags(idc, iop)
  {
    hide NewBitPattern, BitAt, RowMatches;
    forall k | 0 <= k < |PROFILE_PATTERNS|
      ensures RowMatches(k, idc, iop) <==> RowAsks(k, idc, iop)
    {
      RowMeaning(k, idc, iop);
    }
    if k :| 0 <= k < |PROFILE_PATTERNS| && RowMatches(k, idc, iop) {
      ProfileOfRow(k, idc, iop);
    } else {
      assert forall k :: 0 <= k < |PROFILE_PATTERNS| ==> !RowMatches(k, idc, iop);
      assert !RowAsks(0, idc, iop) && !RowAsks(1, idc, iop) && !RowAsks(2, idc, iop) && !RowAsks(3, idc, iop);
      assert !RowAsks(4, idc, iop) && !RowAsks(5, idc, iop) && !RowAsks(6, idc, iop) && !RowAsks(7, idc, iop);
    }
  }

  /** The canonical idc and iop of the five profiles, and the three texts of level 1b. */
  lemma CanonicalTexts(level: byte)
    requires level != LEVEL1_B
    ensures Print(ProfileLevelId(PROFILE_CONSTRAINED_BASELINE, level)) == "42e0" + HexByte(level)
    ensures Print(ProfileLevelId(PROFILE_BASELINE, level)) == "4200" + HexByte(level)
    ensures Print(ProfileLevelId(PROFILE_MAIN, level)) == "4d00" + HexByte(level)
    ensures Print(ProfileLevelId(PROFILE_CONSTRAINED_HIGH, level)) == "640c" + HexByte(level)
    ensures Print(ProfileLevelId(PROFILE_HIGH, level)) == "6400" + HexByte(level)
    ensures Print(ProfileLevelId(PROFILE_CONSTRAINED_BASELINE, LEVEL1_B)) == "42f00b"
    ensures Print(ProfileLevelId(PROFILE_BASELINE, LEVEL1_B)) == "42100b"
    ensures Print(ProfileLevelId(PROFILE_MAIN, LEVEL1_B)) == "4d100b"
  {
  }

  /** An absent id means constrained baseline at level 3.1. */
  lemma DefaultId()
    ensures ParseSdp("") == Parse("42e01f") == Some(ProfileLevelId(PROFILE_CONSTRAINED_BASELINE, LEVEL3_1))
  {
    hide Parse;
    ParsePrint(DEFAULT_PROFILE_LEVEL_ID);
    assert HexByte(31) == "1f";
    assert Print(DEFAULT_PROFILE_LEVEL_ID) == "42e0" + "1f" == "42e01f";
  }

  /** Only four values of profile_idc occur in the table. */
  lemma NoProfileFor(idc: byte, iop: byte)
    requires idc !in {0x42, 0x4D, 0x58, 0x64}
    ensures ProfileOf(idc, iop) == None
  {
    assert forall k :: 0 <= k < |PROFILE_PATTERNS| ==> PROFILE_PATTERNS[k].profileIdc in {0x42, 0x4D, 0x58, 0x64};
  }

  /** A number of fewer than six digits, whatever its sign, has no row in the table. */
  lemma NoProfileForShort(n: int)
    requires -1048576 < n < 1048576
    ensures ProfileOf(n / 65536 % 256, n / 256 % 256) == None
  {
    assert -16 <= n / 65536 < 16;
    NoProfileFor(n / 65536 % 256, n / 256 % 256);
  }

  /** Only six hexadecimal digits are accepted; a signed number is not, although it is read. */
  lemma ParseAccepts(s: string)
    ensures Parse(s).Some? ==> |s| == 6 && AllHex(s)
  {
    if |s| == 6 && !AllHex(s) {
      HexNumberDomain(s);
      if s[0] == '+' || s[0] == '-' {
        HexNumberDomain(s[1..]);
        assert Pow16(5) == 1048576;
        NoProfileForShort(ParseInt16(s));
      }
    }
  }

  /** A row that matches a profile_iop with the constraint set 3 flag is not a high profile. */
  lemma FlaggedRowIsNotHigh(idc: byte, iop: byte)
    requires ProfileOf(idc, iop).Some?
    ensures 1 <= ProfileOf(idc, iop).value <= 5
    ensures BitAt(iop, 4) ==> ProfileOf(idc, iop).value <= 3
  {
    hide NewBitPattern, HexNumber;
    var j :| 0 <= j < |PROFILE_PATTERNS| && RowMatches(j, idc, iop);
    ProfileOfRow(j, idc, iop);
    BitPatternMeaning(PROFILE_PATTERNS[j].profileIop, iop);
    assert MatchesAt(PROFILE_PATTERNS[j].profileIop, iop, 3);
  }

  /** Whatever the parser accepts has a canonical text: level 1b never comes with a high profile. */
  lemma ParsedIsPrintable(s: string)
    requires Parse(s).Some?
    ensures IsPrintable(Parse(s).value)
  {
    ParseAccepts(s);
    ParseOfHex(s);
    FlaggedRowIsNotHigh(ByteAt(s, 0), ByteAt(s, 2));
  }

  lemma HexByteReads(b: byte)
    ensures AllHex(HexByte(b)) && ByteAt(HexByte(b), 0) == b
  {
    HexDigitReads(b / 16);
    HexDigitReads(b % 16);
  }

  lemma HexDigitReads(n: nat)
    requires n < 16
    ensures HexValue(HexDigit(n)) == Some(n)
  {
  }

  lemma ParseOfParts(head: string, level: byte)
    requires |head| == 4 && AllHex(head)
    ensures Parse(head + HexByte(level)) == ParseBytes(ByteAt(head, 0), ByteAt(head, 2), level)
  {
    var s := head + HexByte(level);
    assert AllHex(s) && ByteAt(s, 0) == ByteAt(head, 0) && ByteAt(s, 2) == ByteAt(head, 2) && ByteAt(s, 4) == level by {
      HexByteReads(level);
      assert s[4..] == HexByte(level);
      assert forall i :: 0 <= i < 6 ==> HexValue(s[i]).Some?;
    }
    ParseOfHex(s);
  }

  /** Digits that spell row `j` of the table, followed by a level, parse to that row's profile. */
  lemma ParseOfRow(j: nat, head: string, level: byte)
    requires j < |PROFILE_PATTERNS|
    requires |head| == 4 && AllHex(head) && ByteAt(head, 0) == PROFILE_PATTERNS[j].profileIdc
    requires forall i :: 0 <= i < 8 ==> MatchesAt(PROFILE_PATTERNS[j].profileIop, ByteAt(head, 2), i)
    ensures var parsed := ParseLevel(level, ByteAt(head, 2));
            Parse(head + HexByte(level)) ==
              if parsed == None then None else Some(ProfileLevelId(PROFILE_PATTERNS[j].profile, parsed.value))
  {
    hide NewBitPattern, ProfileOf, Parse, ParseLevel;
    ParseOfParts(head, level);
    assert RowMatches(j, ByteAt(head, 0), ByteAt(head, 2)) by {
      BitPatternMeaning(PROFILE_PATTERNS[j].profileIop, ByteAt(head, 2));
    }
    ProfileOfRow(j, ByteAt(head, 0), ByteAt(head, 2));
  }

  /** The row of the table the printer uses for a profile. */
  function CanonicalRow(profile: byte): nat {
    if profile == PROFILE_CONSTRAINED_BASELINE then 0
    else if profile == PROFILE_BASELINE then 3
    else if profile == PROFILE_MAIN then 5
    else if profile == PROFILE_CONSTRAINED_HIGH then 7
    else 6
  }

  lemma ParsePrint1b(id: ProfileLevelId)
    requires id.level == LEVEL1_B && 1 <= id.profile <= 3
    ensures Parse(Print(id)) == Some(id)
  {
    var head := if id.profile == PROFILE_CONSTRAINED_BASELINE then "42f0"
                else if id.profile == PROFILE_BASELINE then "4210" else "4d10";
    assert Print(id) == head + HexByte(LEVEL1_1);
    assert BitAt(0xF0, 4) && BitAt(0x10, 4);
    hide Parse, ProfileOf, NewBitPattern;
    ParseOfRow(CanonicalRow(id.profile), head, LEVEL1_1);
  }

  lemma ParsePrintPlain(id: ProfileLevelId)
    requires id.level != LEVEL1_B && 1 <= id.profile <= 5
    ensures Parse(Print(id)) == Some(id) <==> IsPrintable(id)
  {
    var head := CanonicalIdcIop(id.profile);
    assert !BitAt(0xE0, 4) && !BitAt(0x00, 4) && !BitAt(0x0C, 4);
    ParseOfRow(CanonicalRow(id.profile), head, id.level);
  }

  /** Printing then parsing returns the same profile and level, exactly for those that have a text. */
  lemma ParsePrint(id: ProfileLevelId)
    ensures Parse(Print(id)) == Some(id) <==> IsPrintable(id)
  {
    if id.level == LEVEL1_B && 1 <= id.profile <= 3 {
      ParsePrint1b(id);
    } else if id.level != LEVEL1_B && 1 <= id.profile <= 5 {
      ParsePrintPlain(id);
    } else {
      assert Print(id) == "";
    }
  }

  /** Every accepted string has a canonical text, and the text means the same. */
  lemma PrintParse(s: string)
    requires Parse(s).Some?
    ensures Parse(Print(Parse(s).value)) == Parse(s)
  {
    ParsedIsPrintable(s);
    ParsePrint(Parse(s).value);
  }

  // ---------------------------------------------------------------- negotiation

  datatype H264Parameters = H264Parameters(
    packetizationMode: int, profileLevelId: string, levelAsymmetryAllowed: int)

  predicate IsLessLevel(a: byte, b: byte) {
    if a == LEVEL1_B then b != LEVEL1 && b != LEVEL1_B
    else if b == LEVEL1_B then a != LEVEL1
    else a < b
  }

  function MinLevel(a: byte, b: byte): byte {
    if IsLessLevel(a, b) then a else b
  }

  predicate AsymmetryAllowed(local: H264Parameters, remote: H264Parameters) {
    local.levelAsymmetryAllowed > 0 && remote.levelAsymmetryAllowed > 0
  }

  /** GenerateProfileLevelIdForAnswer; None stands for a returned error. */
  function Answer(local: H264Parameters, remote: H264Parameters): Option<string> {
    if local.profileLevelId == "" && remote.profileLevelId == "" then Some("")
    else
      match (ParseSdp(local.profileLevelId), ParseSdp(remote.profileLevelId))
      case (Some(l), Some(r)) =>
        if l.profile != r.profile then None
        else
          var level := if AsymmetryAllowed(local, remote) then l.level else MinLevel(l.level, r.level);
          Some(Print(ProfileLevelId(l.profile, level)))
      case _ => None
  }

  /** Negotiation succeeds exactly when the two sides have the same profile; two absent ids give an absent answer. */
  lemma AnswerDefined(local: H264Parameters, remote: H264Parameters)
    ensures local.profileLevelId == "" && remote.profileLevelId == "" ==> Answer(local, remote) == Some("")
    ensures Answer(local, remote).Some? <==> IsSameProfile(local.profileLevelId, remote.profileLevelId)
  {
  }

  lemma SdpIsPrintable(s: string)
    requires ParseSdp(s).Some?
    ensures IsPrintable(ParseSdp(s).value)
  {
    if s != "" {
      ParsedIsPrintable(s);
    }
  }

  /**
   * When either side names a profile-level-id, a successful answer is a
   * canonical text: not empty, of the shared profile, at the negotiated level.
   */
  lemma AnswerParses(local: H264Parameters, remote: H264Parameters)
    requires local.profileLevelId != "" || remote.profileLevelId != ""
    requires Answer(local, remote).Some?
    ensures var text := Answer(local, remote).value;
            var l, r := ParseSdp(local.profileLevelId).value, ParseSdp(remote.profileLevelId).value;
            && text != ""
            && Parse(text) == Some(ProfileLevelId(
                 l.profile,
                 if local.levelAsymmetryAllowed > 0 && remote.levelAsymmetryAllowed > 0 then l.level
                 else MinLevel(l.level, r.level)))
            && l.profile == r.profile
  {
    SdpIsPrintable(local.profileLevelId);
    SdpIsPrintable(remote.profileLevelId);
    var l, r := ParseSdp(local.profileLevelId).value, ParseSdp(remote.profileLevelId).value;
    ParsePrint(ProfileLevelId(l.profile, l.level));
    ParsePrint(ProfileLevelId(r.profile, r.level));
  }

  /** Renegotiating the answer against the same remote returns the same answer. */
  lemma AnswerIsFixpoint(local: H264Parameters, remote: H264Parameters)
    requires Answer(local, remote).Some?
    ensures Answer(local.(profileLevelId := Answer(local, remote).value), remote) == Answer(local, remote)
  {
    if local.profileLevelId != "" || remote.profileLevelId != "" {
      AnswerParses(local, remote);
    }
  }

  /** The answer has the profile of the local side, as far as any other remote can tell. */
  lemma AnswerKeepsProfile(local: H264Parameters, remote: H264Parameters, other: string)
    requires Answer(local, remote).Some?
    ensures IsSameProfile(Answer(local, remote).value, other) <==> IsSameProfile(local.profileLevelId, other)
  {
    if local.profileLevelId != "" || remote.profileLevelId != "" {
      AnswerParses(local, remote);
    }
  }

  /** The order of the levels in the standard, where 1b lies between 1 and 1.1. */
  function LevelRank(level: byte): int {
    if level == LEVEL1_B then 2 * 10 + 1 else 2 * (level as int)
  }

  /**
   * minLevel returns the lower of two levels, except when only the second is
   * 1b: then it always returns the higher one.
   */
  lemma MinLevelIsLower(a: byte, b: byte)
    requires a == LEVEL1_B || a >= 10
    requires b == LEVEL1_B || b >= 10
    ensures MinLevel(a, b) in {a, b}
    ensures LevelRank(MinLevel(a, b)) == (if LevelRank(a) < LevelRank(b) then LevelRank(a) else LevelRank(b))
       <==> !(b == LEVEL1_B && a != LEVEL1_B)
  {
  }

  lemma SdpLevels(s: string)
    requires ParseSdp(s).Some?
    ensures var level := ParseSdp(s).value.level; level == LEVEL1_B || level >= 10
  {
    SdpIsPrintable(s);
  }

  /** The answer's level when one side forbids asymmetry: the lower of the two, unless only the remote level is 1b. */
  lemma AnswerLevel(local: H264Parameters, remote: H264Parameters)
    requires local.profileLevelId != "" || remote.profileLevelId != ""
    requires Answer(local, remote).Some? && (local.levelAsymmetryAllowed <= 0 || remote.levelAsymmetryAllowed <= 0)
    ensures Parse(Answer(local, remote).value).Some?
    ensures var l, r := ParseSdp(local.profileLevelId).value.level, ParseSdp(remote.profileLevelId).value.level;
            var level := Parse(Answer(local, remote).value).value.level;
            LevelRank(level) <= LevelRank(l) && LevelRank(level) <= LevelRank(r)
            <==> !(r == LEVEL1_B && l != LEVEL1_B)
  {
    var l, r := ParseSdp(local.profileLevelId).value.level, ParseSdp(remote.profileLevelId).value.level;
    var parsed := Parse(Answer(local, remote).value);
    assert parsed.Some? && parsed.value.level == MinLevel(l, r) by {
      AnswerParses(local, remote);
    }
    assert (l == LEVEL1_B || l >= 10) && (r == LEVEL1_B || r >= 10) by {
      SdpLevels(local.profileLevelId);
      SdpLevels(remote.profileLevelId);
    }
    MinLevelIsLower(l, r);
  }

  /** A concrete pair for which the answer's level is above the remote's: 42e01f (3.1) against 42f00b (1b). */
  lemma AnswerAboveRemote(local: ProfileLevelId, remote: ProfileLevelId)
    requires local == ProfileLevelId(PROFILE_CONSTRAINED_BASELINE, LEVEL3_1)
    requires remote == ProfileLevelId(PROFILE_CONSTRAINED_BASELINE, LEVEL1_B)
    ensures Answer(H264Parameters(0, Print(local), 0), H264Parameters(0, Print(remote), 0)) == Some(Print(local))
    ensures LevelRank(remote.level) < LevelRank(local.level)
  {
    ParsePrint(local);
    ParsePrint(remote);
  }
}
