/**
 * The netstring codec (mediasoup/netstring/netstring.go): Encode, and the
 * streaming Decoder that is fed chunks of any size.
 */
module Netstring {
  import opened Bytes

  const SEPARATOR_SYMBOL: byte := 58
  const END_SYMBOL: byte := 44

  /** NS_PAYLOAD_MAX_LEN of the channel that feeds the decoder. */
  const PAYLOAD_MAX_LEN := 65536

  const TWO63 := 0x8000_0000_0000_0000
  const TWO64 := 0x1_0000_0000_0000_0000

  /** Two's complement arithmetic on the 64-bit integers of the decoder. */
  function Wrap64(n: int): (r: int)
    ensures -TWO63 <= r < TWO63
    ensures -TWO63 <= n < TWO63 ==> r == n
  {
    (n + TWO63) % TWO64 - TWO63
  }

  predicate IsDigit(b: byte) {
    48 <= b <= 57
  }

  predicate AllDigits(s: seq<byte>) {
    forall i :: 0 <= i < |s| ==> IsDigit(s[i])
  }

  // ---------------------------------------------------------------- encoding

  /** strconv.Itoa on a length. */
  function Itoa(n: nat): seq<byte> {
    if n < 10 then [48 + n] else Itoa(n / 10) + [48 + n % 10]
  }

  function Encode(payload: seq<byte>): seq<byte> {
    Itoa(|payload|) + [SEPARATOR_SYMBOL] + payload + [END_SYMBOL]
  }

  /** The number a string of digits spells; the empty string spells zero. */
  function Value(digits: seq<byte>): nat
    requires AllDigits(digits)
  {
    if digits == [] then 0
    else 10 * Value(digits[..|digits| - 1]) + (digits[|digits| - 1] - 48)
  }

  lemma {:induction false} ValueOfItoa(n: nat)
    ensures Itoa(n) != [] && AllDigits(Itoa(n)) && Value(Itoa(n)) == n
  {
    if n >= 10 {
      ValueOfItoa(n / 10);
      assert Itoa(n)[..|Itoa(n)| - 1] == Itoa(n / 10);
    } else {
      assert Itoa(n)[..0] == [];
    }
  }

  // ---------------------------------------------------------------- the automaton

  datatype Phase = ParseLength | ParseSeparator | ParseData | ParseEnd

  /**
   * The decoder's fields, what it has put on its output channel, and whether
   * slicing with a negative length has made it panic.
   */
  datatype Decoding = Decoding(
    phase: Phase, length: int, parsed: seq<byte>, output: seq<seq<byte>>, panicked: bool)

  function Clean(output: seq<seq<byte>>): Decoding {
    Decoding(ParseLength, 0, [], output, false)
  }

  function AfterReset(s: Decoding): Decoding {
    s.(phase := ParseLength, length := 0, parsed := [])
  }

  function AtSeparator(s: Decoding, b: byte): Decoding {
    if b != SEPARATOR_SYMBOL then AfterReset(s) else s.(phase := ParseData)
  }

  function AtLength(s: Decoding, b: byte): Decoding {
    if IsDigit(b) then s.(phase := ParseLength, length := Wrap64(s.length * 10 + (b - 48))) else AtSeparator(s, b)
  }

  function AfterEnd(s: Decoding, b: byte): Decoding {
    AfterReset(if b == END_SYMBOL then s.(output := s.output + [s.parsed]) else s)
  }

  /** The end symbol is examined but not consumed: the same byte goes on to the length state. */
  function AtEnd(s: Decoding, b: byte): Decoding {
    AtLength(AfterEnd(s, b), b)
  }

  function AtData(s: Decoding, b: byte): Decoding {
    if s.length < 0 then s.(panicked := true)
    else if s.length == 0 then AtEnd(s, b)
    else s.(phase := if s.length == 1 then ParseEnd else ParseData, length := s.length - 1, parsed := s.parsed + [b])
  }

  /** What one byte does, through however many of the decoder's transitions. */
  function Step(s: Decoding, b: byte): Decoding {
    if s.panicked then s
    else
      match s.phase
      case ParseLength => AtLength(s, b)
      case ParseSeparator => AtSeparator(s, b)
      case ParseData => AtData(s, b)
      case ParseEnd => AtEnd(s, b)
  }

  function Run(s: Decoding, data: seq<byte>): Decoding {
    if data == [] then s else Step(Run(s, data[..|data| - 1]), data[|data| - 1])
  }

  lemma {:induction false} RunConcat(s: Decoding, a: seq<byte>, b: seq<byte>)
    ensures Run(s, a + b) == Run(Run(s, a), b)
  {
    if b == [] {
      assert a + b == a;
    } else {
      var n := |b| - 1;
      assert (a + b)[..|a + b| - 1] == a + b[..n];
      RunConcat(s, a, b[..n]);
    }
  }

  lemma RunOne(s: Decoding, b: byte)
    ensures Run(s, [b]) == Step(s, b)
  {
    assert [b][..0] == [];
  }

  /** A panic is final. */
  lemma {:induction false} RunPanicked(s: Decoding, data: seq<byte>)
    requires s.panicked
    ensures Run(s, data) == s
  {
    if data != [] {
      RunPanicked(s, data[..|data| - 1]);
    }
  }

  /** Enough data in the data state is taken in bulk. */
  lemma {:induction false} RunInData(s: Decoding, data: seq<byte>)
    requires s.phase == ParseData && !s.panicked && 0 < |data| <= s.length
    ensures Run(s, data) == s.(
              phase := if |data| == s.length then ParseEnd else ParseData,
              length := s.length - |data|,
              parsed := s.parsed + data)
  {
    var n := |data| - 1;
    if n == 0 {
      assert data == [data[0]];
      RunOne(s, data[0]);
    } else {
      RunInData(s, data[..n]);
      assert s.parsed + data[..n] + [data[n]] == s.parsed + data;
    }
  }

  // ---------------------------------------------------------------- the decoder

  /** How many transitions can still run before a byte has to be consumed. */
  function Rank(phase: Phase): nat {
    match phase
    case ParseSeparator => 0
    case ParseLength => 1
    case ParseEnd => 2
    case ParseData => 3
  }

  class Decoder {
    var parsedData: seq<byte>
    var length: int
    var state: Phase
    var output: seq<seq<byte>>

    ghost function View(): Decoding
      reads this
    {
      Decoding(state, length, parsedData, output, false)
    }

    constructor ()
      ensures View() == Clean([])
    {
      parsedData, length, state, output := [], 0, ParseLength, [];
    }

    method Reset()
      modifies this
      ensures View() == AfterReset(old(View()))
    {
      length, parsedData, state := 0, [], ParseLength;
    }

    method ParseLengthAt(i: nat, data: seq<byte>) returns (next: nat)
      requires i < |data| && state == ParseLength
      modifies this
      ensures if IsDigit(data[i]) then next == i + 1 && View() == Step(old(View()), data[i])
              else next == i && View() == old(View()).(phase := ParseSeparator)
    {
      next := i;
      if IsDigit(data[i]) {
        length := Wrap64(length * 10 + (data[i] - 48));
        next := i + 1;
      } else {
        state := ParseSeparator;
      }
    }

    method ParseSeparatorAt(i: nat, data: seq<byte>) returns (next: nat)
      requires i < |data| && state == ParseSeparator
      modifies this
      ensures next == i + 1 && View() == Step(old(View()), data[i])
    {
      if data[i] != SEPARATOR_SYMBOL {
        Reset();
      } else {
        state := ParseData;
      }
      next := i + 1;
    }

    /** Copies as much as is wanted and present; a negative length makes the slice panic. */
    method ParseDataAt(i: nat, data: seq<byte>) returns (next: nat, panicked: bool)
      requires i < |data| && state == ParseData
      modifies this
      ensures panicked <==> old(length) < 0
      ensures panicked ==> next == i && View() == old(View())
      ensures old(length) == 0 ==> next == i && View() == old(View()).(phase := ParseEnd)
      ensures old(length) > 0 ==> i < next <= |data| && View() == Run(old(View()), data[i..next])
    {
      if length < 0 {
        return i, true;
      }
      var n := if length < |data| - i then length else |data| - i;
      if n > 0 {
        RunInData(View(), data[i..i + n]);
      }
      parsedData := parsedData + data[i..i + n];
      length := length - n;
      if length == 0 {
        state := ParseEnd;
      }
      return i + n, false;
    }

    method ParseEndAt(i: nat, data: seq<byte>) returns (next: nat)
      requires i < |data| && state == ParseEnd
      modifies this
      ensures next == i && View() == AfterEnd(old(View()), data[i])
    {
      if data[i] == END_SYMBOL {
        output := output + [parsedData];
      }
      Reset();
      next := i;
    }

    /** One call of parse: it consumes bytes as the automaton does, or moves to a lower rank without consuming. */
    method Parse(i: nat, data: seq<byte>) returns (next: nat, panicked: bool)
      requires i < |data|
      modifies this
      ensures i <= next <= |data|
      ensures panicked ==> next == i && Step(old(View()), data[i]) == View().(panicked := true)
      ensures !panicked && next == i ==>
                Step(View(), data[i]) == Step(old(View()), data[i]) && Rank(state) < Rank(old(state))
      ensures !panicked && next > i ==> View() == Run(old(View()), data[i..next])
    {
      panicked := false;
      match state {
        case ParseLength =>
          next := ParseLengthAt(i, data);
        case ParseSeparator =>
          next := ParseSeparatorAt(i, data);
        case ParseData =>
          next, panicked := ParseDataAt(i, data);
        case ParseEnd =>
          next := ParseEndAt(i, data);
      }
      if next == i + 1 {
        assert data[i..next] == [data[i]];
        RunOne(old(View()), data[i]);
      }
    }

    /**
     * Feed. Whatever the state, it does what the byte automaton does, leaves
     * nothing of the chunk unread unless it panics, and calls parse at most
     * four times per byte.
     */
    method Feed(data: seq<byte>) returns (panicked: bool, ghost calls: nat)
      modifies this
      ensures View().(panicked := panicked) == Run(old(View()), data)
      ensures calls <= 4 * |data|
    {
      var i := 0;
      panicked, calls := false, 0;
      ghost var s0 := View();
      while i < |data|
        invariant 0 <= i <= |data|
        invariant View() == Run(s0, data[..i])
                  || (i < |data| && Step(View(), data[i]) == Step(Run(s0, data[..i]), data[i]))
        invariant calls <= 4 * i + if i < |data| then 3 - Rank(state) else 0
        decreases |data| - i, Rank(state)
      {
        ghost var reached := Run(s0, data[..i]);
        ghost var before := View();
        assert Step(before, data[i]) == Step(reached, data[i]);
        var next;
        next, panicked := Parse(i, data);
        calls := calls + 1;
        if panicked {
          PanicsHere(s0, data, i);
          return;
        }
        if next > i {
          SameFirstStep(before, reached, data[i..next]);
          assert data[..next] == data[..i] + data[i..next];
          RunConcat(s0, data[..i], data[i..next]);
        }
        i := next;
      }
      assert data[..i] == data;
    }
  }

  /** Two states that treat the first byte alike treat the whole string alike. */
  lemma SameFirstStep(s: Decoding, t: Decoding, data: seq<byte>)
    requires data != [] && Step(s, data[0]) == Step(t, data[0])
    ensures Run(s, data) == Run(t, data)
  {
    assert data == [data[0]] + data[1..];
    RunConcat(s, [data[0]], data[1..]);
    RunConcat(t, [data[0]], data[1..]);
    RunOne(s, data[0]);
    RunOne(t, data[0]);
  }

  lemma PanicsHere(s: Decoding, data: seq<byte>, i: nat)
    requires i < |data| && Step(Run(s, data[..i]), data[i]).panicked
    ensures Run(s, data) == Step(Run(s, data[..i]), data[i])
  {
    assert data == data[..i] + [data[i]] + data[i + 1..];
    RunConcat(s, data[..i], [data[i]]);
    RunConcat(s, data[..i] + [data[i]], data[i + 1..]);
    RunOne(Run(s, data[..i]), data[i]);
    RunPanicked(Step(Run(s, data[..i]), data[i]), data[i + 1..]);
  }

  // ---------------------------------------------------------------- chunk independence

  function Flatten(chunks: seq<seq<byte>>): seq<byte> {
    if chunks == [] then [] else Flatten(chunks[..|chunks| - 1]) + chunks[|chunks| - 1]
  }

  function RunAll(s: Decoding, chunks: seq<seq<byte>>): Decoding {
    if chunks == [] then s else Run(RunAll(s, chunks[..|chunks| - 1]), chunks[|chunks| - 1])
  }

  lemma {:induction false} RunAllIsRun(s: Decoding, chunks: seq<seq<byte>>)
    ensures RunAll(s, chunks) == Run(s, Flatten(chunks))
  {
    if chunks != [] {
      var n := |chunks| - 1;
      RunAllIsRun(s, chunks[..n]);
      RunConcat(s, Flatten(chunks[..n]), chunks[n]);
    }
  }

  /** Two ways of cutting the same bytes into chunks leave every decoder in the same state with the same output. */
  lemma ChunkIndependence(s: Decoding, chunks: seq<seq<byte>>, chunks': seq<seq<byte>>)
    requires Flatten(chunks) == Flatten(chunks')
    ensures RunAll(s, chunks) == RunAll(s, chunks')
  {
    RunAllIsRun(s, chunks);
    RunAllIsRun(s, chunks');
  }

  /** No chunk leaves the decoder in the separator state. */
  lemma NeverEndsInSeparator(s: Decoding, data: seq<byte>)
    requires data != [] && !Run(s, data).panicked
    ensures Run(s, data).phase != ParseSeparator
  {
  }

  // ---------------------------------------------------------------- soundness

  /** A place in the input where digits, ':', a payload and ',' stand in a row. */
  datatype Frame = Frame(start: nat, colon: nat, end: nat)

  /** Digits and ':' from `start` to `colon`, spelling a length that the 64-bit counter reads as `n`. */
  predicate IsHeader(input: seq<byte>, start: nat, colon: nat, n: int) {
    && start <= colon < |input|
    && AllDigits(input[start..colon])
    && input[colon] == SEPARATOR_SYMBOL
    && n == Wrap64(Value(input[start..colon]))
  }

  predicate IsFrame(input: seq<byte>, f: Frame, payload: seq<byte>) {
    && IsHeader(input, f.start, f.colon, |payload|)
    && f.colon < f.end < |input|
    && input[f.colon + 1..f.end] == payload
    && input[f.end] == END_SYMBOL
  }

  /** The payloads sit in frames that follow one another without overlap, all before `limit`. */
  ghost predicate InFrames(input: seq<byte>, payloads: seq<seq<byte>>, frames: seq<Frame>, limit: nat) {
    && |frames| == |payloads|
    && (forall k :: 0 <= k < |frames| ==> IsFrame(input, frames[k], payloads[k]) && frames[k].end < limit)
    && (forall k :: 0 < k < |frames| ==> frames[k - 1].end < frames[k].start)
  }

  /** The state in terms of the input: where the current header starts and where its colon is. */
  ghost predicate Tracks(input: seq<byte>, s: Decoding, start: nat, colon: nat) {
    && start <= |input|
    && match s.phase
       case ParseLength =>
         AllDigits(input[start..]) && s.length == Wrap64(Value(input[start..])) && s.parsed == []
       case ParseSeparator =>
         false
       case ParseData =>
         && IsHeader(input, start, colon, s.length + |s.parsed|)
         && s.parsed == input[colon + 1..]
         && (s.parsed != [] ==> s.length > 0)
       case ParseEnd =>
         IsHeader(input, start, colon, |s.parsed|) && s.parsed == input[colon + 1..] && s.length == 0
  }

  /** Wrapping at every digit is wrapping once at the end. */
  lemma WrapStep(v: int, d: int)
    ensures Wrap64(Wrap64(v) * 10 + d) == Wrap64(v * 10 + d)
  {
    var k := (v + TWO63) / TWO64;
    assert Wrap64(v) == v - k * TWO64;
    var y := v * 10 + d + TWO63;
    assert (y - 10 * k * TWO64) % TWO64 == y % TWO64;
  }

  lemma ValueSnoc(digits: seq<byte>, b: byte)
    requires AllDigits(digits) && IsDigit(b)
    ensures AllDigits(digits + [b]) && Value(digits + [b]) == 10 * Value(digits) + (b - 48)
  {
    assert (digits + [b])[..|digits|] == digits;
  }

  lemma FramesExtend(input: seq<byte>, b: byte, payloads: seq<seq<byte>>, frames: seq<Frame>, limit: nat)
    requires InFrames(input, payloads, frames, limit)
    ensures InFrames(input + [b], payloads, frames, limit)
  {
    var longer := input + [b];
    forall k | 0 <= k < |frames|
      ensures IsFrame(longer, frames[k], payloads[k])
    {
      var f := frames[k];
      assert IsFrame(input, f, payloads[k]);
      assert longer[f.start..f.colon] == input[f.start..f.colon];
      assert longer[f.colon + 1..f.end] == input[f.colon + 1..f.end];
    }
  }

  lemma HeaderExtend(input: seq<byte>, b: byte, start: nat, colon: nat, n: int)
    requires IsHeader(input, start, colon, n)
    ensures IsHeader(input + [b], start, colon, n)
  {
    assert (input + [b])[start..colon] == input[start..colon];
  }

  /** In the length state: the byte continues the digits, ends them with a colon, or is skipped. */
  lemma TrackLength(input: seq<byte>, b: byte, s: Decoding, start: nat) returns (start': nat, colon': nat)
    requires s.phase == ParseLength && Tracks(input, s, start, 0)
    ensures start' == start || start' == |input| + 1
    ensures !IsDigit(b) && b != SEPARATOR_SYMBOL ==> start' == |input| + 1
    ensures Tracks(input + [b], AtLength(s, b), start', colon')
    ensures AtLength(s, b).output == s.output && AtLength(s, b).panicked == s.panicked
  {
    var longer, digits := input + [b], input[start..];
    if IsDigit(b) {
      assert longer[start..] == digits + [b];
      ValueSnoc(digits, b);
      WrapStep(Value(digits), b - 48);
      start', colon' := start, 0;
    } else if b == SEPARATOR_SYMBOL {
      start', colon' := start, |input|;
      assert longer[start..colon'] == digits;
    } else {
      start', colon' := |longer|, 0;
      assert longer[start'..] == [];
    }
  }

  /** At the end of a payload: a comma completes a frame, and the byte is then read in the length state. */
  lemma TrackEnd(input: seq<byte>, b: byte, s: Decoding, frames: seq<Frame>, start: nat, colon: nat)
    returns (frames': seq<Frame>, start': nat, colon': nat)
    requires InFrames(input, s.output, frames, start)
    requires IsHeader(input, start, colon, |s.parsed|) && s.parsed == input[colon + 1..]
    ensures InFrames(input + [b], AtEnd(s, b).output, frames', start')
    ensures Tracks(input + [b], AtEnd(s, b), start', colon') && AtEnd(s, b).panicked == s.panicked
    ensures start' == |input| || start' == |input| + 1
  {
    var longer, reset := input + [b], AfterEnd(s, b);
    FramesExtend(input, b, s.output, frames, start);
    assert input[|input|..] == [];
    start', colon' := TrackLength(input, b, reset, |input|);
    if b == END_SYMBOL {
      var f := Frame(start, colon, |input|);
      HeaderExtend(input, b, start, colon, |s.parsed|);
      assert longer[colon + 1..|input|] == s.parsed;
      frames' := frames + [f];
    } else {
      frames' := frames;
    }
  }

  /** The output in terms of the input: the frames so far, and the header under way. */
  ghost predicate Reads(input: seq<byte>, s: Decoding, frames: seq<Frame>, start: nat, colon: nat) {
    && InFrames(input, s.output, frames, start)
    && (!s.panicked ==> Tracks(input, s, start, colon))
  }

  /** One byte more. The header under way goes on, or a new one starts at this byte or after it. */
  lemma TrackStep(input: seq<byte>, b: byte, s: Decoding, frames: seq<Frame>, start: nat, colon: nat)
    returns (frames': seq<Frame>, start': nat, colon': nat)
    requires Reads(input, s, frames, start, colon)
    ensures Reads(input + [b], Step(s, b), frames', start', colon')
    ensures start' == start || (start' == |input| && ReadsHeader(s)) || start' == |input| + 1
  {
    var longer := input + [b];
    frames', start', colon' := frames, start, colon;
    FramesExtend(input, b, s.output, frames, start);
    if s.panicked {
    } else if s.phase == ParseLength {
      start', colon' := TrackLength(input, b, s, start);
    } else if s.phase == ParseEnd || (s.phase == ParseData && s.length == 0) {
      frames', start', colon' := TrackEnd(input, b, s, frames, start, colon);
    } else if s.length > 0 {
      HeaderExtend(input, b, start, colon, s.length + |s.parsed|);
      assert longer[colon + 1..] == input[colon + 1..] + [b];
    }
  }

  /** The next byte, if it is a digit or a colon, belongs to a new header. */
  predicate ReadsHeader(s: Decoding) {
    && !s.panicked
    && match s.phase
       case ParseLength => s.length == 0 && s.parsed == []
       case ParseSeparator => false
       case ParseData => s.length == 0
       case ParseEnd => true
  }

  /** The invariant of every run from the initial state, on arbitrary bytes. */
  lemma {:induction false} Track(input: seq<byte>) returns (frames: seq<Frame>, start: nat, colon: nat)
    ensures Reads(input, Run(Clean([]), input), frames, start, colon)
    ensures !Run(Clean([]), input).panicked ==> start <= |input| && ReadsHeader(Run(Clean([]), input[..start]))
  {
    if input == [] {
      frames, start, colon := [], 0, 0;
      return;
    }
    var n := |input| - 1;
    var before, b := input[..n], input[n];
    var s := Run(Clean([]), before);
    var frames0, start0, colon0 := Track(before);
    assert input == before + [b];
    frames, start, colon := TrackStep(before, b, s, frames0, start0, colon0);
    if !Run(Clean([]), input).panicked {
      assert !s.panicked;
      if start <= n {
        assert input[..start] == before[..start];
        assert before[..n] == before;
      } else {
        assert input[..start] == input;
      }
    }
  }

  /**
   * Soundness on arbitrary bytes: the emitted payloads are, in order, disjoint
   * substrings of the input of the form digits ':' payload ','.
   */
  lemma DecoderIsSound(input: seq<byte>) returns (frames: seq<Frame>)
    ensures InFrames(input, Run(Clean([]), input).output, frames, |input|)
  {
    var start, colon;
    frames, start, colon := Track(input);
  }

  // ---------------------------------------------------------------- panics

  lemma RunHeaderFrom(s: Decoding, digits: seq<byte>, b: byte)
    requires ReadsHeader(s) && AllDigits(digits) && digits != []
    ensures Run(s, digits + [SEPARATOR_SYMBOL] + [b]).panicked <==> Wrap64(Value(digits)) < 0
  {
    var tail := [SEPARATOR_SYMBOL] + [b];
    var data := digits + [SEPARATOR_SYMBOL] + [b];
    assert data == digits + tail;
    assert Step(s, data[0]) == Step(Clean(s.output), data[0]);
    SameFirstStep(s, Clean(s.output), data);
    RunDigits(s.output, digits);
    RunConcat(Clean(s.output), digits, tail);
    var s1 := Run(Clean(s.output), digits);
    RunConcat(s1, [SEPARATOR_SYMBOL], [b]);
    RunOne(s1, SEPARATOR_SYMBOL);
    RunOne(Run(s1, [SEPARATOR_SYMBOL]), b);
  }

  /**
   * A header that the decoder reads: it starts where a header is due, spells a
   * number that the 64-bit counter reads as negative, and a byte follows it.
   */
  ghost predicate PanicsAt(input: seq<byte>, start: nat, colon: nat) {
    && start <= colon && colon + 1 < |input|
    && AllDigits(input[start..colon])
    && input[colon] == SEPARATOR_SYMBOL
    && Wrap64(Value(input[start..colon])) < 0
    && ReadsHeader(Run(Clean([]), input[..start]))
  }

  lemma {:induction false} PanicHasHeader(input: seq<byte>) returns (start: nat, colon: nat)
    requires Run(Clean([]), input).panicked
    ensures PanicsAt(input, start, colon)
  {
    var before := input[..|input| - 1];
    if Run(Clean([]), before).panicked {
      start, colon := PanicHasHeader(before);
    } else {
      var frames;
      frames, start, colon := Track(before);
      assert Run(Clean([]), before).phase == ParseData;
    }
    assert input[start..colon] == before[start..colon] && input[..start] == before[..start];
  }

  lemma HeaderPanics(input: seq<byte>, start: nat, colon: nat)
    requires PanicsAt(input, start, colon)
    ensures Run(Clean([]), input).panicked
  {
    var s, digits := Run(Clean([]), input[..start]), input[start..colon];
    var head, b := digits + [SEPARATOR_SYMBOL] + [input[colon + 1]], input[colon + 1];
    RunHeaderFrom(s, digits, b);
    assert input[..start] + head == input[..colon + 2];
    assert input == input[..start] + head + input[colon + 2..];
    RunConcat(Clean([]), input[..start], head);
    RunConcat(Clean([]), input[..start] + head, input[colon + 2..]);
    RunPanicked(Run(s, head), input[colon + 2..]);
  }

  /** Feeding panics exactly when some header that the decoder reads is negative to it and a byte follows. */
  lemma PanicsIff(input: seq<byte>)
    ensures Run(Clean([]), input).panicked <==> exists start, colon :: PanicsAt(input, start, colon)
  {
    if Run(Clean([]), input).panicked {
      var start, colon := PanicHasHeader(input);
    }
    if start, colon :| PanicsAt(input, start, colon) {
      HeaderPanics(input, start, colon);
    }
  }

  /** In particular the header spells a number of at least 2^63. */
  lemma PanicNeedsHugeHeader(input: seq<byte>) returns (start: nat, colon: nat)
    requires Run(Clean([]), input).panicked
    ensures start <= colon < |input| && AllDigits(input[start..colon]) && input[colon] == SEPARATOR_SYMBOL
    ensures Value(input[start..colon]) >= TWO63
  {
    start, colon := PanicHasHeader(input);
  }

  /** An input that panics: 9223372036854775808, a colon and any byte. */
  lemma SmallestPanic(b: byte)
    ensures Run(Clean([]), Itoa(TWO63) + [SEPARATOR_SYMBOL] + [b]).panicked
  {
    ValueOfItoa(TWO63);
    RunHeaderFrom(Clean([]), Itoa(TWO63), b);
  }

  /** Not every header of at least 2^63 panics: 2^64 + n is read as n, for every n below 2^63. */
  lemma WrappedHeader(n: nat, b: byte)
    requires n < TWO63
    ensures !Run(Clean([]), Itoa(TWO64 + n) + [SEPARATOR_SYMBOL] + [b]).panicked
  {
    ValueOfItoa(TWO64 + n);
    RunHeaderFrom(Clean([]), Itoa(TWO64 + n), b);
    assert Wrap64(TWO64 + n) == n;
  }

  /** A header below 2^63 is read as the number it spells. */
  lemma FrameLengthIsExact(input: seq<byte>, f: Frame, payload: seq<byte>)
    requires IsFrame(input, f, payload)
    ensures Value(input[f.start..f.colon]) >= |payload|
    ensures Value(input[f.start..f.colon]) < TWO63 ==> Value(input[f.start..f.colon]) == |payload|
  {
    var v := Value(input[f.start..f.colon]);
    if v >= TWO63 {
      assert |payload| < TWO63;
    }
  }

  // ---------------------------------------------------------------- round trip

  lemma {:induction false} RunDigits(out: seq<seq<byte>>, digits: seq<byte>)
    requires AllDigits(digits)
    ensures Run(Clean(out), digits) == Clean(out).(length := Wrap64(Value(digits)))
  {
    if digits != [] {
      var n := |digits| - 1;
      RunDigits(out, digits[..n]);
      WrapStep(Value(digits[..n]), digits[n] - 48);
    }
  }

  /** After the header of a payload the decoder waits for that many bytes. */
  lemma RunHeader(out: seq<seq<byte>>, n: nat)
    requires n < TWO63
    ensures Run(Clean(out), Itoa(n) + [SEPARATOR_SYMBOL]) == Decoding(ParseData, n, [], out, false)
  {
    ValueOfItoa(n);
    RunDigits(out, Itoa(n));
    RunConcat(Clean(out), Itoa(n), [SEPARATOR_SYMBOL]);
    RunOne(Run(Clean(out), Itoa(n)), SEPARATOR_SYMBOL);
  }

  /** Decoding the encoding of one payload emits it and returns to the initial state. */
  lemma RunEncode(out: seq<seq<byte>>, payload: seq<byte>)
    requires |payload| < TWO63
    ensures Run(Clean(out), Encode(payload)) == Clean(out + [payload])
  {
    var header := Itoa(|payload|) + [SEPARATOR_SYMBOL];
    RunHeader(out, |payload|);
    var inData := Run(Clean(out), header);
    RunConcat(Clean(out), header, payload);
    if payload != [] {
      RunInData(inData, payload);
    }
    RunConcat(Clean(out), header + payload, [END_SYMBOL]);
    RunOne(Run(inData, payload), END_SYMBOL);
    assert [] + payload == payload;
    assert Encode(payload) == header + payload + [END_SYMBOL];
  }

  function EncodeAll(payloads: seq<seq<byte>>): seq<byte> {
    if payloads == [] then [] else EncodeAll(payloads[..|payloads| - 1]) + Encode(payloads[|payloads| - 1])
  }

  lemma {:induction false} RunEncodeAll(payloads: seq<seq<byte>>)
    requires forall k :: 0 <= k < |payloads| ==> |payloads[k]| < TWO63
    ensures Run(Clean([]), EncodeAll(payloads)) == Clean(payloads)
  {
    hide Encode, Step, Clean;
    if payloads != [] {
      var n := |payloads| - 1;
      RunEncodeAll(payloads[..n]);
      RunEncode(payloads[..n], payloads[n]);
      RunConcat(Clean([]), EncodeAll(payloads[..n]), Encode(payloads[n]));
      assert payloads == payloads[..n] + [payloads[n]];
    }
  }

  // ---------------------------------------------------------------- the read loop

  /** The discard rule of the channel's read loop, applied after every chunk. */
  function Discard(s: Decoding): Decoding {
    if s.length > PAYLOAD_MAX_LEN then AfterReset(s) else s
  }

  function ReadLoop(s: Decoding, chunks: seq<seq<byte>>): Decoding {
    if chunks == [] then s else Discard(Run(ReadLoop(s, chunks[..|chunks| - 1]), chunks[|chunks| - 1]))
  }

  /** The read loop of the channel over the chunks its socket returns; a panic ends the process. */
  method RunReadLoop(decoder: Decoder, chunks: seq<seq<byte>>) returns (panicked: bool, ghost seen: nat)
    modifies decoder
    ensures seen <= |chunks| && (!panicked ==> seen == |chunks|)
    ensures !panicked ==> decoder.View() == ReadLoop(old(decoder.View()), chunks)
    ensures panicked ==> seen > 0 && Run(ReadLoop(old(decoder.View()), chunks[..seen - 1]), chunks[seen - 1]).panicked
  {
    ghost var s0 := decoder.View();
    seen := 0;
    for i := 0 to |chunks|
      invariant seen == i && decoder.View() == ReadLoop(s0, chunks[..i])
    {
      assert chunks[..i + 1][..i] == chunks[..i];
      ghost var calls;
      panicked, calls := decoder.Feed(chunks[i]);
      seen := i + 1;
      if panicked {
        return;
      }
      if decoder.length > PAYLOAD_MAX_LEN {
        decoder.Reset();
      }
    }
    assert chunks[..|chunks|] == chunks;
    panicked := false;
  }

  lemma {:induction false} ValuePrefix(digits: seq<byte>, n: nat)
    requires AllDigits(digits) && n <= |digits|
    ensures AllDigits(digits[..n]) && Value(digits[..n]) <= Value(digits)
  {
    if n == |digits| {
      assert digits[..n] == digits;
    } else {
      var m := |digits| - 1;
      ValuePrefix(digits[..m], n);
      assert digits[..m][..n] == digits[..n];
    }
  }

  /** What the decoder's counter holds after `cut` bytes of the encoding of a payload of `n` bytes. */
  ghost function Counter(n: nat, cut: nat): nat {
    ValueOfItoa(n);
    var digits := Itoa(n);
    if cut <= |digits| then Value(digits[..cut])
    else if cut <= |digits| + 1 + n then n - (cut - |digits| - 1)
    else 0
  }

  lemma CounterWithin(n: nat, cut: nat)
    ensures Counter(n, cut) <= n
  {
    ValueOfItoa(n);
    if cut <= |Itoa(n)| {
      ValuePrefix(Itoa(n), cut);
    }
  }

  /** Inside one encoding the decoder's state is known: it has read that much, and emitted nothing before the end. */
  lemma RunWithinEncode(out: seq<seq<byte>>, payload: seq<byte>, cut: nat)
    requires |payload| < TWO63 && cut <= |Encode(payload)|
    ensures var s := Run(Clean(out), Encode(payload)[..cut]);
            && s.length == Counter(|payload|, cut)
            && !s.panicked
            && s.output == if cut == |Encode(payload)| then out + [payload] else out
  {
    var digits := Itoa(|payload|);
    ValueOfItoa(|payload|);
    var header := digits + [SEPARATOR_SYMBOL];
    var whole := Encode(payload);
    assert whole == header + payload + [END_SYMBOL];
    if cut <= |digits| {
      assert whole[..cut] == digits[..cut];
      ValuePrefix(digits, cut);
      RunDigits(out, digits[..cut]);
    } else if cut == |whole| {
      assert whole[..cut] == whole;
      RunEncode(out, payload);
    } else {
      RunHeader(out, |payload|);
      var m := cut - |header|;
      assert whole[..cut] == header + payload[..m];
      RunConcat(Clean(out), header, payload[..m]);
      if m > 0 {
        RunInData(Run(Clean(out), header), payload[..m]);
      }
    }
  }

  lemma {:induction false} LengthWithin(payloads: seq<seq<byte>>, n: nat)
    requires forall k :: 0 <= k < |payloads| ==> |payloads[k]| <= PAYLOAD_MAX_LEN
    requires n <= |EncodeAll(payloads)|
    ensures Run(Clean([]), EncodeAll(payloads)[..n]).length <= PAYLOAD_MAX_LEN
  {
    if payloads != [] {
      var last := |payloads| - 1;
      var before := EncodeAll(payloads[..last]);
      if n <= |before| {
        assert EncodeAll(payloads)[..n] == before[..n];
        LengthWithin(payloads[..last], n);
      } else {
        var m := n - |before|;
        assert EncodeAll(payloads)[..n] == before + Encode(payloads[last])[..m];
        RunEncodeAll(payloads[..last]);
        RunConcat(Clean([]), before, Encode(payloads[last])[..m]);
        RunWithinEncode(payloads[..last], payloads[last], m);
        CounterWithin(|payloads[last]|, m);
      }
    }
  }

  lemma {:induction false} FlattenPrefix(chunks: seq<seq<byte>>, k: nat)
    requires k <= |chunks|
    ensures |Flatten(chunks[..k])| <= |Flatten(chunks)|
    ensures Flatten(chunks)[..|Flatten(chunks[..k])|] == Flatten(chunks[..k])
  {
    if k == |chunks| {
      assert chunks[..k] == chunks;
    } else {
      var n := |chunks| - 1;
      FlattenPrefix(chunks[..n], k);
      assert chunks[..n][..k] == chunks[..k];
    }
  }

  /** As long as the counter stays within bounds at every cut, the read loop is plain decoding. */
  lemma {:induction false} ReadLoopIsRun(chunks: seq<seq<byte>>, k: nat)
    requires k <= |chunks|
    requires forall j :: 0 <= j <= k ==> Run(Clean([]), Flatten(chunks[..j])).length <= PAYLOAD_MAX_LEN
    ensures ReadLoop(Clean([]), chunks[..k]) == Run(Clean([]), Flatten(chunks[..k]))
  {
    if k > 0 {
      ReadLoopIsRun(chunks, k - 1);
      assert chunks[..k][..k - 1] == chunks[..k - 1];
      RunConcat(Clean([]), Flatten(chunks[..k - 1]), chunks[k - 1]);
    }
  }

  /**
   * Round trip through the read loop: payloads of at most 65536 bytes, encoded
   * one after the other and cut into chunks anywhere, come out in order, the
   * decoder ends in its initial state, and nothing is ever discarded.
   */
  lemma StreamRoundTrip(payloads: seq<seq<byte>>, chunks: seq<seq<byte>>)
    requires forall k :: 0 <= k < |payloads| ==> |payloads[k]| <= PAYLOAD_MAX_LEN
    requires Flatten(chunks) == EncodeAll(payloads)
    ensures ReadLoop(Clean([]), chunks) == Clean(payloads)
    ensures forall k :: 0 <= k <= |chunks| ==> ReadLoop(Clean([]), chunks[..k]) == RunAll(Clean([]), chunks[..k])
  {
    forall k | 0 <= k <= |chunks|
      ensures Run(Clean([]), Flatten(chunks[..k])).length <= PAYLOAD_MAX_LEN
    {
      FlattenPrefix(chunks, k);
      LengthWithin(payloads, |Flatten(chunks[..k])|);
    }
    forall k | 0 <= k <= |chunks|
      ensures ReadLoop(Clean([]), chunks[..k]) == RunAll(Clean([]), chunks[..k])
    {
      ReadLoopIsRun(chunks, k);
      RunAllIsRun(Clean([]), chunks[..k]);
    }
    assert chunks[..|chunks|] == chunks;
    ReadLoopIsRun(chunks, |chunks|);
    RunEncodeAll(payloads);
  }

  // ---------------------------------------------------------------- soundness of the read loop

  lemma {:induction false} TrackRun(
      input: seq<byte>, data: seq<byte>, s: Decoding, frames: seq<Frame>, start: nat, colon: nat)
    returns (frames': seq<Frame>, start': nat, colon': nat)
    requires Reads(input, s, frames, start, colon)
    ensures Reads(input + data, Run(s, data), frames', start', colon')
  {
    if data == [] {
      assert input + data == input;
      return frames, start, colon;
    }
    var n := |data| - 1;
    frames', start', colon' := TrackRun(input, data[..n], s, frames, start, colon);
    frames', start', colon' := TrackStep(input + data[..n], data[n], Run(s, data[..n]), frames', start', colon');
    assert input + data[..n] + [data[n]] == input + data;
  }

  /** The invariant of the read loop: after a discard a header is due again. */
  lemma {:induction false} TrackLoop(chunks: seq<seq<byte>>) returns (frames: seq<Frame>, start: nat, colon: nat)
    ensures Reads(Flatten(chunks), ReadLoop(Clean([]), chunks), frames, start, colon)
  {
    if chunks == [] {
      return [], 0, 0;
    }
    var n := |chunks| - 1;
    var input, s := Flatten(chunks[..n]), ReadLoop(Clean([]), chunks[..n]);
    frames, start, colon := TrackLoop(chunks[..n]);
    frames, start, colon := TrackRun(input, chunks[n], s, frames, start, colon);
    if Run(s, chunks[n]).length > PAYLOAD_MAX_LEN {
      start, colon := |Flatten(chunks)|, 0;
    }
  }

  /** Soundness of the read loop on arbitrary chunks, whatever it discards between them. */
  lemma ReadLoopIsSound(chunks: seq<seq<byte>>) returns (frames: seq<Frame>)
    ensures InFrames(Flatten(chunks), ReadLoop(Clean([]), chunks).output, frames, |Flatten(chunks)|)
  {
    var start, colon;
    frames, start, colon := TrackLoop(chunks);
  }

  // ---------------------------------------------------------------- oversize payloads

  lemma {:induction false} ReadLoopConcat(s: Decoding, a: seq<seq<byte>>, b: seq<seq<byte>>)
    ensures ReadLoop(s, a + b) == ReadLoop(ReadLoop(s, a), b)
  {
    if b == [] {
      assert a + b == a;
    } else {
      var n := |b| - 1;
      assert (a + b)[..|a + b| - 1] == a + b[..n];
      ReadLoopConcat(s, a, b[..n]);
    }
  }

  lemma {:induction false} FlattenConcat(a: seq<seq<byte>>, b: seq<seq<byte>>)
    ensures Flatten(a + b) == Flatten(a) + Flatten(b)
  {
    if b == [] {
      assert a + b == a;
    } else {
      var n := |b| - 1;
      assert (a + b)[..|a + b| - 1] == a + b[..n];
      FlattenConcat(a, b[..n]);
    }
  }

  /** A numeral without its first digits spells less. */
  lemma {:induction false} SuffixSpellsLess(n: nat, i: nat)
    requires n > 0 && 0 < i <= |Itoa(n)|
    ensures AllDigits(Itoa(n)[i..]) && Value(Itoa(n)[i..]) < n
  {
    ValueOfItoa(n);
    if i == |Itoa(n)| {
      assert Itoa(n)[i..] == [];
    } else {
      SuffixSpellsLess(n / 10, i);
      var head := Itoa(n / 10)[i..];
      assert Itoa(n)[i..] == head + [48 + n % 10];
      ValueSnoc(head, 48 + n % 10);
    }
  }

  /** What is left of an encoding after its first byte does not frame the payload. */
  lemma NoFrameInRest(payload: seq<byte>, cut: nat, f: Frame)
    requires 0 < |payload| < TWO63 && 0 < cut <= |Encode(payload)|
    ensures !IsFrame(Encode(payload)[cut..], f, payload)
  {
    var rest, digits := Encode(payload)[cut..], Itoa(|payload|);
    ValueOfItoa(|payload|);
    forall j | 0 <= j < |digits| - cut
      ensures IsDigit(rest[j])
    {
      assert rest[j] == digits[cut + j];
    }
    if IsFrame(rest, f, payload) {
      assert |rest| >= f.colon + |payload| + 2;
      assert rest[f.start..f.colon] == digits[cut + f.start..];
      SuffixSpellsLess(|payload|, cut + f.start);
    }
  }

  /** Neither the start nor any of the first `k` chunks leaves the counter above 65536, where the read loop discards. */
  ghost predicate CutsWithin(payload: seq<byte>, chunks: seq<seq<byte>>, k: nat)
    requires k <= |chunks|
  {
    forall j :: 0 <= j <= k ==> Counter(|payload|, |Flatten(chunks[..j])|) <= PAYLOAD_MAX_LEN
  }

  lemma StateAtCut(payload: seq<byte>, chunks: seq<seq<byte>>, k: nat)
    requires |payload| < TWO63 && Flatten(chunks) == Encode(payload) && k <= |chunks|
    ensures var cut, s := |Flatten(chunks[..k])|, Run(Clean([]), Flatten(chunks[..k]));
            && cut <= |Encode(payload)|
            && s.length == Counter(|payload|, cut)
            && !s.panicked
            && s.output == if cut == |Encode(payload)| then [payload] else []
  {
    FlattenPrefix(chunks, k);
    RunWithinEncode([], payload, |Flatten(chunks[..k])|);
  }

  lemma CutsWithinIsReceived(payload: seq<byte>, chunks: seq<seq<byte>>, k: nat)
    requires |payload| < TWO63 && Flatten(chunks) == Encode(payload) && k <= |chunks|
    requires CutsWithin(payload, chunks, k)
    ensures ReadLoop(Clean([]), chunks[..k]) == Run(Clean([]), Flatten(chunks[..k]))
  {
    forall j | 0 <= j <= k
      ensures Run(Clean([]), Flatten(chunks[..j])).length <= PAYLOAD_MAX_LEN
    {
      StateAtCut(payload, chunks, j);
    }
    ReadLoopIsRun(chunks, k);
  }

  /** The first cut above 65536 discards what was read, and the rest does not frame the payload. */
  lemma FirstDiscardLoses(payload: seq<byte>, chunks: seq<seq<byte>>, k: nat)
    requires |payload| < TWO63 && Flatten(chunks) == Encode(payload) && 0 < k <= |chunks|
    requires CutsWithin(payload, chunks, k - 1)
    requires Counter(|payload|, |Flatten(chunks[..k])|) > PAYLOAD_MAX_LEN
    ensures payload !in ReadLoop(Clean([]), chunks).output
  {
    var before, after, cut := chunks[..k], chunks[k..], |Flatten(chunks[..k])|;
    assert before[..k - 1] == chunks[..k - 1];
    CutsWithinIsReceived(payload, chunks, k - 1);
    RunConcat(Clean([]), Flatten(chunks[..k - 1]), chunks[k - 1]);
    StateAtCut(payload, chunks, k);
    assert ReadLoop(Clean([]), before) == Clean([]);
    assert chunks == before + after;
    ReadLoopConcat(Clean([]), before, after);
    FlattenConcat(before, after);
    CounterWithin(|payload|, cut);
    CounterAtZero(|payload|);
    RestLoses(payload, after, cut);
  }

  lemma RestLoses(payload: seq<byte>, after: seq<seq<byte>>, cut: nat)
    requires 0 < |payload| < TWO63 && 0 < cut <= |Encode(payload)| && Flatten(after) == Encode(payload)[cut..]
    ensures payload !in ReadLoop(Clean([]), after).output
  {
    hide Encode, ReadLoop;
    var frames := ReadLoopIsSound(after);
    var output := ReadLoop(Clean([]), after).output;
    forall i | 0 <= i < |output|
      ensures output[i] != payload
    {
      assert IsFrame(Flatten(after), frames[i], output[i]);
      NoFrameInRest(payload, cut, frames[i]);
    }
  }

  lemma CounterAtZero(n: nat)
    ensures Counter(n, 0) == 0
  {
    assert Itoa(n)[..0] == [];
  }

  /**
   * One payload of any size, for every cut of its encoding: it is received
   * exactly when no chunk ends where the counter is above 65536, that is with
   * more than 65536 bytes to come, or inside a header that spells that much
   * already; and then nothing else is received.
   */
  lemma ReceivedIff(payload: seq<byte>, chunks: seq<seq<byte>>)
    requires |payload| < TWO63 && Flatten(chunks) == Encode(payload)
    ensures payload in ReadLoop(Clean([]), chunks).output <==> CutsWithin(payload, chunks, |chunks|)
    ensures CutsWithin(payload, chunks, |chunks|) ==> ReadLoop(Clean([]), chunks) == Clean([payload])
  {
    assert chunks[..|chunks|] == chunks;
    if CutsWithin(payload, chunks, |chunks|) {
      CutsWithinIsReceived(payload, chunks, |chunks|);
      RunEncode([], payload);
      assert [] + [payload] == [payload];
    } else {
      var j :| 0 <= j <= |chunks| && Counter(|payload|, |Flatten(chunks[..j])|) > PAYLOAD_MAX_LEN;
      var k := FirstBadCut(payload, chunks, j);
      FirstDiscardLoses(payload, chunks, k);
    }
  }

  lemma {:induction false} FirstBadCut(payload: seq<byte>, chunks: seq<seq<byte>>, j: nat) returns (k: nat)
    requires j <= |chunks| && Counter(|payload|, |Flatten(chunks[..j])|) > PAYLOAD_MAX_LEN
    ensures 0 < k <= j && Counter(|payload|, |Flatten(chunks[..k])|) > PAYLOAD_MAX_LEN
    ensures CutsWithin(payload, chunks, k - 1)
  {
    CounterAtZero(|payload|);
    assert chunks[..0] == [];
    if i :| 0 <= i < j && Counter(|payload|, |Flatten(chunks[..i])|) > PAYLOAD_MAX_LEN {
      k := FirstBadCut(payload, chunks, i);
    } else {
      k := j;
    }
  }

  /** Chunks that reads into the channel's buffer can return. */
  ghost predicate Readable(chunks: seq<seq<byte>>) {
    forall i :: 0 <= i < |chunks| ==> |chunks[i]| <= PAYLOAD_MAX_LEN
  }

  function Pieces(data: seq<byte>): seq<seq<byte>> {
    if |data| <= PAYLOAD_MAX_LEN then [data]
    else Pieces(data[..|data| - PAYLOAD_MAX_LEN]) + [data[|data| - PAYLOAD_MAX_LEN..]]
  }

  lemma {:induction false} PiecesAreReadable(data: seq<byte>)
    ensures Readable(Pieces(data)) && Flatten(Pieces(data)) == data
  {
    if |data| <= PAYLOAD_MAX_LEN {
      assert [data][..0] == [];
    } else {
      var n := |data| - PAYLOAD_MAX_LEN;
      PiecesAreReadable(data[..n]);
      assert Pieces(data)[..|Pieces(data)| - 1] == Pieces(data[..n]);
    }
  }

  /** A longer payload is lost by full reads of its bytes after a read of the header alone. */
  lemma OversizeIsLost(payload: seq<byte>) returns (chunks: seq<seq<byte>>)
    requires PAYLOAD_MAX_LEN < |payload| < TWO63
    ensures Readable(chunks) && Flatten(chunks) == Encode(payload)
    ensures payload !in ReadLoop(Clean([]), chunks).output
  {
    var header, rest := Itoa(|payload|) + [SEPARATOR_SYMBOL], payload + [END_SYMBOL];
    var head := Pieces(header);
    chunks := head + Pieces(rest);
    PiecesAreReadable(header);
    PiecesAreReadable(rest);
    FlattenConcat(head, Pieces(rest));
    assert Encode(payload) == header + rest;
    assert chunks[..|head|] == head;
    ReceivedIff(payload, chunks);
  }

  /** One payload survives every sequence of reads exactly when it has at most 65536 bytes. */
  lemma SurvivesEveryCutIff(payload: seq<byte>)
    requires |payload| < TWO63
    ensures (forall chunks :: Readable(chunks) && Flatten(chunks) == Encode(payload) ==>
                                payload in ReadLoop(Clean([]), chunks).output)
       <==> |payload| <= PAYLOAD_MAX_LEN
  {
    if |payload| <= PAYLOAD_MAX_LEN {
      forall chunks | Readable(chunks) && Flatten(chunks) == Encode(payload)
        ensures payload in ReadLoop(Clean([]), chunks).output
      {
        forall j | 0 <= j <= |chunks|
          ensures Counter(|payload|, |Flatten(chunks[..j])|) <= PAYLOAD_MAX_LEN
        {
          CounterWithin(|payload|, |Flatten(chunks[..j])|);
        }
        ReceivedIff(payload, chunks);
      }
    } else {
      var chunks := OversizeIsLost(payload);
    }
  }
}
