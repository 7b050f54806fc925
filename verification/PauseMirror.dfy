/**
 * The pause machine of consumers and producers (mediasoup/consumer.go,
 * mediasoup/producer.go), and the pipe producer that mirrors a pipe consumer
 * through observer events (mediasoup/router.go). Calls and notifications run
 * one at a time; whether a worker request succeeds is an input.
 */
module PauseMirror {

  datatype Op =
    | Pause(ok: bool)
    | Resume(ok: bool)
    | ProducerPause
    | ProducerResume

  datatype Signal = Paused | Resumed

  /** A consumer's flags and the pause and resume events its observer has seen. */
  datatype Flags = Flags(paused: bool, producerPaused: bool, seen: seq<Signal>) {
    predicate Effective() {
      paused || producerPaused
    }
  }

  function Note(c: Flags, emit: bool, signal: Signal): Flags {
    if emit then c.(seen := c.seen + [signal]) else c
  }

  function Apply(c: Flags, op: Op): Flags {
    var was := c.Effective();
    match op
    case Pause(ok) => if ok then Note(c.(paused := true), !was, Paused) else c
    case Resume(ok) => if ok then Note(c.(paused := false), was && !c.producerPaused, Resumed) else c
    case ProducerPause => if c.producerPaused then c else Note(c.(producerPaused := true), !was, Paused)
    case ProducerResume => if !c.producerPaused then c else Note(c.(producerPaused := false), was && !c.paused, Resumed)
  }

  function Run(c: Flags, ops: seq<Op>): Flags {
    if ops == [] then c else Apply(Run(c, ops[..|ops| - 1]), ops[|ops| - 1])
  }

  // ---------------------------------------------------------------- objects

  class Producer {
    var paused: bool
    var seen: seq<Signal>

    constructor (paused: bool)
      ensures this.paused == paused && seen == []
    {
      this.paused, seen := paused, [];
    }

    /** Pause or Resume: a failed request changes nothing. */
    method SetPaused(value: bool, ok: bool)
      modifies this
      ensures paused == if ok then value else old(paused)
      ensures seen == old(seen) + if ok && old(paused) != value then [if value then Paused else Resumed] else []
    {
      var wasPaused := paused;
      if !ok {
        return;
      }
      paused := value;
      if wasPaused != value {
        seen := seen + [if value then Paused else Resumed];
      }
    }
  }

  /** The pipe producer's flag after the consumer's events `seen`, given which of its requests succeed. */
  function Mirrored(start: bool, seen: seq<Signal>, oks: seq<bool>): bool
    requires |oks| == |seen|
  {
    if seen == [] then start
    else
      var n := |seen| - 1;
      if oks[n] then seen[n].Paused? else Mirrored(start, seen[..n], oks[..n])
  }

  /** A pipe consumer, linked to its pipe producer by its observer's pause and resume events. */
  class PipeConsumer {
    var paused: bool
    var producerPaused: bool
    var seen: seq<Signal>
    const pipeProducer: Producer
    ghost var oks: seq<bool>
    ghost var start: bool

    ghost function View(): Flags
      reads this
    {
      Flags(paused, producerPaused, seen)
    }

    ghost predicate Valid()
      reads this, pipeProducer
    {
      |oks| == |seen| && pipeProducer.paused == Mirrored(start, seen, oks)
    }

    /** PipeToRouter: the pipe producer starts with the consumer's producerPaused. */
    constructor (paused: bool, producerPaused: bool)
      ensures View() == Flags(paused, producerPaused, []) && start == producerPaused && oks == []
      ensures Valid() && fresh(pipeProducer)
    {
      this.paused, this.producerPaused, seen := paused, producerPaused, [];
      pipeProducer := new Producer(producerPaused);
      oks, start := [], producerPaused;
    }

    /** Emitting a pause or resume event runs the link's callback. */
    method Emit(signal: Signal, linkOk: bool)
      requires Valid()
      modifies this`seen, this`oks, pipeProducer
      ensures Valid() && seen == old(seen) + [signal] && oks == old(oks) + [linkOk]
    {
      pipeProducer.SetPaused(signal.Paused?, linkOk);
      seen := seen + [signal];
      oks := oks + [linkOk];
      assert seen[..|seen| - 1] == old(seen) && oks[..|seen| - 1] == old(oks);
    }

    /** Consumer.Pause and Resume, and the worker's producerpause and producerresume notifications. */
    method Perform(op: Op, linkOk: bool)
      requires Valid()
      modifies this`paused, this`producerPaused, this`seen, this`oks, pipeProducer
      ensures Valid() && View() == Apply(old(View()), op)
      ensures oks == old(oks) + if seen == old(seen) then [] else [linkOk]
    {
      var wasPaused := paused || producerPaused;
      match op {
        case Pause(ok) =>
          if ok {
            paused := true;
            if !wasPaused {
              Emit(Paused, linkOk);
            }
          }
        case Resume(ok) =>
          if ok {
            paused := false;
            if wasPaused && !producerPaused {
              Emit(Resumed, linkOk);
            }
          }
        case ProducerPause =>
          if !producerPaused {
            producerPaused := true;
            if !wasPaused {
              Emit(Paused, linkOk);
            }
          }
        case ProducerResume =>
          if producerPaused {
            producerPaused := false;
            if wasPaused && !paused {
              Emit(Resumed, linkOk);
            }
          }
      }
    }
  }

  // ---------------------------------------------------------------- replay

  /** What an observer that started from `paused` believes after the events it has seen. */
  function Replay(paused: bool, seen: seq<Signal>): bool {
    if seen == [] then paused else seen[|seen| - 1].Paused?
  }

  /** Every event reverses the previous one, the first one the initial value. */
  ghost predicate Alternates(paused: bool, seen: seq<Signal>) {
    forall i :: 0 <= i < |seen| ==> seen[i].Paused? != Replay(paused, seen[..i])
  }

  lemma AlternatesSnoc(paused: bool, seen: seq<Signal>, signal: Signal)
    requires Alternates(paused, seen) && signal.Paused? != Replay(paused, seen)
    ensures Alternates(paused, seen + [signal])
  {
    var all := seen + [signal];
    forall i | 0 <= i < |all|
      ensures all[i].Paused? != Replay(paused, all[..i])
    {
      assert all[..i] == seen[..i];
      assert i == |seen| ==> seen[..i] == seen;
    }
  }

  /** Over every run the observer's events alternate and replay to paused || producerPaused. */
  lemma {:induction false} EventsReplay(c: Flags, ops: seq<Op>)
    requires c.seen == []
    ensures Alternates(c.Effective(), Run(c, ops).seen)
    ensures Replay(c.Effective(), Run(c, ops).seen) == Run(c, ops).Effective()
  {
    if ops != [] {
      var n := |ops| - 1;
      EventsReplay(c, ops[..n]);
      var before, after := Run(c, ops[..n]), Run(c, ops);
      if after.seen != before.seen {
        AlternatesSnoc(c.Effective(), before.seen, after.seen[|before.seen|]);
      }
    }
  }

  /** The last Pause or Resume that the worker confirmed, if any, says whether the consumer is paused. */
  function LastConfirmed(paused: bool, ops: seq<Op>): bool {
    if ops == [] then paused
    else
      match ops[|ops| - 1]
      case Pause(true) => true
      case Resume(true) => false
      case _ => LastConfirmed(paused, ops[..|ops| - 1])
  }

  /** The last notification, if any, says whether its producer is. */
  function LastNotified(paused: bool, ops: seq<Op>): bool {
    if ops == [] then paused
    else
      match ops[|ops| - 1]
      case ProducerPause => true
      case ProducerResume => false
      case _ => LastNotified(paused, ops[..|ops| - 1])
  }

  /** Over every run each flag is what the last confirmed call, or the last notification, has made it. */
  lemma {:induction false} FlagsFollow(c: Flags, ops: seq<Op>)
    ensures Run(c, ops).paused == LastConfirmed(c.paused, ops)
    ensures Run(c, ops).producerPaused == LastNotified(c.producerPaused, ops)
  {
    if ops != [] {
      FlagsFollow(c, ops[..|ops| - 1]);
    }
  }

  // ---------------------------------------------------------------- mirror

  /** How many of the last link requests have failed since one succeeded. */
  function FailuresSince(oks: seq<bool>): nat {
    if oks == [] || oks[|oks| - 1] then 0 else 1 + FailuresSince(oks[..|oks| - 1])
  }

  function AnyOk(oks: seq<bool>): bool {
    oks != [] && (oks[|oks| - 1] || AnyOk(oks[..|oks| - 1]))
  }

  lemma {:induction false} MirroredIff(paused: bool, start: bool, seen: seq<Signal>, oks: seq<bool>)
    requires |oks| == |seen| && Alternates(paused, seen)
    ensures Mirrored(start, seen, oks) == Replay(paused, seen) <==>
            if AnyOk(oks) then FailuresSince(oks) % 2 == 0 else (FailuresSince(oks) % 2 == 0) == (start == paused)
  {
    if seen != [] {
      var n := |seen| - 1;
      forall i | 0 <= i < n
        ensures seen[..n][i].Paused? != Replay(paused, seen[..n][..i])
      {
        assert seen[..n][..i] == seen[..i];
      }
      assert seen[n].Paused? != Replay(paused, seen[..n]);
      MirroredIff(paused, start, seen[..n], oks[..n]);
    }
  }

  /**
   * When every link request succeeds, the pipe producer is paused exactly when
   * its consumer is, after every run, if and only if it was so at the start:
   * the pipe consumer was not created paused with a running producer.
   */
  lemma MirrorIff(c: Flags, ops: seq<Op>, oks: seq<bool>)
    requires c.seen == [] && |oks| == |Run(c, ops).seen|
    requires forall i :: 0 <= i < |oks| ==> oks[i]
    ensures Mirrored(c.producerPaused, Run(c, ops).seen, oks) == Run(c, ops).Effective() <==>
            oks != [] || !(c.paused && !c.producerPaused)
  {
    EventsReplay(c, ops);
    MirroredIff(c.Effective(), c.producerPaused, Run(c, ops).seen, oks);
  }

  /** A pipe consumer created paused for a running producer: it is paused and the pipe producer is not. */
  lemma StartsUnmirrored(c: Flags)
    requires c == Flags(true, false, [])
    ensures Run(c, []).Effective() && !Mirrored(c.producerPaused, Run(c, []).seen, [])
  {
    MirrorIff(c, [], []);
  }
}
