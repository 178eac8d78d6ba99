/** The Kotlin producer's control loop: one fetch, and one capture if it is enabled, a step. */
module ControlLoop {
  import opened Wrappers
  import opened CaptureContract

  /** One step as the environment plays it. */
  datatype Pulse = Pulse(enabled: bool, revision: nat, failAt: nat)

  /** The calls of one step when none raises. */
  function StepPlan(open: bool, p: Pulse): seq<Effect> {
    if !p.enabled then [Fetched(false, p.revision), Closed, Beat(false, p.revision)]
    else if open then [Fetched(true, p.revision), Beat(true, p.revision), Read, Sent]
    else [Fetched(true, p.revision), Opened, Beat(true, p.revision), Read, Sent]
  }

  /** What a step does: closing never raises, and an exception of the fetch or of an enabled
      step closes the capture, while that of a paused heartbeat finds it closed. */
  function StepEffects(open: bool, p: Pulse): seq<Effect> {
    var plan := StepPlan(open, p);
    if p.failAt >= |plan| || plan[p.failAt].Closed? then plan
    else Cut(plan, p.failAt) + (if p.enabled || p.failAt == 0 then [Closed] else [])
  }

  predicate StepReturns(open: bool, p: Pulse) {
    p.failAt >= |StepPlan(open, p)| || StepPlan(open, p)[p.failAt].Closed?
  }

  class ProducerControlLoop {
    var isOpen: bool
    var trace: seq<Effect>

    constructor ()
      ensures !isOpen && trace == []
    {
      isOpen, trace := false, [];
    }

    method CloseCaptureQuietly()
      modifies this
      ensures !isOpen && trace == old(trace) + [Closed]
    {
      isOpen, trace := false, trace + [Closed];
    }

    /** The guarded calls of an enabled step; `done` are their effects. */
    method TryCapture(p: Pulse) returns (ok: bool, done: seq<Effect>)
      requires p.enabled && p.failAt > 0
      modifies this`isOpen
      ensures ok == StepReturns(old(isOpen), p)
      ensures [Fetched(true, p.revision)] + done == Cut(StepPlan(old(isOpen), p), p.failAt)
      ensures ok ==> isOpen
    {
      done := [];
      var calls := 1;
      if !isOpen {
        if p.failAt == calls {
          return false, done;
        }
        isOpen, done, calls := true, [Opened], calls + 1;
      }
      done := done + [Beat(true, p.revision)];
      if p.failAt == calls {
        return false, done;
      }
      done := done + [Read];
      if p.failAt == calls + 1 {
        return false, done;
      }
      done := done + [Sent];
      ok := p.failAt != calls + 2;
    }

    method Step(p: Pulse) returns (ok: bool)
      modifies this
      ensures ok == StepReturns(old(isOpen), p)
      ensures trace == old(trace) + StepEffects(old(isOpen), p)
      ensures isOpen == (ok && p.enabled)
      ensures p.failAt > 4 && p.enabled ==>
                ok && trace == old(trace) + [Fetched(true, p.revision)] + (if old(isOpen) then [] else [Opened])
                               + [Beat(true, p.revision), Read, Sent]
      ensures p.failAt > 4 && !p.enabled ==>
                ok && trace == old(trace) + [Fetched(false, p.revision), Closed, Beat(false, p.revision)]
    {
      if p.failAt == 0 {
        CloseCaptureQuietly();
        return false;
      }
      trace := trace + [Fetched(p.enabled, p.revision)];
      if !p.enabled {
        CloseCaptureQuietly();
        trace := trace + [Beat(false, p.revision)];
        return p.failAt != 2;
      }
      var done: seq<Effect>;
      ok, done := TryCapture(p);
      trace := trace + done;
      if !ok {
        CloseCaptureQuietly();
      }
    }

    method Close()
      modifies this
      ensures !isOpen && trace == old(trace) + [Closed]
    {
      CloseCaptureQuietly();
    }
  }

  lemma StepIsSafe(s: Seen, p: Pulse)
    ensures Safe(s, StepEffects(s.open, p))
    ensures WatchAll(s, StepEffects(s.open, p)).open == (StepReturns(s.open, p) && p.enabled)
  {
    var plan := StepPlan(s.open, p);
    PlanIsSafe(s, p);
    if !StepReturns(s.open, p) {
      var cut := Cut(plan, p.failAt);
      SafePrefix(s, plan, p.failAt);
      if p.enabled || p.failAt == 0 {
        SafeAppend(s, cut, [Closed]);
        Cons(WatchAll(s, cut), Closed, []);
        assert [Closed] + [] == [Closed];
      } else {
        assert cut == plan && cut + [] == cut;
      }
    }
  }

  lemma CaptureIsSafe(s: Seen, revision: nat)
    requires s.open && s.owed && s.desired == Some((true, revision))
    ensures Safe(s, [Beat(true, revision), Read, Sent])
    ensures WatchAll(s, [Beat(true, revision), Read, Sent]) == s.(unsent := false, owed := false)
  {
    Cons(s.(unsent := true, owed := false), Sent, []);
    Cons(s.(owed := false), Read, [Sent]);
    Cons(s, Beat(true, revision), [Read] + [Sent]);
    assert [Sent] + [] == [Sent] && [Beat(true, revision)] + ([Read] + [Sent]) == [Beat(true, revision), Read, Sent];
  }

  lemma PlanIsSafe(s: Seen, p: Pulse)
    ensures Safe(s, StepPlan(s.open, p)) && WatchAll(s, StepPlan(s.open, p)).open == p.enabled
  {
    var f := s.(desired := Some((p.enabled, p.revision)), owed := true);
    if !p.enabled {
      Cons(f.(open := false), Beat(false, p.revision), []);
      Cons(f, Closed, [Beat(false, p.revision)]);
      Cons(s, Fetched(false, p.revision), [Closed] + [Beat(false, p.revision)]);
      assert [Beat(false, p.revision)] + [] == [Beat(false, p.revision)];
      assert [Fetched(false, p.revision)] + ([Closed] + [Beat(false, p.revision)]) == StepPlan(s.open, p);
    } else {
      var tail := [Beat(true, p.revision), Read, Sent];
      CaptureIsSafe(f.(open := true), p.revision);
      Cons(f, Opened, tail);
      Cons(s, Fetched(true, p.revision), if s.open then tail else [Opened] + tail);
      assert [Fetched(true, p.revision)] + (if s.open then tail else [Opened] + tail) == StepPlan(s.open, p);
    }
  }

  /** Any number of steps, each possibly raising, and closings in between. */
  datatype Move = Pulsed(p: Pulse) | Shut

  function MovesEffects(open: bool, moves: seq<Move>): seq<Effect>
    decreases |moves|
  {
    if moves == [] then []
    else match moves[0]
      case Shut => [Closed] + MovesEffects(false, moves[1..])
      case Pulsed(p) => StepEffects(open, p) + MovesEffects(StepReturns(open, p) && p.enabled, moves[1..])
  }

  /** Every run of the Kotlin loop keeps the same contract, with no assumption on clocks:
      each step fetches before it captures. */
  lemma {:induction false} MovesAreSafe(s: Seen, moves: seq<Move>)
    ensures Safe(s, MovesEffects(s.open, moves))
    decreases |moves|
  {
    hide StepEffects;
    if moves != [] {
      match moves[0]
      case Shut =>
        Cons(s, Closed, MovesEffects(false, moves[1..]));
        MovesAreSafe(Watch(s, Closed), moves[1..]);
      case Pulsed(p) =>
        StepIsSafe(s, p);
        var after := WatchAll(s, StepEffects(s.open, p));
        MovesAreSafe(after, moves[1..]);
        SafeAppend(s, StepEffects(s.open, p), MovesEffects(after.open, moves[1..]));
    }
  }
}
