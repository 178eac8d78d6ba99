/** The Python producer's control loop. The gateway, the capture source, the encoder and the
    clock are a script with one entry for each round. */
module CaptureLoop {
  import opened Wrappers
  import opened CaptureContract

  datatype Config = Config(
    interval: real,
    maxFrames: nat,
    pollSeconds: real,
    negotiates: bool,
    refreshSeconds: real,
    image: bool)

  /** One round of the loop as the environment plays it: the clock at its four readings, the
      desired state if asked, whether the source has a frame, and the call that raises. */
  datatype Turn = Turn(
    now: real,
    openedAt: real,
    sentAt: real,
    lateAt: real,
    enabled: bool,
    revision: nat,
    hasFrame: bool,
    failAt: nat)

  /** The loop's variables. */
  datatype Loop = Loop(
    source: bool,
    enabled: Option<bool>,
    nextControl: real,
    nextRefresh: real,
    budgetKnown: bool,
    frames: nat,
    deadline: real)

  function Start(at: real, budgetKnown: bool): Loop {
    Loop(false, None, 0.0, 0.0, budgetKnown, 0, at)
  }

  predicate Refreshes(c: Config, l: Loop, t: Turn) {
    c.negotiates && (!l.budgetKnown || t.now >= l.nextRefresh)
  }

  predicate Polls(l: Loop, t: Turn) {
    l.enabled.None? || t.now >= l.nextControl
  }

  /** The deadline before its next step: it restarts when the source is opened. */
  function DeadlineBase(l: Loop, t: Turn): real {
    if l.source then l.deadline else t.openedAt
  }

  function Delay(c: Config, l: Loop, t: Turn): real {
    DeadlineBase(l, t) + c.interval - t.sentAt
  }

  function PausePart(c: Config, l: Loop, t: Turn): seq<Effect> {
    (if l.source then [Closed] else []) + [Beat(false, t.revision), Slept(c.pollSeconds)]
  }

  function WaitPart(c: Config, l: Loop, t: Turn): seq<Effect> {
    if !c.image && Delay(c, l, t) > 0.0 then [Slept(Delay(c, l, t))] else []
  }

  function CapturePart(c: Config, l: Loop, t: Turn): seq<Effect> {
    [Read] + (if !t.hasFrame then [] else [Encoded, Sent] + WaitPart(c, l, t))
  }

  function OpenPart(l: Loop): seq<Effect> {
    if l.source then [] else [Opened]
  }

  function PollPart(c: Config, l: Loop, t: Turn): seq<Effect> {
    if !Polls(l, t) then OpenPart(l) + CapturePart(c, l, t)
    else if !t.enabled then [Fetched(false, t.revision)] + PausePart(c, l, t)
    else [Fetched(true, t.revision)] + (OpenPart(l) + ([Beat(true, t.revision)] + CapturePart(c, l, t)))
  }

  /** The calls of one round when none raises. */
  function Plan(c: Config, l: Loop, t: Turn): seq<Effect> {
    (if Refreshes(c, l, t) then [Refreshed] else []) + PollPart(c, l, t)
  }

  /** The variables after a capture from `l`, in a round that began in `before`. */
  function Captured(c: Config, before: Loop, l: Loop, t: Turn): Loop {
    if !t.hasFrame then l.(source := true, deadline := DeadlineBase(before, t))
    else if c.image then l.(source := true, deadline := DeadlineBase(before, t), frames := l.frames + 1)
    else l.(source := true, frames := l.frames + 1,
            deadline := if Delay(c, before, t) > 0.0 then DeadlineBase(before, t) + c.interval else t.lateAt)
  }

  function AfterPoll(c: Config, before: Loop, l: Loop, t: Turn): Loop {
    if !Polls(before, t) then Captured(c, before, l, t)
    else
      var m := l.(enabled := Some(t.enabled), nextControl := t.now + c.pollSeconds);
      if t.enabled then Captured(c, before, m, t) else m.(source := false)
  }

  function AfterTurn(c: Config, l: Loop, t: Turn): Loop {
    var m := if Refreshes(c, l, t) then l.(budgetKnown := true, nextRefresh := t.now + c.refreshSeconds) else l;
    AfterPoll(c, l, m, t)
  }

  /** The round is the last: the source ran out or was a single image. */
  predicate Ends(c: Config, l: Loop, t: Turn) {
    !(Polls(l, t) && !t.enabled) && (!t.hasFrame || c.image)
  }

  function Finally(held: bool): seq<Effect> {
    if held then [Closed] else []
  }

  /** All effects of a run, and the number of frames it returns unless it raises. A script
      that ends is an interruption. */
  function Run(c: Config, l: Loop, turns: seq<Turn>): (seq<Effect>, Option<nat>)
    decreases |turns|
  {
    if c.maxFrames != 0 && l.frames >= c.maxFrames then (Finally(l.source), Some(l.frames))
    else if turns == [] then (Finally(l.source), None)
    else
      var t := turns[0];
      var plan := Plan(c, l, t);
      if t.failAt < |plan| then (Cut(plan, t.failAt) + Finally(Held(l.source, plan[..t.failAt])), None)
      else if Ends(c, l, t) then (plan + Finally(true), Some(AfterTurn(c, l, t).frames))
      else
        var (rest, result) := Run(c, AfterTurn(c, l, t), turns[1..]);
        (plan + rest, result)
  }

  datatype Status = Going | Over | Raised

  /** A round under way: what was done of its plan, and what remains. */
  ghost predicate OnPlan(plan: seq<Effect>, failAt: nat, done: seq<Effect>, rest: seq<Effect>) {
    plan == done + rest && |done| <= failAt
  }

  /** The next call of a round goes into the environment. */
  method Perform(e: Effect, failAt: nat, done: seq<Effect>, ghost rest: seq<Effect>, ghost plan: seq<Effect>,
                 ghost was: bool)
    returns (ok: bool, done': seq<Effect>)
    requires OnPlan(plan, failAt, done, rest) && rest != [] && rest[0] == e
    ensures ok ==> OnPlan(plan, failAt, done', rest[1..]) && done' == done + [e]
    ensures ok ==> Held(was, done') == if e.Opened? then true else if e.Closed? then false else Held(was, done)
    ensures !ok ==> failAt < |plan| && done' == Cut(plan, failAt) && Held(was, plan[..failAt]) == Held(was, done)
  {
    ok := |done| != failAt;
    done' := if ok || !Vanishes(e) then done + [e] else done;
    assert (done + [e])[..|done|] == done == plan[..|done|];
  }

  method Pause(c: Config, l: Loop, t: Turn, begun: seq<Effect>, ghost plan: seq<Effect>, ghost was: bool)
    returns (status: Status, l': Loop, done: seq<Effect>)
    requires OnPlan(plan, t.failAt, begun, PausePart(c, l, t)) && Held(was, begun) == l.source
    ensures status != Over
    ensures status == Going ==> |plan| <= t.failAt && done == plan && l' == l.(source := false, enabled := Some(false))
    ensures status == Raised ==>
              && t.failAt < |plan| && done == Cut(plan, t.failAt)
              && l'.source == Held(was, plan[..t.failAt])
  {
    done, l' := begun, l;
    var ok: bool;
    if l'.source {
      ok, done := Perform(Closed, t.failAt, done, PausePart(c, l, t), plan, was);
      if !ok {
        return Raised, l', done;
      }
      l' := l'.(source := false);
    }
    l' := l'.(enabled := Some(false));
    ok, done := Perform(Beat(false, t.revision), t.failAt, done, [Beat(false, t.revision), Slept(c.pollSeconds)],
        plan, was);
    if !ok {
      return Raised, l', done;
    }
    ok, done := Perform(Slept(c.pollSeconds), t.failAt, done, [Slept(c.pollSeconds)], plan, was);
    status := if ok then Going else Raised;
  }

  method Open(l: Loop, t: Turn, begun: seq<Effect>, ghost rest: seq<Effect>, ghost plan: seq<Effect>, ghost was: bool)
    returns (ok: bool, l': Loop, done: seq<Effect>)
    requires OnPlan(plan, t.failAt, begun, OpenPart(l) + rest) && Held(was, begun) == l.source
    ensures ok ==> OnPlan(plan, t.failAt, done, rest) && Held(was, done)
                   && l' == l.(source := true, deadline := DeadlineBase(l, t))
    ensures !ok ==> t.failAt < |plan| && done == Cut(plan, t.failAt) && l'.source == Held(was, plan[..t.failAt])
  {
    ok, done, l' := true, begun, l;
    if !l.source {
      ok, done := Perform(Opened, t.failAt, done, OpenPart(l) + rest, plan, was);
      if ok {
        l' := l.(source := true, deadline := t.openedAt);
        assert (OpenPart(l) + rest)[1..] == rest;
      }
    } else {
      assert OpenPart(l) + rest == rest;
    }
  }

  /** Waiting for the next frame's time. */
  method Wait(c: Config, ghost before: Loop, l: Loop, t: Turn, begun: seq<Effect>, ghost plan: seq<Effect>,
              ghost was: bool)
    returns (ok: bool, l': Loop, done: seq<Effect>)
    requires OnPlan(plan, t.failAt, begun, WaitPart(c, before, t)) && Held(was, begun)
    requires !c.image && l.deadline == DeadlineBase(before, t)
    ensures ok ==> |plan| <= t.failAt && done == plan
                   && l' == l.(deadline := if Delay(c, before, t) > 0.0 then l.deadline + c.interval else t.lateAt)
    ensures !ok ==>
              && t.failAt < |plan| && done == Cut(plan, t.failAt) && Held(was, plan[..t.failAt])
              && l'.source == l.source
  {
    ok, done := true, begun;
    l' := l.(deadline := l.deadline + c.interval);
    var delay := l'.deadline - t.sentAt;
    if delay > 0.0 {
      ok, done := Perform(Slept(delay), t.failAt, done, WaitPart(c, before, t), plan, was);
    } else {
      l' := l'.(deadline := t.lateAt);
    }
  }

  /** Reading, encoding, sending, and waiting. */
  method Capture(c: Config, ghost before: Loop, l: Loop, t: Turn, begun: seq<Effect>, ghost plan: seq<Effect>,
                 ghost was: bool)
    returns (status: Status, l': Loop, done: seq<Effect>)
    requires OnPlan(plan, t.failAt, begun, CapturePart(c, before, t)) && Held(was, begun)
    requires l.source && l.deadline == DeadlineBase(before, t)
    ensures status == Raised ==>
              && t.failAt < |plan| && done == Cut(plan, t.failAt) && Held(was, plan[..t.failAt])
              && l'.source
    ensures status != Raised ==> |plan| <= t.failAt && done == plan
    ensures status != Raised ==> (status == Over <==> !t.hasFrame || c.image)
    ensures status != Raised ==>
              l' == if !t.hasFrame then l
                    else if c.image then l.(frames := l.frames + 1)
                    else l.(frames := l.frames + 1,
                            deadline := if Delay(c, before, t) > 0.0 then l.deadline + c.interval else t.lateAt)
  {
    hide WaitPart, Cut, Delay;
    done, l' := begun, l;
    ghost var wait := WaitPart(c, before, t);
    var ok: bool;
    ok, done := Perform(Read, t.failAt, done, CapturePart(c, before, t), plan, was);
    if !ok {
      return Raised, l', done;
    }
    if !t.hasFrame {
      return Over, l', done;
    }
    assert CapturePart(c, before, t)[1..] == [Encoded, Sent] + wait;
    ok, done := Perform(Encoded, t.failAt, done, [Encoded, Sent] + wait, plan, was);
    if !ok {
      return Raised, l', done;
    }
    assert ([Encoded, Sent] + wait)[1..] == [Sent] + wait;
    ok, done := Perform(Sent, t.failAt, done, [Sent] + wait, plan, was);
    if !ok {
      return Raised, l', done;
    }
    assert ([Sent] + wait)[1..] == wait;
    l' := l'.(frames := l'.frames + 1);
    if c.image {
      NoWait(c, before, t);
      return Over, l', done;
    }
    ok, l', done := Wait(c, before, l', t, done, plan, was);
    status := if ok then Going else Raised;
  }

  lemma NoWait(c: Config, l: Loop, t: Turn)
    requires c.image
    ensures WaitPart(c, l, t) == []
  {}

  /** An enabled poll: open the source if need be, confirm, capture. */
  method Resume(c: Config, ghost before: Loop, l: Loop, t: Turn, begun: seq<Effect>, ghost plan: seq<Effect>,
                ghost was: bool)
    returns (status: Status, l': Loop, done: seq<Effect>)
    requires l.source == before.source && l.deadline == before.deadline && Held(was, begun) == l.source
    requires OnPlan(plan, t.failAt, begun, OpenPart(before) + ([Beat(true, t.revision)] + CapturePart(c, before, t)))
    ensures status == Raised ==>
              && t.failAt < |plan| && done == Cut(plan, t.failAt)
              && l'.source == Held(was, plan[..t.failAt])
    ensures status != Raised ==> |plan| <= t.failAt && done == plan
    ensures status != Raised ==> (status == Over <==> !t.hasFrame || c.image)
    ensures status != Raised ==> l' == Captured(c, before, l, t)
  {
    hide CapturePart, Cut;
    ghost var rest := CapturePart(c, before, t);
    var ok: bool;
    SameOpen(before, l);
    ok, l', done := Open(l, t, begun, [Beat(true, t.revision)] + rest, plan, was);
    if !ok {
      return Raised, l', done;
    }
    ok, done := Perform(Beat(true, t.revision), t.failAt, done, [Beat(true, t.revision)] + rest, plan, was);
    if !ok {
      return Raised, l', done;
    }
    assert ([Beat(true, t.revision)] + rest)[1..] == rest;
    status, l', done := Capture(c, before, l', t, done, plan, was);
  }

  /** One round of the loop. */
  method Round(c: Config, l: Loop, t: Turn) returns (status: Status, l': Loop, done: seq<Effect>)
    ensures status == Raised <==> t.failAt < |Plan(c, l, t)|
    ensures done == Cut(Plan(c, l, t), t.failAt)
    ensures status == Raised ==> l'.source == Held(l.source, Plan(c, l, t)[..t.failAt])
    ensures status != Raised ==> l' == AfterTurn(c, l, t) && (status == Over <==> Ends(c, l, t))
  {
    ghost var plan := Plan(c, l, t);
    done, l' := [], l;
    var ok: bool;
    if Refreshes(c, l, t) {
      ok, done := Perform(Refreshed, t.failAt, done, plan, plan, l.source);
      if !ok {
        return Raised, l', done;
      }
      l' := l'.(budgetKnown := true, nextRefresh := t.now + c.refreshSeconds);
      assert ([Refreshed] + PollPart(c, l, t))[1..] == PollPart(c, l, t);
    }
    status, l', done := Poll(c, l, l', t, done, plan);
  }

  /** The round after its refresh. */
  method Poll(c: Config, ghost before: Loop, l: Loop, t: Turn, begun: seq<Effect>, ghost plan: seq<Effect>)
    returns (status: Status, l': Loop, done: seq<Effect>)
    requires OnPlan(plan, t.failAt, begun, PollPart(c, before, t)) && Held(before.source, begun) == before.source
    requires l == before.(budgetKnown := l.budgetKnown, nextRefresh := l.nextRefresh)
    ensures status == Raised ==>
              && t.failAt < |plan| && done == Cut(plan, t.failAt)
              && l'.source == Held(before.source, plan[..t.failAt])
    ensures status != Raised ==> |plan| <= t.failAt && done == plan
    ensures status != Raised ==> (status == Over <==> Ends(c, before, t))
    ensures status != Raised ==> l' == AfterPoll(c, before, l, t)
  {
    hide CapturePart, PausePart, OpenPart, Cut, Captured;
    ghost var was := before.source;
    var ok: bool;
    done, l' := begun, l;
    if Polls(l, t) {
      ok, done := Perform(Fetched(t.enabled, t.revision), t.failAt, done, PollPart(c, before, t), plan, was);
      if !ok {
        return Raised, l', done;
      }
      l' := l'.(nextControl := t.now + c.pollSeconds);
      if !t.enabled {
        SamePause(c, before, l', t);
        assert ([Fetched(false, t.revision)] + PausePart(c, before, t))[1..] == PausePart(c, before, t);
        status, l', done := Pause(c, l', t, done, plan, was);
      } else {
        l' := l'.(enabled := Some(true));
        ghost var rest := OpenPart(before) + ([Beat(true, t.revision)] + CapturePart(c, before, t));
        assert ([Fetched(true, t.revision)] + rest)[1..] == rest;
        status, l', done := Resume(c, before, l', t, done, plan, was);
      }
    } else {
      SameOpen(before, l);
      ok, l', done := Open(l, t, done, CapturePart(c, before, t), plan, was);
      if !ok {
        return Raised, l', done;
      }
      CapturedLater(c, before, l, t);
      status, l', done := Capture(c, before, l', t, done, plan, was);
    }
  }

  lemma CapturedLater(c: Config, before: Loop, l: Loop, t: Turn)
    requires l.source == before.source && l.deadline == before.deadline
    ensures var o := l.(source := true, deadline := DeadlineBase(l, t));
            Captured(c, before, l, t) ==
              if !t.hasFrame then o
              else if c.image then o.(frames := l.frames + 1)
              else o.(frames := l.frames + 1,
                      deadline := if Delay(c, before, t) > 0.0 then o.deadline + c.interval else t.lateAt)
  {}

  lemma SamePause(c: Config, l: Loop, l': Loop, t: Turn)
    requires l.source == l'.source
    ensures PausePart(c, l, t) == PausePart(c, l', t)
  {}

  lemma SameOpen(l: Loop, l': Loop)
    requires l.source == l'.source
    ensures OpenPart(l) == OpenPart(l')
  {}

  /** The whole loop; its last act, however it ends, is to close an open source. */
  method RunControlledCapture(c: Config, startedAt: real, budgetKnown: bool, turns: seq<Turn>)
    returns (trace: seq<Effect>, result: Option<nat>)
    ensures (trace, result) == Run(c, Start(startedAt, budgetKnown), turns)
  {
    hide Plan, Ends, AfterTurn;
    var l := Start(startedAt, budgetKnown);
    trace, result := [], None;
    var i := 0;
    var going := true;
    ghost var whole := Run(c, l, turns);
    assert turns[0..] == turns && trace + whole.0 == whole.0;
    while going && (c.maxFrames == 0 || l.frames < c.maxFrames) && i < |turns|
      invariant 0 <= i <= |turns|
      invariant going ==> result == None && whole == (trace + Run(c, l, turns[i..]).0, Run(c, l, turns[i..]).1)
      invariant !going ==> whole == (trace + Finally(l.source), result)
      decreases |turns| - i, going
    {
      assert turns[i..][0] == turns[i] && turns[i..][1..] == turns[i + 1..];
      ghost var before := trace;
      var status, l', done := Round(c, l, turns[i]);
      if status == Over {
        EndsOpen(c, l, turns[i]);
      }
      trace := trace + done;
      assert forall rest :: before + (done + rest) == trace + rest;
      result := if status == Over then Some(l'.frames) else None;
      going := status == Going;
      l, i := l', i + 1;
    }
    if going && c.maxFrames != 0 && l.frames >= c.maxFrames {
      result := Some(l.frames);
    }
    assert trace + [] == trace;
    if l.source {
      trace := trace + [Closed];
    }
  }

  lemma EndsOpen(c: Config, l: Loop, t: Turn)
    requires Ends(c, l, t)
    ensures AfterTurn(c, l, t).source
  {}

  // ---------------------------------------------------------------- safety of every run

  function SleptIn(es: seq<Effect>): real {
    if es == [] then 0.0
    else SleptIn(es[..|es| - 1]) + (if es[|es| - 1].Slept? then es[|es| - 1].seconds else 0.0)
  }

  /** Sleeping advances the clock by at least what was asked. */
  predicate ClockAdvances(c: Config, l: Loop, turns: seq<Turn>)
    decreases |turns|
  {
    |turns| <= 1 ||
    (&& turns[1].now >= turns[0].now + SleptIn(Plan(c, l, turns[0]))
     && ClockAdvances(c, AfterTurn(c, l, turns[0]), turns[1..]))
  }

  /** The variables agree with what an observer saw. */
  predicate Fits(l: Loop, s: Seen) {
    && s.open == l.source
    && (l.enabled.Some? ==> s.desired.Some? && s.desired.value.0 == l.enabled.value)
    && (l.source ==> l.enabled.Some? && l.enabled.value)
  }

  predicate PausedPolls(l: Loop, t: Turn) {
    l.enabled.Some? && !l.enabled.value ==> Polls(l, t)
  }

  lemma PauseIsSafe(c: Config, l: Loop, t: Turn, s: Seen)
    requires s.open == l.source
    ensures WatchAll(s, PausePart(c, l, t)) == s.(open := false, owed := false)
    ensures s.owed && s.desired == Some((false, t.revision)) ==> Safe(s, PausePart(c, l, t))
  {
    var closed := s.(open := false);
    var slept := [Slept(c.pollSeconds)];
    Cons(closed.(owed := false), Slept(c.pollSeconds), []);
    assert slept + [] == slept;
    Cons(closed, Beat(false, t.revision), slept);
    assert [Beat(false, t.revision)] + slept == [Beat(false, t.revision), Slept(c.pollSeconds)];
    Cons(s, Closed, [Beat(false, t.revision)] + slept);
    assert [] + ([Beat(false, t.revision)] + slept) == [Beat(false, t.revision)] + slept;
  }

  lemma CaptureIsSafe(c: Config, l: Loop, t: Turn, s: Seen)
    ensures WatchAll(s, CapturePart(c, l, t)) == s.(unsent := !t.hasFrame)
    ensures s.open && WantsCapture(s) ==> Safe(s, CapturePart(c, l, t))
  {
    hide Delay;
    var wait := WaitPart(c, l, t);
    var after := s.(unsent := false);
    if wait != [] {
      Cons(after, wait[0], []);
      assert wait[..1] + [] == wait;
    }
    var read := s.(unsent := true);
    Cons(read, Sent, wait);
    Cons(read, Encoded, [Sent] + wait);
    assert [Encoded] + ([Sent] + wait) == [Encoded, Sent] + wait;
    Cons(s, Read, if t.hasFrame then [Encoded, Sent] + wait else []);
  }

  lemma OpenIsSafe(l: Loop, s: Seen)
    requires s.open == l.source
    ensures WatchAll(s, OpenPart(l)) == s.(open := true)
    ensures WantsCapture(s) ==> Safe(s, OpenPart(l))
  {
    Cons(s, Opened, []);
    assert [Opened] + [] == [Opened];
  }

  /** Opening, perhaps confirming, and capturing. */
  lemma EnabledIsSafe(c: Config, l: Loop, t: Turn, s: Seen, confirm: seq<Effect>)
    requires s.open == l.source
    requires confirm == [] || confirm == [Beat(true, t.revision)]
    ensures var es := OpenPart(l) + (confirm + CapturePart(c, l, t));
            && WatchAll(s, es) == s.(open := true, unsent := !t.hasFrame, owed := s.owed && confirm == [])
            && (WantsCapture(s) && (confirm != [] ==> s.owed && s.desired == Some((true, t.revision))) ==> Safe(s, es))
  {
    hide OpenPart, CapturePart;
    var o := s.(open := true);
    OpenIsSafe(l, s);
    CaptureIsSafe(c, l, t, o.(owed := s.owed && confirm == []));
    if confirm == [] {
      assert confirm + CapturePart(c, l, t) == CapturePart(c, l, t);
    } else {
      Cons(o, confirm[0], CapturePart(c, l, t));
    }
    SafeAppend(s, OpenPart(l), confirm + CapturePart(c, l, t));
  }

  lemma PollIsSafe(c: Config, l: Loop, t: Turn, s: Seen)
    requires s.open == l.source
    ensures WatchAll(s, PollPart(c, l, t)) ==
              Seen(!(Polls(l, t) && !t.enabled),
                   if Polls(l, t) then Some((t.enabled, t.revision)) else s.desired,
                   if Polls(l, t) && !t.enabled then s.unsent else !t.hasFrame,
                   s.owed && !Polls(l, t))
    ensures Fits(l, s) && PausedPolls(l, t) ==> Safe(s, PollPart(c, l, t))
  {
    hide OpenPart, CapturePart, PausePart;
    var fetched := s.(desired := Some((t.enabled, t.revision)), owed := true);
    if !Polls(l, t) {
      EnabledIsSafe(c, l, t, s, []);
      assert [] + CapturePart(c, l, t) == CapturePart(c, l, t);
    } else if !t.enabled {
      PauseIsSafe(c, l, t, fetched);
      Cons(s, Fetched(false, t.revision), PausePart(c, l, t));
    } else {
      EnabledIsSafe(c, l, t, fetched, [Beat(true, t.revision)]);
      Cons(s, Fetched(true, t.revision), OpenPart(l) + ([Beat(true, t.revision)] + CapturePart(c, l, t)));
    }
  }

  lemma TurnIsSafe(c: Config, l: Loop, t: Turn, s: Seen)
    requires s.open == l.source
    ensures WatchAll(s, Plan(c, l, t)).open == AfterTurn(c, l, t).source
    ensures !s.owed ==> !WatchAll(s, Plan(c, l, t)).owed
    ensures Fits(l, s) && PausedPolls(l, t) ==>
              && Safe(s, Plan(c, l, t))
              && Fits(AfterTurn(c, l, t), WatchAll(s, Plan(c, l, t)))
  {
    hide PollPart;
    PollIsSafe(c, l, t, s);
    Cons(s, Refreshed, PollPart(c, l, t));
    assert [] + PollPart(c, l, t) == PollPart(c, l, t);
  }

  lemma {:induction false} SleptAppend(a: seq<Effect>, b: seq<Effect>)
    ensures SleptIn(a + b) == SleptIn(a) + SleptIn(b)
  {
    if b == [] {
      assert a + b == a;
    } else {
      SleptAppend(a, b[..|b| - 1]);
      assert (a + b)[..|a + b| - 1] == a + b[..|b| - 1];
    }
  }

  lemma PauseSlept(c: Config, l: Loop, t: Turn)
    ensures SleptIn(PausePart(c, l, t)) == c.pollSeconds
  {
    var close: seq<Effect> := if l.source then [Closed] else [];
    SleptAppend(close, [Beat(false, t.revision), Slept(c.pollSeconds)]);
    SleptAppend([Beat(false, t.revision)], [Slept(c.pollSeconds)]);
    assert [Beat(false, t.revision)] + [Slept(c.pollSeconds)] == [Beat(false, t.revision), Slept(c.pollSeconds)];
  }

  /** A paused round sleeps until the next poll is due. */
  lemma PauseSleeps(c: Config, l: Loop, t: Turn, next: Turn)
    requires AfterTurn(c, l, t).enabled == Some(false) && PausedPolls(l, t)
    requires next.now >= t.now + SleptIn(Plan(c, l, t))
    ensures PausedPolls(AfterTurn(c, l, t), next)
  {
    hide PausePart;
    PauseSlept(c, l, t);
    SleptAppend([Fetched(false, t.revision)], PausePart(c, l, t));
    SleptAppend(if Refreshes(c, l, t) then [Refreshed] else [], PollPart(c, l, t));
  }

  function Refresh(c: Config, l: Loop, t: Turn): seq<Effect> {
    if Refreshes(c, l, t) then [Refreshed] else []
  }

  /** A paused round whose poll is not yet due gets past opening the source. */
  predicate OpensUnasked(c: Config, l: Loop, t: Turn) {
    !PausedPolls(l, t) && t.failAt > |Refresh(c, l, t)|
  }

  /** No round that is reached does so: each starts running, or finds its poll due, or is cut
      short before the opening. */
  predicate NeverUnasked(c: Config, l: Loop, turns: seq<Turn>)
    decreases |turns|
  {
    (c.maxFrames != 0 && l.frames >= c.maxFrames) || turns == [] ||
    (&& !OpensUnasked(c, l, turns[0])
     && (turns[0].failAt < |Plan(c, l, turns[0])| || Ends(c, l, turns[0])
         || NeverUnasked(c, AfterTurn(c, l, turns[0]), turns[1..])))
  }

  /** What one round does, cut short or not, is safe unless it opens unasked. */
  lemma RoundSafeExactly(c: Config, l: Loop, t: Turn, s: Seen)
    requires Fits(l, s)
    ensures Safe(s, Cut(Plan(c, l, t), t.failAt)) <==> !OpensUnasked(c, l, t)
  {
    hide CapturePart;
    var plan := Plan(c, l, t);
    if PausedPolls(l, t) {
      TurnIsSafe(c, l, t, s);
      SafePrefix(s, plan, t.failAt);
    } else {
      var rest := CapturePart(c, l, t);
      var n := |Refresh(c, l, t)|;
      assert plan == Refresh(c, l, t) + ([Opened] + rest);
      Cons(s, Refreshed, []);
      assert [Refreshed] + [] == [Refreshed];
      if t.failAt > n {
        var cut := Cut(plan, t.failAt);
        OpeningIn(plan, t.failAt, Refresh(c, l, t), rest);
        Cons(s, Opened, cut[n + 1..]);
        SafeAppend(s, Refresh(c, l, t), [Opened] + cut[n + 1..]);
      } else {
        assert Cut(plan, t.failAt) == plan[..t.failAt];
        assert plan[..t.failAt] == Refresh(c, l, t)[..t.failAt];
      }
    }
  }

  lemma OpeningIn(plan: seq<Effect>, failAt: nat, refresh: seq<Effect>, rest: seq<Effect>)
    requires plan == refresh + ([Opened] + rest) && failAt > |refresh|
    ensures |Cut(plan, failAt)| > |refresh|
    ensures Cut(plan, failAt) == refresh + ([Opened] + Cut(plan, failAt)[|refresh| + 1..])
  {
    var cut := Cut(plan, failAt);
    assert cut[..|refresh|] == refresh && cut[|refresh|] == Opened;
  }

  /** A run, cut short anywhere, keeps the contract if and only if no paused round that it
      reaches opens the source before its poll is due. */
  lemma {:induction false} RunSafeExactly(c: Config, l: Loop, turns: seq<Turn>, s: Seen)
    requires Fits(l, s)
    ensures Safe(s, Run(c, l, turns).0) <==> NeverUnasked(c, l, turns)
    decreases |turns|
  {
    hide Plan, AfterTurn, Cut, OpensUnasked, Held;
    if turns != [] && !(c.maxFrames != 0 && l.frames >= c.maxFrames) {
      var t := turns[0];
      var plan := Plan(c, l, t);
      RoundSafeExactly(c, l, t, s);
      if t.failAt < |plan| {
        SafeAppend(s, Cut(plan, t.failAt), Finally(Held(l.source, plan[..t.failAt])));
      } else {
        WholeCut(plan, t.failAt);
        if Ends(c, l, t) {
          SafeAppend(s, plan, Finally(true));
        } else {
          SafeAppend(s, plan, Run(c, AfterTurn(c, l, t), turns[1..]).0);
          if !OpensUnasked(c, l, t) {
            ReachedPolls(c, l, t);
            TurnIsSafe(c, l, t, s);
            RunSafeExactly(c, AfterTurn(c, l, t), turns[1..], WatchAll(s, plan));
          }
        }
      }
    }
  }

  lemma WholeCut(plan: seq<Effect>, failAt: nat)
    requires failAt >= |plan|
    ensures Cut(plan, failAt) == plan
  {}

  lemma ReachedPolls(c: Config, l: Loop, t: Turn)
    requires !OpensUnasked(c, l, t) && t.failAt >= |Plan(c, l, t)|
    ensures PausedPolls(l, t)
  {}

  /** Sleeping that advances the clock is enough. */
  lemma {:induction false} AdvancingNeverUnasked(c: Config, l: Loop, turns: seq<Turn>)
    requires (turns != [] ==> PausedPolls(l, turns[0])) && ClockAdvances(c, l, turns)
    ensures NeverUnasked(c, l, turns)
    decreases |turns|
  {
    hide Plan, AfterTurn;
    if |turns| > 1 {
      if AfterTurn(c, l, turns[0]).enabled == Some(false) {
        PauseSleeps(c, l, turns[0], turns[1]);
      }
      AdvancingNeverUnasked(c, AfterTurn(c, l, turns[0]), turns[1..]);
    }
  }

  /** Without any assumption on the clock, every run ends with the source closed. */
  lemma {:induction false} EveryExitCloses(c: Config, l: Loop, turns: seq<Turn>, s: Seen)
    requires s.open == l.source
    ensures !WatchAll(s, Run(c, l, turns).0).open
    decreases |turns|
  {
    hide Plan, AfterTurn;
    if turns != [] && !(c.maxFrames != 0 && l.frames >= c.maxFrames) {
      var t := turns[0];
      var plan := Plan(c, l, t);
      if t.failAt < |plan| {
        CutHolds(s, plan, t.failAt);
        SafeAppend(s, Cut(plan, t.failAt), Finally(Held(l.source, plan[..t.failAt])));
      } else if Ends(c, l, t) {
        SafeAppend(s, plan, Finally(true));
      } else {
        TurnIsSafe(c, l, t, s);
        EveryExitCloses(c, AfterTurn(c, l, t), turns[1..], WatchAll(s, plan));
        SafeAppend(s, plan, Run(c, AfterTurn(c, l, t), turns[1..]).0);
      }
    }
  }

  /** A raising call changes whether the source is open only by being a closing. */
  lemma CutHolds(s: Seen, plan: seq<Effect>, failAt: nat)
    requires failAt < |plan|
    ensures WatchAll(s, Cut(plan, failAt)).open ==> Held(s.open, plan[..failAt])
  {
    HeldIsOpen(s, plan[..failAt]);
    SafeAppend(s, plan[..failAt], [plan[failAt]]);
    assert plan[..failAt] + [] == plan[..failAt];
  }

  /** A run that returns has answered its last fetch with a heartbeat. */
  lemma {:induction false} ReturnOwesNothing(c: Config, l: Loop, turns: seq<Turn>, s: Seen)
    requires s.open == l.source && !s.owed && Run(c, l, turns).1.Some?
    ensures !WatchAll(s, Run(c, l, turns).0).owed
    decreases |turns|
  {
    hide Plan, AfterTurn;
    if turns != [] && !(c.maxFrames != 0 && l.frames >= c.maxFrames) {
      var plan := Plan(c, l, turns[0]);
      TurnIsSafe(c, l, turns[0], s);
      if Ends(c, l, turns[0]) {
        SafeAppend(s, plan, Finally(true));
      } else {
        ReturnOwesNothing(c, AfterTurn(c, l, turns[0]), turns[1..], WatchAll(s, plan));
        SafeAppend(s, plan, Run(c, AfterTurn(c, l, turns[0]), turns[1..]).0);
      }
    }
  }

  /** The loop from its start: it keeps the contract if and only if no paused round opens the
      source before its poll is due, which holds whenever sleeping advances the clock; and
      with no assumption at all every run ends with the source closed, and one that returns
      owes no heartbeat. */
  lemma {:induction false} ControlledCaptureIsSafe(c: Config, startedAt: real, budgetKnown: bool, turns: seq<Turn>)
    ensures var l := Start(startedAt, budgetKnown);
            var (trace, result) := Run(c, l, turns);
            && (Safe(NOTHING, trace) <==> NeverUnasked(c, l, turns))
            && (ClockAdvances(c, l, turns) ==> Safe(NOTHING, trace))
            && !WatchAll(NOTHING, trace).open
            && (result.Some? ==> !WatchAll(NOTHING, trace).owed)
  {
    hide Run, NeverUnasked, ClockAdvances, Safe, WatchAll;
    var l := Start(startedAt, budgetKnown);
    RunSafeExactly(c, l, turns, NOTHING);
    if ClockAdvances(c, l, turns) {
      AdvancingNeverUnasked(c, l, turns);
    }
    EveryExitCloses(c, l, turns, NOTHING);
    if Run(c, l, turns).1.Some? {
      ReturnOwesNothing(c, l, turns, NOTHING);
    }
  }

  /** With a clock that stands still over the sleep, a paused loop opens the source although
      the desired state says disabled. */
  lemma StandingClockReopens(c: Config, revision: nat)
    requires c.pollSeconds > 0.0 && c.maxFrames == 0 && !c.negotiates
    ensures var off := Turn(0.0, 0.0, 0.0, 0.0, false, revision, true, 3);
            var cut := Turn(0.0, 0.0, 0.0, 0.0, false, revision, true, 1);
            var trace := Run(c, Start(0.0, true), [off, cut]).0;
            && trace == [Fetched(false, revision), Beat(false, revision), Slept(c.pollSeconds), Opened, Read, Closed]
            && !Safe(NOTHING, trace)
  {
    var l := Start(0.0, true);
    var off := Turn(0.0, 0.0, 0.0, 0.0, false, revision, true, 3);
    var cut := Turn(0.0, 0.0, 0.0, 0.0, false, revision, true, 1);
    var paused := [Fetched(false, revision), Beat(false, revision), Slept(c.pollSeconds)];
    assert Plan(c, l, off) == paused;
    var m := AfterTurn(c, l, off);
    assert Plan(c, m, cut)[..1] == [Opened] && Plan(c, m, cut)[1] == Read;
    assert Run(c, m, [cut]).0 == [Opened, Read] + [Closed];
    assert [off, cut][1..] == [cut];
    RunSafeExactly(c, l, [off, cut], NOTHING);
  }

  function SentIn(es: seq<Effect>): nat {
    if es == [] then 0 else SentIn(es[..|es| - 1]) + (if es[|es| - 1].Sent? then 1 else 0)
  }

  lemma {:induction false} SentAppend(a: seq<Effect>, b: seq<Effect>)
    ensures SentIn(a + b) == SentIn(a) + SentIn(b)
  {
    if b == [] {
      assert a + b == a;
    } else {
      SentAppend(a, b[..|b| - 1]);
      assert (a + b)[..|a + b| - 1] == a + b[..|b| - 1];
    }
  }

  lemma {:induction false} NoneSent(es: seq<Effect>)
    requires forall e :: e in es ==> !e.Sent?
    ensures SentIn(es) == 0
  {
    if es != [] {
      NoneSent(es[..|es| - 1]);
    }
  }

  lemma CaptureSends(c: Config, l: Loop, t: Turn)
    ensures SentIn(CapturePart(c, l, t)) == if t.hasFrame then 1 else 0
  {
    hide WaitPart;
    WaitSendsNothing(c, l, t);
    NoneSent([Read]);
    NoneSent([Encoded]);
    NoneSent(WaitPart(c, l, t));
    var rest := [Encoded, Sent] + WaitPart(c, l, t);
    SentAppend([Read], if t.hasFrame then rest else []);
    SentAppend([Encoded, Sent], WaitPart(c, l, t));
    SentAppend([Encoded], [Sent]);
    assert [Encoded, Sent] == [Encoded] + [Sent] && [Sent][..0] == [];
  }

  lemma WaitSendsNothing(c: Config, l: Loop, t: Turn)
    ensures forall e :: e in WaitPart(c, l, t) ==> !e.Sent?
  {}

  /** A round counts a frame exactly when it sends one; a paused poll sends none. */
  lemma TurnSends(c: Config, l: Loop, t: Turn)
    ensures SentIn(Plan(c, l, t)) == AfterTurn(c, l, t).frames - l.frames
    ensures Polls(l, t) && !t.enabled ==> SentIn(Plan(c, l, t)) == 0
  {
    hide CapturePart, SentIn;
    CaptureSends(c, l, t);
    var refresh := if Refreshes(c, l, t) then [Refreshed] else [];
    NoneSent(refresh);
    SentAppend(refresh, PollPart(c, l, t));
    NoneSent(OpenPart(l));
    SentAppend(OpenPart(l), CapturePart(c, l, t));
    NoneSent([Fetched(false, t.revision)] + PausePart(c, l, t));
    NoneSent([Fetched(true, t.revision)]);
    NoneSent([Beat(true, t.revision)]);
    var confirmed := [Beat(true, t.revision)] + CapturePart(c, l, t);
    SentAppend([Fetched(true, t.revision)], OpenPart(l) + confirmed);
    SentAppend(OpenPart(l), confirmed);
    SentAppend([Beat(true, t.revision)], CapturePart(c, l, t));
  }

  /** A run that returns reports the number of frames it sent, at most the limit. */
  lemma {:induction false} ResultCountsFrames(c: Config, l: Loop, turns: seq<Turn>)
    requires c.maxFrames != 0 ==> l.frames <= c.maxFrames
    ensures var (trace, result) := Run(c, l, turns);
            result.Some? ==>
                    && result.value == l.frames + SentIn(trace)
                    && (c.maxFrames != 0 ==> result.value <= c.maxFrames)
    decreases |turns|
  {
    hide Plan, SentIn;
    NoneSent(Finally(l.source));
    NoneSent([Closed]);
    if turns != [] && !(c.maxFrames != 0 && l.frames >= c.maxFrames) && turns[0].failAt >= |Plan(c, l, turns[0])| {
      var plan := Plan(c, l, turns[0]);
      var after := AfterTurn(c, l, turns[0]);
      TurnSends(c, l, turns[0]);
      if Ends(c, l, turns[0]) {
        SentAppend(plan, [Closed]);
      } else {
        ResultCountsFrames(c, after, turns[1..]);
        SentAppend(plan, Run(c, after, turns[1..]).0);
      }
    }
  }
}
