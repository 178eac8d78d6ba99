/** When the Python control loop asks, refreshes, works and waits, told over the effects of
    its rounds and the clock readings of its turns. */
module CaptureSchedule {
  import opened Wrappers
  import opened CaptureContract
  import opened CaptureLoop

  /** The effects of a run round by round; the last round may be cut short. */
  function Rounds(c: Config, l: Loop, turns: seq<Turn>): (rounds: seq<seq<Effect>>)
    ensures |rounds| <= |turns|
    decreases |turns|
  {
    if turns == [] || (c.maxFrames != 0 && l.frames >= c.maxFrames) then []
    else
      var t := turns[0];
      var plan := Plan(c, l, t);
      if t.failAt < |plan| then [Cut(plan, t.failAt)]
      else if Ends(c, l, t) then [plan]
      else [plan] + Rounds(c, AfterTurn(c, l, t), turns[1..])
  }

  function Flatten(rounds: seq<seq<Effect>>): seq<Effect> {
    if rounds == [] then [] else rounds[0] + Flatten(rounds[1..])
  }

  /** A run is its rounds, and perhaps a last closing. */
  lemma {:induction false} RunIsItsRounds(c: Config, l: Loop, turns: seq<Turn>)
    ensures exists last: seq<Effect> ::
              (last == [] || last == [Closed]) && Run(c, l, turns).0 == Flatten(Rounds(c, l, turns)) + last
    decreases |turns|
  {
    hide Plan, AfterTurn, Cut, Ends;
    var trace, rounds := Run(c, l, turns).0, Rounds(c, l, turns);
    if rounds == [] {
      assert trace == Flatten(rounds) + Finally(l.source);
    } else {
      var t := turns[0];
      var plan := Plan(c, l, t);
      if t.failAt < |plan| || Ends(c, l, t) {
        assert rounds[1..] == [] && Flatten(rounds) == rounds[0] + [] == rounds[0];
        assert trace == Flatten(rounds) + Finally(if t.failAt < |plan| then Held(l.source, plan[..t.failAt]) else true);
      } else {
        var next := Rounds(c, AfterTurn(c, l, t), turns[1..]);
        RunIsItsRounds(c, AfterTurn(c, l, t), turns[1..]);
        var rest := Run(c, AfterTurn(c, l, t), turns[1..]).0;
        var last: seq<Effect> :| (last == [] || last == [Closed]) && rest == Flatten(next) + last;
        assert rounds[1..] == next;
        assert trace == plan + (Flatten(next) + last) == Flatten(rounds) + last;
      }
    }
  }

  // ---------------------------------------------------------------- what is counted

  datatype Act = Refreshing | Fetching | Opening | Closing | Beating | Reading | Encoding | Sending | Sleeping

  predicate Is(e: Effect, a: Act) {
    match a
    case Refreshing => e.Refreshed?
    case Fetching => e.Fetched?
    case Opening => e.Opened?
    case Closing => e.Closed?
    case Beating => e.Beat?
    case Reading => e.Read?
    case Encoding => e.Encoded?
    case Sending => e.Sent?
    case Sleeping => e.Slept?
  }

  function Times(es: seq<Effect>, a: Act): nat {
    if es == [] then 0 else Times(es[..|es| - 1], a) + (if Is(es[|es| - 1], a) then 1 else 0)
  }

  lemma {:induction false} TimesAppend(es: seq<Effect>, fs: seq<Effect>, a: Act)
    ensures Times(es + fs, a) == Times(es, a) + Times(fs, a)
  {
    if fs == [] {
      assert es + fs == es;
    } else {
      TimesAppend(es, fs[..|fs| - 1], a);
      assert (es + fs)[..|es + fs| - 1] == es + fs[..|fs| - 1];
    }
  }

  lemma TimesOne(e: Effect, a: Act)
    ensures Times([e], a) == if Is(e, a) then 1 else 0
  {
    assert [e][..0] == [];
  }

  lemma TimesTwo(e: Effect, f: Effect, a: Act)
    ensures Times([e, f], a) == (if Is(e, a) then 1 else 0) + (if Is(f, a) then 1 else 0)
  {
    assert [e, f][..1] == [e];
    TimesOne(e, a);
  }

  // ---------------------------------------------------------------- one round

  /** The clock of the round that last did such a thing: `last` is its reading before the
      rounds began. */
  function LastTime(rounds: seq<seq<Effect>>, turns: seq<Turn>, a: Act, k: nat, last: Option<real>): Option<real>
    requires k <= |rounds| <= |turns|
  {
    if k == 0 then last
    else LastTime(rounds[1..], turns[1..], a, k - 1, if Times(rounds[0], a) > 0 then Some(turns[0].now) else last)
  }

  function OpenAfter(open: bool, rounds: seq<seq<Effect>>, k: nat): bool
    requires k <= |rounds|
    decreases k
  {
    if k == 0 then open else OpenAfter(Held(open, rounds[0]), rounds[1..], k - 1)
  }

  /** Nothing was asked yet, or the poll interval has passed since. */
  predicate PollDue(c: Config, t: Turn, asked: Option<real>) {
    asked.Some? ==> t.now >= asked.value + c.pollSeconds
  }

  /** The transport was never negotiated, or its interval has passed since; a budget that was
      given from the start is refreshed from the zero of the clock on. */
  predicate RefreshDue(c: Config, t: Turn, refreshed: Option<real>, given: bool) {
    c.negotiates && (match refreshed
                     case Some(r) => t.now >= r + c.refreshSeconds
                     case None => given ==> t.now >= 0.0)
  }

  predicate Working(e: Effect) {
    e.Opened? || e.Read? || e.Encoded? || e.Sent?
  }

  /** In a round whose poll is due no work comes before a fetch of its own, and in any other
      there is no fetch. */
  ghost predicate Timely(round: seq<Effect>, due: bool) {
    forall i :: 0 <= i < |round| ==>
      && (round[i].Fetched? ==> due)
      && (due && Working(round[i]) ==> exists j :: 0 <= j < i && round[j].Fetched?)
  }

  /** What a round that ran to its end did, and how often. */
  predicate Complete(c: Config, t: Turn, round: seq<Effect>, open: bool, due: bool, refresh: bool) {
    var paused := due && !t.enabled;
    var working := if paused then 0 else 1;
    && Times(round, Refreshing) == (if refresh then 1 else 0)
    && Times(round, Fetching) == (if due then 1 else 0)
    && Times(round, Beating) == (if due then 1 else 0)
    && Times(round, Opening) == (if open then 0 else working)
    && Times(round, Closing) == (if open && paused then 1 else 0)
    && Times(round, Reading) == working
    && Times(round, Encoding) == (if t.hasFrame then working else 0)
    && Times(round, Sending) == (if t.hasFrame then working else 0)
    && (paused ==> Times(round, Sleeping) == 1 && SleptIn(round) == c.pollSeconds)
  }

  /** The loop's variables hold when it last asked and refreshed. */
  predicate Remembers(c: Config, l: Loop, asked: Option<real>, refreshed: Option<real>, given: bool) {
    && (l.enabled.Some? <==> asked.Some?)
    && (asked.Some? ==> l.nextControl == asked.value + c.pollSeconds)
    && (match refreshed
        case Some(r) => l.budgetKnown && l.nextRefresh == r + c.refreshSeconds
        case None => l.budgetKnown == given && l.nextRefresh == 0.0)
  }

  /** The frame's time has not come yet. */
  predicate Waits(c: Config, l: Loop, t: Turn) {
    !c.image && Delay(c, l, t) > 0.0
  }

  lemma OpenTimes(l: Loop, a: Act)
    ensures Times(OpenPart(l), a) == if a.Opening? && !l.source then 1 else 0
  {
    TimesOne(Opened, a);
  }

  lemma PauseTimes(c: Config, l: Loop, t: Turn, a: Act)
    ensures Times(PausePart(c, l, t), a) ==
              if (a.Closing? && l.source) || a.Beating? || a.Sleeping? then 1 else 0
  {
    TimesOne(Closed, a);
    TimesTwo(Beat(false, t.revision), Slept(c.pollSeconds), a);
    TimesAppend(if l.source then [Closed] else [], [Beat(false, t.revision), Slept(c.pollSeconds)], a);
  }

  lemma WaitTimes(c: Config, l: Loop, t: Turn, a: Act)
    ensures Times(WaitPart(c, l, t), a) == if a.Sleeping? && Waits(c, l, t) then 1 else 0
  {
    TimesOne(Slept(Delay(c, l, t)), a);
  }

  lemma CaptureTimes(c: Config, l: Loop, t: Turn, a: Act)
    ensures Times(CapturePart(c, l, t), a) ==
              if a.Reading? || (t.hasFrame && (a.Encoding? || a.Sending? || (a.Sleeping? && Waits(c, l, t)))) then 1
              else 0
  {
    hide WaitPart, Waits, Times;
    NoTimes(a);
    WaitTimes(c, l, t, a);
    TimesOne(Read, a);
    TimesTwo(Encoded, Sent, a);
    TimesAppend([Encoded, Sent], WaitPart(c, l, t), a);
    TimesAppend([Read], if t.hasFrame then [Encoded, Sent] + WaitPart(c, l, t) else [], a);
  }

  lemma PlanTimes(c: Config, l: Loop, t: Turn, a: Act)
    ensures var paused := Polls(l, t) && !t.enabled;
            Times(Plan(c, l, t), a) ==
              match a
              case Refreshing => if Refreshes(c, l, t) then 1 else 0
              case Fetching => if Polls(l, t) then 1 else 0
              case Beating => if Polls(l, t) then 1 else 0
              case Opening => if paused || l.source then 0 else 1
              case Closing => if paused && l.source then 1 else 0
              case Reading => if paused then 0 else 1
              case Encoding => if paused || !t.hasFrame then 0 else 1
              case Sending => if paused || !t.hasFrame then 0 else 1
              case Sleeping => if paused || (t.hasFrame && Waits(c, l, t)) then 1 else 0
  {
    hide OpenPart, PausePart, CapturePart, Polls, Refreshes, Times, Waits;
    OpenTimes(l, a);
    PauseTimes(c, l, t, a);
    CaptureTimes(c, l, t, a);
    NoTimes(a);
    TimesOne(Refreshed, a);
    TimesOne(Fetched(false, t.revision), a);
    TimesOne(Fetched(true, t.revision), a);
    TimesOne(Beat(true, t.revision), a);
    TimesAppend([Beat(true, t.revision)], CapturePart(c, l, t), a);
    TimesAppend(OpenPart(l), [Beat(true, t.revision)] + CapturePart(c, l, t), a);
    TimesAppend([Fetched(true, t.revision)], OpenPart(l) + ([Beat(true, t.revision)] + CapturePart(c, l, t)), a);
    TimesAppend([Fetched(false, t.revision)], PausePart(c, l, t), a);
    TimesAppend(OpenPart(l), CapturePart(c, l, t), a);
    TimesAppend(if Refreshes(c, l, t) then [Refreshed] else [], PollPart(c, l, t), a);
  }

  lemma NoTimes(a: Act)
    ensures Times([], a) == 0
  {}

  lemma PausedSleeps(c: Config, l: Loop, t: Turn)
    requires Polls(l, t) && !t.enabled
    ensures SleptIn(Plan(c, l, t)) == c.pollSeconds
  {
    hide PausePart;
    PauseSlept(c, l, t);
    SleptAppend([Fetched(false, t.revision)], PausePart(c, l, t));
    SleptAppend(if Refreshes(c, l, t) then [Refreshed] else [], PollPart(c, l, t));
  }

  lemma PlanIsComplete(c: Config, l: Loop, t: Turn)
    ensures Complete(c, t, Plan(c, l, t), l.source, Polls(l, t), Refreshes(c, l, t))
  {
    hide Plan, Times, Polls, Refreshes, SleptIn, Waits;
    forall a { PlanTimes(c, l, t, a); }
    if Polls(l, t) && !t.enabled {
      PausedSleeps(c, l, t);
    }
  }

  /** Where a round's fetch stands: at its beginning but for a refresh. */
  lemma PlanIsTimely(c: Config, l: Loop, t: Turn)
    ensures Timely(Plan(c, l, t), Polls(l, t))
  {
    hide Polls, Refreshes;
    var plan := Plan(c, l, t);
    var n := if Refreshes(c, l, t) then 1 else 0;
    if Polls(l, t) {
      assert plan[n].Fetched?;
      forall i | 0 <= i < |plan| && Working(plan[i]) ensures exists j :: 0 <= j < i && plan[j].Fetched? {
        assert n < i;
      }
    } else {
      PlanTimes(c, l, t, Fetching);
      forall i | 0 <= i < |plan| ensures !plan[i].Fetched? {
        NotCounted(plan, Fetching, i);
      }
    }
  }

  lemma {:induction false} NotCounted(es: seq<Effect>, a: Act, i: nat)
    requires Times(es, a) == 0 && i < |es|
    ensures !Is(es[i], a)
  {
    if i < |es| - 1 {
      NotCounted(es[..|es| - 1], a, i);
    }
  }

  lemma CutIsTimely(plan: seq<Effect>, failAt: nat, due: bool)
    requires Timely(plan, due)
    ensures Timely(Cut(plan, failAt), due)
  {
    var cut := Cut(plan, failAt);
    assert |cut| <= |plan| && forall i :: 0 <= i < |cut| ==> cut[i] == plan[i];
    forall i | 0 <= i < |cut| && due && Working(cut[i]) ensures exists j :: 0 <= j < i && cut[j].Fetched? {
      var j :| 0 <= j < i && plan[j].Fetched?;
      assert cut[j].Fetched?;
    }
  }

  // ---------------------------------------------------------------- every round of every run

  /** A round that another one follows, or that was the last of a run that returned. */
  predicate RanToItsEnd(c: Config, l: Loop, turns: seq<Turn>, k: nat) {
    k + 1 < |Rounds(c, l, turns)| || (k < |Rounds(c, l, turns)| && Run(c, l, turns).1.Some?)
  }

  lemma NextRemembers(c: Config, l: Loop, t: Turn, asked: Option<real>, refreshed: Option<real>, given: bool)
    requires Remembers(c, l, asked, refreshed, given)
    ensures Polls(l, t) == PollDue(c, t, asked) && Refreshes(c, l, t) == RefreshDue(c, t, refreshed, given)
    ensures Remembers(c, AfterTurn(c, l, t),
                      if Times(Plan(c, l, t), Fetching) > 0 then Some(t.now) else asked,
                      if Times(Plan(c, l, t), Refreshing) > 0 then Some(t.now) else refreshed, given)
  {
    hide Plan, Times, Captured;
    PlanTimes(c, l, t, Fetching);
    PlanTimes(c, l, t, Refreshing);
    CapturedKeeps(c, l, t);
  }

  lemma CapturedKeeps(c: Config, before: Loop, t: Turn)
    ensures forall m: Loop ::
              var d := Captured(c, before, m, t);
              d.enabled == m.enabled && d.nextControl == m.nextControl
              && d.nextRefresh == m.nextRefresh && d.budgetKnown == m.budgetKnown
  {}

  lemma AfterIsHeld(c: Config, l: Loop, t: Turn)
    ensures AfterTurn(c, l, t).source == Held(l.source, Plan(c, l, t))
  {
    var s := Seen(l.source, None, false, false);
    TurnIsSafe(c, l, t, s);
    HeldIsOpen(s, Plan(c, l, t));
  }

  /** What follows the first round is the run from there. */
  lemma LaterRound(c: Config, l: Loop, turns: seq<Turn>, k: nat)
    requires 0 < k < |Rounds(c, l, turns)|
    ensures var after := AfterTurn(c, l, turns[0]);
            && turns[0].failAt >= |Plan(c, l, turns[0])| && !Ends(c, l, turns[0])
            && Rounds(c, l, turns)[0] == Plan(c, l, turns[0])
            && Rounds(c, l, turns)[1..] == Rounds(c, after, turns[1..])
            && (RanToItsEnd(c, l, turns, k) <==> RanToItsEnd(c, after, turns[1..], k - 1))
  {
    hide Plan, AfterTurn, Cut, Ends;
  }

  lemma FirstRound(c: Config, l: Loop, turns: seq<Turn>, due: bool, refresh: bool)
    requires 0 < |Rounds(c, l, turns)| && due == Polls(l, turns[0]) && refresh == Refreshes(c, l, turns[0])
    ensures Timely(Rounds(c, l, turns)[0], due)
    ensures RanToItsEnd(c, l, turns, 0) ==> Complete(c, turns[0], Rounds(c, l, turns)[0], l.source, due, refresh)
  {
    hide Plan, AfterTurn, Cut, Ends, Timely, Complete, Polls, Refreshes;
    var t := turns[0];
    PlanIsTimely(c, l, t);
    PlanIsComplete(c, l, t);
    CutIsTimely(Plan(c, l, t), t.failAt, Polls(l, t));
  }

  lemma OneLater(rounds: seq<seq<Effect>>, turns: seq<Turn>, a: Act, k: nat, last: Option<real>, open: bool)
    requires 0 < k <= |rounds| <= |turns|
    ensures LastTime(rounds, turns, a, k, last) ==
              LastTime(rounds[1..], turns[1..], a, k - 1, if Times(rounds[0], a) > 0 then Some(turns[0].now) else last)
    ensures OpenAfter(open, rounds, k) == OpenAfter(Held(open, rounds[0]), rounds[1..], k - 1)
  {}

  lemma NoneEarlier(rounds: seq<seq<Effect>>, turns: seq<Turn>, a: Act, last: Option<real>, open: bool)
    requires |rounds| <= |turns|
    ensures LastTime(rounds, turns, a, 0, last) == last && OpenAfter(open, rounds, 0) == open
  {}

  /** In every run: in a round whose poll is due, since the last fetch or because there was
      none, nothing is opened, read or sent before a fetch of its own; in every other round
      nothing is fetched. And a round that ran to its end refreshed, fetched, confirmed,
      opened, read and sent as often as the clock and the answers ask for. */
  lemma {:induction false} ScheduleKept(c: Config, l: Loop, turns: seq<Turn>, k: nat, asked: Option<real>,
                                        refreshed: Option<real>, given: bool)
    requires Remembers(c, l, asked, refreshed, given) && k < |Rounds(c, l, turns)|
    ensures var rounds := Rounds(c, l, turns);
            var due := PollDue(c, turns[k], LastTime(rounds, turns, Fetching, k, asked));
            var refresh := RefreshDue(c, turns[k], LastTime(rounds, turns, Refreshing, k, refreshed), given);
            && Timely(rounds[k], due)
            && (RanToItsEnd(c, l, turns, k) ==>
                  Complete(c, turns[k], rounds[k], OpenAfter(l.source, rounds, k), due, refresh))
    decreases |turns|
  {
    hide Plan, AfterTurn, Rounds, Ends, Timely, Complete, PollDue, RefreshDue, Remembers, Times, Held;
    hide LastTime, OpenAfter, RanToItsEnd, Polls, Refreshes;
    var t := turns[0];
    var plan, rounds := Plan(c, l, t), Rounds(c, l, turns);
    NextRemembers(c, l, t, asked, refreshed, given);
    if k == 0 {
      FirstRound(c, l, turns, Polls(l, t), Refreshes(c, l, t));
      NoneEarlier(rounds, turns, Fetching, asked, l.source);
      NoneEarlier(rounds, turns, Refreshing, refreshed, l.source);
    } else {
      LaterRound(c, l, turns, k);
      AfterIsHeld(c, l, t);
      OneLater(rounds, turns, Fetching, k, asked, l.source);
      OneLater(rounds, turns, Refreshing, k, refreshed, l.source);
      ScheduleKept(c, AfterTurn(c, l, t), turns[1..], k - 1, if Times(plan, Fetching) > 0 then Some(t.now) else asked,
                   if Times(plan, Refreshing) > 0 then Some(t.now) else refreshed, given);
    }
  }

  /** The same for the loop from its start. */
  lemma {:induction false} LoopKeepsSchedule(c: Config, startedAt: real, given: bool, turns: seq<Turn>, k: nat)
    requires k < |Rounds(c, Start(startedAt, given), turns)|
    ensures var l := Start(startedAt, given);
            var rounds := Rounds(c, l, turns);
            var due := PollDue(c, turns[k], LastTime(rounds, turns, Fetching, k, None));
            var refresh := RefreshDue(c, turns[k], LastTime(rounds, turns, Refreshing, k, None), given);
            && Timely(rounds[k], due)
            && (RanToItsEnd(c, l, turns, k) ==>
                  Complete(c, turns[k], rounds[k], OpenAfter(false, rounds, k), due, refresh))
  {
    ScheduleKept(c, Start(startedAt, given), turns, k, None, None, given);
  }

  /** A loop that returns from its start reports the frames it sent, at most the limit. */
  lemma LoopCountsFrames(c: Config, startedAt: real, given: bool, turns: seq<Turn>)
    ensures var (trace, result) := Run(c, Start(startedAt, given), turns);
            result.Some? ==> result.value == SentIn(trace) && (c.maxFrames != 0 ==> result.value <= c.maxFrames)
  {
    ResultCountsFrames(c, Start(startedAt, given), turns);
  }

  // ---------------------------------------------------------------- pacing

  lemma CaptureSlept(c: Config, l: Loop, t: Turn)
    requires !c.image && t.hasFrame
    ensures SleptIn(CapturePart(c, l, t)) == if Delay(c, l, t) > 0.0 then Delay(c, l, t) else 0.0
  {
    hide Delay;
    var wait := WaitPart(c, l, t);
    SleptAppend([Encoded], [Sent]);
    assert [Encoded] + [Sent] == [Encoded, Sent];
    SleptAppend([Encoded, Sent], wait);
    SleptAppend([Read], [Encoded, Sent] + wait);
  }

  /** The wait after a frame brings the clock to one interval past where the last one ended. */
  lemma FrameSlept(c: Config, l: Loop, t: Turn)
    requires !c.image && t.hasFrame && !(Polls(l, t) && !t.enabled)
    ensures SleptIn(Plan(c, l, t)) == if Delay(c, l, t) > 0.0 then Delay(c, l, t) else 0.0
  {
    hide Delay, Polls, Refreshes, CapturePart;
    var capture := CapturePart(c, l, t);
    CaptureSlept(c, l, t);
    SleptAppend([Beat(true, t.revision)], capture);
    SleptAppend(OpenPart(l), [Beat(true, t.revision)] + capture);
    SleptAppend(OpenPart(l), capture);
    SleptAppend([Fetched(true, t.revision)], OpenPart(l) + ([Beat(true, t.revision)] + capture));
    SleptAppend(if Refreshes(c, l, t) then [Refreshed] else [], PollPart(c, l, t));
  }

  /** The first frames of a stretch: from an opening or from a deadline, no round pauses. */
  function PaceStart(l: Loop, turns: seq<Turn>): real
    requires turns != []
  {
    if l.source then l.deadline else turns[0].openedAt
  }

  /** The first of them: it waits until one interval after the start, where the next begins. */
  lemma FirstPaced(c: Config, l: Loop, turns: seq<Turn>)
    requires !c.image && 1 < |Rounds(c, l, turns)| && Times(Rounds(c, l, turns)[0], Sending) > 0
    requires turns[0].sentAt < PaceStart(l, turns) + c.interval
    ensures turns[0].sentAt + SleptIn(Rounds(c, l, turns)[0]) == PaceStart(l, turns) + c.interval
    ensures PaceStart(AfterTurn(c, l, turns[0]), turns[1..]) == PaceStart(l, turns) + c.interval
  {
    hide Plan, Times, SleptIn, Polls, Refreshes, Rounds, Ends;
    LaterRound(c, l, turns, 1);
    PlanTimes(c, l, turns[0], Sending);
    FrameSlept(c, l, turns[0]);
  }

  /** So many intervals after a start. */
  function Due(c: Config, start: real, n: nat): real {
    start + n as real * c.interval
  }

  lemma DueLater(c: Config, start: real, n: nat)
    ensures Due(c, start, 1) == start + c.interval
    ensures Due(c, start + c.interval, n) == Due(c, start, n + 1)
  {}

  predicate AllSend(rounds: seq<seq<Effect>>, n: nat)
    requires n <= |rounds|
  {
    forall j :: 0 <= j < n ==> Times(rounds[j], Sending) > 0
  }

  predicate AllOnTime(c: Config, turns: seq<Turn>, start: real, n: nat)
    requires n <= |turns|
  {
    forall j: nat :: j < n ==> turns[j].sentAt < Due(c, start, j + 1)
  }

  lemma TheRest(c: Config, rounds: seq<seq<Effect>>, turns: seq<Turn>, start: real, n: nat)
    requires 0 < n <= |rounds| <= |turns| && AllSend(rounds, n) && AllOnTime(c, turns, start, n)
    ensures Times(rounds[0], Sending) > 0 && turns[0].sentAt < start + c.interval
    ensures AllSend(rounds[1..], n - 1) && AllOnTime(c, turns[1..], start + c.interval, n - 1)
  {
    hide Due, Times;
    DueLater(c, start, 0);
    forall j: nat | j < n - 1 ensures turns[1..][j].sentAt < Due(c, start + c.interval, j + 1) {
      DueLater(c, start, j + 1);
    }
  }

  /** Frames sent round after round, none of them late: the waits end exactly at whole
      intervals after the opening, so the pace does not drift. */
  lemma {:induction false} PaceDoesNotDrift(c: Config, l: Loop, turns: seq<Turn>, n: nat)
    requires !c.image && 0 < n < |Rounds(c, l, turns)|
    requires AllSend(Rounds(c, l, turns), n) && AllOnTime(c, turns, PaceStart(l, turns), n)
    ensures turns[n - 1].sentAt + SleptIn(Rounds(c, l, turns)[n - 1]) == Due(c, PaceStart(l, turns), n)
    decreases n
  {
    hide Rounds, AfterTurn, PaceStart, Times, SleptIn, Due, AllSend, AllOnTime;
    var after, start := AfterTurn(c, l, turns[0]), PaceStart(l, turns);
    DueLater(c, start, n - 1);
    LaterRound(c, l, turns, 1);
    TheRest(c, Rounds(c, l, turns), turns, start, n);
    FirstPaced(c, l, turns);
    if n > 1 {
      PaceDoesNotDrift(c, after, turns[1..], n - 1);
      assert Rounds(c, l, turns)[1..][n - 2] == Rounds(c, l, turns)[n - 1];
    }
  }

  /** A late frame is not waited for, and the pace begins anew from then. */
  lemma LateFrameRestarts(c: Config, l: Loop, turns: seq<Turn>)
    requires !c.image && 1 < |Rounds(c, l, turns)| && Times(Rounds(c, l, turns)[0], Sending) > 0
    requires turns[0].sentAt >= PaceStart(l, turns) + c.interval
    ensures Times(Rounds(c, l, turns)[0], Sleeping) == 0 && SleptIn(Rounds(c, l, turns)[0]) == 0.0
    ensures AfterTurn(c, l, turns[0]).source && PaceStart(AfterTurn(c, l, turns[0]), turns[1..]) == turns[0].lateAt
  {
    hide Plan, Cut, Times, SleptIn, Polls, Refreshes;
    PlanTimes(c, l, turns[0], Sending);
    PlanTimes(c, l, turns[0], Sleeping);
    FrameSlept(c, l, turns[0]);
  }
}
