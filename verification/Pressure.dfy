/** The packet-pressure counters a heartbeat updates, and what they mean as a function
    of the whole heartbeat history. */
module Pressure {
  import opened Wrappers

  /** Microseconds since an epoch. */
  type Time = int

  const ATTENTION_STREAK := 3

  /** One heartbeat as the pressure counters see it. */
  datatype Beat = Beat(target: Option<real>, observed: Option<real>, now: Time)

  predicate Above(b: Beat) {
    b.target.Some? && b.observed.Some? && b.observed.value > b.target.value
  }

  datatype Counters = Counters(
    streak: nat,
    aboveSince: Option<Time>,
    lastAbove: Option<Time>,
    episodes: nat,
    lastRecovered: Option<Time>,
    recurrences: nat,
    lastRecurrence: Option<Time>)

  const CLEAR := Counters(0, None, None, 0, None, 0, None)

  /** A source first seen through a heartbeat. */
  function FirstBeat(b: Beat): Counters {
    if Above(b) then CLEAR.(streak := 1, aboveSince := Some(b.now), lastAbove := Some(b.now))
    else CLEAR
  }

  function Elapsed(earlier: Time, later: Time): Time {
    if later < earlier then 0 else later - earlier
  }

  /** A further heartbeat of a known source. */
  function NextBeat(c: Counters, b: Beat): Counters {
    if Above(b) then
      var since := if c.streak == 0 then Some(b.now) else c.aboveSince;
      var sustained := c.streak + 1 == ATTENTION_STREAK;
      var recurs := sustained && c.lastRecovered.Some?;
      Counters(
        c.streak + 1,
        since,
        Some(b.now),
        c.episodes + (if sustained then 1 else 0),
        c.lastRecovered,
        c.recurrences + (if recurs then 1 else 0),
        if recurs then Some(Elapsed(c.lastRecovered.value, b.now)) else c.lastRecurrence)
    else
      c.(streak := 0,
         aboveSince := None,
         lastRecovered := if c.streak >= ATTENTION_STREAK then Some(b.now) else c.lastRecovered)
  }

  /** The counters of a source after its heartbeats. `framesFirst` holds for a source
      whose entry was made by an accepted frame before any heartbeat came. */
  function After(h: seq<Beat>, framesFirst: bool): Counters {
    if h == [] then CLEAR
    else if |h| == 1 && !framesFirst then FirstBeat(h[0])
    else NextBeat(After(h[..|h| - 1], framesFirst), h[|h| - 1])
  }

  // ---------------------------------------------------------------- the history read as a whole

  /** A heartbeat as its history shows it: whether it reported more use than its target, and
      when it came. */
  datatype Reading = Reading(over: bool, at: Time)

  /** Without both values nothing is over its target. */
  function ReadingOf(target: Option<real>, observed: Option<real>, at: Time): Reading {
    Reading(target.Some? && observed.Some? && target.value < observed.value, at)
  }

  predicate Shows(r: Reading, b: Beat) {
    r == ReadingOf(b.target, b.observed, b.now)
  }

  function Readings(h: seq<Beat>): (r: seq<Reading>)
    ensures |r| == |h|
  {
    seq(|h|, i requires 0 <= i < |h| => ReadingOf(h[i].target, h[i].observed, h[i].now))
  }

  predicate AllAbove(h: seq<Reading>, from: nat, to: nat)
    requires from <= to <= |h|
  {
    forall i :: from <= i < to ==> h[i].over
  }

  /** The length of the longest over-target suffix. */
  ghost predicate IsStreak(h: seq<Reading>, streak: nat) {
    && streak <= |h|
    && AllAbove(h, |h| - streak, |h|)
    && (streak < |h| ==> !h[|h| - streak - 1].over)
  }

  /** A maximal over-target run starts at i and reaches the attention length. */
  predicate EpisodeStart(h: seq<Reading>, i: nat) {
    && i + 3 <= |h|
    && AllAbove(h, i, i + 3)
    && (i == 0 || !h[i - 1].over)
  }

  ghost function EpisodeStarts(h: seq<Reading>): set<nat> {
    set i: nat | i < |h| && EpisodeStart(h, i)
  }

  /** Heartbeat i is the first one back within target after such a run. */
  predicate Recovery(h: seq<Reading>, i: nat) {
    && 3 <= i < |h|
    && !h[i].over
    && AllAbove(h, i - 3, i)
  }

  /** Heartbeat i is the one with which a run reaches the attention length. */
  predicate Attention(h: seq<Reading>, i: nat) {
    3 <= i + 1 <= |h| && EpisodeStart(h[..i + 1], i + 1 - 3)
  }

  datatype Mark = OverTarget | Recovered | Attended

  predicate Marked(h: seq<Reading>, mark: Mark, i: nat)
    requires i < |h|
  {
    match mark
    case OverTarget => h[i].over
    case Recovered => Recovery(h, i)
    case Attended => Attention(h, i)
  }

  /** The last heartbeat that carries the mark. */
  function LastMark(h: seq<Reading>, mark: Mark): (k: Option<nat>)
    ensures k.Some? ==> k.value < |h|
  {
    if h == [] then None
    else if Marked(h, mark, |h| - 1) then Some(|h| - 1)
    else LastMark(h[..|h| - 1], mark)
  }

  function MarkTime(h: seq<Reading>, mark: Mark): Option<Time> {
    match LastMark(h, mark)
    case None => None
    case Some(k) => Some(h[k].at)
  }

  /** How long after the previous recovery the last attention run came, if there was one. */
  function RecurrenceGap(h: seq<Reading>): Option<Time> {
    match LastMark(h, Attended)
    case None => None
    case Some(k) =>
      match MarkTime(h[..k], Recovered)
      case None => None
      case Some(t) => Some(if t <= h[k].at then h[k].at - t else 0)
  }

  /** The declarative meaning of the counters. */
  ghost predicate Means(c: Counters, h: seq<Reading>) {
    && IsStreak(h, c.streak)
    // and its first heartbeat dates it
    && c.aboveSince == (if c.streak > 0 then Some(h[|h| - c.streak].at) else None)
    && c.lastAbove == MarkTime(h, OverTarget)
    // episodes are the maximal over-target runs of attention length
    && c.episodes == |EpisodeStarts(h)|
    && c.recurrences == (if c.episodes > 0 then c.episodes - 1 else 0)
    && c.lastRecovered == MarkTime(h, Recovered)
    && c.lastRecurrence == RecurrenceGap(h)
    // every episode but a still running one has ended
    && (c.lastRecovered.Some? <==> c.episodes > (if c.streak >= 3 then 1 else 0))
  }

  lemma SuffixIsUnique(h: seq<Reading>, s: nat, t: nat)
    requires IsStreak(h, s)
    requires t <= |h| && AllAbove(h, |h| - t, |h|)
    ensures t <= s
  {}

  lemma ExtendStarts(h: seq<Reading>, b: Reading, streak: nat)
    requires IsStreak(h, streak)
    ensures EpisodeStarts(h + [b]) ==
            if b.over && streak + 1 == 3 then EpisodeStarts(h) + {|h| - streak}
            else EpisodeStarts(h)
    ensures |h| - streak !in EpisodeStarts(h) || streak >= 3
  {
    var h' := h + [b];
    forall i: nat | i < |h|
      ensures EpisodeStart(h', i) <==>
                EpisodeStart(h, i) || (i == |h| - streak && b.over && streak + 1 == 3)
    {
      if i + 3 <= |h| {
        assert forall j :: i <= j < i + 3 ==> h'[j] == h[j];
      } else if EpisodeStart(h', i) {
        assert i + 3 == |h'|;
        assert h'[i].over && h'[i + 1].over && h'[i + 2].over;
        assert h'[i] == h[i] && h'[i + 1] == h[i + 1] && h'[i + 2] == b;
      }
    }
  }

  lemma StreakStep(h: seq<Reading>, b: Reading, streak: nat)
    requires IsStreak(h, streak)
    ensures IsStreak(h + [b], if b.over then streak + 1 else 0)
  {}

  lemma RecoveredAtEnd(h: seq<Reading>, b: Reading, streak: nat)
    requires IsStreak(h, streak)
    ensures Recovery(h + [b], |h|) <==> !b.over && streak >= 3
  {
    var n := |h|;
    if n >= 3 {
      assert AllAbove(h + [b], n - 3, n) <==> AllAbove(h, n - 3, n) by {
        assert forall i :: 0 <= i < n ==> (h + [b])[i] == h[i];
      }
      if AllAbove(h, n - 3, n) {
        SuffixIsUnique(h, streak, 3);
      }
    }
  }

  lemma AttendedAtEnd(h: seq<Reading>, b: Reading, streak: nat)
    requires IsStreak(h, streak)
    ensures Attention(h + [b], |h|) <==> b.over && streak + 1 == 3
  {
    var h' := h + [b];
    assert h'[..|h| + 1] == h';
    StreakStep(h, b, streak);
    var streak' := if b.over then streak + 1 else 0;
    if Attention(h', |h|) {
      SuffixIsUnique(h', streak', 3);
      SuffixIsUnique(h', 3, streak');
    }
  }

  lemma LastMarkStep(h: seq<Reading>, b: Reading, mark: Mark)
    ensures LastMark(h + [b], mark) == if Marked(h + [b], mark, |h|) then Some(|h|) else LastMark(h, mark)
    ensures MarkTime(h + [b], mark) == if Marked(h + [b], mark, |h|) then Some(b.at) else MarkTime(h, mark)
  {
    assert (h + [b])[..|h|] == h;
  }

  lemma GapStep(h: seq<Reading>, b: Reading)
    ensures RecurrenceGap(h + [b]) ==
            if !Attention(h + [b], |h|) then RecurrenceGap(h)
            else if MarkTime(h, Recovered).None? then None
            else Some(if MarkTime(h, Recovered).value <= b.at then b.at - MarkTime(h, Recovered).value else 0)
  {
    LastMarkStep(h, b, Attended);
    var k := LastMark(h + [b], Attended);
    if k.Some? {
      assert (h + [b])[..k.value] == h[..k.value];
      assert h[..|h|] == h;
    }
  }

  lemma MeansStep(c: Counters, h: seq<Reading>, b: Beat, r: Reading)
    requires Means(c, h) && Shows(r, b)
    ensures Means(NextBeat(c, b), h + [r])
  {
    hide IsStreak, EpisodeStarts, MarkTime, RecurrenceGap;
    EpisodesStep(c, h, b, r);
    StreakStep(h, r, c.streak);
    SinceStep(c, h, b, r);
    MarksStep(c, h, b, r);
    if c.streak >= 3 {
      RunningEpisode(h, c.streak);
    }
  }

  /** A streak of attention length is an episode already. */
  lemma RunningEpisode(h: seq<Reading>, streak: nat)
    requires IsStreak(h, streak) && streak >= 3
    ensures |EpisodeStarts(h)| > 0
  {
    assert EpisodeStart(h, |h| - streak);
    assert |h| - streak in EpisodeStarts(h);
  }

  lemma SinceStep(c: Counters, h: seq<Reading>, b: Beat, r: Reading)
    requires Means(c, h) && Shows(r, b)
    ensures var d := NextBeat(c, b);
            d.streak <= |h| + 1 && d.aboveSince ==
                (if d.streak > 0 then Some((h + [r])[|h| + 1 - d.streak].at) else None)
  {
    hide EpisodeStarts, MarkTime, RecurrenceGap;
  }

  lemma EpisodesStep(c: Counters, h: seq<Reading>, b: Beat, r: Reading)
    requires IsStreak(h, c.streak) && c.episodes == |EpisodeStarts(h)| && Shows(r, b)
    ensures NextBeat(c, b).episodes == |EpisodeStarts(h + [r])|
  {
    hide IsStreak, EpisodeStarts;
    ExtendStarts(h, r, c.streak);
  }

  lemma MarksStep(c: Counters, h: seq<Reading>, b: Beat, r: Reading)
    requires Means(c, h) && Shows(r, b)
    ensures var d := NextBeat(c, b);
            && d.lastAbove == MarkTime(h + [r], OverTarget)
            && d.lastRecovered == MarkTime(h + [r], Recovered)
            && d.lastRecurrence == RecurrenceGap(h + [r])
  {
    hide IsStreak, EpisodeStarts, MarkTime, RecurrenceGap, Recovery, Attention;
    RecoveredAtEnd(h, r, c.streak);
    AttendedAtEnd(h, r, c.streak);
    LastIs(h, r);
    LastMarkStep(h, r, OverTarget);
    LastMarkStep(h, r, Recovered);
    GapStep(h, r);
    NoGapBeforeRecovery(h);
  }

  lemma LastIs(h: seq<Reading>, b: Reading)
    ensures (h + [b])[|h|] == b
  {}

  /** Without a recovery in the past there is no recurrence to date. */
  lemma {:induction false} NoGapBeforeRecovery(h: seq<Reading>)
    ensures MarkTime(h, Recovered).None? ==> RecurrenceGap(h).None?
  {
    if h != [] {
      var before := h[..|h| - 1];
      assert h == before + [h[|h| - 1]];
      NoGapBeforeRecovery(before);
      LastMarkStep(before, h[|h| - 1], Recovered);
      GapStep(before, h[|h| - 1]);
    }
  }

  /** Whatever heartbeats a source has sent, its incremental counters are the declared
      function of the whole history. */
  lemma {:induction false} CountersAreHistory(h: seq<Beat>, framesFirst: bool)
    ensures Means(After(h, framesFirst), Readings(h))
  {
    if h == [] {
      assert EpisodeStarts(Readings(h)) == {};
    } else {
      var before, b := h[..|h| - 1], h[|h| - 1];
      var r := ReadingOf(b.target, b.observed, b.now);
      assert Readings(h) == Readings(before) + [r];
      CountersAreHistory(before, framesFirst);
      assert After(h, framesFirst) == NextBeat(After(before, framesFirst), b);
      MeansStep(After(before, framesFirst), Readings(before), b, r);
    }
  }

  /** The meaning fixes every counter. */
  lemma MeaningIsUnique(c: Counters, d: Counters, h: seq<Reading>)
    requires Means(c, h) && Means(d, h)
    ensures c == d
  {
    SuffixIsUnique(h, c.streak, d.streak);
    SuffixIsUnique(h, d.streak, c.streak);
  }
}
