/** Concurrent admissions: any number of request threads, heartbeats and forgets, each
    shared access one step. The shared state and its updates are those of
    `SensorIngress`. */
module Admission {
  import opened Wrappers
  import opened SensorIngress

  /** Where a request thread stands. From `Holding` to `Leaving` it owns the slot. */
  datatype Pc =
    | Waiting(f: Frame)
    | Holding(f: Frame)
    | InOrder(f: Frame)
    | InPipeline(f: Frame)
    | Perceived(f: Frame)
    | Sequenced(f: Frame)
    | Leaving(outcome: Result<Receipt, IngressError>)
    | Done(outcome: Result<Receipt, IngressError>)

  predicate OwnsSlot(pc: Pc) {
    !pc.Waiting? && !pc.Done?
  }

  /** `accepted` is history: per source, the frames recorded since it was last forgotten. */
  datatype World = World(
    shared: State,
    threads: map<nat, Pc>,
    accepted: map<string, seq<Frame>>)

  const START := World(EMPTY, map[], map[])

  datatype Step =
    | Arrive(t: nat, f: Frame)
    | Acquire(t: nat)
    | CheckSequence(t: nat)
    | DecodeFrame(t: nat, decodes: bool)
    | Perceive(t: nat, processes: bool)
    | SetSequence(t: nat)
    | Record(t: nat, now: int)
    | Release(t: nat)
    | Beat(hb: Heartbeat, now: int)
    | Forget(sourceId: string)

  function Log(w: World, sourceId: string): seq<Frame> {
    if sourceId in w.accepted then w.accepted[sourceId] else []
  }

  predicate At(w: World, t: nat) {
    t in w.threads
  }

  predicate Enabled(w: World, s: Step) {
    match s
    case Arrive(t, _) => !At(w, t)
    case Acquire(t) => At(w, t) && w.threads[t].Waiting?
    case CheckSequence(t) => At(w, t) && w.threads[t].Holding?
    case DecodeFrame(t, _) => At(w, t) && w.threads[t].InOrder?
    case Perceive(t, _) => At(w, t) && w.threads[t].InPipeline?
    case SetSequence(t) => At(w, t) && w.threads[t].Perceived?
    case Record(t, _) => At(w, t) && w.threads[t].Sequenced? && 0 <= w.threads[t].f.dropped
    case Release(t) => At(w, t) && w.threads[t].Leaving?
    case Beat(_, _) => true
    // a source is not forgotten inside one of its own admissions
    case Forget(id) => forall t :: t in w.threads && OwnsSlot(w.threads[t]) && !w.threads[t].Leaving? ==>
        w.threads[t].f.sourceId != id
  }

  function Rejecting(w: World, t: nat, e: IngressError, pc: Pc): World {
    w.(shared := w.shared.(rejected := Reject(w.shared.rejected, e)), threads := w.threads[t := pc])
  }

  function Next(w: World, maxPayload: nat, s: Step): World
    requires Enabled(w, s)
  {
    match s
    case Arrive(t, f) => w.(threads := w.threads[t := Waiting(f)])
    case Acquire(t) =>
      var f := w.threads[t].f;
      (match Precheck(f, maxPayload)
       case Some(e) => Rejecting(w, t, e, Done(Err(e)))
       case None =>
         if w.shared.processing then Rejecting(w, t, Busy, Done(Err(Busy)))
         else w.(shared := w.shared.(processing := true), threads := w.threads[t := Holding(f)]))
    case CheckSequence(t) =>
      var f := w.threads[t].f;
      if SequenceFresh(w.shared, f) then w.(threads := w.threads[t := InOrder(f)])
      else Rejecting(w, t, Sequence, Leaving(Err(Sequence)))
    case DecodeFrame(t, decodes) =>
      if decodes then w.(threads := w.threads[t := InPipeline(w.threads[t].f)])
      else Rejecting(w, t, Decode, Leaving(Err(Decode)))
    case Perceive(t, processes) =>
      w.(threads := w.threads[t := if processes then Perceived(w.threads[t].f) else Leaving(Err(PipelineFailure))])
    case SetSequence(t) =>
      var f := w.threads[t].f;
      w.(shared := w.shared.(lastSequence := w.shared.lastSequence[f.sourceId := f.sequence]),
         threads := w.threads[t := Sequenced(f)])
    case Record(t, now) =>
      var f := w.threads[t].f;
      World(AfterRecord(w.shared, f, now),
            w.threads[t := Leaving(if f.sequence < 0 then Err(Sequence)
                                   else Ok(Receipt(f.sourceId, f.sourceType, f.sequence, f.dropped)))],
            w.accepted[f.sourceId := Log(w, f.sourceId) + [f]])
    case Release(t) =>
      w.(shared := w.shared.(processing := false), threads := w.threads[t := Done(w.threads[t].outcome)])
    case Beat(hb, now) => w.(shared := AfterHeartbeat(w.shared, hb, now))
    case Forget(id) => w.(shared := AfterForget(w.shared, id), accepted := w.accepted - {id})
  }

  ghost predicate Feasible(steps: seq<Step>, maxPayload: nat)
    decreases |steps|, 0
  {
    steps == [] ||
    (var before := steps[..|steps| - 1];
     Feasible(before, maxPayload) && Enabled(Run(before, maxPayload), steps[|steps| - 1]))
  }

  ghost function Run(steps: seq<Step>, maxPayload: nat): World
    requires Feasible(steps, maxPayload)
    decreases |steps|, 1
  {
    if steps == [] then START
    else Next(Run(steps[..|steps| - 1], maxPayload), maxPayload, steps[|steps| - 1])
  }

  // ---------------------------------------------------------------- what every step keeps

  predicate Increasing(frames: seq<Frame>) {
    forall i, j :: 0 <= i < j < |frames| ==> frames[i].sequence < frames[j].sequence
  }

  function DropSum(frames: seq<Frame>): int {
    if frames == [] then 0 else DropSum(frames[..|frames| - 1]) + frames[|frames| - 1].dropped
  }

  /** At most one thread owns the slot, and the slot is taken exactly while one does. */
  ghost predicate OneOwner(w: World) {
    && (forall t, u :: t in w.threads && u in w.threads && OwnsSlot(w.threads[t]) && OwnsSlot(w.threads[u]) ==> t == u)
    && (w.shared.processing <==> exists t :: t in w.threads && OwnsSlot(w.threads[t]))
  }

  predicate PastChecks(pc: Pc) {
    pc.InOrder? || pc.InPipeline? || pc.Perceived? || pc.Sequenced?
  }

  ghost predicate ThreadsInOrder(w: World) {
    forall t :: t in w.threads ==>
      var pc := w.threads[t];
      && (OwnsSlot(pc) && !pc.Leaving? ==> 0 <= pc.f.sequence && 0 <= pc.f.dropped)
      && (PastChecks(pc) ==> forall g :: g in Log(w, pc.f.sourceId) ==> g.sequence < pc.f.sequence)
  }

  predicate AboutToRecord(w: World, t: nat, id: string) {
    t in w.threads && w.threads[t].Sequenced? && w.threads[t].f.sourceId == id
  }

  /** The sequence a source's next frame must exceed: its last recorded one, or the one
      its admission is about to record. */
  ghost predicate LastSequenceMatches(w: World, id: string) {
    var log := Log(w, id);
    || (id in w.shared.lastSequence
        && (exists t :: AboutToRecord(w, t, id) && w.threads[t].f.sequence == w.shared.lastSequence[id]))
    || ((forall t :: !AboutToRecord(w, t, id))
        && (if log == [] then id !in w.shared.lastSequence
            else id in w.shared.lastSequence && w.shared.lastSequence[id] == log[|log| - 1].sequence))
  }

  /** Statistics are count, sum and maximum over exactly the recorded frames. */
  ghost predicate StatsMatch(w: World, id: string) {
    var log := Log(w, id);
    && Increasing(log)
    && (if id in w.shared.sources then
          var c := w.shared.sources[id];
          && c.acceptedFrames == |log|
          && c.droppedTotal == DropSum(log)
          && c.lastSequence == if log == [] then None else Some(log[|log| - 1].sequence)
        else log == [])
  }

  ghost predicate Consistent(w: World) {
    && OneOwner(w)
    && ThreadsInOrder(w)
    && (forall id :: LastSequenceMatches(w, id))
    && (forall id :: StatsMatch(w, id))
  }

  /** Every step that only moves the slot's owner along, with the shared maps alone. */
  lemma OwnerMoves(w: World, w': World, t: nat, pc: Pc)
    requires Consistent(w)
    requires t in w.threads && OwnsSlot(w.threads[t]) && OwnsSlot(pc)
    requires w'.threads == w.threads[t := pc] && w'.accepted == w.accepted
    requires w'.shared == w.shared.(rejected := w'.shared.rejected)
    requires !w.threads[t].Sequenced? && !pc.Sequenced?
    requires pc.Leaving? || (pc.f.sequence >= 0 && pc.f.dropped >= 0)
    requires PastChecks(pc) ==> forall g :: g in Log(w, pc.f.sourceId) ==> g.sequence < pc.f.sequence
    ensures Consistent(w')
  {
    ThreadMoves(w, w', t);
    forall id ensures LastSequenceMatches(w', id) && StatsMatch(w', id) {
      assert LastSequenceMatches(w, id) && StatsMatch(w, id);
      assert Log(w', id) == Log(w, id);
      forall u | u in w'.threads && w'.threads[u].Sequenced? ensures u in w.threads && w.threads[u] == w'.threads[u] {}
      if u :| u in w.threads && w.threads[u].Sequenced? {
        assert false;
      }
    }
  }

  predicate Owner(w: World, t: nat) {
    t in w.threads && OwnsSlot(w.threads[t])
  }

  /** One thread moves; the slot is taken or freed exactly when it starts or ceases to
      own it. */
  lemma ThreadMoves(w: World, w': World, t: nat)
    requires OneOwner(w) && t in w'.threads
    requires w'.threads == w.threads[t := w'.threads[t]]
    requires Owner(w, t) || !Owner(w', t) || !w.shared.processing
    requires w'.shared.processing == if Owner(w, t) || Owner(w', t) then Owner(w', t) else w.shared.processing
    ensures OneOwner(w')
  {
    forall u ensures Owner(w', u) ==> if u == t then Owner(w', t) else Owner(w, u) {}
    if w'.shared.processing && !Owner(w', t) {
      var u :| u in w.threads && OwnsSlot(w.threads[u]);
      assert Owner(w', u);
    }
  }

  predicate ThreadInOrder(w: World, pc: Pc) {
    && (OwnsSlot(pc) && !pc.Leaving? ==> 0 <= pc.f.sequence && 0 <= pc.f.dropped)
    && (PastChecks(pc) ==> forall g :: g in Log(w, pc.f.sourceId) ==> g.sequence < pc.f.sequence)
  }

  /** One thread moves and the records stay. */
  lemma OrderMoves(w: World, w': World, t: nat)
    requires ThreadsInOrder(w) && t in w'.threads && w'.threads == w.threads[t := w'.threads[t]]
    requires w'.accepted == w.accepted && ThreadInOrder(w, w'.threads[t])
    ensures ThreadsInOrder(w')
  {
    assert forall id :: Log(w', id) == Log(w, id);
  }

  lemma AcquireStep(w: World, maxPayload: nat, t: nat)
    requires Consistent(w) && Enabled(w, Acquire(t))
    ensures Consistent(Next(w, maxPayload, Acquire(t)))
  {
    hide LastSequenceMatches, StatsMatch, Reject;
    var w' := Next(w, maxPayload, Acquire(t));
    ThreadMoves(w, w', t);
    OrderMoves(w, w', t);
    SameSequenced(w, w');
  }

  /** When maps, history and the threads about to record are untouched, so are the
      per-source facts. */
  lemma SameSequenced(w: World, w': World)
    requires Consistent(w)
    requires w'.accepted == w.accepted
    requires w'.shared.lastSequence == w.shared.lastSequence && w'.shared.sources == w.shared.sources
    requires forall u :: u in w'.threads && w'.threads[u].Sequenced? <==> u in w.threads && w.threads[u].Sequenced?
    requires forall u :: u in w.threads && w.threads[u].Sequenced? ==> w'.threads[u] == w.threads[u]
    ensures forall id :: LastSequenceMatches(w', id) && StatsMatch(w', id)
  {
    forall id ensures LastSequenceMatches(w', id) && StatsMatch(w', id) {
      assert LastSequenceMatches(w, id) && StatsMatch(w, id);
      assert Log(w', id) == Log(w, id);
      assert forall u :: AboutToRecord(w', u, id) <==> AboutToRecord(w, u, id);
    }
  }

  lemma SetSequenceStep(w: World, maxPayload: nat, t: nat)
    requires Consistent(w) && Enabled(w, SetSequence(t))
    ensures Consistent(Next(w, maxPayload, SetSequence(t)))
  {
    var w' := Next(w, maxPayload, SetSequence(t));
    var f := w.threads[t].f;
    hide StatsMatch;
    assert OwnsSlot(w.threads[t]) && OwnsSlot(w'.threads[t]);
    ThreadMoves(w, w', t);
    OrderMoves(w, w', t);
    forall id ensures LastSequenceMatches(w', id) && StatsMatch(w', id) {
      assert LastSequenceMatches(w, id) && StatsMatch(w, id);
      SameStats(w, w', id);
      assert Log(w', id) == Log(w, id);
      if id == f.sourceId {
        assert w'.threads[t].Sequenced? && w'.threads[t].f.sourceId == id;
      }
    }
  }

  lemma SameStats(w: World, w': World, id: string)
    requires StatsMatch(w, id) && w'.accepted == w.accepted && w'.shared.sources == w.shared.sources
    ensures StatsMatch(w', id)
  {
    assert Log(w', id) == Log(w, id);
  }

  lemma LogGrows(log: seq<Frame>, f: Frame)
    requires Increasing(log) && forall g :: g in log ==> g.sequence < f.sequence
    ensures Increasing(log + [f]) && DropSum(log + [f]) == DropSum(log) + f.dropped
  {
    assert (log + [f])[..|log|] == log;
  }

  /** The recorded source: its log gained the frame, and its last sequence is the one the
      admission had set. */
  lemma RecordedSource(w: World, w': World, t: nat, now: int)
    requires OneOwner(w) && ThreadsInOrder(w)
    requires t in w.threads && w.threads[t].Sequenced? && t in w'.threads && w'.threads[t].Leaving?
    requires w'.threads == w.threads[t := w'.threads[t]]
    requires w'.shared == AfterRecord(w.shared, w.threads[t].f, now)
    requires w'.accepted == w.accepted[w.threads[t].f.sourceId := Log(w, w.threads[t].f.sourceId) + [w.threads[t].f]]
    requires LastSequenceMatches(w, w.threads[t].f.sourceId) && StatsMatch(w, w.threads[t].f.sourceId)
    ensures LastSequenceMatches(w', w.threads[t].f.sourceId) && StatsMatch(w', w.threads[t].f.sourceId)
  {
    var f := w.threads[t].f;
    var id := f.sourceId;
    LogGrows(Log(w, id), f);
    assert AboutToRecord(w, t, id);
    forall u ensures !AboutToRecord(w', u, id) {
      assert AboutToRecord(w, u, id) ==> Owner(w, u) && u == t;
    }
  }

  /** Sources whose records and threads are untouched. */
  lemma OtherSource(w: World, w': World, id: string)
    requires LastSequenceMatches(w, id) && StatsMatch(w, id)
    requires Log(w', id) == Log(w, id)
    requires id in w'.shared.lastSequence <==> id in w.shared.lastSequence
    requires id in w.shared.lastSequence ==> w'.shared.lastSequence[id] == w.shared.lastSequence[id]
    requires id in w'.shared.sources <==> id in w.shared.sources
    requires id in w.shared.sources ==> w'.shared.sources[id] == w.shared.sources[id]
    requires forall u :: AboutToRecord(w', u, id) <==> AboutToRecord(w, u, id)
    requires forall u :: AboutToRecord(w, u, id) ==> u in w'.threads && w'.threads[u] == w.threads[u]
    ensures LastSequenceMatches(w', id) && StatsMatch(w', id)
  {}

  lemma RecordStep(w: World, maxPayload: nat, t: nat, now: int)
    requires Consistent(w) && Enabled(w, Record(t, now))
    ensures Consistent(Next(w, maxPayload, Record(t, now)))
  {
    hide LastSequenceMatches, StatsMatch, AcceptStats;
    var w' := Next(w, maxPayload, Record(t, now));
    forall id ensures LastSequenceMatches(w', id) && StatsMatch(w', id) {
      assert LastSequenceMatches(w, id) && StatsMatch(w, id);
      if id == w.threads[t].f.sourceId {
        RecordedSource(w, w', t, now);
      } else {
        assert Log(w', id) == Log(w, id);
        OtherSource(w, w', id);
      }
    }
    assert OwnsSlot(w.threads[t]);
    ThreadMoves(w, w', t);
  }

  lemma ReleaseStep(w: World, maxPayload: nat, t: nat)
    requires Consistent(w) && Enabled(w, Release(t))
    ensures Consistent(Next(w, maxPayload, Release(t)))
  {
    var w' := Next(w, maxPayload, Release(t));
    assert OwnsSlot(w.threads[t]);
    ThreadMoves(w, w', t);
    assert ThreadsInOrder(w');
    SameSequenced(w, w');
  }

  lemma BeatStep(w: World, maxPayload: nat, hb: Heartbeat, now: int)
    requires Consistent(w)
    ensures Consistent(Next(w, maxPayload, Beat(hb, now)))
  {
    var w' := Next(w, maxPayload, Beat(hb, now));
    forall id ensures LastSequenceMatches(w', id) && StatsMatch(w', id) {
      assert LastSequenceMatches(w, id) && StatsMatch(w, id);
      assert Log(w', id) == Log(w, id);
      assert forall u :: AboutToRecord(w', u, id) <==> AboutToRecord(w, u, id);
    }
    assert ThreadsInOrder(w');
    assert OneOwner(w');
  }

  lemma ForgetStep(w: World, maxPayload: nat, sourceId: string)
    requires Consistent(w) && Enabled(w, Forget(sourceId))
    ensures Consistent(Next(w, maxPayload, Forget(sourceId)))
  {
    var w' := Next(w, maxPayload, Forget(sourceId));
    forall id ensures LastSequenceMatches(w', id) && StatsMatch(w', id) {
      assert LastSequenceMatches(w, id) && StatsMatch(w, id);
      if id == sourceId {
        assert forall u :: !AboutToRecord(w', u, id);
      } else {
        assert Log(w', id) == Log(w, id);
        assert forall u :: AboutToRecord(w', u, id) <==> AboutToRecord(w, u, id);
      }
    }
    forall t | t in w'.threads && PastChecks(w'.threads[t])
        ensures Log(w', w'.threads[t].f.sourceId) == Log(w, w'.threads[t].f.sourceId) {
      assert OwnsSlot(w.threads[t]) && !w.threads[t].Leaving?;
    }
    assert OneOwner(w');
  }

  lemma FreshIsAboveLog(w: World, t: nat)
    requires Consistent(w) && t in w.threads && w.threads[t].Holding?
    requires SequenceFresh(w.shared, w.threads[t].f)
    ensures forall g :: g in Log(w, w.threads[t].f.sourceId) ==> g.sequence < w.threads[t].f.sequence
  {
    var f := w.threads[t].f;
    assert OwnsSlot(w.threads[t]);
    assert LastSequenceMatches(w, f.sourceId) && StatsMatch(w, f.sourceId);
  }

  lemma ArriveStep(w: World, maxPayload: nat, t: nat, f: Frame)
    requires Consistent(w) && Enabled(w, Arrive(t, f))
    ensures Consistent(Next(w, maxPayload, Arrive(t, f)))
  {
    var w' := Next(w, maxPayload, Arrive(t, f));
    ThreadMoves(w, w', t);
    assert ThreadsInOrder(w');
    SameSequenced(w, w');
  }

  lemma CheckStep(w: World, maxPayload: nat, t: nat)
    requires Consistent(w) && Enabled(w, CheckSequence(t))
    ensures Consistent(Next(w, maxPayload, CheckSequence(t)))
  {
    var w' := Next(w, maxPayload, CheckSequence(t));
    if SequenceFresh(w.shared, w.threads[t].f) {
      FreshIsAboveLog(w, t);
    }
    OwnerMoves(w, w', t, w'.threads[t]);
  }

  lemma StepKeeps(w: World, maxPayload: nat, s: Step)
    requires Consistent(w) && Enabled(w, s)
    ensures Consistent(Next(w, maxPayload, s))
  {
    var w' := Next(w, maxPayload, s);
    match s
    case Arrive(t, f) => ArriveStep(w, maxPayload, t, f);
    case Acquire(t) => AcquireStep(w, maxPayload, t);
    case CheckSequence(t) => CheckStep(w, maxPayload, t);
    case DecodeFrame(t, _) => OwnerMoves(w, w', t, w'.threads[t]);
    case Perceive(t, _) => OwnerMoves(w, w', t, w'.threads[t]);
    case SetSequence(t) => SetSequenceStep(w, maxPayload, t);
    case Record(t, now) => RecordStep(w, maxPayload, t, now);
    case Release(t) => ReleaseStep(w, maxPayload, t);
    case Beat(hb, now) => BeatStep(w, maxPayload, hb, now);
    case Forget(id) => ForgetStep(w, maxPayload, id);
  }

  lemma {:induction false} RunIsConsistent(steps: seq<Step>, maxPayload: nat)
    requires Feasible(steps, maxPayload)
    ensures Consistent(Run(steps, maxPayload))
  {
    if steps == [] {
      forall id ensures LastSequenceMatches(START, id) && StatsMatch(START, id) {}
    } else {
      var before := steps[..|steps| - 1];
      RunIsConsistent(before, maxPayload);
      StepKeeps(Run(before, maxPayload), maxPayload, steps[|steps| - 1]);
    }
  }

  /** In every interleaving of admissions, heartbeats and forgets: no two frames are in
      the pipeline at once, the slot is free whenever no admission is under way, and each
      source's accepted sequences strictly increase while its statistics are their count
      and the sum of the drops they report. */
  lemma AdmissionIsExclusiveAndCounted(steps: seq<Step>, maxPayload: nat, id: string)
    requires Feasible(steps, maxPayload)
    ensures var w := Run(steps, maxPayload);
            && (forall t, u ::
                  t in w.threads && u in w.threads && w.threads[t].InPipeline? && w.threads[u].InPipeline? ==> t == u)
            && ((forall t :: t in w.threads ==> w.threads[t].Done?) ==> !w.shared.processing)
            && Increasing(Log(w, id))
            && (id in w.shared.sources ==>
                  && w.shared.sources[id].acceptedFrames == |Log(w, id)|
                  && w.shared.sources[id].droppedTotal == DropSum(Log(w, id)))
            && (id !in w.shared.sources ==> Log(w, id) == [])
  {
    RunIsConsistent(steps, maxPayload);
    assert StatsMatch(Run(steps, maxPayload), id);
  }
}
