/** Concurrent admissions are the atomic calls of `SensorIngress`: whatever the interleaving,
    the state that a call can tell moves by one whole call at a time. */
module AdmissionRefines {
  import opened Wrappers
  import opened SensorIngress
  import opened Admission

  /** A whole call, as a delivery makes it: the slot free or busy, what decoding and perception
      make of the frame, and the time of recording. */
  datatype Op =
    | Stutter
    | Call(f: Frame, busy: bool, p: Perception, now: int)
    | Pulse(hb: Heartbeat, now: int)
    | Drops(id: string)

  function ApplyOp(s: State, op: Op, maxPayload: nat): State {
    match op
    case Stutter => s
    case Call(f, busy, p, now) => AfterFrame(s.(processing := busy), f, maxPayload, p, now).(processing := s.processing)
    case Pulse(hb, now) => AfterHeartbeat(s, hb, now)
    case Drops(id) => AfterForget(s, id)
  }

  /** The state with the slot free and each source's last sequence as recorded: an admission
      under way does not show. */
  function View(w: World): State {
    w.shared.(processing := false, lastSequence := Recorded(w.accepted))
  }

  function Recorded(accepted: map<string, seq<Frame>>): map<string, int> {
    map id | id in accepted && accepted[id] != [] :: accepted[id][|accepted[id]| - 1].sequence
  }

  /** The call that a step completes. */
  function OpOf(w: World, maxPayload: nat, s: Step): Op
    requires Enabled(w, s)
  {
    match s
    case Arrive(_, _) => Stutter
    case Acquire(t) =>
      var f := w.threads[t].f;
      if Precheck(f, maxPayload).Some? || w.shared.processing
          then Call(f, w.shared.processing, Perception(true, true), 0)
      else Stutter
    case CheckSequence(t) =>
      if SequenceFresh(w.shared, w.threads[t].f) then Stutter
      else Call(w.threads[t].f, false, Perception(true, true), 0)
    case DecodeFrame(t, decodes) =>
      if decodes then Stutter else Call(w.threads[t].f, false, Perception(false, true), 0)
    case Perceive(t, processes) =>
      if processes then Stutter else Call(w.threads[t].f, false, Perception(true, false), 0)
    case SetSequence(_) => Stutter
    case Record(t, now) => Call(w.threads[t].f, false, Perception(true, true), now)
    case Release(_) => Stutter
    case Beat(hb, now) => Pulse(hb, now)
    case Forget(id) => Drops(id)
  }

  /** Threads that hold the slot have passed the first checks. */
  ghost predicate Checked(w: World, maxPayload: nat) {
    forall t :: t in w.threads && OwnsSlot(w.threads[t]) && !w.threads[t].Leaving? ==>
      Precheck(w.threads[t].f, maxPayload).None?
  }

  lemma CheckedStep(w: World, maxPayload: nat, s: Step)
    requires Checked(w, maxPayload) && Enabled(w, s)
    ensures Checked(Next(w, maxPayload, s), maxPayload)
  {
    hide Precheck, AfterRecord, AfterHeartbeat, AfterForget, Reject;
  }

  /** A frame past the sequence check exceeds the recorded sequence. */
  lemma ViewFresh(w: World, t: nat)
    requires Consistent(w) && t in w.threads && PastChecks(w.threads[t])
    ensures SequenceFresh(View(w), w.threads[t].f)
  {
    var f := w.threads[t].f;
    if f.sourceId in View(w).lastSequence {
      var log := Log(w, f.sourceId);
      assert log[|log| - 1] in log;
    }
  }

  /** With an owner that is not about to record, the recorded sequences are the shared ones. */
  lemma ViewShared(w: World, t: nat)
    requires Consistent(w) && t in w.threads && w.threads[t].Holding?
    ensures View(w).lastSequence == w.shared.lastSequence
  {
    assert OwnsSlot(w.threads[t]);
    forall id ensures (id in View(w).lastSequence <==> id in w.shared.lastSequence)
                      && (id in w.shared.lastSequence ==> View(w).lastSequence[id] == w.shared.lastSequence[id]) {
      assert LastSequenceMatches(w, id);
      forall u ensures !AboutToRecord(w, u, id) {
        if u in w.threads && OwnsSlot(w.threads[u]) {
          assert u == t;
        }
      }
    }
  }

  lemma AcquireRefines(w: World, maxPayload: nat, t: nat)
    requires Enabled(w, Acquire(t))
    ensures View(Next(w, maxPayload, Acquire(t))) == ApplyOp(View(w), OpOf(w, maxPayload, Acquire(t)), maxPayload)
  {
    hide Precheck, AfterRecord, SequenceFresh, Reject, Recorded;
  }

  lemma CheckRefines(w: World, maxPayload: nat, t: nat)
    requires Consistent(w) && Checked(w, maxPayload) && Enabled(w, CheckSequence(t))
    ensures View(Next(w, maxPayload, CheckSequence(t))) ==
            ApplyOp(View(w), OpOf(w, maxPayload, CheckSequence(t)), maxPayload)
  {
    hide Precheck, AfterRecord, Reject, Consistent;
    ViewShared(w, t);
  }

  lemma RefuseRefines(w: World, maxPayload: nat, s: Step)
    requires Consistent(w) && Checked(w, maxPayload) && (s.DecodeFrame? || s.Perceive?) && Enabled(w, s)
    ensures View(Next(w, maxPayload, s)) == ApplyOp(View(w), OpOf(w, maxPayload, s), maxPayload)
  {
    hide Precheck, AfterRecord, Consistent, SequenceFresh;
    ViewFresh(w, s.t);
    assert OwnsSlot(w.threads[s.t]) && View(w).(processing := false) == View(w);
  }

  lemma RecordRefines(w: World, maxPayload: nat, t: nat, now: int)
    requires Consistent(w) && Checked(w, maxPayload) && Enabled(w, Record(t, now))
    ensures View(Next(w, maxPayload, Record(t, now))) ==
            ApplyOp(View(w), OpOf(w, maxPayload, Record(t, now)), maxPayload)
  {
    hide Precheck, Reject, Consistent, SequenceFresh, AcceptStats, Log, View;
    ViewFresh(w, t);
    var f := w.threads[t].f;
    assert OwnsSlot(w.threads[t]);
    RecordedView(w, f, now, Next(w, maxPayload, Record(t, now)));
  }

  lemma RecordedView(w: World, f: Frame, now: int, w': World)
    requires 0 <= f.dropped && w'.shared == AfterRecord(w.shared, f, now)
    requires w'.accepted == w.accepted[f.sourceId := Log(w, f.sourceId) + [f]]
    ensures var v := View(w);
            v.(processing := false) == v && View(w') ==
                AfterRecord(v.(lastSequence := v.lastSequence[f.sourceId := f.sequence]), f, now)
  {
    hide AcceptStats, Recorded;
    RecordedOneMore(w.accepted, f);
  }

  lemma RecordedOneMore(accepted: map<string, seq<Frame>>, f: Frame)
    ensures Recorded(accepted[f.sourceId := (if f.sourceId in accepted then accepted[f.sourceId] else []) + [f]])
            == Recorded(accepted)[f.sourceId := f.sequence]
  {}

  lemma RecordedDropped(accepted: map<string, seq<Frame>>, id: string)
    ensures Recorded(accepted - {id}) == Recorded(accepted) - {id}
  {}

  lemma StepRefines(w: World, maxPayload: nat, s: Step)
    requires Consistent(w) && Checked(w, maxPayload) && Enabled(w, s)
    ensures View(Next(w, maxPayload, s)) == ApplyOp(View(w), OpOf(w, maxPayload, s), maxPayload)
  {
    hide Consistent, Checked, HeartbeatStats, AfterFrame, Recorded;
    match s
    case Acquire(t) => AcquireRefines(w, maxPayload, t);
    case CheckSequence(t) => CheckRefines(w, maxPayload, t);
    case DecodeFrame(_, _) => RefuseRefines(w, maxPayload, s);
    case Perceive(_, _) => RefuseRefines(w, maxPayload, s);
    case Record(t, now) => RecordRefines(w, maxPayload, t, now);
    case Forget(id) =>
      RecordedDropped(w.accepted, id);
    case _ =>
  }

  /** A thread whose frame has its outcome. */
  predicate Decided(pc: Pc) {
    pc.Leaving? || pc.Done?
  }

  /** The step is the thread's own. */
  predicate OwnStep(s: Step, t: nat) {
    match s
    case Acquire(u) => u == t
    case CheckSequence(u) => u == t
    case DecodeFrame(u, _) => u == t
    case Perceive(u, _) => u == t
    case SetSequence(u) => u == t
    case Record(u, _) => u == t
    case _ => false
  }

  /** When an admission is decided, and how: accepted with its own receipt exactly by being
      recorded, and refused exactly for what is wrong with it at that point. */
  lemma DecidedExactly(w: World, maxPayload: nat, s: Step, t: nat)
    requires Consistent(w) && Enabled(w, s) && t in w.threads && !Decided(w.threads[t])
    ensures var f := w.threads[t].f;
            var sized := 1 <= f.payloadLength <= maxPayload;
            var numbered := f.sequence >= 0 && f.dropped >= 0;
            var behind := f.sourceId in w.shared.lastSequence && f.sequence <= w.shared.lastSequence[f.sourceId];
            var w' := Next(w, maxPayload, s);
            && t in w'.threads
            && (!OwnStep(s, t) ==> w'.threads[t] == w.threads[t])
            && (OwnStep(s, t) ==>
                  var pc := w'.threads[t];
                  && (Decided(pc) <==>
                        || (s.Acquire? && (!sized || !numbered || !f.mediaTypeKnown || w.shared.processing))
                        || (s.CheckSequence? && behind)
                        || (s.DecodeFrame? && !s.decodes)
                        || (s.Perceive? && !s.processes)
                        || s.Record?)
                  && (Decided(pc) && s.Acquire? && w.shared.processing && sized && numbered && f.mediaTypeKnown ==>
                        pc.outcome == Err(Busy))
                  && (Decided(pc) && s.Acquire? && f.payloadLength > maxPayload ==> pc.outcome == Err(PayloadTooLarge))
                  && (Decided(pc) && s.Acquire? && f.payloadLength == 0 ==> pc.outcome == Err(Decode))
                  && (Decided(pc) && s.Acquire? && sized && !numbered ==> pc.outcome == Err(Sequence))
                  && (Decided(pc) && s.Acquire? && sized && numbered && !f.mediaTypeKnown ==>
                        pc.outcome == Err(MediaType))
                  && (Decided(pc) && s.CheckSequence? ==> pc.outcome == Err(Sequence))
                  && (Decided(pc) && s.DecodeFrame? ==> pc.outcome == Err(Decode))
                  && (Decided(pc) && s.Perceive? ==> pc.outcome == Err(PipelineFailure))
                  && (s.Record? ==> pc.outcome.Ok? && 0 <= f.sequence && 0 <= f.dropped
                                    && pc.outcome.value == Receipt(f.sourceId, f.sourceType, f.sequence, f.dropped)))
  {
    hide LastSequenceMatches, StatsMatch, AcceptStats, Reject;
    assert ThreadInOrder(w, w.threads[t]);
  }

  /** The whole calls of a run, in the order of their completion. */
  ghost function Calls(steps: seq<Step>, maxPayload: nat): seq<Op>
    requires Feasible(steps, maxPayload)
  {
    if steps == [] then []
    else
      var before := steps[..|steps| - 1];
      Calls(before, maxPayload) + [OpOf(Run(before, maxPayload), maxPayload, steps[|steps| - 1])]
  }

  function AfterCalls(calls: seq<Op>, maxPayload: nat): State {
    if calls == [] then EMPTY else ApplyOp(AfterCalls(calls[..|calls| - 1], maxPayload), calls[|calls| - 1], maxPayload)
  }

  /** Every interleaving of admissions, heartbeats and forgets leaves sources, recorded
      sequences, counts and rejections as the atomic calls do that it completes: a frame
      that is taken is one whole call at its recording, a refused one at its refusal. */
  lemma {:induction false} RunsAreAtomic(steps: seq<Step>, maxPayload: nat)
    requires Feasible(steps, maxPayload)
    ensures View(Run(steps, maxPayload)) == AfterCalls(Calls(steps, maxPayload), maxPayload)
    ensures Checked(Run(steps, maxPayload), maxPayload)
  {
    hide Next, Checked, View, ApplyOp, OpOf, Enabled;
    if steps == [] {
      StartRefines(maxPayload);
    } else {
      var before := steps[..|steps| - 1];
      var s := steps[|steps| - 1];
      RunsAreAtomic(before, maxPayload);
      RunIsConsistent(before, maxPayload);
      StepRefines(Run(before, maxPayload), maxPayload, s);
      CheckedStep(Run(before, maxPayload), maxPayload, s);
      var calls := Calls(steps, maxPayload);
      assert calls[..|calls| - 1] == Calls(before, maxPayload);
    }
  }

  lemma StartRefines(maxPayload: nat)
    ensures View(START) == EMPTY && Checked(START, maxPayload)
  {
    assert Recorded(map[]) == map[];
  }
}
