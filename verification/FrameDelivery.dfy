/** End-to-end delivery of one source's frames: the producer's durable state, a wire that
    delays, duplicates and loses, and the ingress. Crashes may fall anywhere, also on
    either side of every save. */
module FrameDelivery {
  import opened Wrappers
  import opened ProducerState
  import opened SensorIngress
  import opened FrameProducer

  datatype Config = Config(sourceId: string, sourceType: string, maxPayload: nat)

  datatype Request = Request(sequence: nat, dropped: nat)

  /** Where the producer process stands. */
  datatype Phase =
    | Down
    | Idle
    | Holding(sequence: nat, pending: nat)
    | Waiting(sequence: nat, pending: nat)
    | Resolving(sequence: nat, verdict: Verdict)

  /** `entry` is durable; `wire` keeps every request ever posted, so that any of them may
      arrive late, twice or never. `taken`, `acked`, `lost` and `base` are history: the
      requests the ingress accepted in order, the frames the producer stored as accepted
      and as dropped, and the sequence after the last acknowledged one. */
  datatype World = World(
    entry: Entry,
    phase: Phase,
    wire: set<Request>,
    ingress: SensorIngress.State,
    receipts: set<Receipt>,
    taken: seq<Request>,
    acked: set<nat>,
    lost: set<nat>,
    base: nat)

  const START := World(FRESH, Down, {}, EMPTY, {}, [], {}, {}, 0)

  datatype Step =
    | Boot(fate: Fate)
    | Take(fate: Fate)
    | Post
    | Deliver(request: Request, payloadLength: nat, mediaTypeKnown: bool, busy: bool, perception: Perception, now: int)
    | Return(reply: Reply)
    | Resolve(fate: Fate)
    | Crash
    | Background(arrival: Arrival)

  function FrameOf(c: Config, s: Step): Frame
    requires s.Deliver?
  {
    Frame(c.sourceId, c.sourceType, None, s.request.sequence, s.request.dropped, s.payloadLength, s.mediaTypeKnown,
        None)
  }

  function ReceiptOf(c: Config, r: Request): Receipt {
    Receipt(c.sourceId, c.sourceType, r.sequence, r.dropped)
  }

  predicate Enabled(c: Config, w: World, s: Step) {
    match s
    case Boot(_) => w.phase.Down?
    case Take(_) => w.phase.Idle?
    case Post => w.phase.Holding?
    case Deliver(r, _, _, _, _, _) => r in w.wire
    case Return(reply) =>
      // a reply that names this frame as taken comes from a receipt the ingress gave
      w.phase.Waiting? &&
      (var own := ReceiptOf(c, Request(w.phase.sequence, w.phase.pending));
       reply == Http(200, Some(own)) ==> own in w.receipts)
    case Resolve(_) => w.phase.Resolving?
    case Crash => true
    case Background(a) => a.Frames? ==> a.f.sourceId != c.sourceId
  }

  function PhaseAfter(fate: Fate, saved: Phase): Phase {
    match fate
    case Saved => saved
    case SaveFailed => Idle
    case CrashBefore => Down
    case CrashAfter => Down
  }

  function Next(c: Config, w: World, s: Step): World
    requires Enabled(c, w, s)
  {
    match s
    case Boot(fate) =>
      if w.entry.inflight.None? then w.(phase := Idle)
      else if !Commits(fate) then w
      else w.(entry := Apply(Op.Recover, w.entry).value,
              lost := w.lost + {w.entry.inflight.value},
              phase := if fate.Saved? then Idle else Down)
    case Take(fate) =>
      (match Apply(Op.Reserve, w.entry)
       case Err(_) => w
       case Ok(e) =>
         var phase := PhaseAfter(fate, Holding(w.entry.nextSequence, w.entry.pendingDropped));
         if Commits(fate) then w.(entry := e, phase := phase) else w.(phase := phase))
    case Post =>
      w.(wire := w.wire + {Request(w.phase.sequence, w.phase.pending)},
         phase := Waiting(w.phase.sequence, w.phase.pending))
    case Deliver(r, _, _, busy, p, now) =>
      var before := w.ingress.(processing := busy);
      var after := AfterFrame(before, FrameOf(c, s), c.maxPayload, p, now).(processing := w.ingress.processing);
      if Refusal(before, FrameOf(c, s), c.maxPayload, p).Some? then w.(ingress := after)
      else w.(ingress := after, receipts := w.receipts + {ReceiptOf(c, r)}, taken := w.taken + [r])
    case Return(reply) =>
      w.(phase := Resolving(w.phase.sequence, Judge(reply, ReceiptOf(c, Request(w.phase.sequence, w.phase.pending)))))
    case Resolve(fate) =>
      var n := w.phase.sequence;
      (match Apply(Resolution(w.phase.verdict, n), w.entry)
       case Err(_) => w.(phase := Idle)
       case Ok(e) =>
         var w' := w.(phase := PhaseAfter(fate, Idle));
         if !Commits(fate) then w'
         else if w.phase.verdict.Taken? then w'.(entry := e, acked := w.acked + {n}, base := n + 1)
         else w'.(entry := e, lost := w.lost + {n}))
    case Crash => w.(phase := Down)
    case Background(a) => w.(ingress := AfterArrival(w.ingress, a, c.maxPayload))
  }

  /** The store call that a step of the producer makes. */
  function OpOf(w: World, s: Step): Op
    requires s.Boot? || s.Take? || (s.Resolve? && w.phase.Resolving?)
  {
    match s
    case Boot(_) => Op.Recover
    case Take(_) => Op.Reserve
    case Resolve(_) => Resolution(w.phase.verdict, w.phase.sequence)
  }

  /** The producer's steps are calls of its durable store: the entry afterwards is what the
      call leaves in the file, a crash at a save takes the producer down, and otherwise it goes
      on with the call's answer; a recovery that cannot be saved is tried again. */
  lemma StepsAreStoreCalls(c: Config, w: World, s: Step, f: StateFile, key: string)
    requires (s.Boot? || s.Take? || s.Resolve?) && Enabled(c, w, s)
    requires !f.Corrupt? && key != "" && Lookup(f, key) == w.entry
    ensures var op := OpOf(w, s);
            var (g, r) := CallOutcome(f, key, op, Commits(s.fate));
            var w' := Next(c, w, s);
            var crashes := (s.fate.CrashBefore? || s.fate.CrashAfter?) && Apply(op, w.entry).Ok? && Saves(op, w.entry);
            && Lookup(g, key) == w'.entry
            && (crashes ==> w'.phase == Down)
            && (!crashes && s.Boot? ==> w'.phase == if r.Ok? then Idle else Down)
            && (!crashes && s.Take? ==>
                  w'.phase == if r.Ok? then Holding(w.entry.nextSequence, w.entry.pendingDropped) else Idle)
            && (!crashes && s.Resolve? ==> w'.phase == Idle)
            && w'.wire == w.wire && w'.ingress == w.ingress && w'.receipts == w.receipts && w'.taken == w.taken
  {}

  ghost predicate Feasible(c: Config, steps: seq<Step>)
    decreases |steps|, 0
  {
    steps == [] ||
    (var before := steps[..|steps| - 1];
     Feasible(c, before) && Enabled(c, Run(c, before), steps[|steps| - 1]))
  }

  ghost function Run(c: Config, steps: seq<Step>): World
    requires Feasible(c, steps)
    decreases |steps|, 1
  {
    if steps == [] then START else Next(c, Run(c, steps[..|steps| - 1]), steps[|steps| - 1])
  }

  // ---------------------------------------------------------------- invariants

  function DroppedSum(taken: seq<Request>): nat {
    if taken == [] then 0 else DroppedSum(taken[..|taken| - 1]) + taken[|taken| - 1].dropped
  }

  /** Frames the ingress took plus frames reported to it as dropped. */
  function Accounted(taken: seq<Request>): nat {
    |taken| + DroppedSum(taken)
  }

  function Sequences(taken: seq<Request>): set<nat> {
    set r | r in taken :: r.sequence
  }

  function Last(taken: seq<Request>): nat
    requires taken != []
  {
    taken[|taken| - 1].sequence
  }

  /** The producer's books: every sequence below `nextSequence` is acknowledged, lost or
      in flight, and the pending count reaches back to the last acknowledged one. */
  ghost predicate Books(e: Entry, acked: set<nat>, lost: set<nat>, base: nat) {
    && (e.inflight.Some? ==> 0 < e.nextSequence && e.inflight.value == e.nextSequence - 1)
    && base + e.pendingDropped + InflightCount(e) == e.nextSequence
    && (forall n :: n in acked ==> n < base)
    && (base > 0 ==> base - 1 in acked)
    && acked !! lost
    && (forall n: nat :: n in acked || n in lost <==> n < e.nextSequence && e.inflight != Some(n))
  }

  predicate PhaseAgrees(phase: Phase, e: Entry, accepted: set<nat>) {
    match phase
    case Down => true
    case Idle => true
    case Holding(s, p) => e.inflight == Some(s) && p == e.pendingDropped
    case Waiting(s, p) => e.inflight == Some(s) && p == e.pendingDropped
    case Resolving(s, v) => e.inflight == Some(s) && (v.Taken? ==> s in accepted)
  }

  /** A request reports exactly the frames lost since the last acknowledged one before it. */
  ghost predicate Honest(r: Request, issued: nat, acked: set<nat>, lost: set<nat>) {
    && r.dropped <= r.sequence < issued
    && (forall n :: n in acked && n < r.sequence ==> n < r.sequence - r.dropped)
    && (r.dropped < r.sequence ==> r.sequence - r.dropped - 1 in acked)
    && (forall n: nat :: n < r.sequence ==> n in acked || n in lost)
  }

  ghost predicate WireHonest(wire: set<Request>, issued: nat, acked: set<nat>, lost: set<nat>) {
    forall r :: r in wire ==> Honest(r, issued, acked, lost)
  }

  ghost predicate IngressAgrees(c: Config, s: SensorIngress.State, taken: seq<Request>) {
    && (c.sourceId in s.lastSequence <==> taken != [])
    && (taken != [] ==> s.lastSequence[c.sourceId] == Last(taken) && c.sourceId in s.sources)
    && (c.sourceId in s.sources ==>
          && s.sources[c.sourceId].acceptedFrames == |taken|
          && s.sources[c.sourceId].droppedTotal == DroppedSum(taken)
          && s.sources[c.sourceId].lastSequence == (if taken != [] then Some(Last(taken)) else None))
  }

  predicate Ordered(taken: seq<Request>) {
    forall i, j :: 0 <= i < j < |taken| ==> taken[i].sequence < taken[j].sequence
  }

  ghost predicate TakenAgrees(taken: seq<Request>, wire: set<Request>, receipts: set<Receipt>, acked: set<nat>) {
    && Ordered(taken)
    && (forall r :: r in taken ==> r in wire)
    && (forall r :: r in receipts ==> r.sequence in Sequences(taken))
    && acked <= Sequences(taken)
  }

  predicate Covers(r: Request, n: nat) {
    r.sequence - r.dropped <= n <= r.sequence
  }

  ghost predicate Covered(taken: seq<Request>, n: nat) {
    exists r :: r in taken && Covers(r, n)
  }

  /** Every sequence up to the last accepted one was accepted or reported as dropped. */
  ghost predicate NoGap(taken: seq<Request>) {
    taken != [] ==> forall n: nat | n <= Last(taken) :: Covered(taken, n)
  }

  predicate AllAckedButLast(taken: seq<Request>, acked: set<nat>) {
    forall i :: 0 <= i < |taken| - 1 ==> taken[i].sequence in acked
  }

  ghost predicate Accounts(taken: seq<Request>, acked: set<nat>) {
    taken != [] ==>
      && Accounted(taken) >= Last(taken) + 1
      && (Accounted(taken) == Last(taken) + 1 <==> AllAckedButLast(taken, acked))
  }

  ghost predicate Consistent(c: Config, w: World) {
    && Books(w.entry, w.acked, w.lost, w.base)
    && PhaseAgrees(w.phase, w.entry, Sequences(w.taken))
    && WireHonest(w.wire, w.entry.nextSequence, w.acked, w.lost)
    && IngressAgrees(c, w.ingress, w.taken)
    && TakenAgrees(w.taken, w.wire, w.receipts, w.acked)
    && NoGap(w.taken)
    && Accounts(w.taken, w.acked)
  }

  // ---------------------------------------------------------------- one more accepted request

  lemma LastIsGreatest(taken: seq<Request>, n: nat)
    requires Ordered(taken) && n in Sequences(taken)
    ensures taken != [] && n <= Last(taken)
  {
    var r :| r in taken && r.sequence == n;
    var i :| 0 <= i < |taken| && taken[i] == r;
  }

  lemma AppendTaken(taken: seq<Request>, r: Request)
    requires Ordered(taken) && (taken != [] ==> Last(taken) < r.sequence)
    ensures var taken' := taken + [r];
            && Ordered(taken')
            && Sequences(taken') == Sequences(taken) + {r.sequence}
            && DroppedSum(taken') == DroppedSum(taken) + r.dropped
            && (forall acked :: AllAckedButLast(taken', acked) <==>
                  AllAckedButLast(taken, acked) && (taken != [] ==> Last(taken) in acked))
  {
    var taken' := taken + [r];
    assert taken'[..|taken|] == taken;
    assert forall q :: q in taken' <==> q in taken || q == r;
    forall acked
      ensures AllAckedButLast(taken', acked) <==>
                AllAckedButLast(taken, acked) && (taken != [] ==> Last(taken) in acked)
    {
      assert forall i :: 0 <= i < |taken| ==> taken'[i] == taken[i];
    }
  }

  /** The arithmetic at the heart of it: a request's report reaches back to the last
      acknowledged frame, and that is the last taken one unless a receipt was lost. */
  lemma ReportReaches(taken: seq<Request>, acked: set<nat>, lost: set<nat>, issued: nat, r: Request)
    requires Ordered(taken) && acked <= Sequences(taken) && Honest(r, issued, acked, lost)
    ensures taken == [] ==> r.dropped == r.sequence
    ensures taken != [] && Last(taken) < r.sequence ==>
              && r.sequence - r.dropped <= Last(taken) + 1
              && (r.sequence - r.dropped == Last(taken) + 1 <==> Last(taken) in acked)
  {
    var first := r.sequence - r.dropped;
    if first > 0 {
      LastIsGreatest(taken, first - 1);
    }
  }

  lemma AccountStep(taken: seq<Request>, acked: set<nat>, r: Request)
    requires Ordered(taken) && Accounts(taken, acked)
    requires taken == [] ==> r.dropped == r.sequence
    requires taken != [] ==>
               && Last(taken) < r.sequence
               && r.sequence - r.dropped <= Last(taken) + 1
               && (r.sequence - r.dropped == Last(taken) + 1 <==> Last(taken) in acked)
    ensures Accounts(taken + [r], acked)
  {
    hide Ordered, DroppedSum, AllAckedButLast, Sequences;
    AppendTaken(taken, r);
    NothingDropped();
    assert Last(taken + [r]) == r.sequence;
    assert taken == [] ==> AllAckedButLast(taken, acked);
  }

  lemma NothingDropped()
    ensures DroppedSum([]) == 0 && forall acked :: AllAckedButLast([], acked)
  {}

  lemma CoverStep(taken: seq<Request>, acked: set<nat>, lost: set<nat>, issued: nat, r: Request)
    requires Ordered(taken) && acked <= Sequences(taken) && NoGap(taken)
    requires Honest(r, issued, acked, lost)
    ensures NoGap(taken + [r])
  {
    forall n: nat | n <= r.sequence ensures Covered(taken + [r], n) {
      if Covers(r, n) {
        assert r in taken + [r];
      } else {
        LastIsGreatest(taken, r.sequence - r.dropped - 1);
        assert Covered(taken, n);
        var q :| q in taken && Covers(q, n);
        assert q in taken + [r];
      }
    }
  }

  /** An uninterrupted ingress call moves the source's statistics in step with the
      requests taken, and only for a request above the last one. */
  lemma IngressStep(c: Config, w: World, s: Step)
    requires s.Deliver? && Enabled(c, w, s) && IngressAgrees(c, w.ingress, w.taken) && Ordered(w.taken)
    ensures var w' := Next(c, w, s);
            && IngressAgrees(c, w'.ingress, w'.taken)
            && (|| w' == w.(ingress := w'.ingress)
                || ((w.taken != [] ==> Last(w.taken) < s.request.sequence)
                    && w' == w.(ingress := w'.ingress,
                                receipts := w.receipts + {ReceiptOf(c, s.request)},
                                taken := w.taken + [s.request])))
  {
    hide IngressAgrees, AfterRecord, Precheck, Reject;
    var f := FrameOf(c, s);
    var before := w.ingress.(processing := s.busy);
    FreshMeansLater(c, w.ingress, w.taken, f);
    if Refusal(before, f, c.maxPayload, s.perception).Some? {
      SameSources(c, w.ingress, Next(c, w, s).ingress, w.taken);
    } else {
      var recorded := AfterRecord(before.(lastSequence := before.lastSequence[f.sourceId := f.sequence]), f, s.now);
      RecordAgrees(c, w.ingress, before, f, s.now, w.taken, s.request);
      SameSources(c, recorded, Next(c, w, s).ingress, w.taken + [s.request]);
    }
  }

  lemma FreshMeansLater(c: Config, s: SensorIngress.State, taken: seq<Request>, f: Frame)
    requires IngressAgrees(c, s, taken) && f.sourceId == c.sourceId
    ensures SequenceFresh(s, f) <==> taken == [] || Last(taken) < f.sequence
  {}

  lemma SameSources(c: Config, s: SensorIngress.State, t: SensorIngress.State, taken: seq<Request>)
    requires IngressAgrees(c, s, taken) && t.sources == s.sources && t.lastSequence == s.lastSequence
    ensures IngressAgrees(c, t, taken)
  {}

  /** Recording a later frame keeps the statistics in step. */
  lemma RecordAgrees(c: Config, s: SensorIngress.State, before: SensorIngress.State, f: Frame, now: int,
                     taken: seq<Request>, r: Request)
    requires IngressAgrees(c, s, taken) && before.sources == s.sources && before.lastSequence == s.lastSequence
    requires Ordered(taken) && (taken != [] ==> Last(taken) < r.sequence)
    requires f.sourceId == c.sourceId && f.sequence == r.sequence && f.dropped == r.dropped
    ensures var s' := AfterRecord(before.(lastSequence := before.lastSequence[f.sourceId := f.sequence]), f, now);
            IngressAgrees(c, s', taken + [r])
  {
    hide Sequences, AllAckedButLast;
    AppendTaken(taken, r);
  }

  lemma TakenStep(c: Config, w: World, w': World, r: Request)
    requires Consistent(c, w) && r in w.wire && (w.taken != [] ==> Last(w.taken) < r.sequence)
    requires w' == w.(ingress := w'.ingress, receipts := w.receipts + {ReceiptOf(c, r)}, taken := w.taken + [r])
    requires IngressAgrees(c, w'.ingress, w'.taken)
    ensures Consistent(c, w')
  {
    hide Books, IngressAgrees, NoGap, Accounts, Honest, Sequences;
    assert Honest(r, w.entry.nextSequence, w.acked, w.lost);
    AppendTaken(w.taken, r);
    ReportReaches(w.taken, w.acked, w.lost, w.entry.nextSequence, r);
    AccountStep(w.taken, w.acked, r);
    CoverStep(w.taken, w.acked, w.lost, w.entry.nextSequence, r);
  }

  lemma DeliverStep(c: Config, w: World, s: Step)
    requires Consistent(c, w) && s.Deliver? && Enabled(c, w, s)
    ensures Consistent(c, Next(c, w, s))
  {
    var w' := Next(c, w, s);
    IngressStep(c, w, s);
    if w' != w.(ingress := w'.ingress) {
      TakenStep(c, w, w', s.request);
    }
  }

  // ---------------------------------------------------------------- every other step

  /** Settling the frame in flight, as lost or as acknowledged. */
  lemma SettleBooks(e: Entry, acked: set<nat>, lost: set<nat>, base: nat, n: nat)
    requires Books(e, acked, lost, base) && e.inflight == Some(n)
    ensures Books(Entry(e.nextSequence, e.pendingDropped + 1, None), acked, lost + {n}, base)
    ensures Books(Entry(e.nextSequence, 0, None), acked + {n}, lost, n + 1)
  {}

  lemma SettleWire(wire: set<Request>, issued: nat, acked: set<nat>, lost: set<nat>, n: nat)
    requires WireHonest(wire, issued, acked, lost) && issued == n + 1
    ensures WireHonest(wire, issued, acked, lost + {n})
    ensures WireHonest(wire, issued, acked + {n}, lost)
  {
    forall r | r in wire ensures Honest(r, issued, acked, lost + {n}) && Honest(r, issued, acked + {n}, lost) {
      assert Honest(r, issued, acked, lost);
    }
  }

  lemma SettleAccounts(taken: seq<Request>, wire: set<Request>, issued: nat, acked: set<nat>, lost: set<nat>, n: nat)
    requires WireHonest(wire, issued, acked, lost) && issued == n + 1
    requires Ordered(taken) && (forall r :: r in taken ==> r in wire)
    requires Accounts(taken, acked)
    ensures Accounts(taken, acked + {n})
  {
    if taken != [] {
      assert Honest(taken[|taken| - 1], issued, acked, lost);
      assert forall i :: 0 <= i < |taken| - 1 ==> taken[i].sequence < Last(taken) <= n;
    }
  }

  lemma SettleStep(c: Config, w: World, w': World, n: nat, acknowledged: bool)
    requires Consistent(c, w) && w.entry.inflight == Some(n)
    requires acknowledged ==> n in Sequences(w.taken)
    requires w' == w.(entry := w'.entry, phase := w'.phase, acked := w'.acked, lost := w'.lost, base := w'.base)
    requires w'.entry == Entry(w.entry.nextSequence, if acknowledged then 0 else w.entry.pendingDropped + 1, None)
    requires acknowledged ==> w'.acked == w.acked + {n} && w'.lost == w.lost && w'.base == n + 1
    requires !acknowledged ==> w'.acked == w.acked && w'.lost == w.lost + {n} && w'.base == w.base
    requires w'.phase.Idle? || w'.phase.Down?
    ensures Consistent(c, w')
  {
    SettleBooks(w.entry, w.acked, w.lost, w.base, n);
    SettleWire(w.wire, w.entry.nextSequence, w.acked, w.lost, n);
    SettleAccounts(w.taken, w.wire, w.entry.nextSequence, w.acked, w.lost, n);
  }

  lemma PostStep(c: Config, w: World)
    requires Consistent(c, w) && w.phase.Holding?
    ensures Consistent(c, Next(c, w, Post))
  {
    hide IngressAgrees, NoGap, Accounts, Sequences, Honest, Books;
    ReservedIsHonest(w.entry, w.acked, w.lost, w.base, Request(w.phase.sequence, w.phase.pending));
  }

  /** The frame in flight reports what has been lost since the last acknowledged one. */
  lemma ReservedIsHonest(e: Entry, acked: set<nat>, lost: set<nat>, base: nat, r: Request)
    requires Books(e, acked, lost, base) && e.inflight == Some(r.sequence) && r.dropped == e.pendingDropped
    ensures Honest(r, e.nextSequence, acked, lost)
  {}

  lemma TakeStep(c: Config, w: World, fate: Fate)
    requires Consistent(c, w) && w.phase.Idle?
    ensures Consistent(c, Next(c, w, Take(fate)))
  {
    hide IngressAgrees, TakenAgrees, NoGap, Accounts, Sequences, Honest, Books;
    var w' := Next(c, w, Take(fate));
    if w'.entry != w.entry {
      ReserveBooks(w.entry, w.acked, w.lost, w.base);
    }
    forall r | r in w.wire ensures Honest(r, w'.entry.nextSequence, w.acked, w.lost) {
      LaterHonest(r, w.entry.nextSequence, w'.entry.nextSequence, w.acked, w.lost);
    }
  }

  lemma ReserveBooks(e: Entry, acked: set<nat>, lost: set<nat>, base: nat)
    requires Books(e, acked, lost, base) && e.inflight.None?
    ensures Books(Entry(e.nextSequence + 1, e.pendingDropped, Some(e.nextSequence)), acked, lost, base)
  {}

  lemma LaterHonest(r: Request, issued: nat, issued': nat, acked: set<nat>, lost: set<nat>)
    requires Honest(r, issued, acked, lost) && issued <= issued'
    ensures Honest(r, issued', acked, lost)
  {}

  lemma BootStep(c: Config, w: World, fate: Fate)
    requires Consistent(c, w) && w.phase.Down?
    ensures Consistent(c, Next(c, w, Boot(fate)))
  {
    if w.entry.inflight.Some? && Commits(fate) {
      SettleStep(c, w, Next(c, w, Boot(fate)), w.entry.inflight.value, false);
    }
  }

  lemma ResolveStep(c: Config, w: World, fate: Fate)
    requires Consistent(c, w) && w.phase.Resolving?
    ensures Consistent(c, Next(c, w, Resolve(fate)))
  {
    hide Books, WireHonest, IngressAgrees, TakenAgrees, NoGap, Accounts, Sequences;
    if Commits(fate) {
      SettleStep(c, w, Next(c, w, Resolve(fate)), w.phase.sequence, w.phase.verdict.Taken?);
    }
  }

  lemma BackgroundStep(c: Config, w: World, a: Arrival)
    requires Consistent(c, w) && Enabled(c, w, Background(a))
    ensures Consistent(c, Next(c, w, Background(a)))
  {
    assert IngressAgrees(c, AfterArrival(w.ingress, a, c.maxPayload), w.taken);
  }

  lemma StepKeeps(c: Config, w: World, s: Step)
    requires Consistent(c, w) && Enabled(c, w, s)
    ensures Consistent(c, Next(c, w, s))
  {
    match s
    case Boot(fate) => BootStep(c, w, fate);
    case Take(fate) => TakeStep(c, w, fate);
    case Post => PostStep(c, w);
    case Deliver(_, _, _, _, _, _) => DeliverStep(c, w, s);
    case Return(reply) => JudgeMeans(reply, ReceiptOf(c, Request(w.phase.sequence, w.phase.pending)));
    case Resolve(fate) => ResolveStep(c, w, fate);
    case Crash =>
    case Background(a) => BackgroundStep(c, w, a);
  }

  lemma {:induction false} RunIsConsistent(c: Config, steps: seq<Step>)
    requires Feasible(c, steps)
    ensures Consistent(c, Run(c, steps))
  {
    if steps != [] {
      var before := steps[..|steps| - 1];
      RunIsConsistent(c, before);
      StepKeeps(c, Run(c, before), steps[|steps| - 1]);
    }
  }

  // ---------------------------------------------------------------- the theorems

  /** An accepted frame with a later accepted one has been written off by the producer:
      its receipt never came back. */
  predicate ReceiptLost(w: World) {
    exists i :: 0 <= i < |w.taken| - 1 && w.taken[i].sequence in w.lost
  }

  lemma AccountsMean(c: Config, w: World)
    requires Consistent(c, w) && w.taken != []
    ensures AllAckedButLast(w.taken, w.acked) <==> !ReceiptLost(w)
  {
    assert Honest(w.taken[|w.taken| - 1], w.entry.nextSequence, w.acked, w.lost);
    assert forall i :: 0 <= i < |w.taken| - 1 ==> w.taken[i].sequence < Last(w.taken);
    assert w.acked !! w.lost;
  }

  /** Over every run, once a frame was accepted, the ingress statistics account for at
      least every sequence up to the last accepted one, and for exactly those if and only
      if no accepted frame but the last has been written off by the producer. */
  lemma DropAccounting(c: Config, steps: seq<Step>, w: World)
    requires Feasible(c, steps) && w == Run(c, steps)
    requires c.sourceId in w.ingress.sources && w.ingress.sources[c.sourceId].lastSequence.Some?
    ensures var stats := w.ingress.sources[c.sourceId];
            && stats.acceptedFrames + stats.droppedTotal >= stats.lastSequence.value + 1
            && (stats.acceptedFrames + stats.droppedTotal == stats.lastSequence.value + 1 <==> !ReceiptLost(w))
  {
    RunIsConsistent(c, steps);
    AccountsMean(c, w);
  }

  lemma ReportsMean(c: Config, w: World, n: nat)
    requires Consistent(c, w)
    ensures w.taken != [] && n <= Last(w.taken) ==>
              n in Sequences(w.taken) || (n in w.lost && Covered(w.taken, n))
    ensures forall r :: r in w.taken && Covers(r, n) && n != r.sequence ==> n in w.lost
  {
    forall r | r in w.taken && Covers(r, n) && n != r.sequence ensures n in w.lost {
      assert Honest(r, w.entry.nextSequence, w.acked, w.lost);
    }
    if w.taken != [] && n <= Last(w.taken) {
      assert Covered(w.taken, n);
      var r :| r in w.taken && Covers(r, n);
    }
  }

  /** Over every run, no gap goes unreported and no report is invented: each sequence up
      to the last accepted one is an accepted frame, or was lost by the producer and lies
      in the report of an accepted frame; and whatever lies in such a report was lost. */
  lemma EveryGapReported(c: Config, steps: seq<Step>, w: World, n: nat)
    requires Feasible(c, steps) && w == Run(c, steps)
    ensures w.taken != [] && n <= Last(w.taken) ==>
              n in Sequences(w.taken) || (n in w.lost && Covered(w.taken, n))
    ensures forall r :: r in w.taken && Covers(r, n) && n != r.sequence ==> n in w.lost
  {
    RunIsConsistent(c, steps);
    ReportsMean(c, w, n);
  }

  ghost predicate Reached(c: Config, steps: seq<Step>, w: World) {
    Feasible(c, steps) && Run(c, steps) == w
  }

  lemma Extend(c: Config, before: seq<Step>, v: World, s: Step) returns (steps: seq<Step>, w: World)
    requires Reached(c, before, v) && Enabled(c, v, s)
    ensures Reached(c, steps, w) && w == Next(c, v, s)
  {
    hide Next, Enabled;
    steps := before + [s];
    OneStepMore(c, before, v, s, steps);
    w := Next(c, v, s);
  }

  lemma OneStepMore(c: Config, before: seq<Step>, v: World, s: Step, steps: seq<Step>)
    requires Feasible(c, before) && Run(c, before) == v && Enabled(c, v, s) && steps == before + [s]
    ensures Feasible(c, steps) && Run(c, steps) == Next(c, v, s)
  {
    hide Next, Enabled;
    assert steps[..|steps| - 1] == before && steps[|steps| - 1] == s && steps != [];
  }

  lemma Begins(c: Config)
    ensures Reached(c, [], START)
  {}

  /** A frame is reserved and posted. */
  lemma FramePosted(c: Config, before: seq<Step>, v: World) returns (steps: seq<Step>, w: World)
    requires Reached(c, before, v) && v.phase.Idle? && v.entry.inflight.None?
    ensures Reached(c, steps, w)
    ensures var n, p := v.entry.nextSequence, v.entry.pendingDropped;
            w == v.(entry := Entry(n + 1, p, Some(n)), phase := Phase.Waiting(n, p), wire := v.wire + {Request(n, p)})
  {
    hide Reached;
    steps, w := Extend(c, before, v, Take(Saved));
    steps, w := Extend(c, steps, w, Post);
  }

  /** The ingress takes a request that is on the wire and above its last one. */
  lemma RequestTaken(c: Config, before: seq<Step>, v: World, r: Request) returns (steps: seq<Step>, w: World)
    requires Reached(c, before, v) && c.maxPayload >= 1 && r in v.wire
    requires c.sourceId in v.ingress.lastSequence ==> v.ingress.lastSequence[c.sourceId] < r.sequence
    ensures Reached(c, steps, w)
    ensures w == v.(ingress := w.ingress, receipts := v.receipts + {ReceiptOf(c, r)}, taken := v.taken + [r])
    ensures w.ingress.lastSequence == v.ingress.lastSequence[c.sourceId := r.sequence]
  {
    hide Reached, AcceptStats;
    steps, w := Extend(c, before, v, Deliver(r, 1, true, false, Perception(true, true), 0));
  }

  /** A frame the ingress takes but whose answer never comes back. */
  lemma FrameTakenAnswerLost(c: Config) returns (steps: seq<Step>, w: World)
    requires c.maxPayload >= 1
    ensures Reached(c, steps, w)
    ensures w.phase.Idle? && w.entry == Entry(1, 1, None) && w.taken == [Request(0, 0)]
    ensures w.ingress.lastSequence == map[c.sourceId := 0]
  {
    hide Reached, Judge;
    Begins(c);
    steps, w := Extend(c, [], START, Boot(Saved));
    steps, w := FramePosted(c, steps, w);
    steps, w := RequestTaken(c, steps, w, Request(0, 0));
    steps, w := AnswerLost(c, steps, w);
  }

  /** No answer comes, and the frame is written off. */
  lemma AnswerLost(c: Config, before: seq<Step>, v: World) returns (steps: seq<Step>, w: World)
    requires Reached(c, before, v) && v.phase.Waiting? && v.entry.inflight == Some(v.phase.sequence)
    ensures Reached(c, steps, w)
    ensures var n := v.phase.sequence;
            w == v.(entry := Entry(v.entry.nextSequence, v.entry.pendingDropped + 1, None), phase := Idle,
                lost := v.lost + {n})
  {
    hide Reached;
    steps, w := Extend(c, before, v, Return(Unreachable));
    steps, w := Extend(c, steps, w, Resolve(Saved));
  }

  /** The inequality can be strict: frame 0 is taken, its receipt does not come back, and
      frame 1 reports it as dropped. */
  lemma LostReceiptOvercounts(c: Config) returns (steps: seq<Step>, w: World)
    requires c.maxPayload >= 1
    ensures Reached(c, steps, w) && w.taken == [Request(0, 0), Request(1, 1)]
    ensures Accounted(w.taken) == Last(w.taken) + 2
  {
    hide Reached, Accounted;
    steps, w := FrameTakenAnswerLost(c);
    steps, w := FramePosted(c, steps, w);
    steps, w := RequestTaken(c, steps, w, Request(1, 1));
    TwoTaken(Request(0, 0), Request(1, 1));
  }

  lemma TwoTaken(r: Request, q: Request)
    ensures Accounted([r, q]) == 2 + r.dropped + q.dropped
  {
    var one, two := [r], [r, q];
    assert two[..|two| - 1] == one && one[..|one| - 1] == [];
    assert DroppedSum(one) == r.dropped;
  }
}
