/** API handlers, bootstrap snapshots and restarts, interleaved at every lock section. */
module ChangePlane {
  import opened Wrappers
  import R = SensorRegistry
  import I = SensorIngress
  import opened HandlerProgram
  import opened ChangeJournal

  /** A handler between lock sections, kept after its end. `read` is the revision it has
      read for the append it is about to make. The rest is history: the change its events
      tell of, the revision at its beginning, before its command, right after its command if
      that moved it, and at its two second looks at the registration; the events appended,
      and the revision the last of them carried. */
  datatype Handler = Handler(
    call: Call,
    pc: nat,
    notes: Notes,
    read: Option<nat>,
    failed: bool,
    lastChange: nat,
    begunAt: nat,
    beforeMove: nat,
    movedTo: Option<nat>,
    lookedAt: nat,
    rereadAt: nat,
    appended: set<Kind>,
    reported: Option<nat>)

  function Fresh(c: Call, revision: nat): Handler {
    Handler(c, 0, BLANK, None, false, 0, revision, 0, None, 0, 0, {}, None)
  }

  predicate Running(h: Handler) {
    !h.failed && h.pc < |Program(h.call)|
  }

  predicate Answered(h: Handler) {
    !h.failed && h.pc >= |Program(h.call)|
  }

  /** A bootstrap under way: the cursor it sampled and how many changes had happened by
      then, by its runtime sample, and by each of its registry reads. */
  datatype Reader =
    | Started
    | HasCursor(cursor: nat, at: nat)
    | Sampled(cursor: nat, at: nat, runtimeAt: nat, registryAt: seq<nat>)

  /** `history` holds the registry after each committed change, of the registry or of the
      runtime; `log` holds every committed event, with the change it tells of; `mover` is the
      handler that moved the state revision last. */
  datatype World = World(
    history: seq<R.State>,
    ingress: I.State,
    log: seq<Event<nat>>,
    items: seq<Entry<Event<nat>>>,
    nextCursor: nat,
    capacity: nat,
    highWater: nat,
    handlers: map<nat, Handler>,
    readers: map<nat, Reader>,
    mover: Option<nat>)

  function Start(capacity: nat): World {
    World([R.EMPTY], I.EMPTY, [], [], 1, capacity, 0, map[], map[], None)
  }

  function Registry(w: World): R.State
    requires w.history != []
  {
    w.history[|w.history| - 1]
  }

  datatype Step =
    | Begin(t: nat, call: Call)
    | Advance(t: nat, e: Env)
    | AppendEvent(t: nat, saved: bool)
    | BeginSnapshot(b: nat)
    | ReadCursor(b: nat)
    | SampleRuntime(b: nat)
    | ReadRegistry(b: nat)
    | Restart(capacity: nat)

  /** Heartbeats exclude one another by a lock of their own. */
  predicate Enabled(w: World, s: Step) {
    && w.history != []
    && match s
       case Begin(t, c) =>
         t !in w.handlers
         && (c.HeartbeatCall? ==> forall u :: u in w.handlers && Running(w.handlers[u]) ==>
             !w.handlers[u].call.HeartbeatCall?)
       case Advance(t, _) => t in w.handlers && Running(w.handlers[t]) && w.handlers[t].read.None?
       case AppendEvent(t, _) =>
         t in w.handlers && Running(w.handlers[t]) && w.handlers[t].read.Some?
         && Program(w.handlers[t].call)[w.handlers[t].pc].Emit?
       case BeginSnapshot(b) => b !in w.readers
       case ReadCursor(b) => b in w.readers && w.readers[b].Started?
       case SampleRuntime(b) => b in w.readers && w.readers[b].HasCursor?
       case ReadRegistry(b) => b in w.readers && w.readers[b].Sampled?
       case Restart(capacity) => capacity >= 1
  }

  /** The handler's own part of a lock section that left the registry at `revision` and the
      history at `changes`. */
  function Advanced(h: Handler, turn: Turn, a: Action, before: nat, changes: nat): Handler
    requires changes > 0
  {
    var revision := turn.registry.revision;
    var moved := a.Execute? && revision != before;
    h.(pc := if turn.failed then h.pc else h.pc + 1,
       notes := turn.notes,
       failed := turn.failed,
       lastChange := if a.Execute? || turn.changed then changes - 1 else h.lastChange,
       beforeMove := if a.Execute? then before else h.beforeMove,
       movedTo := if moved then Some(revision) else h.movedTo,
       lookedAt := if a.RereadDiscovery? then revision else h.lookedAt,
       rereadAt := if a.RereadContains? then revision else h.rereadAt)
  }

  /** A handler whose test has come: it reads the revision for its append, or goes on. */
  function Tested(h: Handler, k: Kind, revision: nat): Handler {
    if Due(k, h.notes) then h.(read := Some(revision)) else h.(pc := h.pc + 1)
  }

  function AdvanceWorld(w: World, t: nat, e: Env): World
    requires Enabled(w, Advance(t, e))
  {
    var h := w.handlers[t];
    var a := Program(h.call)[h.pc];
    if a.Emit? then w.(handlers := w.handlers[t := Tested(h, a.kind, Registry(w).revision)])
    else
      var turn := Perform(Registry(w), w.ingress, h.call, a, h.notes, e);
      var history := if turn.changed then w.history + [turn.registry] else w.history;
      var h' := Advanced(h, turn, a, Registry(w).revision, |history|);
      w.(history := history,
         ingress := turn.ingress,
         handlers := w.handlers[t := h'],
         mover := if h'.movedTo != h.movedTo then Some(t) else w.mover)
  }

  function Noted(h: Handler, k: Kind): Handler
    requires h.read.Some?
  {
    h.(pc := h.pc + 1, read := None, appended := h.appended + {k}, reported := h.read)
  }

  function Next(w: World, s: Step): World
    requires Enabled(w, s)
  {
    match s
    case Begin(t, c) => w.(handlers := w.handlers[t := Fresh(c, Registry(w).revision)])
    case Advance(t, e) => AdvanceWorld(w, t, e)
    case AppendEvent(t, saved) =>
      var h := w.handlers[t];
      if !saved then w.(handlers := w.handlers[t := h.(failed := true)])
      else
        var e := Event(h.lastChange, h.read.value);
        w.(log := w.log + [e],
           items := Push(w.items, Entry(w.nextCursor, e), w.capacity),
           nextCursor := w.nextCursor + 1,
           highWater := Max(w.highWater, e.stateRevision),
           handlers := w.handlers[t := Noted(h, Program(h.call)[h.pc].kind)])
    case BeginSnapshot(b) => w.(readers := w.readers[b := Started])
    case ReadCursor(b) =>
      w.(readers := w.readers[b := HasCursor(if Newest(w.items).Some? then Newest(w.items).value else 0, |w.history|)])
    case SampleRuntime(b) =>
      var r := w.readers[b];
      w.(readers := w.readers[b := Sampled(r.cursor, r.at, |w.history|, [])])
    case ReadRegistry(b) =>
      var r := w.readers[b];
      w.(readers := w.readers[b := r.(registryAt := r.registryAt + [|w.history|])])
    // both files are read back; handlers and unfinished snapshots die, the runtime is empty again
    case Restart(capacity) =>
      w.(history := w.history + [Registry(w)],
         ingress := I.EMPTY,
         items := Trim(w.items, capacity), capacity := capacity,
         handlers := map t | t in w.handlers :: Stopped(w.handlers[t]),
         readers := map b | b in w.readers && w.readers[b].Sampled? :: w.readers[b])
  }

  function Stopped(h: Handler): Handler {
    if Running(h) then h.(failed := true) else h
  }

  ghost predicate Feasible(capacity: nat, steps: seq<Step>)
    decreases |steps|, 0
  {
    steps == [] ||
    (var before := steps[..|steps| - 1];
     Feasible(capacity, before) && Enabled(Run(capacity, before), steps[|steps| - 1]))
  }

  ghost function Run(capacity: nat, steps: seq<Step>): World
    requires Feasible(capacity, steps)
    decreases |steps|, 1
  {
    if steps == [] then Start(capacity) else Next(Run(capacity, steps[..|steps| - 1]), steps[|steps| - 1])
  }

  // ---------------------------------------------------------------- invariants

  /** Events tell of changes that have happened and carry revisions that were reached. */
  ghost predicate LogAgrees(log: seq<Event<nat>>, changes: nat, revision: nat) {
    forall i :: 0 <= i < |log| ==> log[i].payload < changes && log[i].stateRevision <= revision
  }

  predicate HandlerAgrees(h: Handler, changes: nat, revision: nat) {
    && h.lastChange < changes
    && (h.read.Some? ==> h.read.value <= revision)
  }

  ghost predicate HandlersAgree(handlers: map<nat, Handler>, changes: nat, revision: nat) {
    forall t :: t in handlers ==> HandlerAgrees(handlers[t], changes, revision)
  }

  ghost predicate ReaderAgrees(r: Reader, log: seq<Event<nat>>, changes: nat) {
    r.Started? ||
    (&& r.cursor <= |log|
     && r.at <= changes
     && (forall i :: 0 <= i < r.cursor ==> log[i].payload < r.at)
     && (r.Sampled? ==> r.at <= r.runtimeAt && forall k :: 0 <= k < |r.registryAt| ==> r.at <= r.registryAt[k]))
  }

  ghost predicate ReadersAgree(readers: map<nat, Reader>, log: seq<Event<nat>>, changes: nat) {
    forall b :: b in readers ==> ReaderAgrees(readers[b], log, changes)
  }

  ghost predicate Consistent(w: World) {
    && w.history != []
    && w.capacity >= 1
    && IsWindow(w.items, w.nextCursor, w.log)
    && R.Lawful(Registry(w))
    && w.highWater <= Registry(w).revision
    && LogAgrees(w.log, |w.history|, Registry(w).revision)
    && HandlersAgree(w.handlers, |w.history|, Registry(w).revision)
    && ReadersAgree(w.readers, w.log, |w.history|)
  }

  /** What a lock section does to the registry: nothing, or one committed command. */
  lemma SectionKeepsLaw(s: R.State, i: I.State, c: Call, a: Action, n: Notes, e: Env)
    requires R.Lawful(s)
    ensures var turn := Perform(s, i, c, a, n, e);
            && R.Lawful(turn.registry)
            && s.revision <= turn.registry.revision
            && (turn.registry != s ==> a.Execute? && turn.changed)
            && (a.Execute? ==> turn == Executed(s, i, c, n, e))
  {
    if a.Execute? && R.Apply(s, CommandOf(c), e.now).Ok? {
      R.CommandKeepsLaw(s, CommandOf(c), e.now);
      RevisionGrows(s, CommandOf(c), e.now);
    }
  }

  lemma RevisionGrows(s: R.State, c: R.Command, now: int)
    requires R.Apply(s, c, now).Ok?
    ensures s.revision <= R.Apply(s, c, now).value.revision
  {}

  /** A longer history and a higher revision leave everything recorded as it is. */
  lemma GrowKeeps(w: World, changes: nat, revision: nat)
    requires Consistent(w) && |w.history| <= changes && Registry(w).revision <= revision
    ensures LogAgrees(w.log, changes, revision)
    ensures HandlersAgree(w.handlers, changes, revision)
    ensures ReadersAgree(w.readers, w.log, changes)
  {
    forall b | b in w.readers ensures ReaderAgrees(w.readers[b], w.log, changes) {
      assert ReaderAgrees(w.readers[b], w.log, |w.history|);
    }
  }

  lemma AdvanceStep(w: World, t: nat, e: Env)
    requires Consistent(w) && Enabled(w, Advance(t, e))
    ensures Consistent(AdvanceWorld(w, t, e))
  {
    hide Perform, Program, R.Lawful, Due, LogAgrees, ReadersAgree, IsWindow;
    var h := w.handlers[t];
    var a := Program(h.call)[h.pc];
    if !a.Emit? {
      SectionKeepsLaw(Registry(w), w.ingress, h.call, a, h.notes, e);
      var turn := Perform(Registry(w), w.ingress, h.call, a, h.notes, e);
      var changes := if turn.changed then |w.history| + 1 else |w.history|;
      GrowKeeps(w, changes, turn.registry.revision);
    }
  }

  lemma AppendStep(w: World, s: Step)
    requires Consistent(w) && s.AppendEvent? && s.saved && Enabled(w, s)
    ensures Consistent(Next(w, s))
  {
    hide Program, R.Lawful, IsWindow, Push, LogAgrees, ReaderAgrees;
    var w' := Next(w, s);
    var h := w.handlers[s.t];
    var e := Event(h.lastChange, h.read.value);
    assert HandlerAgrees(h, |w.history|, Registry(w).revision);
    PushKeepsWindow(w.items, w.nextCursor, w.log, e, w.capacity);
    LogGrows(w.log, e, |w.history|, Registry(w).revision);
    forall b | b in w'.readers ensures ReaderAgrees(w'.readers[b], w'.log, |w'.history|) {
      ReaderKeeps(w.readers[b], w.log, e, |w.history|);
    }
  }

  lemma LogGrows(log: seq<Event<nat>>, e: Event<nat>, changes: nat, revision: nat)
    requires LogAgrees(log, changes, revision) && e.payload < changes && e.stateRevision <= revision
    ensures LogAgrees(log + [e], changes, revision)
  {}

  lemma ReaderKeeps(r: Reader, log: seq<Event<nat>>, e: Event<nat>, changes: nat)
    requires ReaderAgrees(r, log, changes)
    ensures ReaderAgrees(r, log + [e], changes)
  {}

  lemma SnapshotStep(w: World, s: Step)
    requires Consistent(w) && (s.ReadCursor? || s.SampleRuntime? || s.ReadRegistry?) && Enabled(w, s)
    ensures Consistent(Next(w, s))
  {
    hide Program, R.Lawful, IsWindow, ReaderAgrees;
    var w' := Next(w, s);
    assert ReaderAgrees(w.readers[s.b], w.log, |w.history|);
    NextReaderAgrees(w, s);
    forall b | b in w'.readers ensures ReaderAgrees(w'.readers[b], w'.log, |w'.history|) {
      if b != s.b {
        assert b in w.readers && ReaderAgrees(w.readers[b], w.log, |w.history|);
      }
    }
  }

  lemma NextReaderAgrees(w: World, s: Step)
    requires (s.ReadCursor? || s.SampleRuntime? || s.ReadRegistry?) && Enabled(w, s)
    requires IsWindow(w.items, w.nextCursor, w.log) && LogAgrees(w.log, |w.history|, Registry(w).revision)
    requires ReaderAgrees(w.readers[s.b], w.log, |w.history|)
    ensures ReaderAgrees(Next(w, s).readers[s.b], w.log, |w.history|)
  {
    hide Program, IsWindow;
    GapMeansEvicted(w.items, w.nextCursor, w.log, 0);
  }

  lemma RestartStep(w: World, s: Step)
    requires Consistent(w) && s.Restart? && Enabled(w, s)
    ensures Consistent(Next(w, s))
  {
    hide Program, R.Lawful;
    TrimKeepsWindow(w.items, w.nextCursor, w.log, s.capacity);
    GrowKeeps(w, |w.history| + 1, Registry(w).revision);
  }

  lemma StepKeeps(w: World, s: Step)
    requires Consistent(w) && Enabled(w, s)
    ensures Consistent(Next(w, s))
  {
    hide Program, Perform, R.Lawful, IsWindow;
    match s
    case Begin(_, _) =>
    case Advance(t, e) => AdvanceStep(w, t, e);
    case AppendEvent(_, saved) =>
      if saved {
        AppendStep(w, s);
      }
    case BeginSnapshot(_) =>
    case ReadCursor(_) => SnapshotStep(w, s);
    case SampleRuntime(_) => SnapshotStep(w, s);
    case ReadRegistry(_) => SnapshotStep(w, s);
    case Restart(_) => RestartStep(w, s);
  }

  lemma {:induction false} RunIsConsistent(capacity: nat, steps: seq<Step>)
    requires capacity >= 1 && Feasible(capacity, steps)
    ensures Consistent(Run(capacity, steps))
  {
    hide Consistent, Next;
    if steps == [] {
      StartIsConsistent(capacity);
    } else {
      var before := steps[..|steps| - 1];
      RunIsConsistent(capacity, before);
      StepKeeps(Run(capacity, before), steps[|steps| - 1]);
    }
  }

  lemma StartIsConsistent(capacity: nat)
    requires capacity >= 1
    ensures Consistent(Start(capacity))
  {}

  // ---------------------------------------------------------------- the theorems

  /** In every interleaving, with failed saves, failed appends and restarts, the journal is
      never ahead of the registry. */
  lemma {:induction false} JournalNeverAhead(capacity: nat, steps: seq<Step>, w: World)
    requires capacity >= 1 && Feasible(capacity, steps) && w == Run(capacity, steps)
    ensures w.history != [] && w.highWater <= Registry(w).revision
  {
    RunIsConsistent(capacity, steps);
  }

  /** In every interleaving, a bootstrap snapshot misses nothing: every event at or below
      its nonzero change cursor tells of a change that the runtime sample and each
      registry read came after, and a read from the cursor, at any later time, yields the
      other events in order or reports a gap, exactly when some have been evicted. */
  lemma {:induction false} BootstrapMissesNothing(capacity: nat, steps: seq<Step>, w: World, b: nat, limit: nat)
    requires capacity >= 1 && Feasible(capacity, steps) && w == Run(capacity, steps)
    requires b in w.readers && w.readers[b].Sampled? && w.readers[b].cursor > 0 && limit >= 1
    ensures var r := w.readers[b];
            && r.cursor <= |w.log|
            && (forall i :: 0 <= i < r.cursor ==>
                  && w.log[i].payload < r.runtimeAt
                  && (forall k :: 0 <= k < |r.registryAt| ==> w.log[i].payload < r.registryAt[k]))
            && (var batch := ReadWindow(w.items, r.cursor, limit);
                && (batch.gap <==> r.cursor < |w.log| - |w.items|)
                && (!batch.gap ==>
                      && batch.entries == Take(Numbered(w.log, r.cursor), limit)
                      && batch.nextCursor == r.cursor + |batch.entries|))
  {
    RunIsConsistent(capacity, steps);
    assert ReaderAgrees(w.readers[b], w.log, |w.history|);
    ReadMeansLog(w.items, w.nextCursor, w.log, w.readers[b].cursor, limit);
  }

  /** A bootstrap over an empty journal answers cursor zero. A read from there never reports
      a gap; it has missed nothing if and only if no event has been evicted, and then, and
      only then, the oldest cursor the read names is one. */
  lemma {:induction false} BootstrapFromZero(capacity: nat, steps: seq<Step>, w: World, b: nat, limit: nat)
    requires capacity >= 1 && Feasible(capacity, steps) && w == Run(capacity, steps)
    requires b in w.readers && w.readers[b].Sampled? && w.readers[b].cursor == 0 && limit >= 1
    ensures var batch := ReadWindow(w.items, 0, limit);
            && !batch.gap && !batch.streamReset && batch.entries == Take(w.items, limit)
            && (batch.entries == Take(Numbered(w.log, 0), limit) <==> |w.items| == |w.log|)
            && (w.log != [] ==> (batch.oldest == Some(1) <==> |w.items| == |w.log|))
  {
    RunIsConsistent(capacity, steps);
    ZeroServesRetained(w.items, w.nextCursor, w.log, limit);
  }
}
