/** When the feed is level with the registry, over every interleaving of handlers: the exact
    condition on what the last handler to move the registry had read, the callers who can
    rely on it, and runs that end behind. */
module FeedLevel {
  import opened Wrappers
  import R = SensorRegistry
  import I = SensorIngress
  import opened HandlerProgram
  import opened ChangePlane

  /** The handler has passed an action of its program. */
  ghost predicate Past(h: Handler, a: Action) {
    exists i :: 0 <= i < h.pc && i < |Program(h.call)| && Program(h.call)[i] == a
  }

  lemma PastGrows(h: Handler, h': Handler, a: Action)
    requires h'.call == h.call && h'.pc == h.pc + 1 && h.pc < |Program(h.call)|
    ensures Past(h', a) <==> Past(h, a) || Program(h.call)[h.pc] == a
  {
    hide Program;
    if Program(h.call)[h.pc] == a {
      assert 0 <= h.pc < h'.pc;
    }
  }

  // ---------------------------------------------------------------- what every handler keeps

  /** The append a handler is about to make: its test was passed, and the revision was read
      no earlier than the handler's own move. */
  predicate AppendReady(h: Handler, revision: nat) {
    h.read.Some? ==>
      && h.pc < |Program(h.call)| && Program(h.call)[h.pc].Emit? && Due(Program(h.call)[h.pc].kind, h.notes)
      && h.read.value <= revision
      && (h.movedTo.Some? ==> h.movedTo.value <= h.read.value)
      && (h.reported.Some? ==> h.reported.value <= h.read.value)
  }

  /** What a handler has appended is exactly what was due on its notes among the tests it has
      passed, and its last append carried at least its own move. */
  ghost predicate Booked(h: Handler, revision: nat, highWater: nat) {
    && h.pc <= |Program(h.call)|
    && AppendReady(h, revision)
    && (forall k :: k in h.appended <==> Past(h, Emit(k)) && Due(k, h.notes))
    && (h.movedTo.Some? ==> h.movedTo.value <= revision)
    && (h.reported.Some? <==> h.appended != {})
    && (h.reported.Some? ==>
          && h.reported.value <= highWater && h.reported.value <= revision
          && (h.movedTo.Some? ==> h.movedTo.value <= h.reported.value))
  }

  lemma BookedLater(h: Handler, revision: nat, highWater: nat, revision': nat, highWater': nat)
    requires Booked(h, revision, highWater) && revision <= revision' && highWater <= highWater'
    ensures Booked(h, revision', highWater')
  {
    hide Program, Due, Past;
  }

  lemma TestBooked(h: Handler, k: Kind, revision: nat, highWater: nat)
    requires Booked(h, revision, highWater) && Running(h) && h.read.None? && Program(h.call)[h.pc] == Emit(k)
    ensures Booked(Tested(h, k, revision), revision, highWater)
  {
    hide Program, Due, Past;
    if Due(k, h.notes) {
      forall a ensures Past(Tested(h, k, revision), a) <==> Past(h, a) {
        SamePast(h, Tested(h, k, revision), a);
      }
    } else {
      forall a ensures Past(Tested(h, k, revision), a) <==> Past(h, a) || Emit(k) == a {
        PastGrows(h, Tested(h, k, revision), a);
      }
    }
  }

  /** Nothing a handler reads later changes a test it has passed. */
  lemma NotesKeepTests(h: Handler, s: R.State, i: I.State, a: Action, e: Env, k: Kind)
    requires Running(h) && Program(h.call)[h.pc] == a && Past(h, Emit(k))
    ensures Due(k, Perform(s, i, h.call, a, h.notes, e).notes) == Due(k, h.notes)
    ensures !a.Execute? && a != Emit(k)
  {
    hide Program, Due, Perform;
    var x :| 0 <= x < h.pc && Program(h.call)[x] == Emit(k);
    TestsComeLast(h.call, x, h.pc);
    UninformedKeepsDue(s, i, h.call, a, h.notes, e, k);
  }

  lemma SectionBooked(h: Handler, s: R.State, i: I.State, a: Action, e: Env, changes: nat, highWater: nat)
    requires Booked(h, s.revision, highWater) && Running(h) && h.read.None? && Program(h.call)[h.pc] == a && !a.Emit?
    requires R.Lawful(s) && changes > 0
    ensures var turn := Perform(s, i, h.call, a, h.notes, e);
            Booked(Advanced(h, turn, a, s.revision, changes), turn.registry.revision, highWater)
  {
    hide Program, Due, Past, Perform, R.Lawful;
    SectionKeepsLaw(s, i, h.call, a, h.notes, e);
    var turn := Perform(s, i, h.call, a, h.notes, e);
    var h' := Advanced(h, turn, a, s.revision, changes);
    forall k ensures Past(h', Emit(k)) <==> Past(h, Emit(k)) {
      if turn.failed {
        SamePast(h, h', Emit(k));
      } else {
        PastGrows(h, h', Emit(k));
      }
    }
    forall k | Past(h, Emit(k)) ensures Due(k, h'.notes) == Due(k, h.notes) && !a.Execute? {
      NotesKeepTests(h, s, i, a, e, k);
    }
  }

  lemma SamePast(h: Handler, h': Handler, a: Action)
    requires h'.call == h.call && h'.pc == h.pc
    ensures Past(h', a) == Past(h, a)
  {
    hide Program;
  }

  lemma NotedBooked(h: Handler, k: Kind, revision: nat, highWater: nat)
    requires Booked(h, revision, highWater) && Running(h) && h.read.Some? && Program(h.call)[h.pc] == Emit(k)
    ensures h.read.value <= revision
    ensures Booked(Noted(h, k), revision, if highWater < h.read.value then h.read.value else highWater)
  {
    hide Program, Due, Past;
    forall a ensures Past(Noted(h, k), a) <==> Past(h, a) || Emit(k) == a {
      PastGrows(h, Noted(h, k), a);
    }
  }

  /** The high-water revision was carried by some append; the last mover's move is the state
      revision. */
  ghost predicate Levels(w: World) {
    && w.history != []
    && (forall t :: t in w.handlers ==> Booked(w.handlers[t], Registry(w).revision, w.highWater))
    && (w.highWater == 0 || exists t :: t in w.handlers && w.handlers[t].reported == Some(w.highWater))
    && (w.mover.None? <==> Registry(w).revision == 0)
    && (w.mover.Some? ==>
            && w.mover.value in w.handlers
            && w.handlers[w.mover.value].movedTo == Some(Registry(w).revision))
  }

  /** One handler goes on, or all stand still, while revision and high water grow. */
  lemma OneBooked(w: World, w': World, t: nat)
    requires Levels(w) && w'.history != []
    requires t in w'.handlers && w'.handlers == w.handlers[t := w'.handlers[t]]
    requires Registry(w).revision <= Registry(w').revision && w.highWater <= w'.highWater
    requires Booked(w'.handlers[t], Registry(w').revision, w'.highWater)
    requires w'.highWater == w.highWater || w'.handlers[t].reported == Some(w'.highWater)
    requires t in w.handlers && w.handlers[t].reported == Some(w.highWater) ==>
               w'.handlers[t].reported == Some(w'.highWater)
    requires if Registry(w').revision == Registry(w).revision
             then w'.mover == w.mover && (t in w.handlers ==> w'.handlers[t].movedTo == w.handlers[t].movedTo)
             else w'.mover == Some(t) && w'.handlers[t].movedTo == Some(Registry(w').revision)
    ensures Levels(w')
  {
    hide Booked;
    forall u | u in w'.handlers ensures Booked(w'.handlers[u], Registry(w').revision, w'.highWater) {
      if u != t {
        BookedLater(w.handlers[u], Registry(w).revision, w.highWater, Registry(w').revision, w'.highWater);
      }
    }
    if w'.highWater == w.highWater && w.highWater != 0 {
      var u :| u in w.handlers && w.handlers[u].reported == Some(w.highWater);
      assert u in w'.handlers && w'.handlers[u].reported == Some(w'.highWater);
    }
  }

  lemma AdvanceLevels(w: World, t: nat, e: Env)
    requires Levels(w) && Consistent(w) && Enabled(w, Advance(t, e))
    ensures Levels(AdvanceWorld(w, t, e))
  {
    hide Program, Due, Perform, Booked, R.Lawful, LogAgrees, HandlersAgree, ReadersAgree;
    var h := w.handlers[t];
    var a := Program(h.call)[h.pc];
    var w' := AdvanceWorld(w, t, e);
    if a.Emit? {
      TestBooked(h, a.kind, Registry(w).revision, w.highWater);
    } else {
      var turn := Perform(Registry(w), w.ingress, h.call, a, h.notes, e);
      SectionKeepsLaw(Registry(w), w.ingress, h.call, a, h.notes, e);
      SectionBooked(h, Registry(w), w.ingress, a, e, |w'.history|, w.highWater);
      MovesUpward(w, h);
    }
    OneBooked(w, w', t);
  }

  lemma MovesUpward(w: World, h: Handler)
    requires w.history != [] && Booked(h, Registry(w).revision, w.highWater)
    ensures h.movedTo.Some? ==> h.movedTo.value <= Registry(w).revision
  {}

  lemma AppendLevels(w: World, t: nat, saved: bool)
    requires Levels(w) && Enabled(w, AppendEvent(t, saved))
    ensures Levels(Next(w, AppendEvent(t, saved)))
  {
    hide Program, Due, Booked;
    var h := w.handlers[t];
    var w' := Next(w, AppendEvent(t, saved));
    ReportsRise(h, Registry(w).revision, w.highWater);
    if saved {
      NotedBooked(h, Program(h.call)[h.pc].kind, Registry(w).revision, w.highWater);
    } else {
      FailedBooked(h, Registry(w).revision, w.highWater);
    }
    OneBooked(w, w', t);
  }

  lemma ReportsRise(h: Handler, revision: nat, highWater: nat)
    requires Booked(h, revision, highWater) && h.read.Some?
    ensures h.reported.Some? ==> h.reported.value <= h.read.value && h.reported.value <= highWater
  {}

  lemma FailedBooked(h: Handler, revision: nat, highWater: nat)
    requires Booked(h, revision, highWater)
    ensures Booked(h.(failed := true), revision, highWater)
  {
    hide Program, Due;
    forall a ensures Past(h.(failed := true), a) == Past(h, a) {}
  }

  lemma BeginLevels(w: World, t: nat, c: Call)
    requires Levels(w) && Enabled(w, Begin(t, c))
    ensures Levels(Next(w, Begin(t, c)))
  {
    hide Program, Due, Booked;
    FreshBooked(c, Registry(w).revision, w.highWater);
    OneBooked(w, Next(w, Begin(t, c)), t);
  }

  lemma FreshBooked(c: Call, revision: nat, highWater: nat)
    ensures Booked(Fresh(c, revision), revision, highWater)
  {
    hide Program, Due;
  }

  lemma RestartLevels(w: World, capacity: nat)
    requires Levels(w) && Enabled(w, Restart(capacity))
    ensures Levels(Next(w, Restart(capacity)))
  {
    hide Program, Due, Booked;
    var w' := Next(w, Restart(capacity));
    forall t | t in w'.handlers ensures Booked(w'.handlers[t], Registry(w').revision, w'.highWater) {
      FailedBooked(w.handlers[t], Registry(w).revision, w.highWater);
    }
    if w.highWater != 0 {
      var t :| t in w.handlers && w.handlers[t].reported == Some(w.highWater);
      assert t in w'.handlers && w'.handlers[t].reported == Some(w'.highWater);
    }
  }

  lemma StepLevels(w: World, s: Step)
    requires Levels(w) && Consistent(w) && Enabled(w, s)
    ensures Levels(Next(w, s))
  {
    hide Program, Due, Perform, Booked, Consistent, AdvanceWorld;
    match s
    case Begin(t, c) => BeginLevels(w, t, c);
    case Advance(t, e) => AdvanceLevels(w, t, e);
    case AppendEvent(t, saved) => AppendLevels(w, t, saved);
    case Restart(capacity) => RestartLevels(w, capacity);
    case _ =>
  }

  lemma {:induction false} RunLevels(capacity: nat, steps: seq<Step>)
    requires capacity >= 1 && Feasible(capacity, steps)
    ensures Levels(Run(capacity, steps)) && Consistent(Run(capacity, steps))
  {
    hide Levels, Consistent, Next;
    RunIsConsistent(capacity, steps);
    if steps == [] {
      StartLevels(capacity);
    } else {
      var before := steps[..|steps| - 1];
      RunLevels(capacity, before);
      StepLevels(Run(capacity, before), steps[|steps| - 1]);
    }
  }

  lemma StartLevels(capacity: nat)
    ensures Levels(Start(capacity))
  {}

  // ---------------------------------------------------------------- the exact condition

  /** No handler is under way. */
  predicate Quiescent(w: World) {
    forall t :: t in w.handlers ==> !Running(w.handlers[t])
  }

  /** A handler that ended told of its move: an answered one by some test that its notes
      pass, one that failed by an append that went through before. */
  ghost predicate Told(h: Handler) {
    if h.failed then h.appended != {} else Reports(h.call, h.notes)
  }

  lemma AnsweredAppends(h: Handler, revision: nat, highWater: nat)
    requires Booked(h, revision, highWater) && Answered(h)
    ensures h.appended != {} <==> Reports(h.call, h.notes)
  {
    hide Program, Due;
    forall k ensures Past(h, Emit(k)) <==> Emit(k) in Program(h.call) {
      if Emit(k) in Program(h.call) {
        var i :| 0 <= i < |Program(h.call)| && Program(h.call)[i] == Emit(k);
        assert i < h.pc;
      }
    }
    if k :| k in h.appended {
      assert Emit(k) in Program(h.call) && Due(k, h.notes);
    }
    if Reports(h.call, h.notes) {
      var k :| Emit(k) in Program(h.call) && Due(k, h.notes);
      assert k in h.appended;
    }
  }

  /** In every interleaving, with failed saves, failed appends and restarts: once no handler
      is under way, the feed is level with the registry if and only if nothing ever moved the
      registry, or the handler that moved it last told of it, as judged by its own tests on
      what it had read, or another handler's append has read the revision since. */
  lemma {:induction false} LevelExactly(capacity: nat, steps: seq<Step>, w: World)
    requires capacity >= 1 && Feasible(capacity, steps) && w == Run(capacity, steps) && Quiescent(w)
    ensures w.history != [] && (w.mover.Some? ==> w.mover.value in w.handlers)
    ensures w.highWater == Registry(w).revision <==>
              || w.mover.None?
              || Told(w.handlers[w.mover.value])
              || (exists t ::
                      t in w.handlers && t != w.mover.value
                      && w.handlers[t].reported == Some(Registry(w).revision))
  {
    hide Program, Due, Booked, Consistent, Reports;
    RunLevels(capacity, steps);
    JournalNeverAhead(capacity, steps, w);
    if w.mover.Some? {
      MoverTold(w);
    }
  }

  lemma MoverTold(w: World)
    requires Levels(w) && Quiescent(w) && w.mover.Some? && w.highWater <= Registry(w).revision
    ensures var revision := Registry(w).revision;
            && (w.handlers[w.mover.value].reported == Some(revision) <==> Told(w.handlers[w.mover.value]))
            && (w.highWater == revision <==> exists t :: t in w.handlers && w.handlers[t].reported == Some(revision))
  {
    hide Program, Due, Reports, Past;
    var h := w.handlers[w.mover.value];
    if !h.failed {
      AnsweredAppends(h, Registry(w).revision, w.highWater);
    }
  }

  // ---------------------------------------------------------------- current notes

  /** What a discovery change is judged by. */
  datatype Description = Description(sourceType: string, device: Option<string>, capabilities: seq<string>)

  function DescriptionOf(d: Option<R.Discovery>): Option<Description> {
    if d.None? then None else Some(Description(d.value.sourceType, d.value.device, d.value.capabilities))
  }

  function Described(s: R.State, id: string): Option<Description> {
    DescriptionOf(Found(s.discovery, id))
  }

  /** Two registries a handler cannot tell apart by what it judges. */
  ghost predicate Alike(s: R.State, t: R.State) {
    forall id ::
      && R.Get(s, id) == R.Get(t, id)
      && Described(s, id) == Described(t, id)
      && (R.Contains(s, id) ==> R.Contains(t, id))
  }

  /** A command that leaves the state revision alone leaves everything alike. */
  lemma QuietCommand(s: R.State, c: R.Command, now: int)
    requires R.Apply(s, c, now).Ok? && R.Apply(s, c, now).value.revision == s.revision
    ensures Alike(s, R.Apply(s, c, now).value)
  {}

  /** The registry as a whole run of commands leaves it: the same revision means the same
      metadata, control revisions and descriptions. */
  lemma {:induction false} EqualRevisionsAlike(s: R.State, attempts: seq<R.Attempt>)
    requires R.RunFrom(s, attempts).revision == s.revision
    ensures Alike(s, R.RunFrom(s, attempts))
    ensures forall id :: R.ControlRevision(R.RunFrom(s, attempts), id) == R.ControlRevision(s, id)
  {
    if attempts != [] {
      var before := attempts[..|attempts| - 1];
      var a := attempts[|attempts| - 1];
      RevisionsRise(s, before);
      var t := R.RunFrom(s, before);
      if R.Apply(t, a.command, a.now).Ok? {
        RevisionGrows(t, a.command, a.now);
        EqualRevisionsAlike(s, before);
        if a.saved {
          QuietCommand(t, a.command, a.now);
          QuietControl(t, a.command, a.now);
        }
      } else {
        EqualRevisionsAlike(s, before);
      }
    }
  }

  lemma {:induction false} RevisionsRise(s: R.State, attempts: seq<R.Attempt>)
    ensures s.revision <= R.RunFrom(s, attempts).revision
  {
    if attempts != [] {
      var before := attempts[..|attempts| - 1];
      var a := attempts[|attempts| - 1];
      RevisionsRise(s, before);
      if R.Apply(R.RunFrom(s, before), a.command, a.now).Ok? {
        RevisionGrows(R.RunFrom(s, before), a.command, a.now);
      }
    }
  }

  lemma QuietControl(s: R.State, c: R.Command, now: int)
    requires R.Apply(s, c, now).Ok? && R.Apply(s, c, now).value.revision == s.revision
    ensures forall id :: R.ControlRevision(R.Apply(s, c, now).value, id) == R.ControlRevision(s, id)
  {}

  lemma QuietSection(s: R.State, i: I.State, c: Call, a: Action, n: Notes, e: Env)
    requires R.Lawful(s) && Perform(s, i, c, a, n, e).registry.revision == s.revision
    ensures Alike(s, Perform(s, i, c, a, n, e).registry)
  {
    hide Perform, Alike;
    SectionKeepsLaw(s, i, c, a, n, e);
    SelfAlike(s);
    if a.Execute? && R.Apply(s, CommandOf(c), e.now).Ok?
        && R.Apply(s, CommandOf(c), e.now).value.revision == s.revision {
      QuietCommand(s, CommandOf(c), e.now);
    }
  }

  lemma SelfAlike(s: R.State)
    ensures Alike(s, s)
  {}

  /** What a handler read before its command is what the registry still shows. */
  ghost predicate Current(h: Handler, s: R.State) {
    var id := SourceOf(h.call);
    && (Past(h, ReadMetadata) ==> h.notes.metadata == R.Get(s, id))
    && (Past(h, ReadContains) ==> if h.notes.contains then R.Contains(s, id) else Described(s, id).None?)
    && (Past(h, ReadDiscovery) ==> DescriptionOf(h.notes.discovery) == Described(s, id))
  }

  /** The source was unknown, or known by more than metadata, when an observation began. */
  predicate KnownByMore(n: Notes) {
    n.contains ==> n.discovery.Some?
  }

  predicate NewlyDescribed(n: Notes, contains: bool, d: Option<Description>) {
    contains && d.Some? && (n.contains ==> d != DescriptionOf(n.discovery))
  }

  /** What the notes of an operator handler show of a move made while they were current. */
  predicate Telling(c: Call, n: Notes) {
    match c
    case RetireCall(_, _) => Due(Retired, n)
    case RestoreCall(_, _) => Due(Restored, n)
    case PatchCall(_, _, _) => Due(MetadataChanged, n) || n.metadata.enabled != n.result.enabled
    case _ => true
  }

  /** What a move made from current notes has to show: an operator's test that passes, or a
      description that is new for as long as the registry stands. */
  ghost predicate Visible(h: Handler, s: R.State)
    requires h.movedTo.Some?
  {
    var n, id, moved := h.notes, SourceOf(h.call), h.movedTo.value;
    && Telling(h.call, n)
    && (!Operator(h.call) && KnownByMore(n) ==>
          && (s.revision == moved ==> NewlyDescribed(n, R.Contains(s, id), Described(s, id)))
          && (Past(h, RereadDiscovery) && h.lookedAt == moved ==>
              NewlyDescribed(n, true, DescriptionOf(n.discoveryAfter)))
          && (Past(h, RereadContains) && h.rereadAt == moved ==> n.containsAfter))
  }

  /** Everything a handler reads before its command. */
  ghost predicate ReadsDone(h: Handler) {
    match h.call
    case RetireCall(_, _) => Past(h, ReadMetadata)
    case RestoreCall(_, _) => Past(h, ReadMetadata)
    case PatchCall(_, _, _) => Past(h, ReadMetadata)
    case ForgetCall(_, _, _) => true
    case _ => Past(h, ReadContains) && Past(h, ReadDiscovery)
  }

  /** A command from current notes that moves the registry is visible. */
  lemma MoveIsVisible(s: R.State, h: Handler, e: Env, n: Notes)
    requires R.Lawful(s) && R.Apply(s, CommandOf(h.call), e.now).Ok?
    requires R.Apply(s, CommandOf(h.call), e.now).value.revision != s.revision
    requires Current(h, s) && ReadsDone(h)
    requires n == h.notes.(result := R.Get(R.Apply(s, CommandOf(h.call), e.now).value, SourceOf(h.call)))
    ensures var t := R.Apply(s, CommandOf(h.call), e.now).value;
            && Telling(h.call, n)
            && (!Operator(h.call) && KnownByMore(n) ==>
                  NewlyDescribed(n, R.Contains(t, SourceOf(h.call)), Described(t, SourceOf(h.call))))
  {
    hide Past;
  }

  // ---------------------------------------------------------------- what every handler knows

  predicate ReadsFirst(a: Action) {
    a.ReadMetadata? || a.ReadContains? || a.ReadDiscovery?
  }

  predicate ReadsAgain(a: Action) {
    a.RereadDiscovery? || a.RereadContains?
  }

  /** First readings, one command, the two second looks, in this order and once each. */
  lemma ProgramOrder(c: Call, x: int, y: int)
    requires 0 <= x < y < |Program(c)|
    ensures Program(c)[x].Execute? ==> !ReadsFirst(Program(c)[y]) && !Program(c)[y].Execute?
    ensures ReadsAgain(Program(c)[x]) ==> !Program(c)[y].Execute? && !Program(c)[y].RereadDiscovery?
    ensures Program(c)[x].RereadContains? ==> !ReadsAgain(Program(c)[y])
  {}

  lemma ReadsBeforeCommand(c: Call, y: int)
    requires 0 <= y < |Program(c)| && Program(c)[y].Execute?
    ensures match c
            case RetireCall(_, _) => ReadMetadata in Program(c)[..y]
            case RestoreCall(_, _) => ReadMetadata in Program(c)[..y]
            case PatchCall(_, _, _) => ReadMetadata in Program(c)[..y]
            case ForgetCall(_, _, _) => true
            case _ => ReadContains in Program(c)[..y] && ReadDiscovery in Program(c)[..y]
  {
    assert c.RetireCall? || c.RestoreCall? || c.PatchCall? ==> Program(c)[..y][0] == ReadMetadata;
    assert c.HeartbeatCall? || c.FrameCall? ==>
              && Program(c)[..y][0] == ReadContains
              && Program(c)[..y][1] == ReadDiscovery;
  }

  lemma ReadsAreDone(h: Handler)
    requires h.pc < |Program(h.call)| && Program(h.call)[h.pc].Execute?
    ensures ReadsDone(h)
  {
    hide Program;
    ReadsBeforeCommand(h.call, h.pc);
    forall a | a in Program(h.call)[..h.pc] ensures Past(h, a) {
      var i :| 0 <= i < h.pc && Program(h.call)[..h.pc][i] == a;
    }
  }

  /** What has come before an action tells what has not. */
  lemma OrderSoFar(h: Handler, a: Action)
    requires h.pc < |Program(h.call)| && Program(h.call)[h.pc] == a
    ensures Past(h, Execute) ==> !ReadsFirst(a) && !a.Execute?
    ensures Past(h, RereadDiscovery) ==> !a.Execute? && !a.RereadDiscovery?
    ensures Past(h, RereadContains) ==> !a.Execute? && !ReadsAgain(a)
  {
    hide Program;
    forall x | 0 <= x < h.pc {
      ProgramOrder(h.call, x, h.pc);
    }
  }

  /** The revisions a handler has seen are in order, its notes are current while the registry
      stands as at its beginning, and a move it made from current notes is visible. */
  ghost predicate Informed(h: Handler, s: R.State) {
    && h.begunAt <= s.revision && h.lookedAt <= s.revision
    && (h.begunAt == s.revision ==> Current(h, s))
    && (h.movedTo.Some? ==>
          && Past(h, Execute)
          && h.begunAt <= h.beforeMove < h.movedTo.value <= s.revision
          && (Operator(h.call) && h.call.expected.Some? ==> h.call.expected.value == h.beforeMove)
          && (Past(h, RereadDiscovery) ==> h.movedTo.value <= h.lookedAt)
          && (Past(h, RereadContains) ==> h.lookedAt <= h.rereadAt)
          && (h.beforeMove == h.begunAt ==> Visible(h, s)))
  }

  /** The registry moved on, or stayed alike. */
  lemma InformedLater(h: Handler, s: R.State, t: R.State)
    requires Informed(h, s) && s.revision <= t.revision
    requires s.revision == t.revision ==> Alike(s, t)
    ensures Informed(h, t)
  {
    hide Past, Telling, R.Get, R.Contains;
    assert s.revision == t.revision ==> Described(s, SourceOf(h.call)) == Described(t, SourceOf(h.call));
  }

  predicate SameReadings(n: Notes, m: Notes) {
    && n.metadata == m.metadata && n.contains == m.contains && n.discovery == m.discovery
    && n.result == m.result && n.discoveryAfter == m.discoveryAfter && n.containsAfter == m.containsAfter
  }

  predicate SameStamps(h: Handler, h': Handler) {
    && h.call == h'.call && h.begunAt == h'.begunAt && h.beforeMove == h'.beforeMove && h.movedTo == h'.movedTo
    && h.lookedAt == h'.lookedAt && h.rereadAt == h'.rereadAt
  }

  lemma InformedKept(h: Handler, h': Handler, s: R.State)
    requires Informed(h, s) && SameStamps(h, h') && SameReadings(h.notes, h'.notes)
    requires forall a: Action :: ReadsFirst(a) || ReadsAgain(a) || a.Execute? ==> Past(h', a) == Past(h, a)
    ensures Informed(h', s)
  {
    hide Past, Telling, R.Get, R.Contains;
    TellingSame(h.call, h.notes, h'.notes);
  }

  lemma TellingSame(c: Call, n: Notes, m: Notes)
    requires n.metadata == m.metadata && n.result == m.result
    ensures Telling(c, n) == Telling(c, m)
  {}

  /** Appending and testing leave notes and readings as they are. */
  lemma InformedSame(h: Handler, h': Handler, s: R.State)
    requires Informed(h, s) && SameStamps(h, h') && h.notes == h'.notes
    requires h'.pc == h.pc || (h'.pc == h.pc + 1 && h.pc < |Program(h.call)| && Program(h.call)[h.pc].Emit?)
    ensures Informed(h', s)
  {
    hide Program, Informed;
    forall a: Action | !a.Emit? ensures Past(h', a) == Past(h, a) {
      if h'.pc == h.pc {
        SamePast(h, h', a);
      } else {
        PastGrows(h, h', a);
      }
    }
    InformedKept(h, h', s);
  }

  /** A section of a handler at `a`, when none of its tests is due. */
  predicate Section(h: Handler, a: Action) {
    h.pc < |Program(h.call)| && Program(h.call)[h.pc] == a && !a.Emit?
  }

  lemma PastSection(h: Handler, h': Handler, a: Action)
    requires Section(h, a) && h'.call == h.call && h'.pc == h.pc + 1
    ensures forall b :: Past(h', b) <==> Past(h, b) || b == a
  {
    hide Program;
    forall b ensures Past(h', b) <==> Past(h, b) || b == a {
      PastGrows(h, h', b);
    }
  }

  lemma FirstReading(h: Handler, s: R.State, i: I.State, a: Action, e: Env, changes: nat)
    requires Informed(h, s) && Section(h, a) && ReadsFirst(a) && changes > 0
    ensures Informed(Advanced(h, Perform(s, i, h.call, a, h.notes, e), a, s.revision, changes), s)
  {
    hide Program, Past, Telling, Visible, R.Get;
    OrderSoFar(h, a);
    PastSection(h, Advanced(h, Perform(s, i, h.call, a, h.notes, e), a, s.revision, changes), a);
  }

  lemma SecondLook(h: Handler, s: R.State, i: I.State, a: Action, e: Env, changes: nat)
    requires Informed(h, s) && Section(h, a) && ReadsAgain(a) && changes > 0
    ensures Informed(Advanced(h, Perform(s, i, h.call, a, h.notes, e), a, s.revision, changes), s)
  {
    hide Program, Past, Telling, R.Get, R.Contains;
    OrderSoFar(h, a);
    var h' := Advanced(h, Perform(s, i, h.call, a, h.notes, e), a, s.revision, changes);
    PastSection(h, h', a);
    TellingSame(h.call, h.notes, h'.notes);
  }

  /** Every other section leaves registry and readings as they are. */
  lemma Unnoted(s: R.State, i: I.State, c: Call, a: Action, n: Notes, e: Env)
    requires !ReadsFirst(a) && !ReadsAgain(a) && !a.Execute?
    ensures var turn := Perform(s, i, c, a, n, e); turn.registry == s && SameReadings(n, turn.notes)
  {
    hide I.AfterFrame, I.Refusal, I.AfterHeartbeat;
  }

  lemma OtherSection(h: Handler, s: R.State, i: I.State, a: Action, e: Env, changes: nat)
    requires Informed(h, s) && Section(h, a) && !ReadsFirst(a) && !ReadsAgain(a) && !a.Execute? && changes > 0
    ensures Informed(Advanced(h, Perform(s, i, h.call, a, h.notes, e), a, s.revision, changes), s)
  {
    hide Program, Past, Perform, Informed;
    var h' := Advanced(h, Perform(s, i, h.call, a, h.notes, e), a, s.revision, changes);
    Unnoted(s, i, h.call, a, h.notes, e);
    if h'.pc == h.pc {
      forall b ensures Past(h', b) == Past(h, b) {
        SamePast(h, h', b);
      }
    } else {
      PastSection(h, h', a);
    }
    InformedKept(h, h', s);
  }

  lemma CommandSection(h: Handler, s: R.State, i: I.State, e: Env, changes: nat)
    requires Informed(h, s) && Section(h, Execute) && R.Lawful(s) && changes > 0
    ensures var turn := Perform(s, i, h.call, Execute, h.notes, e);
            Informed(Advanced(h, turn, Execute, s.revision, changes), turn.registry)
  {
    hide Program, Past, Telling, R.Apply, R.ReturnsEarly, R.Lawful, R.Get, R.Contains, Alike;
    OrderSoFar(h, Execute);
    var turn := Perform(s, i, h.call, Execute, h.notes, e);
    var t := turn.registry;
    var h' := Advanced(h, turn, Execute, s.revision, changes);
    SectionKeepsLaw(s, i, h.call, Execute, h.notes, e);
    if turn.failed {
      forall b ensures Past(h', b) == Past(h, b) {
        SamePast(h, h', b);
      }
    } else {
      PastSection(h, h', Execute);
      if t.revision == s.revision {
        QuietSection(s, i, h.call, Execute, h.notes, e);
        CurrentLater(h, h', s, t);
      } else {
        ReadsAreDone(h);
        if Operator(h.call) {
          GuardsExpected(s, h.call, e);
        }
        if h.begunAt == s.revision {
          MoveIsVisible(s, h, e, h'.notes);
        }
      }
    }
  }

  lemma CurrentLater(h: Handler, h': Handler, s: R.State, t: R.State)
    requires h.begunAt == s.revision ==> Current(h, s)
    requires Alike(s, t) && h'.call == h.call && h'.notes == h.notes.(result := h'.notes.result)
    requires forall a :: ReadsFirst(a) ==> Past(h', a) == Past(h, a)
    ensures h.begunAt == s.revision ==> Current(h', t)
  {
    hide Past, R.Get, R.Contains;
  }

  /** An operator's command with an expected revision goes through at that revision only. */
  lemma GuardsExpected(s: R.State, c: Call, e: Env)
    requires Operator(c) && R.Apply(s, CommandOf(c), e.now).Ok?
    ensures c.expected.Some? ==> c.expected.value == s.revision
  {}

  lemma SectionInformed(h: Handler, s: R.State, i: I.State, a: Action, e: Env, changes: nat)
    requires Informed(h, s) && Section(h, a) && R.Lawful(s) && changes > 0
    ensures var turn := Perform(s, i, h.call, a, h.notes, e);
            Informed(Advanced(h, turn, a, s.revision, changes), turn.registry)
  {
    hide Program, Informed, Perform, Advanced, R.Lawful;
    SectionKeepsLaw(s, i, h.call, a, h.notes, e);
    if a.Execute? {
      CommandSection(h, s, i, e, changes);
    } else if ReadsFirst(a) {
      FirstReading(h, s, i, a, e, changes);
    } else if ReadsAgain(a) {
      SecondLook(h, s, i, a, e, changes);
    } else {
      OtherSection(h, s, i, a, e, changes);
    }
  }

  ghost predicate AllInformed(w: World) {
    w.history != [] && forall t :: t in w.handlers ==> Informed(w.handlers[t], Registry(w))
  }

  /** One handler goes on while the registry moves on, or stays alike. */
  lemma OneInformed(w: World, w': World, t: nat)
    requires AllInformed(w) && w'.history != []
    requires t in w'.handlers && w'.handlers == w.handlers[t := w'.handlers[t]]
    requires Informed(w'.handlers[t], Registry(w'))
    requires Registry(w).revision <= Registry(w').revision
    requires Registry(w).revision == Registry(w').revision ==> Alike(Registry(w), Registry(w'))
    ensures AllInformed(w')
  {
    hide Informed, Alike;
    forall u | u in w'.handlers ensures Informed(w'.handlers[u], Registry(w')) {
      if u != t {
        InformedLater(w.handlers[u], Registry(w), Registry(w'));
      }
    }
  }

  lemma AdvanceInformed(w: World, t: nat, e: Env)
    requires AllInformed(w) && R.Lawful(Registry(w)) && Enabled(w, Advance(t, e))
    ensures AllInformed(AdvanceWorld(w, t, e))
  {
    hide Program, Due, Perform, Informed, Alike, R.Lawful, Advanced;
    var h := w.handlers[t];
    var a := Program(h.call)[h.pc];
    var w' := AdvanceWorld(w, t, e);
    SelfAlike(Registry(w));
    if a.Emit? {
      InformedSame(h, w'.handlers[t], Registry(w));
    } else {
      var turn := Perform(Registry(w), w.ingress, h.call, a, h.notes, e);
      SectionKeepsLaw(Registry(w), w.ingress, h.call, a, h.notes, e);
      SectionInformed(h, Registry(w), w.ingress, a, e, |w'.history|);
      if turn.registry.revision == Registry(w).revision {
        QuietSection(Registry(w), w.ingress, h.call, a, h.notes, e);
      }
    }
    OneInformed(w, w', t);
  }

  lemma BeginInformed(w: World, t: nat, c: Call)
    requires AllInformed(w) && Enabled(w, Begin(t, c))
    ensures AllInformed(Next(w, Begin(t, c)))
  {
    hide Program, Informed, Alike;
    SelfAlike(Registry(w));
    FreshInformed(c, Registry(w));
    OneInformed(w, Next(w, Begin(t, c)), t);
  }

  lemma FreshInformed(c: Call, s: R.State)
    ensures Informed(Fresh(c, s.revision), s)
  {
    hide Program;
  }

  lemma AppendInformed(w: World, t: nat, saved: bool)
    requires AllInformed(w) && Enabled(w, AppendEvent(t, saved))
    ensures AllInformed(Next(w, AppendEvent(t, saved)))
  {
    hide Program, Informed, Alike;
    var w' := Next(w, AppendEvent(t, saved));
    SelfAlike(Registry(w));
    InformedSame(w.handlers[t], w'.handlers[t], Registry(w));
    OneInformed(w, w', t);
  }

  lemma RestartInformed(w: World, capacity: nat)
    requires AllInformed(w) && Enabled(w, Restart(capacity))
    ensures AllInformed(Next(w, Restart(capacity)))
  {
    hide Program, Informed;
    var w' := Next(w, Restart(capacity));
    forall t | t in w'.handlers ensures Informed(w'.handlers[t], Registry(w')) {
      InformedSame(w.handlers[t], w'.handlers[t], Registry(w));
    }
  }

  lemma StepInformed(w: World, s: Step)
    requires AllInformed(w) && R.Lawful(Registry(w)) && Enabled(w, s)
    ensures AllInformed(Next(w, s))
  {
    hide Program, Informed, AdvanceWorld, R.Lawful;
    match s
    case Begin(t, c) => BeginInformed(w, t, c);
    case Advance(t, e) => AdvanceInformed(w, t, e);
    case AppendEvent(t, saved) => AppendInformed(w, t, saved);
    case Restart(capacity) => RestartInformed(w, capacity);
    case _ =>
  }

  lemma {:induction false} RunIsInformed(capacity: nat, steps: seq<Step>)
    requires capacity >= 1 && Feasible(capacity, steps)
    ensures AllInformed(Run(capacity, steps))
  {
    hide Informed, Next, R.Lawful;
    if steps != [] {
      var before := steps[..|steps| - 1];
      RunIsInformed(capacity, before);
      RunIsConsistent(capacity, before);
      StepInformed(Run(capacity, before), steps[|steps| - 1]);
    }
  }

  // ---------------------------------------------------------------- who can rely on the feed

  /** An operator command that names the state revision it is based on, begun no earlier
      than that revision was reached; a forget always tells. */
  predicate Careful(h: Handler) {
    h.call.ForgetCall? ||
    (Operator(h.call) && h.call.expected.Some? && h.call.expected.value <= h.begunAt)
  }

  /** An observation during which nobody else moved the registry, from the handler's first
      reading to its second look, of a source that was not known by metadata alone. */
  predicate Undisturbed(h: Handler)
    requires h.movedTo.Some?
  {
    && !Operator(h.call) && KnownByMore(h.notes)
    && h.beforeMove == h.begunAt && h.rereadAt == h.movedTo.value
  }

  lemma MoveReports(h: Handler, s: R.State)
    requires Informed(h, s) && Answered(h) && h.movedTo.Some? && (Careful(h) || Undisturbed(h))
    ensures Reports(h.call, h.notes)
  {
    hide Past;
    forall a | a in Program(h.call) ensures Past(h, a) {
      EndedPast(h, a);
    }
    var k := match h.call
      case RetireCall(_, _) => Retired
      case RestoreCall(_, _) => Restored
      case ForgetCall(_, _, _) => Forgotten
      case PatchCall(_, _, _) => if Due(MetadataChanged, h.notes) then MetadataChanged else ControlChanged
      case _ => Registration;
    Ends(h.call, k);
    assert Due(k, h.notes);
  }

  lemma EndedPast(h: Handler, a: Action)
    requires a in Program(h.call) && h.pc >= |Program(h.call)|
    ensures Past(h, a)
  {
    hide Program;
    var i :| 0 <= i < |Program(h.call)| && Program(h.call)[i] == a;
  }

  lemma Ends(c: Call, k: Kind)
    requires match c
             case RetireCall(_, _) => k == Retired
             case RestoreCall(_, _) => k == Restored
             case ForgetCall(_, _, _) => k == Forgotten
             case PatchCall(_, _, _) => k == MetadataChanged || k == ControlChanged
             case _ => k == Registration
    ensures Emit(k) in Program(c)
    ensures !Operator(c) ==> RereadDiscovery in Program(c) && RereadContains in Program(c)
  {
    var p := Program(c);
    assert Operator(c) || p[|p| - 3] == Emit(Registration) || p[|p| - 5] == Emit(Registration);
    assert c.PatchCall? ==> p[5] == Emit(MetadataChanged) && p[7] == Emit(ControlChanged);
    assert c.HeartbeatCall? ==> p[5] == RereadDiscovery && p[6] == RereadContains;
    assert c.FrameCall? && c.packet ==> p[5] == RereadDiscovery && p[6] == RereadContains;
    assert c.FrameCall? && !c.packet ==> p[4] == RereadDiscovery && p[5] == RereadContains;
  }

  /** In every interleaving: an answered handler that moved the registry has told of it, with
      at least the revision it moved to, if it was an operator's with an expected revision
      that had been reached when it began, a forget, or an undisturbed observation. */
  lemma {:induction false} MovesAreReported(capacity: nat, steps: seq<Step>, w: World, t: nat)
    requires capacity >= 1 && Feasible(capacity, steps) && w == Run(capacity, steps)
    requires t in w.handlers && Answered(w.handlers[t]) && w.handlers[t].movedTo.Some?
    requires Careful(w.handlers[t]) || Undisturbed(w.handlers[t])
    ensures Reports(w.handlers[t].call, w.handlers[t].notes)
    ensures w.handlers[t].movedTo.value <= w.highWater
  {
    hide Program, Due, Informed, Consistent, Reports, Past;
    RunLevels(capacity, steps);
    RunIsInformed(capacity, steps);
    MoveReports(w.handlers[t], Registry(w));
    AnsweredAppends(w.handlers[t], Registry(w).revision, w.highWater);
  }

  /** So the feed is level whenever the handler that moved the registry last was answered and
      is of that kind, however it was interleaved and whatever else is going on. */
  lemma {:induction false} CarefulMoverEndsLevel(capacity: nat, steps: seq<Step>, w: World)
    requires capacity >= 1 && Feasible(capacity, steps) && w == Run(capacity, steps)
    requires w.mover.Some? && w.mover.value in w.handlers && Answered(w.handlers[w.mover.value])
    requires w.handlers[w.mover.value].movedTo.Some?
    requires Careful(w.handlers[w.mover.value]) || Undisturbed(w.handlers[w.mover.value])
    ensures w.history != [] && w.highWater == Registry(w).revision
  {
    hide Program, Due, Booked, Consistent, Reports;
    RunLevels(capacity, steps);
    JournalNeverAhead(capacity, steps, w);
    MovesAreReported(capacity, steps, w, w.mover.value);
  }
}
