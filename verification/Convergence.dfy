/** Desired state and its confirmation for one source: operator commands, forgetting and
    registering again, the two-step desired-state read, heartbeats that may arrive late,
    twice or never, frames that mark capture active, and catalogs built from several
    separate reads. */
module Convergence {
  import opened Wrappers
  import R = SensorRegistry
  import I = SensorIngress

  /** What an honest producer sends after a desired-state answer: it captures as the answer
      says and confirms the answer's revision. The registration it read the revision in and
      the two times are history. */
  datatype Report = Report(active: bool, applied: nat, registration: nat, enabledReadAt: nat, revisionReadAt: nat)

  /** The runtime entry of the source: no applied revision before the first heartbeat. */
  datatype Runtime = Runtime(active: bool, report: Option<Report>)

  datatype ControlStatus = Unknown | Converged | Pending

  /** The catalog's verdict on one source. */
  function StatusOf(runtime: Option<Runtime>, enabled: bool, revision: nat): ControlStatus {
    if runtime.None? || runtime.value.report.None? then Unknown
    else if runtime.value.report.value.applied == revision && runtime.value.active == enabled then Converged
    else Pending
  }

  /** A desired-state read between its two lock acquisitions. */
  datatype Fetch = Fetch(enabled: bool, readAt: nat)

  datatype Catalog =
    | Sampled(runtime: Option<Runtime>, at: nat)
    | GotMetadata(runtime: Option<Runtime>, at: nat, enabled: bool)
    | Built(runtime: Option<Runtime>, at: nat, status: ControlStatus, doneAt: nat, lastCommandAt: nat, desired: bool,
            registration: nat)

  /** `lastCommandAt` dates the last command that changed the desired state or forgot the
      source, and `registration` counts the times it was forgotten. */
  datatype World = World(
    registry: R.State,
    clock: nat,
    lastCommandAt: nat,
    registration: nat,
    fetches: map<nat, Fetch>,
    wire: set<Report>,
    runtime: Option<Runtime>,
    catalogs: map<nat, Catalog>)

  function Start(s: R.State): World {
    World(s, 1, 0, 0, map[], {}, None, map[])
  }

  datatype Step =
    | Operate(c: R.Command, now: int, saved: bool)
    | FetchEnabled(f: nat)
    | FetchRevision(f: nat)
    | Heartbeat(r: Report)
    | FrameAccepted
    | DropRuntime
    | SampleRuntime(k: nat)
    | ReadMetadata(k: nat)
    | ReadControl(k: nat)

  predicate Enabled(w: World, s: Step) {
    match s
    case FetchEnabled(f) => f !in w.fetches
    case FetchRevision(f) => f in w.fetches
    case Heartbeat(r) => r in w.wire
    case SampleRuntime(k) => k !in w.catalogs
    case ReadMetadata(k) => k in w.catalogs && w.catalogs[k].Sampled?
    case ReadControl(k) => k in w.catalogs && w.catalogs[k].GotMetadata?
    case _ => true
  }

  predicate Forgets(c: R.Command, id: string) {
    c.Forget? && c.id == id
  }

  function Next(id: string, w: World, s: Step): World
    requires Enabled(w, s)
  {
    var v := w.(clock := w.clock + 1);
    var control := R.ControlRevision(w.registry, id);
    match s
    case Operate(c, now, saved) =>
      (match R.Apply(w.registry, c, now)
       case Err(_) => v
       case Ok(r) =>
         if !saved then v
         else if Forgets(c, id) then v.(registry := r, lastCommandAt := w.clock, registration := w.registration + 1)
         else v.(registry := r,
                 lastCommandAt := if R.ControlRevision(r, id) != control then w.clock else w.lastCommandAt))
    case FetchEnabled(f) => v.(fetches := w.fetches[f := Fetch(R.Get(w.registry, id).enabled, w.clock)])
    case FetchRevision(f) =>
      v.(fetches := w.fetches - {f},
         wire := w.wire + {Report(w.fetches[f].enabled, control, w.registration, w.fetches[f].readAt, w.clock)})
    case Heartbeat(r) => v.(runtime := Some(Runtime(r.active, Some(r))))
    case FrameAccepted =>
      v.(runtime := Some(Runtime(true, if w.runtime.Some? then w.runtime.value.report else None)))
    case DropRuntime => v.(runtime := None)
    case SampleRuntime(k) => v.(catalogs := w.catalogs[k := Sampled(w.runtime, w.clock)])
    case ReadMetadata(k) =>
      var c := w.catalogs[k];
      v.(catalogs := w.catalogs[k := GotMetadata(c.runtime, c.at, R.Get(w.registry, id).enabled)])
    case ReadControl(k) =>
      var c := w.catalogs[k];
      v.(catalogs := w.catalogs[k := Built(c.runtime, c.at, StatusOf(c.runtime, c.enabled, control), w.clock,
                                           w.lastCommandAt, R.Get(w.registry, id).enabled, w.registration)])
  }

  ghost predicate Feasible(id: string, start: R.State, steps: seq<Step>)
    decreases |steps|, 0
  {
    steps == [] ||
    (var before := steps[..|steps| - 1];
     Feasible(id, start, before) && Enabled(Run(id, start, before), steps[|steps| - 1]))
  }

  ghost function Run(id: string, start: R.State, steps: seq<Step>): World
    requires Feasible(id, start, steps)
    decreases |steps|, 1
  {
    if steps == [] then Start(start) else Next(id, Run(id, start, steps[..|steps| - 1]), steps[|steps| - 1])
  }

  // ---------------------------------------------------------------- invariants

  /** Where the source stands: its registration, control revision, clock and last command. */
  datatype Now = Now(registration: nat, control: nat, clock: nat, lastCommandAt: nat)

  function NowOf(id: string, w: World): Now {
    Now(w.registration, R.ControlRevision(w.registry, id), w.clock, w.lastCommandAt)
  }

  function Desired(n: Now): bool {
    n.control % 2 == 0
  }

  /** The revision of a report of this registration is current exactly while no command has
      come since it was read, and a report read whole since the last command names the
      desired state. */
  predicate ReportFits(r: Report, n: Now) {
    && r.enabledReadAt < r.revisionReadAt < n.clock
    && r.registration <= n.registration
    && (r.registration == n.registration ==>
          && r.applied <= n.control
          && (r.applied == n.control <==> n.lastCommandAt < r.revisionReadAt)
          && (n.lastCommandAt < r.enabledReadAt ==> r.active == Desired(n)))
  }

  predicate RuntimeFits(runtime: Option<Runtime>, n: Now) {
    runtime.Some? && runtime.value.report.Some? ==> ReportFits(runtime.value.report.value, n)
  }

  predicate FetchFits(f: Fetch, n: Now) {
    f.readAt < n.clock && (n.lastCommandAt < f.readAt ==> f.enabled == Desired(n))
  }

  predicate ReadBefore(runtime: Option<Runtime>, at: nat) {
    runtime.Some? && runtime.value.report.Some? ==>
      runtime.value.report.value.enabledReadAt < runtime.value.report.value.revisionReadAt < at
  }

  /** The verdict a built catalog gave, in terms of what had happened by its last read. */
  predicate VerdictFits(c: Catalog)
    requires c.Built?
  {
    && c.at < c.doneAt
    && ReadBefore(c.runtime, c.at)
    && (if c.runtime.None? || c.runtime.value.report.None? then c.status == Unknown
        else
          var r := c.runtime.value.report.value;
          c.status != Unknown &&
          (r.registration == c.registration ==>
            && (c.status == Converged <==> c.lastCommandAt < r.revisionReadAt && c.runtime.value.active == c.desired)
            && (c.lastCommandAt < r.enabledReadAt ==> r.active == c.desired)))
  }

  predicate CatalogFits(c: Catalog, n: Now) {
    match c
    case Sampled(rt, at) => at < n.clock && RuntimeFits(rt, n) && ReadBefore(rt, at)
    case GotMetadata(rt, at, enabled) =>
      && at < n.clock && RuntimeFits(rt, n) && ReadBefore(rt, at)
      && (n.lastCommandAt < at ==> enabled == Desired(n))
    case Built(_, _, _, _, _, _, _) => VerdictFits(c)
  }

  ghost predicate Consistent(id: string, w: World) {
    var n := NowOf(id, w);
    && R.Lawful(w.registry)
    && w.lastCommandAt < w.clock
    && (forall r :: r in w.wire ==> ReportFits(r, n))
    && RuntimeFits(w.runtime, n)
    && (forall f :: f in w.fetches ==> FetchFits(w.fetches[f], n))
    && (forall k :: k in w.catalogs ==> CatalogFits(w.catalogs[k], n))
  }

  /** The source is desired enabled exactly at even control revisions, registered or not. */
  lemma DesiredIsParity(id: string, w: World)
    requires R.Lawful(w.registry)
    ensures R.Get(w.registry, id).enabled == Desired(NowOf(id, w))
  {
    assert R.LawfulAt(w.registry, id);
  }

  /** Time passes, and then either nothing else, or a command, or a new registration. */
  predicate Follows(n: Now, m: Now) {
    && m.clock == n.clock + 1
    && (|| (m.registration == n.registration && m.control == n.control && m.lastCommandAt == n.lastCommandAt)
        || (m.registration == n.registration && n.control < m.control && m.lastCommandAt == n.clock)
        || (n.registration < m.registration && m.lastCommandAt == n.clock))
  }

  lemma FitsOn(n: Now, m: Now)
    requires Follows(n, m)
    ensures forall r :: ReportFits(r, n) ==> ReportFits(r, m)
    ensures forall f :: FetchFits(f, n) ==> FetchFits(f, m)
    ensures forall c :: CatalogFits(c, n) ==> CatalogFits(c, m)
  {
    hide VerdictFits, ReadBefore;
  }

  lemma TimePasses(id: string, w: World, w': World)
    requires Consistent(id, w) && R.Lawful(w'.registry) && Follows(NowOf(id, w), NowOf(id, w'))
    requires w'.wire == w.wire && w'.runtime == w.runtime && w'.fetches == w.fetches && w'.catalogs == w.catalogs
    ensures Consistent(id, w')
  {
    hide ReportFits, FetchFits, CatalogFits, R.Lawful;
    FitsOn(NowOf(id, w), NowOf(id, w'));
  }

  lemma OperateStep(id: string, w: World, s: Step)
    requires Consistent(id, w) && s.Operate?
    ensures Consistent(id, Next(id, w, s))
  {
    hide R.Apply, R.Lawful, ReportFits, FetchFits, CatalogFits, R.ControlRevision;
    if R.Apply(w.registry, s.c, s.now).Ok? && s.saved {
      R.CommandKeepsLaw(w.registry, s.c, s.now);
      CommandMoves(id, w.registry, s.c, s.now);
    }
    TimePasses(id, w, Next(id, w, s));
  }

  lemma CommandMoves(id: string, s: R.State, c: R.Command, now: int)
    requires R.Lawful(s) && R.Apply(s, c, now).Ok?
    ensures !Forgets(c, id) ==> R.ControlRevision(s, id) <= R.ControlRevision(R.Apply(s, c, now).value, id)
  {
    hide R.Apply;
    assert R.LawfulAt(s, id);
    if !Forgets(c, id) {
      R.CommandCounts(s, c, now, id);
    }
  }

  lemma FetchStep(id: string, w: World, s: Step)
    requires Consistent(id, w) && (s.FetchEnabled? || s.FetchRevision?) && Enabled(w, s)
    ensures Consistent(id, Next(id, w, s))
  {
    hide CatalogFits, R.Lawful, R.Get, R.ControlRevision;
    TimePasses(id, w, w.(clock := w.clock + 1));
    DesiredIsParity(id, w);
  }

  lemma RuntimeStep(id: string, w: World, s: Step)
    requires Consistent(id, w) && (s.Heartbeat? || s.FrameAccepted? || s.DropRuntime?) && Enabled(w, s)
    ensures Consistent(id, Next(id, w, s))
  {
    hide CatalogFits, FetchFits, ReportFits, R.Lawful, R.ControlRevision;
    TimePasses(id, w, w.(clock := w.clock + 1));
  }

  lemma CatalogStep(id: string, w: World, s: Step)
    requires Consistent(id, w) && (s.SampleRuntime? || s.ReadMetadata? || s.ReadControl?) && Enabled(w, s)
    ensures Consistent(id, Next(id, w, s))
  {
    hide CatalogFits, FetchFits, R.Lawful, R.Get, R.ControlRevision;
    TimePasses(id, w, w.(clock := w.clock + 1));
    DesiredIsParity(id, w);
    NextCatalogFits(id, w, s);
  }

  lemma NextCatalogFits(id: string, w: World, s: Step)
    requires Consistent(id, w) && (s.SampleRuntime? || s.ReadMetadata? || s.ReadControl?) && Enabled(w, s)
    requires R.Get(w.registry, id).enabled == Desired(NowOf(id, w))
    ensures CatalogFits(Next(id, w, s).catalogs[s.k], NowOf(id, Next(id, w, s)))
  {
    hide R.Lawful, R.Get, R.ControlRevision, FetchFits;
    if s.SampleRuntime? {
      assert RuntimeFits(w.runtime, NowOf(id, w));
    } else {
      assert CatalogFits(w.catalogs[s.k], NowOf(id, w));
    }
  }

  lemma StepKeeps(id: string, w: World, s: Step)
    requires Consistent(id, w) && Enabled(w, s)
    ensures Consistent(id, Next(id, w, s))
  {
    hide Next, Consistent;
    match s
    case Operate(_, _, _) => OperateStep(id, w, s);
    case FetchEnabled(_) => FetchStep(id, w, s);
    case FetchRevision(_) => FetchStep(id, w, s);
    case Heartbeat(_) => RuntimeStep(id, w, s);
    case FrameAccepted => RuntimeStep(id, w, s);
    case DropRuntime => RuntimeStep(id, w, s);
    case SampleRuntime(_) => CatalogStep(id, w, s);
    case ReadMetadata(_) => CatalogStep(id, w, s);
    case ReadControl(_) => CatalogStep(id, w, s);
  }

  lemma {:induction false} RunIsConsistent(id: string, start: R.State, steps: seq<Step>)
    requires R.Lawful(start) && Feasible(id, start, steps)
    ensures Consistent(id, Run(id, start, steps))
  {
    hide Next, R.Lawful;
    if steps != [] {
      var before := steps[..|steps| - 1];
      RunIsConsistent(id, start, before);
      StepKeeps(id, Run(id, start, before), steps[|steps| - 1]);
    }
  }

  // ---------------------------------------------------------------- the theorems

  /** In every interleaving, forgetting and registering again included, a catalog calls a
      source whose last report is of the present registration converged if and only if the
      producer read the confirmed revision after the last enable or disable command before
      the catalog's own last read, and the capture state it sampled is the desired one. So
      no command fell between the runtime sample, or the producer's read, and the registry
      read. */
  lemma {:induction false} ConvergedMeansConfirmed(id: string, start: R.State, steps: seq<Step>, w: World, k: nat)
    requires R.Lawful(start) && Feasible(id, start, steps) && w == Run(id, start, steps)
    requires k in w.catalogs && w.catalogs[k].Built?
    requires w.catalogs[k].runtime.Some? && w.catalogs[k].runtime.value.report.Some?
    requires w.catalogs[k].runtime.value.report.value.registration == w.catalogs[k].registration
    ensures var c := w.catalogs[k];
            var r := c.runtime.value.report.value;
            && r.revisionReadAt < c.at < c.doneAt
            && (c.status == Converged <==> c.lastCommandAt < r.revisionReadAt && c.runtime.value.active == c.desired)
            && (c.status == Converged ==> c.lastCommandAt < c.at)
  {
    RunIsConsistent(id, start, steps);
    assert VerdictFits(w.catalogs[k]);
  }

  /** In every interleaving the verdict is withheld exactly without a report, and pending
      whenever there is one that does not converge. */
  lemma {:induction false} UnknownWithoutReport(id: string, start: R.State, steps: seq<Step>, w: World, k: nat)
    requires R.Lawful(start) && Feasible(id, start, steps) && w == Run(id, start, steps)
    requires k in w.catalogs && w.catalogs[k].Built?
    ensures var c := w.catalogs[k];
            var reported := c.runtime.Some? && c.runtime.value.report.Some?;
            && (c.status == Unknown <==> !reported)
            && (c.status == Pending <==> reported && c.status != Converged)
  {
    RunIsConsistent(id, start, steps);
    assert VerdictFits(w.catalogs[k]);
  }

  /** A producer whose whole desired-state read came after the last command, and whose
      capture mark no frame has overwritten, is called converged. */
  lemma {:induction false} QuietProducerConverges(id: string, start: R.State, steps: seq<Step>, w: World, k: nat)
    requires R.Lawful(start) && Feasible(id, start, steps) && w == Run(id, start, steps)
    requires k in w.catalogs && w.catalogs[k].Built?
    requires w.catalogs[k].runtime.Some? && w.catalogs[k].runtime.value.report.Some?
    requires w.catalogs[k].runtime.value.report.value.registration == w.catalogs[k].registration
    requires w.catalogs[k].runtime.value.active == w.catalogs[k].runtime.value.report.value.active
    requires w.catalogs[k].lastCommandAt < w.catalogs[k].runtime.value.report.value.enabledReadAt
    ensures w.catalogs[k].status == Converged
  {
    RunIsConsistent(id, start, steps);
    assert VerdictFits(w.catalogs[k]);
  }

  /** The runtime entry is what the ingress holds of the source. */
  predicate Mirrors(runtime: Option<Runtime>, s: I.State, id: string) {
    && (runtime.Some? <==> id in s.sources)
    && (runtime.Some? ==>
          && s.sources[id].captureActive == Some(runtime.value.active)
          && s.sources[id].appliedRevision ==
               if runtime.value.report.Some? then Some(runtime.value.report.value.applied) else None)
  }

  /** The steps on the runtime entry are those of the ingress: a heartbeat that carries the
      report, an accepted frame, a forget. */
  lemma RuntimeIsIngress(id: string, w: World, s: I.State, hb: I.Heartbeat, f: I.Frame, r: Report, now: int)
    requires Mirrors(w.runtime, s, id) && f.sourceId == id && 0 <= f.dropped
    requires hb.sourceId == id && hb.capabilities.Some?
    requires hb.captureActive == Some(r.active) && hb.appliedRevision == Some(r.applied)
    ensures r in w.wire ==> Mirrors(Next(id, w, Heartbeat(r)).runtime, I.AfterHeartbeat(s, hb, now), id)
    ensures Mirrors(Next(id, w, FrameAccepted).runtime, I.AfterRecord(s, f, now), id)
    ensures Mirrors(Next(id, w, DropRuntime).runtime, I.AfterForget(s, id), id)
  {
    hide I.RefreshObserved, R.Apply;
  }

  ghost predicate Reached(id: string, steps: seq<Step>, w: World) {
    Feasible(id, R.EMPTY, steps) && Run(id, R.EMPTY, steps) == w
  }

  lemma Extend(id: string, before: seq<Step>, v: World, s: Step) returns (steps: seq<Step>, w: World)
    requires Reached(id, before, v) && Enabled(v, s)
    ensures Reached(id, steps, w) && w == Next(id, v, s)
  {
    hide Next, Enabled;
    steps := before + [s];
    assert steps[..|steps| - 1] == before && steps[|steps| - 1] == s;
    w := Next(id, v, s);
  }

  /** A command goes through. */
  lemma Command(id: string, before: seq<Step>, v: World, c: R.Command) returns (steps: seq<Step>, w: World)
    requires Reached(id, before, v) && R.Apply(v.registry, c, 0).Ok?
    ensures Reached(id, steps, w)
    ensures var r := R.Apply(v.registry, c, 0).value;
            w == v.(clock := v.clock + 1, registry := r,
                    registration := if Forgets(c, id) then v.registration + 1 else v.registration,
                    lastCommandAt := if Forgets(c, id) || R.ControlRevision(r, id) != R.ControlRevision(v.registry, id)
                                     then v.clock else v.lastCommandAt)
  {
    hide Reached, R.Apply, R.ControlRevision;
    steps, w := Extend(id, before, v, Operate(c, 0, true));
  }

  lemma Begins(id: string)
    ensures Reached(id, [], Start(R.EMPTY))
  {}

  /** The report of the first registration in the run below. */
  const STALE := Report(true, 0, 0, 2, 3)

  function Known(id: string, revision: nat): R.State {
    R.EMPTY.(entries := map[id := R.DEFAULT], revision := revision)
  }

  /** A producer reads its desired state. */
  lemma Fetched(id: string) returns (steps: seq<Step>, w: World)
    requires R.ValidId(id)
    ensures Reached(id, steps, w) && w == World(Known(id, 1), 4, 0, 0, map[], {STALE}, None, map[])
  {
    hide Reached;
    Begins(id);
    steps, w := Command(id, [], Start(R.EMPTY), R.Register(id));
    steps, w := Extend(id, steps, w, FetchEnabled(0));
    steps, w := Extend(id, steps, w, FetchRevision(0));
    assert w.fetches == map[];
  }

  lemma RetiredForgotten(id: string)
    requires R.ValidId(id)
    ensures var s := R.Apply(Known(id, 1), R.Retire(id, None), 0);
            && s.Ok? && R.ControlRevision(s.value, id) == 1
            && R.Apply(s.value, R.Forget(id, None), 0) == Ok(R.EMPTY.(revision := 3))
            && R.Apply(R.EMPTY.(revision := 3), R.Register(id), 0) == Ok(Known(id, 4))
  {
    var s := R.Apply(Known(id, 1), R.Retire(id, None), 0).value;
    assert R.Apply(s, R.Forget(id, None), 0).value == R.EMPTY.(revision := 3);
  }

  /** The source is retired, forgotten, and registered again. */
  lemma Reregistered(id: string) returns (steps: seq<Step>, w: World)
    requires R.ValidId(id)
    ensures Reached(id, steps, w) && w == World(Known(id, 4), 8, 5, 1, map[], {STALE}, None, map[])
  {
    hide Reached, R.Apply;
    RetiredForgotten(id);
    steps, w := Fetched(id);
    steps, w := Command(id, steps, w, R.Retire(id, None));
    steps, w := Command(id, steps, w, R.Forget(id, None));
    steps, w := Extend(id, steps, w, DropRuntime);
    steps, w := Command(id, steps, w, R.Register(id));
  }

  /** Across registrations the verdict can be wrong: forgetting restarts the control
      revision, so a report read before a retire and a forget, and arriving after the source
      is known again, is called converged although both commands came after it was read. */
  lemma ForgettingAliasesRevisions(id: string) returns (steps: seq<Step>, w: World)
    requires R.ValidId(id)
    ensures Reached(id, steps, w) && 0 in w.catalogs && w.catalogs[0].Built?
    ensures var c := w.catalogs[0];
            && c.runtime == Some(Runtime(true, Some(STALE))) && c.status == Converged
            && STALE.registration < c.registration && STALE.revisionReadAt < c.lastCommandAt
  {
    hide Reached;
    steps, w := Reregistered(id);
    steps, w := Extend(id, steps, w, Heartbeat(STALE));
    steps, w := Cataloged(id, steps, w);
  }

  /** A catalog built in one go. */
  lemma Cataloged(id: string, before: seq<Step>, v: World) returns (steps: seq<Step>, w: World)
    requires Reached(id, before, v) && 0 !in v.catalogs
    ensures Reached(id, steps, w) && 0 in w.catalogs && w.catalogs[0].Built?
    ensures var enabled := R.Get(v.registry, id).enabled;
            w.catalogs[0] == Built(v.runtime, v.clock, StatusOf(v.runtime, enabled, R.ControlRevision(v.registry, id)),
                                   v.clock + 2, v.lastCommandAt, enabled, v.registration)
  {
    hide Reached, R.Get, R.ControlRevision, StatusOf;
    steps, w := Extend(id, before, v, SampleRuntime(0));
    steps, w := Extend(id, steps, w, ReadMetadata(0));
    steps, w := Extend(id, steps, w, ReadControl(0));
  }
}
