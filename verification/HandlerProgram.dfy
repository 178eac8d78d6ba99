/** The API handlers as programs of lock sections: what each reads before its command, what
    it reads again, and which events it appends, judged on what it has read. */
module HandlerProgram {
  import opened Wrappers
  import R = SensorRegistry
  import I = SensorIngress

  /** `offline` is the presence a forget reads for a source with runtime state; `seen` is
      the cleaned observation of a producer call. */
  datatype Call =
    | RetireCall(id: string, expected: Option<int>)
    | RestoreCall(id: string, expected: Option<int>)
    | ForgetCall(id: string, expected: Option<int>, offline: bool)
    | PatchCall(id: string, patch: R.Patch, expected: Option<int>)
    | HeartbeatCall(hb: I.Heartbeat, seen: R.Observation)
    | FrameCall(f: I.Frame, seen: R.Observation, packet: bool, maxPayload: nat, perception: I.Perception)

  predicate Operator(c: Call) {
    !c.HeartbeatCall? && !c.FrameCall?
  }

  function SourceOf(c: Call): string {
    match c
    case HeartbeatCall(hb, _) => hb.sourceId
    case FrameCall(f, _, _, _, _) => f.sourceId
    case _ => c.id
  }

  function CommandOf(c: Call): R.Command {
    match c
    case RetireCall(id, expected) => R.Retire(id, expected)
    case RestoreCall(id, expected) => R.Restore(id, expected)
    case ForgetCall(id, expected, _) => R.Forget(id, expected)
    case PatchCall(id, patch, expected) => R.Edit(id, patch, expected)
    case HeartbeatCall(hb, seen) => R.Observe(hb.sourceId, seen)
    case FrameCall(f, seen, _, _, _) => R.Observe(f.sourceId, seen)
  }

  /** What a handler has read so far. */
  datatype Notes = Notes(
    metadata: R.Metadata,
    control: nat,
    contains: bool,
    discovery: Option<R.Discovery>,
    runtime: Option<I.SourceStats>,
    result: R.Metadata,
    controlAfter: nat,
    containsAfter: bool,
    discoveryAfter: Option<R.Discovery>,
    runtimeAfter: Option<I.SourceStats>,
    readiness: bool)

  const BLANK := Notes(R.DEFAULT, 0, false, None, None, R.DEFAULT, 0, false, None, None, false)

  datatype Kind =
    | Retired | Restored | Forgotten | Registered | MetadataChanged | ControlChanged
    | Registration | RuntimeChanged | Readiness

  // ---------------------------------------------------------------- when an event is appended

  predicate FieldsDiffer(a: R.Metadata, b: R.Metadata) {
    a.displayName != b.displayName || a.location != b.location || a.role != b.role
  }

  predicate RegistrationDue(was: bool, before: Option<R.Discovery>, now: bool, after: Option<R.Discovery>) {
    if !was && now then true
    else
      before.Some? && after.Some?
      && (|| before.value.sourceType != after.value.sourceType
          || before.value.device != after.value.device
          || before.value.capabilities != after.value.capabilities)
  }

  predicate RuntimeDue(before: Option<I.SourceStats>, after: Option<I.SourceStats>) {
    after.Some? &&
    (|| before.None?
     || before.value.captureActive != after.value.captureActive
     || before.value.appliedRevision != after.value.appliedRevision
     || before.value.schemaId != after.value.schemaId
     || before.value.negotiated.maxPayload != after.value.negotiated.maxPayload
     || before.value.negotiated.compression != after.value.negotiated.compression
     || before.value.target != after.value.target)
  }

  /** The test in front of an append, on what the handler has read. */
  predicate Due(k: Kind, n: Notes) {
    match k
    case Retired => n.metadata.retiredAt.None? && n.result.retiredAt.Some?
    case Restored => n.metadata.retiredAt.Some? && n.result.retiredAt.None?
    case Forgotten => true
    case Registered => !n.contains
    case MetadataChanged => FieldsDiffer(n.metadata, n.result)
    case ControlChanged => n.metadata.enabled != n.result.enabled || n.control != n.controlAfter
    case Registration => RegistrationDue(n.contains, n.discovery, n.containsAfter, n.discoveryAfter)
    case RuntimeChanged => RuntimeDue(n.runtime, n.runtimeAfter)
    case Readiness => n.readiness
  }

  // ---------------------------------------------------------------- the programs

  datatype Action =
    | ReadMetadata | ReadControl | ReadContains | ReadDiscovery | ReadRuntime
    | CheckRevision | CheckContains | CheckRetired | CheckOffline | CheckType
    | Execute | Beat | Admit | DropRuntime
    | RereadControl | RereadDiscovery | RereadContains | RereadRuntime | WatchReadiness
    | Emit(kind: Kind)

  function Program(c: Call): seq<Action> {
    match c
    case RetireCall(_, _) => [ReadMetadata, Execute, Emit(Retired)]
    case RestoreCall(_, _) => [ReadMetadata, Execute, Emit(Restored)]
    case ForgetCall(_, _, _) =>
      [CheckRevision, CheckContains, CheckRetired, CheckOffline, Execute, DropRuntime,
       WatchReadiness, Emit(Readiness), Emit(Forgotten)]
    case PatchCall(_, _, _) =>
      [ReadMetadata, ReadControl, ReadContains, Execute, Emit(Registered), Emit(MetadataChanged),
       RereadControl, Emit(ControlChanged)]
    case HeartbeatCall(_, _) =>
      [ReadContains, ReadDiscovery, ReadRuntime, Execute, Beat, RereadDiscovery, RereadContains, Emit(Registration),
       RereadRuntime, Emit(RuntimeChanged), WatchReadiness, Emit(Readiness)]
    case FrameCall(_, _, packet, _, _) =>
      if packet then
        [ReadContains, ReadDiscovery, CheckType, Admit, Execute, RereadDiscovery, RereadContains, Emit(Registration),
         WatchReadiness, Emit(Readiness)]
      else
        [ReadContains, ReadDiscovery, Execute, Admit, RereadDiscovery, RereadContains, Emit(Registration),
         WatchReadiness, Emit(Readiness)]
  }

  /** A handler run to its end appends something, judged on what it has read. */
  ghost predicate Reports(c: Call, n: Notes) {
    exists k :: Emit(k) in Program(c) && Due(k, n)
  }

  /** The clock, whether a registry save goes through, whether another admission holds the
      slot, and whether the readiness projection changed. */
  datatype Env = Env(now: int, saved: bool, busy: bool, readiness: bool)

  /** One lock section: registry, runtime and notes after it, whether registry or runtime
      were changed, and whether the handler ends there with an error. */
  datatype Turn = Turn(registry: R.State, ingress: I.State, notes: Notes, changed: bool, failed: bool)

  function Found<V>(m: map<string, V>, id: string): Option<V> {
    if id in m then Some(m[id]) else None
  }

  function Executed(s: R.State, i: I.State, c: Call, n: Notes, e: Env): Turn {
    match R.Apply(s, CommandOf(c), e.now)
    case Err(_) => Turn(s, i, n, false, true)
    case Ok(t) =>
      if R.ReturnsEarly(s, CommandOf(c)) then Turn(s, i, n.(result := R.Get(s, SourceOf(c))), false, false)
      else if e.saved then Turn(t, i, n.(result := R.Get(t, SourceOf(c))), true, false)
      else Turn(s, i, n, false, true)
  }

  /** Actions that only write the notes. */
  predicate Reading(a: Action) {
    || a.ReadMetadata? || a.ReadControl? || a.ReadContains? || a.ReadDiscovery? || a.ReadRuntime?
    || a.RereadControl? || a.RereadDiscovery? || a.RereadContains? || a.RereadRuntime? || a.WatchReadiness?
  }

  function Written(s: R.State, i: I.State, id: string, a: Action, n: Notes, readiness: bool): Notes
    requires Reading(a)
  {
    match a
    case ReadMetadata => n.(metadata := R.Get(s, id))
    case ReadControl => n.(control := R.ControlRevision(s, id))
    case ReadContains => n.(contains := R.Contains(s, id))
    case ReadDiscovery => n.(discovery := Found(s.discovery, id))
    case ReadRuntime => n.(runtime := Found(i.sources, id))
    case RereadControl => n.(controlAfter := R.ControlRevision(s, id))
    case RereadDiscovery => n.(discoveryAfter := Found(s.discovery, id))
    case RereadContains => n.(containsAfter := R.Contains(s, id))
    case RereadRuntime => n.(runtimeAfter := Found(i.sources, id))
    case WatchReadiness => n.(readiness := readiness)
  }

  function Perform(s: R.State, i: I.State, c: Call, a: Action, n: Notes, e: Env): Turn {
    var id := SourceOf(c);
    var same := Turn(s, i, n, false, false);
    if Reading(a) then same.(notes := Written(s, i, id, a, n, e.readiness))
    else match a
    case CheckRevision => same.(failed := Operator(c) && R.Guard(s, c.expected).Some?)
    case CheckContains => same.(failed := !R.Contains(s, id))
    case CheckRetired => same.(failed := R.Get(s, id).retiredAt.None?)
    case CheckOffline => same.(failed := id in i.sources && c.ForgetCall? && !c.offline)
    case CheckType =>
      same.(failed := c.FrameCall? && n.discovery.Some? && n.discovery.value.sourceType != c.f.sourceType)
    case Execute => Executed(s, i, c, n, e)
    case Beat =>
      if !c.HeartbeatCall? || c.hb.capabilities.None? then same.(failed := true)
      else same.(ingress := I.AfterHeartbeat(i, c.hb, e.now), changed := true)
    case Admit =>
      if !c.FrameCall? then same.(failed := true)
      else
        var before := i.(processing := e.busy);
        var after := I.AfterFrame(before, c.f, c.maxPayload, c.perception, e.now);
        same.(ingress := after.(processing := i.processing), changed := true,
              failed := I.Refusal(before, c.f, c.maxPayload, c.perception).Some?)
    case DropRuntime => same.(ingress := I.AfterForget(i, id), changed := true)
    case Emit(_) => same
  }

  // ---------------------------------------------------------------- facts about the programs

  /** No lock section moves registry or runtime without being counted as a change, and only
      the four that may do. */
  lemma ChangesAreCounted(s: R.State, i: I.State, c: Call, a: Action, n: Notes, e: Env)
    ensures var turn := Perform(s, i, c, a, n, e);
            && (turn.registry != s || turn.ingress != i ==> turn.changed)
            && (turn.registry != s ==> a == Execute)
            && (turn.ingress != i ==> a == Beat || a == Admit || a == DropRuntime)
  {
    hide I.AfterFrame, I.AfterHeartbeat, I.AfterForget, I.Refusal, R.Apply, R.Get;
  }

  /** Whether an action writes something that the test for an event looks at. */
  predicate Informs(a: Action, k: Kind) {
    match k
    case Retired => a.ReadMetadata? || a.Execute?
    case Restored => a.ReadMetadata? || a.Execute?
    case Forgotten => false
    case Registered => a.ReadContains?
    case MetadataChanged => a.ReadMetadata? || a.Execute?
    case ControlChanged => a.ReadMetadata? || a.Execute? || a.ReadControl? || a.RereadControl?
    case Registration => a.ReadContains? || a.ReadDiscovery? || a.RereadDiscovery? || a.RereadContains?
    case RuntimeChanged => a.ReadRuntime? || a.RereadRuntime?
    case Readiness => a.WatchReadiness?
  }

  lemma UninformedKeepsDue(s: R.State, i: I.State, c: Call, a: Action, n: Notes, e: Env, k: Kind)
    requires !Informs(a, k)
    ensures Due(k, Perform(s, i, c, a, n, e).notes) == Due(k, n)
  {
    hide Perform, Written, Due;
    NotesWritten(s, i, c, a, n, e);
    if Reading(a) {
      WrittenKeepsDue(s, i, SourceOf(c), a, n, e.readiness, k);
    } else if a.Execute? {
      ResultKeepsDue(n, Perform(s, i, c, a, n, e).notes.result, k);
    }
  }

  lemma WrittenKeepsDue(s: R.State, i: I.State, id: string, a: Action, n: Notes, readiness: bool, k: Kind)
    requires Reading(a) && !Informs(a, k)
    ensures Due(k, Written(s, i, id, a, n, readiness)) == Due(k, n)
  {
    hide R.Get, R.Contains, R.ControlRevision, RegistrationDue, RuntimeDue, FieldsDiffer;
  }

  lemma ResultKeepsDue(n: Notes, result: R.Metadata, k: Kind)
    requires !Informs(Execute, k)
    ensures Due(k, n.(result := result)) == Due(k, n)
  {
    hide RegistrationDue, RuntimeDue, FieldsDiffer;
  }

  /** What an action writes. */
  lemma NotesWritten(s: R.State, i: I.State, c: Call, a: Action, n: Notes, e: Env)
    ensures var m := Perform(s, i, c, a, n, e).notes;
            m == if Reading(a) then Written(s, i, SourceOf(c), a, n, e.readiness)
                 else if a.Execute? then n.(result := m.result)
                 else n
  {
    hide Written, I.AfterFrame, I.AfterHeartbeat, I.AfterForget, I.Refusal, R.Apply;
  }

  /** A program tests an event only after everything the test looks at has been written. */
  lemma TestsComeLast(c: Call, x: int, y: int)
    requires 0 <= x < y < |Program(c)| && Program(c)[x].Emit?
    ensures !Informs(Program(c)[y], Program(c)[x].kind) && Program(c)[y] != Program(c)[x] && !Program(c)[y].Execute?
  {}
}
