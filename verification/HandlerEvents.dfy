/** Which events each handler appends when nothing comes in between, told by what changed. */
module HandlerEvents {
  import opened Wrappers
  import R = SensorRegistry
  import I = SensorIngress
  import opened HandlerProgram
  import opened Handlers

  /** The events of a program run from one of its actions to its end, every append going
      through. */
  function Appended(p: Plane, c: Call, pc: nat, n: Notes, e: Conditions): seq<Kind>
    requires pc <= |Program(c)|
    decreases |Program(c)| - pc
  {
    if pc == |Program(c)| then []
    else
      var a := Program(c)[pc];
      if a.Emit? then (if Due(a.kind, n) then [a.kind] else []) + Appended(p, c, pc + 1, n, e)
      else
        var turn := Perform(p.registry, p.ingress, c, a, n, Env(e.now, e.saved, p.ingress.processing, e.readiness));
        if turn.failed then []
        else Appended(p.(registry := turn.registry, ingress := turn.ingress), c, pc + 1, turn.notes, e)
  }

  function EventsOf(p: Plane, c: Call, e: Conditions): seq<Kind> {
    Appended(p, c, 0, BLANK, e)
  }

  /** Publishing moves the high-water revision alone, which no action looks at. */
  lemma {:induction false} HighWaterUnseen(p: Plane, c: Call, pc: nat, n: Notes, e: Conditions, highWater: nat)
    requires pc <= |Program(c)|
    ensures Appended(p.(highWater := highWater), c, pc, n, e) == Appended(p, c, pc, n, e)
    decreases |Program(c)| - pc
  {
    hide Program, Due, Perform;
    if pc < |Program(c)| {
      var a := Program(c)[pc];
      var turn := Perform(p.registry, p.ingress, c, a, n, Env(e.now, e.saved, p.ingress.processing, e.readiness));
      if a.Emit? {
        HighWaterUnseen(p, c, pc + 1, n, e, highWater);
      } else if !turn.failed {
        HighWaterUnseen(p.(registry := turn.registry, ingress := turn.ingress), c, pc + 1, turn.notes, e, highWater);
      }
    }
  }

  /** An answered handler has made exactly these appends. */
  lemma {:induction false} AnsweredAppendsAll(p: Plane, c: Call, pc: nat, n: Notes, e: Conditions, appends: nat)
    requires pc <= |Program(c)| && Finish(p, c, pc, n, e, appends).running
    ensures Finish(p, c, pc, n, e, appends).appends + |Appended(p, c, pc, n, e)| == appends
    decreases |Program(c)| - pc
  {
    hide Program, Due, Perform;
    if pc < |Program(c)| {
      var a := Program(c)[pc];
      var turn := Perform(p.registry, p.ingress, c, a, n, Env(e.now, e.saved, p.ingress.processing, e.readiness));
      if a.Emit? {
        var x := Publish(Progress(p, appends, true), Due(a.kind, n));
        AnsweredAppendsAll(x.plane, c, pc + 1, n, e, x.appends);
        HighWaterUnseen(p, c, pc + 1, n, e, x.plane.highWater);
      } else {
        AnsweredAppendsAll(p.(registry := turn.registry, ingress := turn.ingress), c, pc + 1, turn.notes, e, appends);
      }
    }
  }

  // ---------------------------------------------------------------- one action

  lemma Reads(p: Plane, c: Call, pc: nat, a: Action, n: Notes, e: Conditions)
    requires pc < |Program(c)| && Program(c)[pc] == a && Reading(a)
    ensures Appended(p, c, pc, n, e) ==
              Appended(p, c, pc + 1, Written(p.registry, p.ingress, SourceOf(c), a, n, e.readiness), e)
  {
    hide Program, Written, Perform;
    ReadingPerforms(p.registry, p.ingress, c, a, n, Env(e.now, e.saved, p.ingress.processing, e.readiness));
    assert p.(registry := p.registry, ingress := p.ingress) == p;
  }

  lemma ReadingPerforms(s: R.State, i: I.State, c: Call, a: Action, n: Notes, e: Env)
    requires Reading(a)
    ensures Perform(s, i, c, a, n, e) == Turn(s, i, Written(s, i, SourceOf(c), a, n, e.readiness), false, false)
  {
    hide Written;
  }

  /** The actions that are neither readings nor commands nor tests. */
  lemma OthersPerform(s: R.State, i: I.State, c: Call, n: Notes, e: Env)
    ensures c.FrameCall? ==>
              Perform(s, i, c, CheckType, n, e) ==
                Turn(s, i, n, false, n.discovery.Some? && n.discovery.value.sourceType != c.f.sourceType)
    ensures c.HeartbeatCall? ==>
              Perform(s, i, c, Beat, n, e) ==
                if c.hb.capabilities.None? then Turn(s, i, n, false, true)
                else Turn(s, I.AfterHeartbeat(i, c.hb, e.now), n, true, false)
    ensures Perform(s, i, c, DropRuntime, n, e) == Turn(s, I.AfterForget(i, SourceOf(c)), n, true, false)
  {
    hide I.AfterHeartbeat, I.AfterForget, I.AfterFrame, I.Refusal;
  }

  lemma Checks(p: Plane, c: Call, pc: nat, a: Action, n: Notes, e: Conditions)
    requires pc < |Program(c)| && Program(c)[pc] == a
    requires a.CheckRevision? || a.CheckContains? || a.CheckRetired? || a.CheckOffline?
    ensures Appended(p, c, pc, n, e) == if CheckFails(p, c, a) then [] else Appended(p, c, pc + 1, n, e)
  {
    hide Program, R.Get, R.Guard, R.Contains;
  }

  lemma Commands(p: Plane, c: Call, pc: nat, n: Notes, e: Conditions)
    requires pc < |Program(c)| && Program(c)[pc] == Execute
    ensures Appended(p, c, pc, n, e) ==
              match Mutate(p, CommandOf(c), e)
              case None => []
              case Some(q) => Appended(q, c, pc + 1, n.(result := R.Get(q.registry, SourceOf(c))), e)
  {
    hide Program, Mutate, Executed, R.Get;
    CommandAlone(p, c, n, e);
  }

  lemma Tests(p: Plane, c: Call, pc: nat, k: Kind, n: Notes, e: Conditions)
    requires pc < |Program(c)| && Program(c)[pc] == Emit(k)
    ensures Appended(p, c, pc, n, e) == (if Due(k, n) then [k] else []) + Appended(p, c, pc + 1, n, e)
  {}

  lemma Ends(p: Plane, c: Call, n: Notes, e: Conditions)
    ensures Appended(p, c, |Program(c)|, n, e) == []
  {}

  // ---------------------------------------------------------------- operator handlers

  /** The command is in order and its save, if it needs one, goes through. */
  predicate GoesThrough(p: Plane, c: Call, e: Conditions) {
    && R.Apply(p.registry, CommandOf(c), e.now).Ok?
    && (R.ReturnsEarly(p.registry, CommandOf(c)) || e.saved)
  }

  function RegistryAfter(p: Plane, c: Call, e: Conditions): R.State
    requires GoesThrough(p, c, e)
  {
    R.Apply(p.registry, CommandOf(c), e.now).value
  }

  lemma MutateMeans(p: Plane, c: Call, e: Conditions)
    ensures Mutate(p, CommandOf(c), e).Some? <==> GoesThrough(p, c, e)
    ensures GoesThrough(p, c, e) ==> Mutate(p, CommandOf(c), e) == Some(p.(registry := RegistryAfter(p, c, e)))
  {}

  /** A retire is told of exactly when the sensor was not retired, a restore when it was. */
  lemma LifecycleEvents(p: Plane, c: Call, e: Conditions)
    requires c.RetireCall? || c.RestoreCall?
    ensures var was := R.Get(p.registry, c.id).retiredAt;
            EventsOf(p, c, e) ==
              if c.RetireCall? && GoesThrough(p, c, e) && was.None? then [Retired]
              else if c.RestoreCall? && GoesThrough(p, c, e) && was.Some? then [Restored]
              else []
  {
    hide R.Apply, R.Get, Mutate, GoesThrough, RegistryAfter, Due, Appended;
    MutateMeans(p, c, e);
    var n := BLANK.(metadata := R.Get(p.registry, c.id));
    Reads(p, c, 0, ReadMetadata, BLANK, e);
    Commands(p, c, 1, n, e);
    if GoesThrough(p, c, e) {
      var q := p.(registry := RegistryAfter(p, c, e));
      var m := n.(result := R.Get(q.registry, c.id));
      Tests(q, c, 2, if c.RetireCall? then Retired else Restored, m, e);
      Ends(q, c, m, e);
      LifecycleDue(p, c, e, m);
    }
  }

  lemma LifecycleDue(p: Plane, c: Call, e: Conditions, m: Notes)
    requires (c.RetireCall? || c.RestoreCall?) && GoesThrough(p, c, e)
    requires m.metadata == R.Get(p.registry, c.id) && m.result == R.Get(RegistryAfter(p, c, e), c.id)
    ensures Due(Retired, m) <==> m.metadata.retiredAt.None? && c.RetireCall?
    ensures Due(Restored, m) <==> m.metadata.retiredAt.Some? && c.RestoreCall?
  {
    R.CommandMeans(p.registry, CommandOf(c), e.now);
  }

  /** A forget goes through only for a retired sensor without runtime or offline, and is
      told of, after a change of readiness. */
  lemma ForgetEvents(p: Plane, c: Call, e: Conditions)
    requires c.ForgetCall?
    ensures EventsOf(p, c, e) ==
              if GoesThrough(p, c, e) && (c.id in p.ingress.sources ==> c.offline)
              then (if e.readiness then [Readiness] else []) + [Forgotten]
              else []
  {
    hide R.Apply, R.Get, R.Guard, R.Contains, Mutate, GoesThrough, RegistryAfter, Appended, Program;
    ForgetListing(c);
    Checks(p, c, 0, CheckRevision, BLANK, e);
    Checks(p, c, 1, CheckContains, BLANK, e);
    Checks(p, c, 2, CheckRetired, BLANK, e);
    Checks(p, c, 3, CheckOffline, BLANK, e);
    Commands(p, c, 4, BLANK, e);
    MutateMeans(p, c, e);
    ForgetInOrder(p, c, e);
    if GoesThrough(p, c, e) {
      ForgetEnds(p.(registry := RegistryAfter(p, c, e)), c, BLANK.(result := R.Get(RegistryAfter(p, c, e), c.id)), e);
    }
  }

  lemma ForgetInOrder(p: Plane, c: Call, e: Conditions)
    requires c.ForgetCall?
    ensures GoesThrough(p, c, e) ==>
              && R.Guard(p.registry, c.expected).None? && R.Contains(p.registry, c.id)
              && R.Get(p.registry, c.id).retiredAt.Some?
  {}

  lemma ForgetEnds(q: Plane, c: Call, n: Notes, e: Conditions)
    requires c.ForgetCall?
    ensures Appended(q, c, 5, n, e) == (if e.readiness then [Readiness] else []) + [Forgotten]
  {
    hide Appended, Program, I.AfterForget;
    ForgetListing(c);
    Drops(q, c, n, e);
    var r := q.(ingress := I.AfterForget(q.ingress, c.id));
    var m := n.(readiness := e.readiness);
    Reads(r, c, 6, WatchReadiness, n, e);
    Tests(r, c, 7, Readiness, m, e);
    Tests(r, c, 8, Forgotten, m, e);
    Ends(r, c, m, e);
  }

  lemma Drops(q: Plane, c: Call, n: Notes, e: Conditions)
    requires c.ForgetCall?
    ensures Appended(q, c, 5, n, e) == Appended(q.(ingress := I.AfterForget(q.ingress, c.id)), c, 6, n, e)
  {
    hide I.AfterForget, Program, Perform;
    ForgetListing(c);
    OthersPerform(q.registry, q.ingress, c, n, Env(e.now, e.saved, q.ingress.processing, e.readiness));
  }

  /** A patch tells of a registration, of each kind of change it made, and of nothing else. */
  lemma PatchEvents(p: Plane, c: Call, e: Conditions)
    requires c.PatchCall? && R.Lawful(p.registry)
    ensures !GoesThrough(p, c, e) ==> EventsOf(p, c, e) == []
    ensures GoesThrough(p, c, e) ==>
              var m, n := R.Get(p.registry, c.id), R.Get(RegistryAfter(p, c, e), c.id);
              EventsOf(p, c, e) ==
                (if c.id !in p.registry.entries && c.id !in p.registry.discovery then [Registered] else []) +
                (if (m.displayName, m.location, m.role) != (n.displayName, n.location, n.role) then [MetadataChanged]
                 else []) +
                (if m.enabled != n.enabled then [ControlChanged] else [])
  {
    hide R.Apply, R.Get, R.ControlRevision, R.Lawful, R.Contains, Mutate, GoesThrough, RegistryAfter, Due, Appended;
    MutateMeans(p, c, e);
    PatchListing(c);
    var n0 := BLANK.(metadata := R.Get(p.registry, c.id));
    var n1 := n0.(control := R.ControlRevision(p.registry, c.id));
    var n := n1.(contains := R.Contains(p.registry, c.id));
    Reads(p, c, 0, ReadMetadata, BLANK, e);
    Reads(p, c, 1, ReadControl, n0, e);
    Reads(p, c, 2, ReadContains, n1, e);
    Commands(p, c, 3, n, e);
    if GoesThrough(p, c, e) {
      var q := p.(registry := RegistryAfter(p, c, e));
      PatchEnds(q, c, n.(result := R.Get(q.registry, c.id)), e);
      PatchDue(p, c, e, n.(result := R.Get(q.registry, c.id), controlAfter := R.ControlRevision(q.registry, c.id)));
    }
  }

  lemma PatchEnds(q: Plane, c: Call, n: Notes, e: Conditions)
    requires c.PatchCall?
    ensures var m := n.(controlAfter := R.ControlRevision(q.registry, c.id));
            Appended(q, c, 4, n, e) ==
              (if Due(Registered, m) then [Registered] else []) +
              (if Due(MetadataChanged, m) then [MetadataChanged] else []) +
              (if Due(ControlChanged, m) then [ControlChanged] else [])
  {
    hide R.ControlRevision, Due, Appended, Program;
    PatchListing(c);
    var m := n.(controlAfter := R.ControlRevision(q.registry, c.id));
    DueEarlier(n, m);
    Tests(q, c, 4, Registered, n, e);
    Tests(q, c, 5, MetadataChanged, n, e);
    Reads(q, c, 6, RereadControl, n, e);
    Tests(q, c, 7, ControlChanged, m, e);
    Ends(q, c, m, e);
  }

  lemma PatchDue(p: Plane, c: Call, e: Conditions, m: Notes)
    requires c.PatchCall? && GoesThrough(p, c, e) && R.Lawful(p.registry)
    requires m.metadata == R.Get(p.registry, c.id) && m.control == R.ControlRevision(p.registry, c.id)
    requires m.contains == R.Contains(p.registry, c.id)
    requires m.result == R.Get(RegistryAfter(p, c, e), c.id)
    requires m.controlAfter == R.ControlRevision(RegistryAfter(p, c, e), c.id)
    ensures Due(Registered, m) <==> c.id !in p.registry.entries && c.id !in p.registry.discovery
    ensures Due(MetadataChanged, m) <==>
              (m.metadata.displayName, m.metadata.location, m.metadata.role) !=
              (m.result.displayName, m.result.location, m.result.role)
    ensures Due(ControlChanged, m) <==> m.metadata.enabled != m.result.enabled
  {
    assert R.LawfulAt(p.registry, c.id);
    R.CommandCounts(p.registry, CommandOf(c), e.now, c.id);
  }

  // ---------------------------------------------------------------- producer handlers

  /** The source is new to the service, or its observation describes it otherwise. */
  predicate News(p: Plane, id: string, seen: R.Observation) {
    || (id !in p.registry.entries && id !in p.registry.discovery)
    || (id in p.registry.discovery &&
          var d := p.registry.discovery[id];
          || (seen.device.Some? && seen.device != d.device)
          || (seen.capabilities != [] && seen.capabilities != d.capabilities))
  }

  /** A heartbeat says something new about how its source runs: capture, applied revision,
      heartbeat format, payload limit, compression or target. */
  predicate RunsOtherwise(p: Plane, hb: I.Heartbeat) {
    hb.sourceId in p.ingress.sources ==>
      var s := p.ingress.sources[hb.sourceId];
      || s.captureActive != hb.captureActive
      || s.appliedRevision != hb.appliedRevision
      || s.schemaId != Some(hb.schemaId)
      || s.negotiated.maxPayload != hb.negotiated.maxPayload
      || s.negotiated.compression != hb.negotiated.compression
      || s.target != hb.target
  }

  /** A heartbeat tells of a new or changed registration, of changed runtime and of changed
      readiness, and of nothing else: neither of observed use, nor of refreshes. */
  lemma HeartbeatEvents(p: Plane, c: Call, e: Conditions)
    requires c.HeartbeatCall?
    ensures EventsOf(p, c, e) ==
              if !GoesThrough(p, c, e) || c.hb.capabilities.None? then []
              else
                (if News(p, c.hb.sourceId, c.seen) then [Registration] else []) +
                (if RunsOtherwise(p, c.hb) then [RuntimeChanged] else []) +
                (if e.readiness then [Readiness] else [])
  {
    hide R.Apply, R.Get, R.Contains, Mutate, GoesThrough, RegistryAfter, Due, Appended, Program, I.AfterHeartbeat;
    hide News, RunsOtherwise;
    HeartbeatListing(c);
    MutateMeans(p, c, e);
    var id := c.hb.sourceId;
    var n0 := BLANK.(contains := R.Contains(p.registry, id));
    var n1 := n0.(discovery := Found(p.registry.discovery, id));
    var n := n1.(runtime := Found(p.ingress.sources, id));
    Reads(p, c, 0, ReadContains, BLANK, e);
    Reads(p, c, 1, ReadDiscovery, n0, e);
    Reads(p, c, 2, ReadRuntime, n1, e);
    Commands(p, c, 3, n, e);
    if GoesThrough(p, c, e) {
      var q := p.(registry := RegistryAfter(p, c, e));
      var m := n.(result := R.Get(q.registry, id));
      Beats(q, c, m, e);
      if c.hb.capabilities.Some? {
        var r := q.(ingress := I.AfterHeartbeat(q.ingress, c.hb, e.now));
        HeartbeatEnds(r, c, m, e);
        RegistrationIsNews(p, c, e, LookedAgain(r, m, id));
        RuntimeIsNews(p, c, e, m, Found(r.ingress.sources, id));
      }
    }
  }

  lemma Beats(q: Plane, c: Call, n: Notes, e: Conditions)
    requires c.HeartbeatCall?
    ensures Appended(q, c, 4, n, e) ==
              if c.hb.capabilities.None? then []
              else Appended(q.(ingress := I.AfterHeartbeat(q.ingress, c.hb, e.now)), c, 5, n, e)
  {
    hide I.AfterHeartbeat, Program, Perform;
    HeartbeatListing(c);
    OthersPerform(q.registry, q.ingress, c, n, Env(e.now, e.saved, q.ingress.processing, e.readiness));
  }

  /** The second look at the registration and its test. */
  lemma LooksAgain(r: Plane, c: Call, pc: nat, n: Notes, e: Conditions)
    requires pc + 3 <= |Program(c)| && Program(c)[pc] == RereadDiscovery && Program(c)[pc + 1] == RereadContains
    requires Program(c)[pc + 2] == Emit(Registration)
    ensures var m := LookedAgain(r, n, SourceOf(c));
            Appended(r, c, pc, n, e) ==
              (if Due(Registration, m) then [Registration] else []) + Appended(r, c, pc + 3, m, e)
  {
    hide R.Contains, Appended, Program, RegistrationDue;
    var id := SourceOf(c);
    Reads(r, c, pc, RereadDiscovery, n, e);
    Reads(r, c, pc + 1, RereadContains, n.(discoveryAfter := Found(r.registry.discovery, id)), e);
    Tests(r, c, pc + 2, Registration, LookedAgain(r, n, id), e);
  }

  /** The watch on readiness at the end. */
  lemma EndsWithReadiness(r: Plane, c: Call, pc: nat, n: Notes, e: Conditions)
    requires pc + 2 == |Program(c)| && Program(c)[pc] == WatchReadiness && Program(c)[pc + 1] == Emit(Readiness)
    ensures Appended(r, c, pc, n, e) == if e.readiness then [Readiness] else []
  {
    hide Appended, Program;
    var z := n.(readiness := e.readiness);
    Reads(r, c, pc, WatchReadiness, n, e);
    Tests(r, c, pc + 1, Readiness, z, e);
    Ends(r, c, z, e);
  }

  lemma HeartbeatEnds(r: Plane, c: Call, n: Notes, e: Conditions)
    requires c.HeartbeatCall?
    ensures var m := LookedAgain(r, n, c.hb.sourceId);
            var o := m.(runtimeAfter := Found(r.ingress.sources, c.hb.sourceId));
            Appended(r, c, 5, n, e) ==
              (if Due(Registration, m) then [Registration] else []) +
              (if Due(RuntimeChanged, o) then [RuntimeChanged] else []) +
              (if e.readiness then [Readiness] else [])
  {
    hide LookedAgain, Appended, Program, Due;
    HeartbeatTailListing(c);
    var m := LookedAgain(r, n, c.hb.sourceId);
    var o := m.(runtimeAfter := Found(r.ingress.sources, c.hb.sourceId));
    LooksAgain(r, c, 5, n, e);
    Reads(r, c, 8, RereadRuntime, m, e);
    Tests(r, c, 9, RuntimeChanged, o, e);
    EndsWithReadiness(r, c, 10, o, e);
  }

  lemma RegistrationIsNews(p: Plane, c: Call, e: Conditions, m: Notes)
    requires !Operator(c) && GoesThrough(p, c, e)
    requires var id := SourceOf(c);
             && m.contains == R.Contains(p.registry, id) && m.discovery == Found(p.registry.discovery, id)
             && m.containsAfter == R.Contains(RegistryAfter(p, c, e), id)
             && m.discoveryAfter == Found(RegistryAfter(p, c, e).discovery, id)
    ensures Due(Registration, m) <==> News(p, SourceOf(c), c.seen)
  {
    R.ObservationMeans(p.registry, CommandOf(c), e.now);
  }

  lemma RuntimeIsNews(p: Plane, c: Call, e: Conditions, m: Notes, after: Option<I.SourceStats>)
    requires c.HeartbeatCall? && c.hb.capabilities.Some? && m.runtime == Found(p.ingress.sources, c.hb.sourceId)
    requires after == Found(I.AfterHeartbeat(p.ingress, c.hb, e.now).sources, c.hb.sourceId)
    ensures forall o: Notes :: o.runtime == m.runtime && o.runtimeAfter == after ==>
              (Due(RuntimeChanged, o) <==> RunsOtherwise(p, c.hb))
  {
    hide I.RefreshObserved;
  }

  /** The frame of a call meets no refusal. */
  predicate FrameTaken(p: Plane, c: Call)
    requires c.FrameCall?
  {
    I.Admissible(p.ingress, c.f, c.maxPayload) && c.perception.decodes && c.perception.processes
  }

  /** A packet of a source known under another type is refused before it is admitted. */
  predicate OtherType(p: Plane, c: Call)
    requires c.FrameCall?
  {
    c.packet && c.f.sourceId in p.registry.discovery
    && p.registry.discovery[c.f.sourceId].sourceType != c.f.sourceType
  }

  /** A frame tells of a new or changed registration and of changed readiness, and only if it
      was both observed and taken. */
  lemma FrameEvents(p: Plane, c: Call, e: Conditions)
    requires c.FrameCall?
    ensures EventsOf(p, c, e) ==
              if OtherType(p, c) || !GoesThrough(p, c, e) || !FrameTaken(p, c) then []
              else
                (if News(p, c.f.sourceId, c.seen) then [Registration] else []) +
                (if e.readiness then [Readiness] else [])
  {
    hide R.Apply, R.Get, R.Contains, Mutate, GoesThrough, RegistryAfter, Due, Appended, Program, I.AfterFrame;
    hide News, I.Admissible;
    FrameListing(c);
    var id := c.f.sourceId;
    var n0 := BLANK.(contains := R.Contains(p.registry, id));
    var n := n0.(discovery := Found(p.registry.discovery, id));
    Reads(p, c, 0, ReadContains, BLANK, e);
    Reads(p, c, 1, ReadDiscovery, n0, e);
    if c.packet {
      TypeChecks(p, c, n, e);
      Admits(p, c, 3, n, e);
      PacketEvents(p.(ingress := I.AfterFrame(p.ingress, c.f, c.maxPayload, c.perception, e.now)), p, c, n, e);
    } else {
      MutateMeans(p, c, e);
      Commands(p, c, 2, n, e);
      if GoesThrough(p, c, e) {
        var q := p.(registry := RegistryAfter(p, c, e));
        var m := n.(result := R.Get(q.registry, id));
        Admits(q, c, 3, m, e);
        var r := q.(ingress := I.AfterFrame(q.ingress, c.f, c.maxPayload, c.perception, e.now));
        FrameEnds(r, c, 4, m, e);
        RegistrationIsNews(p, c, e, LookedAgain(r, m, id));
      }
    }
  }

  lemma TypeChecks(p: Plane, c: Call, n: Notes, e: Conditions)
    requires c.FrameCall? && c.packet && n.discovery == Found(p.registry.discovery, c.f.sourceId)
    ensures Appended(p, c, 2, n, e) == if OtherType(p, c) then [] else Appended(p, c, 3, n, e)
  {
    hide Program, Perform;
    FrameListing(c);
    OthersPerform(p.registry, p.ingress, c, n, Env(e.now, e.saved, p.ingress.processing, e.readiness));
    assert p.(registry := p.registry, ingress := p.ingress) == p;
  }

  lemma Admits(p: Plane, c: Call, pc: nat, n: Notes, e: Conditions)
    requires c.FrameCall? && pc < |Program(c)| && Program(c)[pc] == Admit
    ensures Appended(p, c, pc, n, e) ==
              if !FrameTaken(p, c) then []
              else
                Appended(p.(ingress := I.AfterFrame(p.ingress, c.f, c.maxPayload, c.perception, e.now)), c, pc + 1, n,
                         e)
  {
    hide I.AfterFrame, Program, I.Refusal, I.Admissible;
    I.RefusedExactly(p.ingress, c.f, c.maxPayload, c.perception);
    AdmissionAlone(p, c, n, e);
  }

  /** The rest of an admitted packet, which is observed after its admission. */
  lemma PacketEvents(q: Plane, p: Plane, c: Call, n: Notes, e: Conditions)
    requires c.FrameCall? && c.packet && q.registry == p.registry
    requires n.contains == R.Contains(p.registry, c.f.sourceId)
    requires n.discovery == Found(p.registry.discovery, c.f.sourceId)
    ensures Appended(q, c, 4, n, e) ==
              if !GoesThrough(p, c, e) then []
              else
                (if News(p, c.f.sourceId, c.seen) then [Registration] else []) +
                (if e.readiness then [Readiness] else [])
  {
    hide R.Apply, R.Get, R.Contains, Mutate, Due, Appended, Program, News;
    FrameListing(c);
    MutateMeans(q, c, e);
    Commands(q, c, 4, n, e);
    if GoesThrough(q, c, e) {
      var r := q.(registry := RegistryAfter(q, c, e));
      var m := n.(result := R.Get(r.registry, c.f.sourceId));
      FrameEnds(r, c, 5, m, e);
      RegistrationIsNews(p, c, e, LookedAgain(r, m, c.f.sourceId));
    }
  }

  lemma FrameEnds(r: Plane, c: Call, pc: nat, n: Notes, e: Conditions)
    requires c.FrameCall? && pc == (if c.packet then 5 else 4)
    ensures var m := LookedAgain(r, n, c.f.sourceId);
            Appended(r, c, pc, n, e) ==
              (if Due(Registration, m) then [Registration] else []) + (if e.readiness then [Readiness] else [])
  {
    hide LookedAgain, Appended, Program, Due;
    FrameTailListing(c, pc);
    LooksAgain(r, c, pc, n, e);
    EndsWithReadiness(r, c, pc + 3, LookedAgain(r, n, c.f.sourceId), e);
  }
}
