/** The HTTP handlers that change the registry or the runtime and then append to the
    change feed, each run on its own: which of them leave the feed's high-water revision
    level with the registry. */
module Handlers {
  import opened Wrappers
  import R = SensorRegistry
  import I = SensorIngress
  import opened HandlerProgram

  datatype Plane = Plane(registry: R.State, ingress: I.State, highWater: nat)

  datatype Status = Synced | RegistryAhead | JournalAhead

  function Consistency(p: Plane): Status {
    if p.registry.revision == p.highWater then Synced
    else if p.registry.revision > p.highWater then RegistryAhead
    else JournalAhead
  }

  /** A handler under way: `appends` more appends will go through, and once one fails the
      handler ends without an answer. */
  datatype Progress = Progress(plane: Plane, appends: nat, running: bool)

  function Publish(x: Progress, when: bool): Progress {
    if !x.running || !when then x
    else if x.appends == 0 then x.(running := false)
    else
      var p := x.plane;
      x.(plane := p.(highWater := if p.highWater < p.registry.revision then p.registry.revision else p.highWater),
         appends := x.appends - 1)
  }

  /** What the environment decides: clock, whether the registry save goes through, how
      many appends do, and whether the readiness projection changed. */
  datatype Conditions = Conditions(now: int, saved: bool, appends: nat, readiness: bool)

  /** The registry step of a handler; None when the command is refused or not saved. */
  function Mutate(p: Plane, c: R.Command, e: Conditions): Option<Plane> {
    match R.Apply(p.registry, c, e.now)
    case Err(_) => None
    case Ok(s) =>
      if R.ReturnsEarly(p.registry, c) then Some(p)
      else if e.saved then Some(p.(registry := s))
      else None
  }

  function Refused(p: Plane): Progress {
    Progress(p, 0, false)
  }

  // ---------------------------------------------------------------- operator handlers

  function RetireHandler(p: Plane, id: string, expected: Option<int>, e: Conditions): Progress {
    var previous := R.Get(p.registry, id);
    match Mutate(p, R.Retire(id, expected), e)
    case None => Refused(p)
    case Some(q) =>
      Publish(Progress(q, e.appends, true), Due(Retired, BLANK.(metadata := previous, result := R.Get(q.registry, id))))
  }

  function RestoreHandler(p: Plane, id: string, expected: Option<int>, e: Conditions): Progress {
    var previous := R.Get(p.registry, id);
    match Mutate(p, R.Restore(id, expected), e)
    case None => Refused(p)
    case Some(q) =>
      Publish(Progress(q, e.appends, true),
          Due(Restored, BLANK.(metadata := previous, result := R.Get(q.registry, id))))
  }

  /** `offline` is the presence the handler reads for a source with runtime state. */
  function ForgetHandler(p: Plane, id: string, expected: Option<int>, offline: bool, e: Conditions): Progress {
    if R.Guard(p.registry, expected).Some? || !R.Contains(p.registry, id)
       || R.Get(p.registry, id).retiredAt.None? || (id in p.ingress.sources && !offline) then Refused(p)
    else match Mutate(p, R.Forget(id, expected), e)
    case None => Refused(p)
    case Some(q) =>
      var x := Progress(q.(ingress := I.AfterForget(q.ingress, id)), e.appends, true);
      Publish(Publish(x, e.readiness), true)
  }

  function PatchHandler(p: Plane, id: string, patch: R.Patch, expected: Option<int>, e: Conditions): Progress {
    var n := BLANK.(metadata := R.Get(p.registry, id), control := R.ControlRevision(p.registry, id),
                    contains := R.Contains(p.registry, id));
    match Mutate(p, R.Edit(id, patch, expected), e)
    case None => Refused(p)
    case Some(q) =>
      var m := n.(result := R.Get(q.registry, id), controlAfter := R.ControlRevision(q.registry, id));
      var x := Publish(Progress(q, e.appends, true), Due(Registered, m));
      Publish(Publish(x, Due(MetadataChanged, m)), Due(ControlChanged, m))
  }

  // ---------------------------------------------------------------- producer handlers

  /** `registered` and `discovery_changed` events. */
  function EmitRegistration(x: Progress, before: R.State, id: string): Progress {
    var now := x.plane.registry;
    Publish(x, RegistrationDue(R.Contains(before, id), Found(before.discovery, id),
                               R.Contains(now, id), Found(now.discovery, id)))
  }

  function EmitRuntime(x: Progress, before: I.State, id: string): Progress {
    Publish(x, RuntimeDue(Found(before.sources, id), Found(x.plane.ingress.sources, id)))
  }

  function HeartbeatHandler(p: Plane, hb: I.Heartbeat, seen: R.Observation, e: Conditions): Progress {
    match Mutate(p, R.Observe(hb.sourceId, seen), e)
    case None => Refused(p)
    case Some(q) =>
      if hb.capabilities.None? then Refused(q)
      else
        var x := Progress(q.(ingress := I.AfterHeartbeat(q.ingress, hb, e.now)), e.appends, true);
        Publish(EmitRuntime(EmitRegistration(x, p.registry, hb.sourceId), p.ingress, hb.sourceId), e.readiness)
  }

  /** Encoded frames are observed before they are processed, packets afterwards. */
  function FrameHandler(p: Plane, f: I.Frame, seen: R.Observation, packet: bool, maxPayload: nat,
                        perception: I.Perception, e: Conditions): Progress {
    if packet then
      if f.sourceId in p.registry.discovery && p.registry.discovery[f.sourceId].sourceType != f.sourceType
          then Refused(p)
      else
        var q := p.(ingress := I.AfterFrame(p.ingress, f, maxPayload, perception, e.now));
        if I.Refusal(p.ingress, f, maxPayload, perception).Some? then Refused(q)
        else match Mutate(q, R.Observe(f.sourceId, seen), e)
        case None => Refused(q)
        case Some(r) =>
          Publish(EmitRegistration(Progress(r, e.appends, true), p.registry, f.sourceId), e.readiness)
    else
      match Mutate(p, R.Observe(f.sourceId, seen), e)
      case None => Refused(p)
      case Some(q) =>
        var r := q.(ingress := I.AfterFrame(q.ingress, f, maxPayload, perception, e.now));
        if I.Refusal(q.ingress, f, maxPayload, perception).Some? then Refused(r)
        else Publish(EmitRegistration(Progress(r, e.appends, true), p.registry, f.sourceId), e.readiness)
  }

  function Handle(p: Plane, c: Call, e: Conditions): Progress {
    match c
    case RetireCall(id, expected) => RetireHandler(p, id, expected, e)
    case RestoreCall(id, expected) => RestoreHandler(p, id, expected, e)
    case ForgetCall(id, expected, offline) => ForgetHandler(p, id, expected, offline, e)
    case PatchCall(id, patch, expected) => PatchHandler(p, id, patch, expected, e)
    case HeartbeatCall(hb, seen) => HeartbeatHandler(p, hb, seen, e)
    case FrameCall(f, seen, packet, maxPayload, perception) =>
      FrameHandler(p, f, seen, packet, maxPayload, perception, e)
  }

  // ---------------------------------------------------------------- the handlers as programs run alone

  /** A program run from one of its actions to its end with nothing in between. */
  function Finish(p: Plane, c: Call, pc: nat, n: Notes, e: Conditions, appends: nat): Progress
    requires pc <= |Program(c)|
    decreases |Program(c)| - pc
  {
    if pc == |Program(c)| then Progress(p, appends, true)
    else
      var a := Program(c)[pc];
      if a.Emit? then
        var x := Publish(Progress(p, appends, true), Due(a.kind, n));
        if x.running then Finish(x.plane, c, pc + 1, n, e, x.appends) else x
      else
        var turn := Perform(p.registry, p.ingress, c, a, n, Env(e.now, e.saved, p.ingress.processing, e.readiness));
        var q := p.(registry := turn.registry, ingress := turn.ingress);
        if turn.failed then Refused(q) else Finish(q, c, pc + 1, turn.notes, e, appends)
  }

  /** One action. */
  lemma OneMore(p: Plane, c: Call, pc: nat, a: Action, n: Notes, e: Conditions, appends: nat)
    requires pc < |Program(c)| && Program(c)[pc] == a && !a.Emit?
    ensures var turn := Perform(p.registry, p.ingress, c, a, n, Env(e.now, e.saved, p.ingress.processing, e.readiness));
            var q := p.(registry := turn.registry, ingress := turn.ingress);
            Finish(p, c, pc, n, e, appends) == if turn.failed then Refused(q)
                else Finish(q, c, pc + 1, turn.notes, e, appends)
  {}

  lemma OneReading(p: Plane, c: Call, pc: nat, a: Action, n: Notes, e: Conditions, appends: nat)
    requires pc < |Program(c)| && Program(c)[pc] == a && Reading(a)
    ensures Finish(p, c, pc, n, e, appends) ==
              Finish(p, c, pc + 1, Written(p.registry, p.ingress, SourceOf(c), a, n, e.readiness), e, appends)
  {
    hide Program, Written;
  }

  predicate CheckFails(p: Plane, c: Call, a: Action) {
    match a
    case CheckRevision => Operator(c) && R.Guard(p.registry, c.expected).Some?
    case CheckContains => !R.Contains(p.registry, SourceOf(c))
    case CheckRetired => R.Get(p.registry, SourceOf(c)).retiredAt.None?
    case CheckOffline => SourceOf(c) in p.ingress.sources && c.ForgetCall? && !c.offline
    case _ => false
  }

  lemma OneCheck(p: Plane, c: Call, pc: nat, a: Action, n: Notes, e: Conditions, appends: nat)
    requires pc < |Program(c)| && Program(c)[pc] == a
    requires a.CheckRevision? || a.CheckContains? || a.CheckRetired? || a.CheckOffline?
    ensures Finish(p, c, pc, n, e, appends) ==
              if CheckFails(p, c, a) then Refused(p) else Finish(p, c, pc + 1, n, e, appends)
  {
    hide Program, R.Get, R.Guard, R.Contains;
  }

  lemma OneCommand(p: Plane, c: Call, pc: nat, n: Notes, e: Conditions, appends: nat)
    requires pc < |Program(c)| && Program(c)[pc] == Execute
    ensures Finish(p, c, pc, n, e, appends) ==
              match Mutate(p, CommandOf(c), e)
              case None => Refused(p)
              case Some(q) => Finish(q, c, pc + 1, n.(result := R.Get(q.registry, SourceOf(c))), e, appends)
  {
    hide Program, Mutate, Executed, R.Get;
    CommandAlone(p, c, n, e);
  }

  lemma OneTest(p: Plane, c: Call, pc: nat, k: Kind, n: Notes, e: Conditions, appends: nat)
    requires pc < |Program(c)| && Program(c)[pc] == Emit(k)
    ensures var x := Publish(Progress(p, appends, true), Due(k, n));
            Finish(p, c, pc, n, e, appends) == if x.running then Finish(x.plane, c, pc + 1, n, e, x.appends) else x
  {}

  lemma Ended(p: Plane, c: Call, n: Notes, e: Conditions, appends: nat)
    ensures Finish(p, c, |Program(c)|, n, e, appends) == Progress(p, appends, true)
  {}

  lemma CommandAlone(p: Plane, c: Call, n: Notes, e: Conditions)
    ensures var turn := Executed(p.registry, p.ingress, c, n, Env(e.now, e.saved, p.ingress.processing, e.readiness));
            match Mutate(p, CommandOf(c), e)
            case None => turn == Turn(p.registry, p.ingress, n, false, true)
            case Some(q) =>
              && q.ingress == p.ingress && q.highWater == p.highWater
              && !turn.failed && turn.registry == q.registry && turn.ingress == q.ingress
              && turn.notes == n.(result := R.Get(q.registry, SourceOf(c)))
  {
    hide R.Apply, R.ReturnsEarly, R.Get;
  }

  lemma LifecycleIsProgram(p: Plane, c: Call, e: Conditions)
    requires c.RetireCall? || c.RestoreCall?
    ensures Handle(p, c, e) == Finish(p, c, 0, BLANK, e, e.appends)
  {
    hide R.Apply, R.ReturnsEarly, R.Get, Mutate, Executed, Publish, Due, Finish, Perform;
    var n := BLANK.(metadata := R.Get(p.registry, c.id));
    OneReading(p, c, 0, ReadMetadata, BLANK, e, e.appends);
    OneCommand(p, c, 1, n, e, e.appends);
    if Mutate(p, CommandOf(c), e).Some? {
      var q := Mutate(p, CommandOf(c), e).value;
      var m := n.(result := R.Get(q.registry, c.id));
      var k := if c.RetireCall? then Retired else Restored;
      OneTest(q, c, 2, k, m, e, e.appends);
      var x := Publish(Progress(q, e.appends, true), Due(k, m));
      Ended(x.plane, c, m, e, x.appends);
    }
  }

  /** The longer programs action by action. */
  lemma ForgetListing(c: Call)
    requires c.ForgetCall?
    ensures var p := Program(c);
            && |p| == 9
            && p[0] == CheckRevision && p[1] == CheckContains && p[2] == CheckRetired && p[3] == CheckOffline
            && p[4] == Execute && p[5] == DropRuntime && p[6] == WatchReadiness && p[7] == Emit(Readiness)
            && p[8] == Emit(Forgotten)
  {}

  lemma PatchListing(c: Call)
    requires c.PatchCall?
    ensures var p := Program(c);
            && |p| == 8
            && p[4] == Emit(Registered) && p[5] == Emit(MetadataChanged) && p[6] == RereadControl
            && p[7] == Emit(ControlChanged)
  {}

  lemma HeartbeatListing(c: Call)
    requires c.HeartbeatCall?
    ensures var p := Program(c);
            && |p| == 12
            && p[0] == ReadContains && p[1] == ReadDiscovery && p[2] == ReadRuntime && p[3] == Execute && p[4] == Beat
  {}

  lemma HeartbeatTailListing(c: Call)
    requires c.HeartbeatCall?
    ensures var p := Program(c);
            && |p| == 12
            && p[5] == RereadDiscovery && p[6] == RereadContains && p[7] == Emit(Registration)
            && p[8] == RereadRuntime && p[9] == Emit(RuntimeChanged) && p[10] == WatchReadiness
                && p[11] == Emit(Readiness)
  {}

  lemma FrameListing(c: Call)
    requires c.FrameCall?
    ensures var p := Program(c);
            && |p| == (if c.packet then 10 else 9)
            && p[0] == ReadContains && p[1] == ReadDiscovery
            && (c.packet ==> p[2] == CheckType && p[3] == Admit && p[4] == Execute)
            && (!c.packet ==> p[2] == Execute && p[3] == Admit)
  {}

  lemma FrameTailListing(c: Call, i: nat)
    requires c.FrameCall? && i == (if c.packet then 5 else 4)
    ensures var p := Program(c);
            && |p| == i + 5
            && p[i] == RereadDiscovery && p[i + 1] == RereadContains && p[i + 2] == Emit(Registration)
            && p[i + 3] == WatchReadiness && p[i + 4] == Emit(Readiness)
  {}

  lemma ForgetIsProgram(p: Plane, c: Call, e: Conditions)
    requires c.ForgetCall?
    ensures Handle(p, c, e) == Finish(p, c, 0, BLANK, e, e.appends)
  {
    hide R.Apply, R.ReturnsEarly, R.Get, R.Guard, R.Contains, Mutate, Executed, Publish, Finish, I.AfterForget, Program;
    hide Perform;
    ForgetListing(c);
    OneCheck(p, c, 0, CheckRevision, BLANK, e, e.appends);
    OneCheck(p, c, 1, CheckContains, BLANK, e, e.appends);
    OneCheck(p, c, 2, CheckRetired, BLANK, e, e.appends);
    OneCheck(p, c, 3, CheckOffline, BLANK, e, e.appends);
    OneCommand(p, c, 4, BLANK, e, e.appends);
    if Mutate(p, CommandOf(c), e).Some? {
      var q := Mutate(p, CommandOf(c), e).value;
      ForgetTail(q, c, BLANK.(result := R.Get(q.registry, c.id)), e);
    }
  }

  lemma OneDrop(p: Plane, c: Call, pc: nat, n: Notes, e: Conditions, appends: nat)
    requires pc < |Program(c)| && Program(c)[pc] == DropRuntime
    ensures Finish(p, c, pc, n, e, appends) ==
              Finish(p.(ingress := I.AfterForget(p.ingress, SourceOf(c))), c, pc + 1, n, e, appends)
  {
    hide Program, I.AfterForget;
  }

  lemma ForgetTail(q: Plane, c: Call, n: Notes, e: Conditions)
    requires c.ForgetCall?
    ensures var r := q.(ingress := I.AfterForget(q.ingress, c.id));
            Finish(q, c, 5, n, e, e.appends) == Publish(Publish(Progress(r, e.appends, true), e.readiness), true)
  {
    hide Publish, Finish, I.AfterForget, Program, Perform;
    ForgetListing(c);
    OneDrop(q, c, 5, n, e, e.appends);
    var r := q.(ingress := I.AfterForget(q.ingress, c.id));
    OneReading(r, c, 6, WatchReadiness, n, e, e.appends);
    var m := n.(readiness := e.readiness);
    OneTest(r, c, 7, Readiness, m, e, e.appends);
    var x := Publish(Progress(r, e.appends, true), e.readiness);
    StoppedStays(x, true);
    if x.running {
      LastTest(x, c, 8, Forgotten, m, e);
    }
  }

  /** The last test of a program. */
  lemma LastTest(x: Progress, c: Call, pc: nat, k: Kind, n: Notes, e: Conditions)
    requires x.running && pc + 1 == |Program(c)| && Program(c)[pc] == Emit(k)
    ensures Finish(x.plane, c, pc, n, e, x.appends) == Publish(x, Due(k, n))
  {
    hide Finish, Publish, Program, Due;
    PublishKeeps(x, Due(k, n));
    OneTest(x.plane, c, pc, k, n, e, x.appends);
    assert x == Progress(x.plane, x.appends, true);
    var y := Publish(x, Due(k, n));
    if y.running {
      Ended(y.plane, c, n, e, y.appends);
    }
  }

  /** Once an append has failed nothing more is published. */
  lemma StoppedStays(x: Progress, when: bool)
    ensures !x.running ==> Publish(x, when) == x
  {}

  lemma PatchIsProgram(p: Plane, c: Call, e: Conditions)
    requires c.PatchCall?
    ensures Handle(p, c, e) == Finish(p, c, 0, BLANK, e, e.appends)
  {
    hide R.Apply, R.ReturnsEarly, R.Get, R.Contains, R.ControlRevision, Mutate, Executed, Publish, Due, Finish, Perform;
    var n0 := BLANK.(metadata := R.Get(p.registry, c.id));
    var n1 := n0.(control := R.ControlRevision(p.registry, c.id));
    var n := n1.(contains := R.Contains(p.registry, c.id));
    OneReading(p, c, 0, ReadMetadata, BLANK, e, e.appends);
    OneReading(p, c, 1, ReadControl, n0, e, e.appends);
    OneReading(p, c, 2, ReadContains, n1, e, e.appends);
    OneCommand(p, c, 3, n, e, e.appends);
    if Mutate(p, CommandOf(c), e).Some? {
      var q := Mutate(p, CommandOf(c), e).value;
      var o := n.(result := R.Get(q.registry, c.id));
      var m := o.(controlAfter := R.ControlRevision(q.registry, c.id));
      PatchTail(q, c, o, m, e);
      DueEarlier(o, m);
    }
  }

  lemma DueEarlier(o: Notes, m: Notes)
    requires m == o.(controlAfter := m.controlAfter)
    ensures Due(Registered, o) == Due(Registered, m) && Due(MetadataChanged, o) == Due(MetadataChanged, m)
  {}

  lemma PatchTail(q: Plane, c: Call, o: Notes, m: Notes, e: Conditions)
    requires c.PatchCall? && m == o.(controlAfter := R.ControlRevision(q.registry, c.id))
    ensures var x := Publish(Progress(q, e.appends, true), Due(Registered, o));
            Finish(q, c, 4, o, e, e.appends) ==
              Publish(Publish(x, Due(MetadataChanged, o)), Due(ControlChanged, m))
  {
    hide R.ControlRevision, Due, Finish, Publish, Program, Perform;
    PatchListing(c);
    OneTest(q, c, 4, Registered, o, e, e.appends);
    var x := Publish(Progress(q, e.appends, true), Due(Registered, o));
    PublishKeeps(Progress(q, e.appends, true), Due(Registered, o));
    StoppedStays(x, Due(MetadataChanged, o));
    if x.running {
      OneTest(x.plane, c, 5, MetadataChanged, o, e, x.appends);
    }
    var y := Publish(x, Due(MetadataChanged, o));
    PublishKeeps(x, Due(MetadataChanged, o));
    StoppedStays(y, Due(ControlChanged, m));
    if y.running {
      OneReading(y.plane, c, 6, RereadControl, o, e, y.appends);
      LastTest(y, c, 7, ControlChanged, m, e);
    }
  }

  /** Publishing touches the high-water revision alone, and a stopped handler stays so. */
  lemma PublishKeeps(x: Progress, when: bool)
    ensures var y := Publish(x, when);
            && y.plane == x.plane.(highWater := y.plane.highWater)
            && (y.running ==> x.running && x == Progress(x.plane, x.appends, true))
  {}

  /** From the second look at the registration on, a heartbeat. */
  lemma HeartbeatTail(q: Plane, c: Call, n: Notes, before: R.State, ingress: I.State, e: Conditions)
    requires c.HeartbeatCall? && n.contains == R.Contains(before, c.hb.sourceId)
    requires n.discovery == Found(before.discovery, c.hb.sourceId) && n.runtime == Found(ingress.sources, c.hb.sourceId)
    ensures var x := EmitRegistration(Progress(q, e.appends, true), before, c.hb.sourceId);
            Finish(q, c, 5, n, e, e.appends) == Publish(EmitRuntime(x, ingress, c.hb.sourceId), e.readiness)
  {
    hide R.Contains, Finish, Publish, EmitRegistration, RuntimeDue, Program, Perform;
    HeartbeatTailListing(c);
    var x := EmitRegistration(Progress(q, e.appends, true), before, c.hb.sourceId);
    SecondLooks(q, c, 5, n, before, c.hb.sourceId, e);
    if x.running {
      RuntimeTail(x, c, LookedAgain(q, n, c.hb.sourceId), ingress, e);
    } else {
      StoppedStays(x, RuntimeDue(n.runtime, Found(x.plane.ingress.sources, c.hb.sourceId)));
      StoppedStays(x, e.readiness);
    }
  }

  function LookedAgain(q: Plane, n: Notes, id: string): Notes {
    n.(discoveryAfter := Found(q.registry.discovery, id), containsAfter := R.Contains(q.registry, id))
  }

  /** The second look at the registration and its test. */
  lemma SecondLooks(q: Plane, c: Call, pc: nat, n: Notes, before: R.State, id: string, e: Conditions)
    requires pc + 3 <= |Program(c)| && id == SourceOf(c)
    requires Program(c)[pc] == RereadDiscovery && Program(c)[pc + 1] == RereadContains
    requires Program(c)[pc + 2] == Emit(Registration)
    requires n.contains == R.Contains(before, id) && n.discovery == Found(before.discovery, id)
    ensures var x := EmitRegistration(Progress(q, e.appends, true), before, id);
            Finish(q, c, pc, n, e, e.appends) ==
              if x.running then Finish(x.plane, c, pc + 3, LookedAgain(q, n, id), e, x.appends) else x
  {
    hide R.Contains, Finish, Publish, RegistrationDue, Program, Perform;
    OneReading(q, c, pc, RereadDiscovery, n, e, e.appends);
    OneReading(q, c, pc + 1, RereadContains, n.(discoveryAfter := Found(q.registry.discovery, id)), e, e.appends);
    OneTest(q, c, pc + 2, Registration, LookedAgain(q, n, id), e, e.appends);
  }

  /** From the second look at the runtime on. */
  lemma RuntimeTail(x: Progress, c: Call, n: Notes, ingress: I.State, e: Conditions)
    requires c.HeartbeatCall? && x.running && n.runtime == Found(ingress.sources, c.hb.sourceId)
    ensures Finish(x.plane, c, 8, n, e, x.appends) ==
              Publish(EmitRuntime(x, ingress, c.hb.sourceId), e.readiness)
  {
    hide Finish, Publish, RuntimeDue, Program, Perform;
    HeartbeatTailListing(c);
    var m := n.(runtimeAfter := Found(x.plane.ingress.sources, c.hb.sourceId));
    OneReading(x.plane, c, 8, RereadRuntime, n, e, x.appends);
    OneTest(x.plane, c, 9, RuntimeChanged, m, e, x.appends);
    PublishKeeps(x, Due(RuntimeChanged, m));
    var y := EmitRuntime(x, ingress, c.hb.sourceId);
    if y.running {
      EndWithReadiness(y, c, 10, m, e);
    } else {
      StoppedStays(y, e.readiness);
    }
  }

  lemma EndWithReadiness(x: Progress, c: Call, pc: nat, n: Notes, e: Conditions)
    requires x.running && pc + 2 == |Program(c)| && Program(c)[pc] == WatchReadiness
             && Program(c)[pc + 1] == Emit(Readiness)
    ensures Finish(x.plane, c, pc, n, e, x.appends) == Publish(x, e.readiness)
  {
    hide Finish, Publish, Program, Perform;
    var m := n.(readiness := e.readiness);
    OneReading(x.plane, c, pc, WatchReadiness, n, e, x.appends);
    LastTest(x, c, pc + 1, Readiness, m, e);
  }

  lemma HeartbeatIsProgram(p: Plane, c: Call, e: Conditions)
    requires c.HeartbeatCall?
    ensures Handle(p, c, e) == Finish(p, c, 0, BLANK, e, e.appends)
  {
    hide R.Apply, R.ReturnsEarly, R.Get, R.Contains, Mutate, Executed, Publish, Finish, I.AfterHeartbeat, Program;
    hide RegistrationDue, RuntimeDue;
    HeartbeatListing(c);
    var id := c.hb.sourceId;
    var n0 := BLANK.(contains := R.Contains(p.registry, id));
    var n1 := n0.(discovery := Found(p.registry.discovery, id));
    var n := n1.(runtime := Found(p.ingress.sources, id));
    OneReading(p, c, 0, ReadContains, BLANK, e, e.appends);
    OneReading(p, c, 1, ReadDiscovery, n0, e, e.appends);
    OneReading(p, c, 2, ReadRuntime, n1, e, e.appends);
    OneCommand(p, c, 3, n, e, e.appends);
    if Mutate(p, CommandOf(c), e).Some? {
      var q := Mutate(p, CommandOf(c), e).value;
      var m := n.(result := R.Get(q.registry, id));
      OneMore(q, c, 4, Beat, m, e, e.appends);
      if c.hb.capabilities.Some? {
        HeartbeatTail(q.(ingress := I.AfterHeartbeat(q.ingress, c.hb, e.now)), c, m, p.registry, p.ingress, e);
      }
    }
  }

  /** From the second look at the registration on, a frame. */
  lemma FrameTail(q: Plane, c: Call, pc: nat, n: Notes, before: R.State, e: Conditions)
    requires c.FrameCall? && n.contains == R.Contains(before, c.f.sourceId) && pc == (if c.packet then 5 else 4)
    requires n.discovery == Found(before.discovery, c.f.sourceId)
    ensures Finish(q, c, pc, n, e, e.appends) ==
              Publish(EmitRegistration(Progress(q, e.appends, true), before, c.f.sourceId), e.readiness)
  {
    hide R.Contains, Finish, Publish, EmitRegistration, Program, Perform;
    FrameTailListing(c, pc);
    var x := EmitRegistration(Progress(q, e.appends, true), before, c.f.sourceId);
    SecondLooks(q, c, pc, n, before, c.f.sourceId, e);
    if x.running {
      EndWithReadiness(x, c, pc + 3, LookedAgain(q, n, c.f.sourceId), e);
    } else {
      StoppedStays(x, e.readiness);
    }
  }

  /** A frame's admission when nobody else holds or takes the slot. */
  lemma AdmissionAlone(p: Plane, c: Call, n: Notes, e: Conditions)
    requires c.FrameCall?
    ensures var turn := Perform(p.registry, p.ingress, c, Admit, n,
            Env(e.now, e.saved, p.ingress.processing, e.readiness));
            turn == Turn(p.registry, I.AfterFrame(p.ingress, c.f, c.maxPayload, c.perception, e.now), n, true,
                         I.Refusal(p.ingress, c.f, c.maxPayload, c.perception).Some?)
  {}

  lemma EncodedIsProgram(p: Plane, c: Call, e: Conditions)
    requires c.FrameCall? && !c.packet
    ensures Handle(p, c, e) == Finish(p, c, 0, BLANK, e, e.appends)
  {
    hide R.Apply, R.ReturnsEarly, R.Get, R.Contains, Mutate, Executed, Publish, Finish, I.AfterFrame, I.Refusal,
        Program;
    hide RegistrationDue;
    FrameListing(c);
    var id := c.f.sourceId;
    var n0 := BLANK.(contains := R.Contains(p.registry, id));
    var n := n0.(discovery := Found(p.registry.discovery, id));
    OneReading(p, c, 0, ReadContains, BLANK, e, e.appends);
    OneReading(p, c, 1, ReadDiscovery, n0, e, e.appends);
    OneCommand(p, c, 2, n, e, e.appends);
    if Mutate(p, CommandOf(c), e).Some? {
      var q := Mutate(p, CommandOf(c), e).value;
      var m := n.(result := R.Get(q.registry, id));
      OneMore(q, c, 3, Admit, m, e, e.appends);
      AdmissionAlone(q, c, m, e);
      FrameTail(q.(ingress := I.AfterFrame(q.ingress, c.f, c.maxPayload, c.perception, e.now)), c, 4, m, p.registry, e);
    }
  }

  lemma PacketIsProgram(p: Plane, c: Call, e: Conditions)
    requires c.FrameCall? && c.packet
    ensures Handle(p, c, e) == Finish(p, c, 0, BLANK, e, e.appends)
  {
    hide R.Apply, R.ReturnsEarly, R.Get, R.Contains, Mutate, Executed, Publish, Finish, I.AfterFrame, I.Refusal,
        Program;
    hide RegistrationDue;
    FrameListing(c);
    var id := c.f.sourceId;
    var n0 := BLANK.(contains := R.Contains(p.registry, id));
    var n := n0.(discovery := Found(p.registry.discovery, id));
    OneReading(p, c, 0, ReadContains, BLANK, e, e.appends);
    OneReading(p, c, 1, ReadDiscovery, n0, e, e.appends);
    OneMore(p, c, 2, CheckType, n, e, e.appends);
    OneMore(p, c, 3, Admit, n, e, e.appends);
    AdmissionAlone(p, c, n, e);
    var q := p.(ingress := I.AfterFrame(p.ingress, c.f, c.maxPayload, c.perception, e.now));
    OneCommand(q, c, 4, n, e, e.appends);
    if Mutate(q, CommandOf(c), e).Some? {
      var r := Mutate(q, CommandOf(c), e).value;
      FrameTail(r, c, 5, n.(result := R.Get(r.registry, id)), p.registry, e);
    }
  }

  /** The closed forms above are the handlers' programs run with nothing in between. */
  lemma HandlersAreThePrograms(p: Plane, c: Call, e: Conditions)
    ensures Handle(p, c, e) == Finish(p, c, 0, BLANK, e, e.appends)
  {
    hide Handle, Finish;
    match c
    case RetireCall(_, _) => LifecycleIsProgram(p, c, e);
    case RestoreCall(_, _) => LifecycleIsProgram(p, c, e);
    case ForgetCall(_, _, _) => ForgetIsProgram(p, c, e);
    case PatchCall(_, _, _) => PatchIsProgram(p, c, e);
    case HeartbeatCall(_, _) => HeartbeatIsProgram(p, c, e);
    case FrameCall(_, _, _, _, _) =>
      if c.packet {
        PacketIsProgram(p, c, e);
      } else {
        EncodedIsProgram(p, c, e);
      }
  }

  // ---------------------------------------------------------------- what every call keeps

  /** Runtime state that a heartbeat has written belongs to a discovered source, and the
      journal is never ahead. */
  ghost predicate Sound(p: Plane) {
    && R.Lawful(p.registry)
    && p.highWater <= p.registry.revision
    && (forall id :: id in p.ingress.sources && p.ingress.sources[id].schemaId.Some? ==> id in p.registry.discovery)
  }

  lemma MutateKeepsLaw(p: Plane, c: R.Command, e: Conditions)
    requires R.Lawful(p.registry) && Mutate(p, c, e).Some?
    ensures var q := Mutate(p, c, e).value;
            && R.Lawful(q.registry) && p.registry.revision <= q.registry.revision
            && q.ingress == p.ingress && q.highWater == p.highWater
            && (!c.Forget? ==> p.registry.discovery.Keys <= q.registry.discovery.Keys)
            && (c.Forget? ==> p.registry.discovery.Keys - {c.id} <= q.registry.discovery.Keys)
  {
    R.CommandKeepsLaw(p.registry, c, e.now);
  }

  lemma EmitKeepsSound(x: Progress, when: bool)
    requires Sound(x.plane)
    ensures Sound(Publish(x, when).plane)
  {}

  /** The observation a heartbeat begins with is what makes its runtime state sound. */
  lemma ObservedIsDiscovered(p: Plane, id: string, seen: R.Observation, e: Conditions)
    requires Sound(p) && Mutate(p, R.Observe(id, seen), e).Some?
    ensures var q := Mutate(p, R.Observe(id, seen), e).value;
            Sound(q) && id in q.registry.discovery && q.ingress == p.ingress
  {
    MutateKeepsLaw(p, R.Observe(id, seen), e);
  }

  lemma HeartbeatKeepsSound(p: Plane, hb: I.Heartbeat, now: int)
    requires Sound(p) && hb.sourceId in p.registry.discovery
    ensures Sound(p.(ingress := I.AfterHeartbeat(p.ingress, hb, now)))
  {}

  lemma FrameKeepsSound(p: Plane, f: I.Frame, maxPayload: nat, perception: I.Perception, now: int)
    requires Sound(p)
    ensures Sound(p.(ingress := I.AfterFrame(p.ingress, f, maxPayload, perception, now)))
  {}

  lemma RegistrationKeepsSound(x: Progress, before: R.State, id: string)
    requires Sound(x.plane)
    ensures Sound(EmitRegistration(x, before, id).plane)
  {}

  lemma RuntimeKeepsSound(x: Progress, before: I.State, id: string)
    requires Sound(x.plane)
    ensures Sound(EmitRuntime(x, before, id).plane)
  {}

  lemma HeartbeatCallKeepsSound(p: Plane, hb: I.Heartbeat, seen: R.Observation, e: Conditions)
    requires Sound(p)
    ensures Sound(HeartbeatHandler(p, hb, seen, e).plane)
  {
    if Mutate(p, R.Observe(hb.sourceId, seen), e).Some? {
      ObservedIsDiscovered(p, hb.sourceId, seen, e);
      var q := Mutate(p, R.Observe(hb.sourceId, seen), e).value;
      HeartbeatKeepsSound(q, hb, e.now);
      var x := Progress(q.(ingress := I.AfterHeartbeat(q.ingress, hb, e.now)), e.appends, true);
      RegistrationKeepsSound(x, p.registry, hb.sourceId);
      var y := EmitRegistration(x, p.registry, hb.sourceId);
      RuntimeKeepsSound(y, p.ingress, hb.sourceId);
      EmitKeepsSound(EmitRuntime(y, p.ingress, hb.sourceId), e.readiness);
    }
  }

  lemma FrameCallKeepsSound(p: Plane, c: Call, e: Conditions)
    requires Sound(p) && c.FrameCall?
    ensures Sound(Handle(p, c, e).plane)
  {
    var id := c.f.sourceId;
    if c.packet {
      var q := p.(ingress := I.AfterFrame(p.ingress, c.f, c.maxPayload, c.perception, e.now));
      FrameKeepsSound(p, c.f, c.maxPayload, c.perception, e.now);
      if Mutate(q, R.Observe(id, c.seen), e).Some? {
        ObservedIsDiscovered(q, id, c.seen, e);
        var x := Progress(Mutate(q, R.Observe(id, c.seen), e).value, e.appends, true);
        RegistrationKeepsSound(x, p.registry, id);
        EmitKeepsSound(EmitRegistration(x, p.registry, id), e.readiness);
      }
    } else if Mutate(p, R.Observe(id, c.seen), e).Some? {
      ObservedIsDiscovered(p, id, c.seen, e);
      var q := Mutate(p, R.Observe(id, c.seen), e).value;
      FrameKeepsSound(q, c.f, c.maxPayload, c.perception, e.now);
      var r := q.(ingress := I.AfterFrame(q.ingress, c.f, c.maxPayload, c.perception, e.now));
      var x := Progress(r, e.appends, true);
      RegistrationKeepsSound(x, p.registry, id);
      EmitKeepsSound(EmitRegistration(x, p.registry, id), e.readiness);
    }
  }

  lemma ProducerKeepsSound(p: Plane, c: Call, e: Conditions)
    requires Sound(p) && (c.HeartbeatCall? || c.FrameCall?)
    ensures Sound(Handle(p, c, e).plane)
  {
    if c.HeartbeatCall? {
      HeartbeatCallKeepsSound(p, c.hb, c.seen, e);
    } else {
      FrameCallKeepsSound(p, c, e);
    }
  }

  lemma ForgottenKeepsSound(p: Plane, id: string, q: Plane)
    requires Sound(p)
    requires R.Lawful(q.registry) && q.ingress == p.ingress && q.highWater == p.highWater
    requires p.highWater <= q.registry.revision
    requires p.registry.discovery.Keys - {id} <= q.registry.discovery.Keys
    ensures Sound(q.(ingress := I.AfterForget(q.ingress, id)))
  {}

  lemma PatchKeepsSound(p: Plane, id: string, patch: R.Patch, expected: Option<int>, e: Conditions)
    requires Sound(p)
    ensures Sound(PatchHandler(p, id, patch, expected, e).plane)
  {
    hide Publish;
    if Mutate(p, R.Edit(id, patch, expected), e).Some? {
      MutateKeepsLaw(p, R.Edit(id, patch, expected), e);
      var q := Mutate(p, R.Edit(id, patch, expected), e).value;
      forall x: Progress, when: bool | Sound(x.plane) ensures Sound(Publish(x, when).plane) {
        EmitKeepsSound(x, when);
      }
      assert Sound(Progress(q, e.appends, true).plane);
    }
  }

  lemma OperatorKeepsSound(p: Plane, c: Call, e: Conditions)
    requires Sound(p) && !c.HeartbeatCall? && !c.FrameCall?
    ensures Sound(Handle(p, c, e).plane)
  {
    if Mutate(p, CommandOf(c), e).Some? {
      MutateKeepsLaw(p, CommandOf(c), e);
      var q := Mutate(p, CommandOf(c), e).value;
      match c
      case RetireCall(_, _) => assert Sound(q);
      case RestoreCall(_, _) => assert Sound(q);
      case ForgetCall(id, _, _) => ForgottenKeepsSound(p, id, q);
      case PatchCall(id, patch, expected) => PatchKeepsSound(p, id, patch, expected, e);
    }
  }

  lemma {:induction false} CallsKeepSound(p: Plane, calls: seq<(Call, Conditions)>)
    requires Sound(p)
    ensures Sound(AfterCalls(p, calls))
  {
    if calls != [] {
      CallsKeepSound(p, calls[..|calls| - 1]);
      var q := AfterCalls(p, calls[..|calls| - 1]);
      var (c, e) := calls[|calls| - 1];
      if c.HeartbeatCall? || c.FrameCall? {
        ProducerKeepsSound(q, c, e);
      } else {
        OperatorKeepsSound(q, c, e);
      }
    }
  }

  /** Calls one after another, whether or not they are answered. */
  function AfterCalls(p: Plane, calls: seq<(Call, Conditions)>): Plane {
    if calls == [] then p
    else Handle(AfterCalls(p, calls[..|calls| - 1]), calls[|calls| - 1].0, calls[|calls| - 1].1).plane
  }

  // ---------------------------------------------------------------- who keeps the feed level

  const START := Plane(R.EMPTY, I.EMPTY, 0)

  lemma AnsweredPatchSynced(p: Plane, id: string, patch: R.Patch, expected: Option<int>, e: Conditions)
    requires Consistency(p) == Synced && PatchHandler(p, id, patch, expected, e).running
    ensures Consistency(PatchHandler(p, id, patch, expected, e).plane) == Synced
  {}

  lemma AnsweredHeartbeatSynced(p: Plane, hb: I.Heartbeat, seen: R.Observation, e: Conditions)
    requires Sound(p) && Consistency(p) == Synced && HeartbeatHandler(p, hb, seen, e).running
    ensures Consistency(HeartbeatHandler(p, hb, seen, e).plane) == Synced
  {
    var q := Mutate(p, R.Observe(hb.sourceId, seen), e).value;
    assert q.registry == R.Observed(p.registry, hb.sourceId, seen, e.now);
  }

  /** After any history of calls, a patch, retire, restore or forget that is answered, and a
      heartbeat that is answered with a receipt, keeps a synced feed synced. */
  lemma AnsweredCallsStaySynced(p: Plane, c: Call, e: Conditions)
    requires Sound(p) && Consistency(p) == Synced
    requires !c.FrameCall? && Handle(p, c, e).running
    ensures Consistency(Handle(p, c, e).plane) == Synced
  {
    match c
    case RetireCall(_, _) =>
    case RestoreCall(_, _) =>
    case ForgetCall(_, _, _) =>
    case PatchCall(id, patch, expected) => AnsweredPatchSynced(p, id, patch, expected, e);
    case HeartbeatCall(hb, seen) => AnsweredHeartbeatSynced(p, hb, seen, e);
  }

  lemma {:induction false} ReachableCallsStaySynced(calls: seq<(Call, Conditions)>, c: Call, e: Conditions)
    requires Consistency(AfterCalls(START, calls)) == Synced
    requires !c.FrameCall? && Handle(AfterCalls(START, calls), c, e).running
    ensures Consistency(Handle(AfterCalls(START, calls), c, e).plane) == Synced
  {
    CallsKeepSound(START, calls);
    AnsweredCallsStaySynced(AfterCalls(START, calls), c, e);
  }

  /** An answered frame leaves a synced feed behind exactly when the source was known by
      metadata only and the readiness projection did not change: the registry moves, and
      no event says so. */
  lemma AnsweredFrameSynced(p: Plane, c: Call, e: Conditions)
    requires Sound(p) && Consistency(p) == Synced
    requires c.FrameCall? && Handle(p, c, e).running
    ensures var id := c.f.sourceId;
            Consistency(Handle(p, c, e).plane) ==
            if id in p.registry.entries && id !in p.registry.discovery && !e.readiness then RegistryAhead else Synced
  {
    var id := c.f.sourceId;
    var s := R.Observed(p.registry, id, c.seen, e.now);
    var q := if c.packet then p.(ingress := I.AfterFrame(p.ingress, c.f, c.maxPayload, c.perception, e.now)) else p;
    assert Mutate(q, R.Observe(id, c.seen), e).value.registry == s;
  }

  /** An encoded frame refused after it was observed leaves the feed behind exactly when
      the observation was news. */
  lemma RefusedFrameSynced(p: Plane, c: Call, e: Conditions)
    requires Sound(p) && Consistency(p) == Synced
    requires c.FrameCall? && !c.packet && Mutate(p, R.Observe(c.f.sourceId, c.seen), e).Some?
    requires I.Refusal(p.ingress, c.f, c.maxPayload, c.perception).Some?
    ensures !Handle(p, c, e).running
    ensures Consistency(Handle(p, c, e).plane) ==
            if R.SemanticChange(p.registry, c.f.sourceId, c.seen, e.now) then RegistryAhead else Synced
  {
    var s := R.Observed(p.registry, c.f.sourceId, c.seen, e.now);
    assert Mutate(p, R.Observe(c.f.sourceId, c.seen), e).value.registry == s;
  }
}
