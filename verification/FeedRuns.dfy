/** Runs of the interleaved handlers that end where a reader of the feed does not expect it:
    behind the registry although every handler was answered, and past an event that a
    bootstrap at cursor zero never sees. */
module FeedRuns {
  import opened Wrappers
  import R = SensorRegistry
  import opened HandlerProgram
  import opened ChangePlane
  import opened ChangeJournal

  ghost predicate Reached(capacity: nat, steps: seq<Step>, w: World) {
    Feasible(capacity, steps) && Run(capacity, steps) == w
  }

  lemma Extend(capacity: nat, before: seq<Step>, v: World, s: Step) returns (steps: seq<Step>, w: World)
    requires Reached(capacity, before, v) && Enabled(v, s)
    ensures Reached(capacity, steps, w) && w == Next(v, s)
  {
    hide Next, Enabled;
    steps := before + [s];
    assert steps[..|before|] == before;
    w := Next(v, s);
  }

  function At(now: int): Env {
    Env(now, true, false, false)
  }

  /** Nothing but one handler has changed. */
  predicate OnlyHandler(v: World, w: World, t: nat) {
    t in w.handlers && w == v.(handlers := v.handlers[t := w.handlers[t]])
  }

  function Noting(h: Handler, s: R.State, a: Action): Handler {
    var id := SourceOf(h.call);
    var n := h.notes;
    h.(pc := h.pc + 1,
       notes := if a.ReadMetadata? then n.(metadata := R.Get(s, id))
                else if a.ReadControl? then n.(control := R.ControlRevision(s, id))
                else if a.ReadContains? then n.(contains := R.Contains(s, id))
                else n.(controlAfter := R.ControlRevision(s, id)))
  }

  /** A reading changes nothing but the handler's notes. */
  lemma Note(capacity: nat, before: seq<Step>, v: World, t: nat, a: Action) returns (steps: seq<Step>, w: World)
    requires Reached(capacity, before, v) && v.history != [] && t in v.handlers
    requires a.ReadMetadata? || a.ReadControl? || a.ReadContains? || a.RereadControl?
    requires Running(v.handlers[t]) && v.handlers[t].read.None? && Program(v.handlers[t].call)[v.handlers[t].pc] == a
    ensures Reached(capacity, steps, w) && OnlyHandler(v, w, t)
    ensures w.handlers[t] == Noting(v.handlers[t], Registry(v), a)
  {
    hide Reached, Program, R.Get, R.Contains, R.ControlRevision;
    steps, w := Extend(capacity, before, v, Advance(t, At(0)));
  }

  lemma Arrive(capacity: nat, before: seq<Step>, v: World, t: nat, c: Call) returns (steps: seq<Step>, w: World)
    requires Reached(capacity, before, v) && v.history != [] && t !in v.handlers && Operator(c)
    ensures Reached(capacity, steps, w) && OnlyHandler(v, w, t) && w.handlers[t] == Fresh(c, Registry(v).revision)
  {
    hide Reached, Program;
    steps, w := Extend(capacity, before, v, Begin(t, c));
  }

  /** A retire or restore begins and reads the metadata. */
  lemma Look(capacity: nat, before: seq<Step>, v: World, t: nat, c: Call) returns (steps: seq<Step>, w: World)
    requires Reached(capacity, before, v) && v.history != [] && t !in v.handlers
    requires c.RetireCall? || c.RestoreCall?
    ensures Reached(capacity, steps, w) && OnlyHandler(v, w, t)
    ensures w.handlers[t] == Fresh(c, Registry(v).revision).(pc := 1,
            notes := BLANK.(metadata := R.Get(Registry(v), c.id)))
  {
    hide Reached;
    steps, w := Arrive(capacity, before, v, t, c);
    steps, w := Note(capacity, steps, w, t, ReadMetadata);
  }

  /** Its command goes through. */
  lemma Move(capacity: nat, before: seq<Step>, v: World, t: nat, now: int) returns (steps: seq<Step>, w: World)
    requires Reached(capacity, before, v) && v.history != [] && t in v.handlers
    requires !v.handlers[t].failed && v.handlers[t].read.None? && Operator(v.handlers[t].call)
    requires v.handlers[t].pc < |Program(v.handlers[t].call)| && Program(v.handlers[t].call)[v.handlers[t].pc].Execute?
    requires R.Apply(Registry(v), CommandOf(v.handlers[t].call), now).Ok?
    requires !R.ReturnsEarly(Registry(v), CommandOf(v.handlers[t].call))
    ensures Reached(capacity, steps, w)
    ensures var h, r := v.handlers[t], R.Apply(Registry(v), CommandOf(v.handlers[t].call), now).value;
            && t in w.handlers
            && w == v.(history := v.history + [r], handlers := v.handlers[t := w.handlers[t]], mover := w.mover)
            && w.handlers[t].call == h.call && w.handlers[t].pc == h.pc + 1 && !w.handlers[t].failed
            && w.handlers[t].read.None?
            && w.handlers[t].notes == h.notes.(result := R.Get(r, h.call.id))
  {
    hide Reached, R.Apply, R.ReturnsEarly, Program;
    steps, w := Extend(capacity, before, v, Advance(t, At(now)));
  }

  /** A test that is not due is passed over. */
  lemma Skip(capacity: nat, before: seq<Step>, v: World, t: nat, k: Kind) returns (steps: seq<Step>, w: World)
    requires Reached(capacity, before, v) && v.history != [] && t in v.handlers
    requires Running(v.handlers[t]) && v.handlers[t].read.None?
    requires Program(v.handlers[t].call)[v.handlers[t].pc] == Emit(k) && !Due(k, v.handlers[t].notes)
    ensures Reached(capacity, steps, w) && OnlyHandler(v, w, t)
    ensures w.handlers[t] == v.handlers[t].(pc := v.handlers[t].pc + 1)
  {
    hide Reached, Program, Due;
    steps, w := Extend(capacity, before, v, Advance(t, At(0)));
  }

  /** A test that is due, and its append. */
  lemma Tell(capacity: nat, before: seq<Step>, v: World, t: nat, k: Kind) returns (steps: seq<Step>, w: World)
    requires Reached(capacity, before, v) && v.history != [] && t in v.handlers
    requires Running(v.handlers[t]) && v.handlers[t].read.None?
    requires Program(v.handlers[t].call)[v.handlers[t].pc] == Emit(k) && Due(k, v.handlers[t].notes)
    ensures Reached(capacity, steps, w)
    ensures var e := Event(v.handlers[t].lastChange, Registry(v).revision);
            && t in w.handlers
            && w == v.(log := v.log + [e], items := Push(v.items, Entry(v.nextCursor, e), v.capacity),
                       nextCursor := v.nextCursor + 1, highWater := Max(v.highWater, Registry(v).revision),
                       handlers := v.handlers[t := w.handlers[t]])
            && w.handlers[t].call == v.handlers[t].call && w.handlers[t].pc == v.handlers[t].pc + 1
            && !w.handlers[t].failed && w.handlers[t].read.None? && w.handlers[t].notes == v.handlers[t].notes
  {
    hide Reached, Program, Due;
    steps, w := Extend(capacity, before, v, Advance(t, At(0)));
    steps, w := Extend(capacity, steps, w, AppendEvent(t, true));
  }

  /** One retire from the empty service, told of. */
  lemma FirstRetire(capacity: nat, before: seq<Step>, v: World, id: string) returns (steps: seq<Step>, w: World)
    requires R.ValidId(id) && Reached(capacity, before, v) && v == Start(capacity).(readers := v.readers)
    ensures Reached(capacity, steps, w) && w.history == [R.EMPTY, Retired1(id)] && w.readers == v.readers
    ensures w.handlers.Keys == {0} && Answered(w.handlers[0])
    ensures w.highWater == 1 && w.capacity == capacity && w.nextCursor == 2
    ensures |w.log| == 1 && w.items == Push([], Entry(1, w.log[0]), capacity)
  {
    hide Reached, Push, R.Apply, R.ReturnsEarly, R.Get;
    Applies(id);
    steps, w := Look(capacity, before, v, 0, RetireCall(id, None));
    steps, w := Move(capacity, steps, w, 0, 1);
    steps, w := Tell(capacity, steps, w, 0, Retired);
  }

  /** The three commands go through and are what they are called. */
  lemma Applies(id: string)
    requires R.ValidId(id)
    ensures !R.ReturnsEarly(R.EMPTY, R.Retire(id, None)) && R.Apply(R.EMPTY, R.Retire(id, None), 1) == Ok(Retired1(id))
    ensures R.Get(R.EMPTY, id).retiredAt.None? && R.Get(Retired1(id), id).retiredAt.Some? && Retired1(id).revision == 1
    ensures !R.ReturnsEarly(Retired1(id), R.Restore(id, None))
    ensures R.Apply(Retired1(id), R.Restore(id, None), 2) == Ok(Restored2(id))
    ensures R.Get(Restored2(id), id).retiredAt.None? && Restored2(id).revision == 2
    ensures !R.ReturnsEarly(Restored2(id), R.Retire(id, None))
    ensures R.Apply(Restored2(id), R.Retire(id, None), 3).Ok?
    ensures R.Apply(Restored2(id), R.Retire(id, None), 3).value.revision == 3
  {}

  /** A restore after it, told of, by a handler that has looked already. */
  lemma ThenRestore(capacity: nat, before: seq<Step>, v: World, id: string) returns (steps: seq<Step>, w: World)
    requires R.ValidId(id) && Reached(capacity, before, v) && v.history == [R.EMPTY, Retired1(id)]
    requires 2 !in v.handlers
    ensures Reached(capacity, steps, w) && w.history == [R.EMPTY, Retired1(id), Restored2(id)] && w.readers == v.readers
    ensures 2 in w.handlers && w.handlers == v.handlers[2 := w.handlers[2]] && Answered(w.handlers[2])
    ensures w.highWater == Max(v.highWater, 2) && w.capacity == v.capacity && w.nextCursor == v.nextCursor + 1
    ensures |w.log| == |v.log| + 1 && w.items == Push(v.items, Entry(v.nextCursor, w.log[|v.log|]), v.capacity)
  {
    hide Reached, Push, R.Apply, R.ReturnsEarly, R.Get;
    Applies(id);
    steps, w := Look(capacity, before, v, 2, RestoreCall(id, None));
    steps, w := Move(capacity, steps, w, 2, 2);
    steps, w := Tell(capacity, steps, w, 2, Restored);
  }

  lemma Begins(capacity: nat)
    ensures Reached(capacity, [], Start(capacity))
  {}

  /** The registry after the first retire, and after a restore that follows. */
  function Retired1(id: string): R.State
    requires R.ValidId(id)
  {
    R.Apply(R.EMPTY, R.Retire(id, None), 1).value
  }

  function Restored2(id: string): R.State
    requires R.ValidId(id)
  {
    R.Apply(Retired1(id), R.Restore(id, None), 2).value
  }

  /** A retire that read the metadata before a restore of the same sensor, and executes after
      it, finds nothing to tell of although it moves the registry. All three handlers are
      answered, and the feed stays behind. */
  lemma StaleRetireFallsBehind(capacity: nat, id: string) returns (steps: seq<Step>, w: World)
    requires capacity >= 1 && R.ValidId(id)
    ensures Reached(capacity, steps, w) && w.history != []
    ensures w.handlers.Keys == {0, 1, 2} && forall t :: t in w.handlers ==> Answered(w.handlers[t])
    ensures Registry(w).revision == 3 && w.highWater == 2
  {
    hide Reached, Push, R.Apply, R.ReturnsEarly, R.Get;
    Applies(id);
    Begins(capacity);
    steps, w := FirstRetire(capacity, [], Start(capacity), id);
    steps, w := Look(capacity, steps, w, 1, RetireCall(id, None));
    steps, w := ThenRestore(capacity, steps, w, id);
    steps, w := Move(capacity, steps, w, 1, 3);
    steps, w := Skip(capacity, steps, w, 1, Retired);
  }

  // ---------------------------------------------------------------- a patch that sets a name back

  function Naming(id: string, name: R.Field<string>): Call {
    PatchCall(id, R.Patch(name, R.Absent, R.Absent, R.Absent), None)
  }

  /** A patch begins and makes its three readings. */
  lemma LookThrice(capacity: nat, before: seq<Step>, v: World, t: nat, c: Call) returns (steps: seq<Step>, w: World)
    requires Reached(capacity, before, v) && v.history != [] && t !in v.handlers && c.PatchCall?
    ensures Reached(capacity, steps, w) && OnlyHandler(v, w, t)
    ensures var s := Registry(v);
            w.handlers[t] == Fresh(c, s.revision).(pc := 3, notes := BLANK.(
              metadata := R.Get(s, c.id), control := R.ControlRevision(s, c.id), contains := R.Contains(s, c.id)))
  {
    hide Reached, R.Get, R.Contains, R.ControlRevision;
    steps, w := Arrive(capacity, before, v, t, c);
    steps, w := Note(capacity, steps, w, t, ReadMetadata);
    steps, w := Note(capacity, steps, w, t, ReadControl);
    steps, w := Note(capacity, steps, w, t, ReadContains);
  }

  /** A patch that finds its control revision unchanged ends without its last event. */
  lemma EndPatch(capacity: nat, before: seq<Step>, v: World, t: nat) returns (steps: seq<Step>, w: World)
    requires Reached(capacity, before, v) && v.history != [] && t in v.handlers
    requires v.handlers[t].call.PatchCall? && v.handlers[t].pc == 6 && !v.handlers[t].failed && v.handlers[t].read.None?
    requires v.handlers[t].notes.metadata.enabled == v.handlers[t].notes.result.enabled
    requires v.handlers[t].notes.control == R.ControlRevision(Registry(v), v.handlers[t].call.id)
    ensures Reached(capacity, steps, w) && OnlyHandler(v, w, t) && Answered(w.handlers[t])
  {
    hide Reached;
    steps, w := Note(capacity, before, v, t, RereadControl);
    steps, w := Skip(capacity, steps, w, t, ControlChanged);
  }

  function Named2(id: string, name: string): R.State
    requires R.ValidId(id)
  {
    R.Apply(Retired1(id), CommandOf(Naming(id, R.Given(name))), 2).value
  }

  /** Both patches go through and move the revision, the second back to the name before. */
  lemma Names(id: string, name: string)
    requires R.ValidId(id) && R.Clean(name).Some?
    ensures var s, naming, back := Retired1(id), CommandOf(Naming(id, R.Given(name))), CommandOf(Naming(id, R.Null));
            && R.Apply(s, naming, 2) == Ok(Named2(id, name)) && !R.ReturnsEarly(s, naming)
            && R.Get(Named2(id, name), id) == R.Get(s, id).(displayName := R.Clean(name))
                && R.Get(s, id).displayName.None?
            && R.Apply(Named2(id, name), back, 3).Ok? && !R.ReturnsEarly(Named2(id, name), back)
            && R.Get(R.Apply(Named2(id, name), back, 3).value, id) == R.Get(s, id)
            && R.Apply(Named2(id, name), back, 3).value.revision == 3 && Named2(id, name).revision == 2
            && R.Contains(s, id) && R.ControlRevision(s, id) == 1 && R.ControlRevision(Named2(id, name), id) == 1
            && R.ControlRevision(R.Apply(Named2(id, name), back, 3).value, id) == 1
  {
    hide R.Clean;
  }

  /** Two patches have looked: one that clears the name, and one that sets it. */
  lemma BothLooked(capacity: nat, id: string, name: string) returns (steps: seq<Step>, w: World)
    requires capacity >= 1 && R.ValidId(id)
    ensures Reached(capacity, steps, w) && w.history == [R.EMPTY, Retired1(id)] && w.highWater == 1
    ensures w.handlers.Keys == {0, 1, 2} && Answered(w.handlers[0])
    ensures w.handlers[1] == Looked(id, R.Null) && w.handlers[2] == Looked(id, R.Given(name))
  {
    hide Reached, Push, R.Apply, R.Get, R.Contains, R.ControlRevision;
    Applies(id);
    Begins(capacity);
    steps, w := FirstRetire(capacity, [], Start(capacity), id);
    steps, w := LookThrice(capacity, steps, w, 1, Naming(id, R.Null));
    steps, w := LookThrice(capacity, steps, w, 2, Naming(id, R.Given(name)));
  }

  function Looked(id: string, name: R.Field<string>): Handler
    requires R.ValidId(id)
  {
    var s := Retired1(id);
    Fresh(Naming(id, name), s.revision).(pc := 3, notes := BLANK.(
      metadata := R.Get(s, id), control := R.ControlRevision(s, id), contains := R.Contains(s, id)))
  }

  /** The second of them goes through and is told of. */
  lemma NameSet(capacity: nat, id: string, name: string) returns (steps: seq<Step>, w: World)
    requires capacity >= 1 && R.ValidId(id) && R.Clean(name).Some?
    ensures Reached(capacity, steps, w) && w.history == [R.EMPTY, Retired1(id), Named2(id, name)]
    ensures w.handlers.Keys == {0, 1, 2} && Answered(w.handlers[0]) && Answered(w.handlers[2])
    ensures w.handlers[1] == Looked(id, R.Null) && w.highWater == 2
  {
    hide Reached, Push, R.Clean, R.Apply, R.ReturnsEarly, R.Get, R.Contains, R.ControlRevision;
    Names(id, name);
    steps, w := BothLooked(capacity, id, name);
    steps, w := Move(capacity, steps, w, 2, 2);
    steps, w := Skip(capacity, steps, w, 2, Registered);
    steps, w := Tell(capacity, steps, w, 2, MetadataChanged);
    steps, w := EndPatch(capacity, steps, w, 2);
  }

  /** A patch that sets a name back to what it was when the handler looked, after another
      patch had changed it, passes none of its tests although it moves the registry. */
  lemma PatchBackFallsBehind(capacity: nat, id: string, name: string) returns (steps: seq<Step>, w: World)
    requires capacity >= 1 && R.ValidId(id) && R.Clean(name).Some?
    ensures Reached(capacity, steps, w) && w.history != []
    ensures w.handlers.Keys == {0, 1, 2} && forall t :: t in w.handlers ==> Answered(w.handlers[t])
    ensures Registry(w).revision == 3 && w.highWater == 2
  {
    hide Reached, Push, R.Clean, R.Apply, R.ReturnsEarly, R.Get, R.Contains, R.ControlRevision;
    Names(id, name);
    steps, w := NameSet(capacity, id, name);
    steps, w := Move(capacity, steps, w, 1, 3);
    steps, w := Skip(capacity, steps, w, 1, Registered);
    steps, w := Skip(capacity, steps, w, 1, MetadataChanged);
    steps, w := EndPatch(capacity, steps, w, 1);
  }

  // ---------------------------------------------------------------- a bootstrap at cursor zero

  lemma BootstrapFirst() returns (steps: seq<Step>, w: World)
    ensures Reached(1, steps, w) && w == Start(1).(readers := map[0 := Sampled(0, 1, 1, [1])])
  {
    hide Reached;
    Begins(1);
    steps, w := Extend(1, [], Start(1), BeginSnapshot(0));
    steps, w := Extend(1, steps, w, ReadCursor(0));
    steps, w := Extend(1, steps, w, SampleRuntime(0));
    steps, w := Extend(1, steps, w, ReadRegistry(0));
    assert w.readers[0].registryAt == [1];
  }

  /** A bootstrap over an empty journal answers cursor zero. With room for one event, two
      events later a read from zero yields the second alone, and no gap: the retire that the
      snapshot does not show is never told of. */
  lemma CursorZeroCanMiss(id: string) returns (steps: seq<Step>, w: World)
    requires R.ValidId(id)
    ensures Reached(1, steps, w) && 0 in w.readers && w.readers[0] == Sampled(0, 1, 1, [1])
    ensures |w.log| == 2 && ReadWindow(w.items, 0, 64) == Batch([Entry(2, w.log[1])], 2, Some(2), Some(2), false, false)
  {
    hide Reached;
    steps, w := BootstrapFirst();
    steps, w := FirstRetire(1, steps, w, id);
    ghost var first := w.log[0];
    steps, w := ThenRestore(1, steps, w, id);
    OneLeft(first, w.log[1]);
  }

  lemma OneLeft(first: Event<nat>, second: Event<nat>)
    ensures var items := Push(Push([], Entry(1, first), 1), Entry(2, second), 1);
            ReadWindow(items, 0, 64) == Batch([Entry(2, second)], 2, Some(2), Some(2), false, false)
  {
    var items := Push(Push([], Entry(1, first), 1), Entry(2, second), 1);
    assert items == [Entry(2, second)];
    assert items[1..] == [];
    assert After(items, 0) == [Entry(2, second)];
  }
}
