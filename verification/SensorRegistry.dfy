/** Operator-owned sensor metadata: registration, enable preference with its control
    revision, retirement, and all-or-nothing persistence of every mutation. */
module SensorRegistry {
  import opened Wrappers
  import opened Text

  type SourceId = string
  type Time = int

  datatype Metadata = Metadata(
    displayName: Option<string>,
    location: Option<string>,
    role: Option<string>,
    enabled: bool,
    retiredAt: Option<Time>)

  const DEFAULT := Metadata(None, None, None, true, None)

  datatype Discovery = Discovery(
    sourceType: string,
    device: Option<string>,
    capabilities: seq<string>,
    firstSeen: Option<Time>,
    lastSeen: Option<Time>,
    observations: nat)

  /** The registry's five pieces of state. */
  datatype State = State(
    entries: map<SourceId, Metadata>,
    discovery: map<SourceId, Discovery>,
    controlRevision: map<SourceId, nat>,
    controlChanged: map<SourceId, Time>,
    revision: nat)

  const EMPTY := State(map[], map[], map[], map[], 0)

  /** Fields a patch sets: an absent field is left alone, a null one is cleared. */
  datatype Field<+T> = Absent | Null | Given(value: T)

  datatype Patch = Patch(displayName: Field<string>, location: Field<string>, role: Field<string>, enabled: Field<bool>)

  datatype Observation = Observation(sourceType: string, device: Option<string>, capabilities: seq<string>)

  datatype RegistryError =
    | InvalidId
    | InvalidType
    | IdentityConflict
    | RevisionConflict
    | InvalidRevision
    | EnabledNull
    | RetiredEnable
    | NotRegistered
    | NotRetired
    | NotSaved

  // ---------------------------------------------------------------- reads

  function Get(s: State, id: SourceId): Metadata {
    if id in s.entries then s.entries[id] else DEFAULT
  }

  function Contains(s: State, id: SourceId): bool {
    id in s.entries || id in s.discovery
  }

  function ControlRevision(s: State, id: SourceId): nat {
    if id in s.controlRevision then s.controlRevision[id] else 0
  }

  predicate ValidId(id: SourceId) {
    1 <= |id| <= 128
  }

  // ---------------------------------------------------------------- mutations as functions

  datatype Command =
    | Register(id: SourceId)
    | Observe(id: SourceId, seen: Observation)
    | Edit(id: SourceId, patch: Patch, expected: Option<int>)
    | Retire(id: SourceId, expected: Option<int>)
    | Restore(id: SourceId, expected: Option<int>)
    | Forget(id: SourceId, expected: Option<int>)

  /** The revision guard of operator commands. */
  function Guard(s: State, expected: Option<int>): Option<RegistryError> {
    if expected.None? then None
    else if expected.value < 0 then Some(InvalidRevision)
    else if expected.value != s.revision then Some(RevisionConflict)
    else None
  }

  /** Surrounding white space is stripped and an empty text counts as none. */
  function Clean(text: string): Option<string> {
    var t := Strip(text);
    if t == "" then None else Some(t)
  }

  function TextAfter(f: Field<string>, current: Option<string>): Option<string> {
    match f
    case Absent => current
    case Null => None
    case Given(t) => Clean(t)
  }

  function RoleAfter(f: Field<string>, current: Option<string>): Option<string> {
    match f
    case Absent => current
    case Null => None
    case Given(r) => Some(r)
  }

  function Patched(m: Metadata, p: Patch): Metadata {
    Metadata(TextAfter(p.displayName, m.displayName), TextAfter(p.location, m.location), RoleAfter(p.role, m.role),
             if p.enabled.Given? then p.enabled.value else m.enabled, m.retiredAt)
  }

  function Seen(current: Option<Discovery>, o: Observation, now: Time): Discovery {
    match current
    case None => Discovery(o.sourceType, o.device, o.capabilities, Some(now), Some(now), 1)
    case Some(d) =>
      Discovery(o.sourceType,
                if o.device.Some? then o.device else d.device,
                if o.capabilities != [] then o.capabilities else d.capabilities,
                if d.firstSeen.Some? then d.firstSeen else Some(now),
                Some(now), d.observations + 1)
  }

  function Discovered(s: State, id: SourceId): Option<Discovery> {
    if id in s.discovery then Some(s.discovery[id]) else None
  }

  /** An observation moves the revision only for a new source or a new description. */
  predicate SemanticChange(s: State, id: SourceId, o: Observation, now: Time) {
    || id !in s.discovery
    || id !in s.entries
    || s.discovery[id].device != Seen(Some(s.discovery[id]), o, now).device
    || s.discovery[id].capabilities != Seen(Some(s.discovery[id]), o, now).capabilities
  }

  /** New metadata for one source: a changed value moves the state revision, a changed
      enable preference the source's control revision and its date. */
  function Replaced(s: State, id: SourceId, m: Metadata, now: Time): State {
    var toggled := m.enabled != Get(s, id).enabled;
    State(s.entries[id := m],
          s.discovery,
          if toggled then s.controlRevision[id := ControlRevision(s, id) + 1] else s.controlRevision,
          if toggled then s.controlChanged[id := now] else s.controlChanged,
          if m != Get(s, id) then s.revision + 1 else s.revision)
  }

  function Observed(s: State, id: SourceId, o: Observation, now: Time): State {
    s.(entries := if id in s.entries then s.entries else s.entries[id := DEFAULT],
       discovery := s.discovery[id := Seen(Discovered(s, id), o, now)],
       revision := if SemanticChange(s, id, o, now) then s.revision + 1 else s.revision)
  }

  function Forgotten(s: State, id: SourceId): State {
    State(s.entries - {id}, s.discovery - {id}, s.controlRevision - {id}, s.controlChanged - {id}, s.revision + 1)
  }

  /** What a mutation does to the state, or why it is refused; `Ok` with the same state
      covers the commands that return early. */
  function Apply(s: State, c: Command, now: Time): Result<State, RegistryError> {
    if !ValidId(c.id) then Err(InvalidId)
    else match c
    case Register(id) =>
      if id in s.entries then Ok(s)
      else Ok(s.(entries := s.entries[id := DEFAULT], revision := s.revision + 1))
    case Observe(id, o) =>
      if !(1 <= |o.sourceType| <= 32) then Err(InvalidType)
      else if id in s.discovery && s.discovery[id].sourceType != o.sourceType then Err(IdentityConflict)
      else Ok(Observed(s, id, o, now))
    case Edit(id, p, expected) =>
      if Guard(s, expected).Some? then Err(Guard(s, expected).value)
      else if p.enabled.Null? then Err(EnabledNull)
      else if p.enabled == Given(true) && Get(s, id).retiredAt.Some? then Err(RetiredEnable)
      else Ok(Replaced(s, id, Patched(Get(s, id), p), now))
    case Retire(id, expected) =>
      if Guard(s, expected).Some? then Err(Guard(s, expected).value)
      else if Get(s, id).retiredAt.Some? then Ok(s)
      else Ok(Replaced(s, id, Get(s, id).(enabled := false, retiredAt := Some(now)), now))
    case Restore(id, expected) =>
      if Guard(s, expected).Some? then Err(Guard(s, expected).value)
      else if Get(s, id).retiredAt.None? then Ok(s)
      else Ok(s.(entries := s.entries[id := Get(s, id).(retiredAt := None, enabled := false)],
                 revision := s.revision + 1))
    case Forget(id, expected) =>
      if Guard(s, expected).Some? then Err(Guard(s, expected).value)
      else if !Contains(s, id) then Err(NotRegistered)
      else if Get(s, id).retiredAt.None? then Err(NotRetired)
      else Ok(Forgotten(s, id))
  }

  /** Commands that return before saving anything. */
  predicate ReturnsEarly(s: State, c: Command) {
    match c
    case Register(id) => id in s.entries
    case Retire(id, _) => Get(s, id).retiredAt.Some?
    case Restore(id, _) => Get(s, id).retiredAt.None?
    case _ => false
  }

  // ---------------------------------------------------------------- what the commands mean

  /** A text field after a patch: left alone, cleared, or the given text without the white
      space around it, which is none at all for a blank one. */
  ghost predicate TextPatched(f: Field<string>, before: Option<string>, after: Option<string>) {
    match f
    case Absent => after == before
    case Null => after == None
    case Given(t) => (after.None? <==> Blank(t)) && (after.Some? ==> Trimmed(t, after.value))
  }

  ghost predicate PatchHonoured(before: Metadata, p: Patch, after: Metadata) {
    && TextPatched(p.displayName, before.displayName, after.displayName)
    && TextPatched(p.location, before.location, after.location)
    && (p.role.Absent? ==> after.role == before.role)
    && (p.role.Null? ==> after.role == None)
    && (p.role.Given? ==> after.role == Some(p.role.value))
    && (p.enabled.Absent? ==> after.enabled == before.enabled)
    && (p.enabled.Given? ==> after.enabled == p.enabled.value)
    && after.retiredAt == before.retiredAt
  }

  lemma TextAfterMeans(f: Field<string>, current: Option<string>)
    ensures TextPatched(f, current, TextAfter(f, current))
  {
    hide Trimmed, Blank, Strip;
    if f.Given? {
      StripTrims(f.value);
    }
  }

  lemma PatchMeans(m: Metadata, p: Patch)
    ensures PatchHonoured(m, p, Patched(m, p))
  {
    hide TextPatched, TextAfter;
    TextAfterMeans(p.displayName, m.displayName);
    TextAfterMeans(p.location, m.location);
  }

  predicate Guarded(c: Command) {
    !c.Register? && !c.Observe?
  }

  /** The revision an operator names is a number, and the present one. */
  predicate Current(s: State, c: Command) {
    Guarded(c) && c.expected.Some? ==> c.expected.value == s.revision
  }

  /** Every refusal by its reason: a command with none of them goes through. */
  lemma RefusedExactly(s: State, c: Command, now: Time)
    ensures var r := Apply(s, c, now);
            var valid := 1 <= |c.id| <= 128;
            var fit := valid && Current(s, c);
            && (r == Err(InvalidId) <==> |c.id| == 0 || |c.id| > 128)
            && (r == Err(InvalidRevision) <==> valid && Guarded(c) && c.expected.Some? && c.expected.value < 0)
            && (r == Err(RevisionConflict) <==>
                  valid && Guarded(c) && c.expected.Some? && 0 <= c.expected.value != s.revision)
            && (r == Err(InvalidType) <==>
                  valid && c.Observe? && (|c.seen.sourceType| == 0 || |c.seen.sourceType| > 32))
            && (r == Err(IdentityConflict) <==>
                  valid && c.Observe? && 1 <= |c.seen.sourceType| <= 32
                  && c.id in s.discovery && s.discovery[c.id].sourceType != c.seen.sourceType)
            && (r == Err(EnabledNull) <==> fit && c.Edit? && c.patch.enabled == Null)
            && (r == Err(RetiredEnable) <==>
                  fit && c.Edit? && c.patch.enabled == Given(true) && Get(s, c.id).retiredAt.Some?)
            && (r == Err(NotRegistered) <==> fit && c.Forget? && c.id !in s.entries && c.id !in s.discovery)
            && (r == Err(NotRetired) <==>
                  fit && c.Forget? && (c.id in s.entries || c.id in s.discovery) && Get(s, c.id).retiredAt.None?)
            && r != Err(NotSaved)
  {}

  /** No command touches another source. */
  lemma OthersUntouched(s: State, c: Command, now: Time, other: SourceId)
    requires other != c.id && Apply(s, c, now).Ok?
    ensures var t := Apply(s, c, now).value;
            && Find(t.entries, other) == Find(s.entries, other)
            && Find(t.discovery, other) == Find(s.discovery, other)
            && Find(t.controlRevision, other) == Find(s.controlRevision, other)
            && Find(t.controlChanged, other) == Find(s.controlChanged, other)
  {}

  /** What each command but an observation does to its source. */
  lemma CommandMeans(s: State, c: Command, now: Time)
    requires !c.Observe? && Apply(s, c, now).Ok?
    ensures var t := Apply(s, c, now).value;
            var m, n := Get(s, c.id), Get(t, c.id);
            && (!c.Forget? ==> Find(t.discovery, c.id) == Find(s.discovery, c.id))
            && (c.Register? ==> c.id in t.entries && n == m)
            && (c.Edit? ==> c.id in t.entries && PatchHonoured(m, c.patch, n))
            && (c.Retire? ==>
                  && n.displayName == m.displayName && n.location == m.location && n.role == m.role
                  && (m.retiredAt.Some? ==> n == m)
                  && (m.retiredAt.None? ==> !n.enabled && n.retiredAt == Some(now)))
            && (c.Restore? ==>
                  && n.displayName == m.displayName && n.location == m.location && n.role == m.role
                  && n.retiredAt == None
                  && (m.retiredAt.None? ==> n == m)
                  && (m.retiredAt.Some? ==> !n.enabled))
            && (c.Forget? ==>
                  && c.id !in t.entries && c.id !in t.discovery
                  && c.id !in t.controlRevision && c.id !in t.controlChanged)
  {
    hide PatchHonoured, Patched;
    if c.Edit? {
      PatchMeans(Get(s, c.id), c.patch);
    }
  }

  /** An observation keeps what it does not name, dates the source, counts, and leaves the
      operator's metadata alone. */
  lemma ObservationMeans(s: State, c: Command, now: Time)
    requires c.Observe? && Apply(s, c, now).Ok?
    ensures var t := Apply(s, c, now).value;
            var o := c.seen;
            && c.id in t.entries && Get(t, c.id) == Get(s, c.id)
            && t.controlRevision == s.controlRevision && t.controlChanged == s.controlChanged
            && c.id in t.discovery
            && var d := t.discovery[c.id];
               && d.sourceType == o.sourceType && d.lastSeen == Some(now)
               && (o.device.Some? ==> d.device == o.device)
               && (o.capabilities != [] ==> d.capabilities == o.capabilities)
               && (c.id !in s.discovery ==>
                     && d.device == o.device && d.capabilities == o.capabilities
                     && d.firstSeen == Some(now) && d.observations == 1)
               && (c.id in s.discovery ==>
                     var e := s.discovery[c.id];
                     && d.sourceType == e.sourceType
                     && (o.device.None? ==> d.device == e.device)
                     && (o.capabilities == [] ==> d.capabilities == e.capabilities)
                     && (e.firstSeen.Some? ==> d.firstSeen == e.firstSeen)
                     && (e.firstSeen.None? ==> d.firstSeen == Some(now))
                     && d.observations == e.observations + 1)
  {}

  predicate SameDescription(d: Option<Discovery>, e: Option<Discovery>) {
    && (d.Some? <==> e.Some?)
    && (d.Some? ==>
          && d.value.sourceType == e.value.sourceType
          && d.value.device == e.value.device
          && d.value.capabilities == e.value.capabilities)
  }

  /** The state revision moves by one exactly when metadata or description of the source
      changed, or it was registered otherwise than by an edit; and the control date moves
      exactly with the control revision. */
  lemma RevisionMovesExactly(s: State, c: Command, now: Time)
    requires Apply(s, c, now).Ok?
    ensures var t := Apply(s, c, now).value;
            && t.revision == s.revision +
                 (if Get(t, c.id) != Get(s, c.id)
                     || !SameDescription(Find(t.discovery, c.id), Find(s.discovery, c.id))
                     || (c.id in t.entries && c.id !in s.entries && !c.Edit?) then 1 else 0)
            && (!c.Forget? ==>
                  Find(t.controlChanged, c.id) ==
                    if ControlRevision(t, c.id) != ControlRevision(s, c.id) then Some(now)
                    else Find(s.controlChanged, c.id))
  {}

  function Find<V>(m: map<SourceId, V>, id: SourceId): Option<V> {
    if id in m then Some(m[id]) else None
  }

  // ---------------------------------------------------------------- the file

  datatype StoredControl = StoredControl(revision: nat, changedAt: Option<Time>)

  /** The saved file: a control item is written only for a revision above zero. */
  datatype RegistryFile = RegistryFile(
    entries: map<SourceId, Metadata>,
    discovery: map<SourceId, Discovery>,
    control: map<SourceId, StoredControl>,
    revision: nat)

  function ToFile(s: State): RegistryFile {
    RegistryFile(
      s.entries, s.discovery,
      map id | id in s.controlRevision && s.controlRevision[id] > 0 ::
        StoredControl(s.controlRevision[id], if id in s.controlChanged then Some(s.controlChanged[id]) else None),
      s.revision)
  }

  function FromFile(f: RegistryFile): State {
    State(f.entries, f.discovery,
          map id | id in f.control :: f.control[id].revision,
          map id | id in f.control && f.control[id].changedAt.Some? :: f.control[id].changedAt.value,
          f.revision)
  }

  /** What keeps the control dictionaries in the shape the file can carry. */
  predicate Storable(s: State) {
    && (forall id :: id in s.controlRevision ==> s.controlRevision[id] > 0)
    && s.controlChanged.Keys <= s.controlRevision.Keys
  }

  /** Loading what was saved gives back all five pieces of state if and only if no control
      item is at revision zero or has a date alone. */
  lemma LoadAfterSave(s: State)
    ensures FromFile(ToFile(s)) == s <==> Storable(s)
  {
    var t := FromFile(ToFile(s));
    assert Storable(t);
    if Storable(s) {
      assert t.controlRevision == s.controlRevision;
      assert t.controlChanged == s.controlChanged;
    }
  }

  /** Starting the service over the file gives the state that was in memory. */
  predicate Recoverable(persistent: bool, s: State, file: Option<RegistryFile>) {
    && (persistent && file.Some? ==> FromFile(file.value) == s)
    && (persistent && file.None? ==> s == EMPTY)
    && (!persistent ==> file.None?)
  }

  /** State, file and answer after a mutation: what the command asks for in memory and
      file together, or an error with both exactly as before. */
  function Outcome(s: State, file: Option<RegistryFile>, persistent: bool, c: Command, now: Time, saved: bool)
    : (State, Option<RegistryFile>, Result<Metadata, RegistryError>)
  {
    match Apply(s, c, now)
    case Err(e) => (s, file, Err(e))
    case Ok(t) =>
      if ReturnsEarly(s, c) then (s, file, Ok(Get(s, c.id)))
      else if saved && persistent then (t, Some(ToFile(t)), Ok(Get(t, c.id)))
      else if !persistent then (t, file, Ok(Get(t, c.id)))
      else (s, file, Err(NotSaved))
  }

  /** An answer means that the command took effect, in memory and in the file, or asked for
      nothing; an error that neither has moved; and nothing but a failed save refuses a
      command that is in order. */
  lemma AnswerMeansDurable(s: State, file: Option<RegistryFile>, persistent: bool, c: Command, now: Time, saved: bool)
    requires Recoverable(persistent, s, file)
    ensures var (t, f, r) := Outcome(s, file, persistent, c, now, saved);
            && (r.Ok? ==> Apply(s, c, now) == Ok(t) && r.value == Get(t, c.id))
            && (r.Ok? && persistent ==> f == Some(ToFile(t)) || (t == s && f == file))
            && (r.Err? ==> t == s && f == file)
            && (r == Err(NotSaved) ==> persistent && !saved)
            && (Apply(s, c, now).Err? <==> r.Err? && r != Err(NotSaved))
  {}

  lemma OutcomeKeepsValid(s: State, file: Option<RegistryFile>, persistent: bool, c: Command, now: Time, saved: bool)
    requires Storable(s) && Recoverable(persistent, s, file)
    ensures var (t, f, _) := Outcome(s, file, persistent, c, now, saved);
            Storable(t) && Recoverable(persistent, t, f)
  {
    if Apply(s, c, now).Ok? {
      ApplyKeepsStorable(s, c, now);
      LoadAfterSave(Apply(s, c, now).value);
    }
  }

  lemma ApplyKeepsStorable(s: State, c: Command, now: Time)
    requires Storable(s) && Apply(s, c, now).Ok?
    ensures Storable(Apply(s, c, now).value)
  {}

  /** Put a remembered value back, or remove the key that was not there. */
  function Put<V>(m: map<SourceId, V>, id: SourceId, v: Option<V>): map<SourceId, V> {
    if v.Some? then m[id := v.value] else m - {id}
  }

  lemma UndoPut<V>(m: map<SourceId, V>, id: SourceId, v: V)
    ensures Put(m[id := v], id, Find(m, id)) == m && Put(m, id, Find(m, id)) == m
  {}

  /** Control items are at positive revisions, so a revision of zero is no item. */
  lemma UndoControl(m: map<SourceId, nat>, id: SourceId, previous: nat)
    requires previous == if id in m then m[id] else 0
    requires forall i :: i in m ==> m[i] > 0
    ensures Put(m[id := previous + 1], id, if previous == 0 then None else Some(previous)) == m
    ensures Put(m, id, if previous == 0 then None else Some(previous)) == m
  {}

  function Undone(s: State, id: SourceId, entry: Option<Metadata>, control: nat, changed: Option<Time>,
                  revision: nat): State {
    State(Put(s.entries, id, entry), s.discovery,
          Put(s.controlRevision, id, if control == 0 then None else Some(control)),
          Put(s.controlChanged, id, changed), revision)
  }

  /** Undoing with what was remembered gives back the whole state. */
  lemma UndoReplaced(s: State, id: SourceId, m: Metadata, now: Time)
    requires Storable(s)
    ensures Undone(Replaced(s, id, m, now), id, Find(s.entries, id), ControlRevision(s, id),
            Find(s.controlChanged, id), s.revision) == s
  {
    hide Put, Find;
    UndoPut(s.entries, id, m);
    UndoControl(s.controlRevision, id, ControlRevision(s, id));
    UndoPut(s.controlChanged, id, now);
  }

  lemma UndoRemove<V>(m: map<SourceId, V>, id: SourceId)
    ensures Put(m - {id}, id, Find(m, id)) == m
  {}

  // ---------------------------------------------------------------- the object

  class Registry {
    const persistent: bool
    var entries: map<SourceId, Metadata>
    var discovery: map<SourceId, Discovery>
    var controlRevision: map<SourceId, nat>
    var controlChanged: map<SourceId, Time>
    var revision: nat
    var file: Option<RegistryFile>

    ghost function Value(): State
      reads this
    {
      State(entries, discovery, controlRevision, controlChanged, revision)
    }

    /** Memory and file tell the same story. */
    ghost predicate Valid()
      reads this
    {
      && Storable(Value())
      && Recoverable(persistent, Value(), file)
    }

    constructor (persistent: bool, existing: Option<RegistryFile>)
      ensures this.persistent == persistent && file == (if persistent then existing else None)
      ensures Value() == if persistent && existing.Some? then FromFile(existing.value) else EMPTY
      ensures Valid() <==> (persistent && existing.Some? ==> Storable(FromFile(existing.value)))
    {
      this.persistent := persistent;
      file := if persistent then existing else None;
      if persistent && existing.Some? {
        var s := FromFile(existing.value);
        entries, discovery, controlRevision, controlChanged := s.entries, s.discovery, s.controlRevision,
            s.controlChanged;
        revision := s.revision;
      } else {
        entries, discovery, controlRevision, controlChanged := map[], map[], map[], map[];
        revision := 0;
      }
    }

    /** One atomic replace that either happens or fails; without a path nothing is saved. */
    method Save(saved: bool) returns (ok: bool)
      modifies this`file
      ensures ok == (saved || !persistent)
      ensures file == if persistent && saved then Some(ToFile(Value())) else old(file)
    {
      if !persistent {
        return true;
      }
      ok := saved;
      if saved {
        file := Some(ToFile(State(entries, discovery, controlRevision, controlChanged, revision)));
      }
    }

    /** A save that follows a change of memory: kept when it goes through, and otherwise
        for the caller to undo. */
    ghost predicate Kept(ok: bool, saved: bool, before: State, oldFile: Option<RegistryFile>, after: State)
      reads this
    {
      && ok == (saved || !persistent)
      && (ok ==> Value() == after && file == if persistent then Some(ToFile(after)) else oldFile)
      && (!ok ==> Value() == before && file == oldFile)
    }

    /** Memory's part of writing one source's metadata with its revisions. */
    method Change(id: SourceId, updated: Metadata, now: Time)
      modifies this`entries, this`controlRevision, this`controlChanged, this`revision
      ensures Value() == Replaced(old(Value()), id, updated, now)
    {
      var current := if id in entries then entries[id] else DEFAULT;
      entries := entries[id := updated];
      if updated != current {
        revision := revision + 1;
      }
      if updated.enabled != current.enabled {
        var previous := if id in controlRevision then controlRevision[id] else 0;
        controlRevision := controlRevision[id := previous + 1];
        controlChanged := controlChanged[id := now];
      }
    }

    /** Put the entry, both control items and the revision back as remembered. */
    method PutBack(id: SourceId, previous: Option<Metadata>, previousControl: nat, previousChanged: Option<Time>,
                   previousRevision: nat)
      modifies this`entries, this`controlRevision, this`controlChanged, this`revision
      ensures Value() == Undone(old(Value()), id, previous, previousControl, previousChanged, previousRevision)
    {
      entries := Put(entries, id, previous);
      controlRevision := Put(controlRevision, id, if previousControl == 0 then None else Some(previousControl));
      controlChanged := Put(controlChanged, id, previousChanged);
      revision := previousRevision;
    }

    /** Write one source's metadata with its revisions, save, and on failure put everything
        back: the tail that editing and retiring share. */
    method Replace(id: SourceId, updated: Metadata, now: Time, saved: bool) returns (ok: bool)
      requires Storable(Value())
      modifies this
      ensures Kept(ok, saved, old(Value()), old(file), Replaced(old(Value()), id, updated, now))
    {
      hide Replaced, Undone, ToFile;
      var previous, previousChanged, previousRevision := Find(entries, id), Find(controlChanged, id), revision;
      var previousControl := if id in controlRevision then controlRevision[id] else 0;
      UndoReplaced(Value(), id, updated, now);
      Change(id, updated, now);
      ok := Save(saved);
      if !ok {
        PutBack(id, previous, previousControl, previousChanged, previousRevision);
      }
    }

    method StoreEntry(id: SourceId, updated: Metadata, saved: bool) returns (ok: bool)
      modifies this
      ensures Kept(ok, saved, old(Value()), old(file),
                   old(Value()).(entries := old(entries)[id := updated], revision := old(revision) + 1))
    {
      var previous, previousRevision := Find(entries, id), revision;
      entries := entries[id := updated];
      revision := revision + 1;
      ok := Save(saved);
      if !ok {
        UndoPut(old(entries), id, updated);
        entries := Put(entries, id, previous);
        revision := previousRevision;
      }
    }

    method StoreObservation(id: SourceId, o: Observation, now: Time, saved: bool) returns (ok: bool)
      modifies this
      ensures Kept(ok, saved, old(Value()), old(file), Observed(old(Value()), id, o, now))
    {
      var current := Find(discovery, id);
      var updated := Seen(current, o, now);
      var previousMetadata, previousRevision := Find(entries, id), revision;
      var semanticChange := current.None? || current.value.device != updated.device
                            || current.value.capabilities != updated.capabilities;
      if previousMetadata.None? {
        entries := entries[id := DEFAULT];
        semanticChange := true;
      }
      discovery := discovery[id := updated];
      if semanticChange {
        revision := revision + 1;
      }
      ok := Save(saved);
      if !ok {
        UndoPut(old(entries), id, DEFAULT);
        UndoPut(old(discovery), id, updated);
        entries := Put(entries, id, previousMetadata);
        discovery := Put(discovery, id, current);
        revision := previousRevision;
      }
    }

    method Remove(id: SourceId, saved: bool) returns (ok: bool)
      modifies this
      ensures Kept(ok, saved, old(Value()), old(file), Forgotten(old(Value()), id))
    {
      var previousMetadata, previousDiscovery := Find(entries, id), Find(discovery, id);
      var previousControl, previousChanged := Find(controlRevision, id), Find(controlChanged, id);
      var previousRevision := revision;
      entries, discovery := entries - {id}, discovery - {id};
      controlRevision, controlChanged := controlRevision - {id}, controlChanged - {id};
      revision := revision + 1;
      ok := Save(saved);
      if !ok {
        UndoRemove(old(entries), id);
        UndoRemove(old(discovery), id);
        UndoRemove(old(controlRevision), id);
        UndoRemove(old(controlChanged), id);
        entries, discovery := Put(entries, id, previousMetadata), Put(discovery, id, previousDiscovery);
        controlRevision := Put(controlRevision, id, previousControl);
        controlChanged := Put(controlChanged, id, previousChanged);
        revision := previousRevision;
      }
    }

    method CheckRevision(expected: Option<int>) returns (e: Option<RegistryError>)
      ensures e == Guard(Value(), expected)
    {
      if expected.None? {
        return None;
      }
      if expected.value < 0 {
        return Some(InvalidRevision);
      }
      e := if expected.value != revision then Some(RevisionConflict) else None;
    }

    method EnsureRegistered(id: SourceId, now: Time, saved: bool) returns (r: Result<Metadata, RegistryError>)
      requires Valid()
      modifies this
      ensures (Value(), file, r) == Outcome(old(Value()), old(file), persistent, Register(id), now, saved)
      ensures Valid()
    {
      OutcomeKeepsValid(Value(), file, persistent, Register(id), now, saved);
      if !ValidId(id) {
        return Err(InvalidId);
      }
      if id in entries {
        return Ok(entries[id]);
      }
      var ok := StoreEntry(id, DEFAULT, saved);
      r := if ok then Ok(DEFAULT) else Err(NotSaved);
    }

    method Observe(id: SourceId, o: Observation, now: Time, saved: bool) returns (r: Result<Metadata, RegistryError>)
      requires Valid()
      modifies this
      ensures (Value(), file, r) == Outcome(old(Value()), old(file), persistent, Command.Observe(id, o), now, saved)
      ensures Valid()
    {
      OutcomeKeepsValid(Value(), file, persistent, Command.Observe(id, o), now, saved);
      if !ValidId(id) {
        return Err(InvalidId);
      }
      if !(1 <= |o.sourceType| <= 32) {
        return Err(InvalidType);
      }
      if id in discovery && discovery[id].sourceType != o.sourceType {
        return Err(IdentityConflict);
      }
      var ok := StoreObservation(id, o, now, saved);
      r := if ok then Ok(entries[id]) else Err(NotSaved);
    }

    method Patch(id: SourceId, p: Patch, expected: Option<int>, now: Time, saved: bool)
      returns (r: Result<Metadata, RegistryError>)
      requires Valid()
      modifies this
      ensures (Value(), file, r) == Outcome(old(Value()), old(file), persistent, Edit(id, p, expected), now, saved)
      ensures r.Ok? ==> PatchHonoured(Get(old(Value()), id), p, r.value)
      ensures Valid()
    {
      OutcomeKeepsValid(Value(), file, persistent, Edit(id, p, expected), now, saved);
      if !ValidId(id) {
        return Err(InvalidId);
      }
      var guard := CheckRevision(expected);
      if guard.Some? {
        return Err(guard.value);
      }
      if p.enabled.Null? {
        return Err(EnabledNull);
      }
      var current := if id in entries then entries[id] else DEFAULT;
      if p.enabled == Given(true) && current.retiredAt.Some? {
        return Err(RetiredEnable);
      }
      var updated := Patched(current, p);
      PatchMeans(current, p);
      var ok := Replace(id, updated, now, saved);
      r := if ok then Ok(updated) else Err(NotSaved);
    }

    method Retire(id: SourceId, expected: Option<int>, now: Time, saved: bool)
      returns (r: Result<Metadata, RegistryError>)
      requires Valid()
      modifies this
      ensures (Value(), file, r) == Outcome(old(Value()), old(file), persistent, Command.Retire(id, expected), now,
              saved)
      ensures Valid()
    {
      OutcomeKeepsValid(Value(), file, persistent, Command.Retire(id, expected), now, saved);
      if !ValidId(id) {
        return Err(InvalidId);
      }
      var guard := CheckRevision(expected);
      if guard.Some? {
        return Err(guard.value);
      }
      var current := if id in entries then entries[id] else DEFAULT;
      if current.retiredAt.Some? {
        return Ok(current);
      }
      var updated := current.(enabled := false, retiredAt := Some(now));
      var ok := Replace(id, updated, now, saved);
      r := if ok then Ok(updated) else Err(NotSaved);
    }

    method Restore(id: SourceId, expected: Option<int>, now: Time, saved: bool)
      returns (r: Result<Metadata, RegistryError>)
      requires Valid()
      modifies this
      ensures (Value(), file, r) == Outcome(old(Value()), old(file), persistent, Command.Restore(id, expected),
              now, saved)
      ensures Valid()
    {
      OutcomeKeepsValid(Value(), file, persistent, Command.Restore(id, expected), now, saved);
      if !ValidId(id) {
        return Err(InvalidId);
      }
      var guard := CheckRevision(expected);
      if guard.Some? {
        return Err(guard.value);
      }
      var current := if id in entries then entries[id] else DEFAULT;
      if current.retiredAt.None? {
        return Ok(current);
      }
      var updated := current.(retiredAt := None, enabled := false);
      var ok := StoreEntry(id, updated, saved);
      r := if ok then Ok(updated) else Err(NotSaved);
    }

    method Forget(id: SourceId, expected: Option<int>, now: Time, saved: bool)
      returns (r: Result<Metadata, RegistryError>)
      requires Valid()
      modifies this
      ensures (Value(), file, r) == Outcome(old(Value()), old(file), persistent, Command.Forget(id, expected), now,
              saved)
      ensures Valid()
    {
      OutcomeKeepsValid(Value(), file, persistent, Command.Forget(id, expected), now, saved);
      if !ValidId(id) {
        return Err(InvalidId);
      }
      var guard := CheckRevision(expected);
      if guard.Some? {
        return Err(guard.value);
      }
      if id !in entries && id !in discovery {
        return Err(NotRegistered);
      }
      if id !in entries || entries[id].retiredAt.None? {
        return Err(NotRetired);
      }
      var ok := Remove(id, saved);
      r := if ok then Ok(DEFAULT) else Err(NotSaved);
    }
  }

  // ---------------------------------------------------------------- what every run keeps

  predicate LawfulAt(s: State, id: SourceId) {
    id in s.entries ==>
      && (s.entries[id].enabled <==> ControlRevision(s, id) % 2 == 0)
      && (s.entries[id].retiredAt.Some? ==> !s.entries[id].enabled)
  }

  /** Enabled exactly at even control revisions, retired sensors disabled, and discovery
      and control only for registered sources. */
  ghost predicate Lawful(s: State) {
    && Storable(s)
    && s.discovery.Keys <= s.entries.Keys
    && s.controlRevision.Keys <= s.entries.Keys
    && (forall id :: LawfulAt(s, id))
  }

  /** A step that keeps every other source's items and the law at its own. */
  lemma LawElsewhere(s: State, t: State, id: SourceId)
    requires Lawful(s) && Storable(t) && LawfulAt(t, id)
    requires t.discovery.Keys <= t.entries.Keys && t.controlRevision.Keys <= t.entries.Keys
    requires forall other :: other != id ==>
               Find(t.entries, other) == Find(s.entries, other)
               && ControlRevision(t, other) == ControlRevision(s, other)
    ensures Lawful(t)
  {
    forall other ensures LawfulAt(t, other) {
      if other != id {
        assert LawfulAt(s, other) && Find(t.entries, other) == Find(s.entries, other);
      }
    }
  }

  lemma ReplacedKeepsLaw(s: State, id: SourceId, m: Metadata, now: Time)
    requires Lawful(s) && (m.retiredAt.Some? ==> !m.enabled)
    ensures Lawful(Replaced(s, id, m, now))
  {
    assert LawfulAt(s, id) && (id !in s.entries ==> ControlRevision(s, id) == 0);
    LawElsewhere(s, Replaced(s, id, m, now), id);
  }

  lemma CommandKeepsLaw(s: State, c: Command, now: Time)
    requires Lawful(s) && Apply(s, c, now).Ok?
    ensures Lawful(Apply(s, c, now).value)
  {
    ApplyKeepsStorable(s, c, now);
    assert LawfulAt(s, c.id) && (c.id !in s.entries ==> ControlRevision(s, c.id) == 0);
    match c
    case Edit(id, p, _) => ReplacedKeepsLaw(s, id, Patched(Get(s, id), p), now);
    case Retire(id, _) => ReplacedKeepsLaw(s, id, Get(s, id).(enabled := false, retiredAt := Some(now)), now);
    case _ => LawElsewhere(s, Apply(s, c, now).value, c.id);
  }

  /** A command attempt: with its clock reading and whether its save goes through. A
      crash before the save is a failed one, a crash after it a successful one. */
  datatype Attempt = Attempt(command: Command, now: Time, saved: bool)

  function After(s: State, a: Attempt): State {
    match Apply(s, a.command, a.now)
    case Err(_) => s
    case Ok(t) => if a.saved then t else s
  }

  function RunFrom(s: State, attempts: seq<Attempt>): State {
    if attempts == [] then s
    else After(RunFrom(s, attempts[..|attempts| - 1]), attempts[|attempts| - 1])
  }

  /** Every run from a lawful state stays lawful, so a loaded file of any such state gives
      back the last committed one. */
  lemma {:induction false} RunKeepsLaw(s: State, attempts: seq<Attempt>)
    requires Lawful(s)
    ensures Lawful(RunFrom(s, attempts))
    ensures FromFile(ToFile(RunFrom(s, attempts))) == RunFrom(s, attempts)
  {
    if attempts != [] {
      var t := RunFrom(s, attempts[..|attempts| - 1]);
      var a := attempts[|attempts| - 1];
      RunKeepsLaw(s, attempts[..|attempts| - 1]);
      if Apply(t, a.command, a.now).Ok? {
        CommandKeepsLaw(t, a.command, a.now);
      }
    }
    LoadAfterSave(RunFrom(s, attempts));
  }

  /** No attempt of the run forgets the source. */
  predicate SameRegistration(attempts: seq<Attempt>, id: SourceId) {
    forall a :: a in attempts ==> !(a.command.Forget? && a.command.id == id)
  }

  /** Any command but forgetting it moves a source's control revision by one exactly when it
      changes the enable preference. */
  lemma CommandCounts(s: State, c: Command, now: Time, id: SourceId)
    requires !(c.Forget? && c.id == id) && Apply(s, c, now).Ok?
    requires Get(s, id).retiredAt.Some? ==> !Get(s, id).enabled
    ensures var t := Apply(s, c, now).value;
            && (id in s.entries ==> id in t.entries)
            && s.revision <= t.revision
            && ControlRevision(t, id) == ControlRevision(s, id) + (if Get(s, id).enabled != Get(t, id).enabled
                then 1 else 0)
  {
    var t := Apply(s, c, now).value;
    if c.id != id {
      assert Get(t, id) == Get(s, id) && ControlRevision(t, id) == ControlRevision(s, id);
    }
  }

  /** Within one registration the control revision never falls, and equal control
      revisions mean equal desired states. */
  lemma {:induction false} EqualRevisionsEqualStates(s: State, attempts: seq<Attempt>, id: SourceId)
    requires Lawful(s) && id in s.entries && SameRegistration(attempts, id)
    ensures var t := RunFrom(s, attempts);
            && id in t.entries
            && s.revision <= t.revision
            && ControlRevision(s, id) <= ControlRevision(t, id)
            && (ControlRevision(s, id) == ControlRevision(t, id) ==> s.entries[id].enabled == t.entries[id].enabled)
  {
    if attempts != [] {
      var before := attempts[..|attempts| - 1];
      var a := attempts[|attempts| - 1];
      assert a in attempts;
      EqualRevisionsEqualStates(s, before, id);
      RunKeepsLaw(s, before);
      if Apply(RunFrom(s, before), a.command, a.now).Ok? {
        assert LawfulAt(RunFrom(s, before), id);
        CommandCounts(RunFrom(s, before), a.command, a.now, id);
      }
    }
  }
}
