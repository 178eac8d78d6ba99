/** The producer's crash-safe sequence and drop state: the Python store that keeps
    one entry per producer key in a file, and the Kotlin store that keeps a single
    64-bit entry. */
module ProducerState {
  import opened Wrappers

  datatype Entry = Entry(nextSequence: nat, pendingDropped: nat, inflight: Option<nat>)

  const FRESH := Entry(0, 0, None)

  /** What the file validator demands of a stored entry. */
  predicate WellFormed(e: Entry) {
    e.inflight.Some? ==> e.inflight.value < e.nextSequence
  }

  datatype StateError = EmptyKey | InFlight | Mismatch | BadFile | NotSaved

  datatype Op = Recover | Reserve | MarkDropped(sequence: int) | MarkAccepted(sequence: int)

  /** The entry an operation would store; an error leaves the file alone. */
  function Apply(op: Op, e: Entry): Result<Entry, StateError> {
    match op
    case Recover =>
      Ok(if e.inflight.None? then e else Entry(e.nextSequence, e.pendingDropped + 1, None))
    case Reserve =>
      if e.inflight.Some? then Err(InFlight)
      else Ok(Entry(e.nextSequence + 1, e.pendingDropped, Some(e.nextSequence)))
    case MarkDropped(s) =>
      if e.inflight.None? || e.inflight.value != s then Err(Mismatch)
      else Ok(Entry(e.nextSequence, e.pendingDropped + 1, None))
    case MarkAccepted(s) =>
      if e.inflight.None? || e.inflight.value != s then Err(Mismatch)
      else Ok(Entry(e.nextSequence, 0, None))
  }

  // ---------------------------------------------------------------- the Python store

  /** What the path holds: reading back a saved file gives the saved entries. */
  datatype StateFile = Missing | Corrupt | Stored(entries: map<string, Entry>)

  function Lookup(f: StateFile, key: string): Entry {
    if f.Stored? && key in f.entries then f.entries[key] else FRESH
  }

  function WithEntry(f: StateFile, key: string, e: Entry): StateFile {
    Stored((if f.Stored? then f.entries else map[])[key := e])
  }

  /** A recovery that finds no in-flight frame returns without saving. */
  predicate Saves(op: Op, e: Entry) {
    !(op.Recover? && e.inflight.None?)
  }

  /** File and answer after one store call; `saved` tells whether the atomic replace
      took place. */
  function CallOutcome(f: StateFile, key: string, op: Op, saved: bool): (StateFile, Result<Entry, StateError>) {
    if op.Recover? && key == "" then (f, Err(EmptyKey))
    else if f.Corrupt? then (f, Err(BadFile))
    else
      var e := Lookup(f, key);
      match Apply(op, e)
      case Err(x) => (f, Err(x))
      case Ok(e') =>
        if !Saves(op, e) then (f, Ok(e'))
        else if saved then (WithEntry(f, key, e'), Ok(e'))
        else (f, Err(NotSaved))
  }

  predicate Usable(f: StateFile, key: string, op: Op) {
    !f.Corrupt? && (op.Recover? ==> key != "")
  }

  /** The frame an operation names is the one in flight. */
  predicate Names(op: Op, e: Entry) {
    match op
    case MarkDropped(s) => e.inflight.Some? && e.inflight.value == s
    case MarkAccepted(s) => e.inflight.Some? && e.inflight.value == s
    case _ => true
  }

  /** Every answer by its reason, the file untouched by every error, and what a call that goes
      through leaves for its key. */
  lemma CallAnswers(f: StateFile, key: string, op: Op, saved: bool)
    ensures var (g, r) := CallOutcome(f, key, op, saved);
            var e := Lookup(f, key);
            var fit := Usable(f, key, op) && Names(op, e) && (op.Reserve? ==> e.inflight.None?);
            var asks := !(op.Recover? && e.inflight.None?);
            && (r == Err(EmptyKey) <==> op.Recover? && key == "")
            && (r == Err(BadFile) <==> f.Corrupt? && !(op.Recover? && key == ""))
            && (r == Err(InFlight) <==> Usable(f, key, op) && op.Reserve? && e.inflight.Some?)
            && (r == Err(Mismatch) <==> Usable(f, key, op) && !Names(op, e))
            && (r == Err(NotSaved) <==> fit && asks && !saved)
            && (r.Ok? <==> fit && (asks ==> saved))
            && (r.Err? || !asks ==> g == f)
            && (r.Ok? && asks ==> g.Stored? && key in g.entries && g.entries[key] == r.value)
            && (r.Ok? && op.Reserve? ==> r.value == Entry(e.nextSequence + 1, e.pendingDropped, Some(e.nextSequence)))
            && (r.Ok? && op.MarkAccepted? ==> r.value == Entry(e.nextSequence, 0, None))
            && (r.Ok? && (op.MarkDropped? || (op.Recover? && asks)) ==>
                  r.value == Entry(e.nextSequence, e.pendingDropped + 1, None))
            && (r.Ok? && !asks ==> r.value == e)
  {}

  class ProducerStateStore {
    var file: StateFile

    constructor (existing: StateFile)
      ensures file == existing
    {
      file := existing;
    }

    method Save(entries: map<string, Entry>, saved: bool) returns (ok: bool)
      modifies this
      ensures ok == saved
      ensures file == if saved then Stored(entries) else old(file)
    {
      ok := saved;
      if saved {
        file := Stored(entries);
      }
    }

    method Recover(key: string, saved: bool) returns (r: Result<Entry, StateError>)
      modifies this
      ensures (file, r) == CallOutcome(old(file), key, Op.Recover, saved)
    {
      if key == "" {
        return Err(EmptyKey);
      }
      if file.Corrupt? {
        return Err(BadFile);
      }
      var entry := Lookup(file, key);
      if entry.inflight.None? {
        return Ok(entry);
      }
      var recovered := Entry(entry.nextSequence, entry.pendingDropped + 1, None);
      var ok := Save(WithEntry(file, key, recovered).entries, saved);
      r := if ok then Ok(recovered) else Err(NotSaved);
    }

    /** Answers the reserved sequence and the drops to report with it. */
    method Reserve(key: string, saved: bool) returns (r: Result<(nat, nat), StateError>)
      modifies this
      ensures file == CallOutcome(old(file), key, Op.Reserve, saved).0
      ensures match CallOutcome(old(file), key, Op.Reserve, saved).1
              case Err(x) => r == Err(x)
              case Ok(e) => e.inflight.Some? && r == Ok((e.inflight.value, Lookup(old(file), key).pendingDropped))
    {
      if file.Corrupt? {
        return Err(BadFile);
      }
      var entry := Lookup(file, key);
      if entry.inflight.Some? {
        return Err(InFlight);
      }
      var sequence := entry.nextSequence;
      var ok := Save(WithEntry(file, key, Entry(sequence + 1, entry.pendingDropped, Some(sequence))).entries, saved);
      r := if ok then Ok((sequence, entry.pendingDropped)) else Err(NotSaved);
    }

    method MarkDropped(key: string, sequence: int, saved: bool) returns (r: Result<Entry, StateError>)
      modifies this
      ensures (file, r) == CallOutcome(old(file), key, Op.MarkDropped(sequence), saved)
    {
      if file.Corrupt? {
        return Err(BadFile);
      }
      var entry := Lookup(file, key);
      if entry.inflight.None? || entry.inflight.value != sequence {
        return Err(Mismatch);
      }
      var updated := Entry(entry.nextSequence, entry.pendingDropped + 1, None);
      var ok := Save(WithEntry(file, key, updated).entries, saved);
      r := if ok then Ok(updated) else Err(NotSaved);
    }

    method MarkAccepted(key: string, sequence: int, saved: bool) returns (r: Result<Entry, StateError>)
      modifies this
      ensures (file, r) == CallOutcome(old(file), key, Op.MarkAccepted(sequence), saved)
    {
      if file.Corrupt? {
        return Err(BadFile);
      }
      var entry := Lookup(file, key);
      if entry.inflight.None? || entry.inflight.value != sequence {
        return Err(Mismatch);
      }
      var updated := Entry(entry.nextSequence, 0, None);
      var ok := Save(WithEntry(file, key, updated).entries, saved);
      r := if ok then Ok(updated) else Err(NotSaved);
    }

    method Snapshot(key: string) returns (r: Result<Entry, StateError>)
      ensures r == if file.Corrupt? then Err(BadFile) else Ok(Lookup(file, key))
    {
      if file.Corrupt? {
        return Err(BadFile);
      }
      r := Ok(Lookup(file, key));
    }
  }

  // ---------------------------------------------------------------- runs of store calls

  /** How a call meets its save. A crash may fall on either side of the replace; in
      both cases the caller never sees an answer. */
  datatype Fate = Saved | SaveFailed | CrashBefore | CrashAfter

  predicate Commits(fate: Fate) {
    fate.Saved? || fate.CrashAfter?
  }

  datatype Call = Call(key: string, op: Op, fate: Fate)

  function FileAfter(calls: seq<Call>): StateFile {
    if calls == [] then Missing
    else
      var c := calls[|calls| - 1];
      CallOutcome(FileAfter(calls[..|calls| - 1]), c.key, c.op, Commits(c.fate)).0
  }

  /** What became durable for one key, read off the calls: frames issued, and how each
      was resolved. */
  datatype Durable = Issued(sequence: nat) | AcceptedFrame(sequence: nat) | DroppedFrame(sequence: nat)

  function EventOf(f: StateFile, c: Call): Option<Durable> {
    var e := Lookup(f, c.key);
    if (c.op.Recover? && c.key == "") || f.Corrupt? || Apply(c.op, e).Err? || !Saves(c.op, e) || !Commits(c.fate)
        then None
    else match c.op
      case Recover => Some(DroppedFrame(e.inflight.value))
      case Reserve => Some(Issued(e.nextSequence))
      case MarkDropped(_) => Some(DroppedFrame(e.inflight.value))
      case MarkAccepted(_) => Some(AcceptedFrame(e.inflight.value))
  }

  /** The ledger of one key grows by what one call made durable for it. */
  function LedgerStep(ledger: seq<Durable>, f: StateFile, c: Call, key: string): seq<Durable> {
    if c.key != key || EventOf(f, c).None? then ledger else ledger + [EventOf(f, c).value]
  }

  function Ledger(calls: seq<Call>, key: string): seq<Durable> {
    if calls == [] then []
    else
      var before := calls[..|calls| - 1];
      var c := calls[|calls| - 1];
      LedgerStep(Ledger(before, key), FileAfter(before), c, key)
  }

  function IssuedSequences(ledger: seq<Durable>): seq<nat> {
    if ledger == [] then []
    else
      var d := ledger[|ledger| - 1];
      IssuedSequences(ledger[..|ledger| - 1]) + (if d.Issued? then [d.sequence] else [])
  }

  /** Frames issued after the last accepted one. */
  function IssuedSinceAccept(ledger: seq<Durable>): nat {
    if ledger == [] then 0
    else
      match ledger[|ledger| - 1]
      case AcceptedFrame(_) => 0
      case Issued(_) => IssuedSinceAccept(ledger[..|ledger| - 1]) + 1
      case DroppedFrame(_) => IssuedSinceAccept(ledger[..|ledger| - 1])
  }

  function AcceptedSet(ledger: seq<Durable>): set<nat> {
    set d | d in ledger && d.AcceptedFrame? :: d.sequence
  }

  function DroppedSet(ledger: seq<Durable>): set<nat> {
    set d | d in ledger && d.DroppedFrame? :: d.sequence
  }

  function InflightCount(e: Entry): nat {
    if e.inflight.Some? then 1 else 0
  }

  /** Everything the durable entry of one key owes to what happened to that key. */
  ghost predicate EntryMatches(e: Entry, ledger: seq<Durable>) {
    && IssuedSequences(ledger) == seq(e.nextSequence, i => i)
    && (e.inflight.Some? ==> e.nextSequence > 0 && e.inflight.value == e.nextSequence - 1)
    && e.pendingDropped + InflightCount(e) == IssuedSinceAccept(ledger)
    && (forall n: nat ::
          n < e.nextSequence <==> n in AcceptedSet(ledger) || n in DroppedSet(ledger) || e.inflight == Some(n))
    && AcceptedSet(ledger) !! DroppedSet(ledger)
    && (e.inflight.Some? ==> e.inflight.value !in AcceptedSet(ledger) + DroppedSet(ledger))
    && e.pendingDropped + InflightCount(e) <= e.nextSequence
  }

  lemma EntryStep(e: Entry, ledger: seq<Durable>, op: Op, e': Entry, d: Durable)
    requires EntryMatches(e, ledger)
    requires Apply(op, e) == Ok(e') && Saves(op, e)
    requires d == match op
                  case Reserve => Issued(e.nextSequence)
                  case MarkAccepted(_) => AcceptedFrame(e.inflight.value)
                  case _ => DroppedFrame(e.inflight.value)
    ensures EntryMatches(e', ledger + [d])
  {
    var after := ledger + [d];
    assert after[..|after| - 1] == ledger;
    assert forall x :: x in after <==> x in ledger || x == d;
    assert AcceptedSet(after) == AcceptedSet(ledger) + (if d.AcceptedFrame? then {d.sequence} else {});
    assert DroppedSet(after) == DroppedSet(ledger) + (if d.DroppedFrame? then {d.sequence} else {});
  }

  /** One call on the file, seen from one key: the entry moves as `Apply` says when
      the call is for that key and became durable, and stays as it was otherwise. */
  lemma CallSeenFromKey(f: StateFile, c: Call, key: string)
    requires !f.Corrupt?
    ensures
      var after := CallOutcome(f, c.key, c.op, Commits(c.fate)).0;
      && !after.Corrupt?
      && (if c.key == key && EventOf(f, c).Some?
          then Apply(c.op, Lookup(f, key)) == Ok(Lookup(after, key)) && Saves(c.op, Lookup(f, key))
          else Lookup(after, key) == Lookup(f, key))
  {
  }

  lemma MatchStep(f: StateFile, c: Call, key: string, ledger: seq<Durable>)
    requires !f.Corrupt?
    requires EntryMatches(Lookup(f, key), ledger)
    ensures
      var after := CallOutcome(f, c.key, c.op, Commits(c.fate)).0;
      !after.Corrupt? && EntryMatches(Lookup(after, key), LedgerStep(ledger, f, c, key))
  {
    CallSeenFromKey(f, c, key);
    if c.key == key && EventOf(f, c).Some? {
      var e := Lookup(f, key);
      EntryStep(e, ledger, c.op, Apply(c.op, e).value, EventOf(f, c).value);
    }
  }

  /** Over every run of store calls on any keys, with any saves failing and a crash on
      either side of any save: each key's sequences are issued once each and in order,
      an in-flight frame is the newest issued one, the pending count plus the in-flight
      frame is the number issued since the last accepted frame, and every issued frame
      is exactly one of accepted, dropped and in flight. */
  lemma {:induction false} DurableStateIsExact(calls: seq<Call>, key: string)
    ensures !FileAfter(calls).Corrupt?
    ensures EntryMatches(Lookup(FileAfter(calls), key), Ledger(calls, key))
  {
    if calls != [] {
      var before := calls[..|calls| - 1];
      DurableStateIsExact(before, key);
      MatchStep(FileAfter(before), calls[|calls| - 1], key, Ledger(before, key));
    }
  }

  /** A call touches the entry of its own key only. */
  lemma OtherKeysUntouched(f: StateFile, c: Call, other: string)
    requires other != c.key
    ensures Lookup(CallOutcome(f, c.key, c.op, Commits(c.fate)).0, other) == Lookup(f, other)
  {
    if f.Stored? {
      var e := Lookup(f, c.key);
      if Apply(c.op, e).Ok? && Saves(c.op, e) {
        assert Lookup(WithEntry(f, c.key, Apply(c.op, e).value), other) == Lookup(f, other);
      }
    }
  }

  // ---------------------------------------------------------------- the Kotlin store

  const LONG_MAX: int := 0x7FFF_FFFF_FFFF_FFFF

  function Wrap(x: int): int {
    (x + LONG_MAX + 1) % (2 * (LONG_MAX + 1)) - LONG_MAX - 1
  }

  /** Two's complement in 64 bits. */
  lemma WrapIsTwosComplement(x: int)
    ensures -9223372036854775808 <= Wrap(x) <= 9223372036854775807
    ensures (x - Wrap(x)) % 18446744073709551616 == 0
  {
    var k := (x + LONG_MAX + 1) / (2 * (LONG_MAX + 1));
    assert x - Wrap(x) == k * 18446744073709551616;
  }

  datatype NativeState = NativeState(nextSequence: int, pendingDropped: int, inflight: Option<int>)

  predicate NativeValid(s: NativeState) {
    && 0 <= s.nextSequence
    && 0 <= s.pendingDropped
    && (s.inflight.Some? ==> s.inflight.value < s.nextSequence)
  }

  /** One Kotlin store call in 64-bit arithmetic: every save first validates. */
  function NativeApply(op: Op, s: NativeState): Result<NativeState, StateError> {
    match op
    case Recover =>
      if s.inflight.None? then Ok(s)
      else if s.inflight.value >= s.nextSequence then Err(Mismatch)
      else Validated(s.(pendingDropped := Wrap(s.pendingDropped + 1), inflight := None))
    case Reserve =>
      if s.inflight.Some? then Err(InFlight)
      else Validated(s.(nextSequence := Wrap(s.nextSequence + 1), inflight := Some(s.nextSequence)))
    case MarkDropped(q) =>
      if s.inflight != Some(q) then Err(Mismatch)
      else Validated(s.(pendingDropped := Wrap(s.pendingDropped + 1), inflight := None))
    case MarkAccepted(q) =>
      if s.inflight != Some(q) then Err(Mismatch)
      else Validated(s.(pendingDropped := 0, inflight := None))
  }

  function Validated(s: NativeState): Result<NativeState, StateError> {
    if NativeValid(s) then Ok(s) else Err(BadFile)
  }

  /** Whether a 64-bit state may be stored. */
  predicate InRange(s: NativeState) {
    && 0 <= s.nextSequence <= LONG_MAX && 0 <= s.pendingDropped <= LONG_MAX
    && (s.inflight.Some? ==> s.inflight.value < s.nextSequence)
  }

  /** The frame a Kotlin operation is about, if it needs one, is the one in flight. */
  predicate NativeNames(op: Op, s: NativeState) {
    match op
    case Recover => true
    case Reserve => s.inflight.None?
    case MarkDropped(q) => s.inflight == Some(q)
    case MarkAccepted(q) => s.inflight == Some(q)
  }

  /** From a state in range every Kotlin call is answered as the Python one, but for a counter
      at the end of its 64 bits, which is refused and never stored. */
  lemma NativeAnswers(s: NativeState, op: Op)
    requires InRange(s)
    ensures var r := NativeApply(op, s);
            var counts := op.MarkDropped? || (op.Recover? && s.inflight.Some?);
            && (r == Err(InFlight) <==> op.Reserve? && s.inflight.Some?)
            && (r == Err(Mismatch) <==> (op.MarkDropped? || op.MarkAccepted?) && s.inflight != Some(op.sequence))
            && (r == Err(BadFile) <==>
                  NativeNames(op, s) && ((op.Reserve? && s.nextSequence == LONG_MAX)
                                         || (counts && s.pendingDropped == LONG_MAX)))
            && (r.Ok? ==> InRange(r.value))
            && (r.Ok? && op.Reserve? ==>
                  r.value == NativeState(s.nextSequence + 1, s.pendingDropped, Some(s.nextSequence)))
            && (r.Ok? && op.MarkAccepted? ==> r.value == NativeState(s.nextSequence, 0, None))
            && (r.Ok? && counts ==> r.value == NativeState(s.nextSequence, s.pendingDropped + 1, None))
            && (r.Ok? && op.Recover? && s.inflight.None? ==> r.value == s)
  {
    hide Wrap;
    NextCount(s.nextSequence);
    NextCount(s.pendingDropped);
  }

  lemma NextCount(x: int)
    requires 0 <= x <= LONG_MAX
    ensures if x == LONG_MAX then Wrap(x + 1) < 0 else Wrap(x + 1) == x + 1
  {
    if x < LONG_MAX {
      WrapSmall(x + 1);
    } else {
      assert Wrap(LONG_MAX + 1) == -LONG_MAX - 1;
    }
  }

  /** The single stored entry after a run; an answer that is not `Ok`, or a save that
      did not replace the file, leaves it as it was. */
  function NativeRun(ops: seq<(Op, Fate)>): NativeState {
    if ops == [] then NativeState(0, 0, None)
    else
      var s := NativeRun(ops[..|ops| - 1]);
      var (op, fate) := ops[|ops| - 1];
      if NativeApply(op, s).Ok? && Commits(fate) then NativeApply(op, s).value else s
  }

  function PythonRun(ops: seq<(Op, Fate)>): Entry {
    if ops == [] then FRESH
    else
      var e := PythonRun(ops[..|ops| - 1]);
      var (op, fate) := ops[|ops| - 1];
      if Apply(op, e).Ok? && Commits(fate) then Apply(op, e).value else e
  }

  function Narrow(e: Entry): NativeState {
    NativeState(e.nextSequence, e.pendingDropped,
                if e.inflight.Some? then Some(e.inflight.value) else None)
  }

  function ReserveCount(ops: seq<(Op, Fate)>): nat {
    if ops == [] then 0
    else ReserveCount(ops[..|ops| - 1]) + (if ops[|ops| - 1].0.Reserve? then 1 else 0)
  }

  /** The drop counter never outruns the sequence counter. */
  lemma {:induction false} PendingBounded(ops: seq<(Op, Fate)>)
    ensures var e := PythonRun(ops);
            e.pendingDropped + InflightCount(e) <= e.nextSequence <= ReserveCount(ops) && WellFormed(e)
  {
    if ops != [] {
      PendingBounded(ops[..|ops| - 1]);
    }
  }

  lemma WrapSmall(x: int)
    requires 0 <= x <= LONG_MAX
    ensures Wrap(x) == x
  {}

  lemma NativeStep(op: Op, e: Entry)
    requires WellFormed(e) && e.pendingDropped + InflightCount(e) <= e.nextSequence
    requires e.nextSequence + (if op.Reserve? then 1 else 0) <= LONG_MAX
    ensures match Apply(op, e)
            case Ok(e') => NativeApply(op, Narrow(e)) == Ok(Narrow(e'))
            case Err(_) => NativeApply(op, Narrow(e)).Err?
  {
    if op.Reserve? {
      WrapSmall(e.nextSequence + 1);
    } else if e.inflight.Some? {
      WrapSmall(e.pendingDropped + 1);
    }
  }

  /** The Kotlin store follows the Python one step for step as long as fewer than
      2^63 reservations are asked for: the 64-bit counters do not wrap, because the
      drop counter stays below the sequence counter. */
  lemma {:induction false} NativeStoreRefines(ops: seq<(Op, Fate)>)
    requires ReserveCount(ops) <= LONG_MAX
    ensures NativeRun(ops) == Narrow(PythonRun(ops))
  {
    if ops != [] {
      var before := ops[..|ops| - 1];
      NativeStoreRefines(before);
      PendingBounded(before);
      NativeStep(ops[|ops| - 1].0, PythonRun(before));
    }
  }

  /** At the last 64-bit sequence the Kotlin store refuses the reservation and keeps its
      file, instead of storing a negative sequence. */
  lemma ReservationExhausted(s: NativeState)
    requires s.nextSequence <= LONG_MAX && s.inflight.None? && NativeValid(s)
    ensures NativeApply(Reserve, s).Err? <==> s.nextSequence == LONG_MAX
  {
    if s.nextSequence == LONG_MAX {
      assert Wrap(LONG_MAX + 1) == -LONG_MAX - 1;
    } else {
      assert Wrap(s.nextSequence + 1) == s.nextSequence + 1;
    }
  }
}
