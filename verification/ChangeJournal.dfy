/** Bounded cursor journals: the persistent sensor change feed and its in-memory twin for
    perception events, and what a client that follows the cursors receives. */
module ChangeJournal {
  import opened Wrappers

  datatype Entry<+E> = Entry(cursor: nat, event: E)

  datatype Batch<+E> = Batch(
    entries: seq<Entry<E>>,
    nextCursor: nat,
    oldest: Option<nat>,
    newest: Option<nat>,
    gap: bool,
    streamReset: bool)

  datatype ReadError = NegativeCursor | BadLimit | BadWait

  // ---------------------------------------------------------------- reading a retained window

  function Oldest<E>(items: seq<Entry<E>>): Option<nat> {
    if items == [] then None else Some(items[0].cursor)
  }

  function Newest<E>(items: seq<Entry<E>>): Option<nat> {
    if items == [] then None else Some(items[|items| - 1].cursor)
  }

  function After<E>(items: seq<Entry<E>>, cursor: int): seq<Entry<E>> {
    if items == [] then []
    else (if items[0].cursor > cursor then [items[0]] else []) + After(items[1..], cursor)
  }

  predicate IsGap<E>(items: seq<Entry<E>>, after: nat) {
    items != [] && after != 0 && after < items[0].cursor - 1
  }

  /** A read of the retained entries after a cursor. */
  function ReadWindow<E>(items: seq<Entry<E>>, after: nat, limit: nat): Batch<E> {
    var gap := IsGap(items, after);
    var effective := if gap then items[0].cursor - 1 else after;
    var entries := Take(After(items, effective), limit);
    var next := if entries != [] then entries[|entries| - 1].cursor else if gap then effective else after;
    Batch(entries, next, Oldest(items), Newest(items), gap, false)
  }

  /** An append with eviction of everything beyond the capacity. */
  function Push<E>(items: seq<Entry<E>>, e: Entry<E>, capacity: nat): seq<Entry<E>> {
    Trim(items + [e], capacity)
  }

  function Trim<E>(items: seq<Entry<E>>, capacity: nat): seq<Entry<E>> {
    if |items| <= capacity then items else items[|items| - capacity..]
  }

  method EvictBeyond<E>(items: seq<Entry<E>>, capacity: nat) returns (r: seq<Entry<E>>)
    ensures r == Trim(items, capacity)
  {
    r := items;
    while |r| > capacity
      invariant |r| <= |items| && r == items[|items| - |r|..]
      invariant |items| > capacity ==> |r| >= capacity
      invariant |items| <= capacity ==> r == items
    {
      r := r[1..];
    }
  }

  // ---------------------------------------------------------------- the persistent feed

  datatype Event<+P> = Event(payload: P, stateRevision: nat)

  datatype JournalFile<+P> = JournalFile(streamId: string, nextCursor: nat, highWater: nat,
      entries: seq<Entry<Event<P>>>)

  function MaxRevision<P>(entries: seq<Entry<Event<P>>>): nat {
    if entries == [] then 0
    else Max(MaxRevision(entries[..|entries| - 1]), entries[|entries| - 1].event.stateRevision)
  }

  function Max(a: nat, b: nat): nat {
    if a < b then b else a
  }

  /** Why a stored journal is refused at start-up. */
  predicate Loadable<P>(f: JournalFile<P>, streamId: Option<string>) {
    && (streamId.Some? ==> streamId.value == f.streamId)
    && (forall i, j :: 0 <= i < j < |f.entries| ==> f.entries[i].cursor < f.entries[j].cursor)
    && (f.entries != [] ==> f.entries[|f.entries| - 1].cursor < f.nextCursor)
  }

  lemma {:induction false} MaxRevisionIsGreatest<P>(entries: seq<Entry<Event<P>>>)
    ensures forall i :: 0 <= i < |entries| ==> entries[i].event.stateRevision <= MaxRevision(entries)
    ensures entries == [] ==> MaxRevision(entries) == 0
    ensures entries != [] ==> exists i :: 0 <= i < |entries| && entries[i].event.stateRevision == MaxRevision(entries)
  {
    if |entries| > 0 {
      var before := entries[..|entries| - 1];
      MaxRevisionIsGreatest(before);
      if before == [] || MaxRevision(before) < entries[|entries| - 1].event.stateRevision {
        assert entries[|entries| - 1].event.stateRevision == MaxRevision(entries);
      } else {
        var i :| 0 <= i < |before| && before[i].event.stateRevision == MaxRevision(before);
        assert entries[i].event.stateRevision == MaxRevision(entries);
      }
    }
  }

  class SensorChangeJournal<P(==)> {
    const capacity: nat
    const persistent: bool
    const streamId: string
    var items: seq<Entry<Event<P>>>
    var nextCursor: nat
    var highWater: nat
    var file: Option<JournalFile<P>>

    /** `freshId` is the identifier drawn for a new stream. */
    constructor (capacity: nat, streamId: Option<string>, freshId: string, persistent: bool,
                 existing: Option<JournalFile<P>>)
      requires capacity >= 1
      requires persistent && existing.Some? ==> Loadable(existing.value, streamId)
      ensures this.capacity == capacity && this.persistent == persistent && file == existing
      ensures if persistent && existing.Some? then
                && this.streamId == existing.value.streamId
                && items == Trim(existing.value.entries, capacity)
                && nextCursor == existing.value.nextCursor
                && highWater == Max(existing.value.highWater, MaxRevision(existing.value.entries))
              else
                && this.streamId == (if streamId.Some? then streamId.value else freshId)
                && items == [] && nextCursor == 1 && highWater == 0
    {
      this.capacity, this.persistent, file := capacity, persistent, existing;
      if persistent && existing.Some? {
        this.streamId := existing.value.streamId;
        items := Trim(existing.value.entries, capacity);
        nextCursor := existing.value.nextCursor;
        highWater := Max(existing.value.highWater, MaxRevision(existing.value.entries));
      } else {
        this.streamId := if streamId.Some? then streamId.value else freshId;
        items, nextCursor, highWater := [], 1, 0;
      }
    }

    method Save(saved: bool) returns (ok: bool)
      modifies this`file
      ensures ok == (saved || !persistent)
      ensures file == if persistent && saved then Some(JournalFile(streamId, nextCursor, highWater, items))
              else old(file)
    {
      if !persistent {
        return true;
      }
      ok := saved;
      if saved {
        file := Some(JournalFile(streamId, nextCursor, highWater, items));
      }
    }

    /** Either the event is in memory and file with the next cursor, or nothing moved. */
    method Append(event: Event<P>, saved: bool) returns (r: Option<Entry<Event<P>>>)
      modifies this
      ensures if saved || !persistent then
                && r == Some(Entry(old(nextCursor), event))
                && items == Push(old(items), r.value, capacity)
                && nextCursor == old(nextCursor) + 1
                && highWater == Max(old(highWater), event.stateRevision)
                && file == (if persistent then Some(JournalFile(streamId, nextCursor, highWater, items)) else old(file))
              else
                && r == None && items == old(items) && nextCursor == old(nextCursor)
                && highWater == old(highWater) && file == old(file)
    {
      var entry := Entry(nextCursor, event);
      var previousItems, previousNext, previousHigh := items, nextCursor, highWater;
      nextCursor := nextCursor + 1;
      highWater := Max(highWater, event.stateRevision);
      items := EvictBeyond(items + [entry], capacity);
      var ok := Save(saved);
      if !ok {
        items, nextCursor, highWater := previousItems, previousNext, previousHigh;
        return None;
      }
      r := Some(entry);
    }

    method Read(after: int, limit: int, expectedStream: Option<string>) returns (r: Result<Batch<Event<P>>, ReadError>)
      ensures r == if after < 0 then Err(NegativeCursor)
                   else if !(1 <= limit <= 256) then Err(BadLimit)
                   else if expectedStream.Some? && expectedStream.value != streamId then
                     Ok(Batch([], 0, Oldest(items), Newest(items), false, true))
                   else Ok(ReadWindow(items, after, limit))
    {
      if after < 0 {
        return Err(NegativeCursor);
      }
      if !(1 <= limit <= 256) {
        return Err(BadLimit);
      }
      if expectedStream.Some? && expectedStream.value != streamId {
        return Ok(Batch([], 0, Oldest(items), Newest(items), false, true));
      }
      r := Ok(ReadWindow(items, after, limit));
    }
  }

  /** Starting the journal: None for a capacity, a stream identifier or a stored file that
      the source refuses. */
  method Open<P(==)>(capacity: int, streamId: Option<string>, freshId: string, persistent: bool,
                existing: Option<JournalFile<P>>)
    returns (r: Option<SensorChangeJournal<P>>)
    ensures r.Some? <==>
              && capacity >= 1
              && (streamId.Some? ==> 1 <= |streamId.value| <= 128)
              && (persistent && existing.Some? ==>
                    var f := existing.value;
                    && (streamId.Some? ==> streamId.value == f.streamId)
                    && (forall i, j :: 0 <= i < j < |f.entries| ==> f.entries[i].cursor < f.entries[j].cursor)
                    && (forall i :: 0 <= i < |f.entries| ==> f.entries[i].cursor < f.nextCursor))
    ensures r.Some? ==> fresh(r.value) && r.value.capacity == capacity && r.value.persistent == persistent
    ensures r.Some? && persistent && existing.Some? ==>
              && r.value.items == Trim(existing.value.entries, capacity)
              && r.value.nextCursor == existing.value.nextCursor
              && r.value.streamId == existing.value.streamId
              && existing.value.highWater <= r.value.highWater
              && (forall i :: 0 <= i < |existing.value.entries| ==>
                    existing.value.entries[i].event.stateRevision <= r.value.highWater)
              && (|| r.value.highWater == existing.value.highWater
                  || exists i :: 0 <= i < |existing.value.entries|
                       && existing.value.entries[i].event.stateRevision == r.value.highWater)
    ensures r.Some? && !(persistent && existing.Some?) ==>
              && r.value.items == [] && r.value.nextCursor == 1 && r.value.highWater == 0
              && r.value.streamId == if streamId.Some? then streamId.value else freshId
  {
    if capacity < 1 || (streamId.Some? && !(1 <= |streamId.value| <= 128)) {
      return None;
    }
    if persistent && existing.Some? && !Loadable(existing.value, streamId) {
      return None;
    }
    if persistent && existing.Some? {
      MaxRevisionIsGreatest(existing.value.entries);
    }
    var journal := new SensorChangeJournal(capacity, streamId, freshId, persistent, existing);
    r := Some(journal);
  }

  // ---------------------------------------------------------------- the in-memory twin

  class EventJournal<E> {
    const capacity: nat
    var items: seq<Entry<E>>
    var nextCursor: nat

    constructor (capacity: nat)
      requires capacity >= 1
      ensures this.capacity == capacity && items == [] && nextCursor == 1
    {
      this.capacity, items, nextCursor := capacity, [], 1;
    }

    method Append(event: E) returns (entry: Entry<E>)
      modifies this
      ensures entry == Entry(old(nextCursor), event) && nextCursor == old(nextCursor) + 1
      ensures items == Push(old(items), entry, capacity)
    {
      entry := Entry(nextCursor, event);
      nextCursor := nextCursor + 1;
      items := EvictBeyond(items + [entry], capacity);
    }

    method Read(after: int, limit: int) returns (r: Result<Batch<E>, ReadError>)
      ensures r == if after < 0 then Err(NegativeCursor)
                   else if !(1 <= limit <= 256) then Err(BadLimit)
                   else Ok(ReadWindow(items, after, limit))
    {
      if after < 0 {
        return Err(NegativeCursor);
      }
      if !(1 <= limit <= 256) {
        return Err(BadLimit);
      }
      r := Ok(ReadWindow(items, after, limit));
    }
  }

  // ---------------------------------------------------------------- the retained window is a suffix of the log

  /** Events carry their position in the whole log as cursor, counted from one. */
  function Numbered<E>(log: seq<E>, from: nat): seq<Entry<E>>
    requires from <= |log|
  {
    seq(|log| - from, i requires 0 <= i < |log| - from => Entry(from + i + 1, log[from + i]))
  }

  ghost predicate IsWindow<E>(items: seq<Entry<E>>, nextCursor: nat, log: seq<E>) {
    && nextCursor == |log| + 1
    && |items| <= |log|
    && items == Numbered(log, |log| - |items|)
    && (log != [] ==> items != [])
  }

  lemma TrimKeepsWindow<E>(items: seq<Entry<E>>, nextCursor: nat, log: seq<E>, capacity: nat)
    requires IsWindow(items, nextCursor, log) && capacity >= 1
    ensures IsWindow(Trim(items, capacity), nextCursor, log)
    ensures |Trim(items, capacity)| == if |items| < capacity then |items| else capacity
  {}

  lemma PushKeepsWindow<E>(items: seq<Entry<E>>, nextCursor: nat, log: seq<E>, event: E, capacity: nat)
    requires IsWindow(items, nextCursor, log) && capacity >= 1
    ensures IsWindow(Push(items, Entry(nextCursor, event), capacity), nextCursor + 1, log + [event])
    ensures |Push(items, Entry(nextCursor, event), capacity)| == if |items| < capacity then |items| + 1 else capacity
  {
    var log' := log + [event];
    var all := items + [Entry(nextCursor, event)];
    assert all == Numbered(log', |log'| - |all|);
    TrimKeepsWindow(all, nextCursor + 1, log', capacity);
  }

  lemma {:induction false} AfterIsSuffix<E>(log: seq<E>, from: nat, cursor: int)
    requires from <= |log|
    ensures After(Numbered(log, from), cursor)
            == Numbered(log, if cursor <= from then from else if cursor <= |log| then cursor else |log|)
    decreases |log| - from
  {
    hide Numbered;
    var items := Numbered(log, from);
    NumberedSize(log, from);
    if from < |log| {
      NumberedHead(log, from);
      AfterIsSuffix(log, from + 1, cursor);
    } else if cursor > from {
      NumberedSize(log, |log|);
    }
  }

  lemma NumberedHead<E>(log: seq<E>, from: nat)
    requires from < |log|
    ensures Numbered(log, from) != [] && Numbered(log, from)[0].cursor == from + 1
    ensures Numbered(log, from)[1..] == Numbered(log, from + 1)
    ensures [Numbered(log, from)[0]] + Numbered(log, from + 1) == Numbered(log, from)
  {}

  lemma GapMeansEvicted<E>(items: seq<Entry<E>>, nextCursor: nat, log: seq<E>, after: nat)
    requires IsWindow(items, nextCursor, log)
    ensures IsGap(items, after) <==> 0 < after < |log| - |items|
    ensures items != [] ==> items[0].cursor == |log| - |items| + 1 && items[|items| - 1].cursor == |log|
  {}

  /** What a read answers, in terms of the whole log: a gap exactly when the next event
      has been evicted, and otherwise the log from the cursor on, cut at the limit. */
  lemma ReadMeansLog<E>(items: seq<Entry<E>>, nextCursor: nat, log: seq<E>, after: nat, limit: nat)
    requires IsWindow(items, nextCursor, log) && limit >= 1 && 0 < after <= |log|
    ensures var b := ReadWindow(items, after, limit);
            && (b.gap <==> after < |log| - |items|)
            && (!b.gap ==>
                  && b.entries == Take(Numbered(log, after), limit)
                  && b.nextCursor == after + |b.entries|)
  {
    GapMeansEvicted(items, nextCursor, log, after);
    if !IsGap(items, after) {
      AfterIsSuffix(log, |log| - |items|, after);
      var rest := Numbered(log, after);
      assert After(items, after) == rest;
      var entries := Take(rest, limit);
      if entries != [] {
        assert entries[|entries| - 1] == rest[|entries| - 1];
      }
    }
  }

  /** Gap or not, a read serves the first of the entries that are left after the cursor, tells
      where to go on, and names the oldest and the newest cursor there are. */
  lemma ReadServes<E>(items: seq<Entry<E>>, nextCursor: nat, log: seq<E>, after: nat, limit: nat)
    requires IsWindow(items, nextCursor, log) && limit >= 1 && 0 < after <= |log|
    ensures var b := ReadWindow(items, after, limit);
            var from := if after < |log| - |items| then |log| - |items| else after;
            var n := if limit < |log| - from then limit else |log| - from;
            && |Numbered(log, from)| == |log| - from
            && b.entries == Numbered(log, from)[..n] && b.nextCursor == from + n && !b.streamReset
            && b.oldest == Some(|log| - |items| + 1) && b.newest == Some(|log|)
  {
    hide Numbered, ReadWindow, IsWindow, IsGap;
    var from := if after < |log| - |items| then |log| - |items| else after;
    GapMeansEvicted(items, nextCursor, log, after);
    WindowIsNumbered(items, nextCursor, log);
    AfterIsSuffix(log, |log| - |items|, from);
    NumberedSize(log, from);
    forall i | 0 <= i < |log| - from ensures Numbered(log, from)[i].cursor == from + i + 1 {
      NumberedCursor(log, from, i);
    }
    ServesRest(items, after, limit, from, Numbered(log, from));
  }

  lemma WindowIsNumbered<E>(items: seq<Entry<E>>, nextCursor: nat, log: seq<E>)
    requires IsWindow(items, nextCursor, log)
    ensures |items| <= |log| && items == Numbered(log, |log| - |items|) && (log != [] ==> items != [])
  {}

  lemma ServesRest<E>(items: seq<Entry<E>>, after: nat, limit: nat, from: nat, rest: seq<Entry<E>>)
    requires limit >= 1 && items != [] && items[0].cursor >= 1
    requires from == (if IsGap(items, after) then items[0].cursor - 1 else after) && After(items, from) == rest
    requires forall i :: 0 <= i < |rest| ==> rest[i].cursor == from + i + 1
    ensures var b := ReadWindow(items, after, limit);
            var n := if limit < |rest| then limit else |rest|;
            && b.entries == rest[..n] && b.nextCursor == from + n && !b.streamReset
            && b.oldest == Some(items[0].cursor) && b.newest == Some(items[|items| - 1].cursor)
  {
    hide After, IsGap;
    assert rest[..|rest|] == rest;
  }

  /** A cursor beyond the log, as from another stream, is answered with nothing. */
  lemma ReadBeyondLog<E>(items: seq<Entry<E>>, nextCursor: nat, log: seq<E>, after: nat, limit: nat)
    requires IsWindow(items, nextCursor, log) && |log| < after
    ensures ReadWindow(items, after, limit) == Batch([], after, Oldest(items), Newest(items), false, false)
  {
    GapMeansEvicted(items, nextCursor, log, after);
    AfterIsSuffix(log, |log| - |items|, after);
  }

  // ---------------------------------------------------------------- saving and loading

  ghost predicate RevisionsBelow<P>(items: seq<Entry<Event<P>>>, highWater: nat) {
    forall i :: 0 <= i < |items| ==> items[i].event.stateRevision <= highWater
  }

  lemma {:induction false} MaxRevisionBelow<P>(items: seq<Entry<Event<P>>>, highWater: nat)
    requires RevisionsBelow(items, highWater)
    ensures MaxRevision(items) <= highWater
  {
    if items != [] {
      MaxRevisionBelow(items[..|items| - 1], highWater);
    }
  }

  /** A journal file this journal wrote is accepted at the next start and gives back its
      cursor position and high-water revision. */
  lemma StoredJournalLoads<P>(f: JournalFile<P>, log: seq<Event<P>>)
    requires IsWindow(f.entries, f.nextCursor, log) && RevisionsBelow(f.entries, f.highWater)
    ensures Loadable(f, Some(f.streamId)) && Loadable(f, None)
    ensures Max(f.highWater, MaxRevision(f.entries)) == f.highWater
  {
    MaxRevisionBelow(f.entries, f.highWater);
  }

  // ---------------------------------------------------------------- a client that follows the cursors

  /** The journal as the client meets it, under the identifier `id`. `log` holds every
      committed event of the current stream; a volatile journal begins another stream at
      each restart, with an identifier drawn for it or with one that was configured.
      `stream` is history. */
  datatype Feed<+E> = Feed(id: nat, stream: nat, items: seq<Entry<E>>, nextCursor: nat, capacity: nat, log: seq<E>)

  datatype FeedStep<+E> =
    | Append(event: E)
    | FailedAppend
    | Restart(capacity: nat, persistent: bool, configuredId: bool)
    | Read(limit: nat)

  /** The follower: where it stands, what it has received, and whether a batch has told
      it that something is missing. */
  datatype Follower<+E> = Follower(id: nat, stream: nat, cursor: nat, received: seq<Entry<E>>, warned: bool)

  predicate Sensible<E>(s: FeedStep<E>) {
    match s
    case Restart(capacity, _, _) => capacity >= 1
    case Read(limit) => 1 <= limit <= 256
    case _ => true
  }

  function FeedAfter<E>(f: Feed<E>, s: FeedStep<E>): Feed<E> {
    match s
    case Append(e) =>
      f.(items := Push(f.items, Entry(f.nextCursor, e), f.capacity), nextCursor := f.nextCursor + 1, log := f.log + [e])
    case FailedAppend => f
    case Restart(capacity, persistent, configuredId) =>
      if persistent then f.(items := Trim(f.items, capacity), capacity := capacity)
      else Feed(if configuredId then f.id else f.stream + 1, f.stream + 1, [], 1, capacity, [])
    case Read(_) => f
  }

  function FollowerAfter<E>(f: Feed<E>, c: Follower<E>, s: FeedStep<E>): Follower<E> {
    if !s.Read? || c.warned then c
    else if c.id != f.id then c.(warned := true)
    else
      var b := ReadWindow(f.items, c.cursor, s.limit);
      if b.gap then c.(warned := true)
      else c.(cursor := b.nextCursor, received := c.received + b.entries)
  }

  function Follow<E>(f: Feed<E>, c: Follower<E>, steps: seq<FeedStep<E>>): (Feed<E>, Follower<E>) {
    if steps == [] then (f, c)
    else
      var (g, d) := Follow(f, c, steps[..|steps| - 1]);
      (FeedAfter(g, steps[|steps| - 1]), FollowerAfter(g, d, steps[|steps| - 1]))
  }

  ghost predicate FeedConsistent<E>(f: Feed<E>) {
    f.id <= f.stream && f.capacity >= 1 && IsWindow(f.items, f.nextCursor, f.log)
  }

  lemma FeedStepKeeps<E>(f: Feed<E>, s: FeedStep<E>)
    requires FeedConsistent(f) && Sensible(s)
    ensures FeedConsistent(FeedAfter(f, s))
  {
    match s
    case Append(e) => PushKeepsWindow(f.items, f.nextCursor, f.log, e, f.capacity);
    case FailedAppend =>
    case Restart(capacity, _, _) => TrimKeepsWindow(f.items, f.nextCursor, f.log, capacity);
    case Read(_) =>
  }

  /** The follower has exactly the log from its start to its cursor. */
  ghost predicate Faithful<E>(f: Feed<E>, c: Follower<E>, start: nat) {
    !c.warned && c.stream == f.stream ==>
      && start <= c.cursor <= |f.log|
      && c.received == Numbered(f.log, start)[..c.cursor - start]
  }

  lemma NumberedJoins<E>(log: seq<E>, start: nat, cursor: nat, n: nat)
    requires start <= cursor && cursor + n <= |log|
    ensures Numbered(log, start)[..cursor - start] + Numbered(log, cursor)[..n]
            == Numbered(log, start)[..cursor + n - start]
  {}

  lemma ReadStepKeeps<E>(f: Feed<E>, c: Follower<E>, limit: nat, start: nat)
    requires FeedConsistent(f) && limit >= 1 && Faithful(f, c, start)
    requires !c.warned && c.stream == f.stream ==> c.id == f.id && c.cursor > 0
    ensures Faithful(f, FollowerAfter(f, c, FeedStep.Read(limit)), start)
  {
    hide ReadWindow, Numbered, IsWindow;
    if !c.warned && c.stream == f.stream {
      ReadMeansLog(f.items, f.nextCursor, f.log, c.cursor, limit);
      NumberedSize(f.log, c.cursor);
      NumberedSize(f.log, start);
      var b := ReadWindow(f.items, c.cursor, limit);
      if !b.gap {
        assert b.entries == Numbered(f.log, c.cursor)[..|b.entries|];
        NumberedJoins(f.log, start, c.cursor, |b.entries|);
      }
    }
  }

  lemma NumberedGrows<E>(log: seq<E>, event: E, start: nat, n: nat)
    requires start + n <= |log|
    ensures Numbered(log + [event], start)[..n] == Numbered(log, start)[..n]
  {}

  lemma FollowStepKeeps<E>(f: Feed<E>, c: Follower<E>, s: FeedStep<E>, start: nat)
    requires FeedConsistent(f) && Sensible(s) && Faithful(f, c, start) && c.stream <= f.stream
    requires !c.warned && c.stream == f.stream ==> c.id == f.id && c.cursor > 0
    ensures Faithful(FeedAfter(f, s), FollowerAfter(f, c, s), start)
    ensures FollowerAfter(f, c, s).stream <= FeedAfter(f, s).stream
  {
    match s
    case Append(e) =>
      if !c.warned && c.stream == f.stream {
        NumberedGrows(f.log, e, start, c.cursor - start);
      }
    case FailedAppend =>
    case Restart(_, _, _) =>
    case Read(limit) => ReadStepKeeps(f, c, limit, start);
  }

  /** A follower of an old stream can tell by the identifier, unless a volatile journal came
      back under a configured one. */
  ghost predicate KnowsStream<E>(f: Feed<E>, c: Follower<E>, reused: bool) {
    && c.stream <= f.stream
    && (c.stream == f.stream ==> c.id == f.id)
    && (!reused && c.stream < f.stream ==> c.id < f.id)
    && c.id <= c.stream
  }

  predicate Reuses<E>(s: FeedStep<E>) {
    s.Restart? && !s.persistent && s.configuredId
  }

  lemma StreamStep<E>(f: Feed<E>, c: Follower<E>, s: FeedStep<E>, reused: bool)
    requires KnowsStream(f, c, reused) && f.id <= f.stream
    ensures KnowsStream(FeedAfter(f, s), FollowerAfter(f, c, s), reused || Reuses(s))
  {}

  /** Over any run of appends, failed saves, evictions, restarts and reads with any limits,
      a client that starts at a nonzero issued cursor and follows next_cursor has received
      exactly the later events up to where it stands, each once and in order, as long as
      no batch reported a gap or a stream reset and its stream is still the current one;
      and it can tell that by the identifier as long as no volatile journal has come back
      under a configured one. */
  lemma {:induction false} FollowerMissesNothing<E>(f: Feed<E>, start: nat, steps: seq<FeedStep<E>>)
    requires FeedConsistent(f) && 0 < start <= |f.log|
    requires forall s :: s in steps ==> Sensible(s)
    ensures var (g, d) := Follow(f, Follower(f.id, f.stream, start, [], false), steps);
            && FeedConsistent(g)
            && Faithful(g, d, start)
            && KnowsStream(g, d, exists s :: s in steps && Reuses(s))
            && d.cursor > 0
  {
    if steps != [] {
      var before := steps[..|steps| - 1];
      var s := steps[|steps| - 1];
      assert s in steps && steps == before + [s];
      FollowerMissesNothing(f, start, before);
      var (g, d) := Follow(f, Follower(f.id, f.stream, start, [], false), before);
      FeedStepKeeps(g, s);
      FollowStepKeeps(g, d, s, start);
      StreamStep(g, d, s, exists u :: u in before && Reuses(u));
      CursorGrows(g, d, s);
    }
  }

  lemma CursorGrows<E>(f: Feed<E>, c: Follower<E>, s: FeedStep<E>)
    requires FeedConsistent(f) && Sensible(s)
    ensures c.cursor <= FollowerAfter(f, c, s).cursor
  {
    hide ReadWindow;
    if s.Read? && !c.warned && c.id == f.id && c.cursor > 0 {
      if c.cursor <= |f.log| {
        ReadMeansLog(f.items, f.nextCursor, f.log, c.cursor, s.limit);
      } else {
        ReadBeyondLog(f.items, f.nextCursor, f.log, c.cursor, s.limit);
      }
    }
  }

  /** A volatile journal that comes back under a configured identifier starves its old
      followers without a word: one at a nonzero cursor is served nothing of the new stream
      until that stream is longer than the cursor, and then from the cursor on. */
  lemma ConfiguredIdStarves<E>(f: Feed<E>, c: Follower<E>, limit: nat)
    requires FeedConsistent(f) && limit >= 1 && !c.warned && c.id == f.id && c.stream < f.stream && c.cursor > 0
    ensures var d := FollowerAfter(f, c, FeedStep.Read(limit));
            && (|f.log| <= c.cursor ==> d == c)
            && (|f.log| > c.cursor && !d.warned ==> d.received == c.received + Take(Numbered(f.log, c.cursor), limit))
            && (d.warned <==> c.cursor < |f.log| - |f.items|)
  {
    if |f.log| < c.cursor {
      ReadBeyondLog(f.items, f.nextCursor, f.log, c.cursor, limit);
    } else {
      ReadMeansLog(f.items, f.nextCursor, f.log, c.cursor, limit);
    }
    GapMeansEvicted(f.items, f.nextCursor, f.log, c.cursor);
    assert c.received + [] == c.received;
  }

  /** A reader behind on a current stream is served or warned by its next read: it can
      not be left standing; and one of a stream with another identifier is warned. */
  lemma ReadMakesProgress<E>(f: Feed<E>, c: Follower<E>, limit: nat)
    requires FeedConsistent(f) && 1 <= limit && !c.warned && (c.id == f.id ==> 0 < c.cursor <= |f.log|)
    ensures var d := FollowerAfter(f, c, FeedStep.Read(limit));
            && (c.id == f.id && c.cursor < |f.log| ==> d.warned || c.cursor < d.cursor)
            && (d.warned <==> c.id != f.id || c.cursor < |f.log| - |f.items|)
  {
    if c.id == f.id {
      ReadMeansLog(f.items, f.nextCursor, f.log, c.cursor, limit);
      assert |Numbered(f.log, c.cursor)| == |f.log| - c.cursor;
    }
  }

  /** A cursor of zero never reports a gap: it serves whatever is retained. It has missed
      nothing if and only if nothing was evicted, which a reader can tell by the oldest
      cursor that the answer names. */
  lemma CursorZeroStartsAtRetained<E>(f: Feed<E>, limit: nat)
    requires FeedConsistent(f) && limit >= 1
    ensures var b := ReadWindow(f.items, 0, limit);
            && !b.gap && !b.streamReset && b.entries == Take(f.items, limit)
            && (b.entries == Take(Numbered(f.log, 0), limit) <==> |f.items| == |f.log|)
            && (f.log != [] ==> (b.oldest == Some(1) <==> |f.items| == |f.log|))
  {
    ZeroServesRetained(f.items, f.nextCursor, f.log, limit);
  }

  lemma ZeroServesRetained<E>(items: seq<Entry<E>>, nextCursor: nat, log: seq<E>, limit: nat)
    requires IsWindow(items, nextCursor, log) && limit >= 1
    ensures var b := ReadWindow(items, 0, limit);
            && !b.gap && !b.streamReset && b.entries == Take(items, limit)
            && (b.entries == Take(Numbered(log, 0), limit) <==> |items| == |log|)
            && (log != [] ==> (b.oldest == Some(1) <==> |items| == |log|))
  {
    hide Numbered, After, IsWindow;
    WindowIsNumbered(items, nextCursor, log);
    AfterIsSuffix(log, |log| - |items|, 0);
    NumberedSize(log, 0);
    if log != [] {
      NumberedCursor(log, |log| - |items|, 0);
      NumberedCursor(log, 0, 0);
      Prefixed(items, limit);
      Prefixed(Numbered(log, 0), limit);
    }
  }

  /** A follower that starts at zero has received nothing, or a stretch of the log without
      skip or duplicate that begins with the first entry it got. */
  ghost predicate Stretch<E>(f: Feed<E>, c: Follower<E>) {
    !c.warned && c.stream == f.stream ==>
      && (c.cursor == 0 <==> c.received == [])
      && (c.received != [] ==> c.received[0].cursor >= 1 && Faithful(f, c, c.received[0].cursor - 1))
  }

  lemma ReadFromZero<E>(items: seq<Entry<E>>, nextCursor: nat, log: seq<E>, limit: nat)
    requires IsWindow(items, nextCursor, log) && limit >= 1
    ensures var b := ReadWindow(items, 0, limit);
            var from := |log| - |items|;
            && !b.gap
            && |b.entries| <= |items| <= |log|
            && b.entries == Numbered(log, from)[..|b.entries|]
            && b.nextCursor == if b.entries == [] then 0 else from + |b.entries|
  {
    var from := |log| - |items|;
    hide Numbered, After;
    AfterIsSuffix(log, from, 0);
    var rest := Numbered(log, from);
    NumberedSize(log, from);
    Prefixed(rest, limit);
    if items != [] {
      NumberedCursor(log, from, |Take(rest, limit)| - 1);
    }
  }

  lemma NumberedSize<E>(log: seq<E>, from: nat)
    requires from <= |log|
    ensures |Numbered(log, from)| == |log| - from
  {}

  lemma NumberedCursor<E>(log: seq<E>, from: nat, i: nat)
    requires from + i < |log|
    ensures i < |Numbered(log, from)| && Numbered(log, from)[i].cursor == from + i + 1
  {}

  lemma Prefixed<E>(s: seq<E>, n: nat)
    ensures |Take(s, n)| <= |s| && Take(s, n) == s[..|Take(s, n)|]
    ensures s != [] && n >= 1 ==> Take(s, n) != []
  {
    assert s[..|s|] == s;
  }

  lemma FirstReadStep<E>(f: Feed<E>, c: Follower<E>, limit: nat)
    requires FeedConsistent(f) && limit >= 1 && !c.warned && c.id == f.id && c.stream == f.stream
    requires c.cursor == 0 && c.received == []
    ensures Stretch(f, FollowerAfter(f, c, FeedStep.Read(limit)))
  {
    hide ReadWindow;
    ReadFromZero(f.items, f.nextCursor, f.log, limit);
    var b := ReadWindow(f.items, 0, limit);
    assert [] + b.entries == b.entries;
    if b.entries != [] {
      assert b.entries[0] == Numbered(f.log, |f.log| - |f.items|)[0];
    }
  }

  lemma StretchStep<E>(f: Feed<E>, c: Follower<E>, s: FeedStep<E>)
    requires FeedConsistent(f) && Sensible(s) && Stretch(f, c) && c.stream <= f.stream
    requires c.stream == f.stream ==> c.id == f.id
    ensures Stretch(FeedAfter(f, s), FollowerAfter(f, c, s))
    ensures FollowerAfter(f, c, s).stream <= FeedAfter(f, s).stream
  {
    hide ReadWindow, Push, Trim;
    if !c.warned && c.stream == f.stream {
      if s.Read? && c.cursor == 0 {
        FirstReadStep(f, c, s.limit);
      } else if c.cursor > 0 {
        var start := c.received[0].cursor - 1;
        FollowStepKeeps(f, c, s, start);
        assert FollowerAfter(f, c, s).received[0] == c.received[0];
      }
    }
  }

  /** Over any run, a client that starts at cursor zero and follows next_cursor holds one
      unbroken stretch of the log up to where it stands, until a batch warns it or the
      stream changes; it has missed nothing if and only if that stretch begins at cursor
      one. */
  lemma {:induction false} FollowerFromZero<E>(f: Feed<E>, steps: seq<FeedStep<E>>)
    requires FeedConsistent(f)
    requires forall s :: s in steps ==> Sensible(s)
    ensures var (g, d) := Follow(f, Follower(f.id, f.stream, 0, [], false), steps);
            && FeedConsistent(g) && KnowsStream(g, d, exists s :: s in steps && Reuses(s))
            && Stretch(g, d)
            && (!d.warned && d.stream == g.stream && d.received != [] ==>
                  (d.received == Numbered(g.log, 0)[..d.cursor] <==> d.received[0].cursor == 1))
  {
    if steps != [] {
      var before := steps[..|steps| - 1];
      var s := steps[|steps| - 1];
      assert s in steps && steps == before + [s];
      FollowerFromZero(f, before);
      var (g, d) := Follow(f, Follower(f.id, f.stream, 0, [], false), before);
      FeedStepKeeps(g, s);
      StretchStep(g, d, s);
      StreamStep(g, d, s, exists u :: u in before && Reuses(u));
    }
    var (g, d) := Follow(f, Follower(f.id, f.stream, 0, [], false), steps);
    if !d.warned && d.stream == g.stream && d.received != [] {
      StretchBegins(g, d);
    }
  }

  lemma StretchBegins<E>(f: Feed<E>, c: Follower<E>)
    requires FeedConsistent(f) && Stretch(f, c) && !c.warned && c.stream == f.stream && c.received != []
    ensures c.cursor <= |f.log|
    ensures c.received == Numbered(f.log, 0)[..c.cursor] <==> c.received[0].cursor == 1
  {
    var start := c.received[0].cursor - 1;
    assert c.received[0] == Numbered(f.log, start)[0];
    assert Numbered(f.log, 0)[..c.cursor][0].cursor == 1;
  }
}
