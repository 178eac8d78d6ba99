/** The greedy per-source tracker: overlap of boxes, one call of the stage, and what holds
    over every sequence of frames. */
module Tracking {
  import opened Wrappers
  import opened Geometry

  predicate ValidBox(b: Box) {
    b.width >= 0.0 && b.height >= 0.0
  }

  /** Length of the common part of two intervals. */
  function Overlap(a0: real, aw: real, b0: real, bw: real): real {
    Max(0.0, Min(a0 + aw, b0 + bw) - Max(a0, b0))
  }

  function Intersection(a: Box, b: Box): real {
    Overlap(a.x, a.width, b.x, b.width) * Overlap(a.y, a.height, b.y, b.height)
  }

  function IoU(a: Box, b: Box): real {
    var inter := Intersection(a, b);
    var union := Area(a) + Area(b) - inter;
    if union > 0.0 then inter / union else 0.0
  }

  lemma OverlapFits(a0: real, aw: real, b0: real, bw: real)
    requires aw >= 0.0 && bw >= 0.0
    ensures 0.0 <= Overlap(a0, aw, b0, bw) <= aw && Overlap(a0, aw, b0, bw) <= bw
    ensures Overlap(a0, aw, b0, bw) == Overlap(b0, bw, a0, aw)
    ensures Overlap(a0, aw, b0, bw) == aw == bw && aw > 0.0 ==> a0 == b0
    ensures Overlap(a0, aw, a0, aw) == aw
  {}

  lemma StrictProduct(u: real, w: real, h: real)
    requires u < w && h > 0.0
    ensures u * h < w * h
  {}

  lemma ProductFits(u: real, v: real, w: real, h: real)
    requires 0.0 <= u <= w && 0.0 <= v <= h
    ensures 0.0 <= u * v <= w * h
    ensures u * v == w * h && w * h > 0.0 ==> u == w && v == h
  {
    assert u * v <= u * h <= w * h;
    if u * v == w * h && w * h > 0.0 {
      assert w > 0.0 && h > 0.0;
      if u < w {
        StrictProduct(u, w, h);
      }
      if v < h {
        StrictProduct(v, h, w);
      }
    }
  }

  lemma IntersectionFits(a: Box, b: Box)
    requires ValidBox(a) && ValidBox(b)
    ensures Intersection(a, b) == Intersection(b, a)
    ensures 0.0 <= Intersection(a, b) <= Area(a) && Intersection(a, b) <= Area(b)
    ensures Intersection(a, b) == Area(a) == Area(b) && Area(a) > 0.0 ==> a == b
    ensures Intersection(a, a) == Area(a)
  {
    hide Overlap;
    var u, v := Overlap(a.x, a.width, b.x, b.width), Overlap(a.y, a.height, b.y, b.height);
    OverlapFits(a.x, a.width, b.x, b.width);
    OverlapFits(a.y, a.height, b.y, b.height);
    ProductFits(u, v, a.width, a.height);
    ProductFits(u, v, b.width, b.height);
  }

  /** Overlap is symmetric and within 0..1, and a box of some area overlaps exactly itself
      fully. */
  lemma IoUIsSymmetricAndBounded(a: Box, b: Box)
    requires ValidBox(a) && ValidBox(b)
    ensures IoU(a, b) == IoU(b, a)
    ensures 0.0 <= IoU(a, b) <= 1.0
    ensures Area(a) > 0.0 ==> (IoU(a, b) == 1.0 <==> a == b)
  {
    hide Intersection, Area;
    IntersectionFits(a, b);
    RatioFits(Intersection(a, b), Area(a), Area(b));
  }

  lemma RatioFits(inter: real, areaA: real, areaB: real)
    requires 0.0 <= inter <= areaA && inter <= areaB
    ensures var union := areaA + areaB - inter;
            union > 0.0 ==> 0.0 <= inter / union <= 1.0 && (inter / union == 1.0 <==> inter == areaA == areaB)
  {
    var union := areaA + areaB - inter;
    if union > 0.0 {
      var q := inter / union;
      assert q * union == inter;
    }
  }

  // ---------------------------------------------------------------- one frame

  datatype Entity = Entity(tag: string, kind: string, bbox: Option<Box>, trackId: Option<nat>)

  /** A track's id is the number its text id shows. */
  datatype Track = Track(id: nat, tag: string, kind: string, bbox: Box, lastSequence: int)

  datatype Config = Config(threshold: real, maxAge: nat)

  predicate Matches(t: Track, e: Entity, used: set<nat>)
    requires e.bbox.Some?
  {
    t.id !in used && t.tag == e.tag && t.kind == e.kind
  }

  predicate Eligible(c: Config, t: Track, e: Entity, used: set<nat>)
    requires e.bbox.Some?
  {
    Matches(t, e, used) && IoU(t.bbox, e.bbox.value) >= c.threshold
  }

  /** The tracks that are not too old for a frame, in their order. */
  function Young(c: Config, ts: seq<Track>, sequence: int): seq<Track> {
    if ts == [] then []
    else Young(c, ts[..|ts| - 1], sequence) +
         (if sequence - ts[|ts| - 1].lastSequence > c.maxAge then [] else [ts[|ts| - 1]])
  }

  /** The last of the best-scoring tracks at or above the threshold. */
  function BestOf(c: Config, ts: seq<Track>, e: Entity, used: set<nat>): (best: Option<nat>)
    requires e.bbox.Some?
    ensures best.Some? ==> best.value < |ts|
  {
    if ts == [] then None
    else
      var n := |ts| - 1;
      var best := BestOf(c, ts[..n], e, used);
      if Eligible(c, ts[n], e, used) && (best.None?
          || IoU(ts[n].bbox, e.bbox.value) >= IoU(ts[best.value].bbox, e.bbox.value))
      then Some(n) else best
  }

  /** The chosen track is unused, of the same label and kind, and overlaps at least as much
      as every other such track; none is chosen only when none reaches the threshold. */
  lemma {:induction false} BestIsGreatest(c: Config, ts: seq<Track>, e: Entity, used: set<nat>)
    requires e.bbox.Some?
    ensures match BestOf(c, ts, e, used)
            case None =>
              forall i :: 0 <= i < |ts| && ts[i].id !in used && ts[i].tag == e.tag && ts[i].kind == e.kind ==>
                IoU(ts[i].bbox, e.bbox.value) < c.threshold
            case Some(k) =>
              && ts[k].id !in used && ts[k].tag == e.tag && ts[k].kind == e.kind
              && IoU(ts[k].bbox, e.bbox.value) >= c.threshold
              && (forall i :: 0 <= i < |ts| && ts[i].id !in used && ts[i].tag == e.tag && ts[i].kind == e.kind ==>
                    IoU(ts[i].bbox, e.bbox.value) <= IoU(ts[k].bbox, e.bbox.value)
                    && (i > k ==> IoU(ts[i].bbox, e.bbox.value) < IoU(ts[k].bbox, e.bbox.value)))
  {
    hide IoU;
    if ts != [] {
      BestIsGreatest(c, ts[..|ts| - 1], e, used);
    }
  }

  /** The next id over all sources, and each source's tracks in the order they were made. */
  datatype State = State(nextId: nat, tracks: map<string, seq<Track>>)

  const START := State(1, map[])

  function TracksOf(s: State, source: string): seq<Track> {
    if source in s.tracks then s.tracks[source] else []
  }

  /** A frame under way: `used` are the ids given out in it so far. */
  datatype Progress = Progress(nextId: nat, tracks: seq<Track>, used: set<nat>, out: seq<Entity>)

  function AfterEntity(c: Config, sequence: int, e: Entity, p: Progress): Progress {
    if e.bbox.None? then p.(out := p.out + [e])
    else
      match BestOf(c, p.tracks, e, p.used)
      case None =>
        Progress(p.nextId + 1, p.tracks + [Track(p.nextId, e.tag, e.kind, e.bbox.value, sequence)],
                 p.used + {p.nextId}, p.out + [e.(trackId := Some(p.nextId))])
      case Some(k) =>
        var t := p.tracks[k];
        Progress(p.nextId, p.tracks[k := t.(bbox := e.bbox.value, lastSequence := sequence)],
                 p.used + {t.id}, p.out + [e.(trackId := Some(t.id))])
  }

  function AfterEntities(c: Config, sequence: int, es: seq<Entity>, p: Progress): Progress {
    if es == [] then p else AfterEntity(c, sequence, es[|es| - 1], AfterEntities(c, sequence, es[..|es| - 1], p))
  }

  datatype Frame = Frame(source: string, sequence: int, entities: seq<Entity>)

  function Begin(c: Config, s: State, f: Frame): Progress {
    Progress(s.nextId, Young(c, TracksOf(s, f.source), f.sequence), {}, [])
  }

  function FrameProgress(c: Config, s: State, f: Frame): Progress {
    AfterEntities(c, f.sequence, f.entities, Begin(c, s, f))
  }

  function AfterFrame(c: Config, s: State, f: Frame): State {
    var p := FrameProgress(c, s, f);
    State(p.nextId, s.tracks[f.source := p.tracks])
  }

  class IoUTrackingStage {
    const config: Config
    var nextId: nat
    var tracks: map<string, seq<Track>>

    ghost function Value(): State
      reads this
    {
      State(nextId, tracks)
    }

    constructor (config: Config)
      ensures this.config == config && Value() == START
    {
      this.config := config;
      nextId, tracks := 1, map[];
    }

    method DropStale(source: string, sequence: int)
      requires source in tracks
      modifies this`tracks
      ensures tracks == old(tracks)[source := Young(config, old(tracks)[source], sequence)]
    {
      var kept: seq<Track> := [];
      var all := tracks[source];
      for i := 0 to |all|
        invariant kept == Young(config, all[..i], sequence)
      {
        assert all[..i + 1][..i] == all[..i];
        if !(sequence - all[i].lastSequence > config.maxAge) {
          kept := kept + [all[i]];
        }
      }
      assert all[..|all|] == all;
      tracks := tracks[source := kept];
    }

    method FindBest(ts: seq<Track>, e: Entity, used: set<nat>) returns (best: Option<nat>)
      requires e.bbox.Some?
      ensures best == BestOf(config, ts, e, used)
    {
      hide IoU;
      best := None;
      var bestIou := config.threshold;
      for i := 0 to |ts|
        invariant best == BestOf(config, ts[..i], e, used)
        invariant best.Some? ==> Eligible(config, ts[best.value], e, used)
        invariant bestIou == if best.Some? then IoU(ts[best.value].bbox, e.bbox.value) else config.threshold
      {
        assert ts[..i + 1][..i] == ts[..i];
        if Matches(ts[i], e, used) {
          var score := IoU(ts[i].bbox, e.bbox.value);
          if score >= bestIou {
            best, bestIou := Some(i), score;
          }
        }
      }
      assert ts[..|ts|] == ts;
    }

    /** One boxed entity finds its track or starts a new one. */
    method Assign(source: string, sequence: int, e: Entity, used: set<nat>) returns (id: nat)
      requires source in tracks && e.bbox.Some?
      modifies this
      ensures source in tracks && tracks == old(tracks)[source := tracks[source]]
      ensures forall out :: Progress(nextId, tracks[source], used + {id}, out + [e.(trackId := Some(id))])
                            == AfterEntity(config, sequence, e, Progress(old(nextId), old(tracks)[source], used, out))
    {
      hide BestOf;
      var ts := tracks[source];
      var best := FindBest(ts, e, used);
      if best.None? {
        id := nextId;
        nextId := nextId + 1;
        tracks := tracks[source := ts + [Track(id, e.tag, e.kind, e.bbox.value, sequence)]];
      } else {
        id := ts[best.value].id;
        tracks := tracks[source := ts[best.value := ts[best.value].(bbox := e.bbox.value, lastSequence := sequence)]];
      }
    }

    method Process(f: Frame) returns (out: seq<Entity>)
      modifies this
      ensures Value() == AfterFrame(config, old(Value()), f)
      ensures out == FrameProgress(config, old(Value()), f).out
    {
      hide BestOf;
      if f.source !in tracks {
        tracks := tracks[f.source := []];
      }
      DropStale(f.source, f.sequence);
      var used: set<nat> := {};
      out := [];
      for i := 0 to |f.entities|
        invariant f.source in tracks && tracks == old(tracks)[f.source := tracks[f.source]]
        invariant Progress(nextId, tracks[f.source], used, out)
                  == AfterEntities(config, f.sequence, f.entities[..i], Begin(config, old(Value()), f))
      {
        assert f.entities[..i + 1][..i] == f.entities[..i];
        var e := f.entities[i];
        if e.bbox.None? {
          out := out + [e];
        } else {
          var id := Assign(f.source, f.sequence, e, used);
          used := used + {id};
          out := out + [e.(trackId := Some(id))];
        }
      }
      assert f.entities[..|f.entities|] == f.entities;
    }
  }

  // ---------------------------------------------------------------- every sequence of frames

  function Run(c: Config, frames: seq<Frame>): State {
    if frames == [] then START else AfterFrame(c, Run(c, frames[..|frames| - 1]), frames[|frames| - 1])
  }

  /** One entity of one frame given a track id. */
  datatype Use = Use(frame: nat, source: string, sequence: int, tag: string, kind: string, box: Box, id: nat)

  /** The uses that a frame's output shows. */
  function Uses(n: nat, f: Frame, es: seq<Entity>): seq<Use> {
    if es == [] then []
    else
      var e := es[|es| - 1];
      Uses(n, f, es[..|es| - 1]) +
      (if e.bbox.Some? && e.trackId.Some?
          then [Use(n, f.source, f.sequence, e.tag, e.kind, e.bbox.value, e.trackId.value)]
       else [])
  }

  function Log(c: Config, frames: seq<Frame>): seq<Use> {
    if frames == [] then []
    else
      var n := |frames| - 1;
      Log(c, frames[..n]) + Uses(n, frames[n], FrameProgress(c, Run(c, frames[..n]), frames[n]).out)
  }

  /** Entity `j` of the log is the latest use of its id. */
  predicate Latest(log: seq<Use>, j: int, id: nat) {
    0 <= j < |log| && log[j].id == id && forall m :: j < m < |log| ==> log[m].id != id
  }

  /** What a use owes to the uses before it: its id is new and above all earlier ones, or it
      continues the latest use of that id, from an earlier frame that is not too old, in the
      same source with the same label and kind, and with enough overlap. */
  predicate Continues(c: Config, earlier: Use, u: Use) {
    && earlier.id == u.id
    && earlier.source == u.source && earlier.tag == u.tag && earlier.kind == u.kind
    && earlier.frame < u.frame
    && u.sequence - earlier.sequence <= c.maxAge
    && IoU(earlier.box, u.box) >= c.threshold
  }

  ghost predicate Justified(c: Config, before: seq<Use>, u: Use) {
    || (forall m :: 0 <= m < |before| ==> before[m].id < u.id)
    || (exists j :: Latest(before, j, u.id) && Continues(c, before[j], u))
  }

  ghost predicate AllJustified(c: Config, log: seq<Use>) {
    forall i :: 0 <= i < |log| ==> Justified(c, log[..i], log[i])
  }

  /** A track stands for the latest use of its id. */
  ghost predicate Stands(t: Track, source: string, log: seq<Use>) {
    exists j :: Latest(log, j, t.id)
      && log[j].source == source && log[j].tag == t.tag && log[j].kind == t.kind
      && log[j].box == t.bbox && log[j].sequence == t.lastSequence
  }

  ghost predicate TracksStand(ts: seq<Track>, source: string, log: seq<Use>) {
    && (forall i :: 0 <= i < |ts| ==> Stands(ts[i], source, log))
    && (forall i, j :: 0 <= i < j < |ts| ==> ts[i].id != ts[j].id)
  }

  predicate IdsBelow(log: seq<Use>, nextId: nat) {
    forall i :: 0 <= i < |log| ==> log[i].id < nextId
  }

  predicate FramesUpTo(log: seq<Use>, n: nat) {
    forall i :: 0 <= i < |log| ==> log[i].frame < n
  }

  ghost predicate Consistent(c: Config, s: State, log: seq<Use>, n: nat) {
    && IdsBelow(log, s.nextId)
    && FramesUpTo(log, n)
    && AllJustified(c, log)
    && (forall source :: source in s.tracks ==> TracksStand(s.tracks[source], source, log))
  }

  /** The same inside frame `n`; `others` are the tracks of the sources it is not about. */
  ghost predicate Steady(c: Config, others: map<string, seq<Track>>, n: nat, f: Frame, p: Progress, log: seq<Use>) {
    && IdsBelow(log, p.nextId)
    && FramesUpTo(log, n + 1)
    && AllJustified(c, log)
    && TracksStand(p.tracks, f.source, log)
    && (forall o :: o in others ==> o != f.source && TracksStand(others[o], o, log))
    && (forall i :: 0 <= i < |p.tracks| ==> f.sequence - p.tracks[i].lastSequence <= c.maxAge)
    && (forall i :: 0 <= i < |log| && log[i].frame == n ==> log[i].id in p.used)
  }

  lemma {:induction false} YoungMembers(c: Config, ts: seq<Track>, sequence: int)
    ensures forall t :: t in Young(c, ts, sequence) <==> t in ts && sequence - t.lastSequence <= c.maxAge
  {
    if ts != [] {
      YoungMembers(c, ts[..|ts| - 1], sequence);
      assert ts == ts[..|ts| - 1] + [ts[|ts| - 1]];
    }
  }

  /** Dropping stale tracks keeps the others in their order. */
  lemma {:induction false} YoungKeepsOrder(c: Config, ts: seq<Track>, sequence: int, i: nat, j: nat)
    returns (m: nat, n: nat)
    requires i < j < |Young(c, ts, sequence)|
    ensures m < n < |ts| && ts[m] == Young(c, ts, sequence)[i] && ts[n] == Young(c, ts, sequence)[j]
  {
    var before := ts[..|ts| - 1];
    var young := Young(c, before, sequence);
    if j < |young| {
      m, n := YoungKeepsOrder(c, before, sequence, i, j);
    } else {
      n := |ts| - 1;
      YoungMembers(c, before, sequence);
      assert young[i] in before;
      m :| 0 <= m < |before| && before[m] == young[i];
    }
  }

  lemma {:induction false} YoungStand(c: Config, ts: seq<Track>, sequence: int, source: string, log: seq<Use>)
    requires TracksStand(ts, source, log)
    ensures TracksStand(Young(c, ts, sequence), source, log)
  {
    hide Stands;
    if ts != [] {
      YoungStand(c, ts[..|ts| - 1], sequence, source, log);
      YoungMembers(c, ts[..|ts| - 1], sequence);
    }
  }

  lemma StandsOn(t: Track, source: string, log: seq<Use>, u: Use)
    requires Stands(t, source, log) && t.id != u.id
    ensures Stands(t, source, log + [u])
  {
    var j :| Latest(log, j, t.id)
      && log[j].source == source && log[j].tag == t.tag && log[j].kind == t.kind
      && log[j].box == t.bbox && log[j].sequence == t.lastSequence;
    assert Latest(log + [u], j, t.id);
  }

  lemma TracksStandOn(ts: seq<Track>, source: string, log: seq<Use>, u: Use)
    requires TracksStand(ts, source, log) && forall i :: 0 <= i < |ts| ==> ts[i].id != u.id
    ensures TracksStand(ts, source, log + [u])
  {
    forall i | 0 <= i < |ts| ensures Stands(ts[i], source, log + [u]) {
      StandsOn(ts[i], source, log, u);
    }
  }

  /** A track's id was given out, and for one source only. */
  lemma StandingIds(t: Track, source: string, log: seq<Use>, nextId: nat)
    requires Stands(t, source, log) && IdsBelow(log, nextId)
    ensures t.id < nextId
    ensures forall o: Track, other :: Stands(o, other, log) && o.id == t.id ==> other == source
  {}

  lemma JustifiedOn(c: Config, log: seq<Use>, u: Use)
    requires AllJustified(c, log) && Justified(c, log, u)
    ensures AllJustified(c, log + [u])
  {
    hide Justified;
    forall i | 0 <= i <= |log| ensures Justified(c, (log + [u])[..i], (log + [u])[i]) {
      assert (log + [u])[..i] == log[..i];
      assert log[..|log|] == log;
    }
  }

  function UseOf(n: nat, f: Frame, e: Entity, id: nat): Use
    requires e.bbox.Some?
  {
    Use(n, f.source, f.sequence, e.tag, e.kind, e.bbox.value, id)
  }

  lemma NewTrackKeeps(c: Config, others: map<string, seq<Track>>, n: nat, f: Frame, p: Progress, log: seq<Use>,
                      e: Entity)
    requires Steady(c, others, n, f, p, log) && e.bbox.Some?
    requires BestOf(c, p.tracks, e, p.used).None?
    ensures Steady(c, others, n, f, AfterEntity(c, f.sequence, e, p), log + [UseOf(n, f, e, p.nextId)])
  {
    hide Stands, BestOf;
    var u := UseOf(n, f, e, p.nextId);
    assert Justified(c, log, u);
    JustifiedOn(c, log, u);
    forall t: Track, source | Stands(t, source, log) ensures t.id < p.nextId {
      StandingIds(t, source, log, p.nextId);
    }
    TracksStandOn(p.tracks, f.source, log, u);
    forall o | o in others ensures TracksStand(others[o], o, log + [u]) {
      TracksStandOn(others[o], o, log, u);
    }
    UsedStands(Track(p.nextId, e.tag, e.kind, e.bbox.value, f.sequence), log, u);
  }

  lemma UsedStands(t: Track, log: seq<Use>, u: Use)
    requires t == Track(u.id, u.tag, u.kind, u.box, u.sequence)
    ensures Stands(t, u.source, log + [u])
  {
    assert Latest(log + [u], |log|, t.id);
  }

  lemma ReuseIsJustified(c: Config, n: nat, f: Frame, t: Track, used: set<nat>, log: seq<Use>, e: Entity)
    requires e.bbox.Some? && Eligible(c, t, e, used) && Stands(t, f.source, log)
    requires FramesUpTo(log, n + 1) && f.sequence - t.lastSequence <= c.maxAge
    requires forall i :: 0 <= i < |log| && log[i].frame == n ==> log[i].id in used
    ensures Justified(c, log, UseOf(n, f, e, t.id))
  {
    hide IoU;
    var j :| Latest(log, j, t.id)
      && log[j].source == f.source && log[j].tag == t.tag && log[j].kind == t.kind
      && log[j].box == t.bbox && log[j].sequence == t.lastSequence;
    assert Continues(c, log[j], UseOf(n, f, e, t.id));
  }

  lemma ReuseKeeps(c: Config, others: map<string, seq<Track>>, n: nat, f: Frame, p: Progress, log: seq<Use>,
                   e: Entity, k: nat)
    requires Steady(c, others, n, f, p, log) && e.bbox.Some?
    requires BestOf(c, p.tracks, e, p.used) == Some(k)
    ensures Steady(c, others, n, f, AfterEntity(c, f.sequence, e, p), log + [UseOf(n, f, e, p.tracks[k].id)])
  {
    hide Stands, BestOf, IoU, Justified;
    BestIsGreatest(c, p.tracks, e, p.used);
    var t := p.tracks[k];
    var u := UseOf(n, f, e, t.id);
    StandingIds(t, f.source, log, p.nextId);
    ReuseIsJustified(c, n, f, t, p.used, log, e);
    JustifiedOn(c, log, u);
    forall i | 0 <= i < |p.tracks| && i != k ensures Stands(p.tracks[i], f.source, log + [u]) {
      StandsOn(p.tracks[i], f.source, log, u);
    }
    forall o | o in others ensures TracksStand(others[o], o, log + [u]) {
      TracksStandOn(others[o], o, log, u);
    }
    UsedStands(t.(bbox := e.bbox.value, lastSequence := f.sequence), log, u);
  }

  lemma {:induction false} EntitiesKeep(c: Config, others: map<string, seq<Track>>, n: nat, f: Frame, p: Progress,
                                        log: seq<Use>, es: seq<Entity>)
    requires Steady(c, others, n, f, p, log) && p.out == []
    ensures var q := AfterEntities(c, f.sequence, es, p); Steady(c, others, n, f, q, log + Uses(n, f, q.out))
  {
    hide Steady, BestOf, Uses;
    NoUses(n, f);
    if es == [] {
      assert log + [] == log;
    } else {
      var before := es[..|es| - 1];
      var e := es[|es| - 1];
      EntitiesKeep(c, others, n, f, p, log, before);
      var q := AfterEntities(c, f.sequence, before, p);
      var r := AfterEntity(c, f.sequence, e, q);
      var l := log + Uses(n, f, q.out);
      if e.bbox.None? {
        OneUseMore(log, n, f, q.out, e);
        assert l + [] == l;
        UnboxedKeeps(c, others, n, f, q, l, e);
      } else {
        match BestOf(c, q.tracks, e, q.used)
        case None =>
          OneUseMore(log, n, f, q.out, e.(trackId := Some(q.nextId)));
          NewTrackKeeps(c, others, n, f, q, l, e);
        case Some(k) =>
          OneUseMore(log, n, f, q.out, e.(trackId := Some(q.tracks[k].id)));
          ReuseKeeps(c, others, n, f, q, l, e, k);
      }
    }
  }

  lemma NoUses(n: nat, f: Frame)
    ensures Uses(n, f, []) == []
  {}

  lemma OneUseMore(log: seq<Use>, n: nat, f: Frame, out: seq<Entity>, e: Entity)
    ensures log + Uses(n, f, out + [e]) == log + Uses(n, f, out) +
              if e.bbox.Some? && e.trackId.Some? then [UseOf(n, f, e, e.trackId.value)] else []
  {
    assert (out + [e])[..|out|] == out;
  }

  lemma UnboxedKeeps(c: Config, others: map<string, seq<Track>>, n: nat, f: Frame, p: Progress, log: seq<Use>,
                     e: Entity)
    requires Steady(c, others, n, f, p, log) && e.bbox.None?
    ensures Steady(c, others, n, f, AfterEntity(c, f.sequence, e, p), log)
  {}

  lemma FrameKeeps(c: Config, s: State, log: seq<Use>, n: nat, f: Frame)
    requires Consistent(c, s, log, n)
    ensures Consistent(c, AfterFrame(c, s, f), log + Uses(n, f, FrameProgress(c, s, f).out), n + 1)
  {
    hide Justified, Stands, AfterEntities;
    var others := s.tracks - {f.source};
    var ts := TracksOf(s, f.source);
    YoungStand(c, ts, f.sequence, f.source, log);
    YoungMembers(c, ts, f.sequence);
    assert Steady(c, others, n, f, Begin(c, s, f), log);
    EntitiesKeep(c, others, n, f, Begin(c, s, f), log, f.entities);
    var after := AfterFrame(c, s, f);
    forall o | o in after.tracks ensures TracksStand(after.tracks[o], o, log + Uses(n, f, FrameProgress(c, s, f).out)) {
      if o != f.source {
        assert o in others && others[o] == after.tracks[o];
      }
    }
  }

  lemma {:induction false} RunIsConsistent(c: Config, frames: seq<Frame>)
    ensures Consistent(c, Run(c, frames), Log(c, frames), |frames|)
  {
    hide Consistent;
    if frames == [] {
      StartIsConsistent(c);
    } else {
      var n := |frames| - 1;
      RunIsConsistent(c, frames[..n]);
      FrameKeeps(c, Run(c, frames[..n]), Log(c, frames[..n]), n, frames[n]);
    }
  }

  lemma StartIsConsistent(c: Config)
    ensures Consistent(c, START, [], 0)
  {}

  /** Over every sequence of frames: every use of a track id is either a new id above all
      earlier ones, or continues the latest use of that id, in an earlier frame of the same
      source that is at most the allowed age back, with the same label and kind and an
      overlap at or above the threshold. */
  lemma {:induction false} EveryUseIsJustified(c: Config, frames: seq<Frame>, i: nat)
    requires i < |Log(c, frames)|
    ensures Justified(c, Log(c, frames)[..i], Log(c, frames)[i])
  {
    RunIsConsistent(c, frames);
  }

  lemma {:induction false} JustifiedIds(c: Config, log: seq<Use>, i: nat, j: nat)
    requires AllJustified(c, log) && i < j < |log| && log[i].id == log[j].id
    ensures log[i].frame < log[j].frame
    ensures log[i].source == log[j].source && log[i].tag == log[j].tag && log[i].kind == log[j].kind
    decreases j
  {
    hide IoU;
    assert Justified(c, log[..j], log[j]) && log[..j][i] == log[i];
    var k :| Latest(log[..j], k, log[j].id) && Continues(c, log[..j][k], log[j]);
    if i < k {
      JustifiedIds(c, log, i, k);
    }
  }

  /** So two uses of one id lie in different frames of one source and agree on label and
      kind: a frame's boxed entities get different tracks, and no id changes source. */
  lemma IdsNeverCrossOver(c: Config, frames: seq<Frame>, i: nat, j: nat)
    requires i < j < |Log(c, frames)| && Log(c, frames)[i].id == Log(c, frames)[j].id
    ensures var u, v := Log(c, frames)[i], Log(c, frames)[j];
            u.frame < v.frame && u.source == v.source && u.tag == v.tag && u.kind == v.kind
  {
    RunIsConsistent(c, frames);
    JustifiedIds(c, Log(c, frames), i, j);
  }

  /** Every number from one up to the next id was given out. */
  ghost predicate Dense(log: seq<Use>, nextId: nat) {
    forall n: nat | 1 <= n < nextId :: Given(log, n)
  }

  ghost predicate Given(log: seq<Use>, id: nat) {
    exists i :: 0 <= i < |log| && log[i].id == id
  }

  lemma DenseOn(log: seq<Use>, more: seq<Use>, nextId: nat)
    requires Dense(log, nextId)
    ensures Dense(log + more, nextId)
  {
    forall n: nat | 1 <= n < nextId ensures Given(log + more, n) {
      assert Given(log, n);
      var i :| 0 <= i < |log| && log[i].id == n;
      assert (log + more)[i].id == n;
    }
  }

  lemma DenseNext(log: seq<Use>, u: Use, nextId: nat)
    requires Dense(log, nextId) && u.id == nextId
    ensures Dense(log + [u], nextId + 1)
  {
    DenseOn(log, [u], nextId);
    assert (log + [u])[|log|].id == nextId;
  }

  lemma {:induction false} EntitiesDense(c: Config, n: nat, f: Frame, p: Progress, log: seq<Use>, es: seq<Entity>)
    requires Dense(log, p.nextId) && p.out == []
    ensures var q := AfterEntities(c, f.sequence, es, p); Dense(log + Uses(n, f, q.out), q.nextId)
  {
    hide Dense, BestOf, Uses;
    NoUses(n, f);
    if es == [] {
      assert log + [] == log;
    } else {
      var before, e := es[..|es| - 1], es[|es| - 1];
      EntitiesDense(c, n, f, p, log, before);
      var q := AfterEntities(c, f.sequence, before, p);
      var l := log + Uses(n, f, q.out);
      if e.bbox.None? {
        OneUseMore(log, n, f, q.out, e);
        assert l + [] == l;
      } else {
        match BestOf(c, q.tracks, e, q.used)
        case None =>
          OneUseMore(log, n, f, q.out, e.(trackId := Some(q.nextId)));
          DenseNext(l, UseOf(n, f, e, q.nextId), q.nextId);
        case Some(k) =>
          OneUseMore(log, n, f, q.out, e.(trackId := Some(q.tracks[k].id)));
          DenseOn(l, [UseOf(n, f, e, q.tracks[k].id)], q.nextId);
      }
    }
  }

  lemma {:induction false} RunIsDense(c: Config, frames: seq<Frame>)
    ensures Dense(Log(c, frames), Run(c, frames).nextId)
  {
    hide Dense, AfterEntities;
    if frames == [] {
      NothingGiven(c);
    } else {
      var n := |frames| - 1;
      RunIsDense(c, frames[..n]);
      EntitiesDense(c, n, frames[n], Begin(c, Run(c, frames[..n]), frames[n]), Log(c, frames[..n]), frames[n].entities);
    }
  }

  lemma NothingGiven(c: Config)
    ensures Dense([], START.nextId)
  {}

  /** Over every sequence of frames the ids given out are one, two, and so on without a hole,
      over all sources. */
  lemma {:induction false} IdsAreConsecutive(c: Config, frames: seq<Frame>, id: nat)
    requires id >= 1
    ensures (exists i :: 0 <= i < |Log(c, frames)| && Log(c, frames)[i].id == id) <==> id < Run(c, frames).nextId
  {
    RunIsDense(c, frames);
    RunIsConsistent(c, frames);
    assert id < Run(c, frames).nextId ==> Given(Log(c, frames), id);
  }

  /** The output shows the input's entities, with a track id on exactly the boxed ones. */
  lemma {:induction false} OutputShowsInput(c: Config, sequence: int, es: seq<Entity>, p: Progress, i: nat)
    requires p.out == [] && i < |es|
    ensures var out := AfterEntities(c, sequence, es, p).out;
            && |out| == |es|
            && (if es[i].bbox.None? then out[i] == es[i]
                else out[i].trackId.Some? && out[i] == es[i].(trackId := out[i].trackId))
  {
    hide BestOf;
    var before := es[..|es| - 1];
    OutputLength(c, sequence, before, p);
    if i < |before| {
      OutputShowsInput(c, sequence, before, p, i);
    }
  }

  lemma {:induction false} OutputLength(c: Config, sequence: int, es: seq<Entity>, p: Progress)
    requires p.out == []
    ensures |AfterEntities(c, sequence, es, p).out| == |es|
  {
    hide BestOf;
    if es != [] {
      OutputLength(c, sequence, es[..|es| - 1], p);
    }
  }
}
