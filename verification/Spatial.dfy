/** Spatial relations between detected entities: image-plane order, nearness, containment
    and depth order, without duplicates and bounded in number. */
module Spatial {
  import opened Wrappers
  import opened Geometry
  import opened Sorting

  datatype Entity = Entity(id: string, confidence: real, bbox: Option<Box>)

  datatype Predicate = LeftOf | RightOf | Above | Below | Near | Inside | InFrontOf | Behind | Other(name: string)

  function Name(p: Predicate): string {
    match p
    case LeftOf => "left_of"
    case RightOf => "right_of"
    case Above => "above"
    case Below => "below"
    case Near => "near"
    case Inside => "inside"
    case InFrontOf => "in_front_of"
    case Behind => "behind"
    case Other(name) => name
  }

  datatype Relation = Relation(subject: string, kind: Predicate, target: string, confidence: real)

  datatype Key = Key(subject: string, kind: Predicate, target: string)

  function KeyOf(r: Relation): Key {
    Key(r.subject, r.kind, r.target)
  }

  /** A measured depth: a missing distance is not used. */
  datatype Depth = Depth(entity: string, distance: Option<real>, confidence: Option<real>)

  datatype Measured = Measured(distance: real, confidence: real)

  /** `hypot` is the Euclidean length; nothing about it is needed here. */
  datatype Config = Config(
    maxEntities: nat,
    maxRelations: nat,
    nearDistance: real,
    minAxisGap: real,
    tolerance: real,
    minDepthGap: real,
    hypot: (real, real) -> real)

  /** The ranges the stage's constructor insists on. */
  predicate Acceptable(c: Config) {
    && 2 <= c.maxEntities <= 128
    && 1 <= c.maxRelations <= 1024
    && 0.01 <= c.nearDistance <= 1.0
    && 0.0 <= c.minAxisGap <= 0.5
    && 0.0 <= c.tolerance <= 0.1
    && 0.01 <= c.minDepthGap <= 5.0
  }

  predicate Unit(v: real) {
    0.0 <= v <= 1.0
  }

  predicate ValidEntity(e: Entity) {
    Unit(e.confidence) && (e.bbox.Some? ==>
      Unit(e.bbox.value.x) && Unit(e.bbox.value.y) && Unit(e.bbox.value.width) && Unit(e.bbox.value.height))
  }

  // ---------------------------------------------------------------- one pair

  predicate StrictlyContains(outer: Box, inner: Box, tolerance: real) {
    && !(Area(outer) <= Area(inner) * 1.01)
    && inner.x >= outer.x - tolerance
    && inner.y >= outer.y - tolerance
    && inner.x + inner.width <= outer.x + outer.width + tolerance
    && inner.y + inner.height <= outer.y + outer.height + tolerance
  }

  function Confidence(a: Entity, b: Entity, geometric: real): (r: real)
    ensures 0.0 <= r <= 1.0
  {
    Max(0.0, Min(1.0, geometric * Min(a.confidence, b.confidence)))
  }

  function Both(s: string, p: Predicate, o: string, converse: Predicate, confidence: real): seq<Relation> {
    [Relation(s, p, o, confidence), Relation(o, converse, s, confidence)]
  }

  /** Order along one axis, from interval starts and extents; the first entity is asked
      first. */
  function AxisRelations(c: Config, a: Entity, b: Entity, a0: real, aw: real, b0: real, bw: real,
                         before: Predicate, after: Predicate): seq<Relation>
  {
    if a0 + aw <= b0 then
      var gap := b0 - (a0 + aw);
      if gap >= c.minAxisGap then Both(a.id, before, b.id, after, Confidence(a, b, Min(1.0, 0.65 + gap))) else []
    else if b0 + bw <= a0 then
      var gap := a0 - (b0 + bw);
      if gap >= c.minAxisGap then Both(b.id, before, a.id, after, Confidence(a, b, Min(1.0, 0.65 + gap))) else []
    else []
  }

  function NearRelations(c: Config, a: Entity, b: Entity, p: Box, q: Box): seq<Relation>
    requires c.nearDistance > 0.0
  {
    var distance := c.hypot(p.x + p.width / 2.0 - (q.x + q.width / 2.0), p.y + p.height / 2.0 - (q.y + q.height / 2.0));
    if distance <= c.nearDistance
    then Both(a.id, Near, b.id, Near, Confidence(a, b, Max(0.35, 1.0 - distance / c.nearDistance)))
    else []
  }

  function InsideRelations(c: Config, a: Entity, b: Entity, p: Box, q: Box): seq<Relation> {
    (if StrictlyContains(q, p, c.tolerance) then [Relation(a.id, Inside, b.id, Confidence(a, b, 0.9))] else []) +
    (if StrictlyContains(p, q, c.tolerance) then [Relation(b.id, Inside, a.id, Confidence(a, b, 0.9))] else [])
  }

  function PairRelations(c: Config, a: Entity, b: Entity): seq<Relation>
    requires c.nearDistance > 0.0
  {
    if a.bbox.None? || b.bbox.None? then []
    else
      var p, q := a.bbox.value, b.bbox.value;
      AxisRelations(c, a, b, p.x, p.width, q.x, q.width, LeftOf, RightOf) +
      AxisRelations(c, a, b, p.y, p.height, q.y, q.height, Above, Below) +
      NearRelations(c, a, b, p, q) +
      InsideRelations(c, a, b, p, q)
  }

  /** The measurements' own confidence times the geometric one. */
  function DepthWeight(p: Measured, q: Measured, gap: real): real {
    Min(p.confidence, q.confidence) * Min(1.0, 0.65 + gap / Max(Max(p.distance, q.distance), 1.0))
  }

  function DepthRelations(c: Config, a: Entity, b: Entity, depth: map<string, Measured>): seq<Relation> {
    if a.id !in depth || b.id !in depth then []
    else
      var p, q := depth[a.id], depth[b.id];
      var gap := if p.distance < q.distance then q.distance - p.distance else p.distance - q.distance;
      if gap < c.minDepthGap then []
      else
        var confidence := Confidence(a, b, DepthWeight(p, q, gap));
        if p.distance < q.distance then Both(a.id, InFrontOf, b.id, Behind, confidence)
        else Both(b.id, InFrontOf, a.id, Behind, confidence)
  }

  function PairOutput(c: Config, a: Entity, b: Entity, depth: map<string, Measured>): seq<Relation>
    requires c.nearDistance > 0.0
  {
    PairRelations(c, a, b) + DepthRelations(c, a, b, depth)
  }

  // ---------------------------------------------------------------- all pairs

  /** What the pairs of `first` with the entities from `first + 1` up to `second` give. */
  function RowOutput(c: Config, es: seq<Entity>, depth: map<string, Measured>, first: nat, second: nat): seq<Relation>
    requires c.nearDistance > 0.0 && first < |es| && first + 1 <= second <= |es|
  {
    if second == first + 1 then []
    else RowOutput(c, es, depth, first, second - 1) + PairOutput(c, es[first], es[second - 1], depth)
  }

  function AllOutput(c: Config, es: seq<Entity>, depth: map<string, Measured>, first: nat): seq<Relation>
    requires c.nearDistance > 0.0 && first <= |es|
  {
    if first == 0 then []
    else AllOutput(c, es, depth, first - 1) + RowOutput(c, es, depth, first - 1, |es|)
  }

  function Keys(rs: seq<Relation>): set<Key> {
    set r | r in rs :: KeyOf(r)
  }

  /** Relations with a new key, the first of each key, in order. */
  function Fresh(existing: set<Key>, rs: seq<Relation>): seq<Relation> {
    if rs == [] then []
    else
      var kept := Fresh(existing, rs[..|rs| - 1]);
      var r := rs[|rs| - 1];
      if KeyOf(r) in existing + Keys(kept) then kept else kept + [r]
  }

  function MeasuredDepths(depth: seq<Depth>): map<string, Measured> {
    if depth == [] then map[]
    else
      var m := MeasuredDepths(depth[..|depth| - 1]);
      var d := depth[|depth| - 1];
      if d.distance.None? then m
      else m[d.entity := Measured(d.distance.value, if d.confidence.Some? then d.confidence.value else 0.75)]
  }

  function Boxed(es: seq<Entity>): seq<Entity> {
    if es == [] then []
    else Boxed(es[..|es| - 1]) + (if es[|es| - 1].bbox.Some? then [es[|es| - 1]] else [])
  }

  predicate EntityLe(a: Entity, b: Entity) {
    a.confidence > b.confidence || (a.confidence == b.confidence && TextLe(a.id, b.id))
  }

  predicate RelationLe(a: Relation, b: Relation) {
    || a.confidence > b.confidence
    || (a.confidence == b.confidence
        && (if a.subject != b.subject then TextLe(a.subject, b.subject)
            else if Name(a.kind) != Name(b.kind) then TextLe(Name(a.kind), Name(b.kind))
            else TextLe(a.target, b.target)))
  }

  function Candidates(c: Config, es: seq<Entity>): seq<Entity> {
    Take(Sort(Boxed(es), EntityLe), c.maxEntities)
  }

  /** New relations before they are ordered and truncated. */
  function Generated(c: Config, es: seq<Entity>, current: seq<Relation>, depth: seq<Depth>): seq<Relation>
    requires c.nearDistance > 0.0
  {
    var cs := Candidates(c, es);
    Fresh(Keys(current), AllOutput(c, cs, MeasuredDepths(depth), |cs|))
  }

  function Output(c: Config, es: seq<Entity>, current: seq<Relation>, depth: seq<Depth>): seq<Relation>
    requires c.nearDistance > 0.0
  {
    Take(Sort(Generated(c, es, current, depth), RelationLe), c.maxRelations)
  }

  lemma FreshAppend(existing: set<Key>, rs: seq<Relation>, r: Relation)
    ensures Fresh(existing, rs + [r]) ==
            if KeyOf(r) in existing + Keys(Fresh(existing, rs)) then Fresh(existing, rs) else Fresh(existing, rs) + [r]
  {
    assert (rs + [r])[..|rs|] == rs;
  }

  lemma KeysGrow(rs: seq<Relation>, r: Relation)
    ensures Keys(rs + [r]) == Keys(rs) + {KeyOf(r)}
  {
    assert forall q :: q in rs + [r] <==> q in rs || q == r;
  }

  /** The innermost loop: the relations of one pair join the growing set and list.
      `seen` are the relations that went before. */
  method AddNew(pair: seq<Relation>, existing: set<Key>, generated: seq<Relation>, ghost current: set<Key>,
                ghost seen: seq<Relation>)
    returns (existing': set<Key>, generated': seq<Relation>)
    requires generated == Fresh(current, seen) && existing == current + Keys(generated)
    ensures generated' == Fresh(current, seen + pair) && existing' == current + Keys(generated')
  {
    hide Fresh, Keys;
    existing', generated' := existing, generated;
    assert seen + pair[..0] == seen;
    for i := 0 to |pair|
      invariant generated' == Fresh(current, seen + pair[..i]) && existing' == current + Keys(generated')
    {
      var relation := pair[i];
      FreshAppend(current, seen + pair[..i], relation);
      assert seen + pair[..i + 1] == seen + pair[..i] + [relation];
      if KeyOf(relation) !in existing' {
        KeysGrow(generated', relation);
        existing' := existing' + {KeyOf(relation)};
        generated' := generated' + [relation];
      }
    }
    assert seen + pair[..|pair|] == seen + pair;
  }

  method AddRow(c: Config, candidates: seq<Entity>, first: nat, depth: map<string, Measured>,
                existing: set<Key>, generated: seq<Relation>, ghost current: set<Key>, ghost seen: seq<Relation>)
    returns (existing': set<Key>, generated': seq<Relation>)
    requires c.nearDistance > 0.0 && first < |candidates|
    requires generated == Fresh(current, seen) && existing == current + Keys(generated)
    ensures generated' == Fresh(current, seen + RowOutput(c, candidates, depth, first, |candidates|))
    ensures existing' == current + Keys(generated')
  {
    hide PairRelations, DepthRelations, Fresh, Keys;
    existing', generated' := existing, generated;
    assert seen + RowOutput(c, candidates, depth, first, first + 1) == seen;
    for second := first + 1 to |candidates|
      invariant generated' == Fresh(current, seen + RowOutput(c, candidates, depth, first, second))
      invariant existing' == current + Keys(generated')
    {
      var pair := PairRelations(c, candidates[first], candidates[second])
                  + DepthRelations(c, candidates[first], candidates[second], depth);
      ghost var before := RowOutput(c, candidates, depth, first, second);
      existing', generated' := AddNew(pair, existing', generated', current, seen + before);
      assert seen + (before + pair) == seen + before + pair;
    }
  }

  lemma NothingFresh(existing: set<Key>)
    ensures Fresh(existing, []) == [] && Keys([]) == {}
  {}

  /** The stage's nested loops over the growing set of keys and list of relations. */
  method Process(c: Config, entities: seq<Entity>, current: seq<Relation>, depth: seq<Depth>)
    returns (relations: seq<Relation>)
    requires Acceptable(c)
    ensures relations == current + Output(c, entities, current, depth)
  {
    hide RowOutput, Fresh, Sort, Candidates, MeasuredDepths;
    var candidates := Candidates(c, entities);
    var existing := Keys(current);
    var generated: seq<Relation> := [];
    NothingFresh(existing);
    var depthByEntity := MeasuredDepths(depth);
    for index := 0 to |candidates|
      invariant generated == Fresh(Keys(current), AllOutput(c, candidates, depthByEntity, index))
      invariant existing == Keys(current) + Keys(generated)
    {
      existing, generated := AddRow(c, candidates, index, depthByEntity, existing, generated, Keys(current),
                                    AllOutput(c, candidates, depthByEntity, index));
    }
    relations := current + Take(Sort(generated, RelationLe), c.maxRelations);
  }

  // ---------------------------------------------------------------- what is emitted

  lemma {:induction false} RowMembers(c: Config, es: seq<Entity>, depth: map<string, Measured>, first: nat,
                                      second: nat, r: Relation)
    requires c.nearDistance > 0.0 && first < |es| && first + 1 <= second <= |es|
    ensures r in RowOutput(c, es, depth, first, second) <==>
              exists j :: first < j < second && r in PairOutput(c, es[first], es[j], depth)
  {
    hide PairOutput;
    if second > first + 1 {
      RowMembers(c, es, depth, first, second - 1, r);
    }
  }

  ghost predicate Emitted(c: Config, es: seq<Entity>, depth: map<string, Measured>, i: int, j: int, r: Relation)
    requires c.nearDistance > 0.0
  {
    0 <= i < j < |es| && r in PairOutput(c, es[i], es[j], depth)
  }

  lemma {:induction false} AllMembers(c: Config, es: seq<Entity>, depth: map<string, Measured>, first: nat, r: Relation)
    requires c.nearDistance > 0.0 && first <= |es|
    ensures r in AllOutput(c, es, depth, first) <==> exists i, j :: i < first && Emitted(c, es, depth, i, j, r)
  {
    hide PairOutput, RowOutput;
    if first > 0 {
      AllMembers(c, es, depth, first - 1, r);
      RowMembers(c, es, depth, first - 1, |es|, r);
      forall j | first - 1 < j < |es| && r in PairOutput(c, es[first - 1], es[j], depth)
        ensures Emitted(c, es, depth, first - 1, j, r)
      {}
    }
  }

  lemma {:induction false} FreshMembers(existing: set<Key>, rs: seq<Relation>)
    ensures forall r :: r in Fresh(existing, rs) ==> r in rs && KeyOf(r) !in existing
    ensures Keys(Fresh(existing, rs)) == Keys(rs) - existing
    ensures Distinct(Fresh(existing, rs), KeyOf)
  {
    if rs != [] {
      var before := rs[..|rs| - 1];
      var r := rs[|rs| - 1];
      assert rs == before + [r];
      FreshMembers(existing, before);
      KeysGrow(before, r);
      var kept := Fresh(existing, before);
      KeysGrow(kept, r);
      if KeyOf(r) !in existing + Keys(kept) {
        forall i | 0 <= i < |kept| ensures KeyOf(kept[i]) != KeyOf(r) {
          assert KeyOf(kept[i]) in Keys(kept);
        }
      }
    }
  }

  /** Both sort keys compare totally. */
  lemma OrdersAreTotal()
    ensures Total(EntityLe) && Total(RelationLe)
  {
    forall a: Entity, b: Entity ensures EntityLe(a, b) || EntityLe(b, a) {
      TextTotal(a.id, b.id);
    }
    forall a: Entity, b: Entity, c: Entity | EntityLe(a, b) && EntityLe(b, c) ensures EntityLe(a, c) {
      if a.confidence == b.confidence == c.confidence {
        TextTransitive(a.id, b.id, c.id);
      }
    }
    forall a: Relation, b: Relation ensures RelationLe(a, b) || RelationLe(b, a) {
      TextTotal(a.subject, b.subject);
      TextTotal(Name(a.kind), Name(b.kind));
      TextTotal(a.target, b.target);
    }
    forall a: Relation, b: Relation, c: Relation | RelationLe(a, b) && RelationLe(b, c) ensures RelationLe(a, c) {
      RelationTransitive(a, b, c);
    }
  }

  lemma RelationTransitive(a: Relation, b: Relation, c: Relation)
    requires RelationLe(a, b) && RelationLe(b, c)
    ensures RelationLe(a, c)
  {
    if a.confidence == b.confidence == c.confidence {
      if TextLe(a.subject, b.subject) && TextLe(b.subject, c.subject) {
        TextTransitive(a.subject, b.subject, c.subject);
        TextTotal(a.subject, b.subject);
      }
      if TextLe(Name(a.kind), Name(b.kind)) && TextLe(Name(b.kind), Name(c.kind)) {
        TextTransitive(Name(a.kind), Name(b.kind), Name(c.kind));
        TextTotal(Name(a.kind), Name(b.kind));
      }
      if TextLe(a.target, b.target) && TextLe(b.target, c.target) {
        TextTransitive(a.target, b.target, c.target);
      }
    }
  }

  /** The output repeats no relation, neither a given one nor one of its own, stays within
      the limit, and leaves a relation out only for as many that rank no lower. */
  lemma OutputIsBoundedAndFresh(c: Config, es: seq<Entity>, current: seq<Relation>, depth: seq<Depth>)
    requires Acceptable(c)
    ensures var out := Output(c, es, current, depth);
            && |out| <= c.maxRelations
            && Distinct(out, KeyOf)
            && (forall r :: r in out ==> r in Generated(c, es, current, depth) && KeyOf(r) !in Keys(current))
            && (forall r, o :: r in Generated(c, es, current, depth) && r !in out && o in out ==>
                  |out| == c.maxRelations && o.confidence >= r.confidence && RelationLe(o, r))
  {
    hide Candidates, AllOutput, Fresh, Sort, RelationLe;
    var cs := Candidates(c, es);
    var g := Generated(c, es, current, depth);
    FreshMembers(Keys(current), AllOutput(c, cs, MeasuredDepths(depth), |cs|));
    SortKeepsDistinct(g, RelationLe, KeyOf);
    SortMembers(g, RelationLe);
    OrdersAreTotal();
    SortSorts(g, RelationLe);
    TakenRankHigher(Sort(g, RelationLe), c.maxRelations);
    forall r, o | r in g && r !in Output(c, es, current, depth) && o in Output(c, es, current, depth)
      ensures o.confidence >= r.confidence
    {
      RankByConfidence(o, r);
    }
  }

  lemma RankByConfidence(o: Relation, r: Relation)
    ensures RelationLe(o, r) ==> o.confidence >= r.confidence
  {}

  /** What a limit cuts off a sorted list ranks no higher than what it keeps. */
  lemma TakenRankHigher(sorted: seq<Relation>, n: nat)
    requires Sorted(sorted, RelationLe)
    ensures |Take(sorted, n)| <= n && forall r :: r in Take(sorted, n) ==> r in sorted
    ensures Distinct(sorted, KeyOf) ==> Distinct(Take(sorted, n), KeyOf)
    ensures forall r, o :: r in sorted && r !in Take(sorted, n) && o in Take(sorted, n) ==>
              |Take(sorted, n)| == n && RelationLe(o, r)
  {
    hide RelationLe;
    var out := Take(sorted, n);
    forall r, o | r in sorted && r !in out && o in out ensures |out| == n && RelationLe(o, r) {
      var i :| 0 <= i < |sorted| && sorted[i] == r;
      var j :| 0 <= j < |out| && out[j] == o;
      assert forall m :: 0 <= m < |out| ==> out[m] == sorted[m];
    }
  }

  // ---------------------------------------------------------------- candidates

  predicate DistinctIds(es: seq<Entity>) {
    forall i, j :: 0 <= i < j < |es| && es[i].bbox.Some? && es[j].bbox.Some? ==> es[i].id != es[j].id
  }

  function IdOf(e: Entity): string {
    e.id
  }

  lemma {:induction false} BoxedMembers(es: seq<Entity>)
    ensures forall e :: e in Boxed(es) <==> e in es && e.bbox.Some?
    ensures DistinctIds(es) ==> Distinct(Boxed(es), IdOf)
  {
    if es != [] {
      var before := es[..|es| - 1];
      BoxedMembers(before);
      assert es == before + [es[|es| - 1]];
    }
  }

  lemma CandidatesAreFit(c: Config, es: seq<Entity>)
    ensures forall e :: e in Candidates(c, es) ==> e in es && e.bbox.Some?
    ensures DistinctIds(es) ==> Distinct(Candidates(c, es), IdOf)
    ensures |Candidates(c, es)| <= c.maxEntities
  {
    BoxedMembers(es);
    SortMembers(Boxed(es), EntityLe);
    if DistinctIds(es) {
      SortKeepsDistinct(Boxed(es), EntityLe, IdOf);
    }
  }

  // ---------------------------------------------------------------- what one pair can say

  function Converse(r: Relation): Relation {
    Relation(r.target,
             match r.kind
             case LeftOf => RightOf
             case RightOf => LeftOf
             case Above => Below
             case Below => Above
             case InFrontOf => Behind
             case Behind => InFrontOf
             case _ => r.kind,
             r.subject, r.confidence)
  }

  /** The relations that come with a converse: all but containment. */
  predicate Directional(k: Predicate) {
    !k.Inside? && !k.Other?
  }

  predicate AxisPair(before: Predicate, after: Predicate) {
    (before == LeftOf && after == RightOf) || (before == Above && after == Below)
  }

  /** Along an axis at most one order holds, and the first entity is asked first. */
  lemma AxisMeans(c: Config, a: Entity, b: Entity, a0: real, aw: real, b0: real, bw: real, before: Predicate,
                  after: Predicate, r: Relation)
    requires AxisPair(before, after) && r in AxisRelations(c, a, b, a0, aw, b0, bw, before, after)
    ensures Converse(r) in AxisRelations(c, a, b, a0, aw, b0, bw, before, after)
    ensures r.kind == before || r.kind == after
    ensures var s := if r.kind == before then r else Converse(r);
            && s.kind == before
            && (if a0 + aw <= b0 then s.subject == a.id && s.target == b.id
                else b0 + bw <= a0 && s.subject == b.id && s.target == a.id)
    ensures forall q :: q in AxisRelations(c, a, b, a0, aw, b0, bw, before, after) ==> q == r || q == Converse(r)
  {}

  lemma NearMeans(c: Config, a: Entity, b: Entity, p: Box, q: Box, r: Relation)
    requires c.nearDistance > 0.0 && r in NearRelations(c, a, b, p, q)
    ensures r.kind == Near && Converse(r) in NearRelations(c, a, b, p, q)
    ensures (r.subject == a.id && r.target == b.id) || (r.subject == b.id && r.target == a.id)
    ensures forall s :: s in NearRelations(c, a, b, p, q) ==> s == r || s == Converse(r)
  {}

  lemma InsideMeans(c: Config, a: Entity, b: Entity, p: Box, q: Box, r: Relation)
    requires r in InsideRelations(c, a, b, p, q) && Area(p) >= 0.0 && Area(q) >= 0.0
    ensures r.kind == Inside
    ensures (r.subject == a.id && r.target == b.id && Area(p) < Area(q))
            || (r.subject == b.id && r.target == a.id && Area(q) < Area(p))
    ensures forall s :: s in InsideRelations(c, a, b, p, q) ==> s == r
  {}

  lemma DepthMeans(c: Config, a: Entity, b: Entity, depth: map<string, Measured>, r: Relation)
    requires c.minDepthGap > 0.0 && r in DepthRelations(c, a, b, depth)
    ensures a.id in depth && b.id in depth
    ensures Converse(r) in DepthRelations(c, a, b, depth)
    ensures r.kind == InFrontOf || r.kind == Behind
    ensures var s := if r.kind == InFrontOf then r else Converse(r);
            && s.kind == InFrontOf
            && (   (s.subject == a.id && s.target == b.id && depth[a.id].distance < depth[b.id].distance)
                || (s.subject == b.id && s.target == a.id && depth[b.id].distance < depth[a.id].distance))
    ensures forall q :: q in DepthRelations(c, a, b, depth) ==> q == r || q == Converse(r)
  {}

  /** Which part of a pair's output a relation comes from. */
  lemma PairParts(c: Config, a: Entity, b: Entity, depth: map<string, Measured>, r: Relation)
    requires c.nearDistance > 0.0 && a.bbox.Some? && b.bbox.Some?
    ensures var p, q := a.bbox.value, b.bbox.value;
            r in PairOutput(c, a, b, depth) <==>
              || r in AxisRelations(c, a, b, p.x, p.width, q.x, q.width, LeftOf, RightOf)
              || r in AxisRelations(c, a, b, p.y, p.height, q.y, q.height, Above, Below)
              || r in NearRelations(c, a, b, p, q)
              || r in InsideRelations(c, a, b, p, q)
              || r in DepthRelations(c, a, b, depth)
  {
    hide AxisRelations, NearRelations, InsideRelations, DepthRelations;
  }

  predicate ValidBoxed(e: Entity) {
    ValidEntity(e) && e.bbox.Some?
  }

  lemma AreaIsNonNegative(e: Entity)
    requires ValidBoxed(e)
    ensures Area(e.bbox.value) >= 0.0
  {}

  /** A pair speaks about its own two entities, gives each directional relation with its
      converse, and says nothing twice. */
  lemma PairSpeaks(c: Config, a: Entity, b: Entity, depth: map<string, Measured>, r: Relation)
    requires Acceptable(c) && ValidBoxed(a) && ValidBoxed(b) && r in PairOutput(c, a, b, depth)
    ensures !r.kind.Other?
    ensures (r.subject == a.id && r.target == b.id) || (r.subject == b.id && r.target == a.id)
    ensures Directional(r.kind) ==> Converse(r) in PairOutput(c, a, b, depth)
  {
    hide AxisRelations, NearRelations, InsideRelations, DepthRelations, PairOutput;
    var p, q := a.bbox.value, b.bbox.value;
    AreaIsNonNegative(a);
    AreaIsNonNegative(b);
    PairParts(c, a, b, depth, r);
    PairParts(c, a, b, depth, Converse(r));
    if r in AxisRelations(c, a, b, p.x, p.width, q.x, q.width, LeftOf, RightOf) {
      AxisMeans(c, a, b, p.x, p.width, q.x, q.width, LeftOf, RightOf, r);
    } else if r in AxisRelations(c, a, b, p.y, p.height, q.y, q.height, Above, Below) {
      AxisMeans(c, a, b, p.y, p.height, q.y, q.height, Above, Below, r);
    } else if r in NearRelations(c, a, b, p, q) {
      NearMeans(c, a, b, p, q, r);
    } else if r in InsideRelations(c, a, b, p, q) {
      InsideMeans(c, a, b, p, q, r);
    } else {
      DepthMeans(c, a, b, depth, r);
    }
  }

  /** The part of a pair's output that can hold a given kind. */
  function PartFor(c: Config, a: Entity, b: Entity, depth: map<string, Measured>, k: Predicate): seq<Relation>
    requires c.nearDistance > 0.0 && a.bbox.Some? && b.bbox.Some?
  {
    var p, q := a.bbox.value, b.bbox.value;
    match k
    case LeftOf => AxisRelations(c, a, b, p.x, p.width, q.x, q.width, LeftOf, RightOf)
    case RightOf => AxisRelations(c, a, b, p.x, p.width, q.x, q.width, LeftOf, RightOf)
    case Above => AxisRelations(c, a, b, p.y, p.height, q.y, q.height, Above, Below)
    case Below => AxisRelations(c, a, b, p.y, p.height, q.y, q.height, Above, Below)
    case Near => NearRelations(c, a, b, p, q)
    case Inside => InsideRelations(c, a, b, p, q)
    case InFrontOf => DepthRelations(c, a, b, depth)
    case Behind => DepthRelations(c, a, b, depth)
    case Other(_) => []
  }

  lemma PartHolds(c: Config, a: Entity, b: Entity, depth: map<string, Measured>, r: Relation)
    requires Acceptable(c) && ValidBoxed(a) && ValidBoxed(b) && r in PairOutput(c, a, b, depth)
    ensures r in PartFor(c, a, b, depth, r.kind)
  {
    hide AxisRelations, NearRelations, InsideRelations, DepthRelations, PairOutput;
    var p, q := a.bbox.value, b.bbox.value;
    AreaIsNonNegative(a);
    AreaIsNonNegative(b);
    PairParts(c, a, b, depth, r);
    if r in AxisRelations(c, a, b, p.x, p.width, q.x, q.width, LeftOf, RightOf) {
      AxisMeans(c, a, b, p.x, p.width, q.x, q.width, LeftOf, RightOf, r);
    } else if r in AxisRelations(c, a, b, p.y, p.height, q.y, q.height, Above, Below) {
      AxisMeans(c, a, b, p.y, p.height, q.y, q.height, Above, Below, r);
    } else if r in NearRelations(c, a, b, p, q) {
      NearMeans(c, a, b, p, q, r);
    } else if r in InsideRelations(c, a, b, p, q) {
      InsideMeans(c, a, b, p, q, r);
    } else {
      DepthMeans(c, a, b, depth, r);
    }
  }

  lemma PairSaysOnce(c: Config, a: Entity, b: Entity, depth: map<string, Measured>, r: Relation, s: Relation)
    requires Acceptable(c) && ValidBoxed(a) && ValidBoxed(b) && a.id != b.id
    requires r in PairOutput(c, a, b, depth) && s in PairOutput(c, a, b, depth) && KeyOf(r) == KeyOf(s)
    ensures r == s
  {
    hide AxisRelations, NearRelations, InsideRelations, DepthRelations, PairOutput;
    var p, q := a.bbox.value, b.bbox.value;
    AreaIsNonNegative(a);
    AreaIsNonNegative(b);
    PairSpeaks(c, a, b, depth, r);
    PartHolds(c, a, b, depth, r);
    PartHolds(c, a, b, depth, s);
    match r.kind
    case LeftOf => AxisMeans(c, a, b, p.x, p.width, q.x, q.width, LeftOf, RightOf, r);
    case RightOf => AxisMeans(c, a, b, p.x, p.width, q.x, q.width, LeftOf, RightOf, r);
    case Above => AxisMeans(c, a, b, p.y, p.height, q.y, q.height, Above, Below, r);
    case Below => AxisMeans(c, a, b, p.y, p.height, q.y, q.height, Above, Below, r);
    case Near => NearMeans(c, a, b, p, q, r);
    case Inside => InsideMeans(c, a, b, p, q, r);
    case InFrontOf => DepthMeans(c, a, b, depth, r);
    case Behind => DepthMeans(c, a, b, depth, r);
  }

  // ---------------------------------------------------------------- converses

  /** With distinct ids no two different relations of the whole run over the pairs share a
      key, so removing repeats loses nothing but what was given. */
  lemma EmittedOnce(c: Config, es: seq<Entity>, depth: map<string, Measured>, r: Relation, s: Relation)
    requires Acceptable(c) && Distinct(es, IdOf) && (forall e :: e in es ==> ValidBoxed(e))
    requires r in AllOutput(c, es, depth, |es|) && s in AllOutput(c, es, depth, |es|) && KeyOf(r) == KeyOf(s)
    ensures r == s
  {
    hide PairOutput, AllOutput;
    AllMembers(c, es, depth, |es|, r);
    AllMembers(c, es, depth, |es|, s);
    var i, j :| 0 <= i < j < |es| && Emitted(c, es, depth, i, j, r);
    var i', j' :| 0 <= i' < j' < |es| && Emitted(c, es, depth, i', j', s);
    PairSpeaks(c, es[i], es[j], depth, r);
    PairSpeaks(c, es[i'], es[j'], depth, s);
    SamePair(es, i, j, i', j');
    assert IdOf(es[i]) != IdOf(es[j]);
    PairSaysOnce(c, es[i], es[j], depth, r, s);
  }

  lemma SamePair(es: seq<Entity>, i: nat, j: nat, i': nat, j': nat)
    requires Distinct(es, IdOf) && i < j < |es| && i' < j' < |es|
    requires (es[i].id == es[i'].id && es[j].id == es[j'].id) || (es[i].id == es[j'].id && es[j].id == es[i'].id)
    ensures i == i' && j == j'
  {
    if es[i].id == es[i'].id && es[j].id == es[j'].id {
      SameIndex(es, i, i');
      SameIndex(es, j, j');
    } else {
      SameIndex(es, i, j');
      SameIndex(es, j, i');
    }
  }

  lemma SameIndex(es: seq<Entity>, m: nat, n: nat)
    requires Distinct(es, IdOf) && m < |es| && n < |es| && es[m].id == es[n].id
    ensures m == n
  {
    assert IdOf(es[m]) == IdOf(es[n]);
  }

  lemma FreshKeepsUnique(existing: set<Key>, rs: seq<Relation>)
    requires forall r, s :: r in rs && s in rs && KeyOf(r) == KeyOf(s) ==> r == s
    ensures forall r :: r in Fresh(existing, rs) <==> r in rs && KeyOf(r) !in existing
  {
    FreshMembers(existing, rs);
    forall r | r in rs && KeyOf(r) !in existing ensures r in Fresh(existing, rs) {
      assert KeyOf(r) in Keys(rs);
      assert KeyOf(r) in Keys(Fresh(existing, rs));
      var q :| q in Fresh(existing, rs) && KeyOf(q) == KeyOf(r);
    }
  }

  /** For distinct ids the generated relations are exactly those some pair of candidates
      gives, except for the keys that were there already. */
  lemma GeneratedExactly(c: Config, es: seq<Entity>, current: seq<Relation>, depth: seq<Depth>, r: Relation)
    requires Acceptable(c) && (forall e :: e in es ==> ValidEntity(e)) && DistinctIds(es)
    ensures var cs := Candidates(c, es);
            r in Generated(c, es, current, depth) <==>
              KeyOf(r) !in Keys(current) && exists i, j :: Emitted(c, cs, MeasuredDepths(depth), i, j, r)
  {
    hide PairOutput, AllOutput, Candidates, Fresh, Keys;
    var cs := Candidates(c, es);
    var depths := MeasuredDepths(depth);
    var all := AllOutput(c, cs, depths, |cs|);
    CandidatesAreFit(c, es);
    forall p, q | p in all && q in all && KeyOf(p) == KeyOf(q) ensures p == q {
      EmittedOnce(c, cs, depths, p, q);
    }
    FreshKeepsUnique(Keys(current), all);
    AllMembers(c, cs, depths, |cs|, r);
  }

  /** Before truncation every directional relation comes with its converse at the same
      confidence, unless that converse was given already. */
  lemma ConverseComesAlong(c: Config, es: seq<Entity>, current: seq<Relation>, depth: seq<Depth>, r: Relation)
    requires Acceptable(c) && (forall e :: e in es ==> ValidEntity(e)) && DistinctIds(es)
    requires r in Generated(c, es, current, depth) && Directional(r.kind)
    ensures Converse(r) in Generated(c, es, current, depth) <==> KeyOf(Converse(r)) !in Keys(current)
  {
    hide PairOutput, Candidates, Generated;
    var cs := Candidates(c, es);
    var depths := MeasuredDepths(depth);
    CandidatesAreFit(c, es);
    GeneratedExactly(c, es, current, depth, r);
    GeneratedExactly(c, es, current, depth, Converse(r));
    var i, j :| 0 <= i < j < |cs| && Emitted(c, cs, depths, i, j, r);
    PairSpeaks(c, cs[i], cs[j], depths, r);
    assert Emitted(c, cs, depths, i, j, Converse(r));
  }

  // ---------------------------------------------------------------- no cycles

  /** A place in a strict order; the parts compare left to right. */
  datatype Rank = Rank(first: real, second: real, third: int)

  predicate Less(a: Rank, b: Rank) {
    || a.first < b.first
    || (a.first == b.first && (a.second < b.second || (a.second == b.second && a.third < b.third)))
  }

  /** Relations whose meaning is an order. */
  predicate Ordering(k: Predicate) {
    k.LeftOf? || k.Above? || k.Inside? || k.InFrontOf?
  }

  function IndexOf(es: seq<Entity>, id: string): (n: nat)
    ensures n <= |es|
    ensures n < |es| ==> es[n].id == id
    ensures n == |es| ==> forall e :: e in es ==> e.id != id
  {
    if es == [] || es[0].id == id then 0 else 1 + IndexOf(es[1..], id)
  }

  /** The order behind a relation: position and extent along an axis, and for a tie the
      order of the candidates; area; distance. */
  function RankOf(es: seq<Entity>, depth: map<string, Measured>, k: Predicate, i: nat): Rank
    requires i < |es| && es[i].bbox.Some?
  {
    var b := es[i].bbox.value;
    match k
    case LeftOf => Rank(b.x, b.width, i)
    case Above => Rank(b.y, b.height, i)
    case Inside => Rank(Area(b), 0.0, 0)
    case _ => Rank(if es[i].id in depth then depth[es[i].id].distance else 0.0, 0.0, 0)
  }

  function RankById(es: seq<Entity>, depth: map<string, Measured>, k: Predicate, id: string): Rank {
    var i := IndexOf(es, id);
    if i < |es| && es[i].bbox.Some? then RankOf(es, depth, k, i) else Rank(0.0, 0.0, 0)
  }

  /** Zero extents and a zero gap included, an axis relation strictly rises. */
  lemma AxisRises(c: Config, es: seq<Entity>, i: nat, j: nat, a0: real, aw: real, b0: real, bw: real,
                  before: Predicate, after: Predicate, r: Relation)
    requires i < j < |es| && aw >= 0.0 && bw >= 0.0 && es[i].id != es[j].id
    requires AxisPair(before, after) && r.kind == before
    requires r in AxisRelations(c, es[i], es[j], a0, aw, b0, bw, before, after)
    ensures || (r.subject == es[i].id && r.target == es[j].id && Less(Rank(a0, aw, i), Rank(b0, bw, j)))
            || (r.subject == es[j].id && r.target == es[i].id && Less(Rank(b0, bw, j), Rank(a0, aw, i)))
  {
    AxisMeans(c, es[i], es[j], a0, aw, b0, bw, before, after, r);
  }

  lemma EdgeRises(c: Config, es: seq<Entity>, depth: map<string, Measured>, i: nat, j: nat, r: Relation)
    requires Acceptable(c) && Distinct(es, IdOf) && (forall e :: e in es ==> ValidBoxed(e))
    requires i < j < |es| && r in PairOutput(c, es[i], es[j], depth) && Ordering(r.kind)
    ensures Less(RankById(es, depth, r.kind, r.subject), RankById(es, depth, r.kind, r.target))
  {
    hide AxisRelations, NearRelations, InsideRelations, DepthRelations, PairOutput, IndexOf;
    var a, b := es[i], es[j];
    assert ValidBoxed(a) && ValidBoxed(b);
    var p, q := a.bbox.value, b.bbox.value;
    SameIndex(es, IndexOf(es, a.id), i);
    SameIndex(es, IndexOf(es, b.id), j);
    assert IdOf(a) != IdOf(b);
    PartHolds(c, a, b, depth, r);
    match r.kind
    case LeftOf => AxisRises(c, es, i, j, p.x, p.width, q.x, q.width, LeftOf, RightOf, r);
    case Above => AxisRises(c, es, i, j, p.y, p.height, q.y, q.height, Above, Below, r);
    case Inside =>
      AreaIsNonNegative(a);
      AreaIsNonNegative(b);
      InsideMeans(c, a, b, p, q, r);
    case InFrontOf => DepthMeans(c, a, b, depth, r);
  }

  /** A walk along relations of one kind. */
  predicate Walk(keys: set<Key>, k: Predicate, path: seq<string>) {
    forall i :: 0 <= i < |path| - 1 ==> Key(path[i], k, path[i + 1]) in keys
  }

  ghost predicate Acyclic(keys: set<Key>, k: Predicate) {
    forall path :: |path| >= 2 && Walk(keys, k, path) ==> path[0] != path[|path| - 1]
  }

  ghost predicate Rises(keys: set<Key>, k: Predicate, rank: string -> Rank) {
    forall s, t :: Key(s, k, t) in keys ==> Less(rank(s), rank(t))
  }

  lemma {:induction false} WalkRises(keys: set<Key>, k: Predicate, rank: string -> Rank, path: seq<string>)
    requires Rises(keys, k, rank) && |path| >= 2 && Walk(keys, k, path)
    ensures Less(rank(path[0]), rank(path[|path| - 1]))
  {
    var n := |path| - 1;
    assert Key(path[n - 1], k, path[n]) in keys;
    if n > 1 {
      WalkRises(keys, k, rank, path[..n]);
    }
  }

  lemma RisingIsAcyclic(keys: set<Key>, k: Predicate, rank: string -> Rank)
    requires Rises(keys, k, rank)
    ensures forall fewer: set<Key> :: fewer <= keys ==> Acyclic(fewer, k)
  {
    forall fewer: set<Key>, path | fewer <= keys && |path| >= 2 && Walk(fewer, k, path)
        ensures path[0] != path[|path| - 1] {
      assert Walk(keys, k, path);
      WalkRises(keys, k, rank, path);
    }
  }

  lemma GeneratedRises(c: Config, es: seq<Entity>, current: seq<Relation>, depth: seq<Depth>, r: Relation)
    requires Acceptable(c) && (forall e :: e in es ==> ValidEntity(e)) && DistinctIds(es)
    requires r in Generated(c, es, current, depth) && Ordering(r.kind)
    ensures var rank := id => RankById(Candidates(c, es), MeasuredDepths(depth), r.kind, id);
            Less(rank(r.subject), rank(r.target))
  {
    hide PairOutput, Candidates, Generated, RankById;
    var cs := Candidates(c, es);
    var depths := MeasuredDepths(depth);
    CandidatesAreFit(c, es);
    GeneratedExactly(c, es, current, depth, r);
    var i, j :| 0 <= i < j < |cs| && Emitted(c, cs, depths, i, j, r);
    EdgeRises(c, cs, depths, i, j, r);
  }

  /** Over any entities with distinct ids, none of left_of, above, inside and in_front_of
      runs in a circle in the output. */
  lemma OutputIsAcyclic(c: Config, es: seq<Entity>, current: seq<Relation>, depth: seq<Depth>, k: Predicate)
    requires Acceptable(c) && (forall e :: e in es ==> ValidEntity(e)) && DistinctIds(es)
    requires Ordering(k)
    ensures Acyclic(Keys(Generated(c, es, current, depth)), k)
    ensures Acyclic(Keys(Output(c, es, current, depth)), k)
  {
    hide PairOutput, Candidates, Generated, Output, RankById;
    var keys := Keys(Generated(c, es, current, depth));
    var rank := id => RankById(Candidates(c, es), MeasuredDepths(depth), k, id);
    forall s, t | Key(s, k, t) in keys ensures Less(rank(s), rank(t)) {
      var r :| r in Generated(c, es, current, depth) && KeyOf(r) == Key(s, k, t);
      GeneratedRises(c, es, current, depth, r);
    }
    RisingIsAcyclic(keys, k, rank);
    OutputIsBoundedAndFresh(c, es, current, depth);
    assert Keys(Output(c, es, current, depth)) <= keys;
  }
}
