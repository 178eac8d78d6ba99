/** What the spatial stage says, read off boxes and measured depths alone: which relation
    holds between which candidates, with what confidence, and in what order it comes out. */
module SpatialMeaning {
  import opened Wrappers
  import opened Geometry
  import opened Sorting
  import opened Spatial

  datatype Axis = Horizontal | Vertical

  function From(b: Box, axis: Axis): real {
    if axis.Horizontal? then b.x else b.y
  }

  function To(b: Box, axis: Axis): real {
    if axis.Horizontal? then b.x + b.width else b.y + b.height
  }

  /** Free space from the end of one box to the start of the other. */
  function Gap(p: Box, q: Box, axis: Axis): real {
    From(q, axis) - To(p, axis)
  }

  function Clamped(v: real): real {
    if v < 0.0 then 0.0 else if v > 1.0 then 1.0 else v
  }

  function Weaker(u: real, v: real): real {
    if u < v then u else v
  }

  function Share(weight: real, sure: real): real {
    weight * sure
  }

  function Against(gap: real, whole: real): real
    requires whole > 0.0
  {
    gap / whole
  }

  /** 0.65 for touching, more for more space, at most 1. */
  function Certainty(space: real): real {
    Weaker(0.65 + space, 1.0)
  }

  function CenterDistance(c: Config, p: Box, q: Box): real {
    c.hypot((2.0 * p.x + p.width - 2.0 * q.x - q.width) / 2.0, (2.0 * p.y + p.height - 2.0 * q.y - q.height) / 2.0)
  }

  /** Closeness against the limit, at least 0.35. */
  function Closeness(c: Config, distance: real): real
    requires c.nearDistance > 0.0
  {
    if 1.0 - Against(distance, c.nearDistance) < 0.35 then 0.35 else 1.0 - Against(distance, c.nearDistance)
  }

  /** At least the gap of free space, and when neither box has any extent to lose, only the
      higher-ranked candidate comes first. */
  predicate Before(c: Config, es: seq<Entity>, i: nat, j: nat, axis: Axis)
    requires i < |es| && j < |es| && es[i].bbox.Some? && es[j].bbox.Some?
  {
    var p, q := es[i].bbox.value, es[j].bbox.value;
    Gap(p, q, axis) >= c.minAxisGap && (Gap(q, p, axis) >= 0.0 ==> i < j)
  }

  /** Within the outer box on all four sides but for the tolerance, and more than one per cent
      smaller. */
  predicate Within(c: Config, inner: Box, outer: Box) {
    && Area(outer) > 1.01 * Area(inner)
    && From(outer, Horizontal) - From(inner, Horizontal) <= c.tolerance
    && From(outer, Vertical) - From(inner, Vertical) <= c.tolerance
    && To(inner, Horizontal) - To(outer, Horizontal) <= c.tolerance
    && To(inner, Vertical) - To(outer, Vertical) <= c.tolerance
  }

  /** At least the depth gap nearer. */
  predicate Nearer(c: Config, es: seq<Entity>, depth: map<string, Measured>, i: nat, j: nat)
    requires i < |es| && j < |es|
  {
    && es[i].id in depth && es[j].id in depth
    && depth[es[j].id].distance - depth[es[i].id].distance >= c.minDepthGap
  }

  /** How sure a depth order is: by the entities, their measurements, and the gap against the
      farther distance, taken as one metre at least. */
  function DepthConfidence(es: seq<Entity>, depth: map<string, Measured>, i: nat, j: nat): real
    requires i < |es| && j < |es| && es[i].id in depth && es[j].id in depth
  {
    var m, n := depth[es[i].id], depth[es[j].id];
    var far := if n.distance < 1.0 then 1.0 else n.distance;
    Clamped(Share(Share(Weaker(m.confidence, n.confidence), Certainty(Against(n.distance - m.distance, far))),
                  Weaker(es[i].confidence, es[j].confidence)))
  }

  /** What may be said of candidate `i` with regard to candidate `j`. */
  predicate Says(c: Config, es: seq<Entity>, depth: map<string, Measured>, i: nat, j: nat, r: Relation)
    requires c.nearDistance > 0.0
  {
    && i < |es| && j < |es| && i != j && es[i].bbox.Some? && es[j].bbox.Some?
    && r.subject == es[i].id && r.target == es[j].id
    && var p, q := es[i].bbox.value, es[j].bbox.value;
       var sure := Weaker(es[i].confidence, es[j].confidence);
       match r.kind
       case LeftOf => Before(c, es, i, j, Horizontal) && r.confidence == Share(Certainty(Gap(p, q, Horizontal)), sure)
       case RightOf => Before(c, es, j, i, Horizontal) && r.confidence == Share(Certainty(Gap(q, p, Horizontal)), sure)
       case Above => Before(c, es, i, j, Vertical) && r.confidence == Share(Certainty(Gap(p, q, Vertical)), sure)
       case Below => Before(c, es, j, i, Vertical) && r.confidence == Share(Certainty(Gap(q, p, Vertical)), sure)
       case Near =>
         var d := if i < j then CenterDistance(c, p, q) else CenterDistance(c, q, p);
         d <= c.nearDistance && r.confidence == Clamped(Share(Closeness(c, d), sure))
       case Inside => Within(c, p, q) && r.confidence == Share(0.9, sure)
       case InFrontOf => Nearer(c, es, depth, i, j) && r.confidence == DepthConfidence(es, depth, i, j)
       case Behind => Nearer(c, es, depth, j, i) && r.confidence == DepthConfidence(es, depth, j, i)
       case Other(_) => false
  }

  // ---------------------------------------------------------------- the parts of a pair

  lemma ConfidenceIs(a: Entity, b: Entity, geometric: real)
    ensures Confidence(a, b, geometric) == Clamped(Share(geometric, Weaker(a.confidence, b.confidence)))
  {}

  lemma UnitProduct(u: real, v: real)
    requires 0.0 <= u <= 1.0 && 0.0 <= v <= 1.0
    ensures 0.0 <= Share(u, v) <= 1.0
  {
    hide Share;
    Nothing(v);
    Monotone(0.0, u, v);
    Monotone(u, 1.0, v);
  }

  lemma Nothing(v: real)
    ensures Share(0.0, v) == 0.0 && Share(1.0, v) == v
  {}

  lemma Monotone(u: real, w: real, v: real)
    requires u <= w && v >= 0.0
    ensures Share(u, v) <= Share(w, v)
  {
    assert u * v <= w * v;
  }

  /** Along an axis the confidence needs no clamping. */
  lemma AxisConfidence(a: Entity, b: Entity, space: real)
    requires Unit(a.confidence) && Unit(b.confidence) && space >= 0.0
    ensures Confidence(a, b, Min(1.0, 0.65 + space)) == Share(Certainty(space), Weaker(a.confidence, b.confidence))
  {
    hide Share, Confidence;
    ConfidenceIs(a, b, Min(1.0, 0.65 + space));
    UnitProduct(Certainty(space), Weaker(a.confidence, b.confidence));
  }

  function AxisOf(k: Predicate): Axis {
    if k.LeftOf? || k.RightOf? then Horizontal else Vertical
  }

  /** One order along an axis: of the first entity before the second, or the other way round. */
  predicate Ordered(c: Config, a: Entity, b: Entity, gap: real, back: real, first: bool, r: Relation, k: Predicate,
                    converse: Predicate) {
    && gap >= c.minAxisGap && (back >= 0.0 ==> first)
    && r.confidence == Share(Certainty(gap), Weaker(a.confidence, b.confidence))
    && (|| (r.subject == a.id && r.kind == k && r.target == b.id)
        || (r.subject == b.id && r.kind == converse && r.target == a.id))
  }

  lemma BothListed(r: Relation)
    ensures forall s, p, o, converse, confidence :: r in Both(s, p, o, converse, confidence) <==>
              r == Relation(s, p, o, confidence) || r == Relation(o, converse, s, confidence)
  {}

  lemma AxisExactly(c: Config, a: Entity, b: Entity, a0: real, aw: real, b0: real, bw: real, k: Predicate,
                    converse: Predicate, r: Relation)
    requires Acceptable(c) && Unit(a.confidence) && Unit(b.confidence)
    ensures var gap, back := b0 - (a0 + aw), a0 - (b0 + bw);
            r in AxisRelations(c, a, b, a0, aw, b0, bw, k, converse) <==>
              Ordered(c, a, b, gap, back, true, r, k, converse) || Ordered(c, b, a, back, gap, false, r, k, converse)
  {
    hide Confidence, Certainty, Weaker, Share, Both;
    WeakerEither(a.confidence, b.confidence);
    BothListed(r);
    var gap, back := b0 - (a0 + aw), a0 - (b0 + bw);
    if gap >= 0.0 {
      AxisConfidence(a, b, gap);
    }
    if back >= 0.0 {
      AxisConfidence(a, b, back);
    }
  }

  lemma AxisSays(c: Config, es: seq<Entity>, depth: map<string, Measured>, i: nat, j: nat, r: Relation)
    requires Acceptable(c) && i < j < |es| && ValidBoxed(es[i]) && ValidBoxed(es[j])
    requires r.kind.LeftOf? || r.kind.RightOf? || r.kind.Above? || r.kind.Below?
    ensures r in PartFor(c, es[i], es[j], depth, r.kind) <==> Says(c, es, depth, i, j, r) || Says(c, es, depth, j, i, r)
  {
    hide AxisRelations, Certainty, Weaker, Share;
    var p, q := es[i].bbox.value, es[j].bbox.value;
    WeakerEither(es[i].confidence, es[j].confidence);
    AxisExactly(c, es[i], es[j], p.x, p.width, q.x, q.width, LeftOf, RightOf, r);
    AxisExactly(c, es[i], es[j], p.y, p.height, q.y, q.height, Above, Below, r);
  }

  lemma WeakerEither(u: real, v: real)
    ensures Weaker(u, v) == Weaker(v, u)
  {}

  lemma NearExactly(c: Config, a: Entity, b: Entity, p: Box, q: Box, r: Relation)
    requires c.nearDistance > 0.0
    ensures r in NearRelations(c, a, b, p, q) <==>
              && CenterDistance(c, p, q) <= c.nearDistance
              && r.kind == Near
              && r.confidence ==
                   Clamped(Share(Closeness(c, CenterDistance(c, p, q)), Weaker(a.confidence, b.confidence)))
              && ((r.subject == a.id && r.target == b.id) || (r.subject == b.id && r.target == a.id))
  {
    hide Confidence, Weaker, Clamped, Closeness, Share, CenterDistance;
    CentersApart(c, p, q);
    var d := CenterDistance(c, p, q);
    ConfidenceIs(a, b, Max(0.35, 1.0 - d / c.nearDistance));
    ClosenessIs(c, d);
  }

  lemma NearSays(c: Config, es: seq<Entity>, depth: map<string, Measured>, i: nat, j: nat, r: Relation)
    requires Acceptable(c) && i < j < |es| && ValidBoxed(es[i]) && ValidBoxed(es[j]) && r.kind.Near?
    ensures r in PartFor(c, es[i], es[j], depth, r.kind) <==> Says(c, es, depth, i, j, r) || Says(c, es, depth, j, i, r)
  {
    hide NearRelations, Weaker, Clamped, Closeness, Share, CenterDistance;
    WeakerEither(es[i].confidence, es[j].confidence);
    NearExactly(c, es[i], es[j], es[i].bbox.value, es[j].bbox.value, r);
  }

  lemma CentersApart(c: Config, p: Box, q: Box)
    ensures CenterDistance(c, p, q) ==
              c.hypot(p.x + p.width / 2.0 - (q.x + q.width / 2.0), p.y + p.height / 2.0 - (q.y + q.height / 2.0))
  {
    assert p.x + p.width / 2.0 - (q.x + q.width / 2.0) == (2.0 * p.x + p.width - 2.0 * q.x - q.width) / 2.0;
    assert p.y + p.height / 2.0 - (q.y + q.height / 2.0) == (2.0 * p.y + p.height - 2.0 * q.y - q.height) / 2.0;
  }

  lemma ClosenessIs(c: Config, d: real)
    requires c.nearDistance > 0.0
    ensures Closeness(c, d) == Max(0.35, 1.0 - d / c.nearDistance)
  {}

  lemma InsideSays(c: Config, es: seq<Entity>, depth: map<string, Measured>, i: nat, j: nat, r: Relation)
    requires Acceptable(c) && i < j < |es| && ValidBoxed(es[i]) && ValidBoxed(es[j]) && r.kind.Inside?
    ensures r in PartFor(c, es[i], es[j], depth, r.kind) <==> Says(c, es, depth, i, j, r) || Says(c, es, depth, j, i, r)
  {
    hide Confidence, Weaker, Within, StrictlyContains;
    var a, b := es[i], es[j];
    WeakerEither(a.confidence, b.confidence);
    ContainsIsWithin(c, a.bbox.value, b.bbox.value);
    ContainsIsWithin(c, b.bbox.value, a.bbox.value);
    InsideConfidence(a, b);
  }

  lemma ContainsIsWithin(c: Config, inner: Box, outer: Box)
    ensures StrictlyContains(outer, inner, c.tolerance) <==> Within(c, inner, outer)
  {
    hide Area;
  }

  lemma InsideConfidence(a: Entity, b: Entity)
    requires Unit(a.confidence) && Unit(b.confidence)
    ensures Confidence(a, b, 0.9) == Share(0.9, Weaker(a.confidence, b.confidence))
  {
    ConfidenceIs(a, b, 0.9);
  }

  /** How sure the order of two measurements is, the nearer first. */
  function OrderCertainty(p: Measured, q: Measured): real {
    Share(Weaker(p.confidence, q.confidence),
          Certainty(Against(q.distance - p.distance, if q.distance < 1.0 then 1.0 else q.distance)))
  }

  predicate DepthOrdered(c: Config, a: Entity, b: Entity, p: Measured, q: Measured, r: Relation) {
    && q.distance - p.distance >= c.minDepthGap
    && r.confidence == Clamped(Share(OrderCertainty(p, q), Weaker(a.confidence, b.confidence)))
    && (|| (r.subject == a.id && r.kind == InFrontOf && r.target == b.id)
        || (r.subject == b.id && r.kind == Behind && r.target == a.id))
  }

  lemma OrderFactor(p: Measured, q: Measured)
    requires p.distance < q.distance
    ensures DepthWeight(p, q, q.distance - p.distance) == OrderCertainty(p, q)
    ensures DepthWeight(q, p, q.distance - p.distance) == OrderCertainty(p, q)
  {
    hide DepthWeight, Share, Against;
    WeightIs(p, q, q.distance - p.distance);
    WeightIs(q, p, q.distance - p.distance);
  }

  lemma WeightIs(p: Measured, q: Measured, gap: real)
    ensures Max(Max(p.distance, q.distance), 1.0) >= 1.0
    ensures DepthWeight(p, q, gap) ==
              Share(Min(p.confidence, q.confidence),
                    Min(1.0, 0.65 + Against(gap, Max(Max(p.distance, q.distance), 1.0))))
  {}

  lemma DepthExactly(c: Config, a: Entity, b: Entity, depth: map<string, Measured>, r: Relation)
    requires Acceptable(c) && a.id in depth && b.id in depth
    ensures r in DepthRelations(c, a, b, depth) <==>
              DepthOrdered(c, a, b, depth[a.id], depth[b.id], r) || DepthOrdered(c, b, a, depth[b.id], depth[a.id], r)
  {
    hide Confidence, Clamped, Share, Weaker, OrderCertainty, DepthWeight;
    var p, q := depth[a.id], depth[b.id];
    WeakerEither(a.confidence, b.confidence);
    if p.distance < q.distance {
      OrderFactor(p, q);
      ConfidenceIs(a, b, OrderCertainty(p, q));
    } else if q.distance < p.distance {
      OrderFactor(q, p);
      ConfidenceIs(a, b, OrderCertainty(q, p));
    }
  }

  lemma DepthSays(c: Config, es: seq<Entity>, depth: map<string, Measured>, i: nat, j: nat, r: Relation)
    requires Acceptable(c) && i < j < |es| && ValidBoxed(es[i]) && ValidBoxed(es[j])
    requires r.kind.InFrontOf? || r.kind.Behind?
    ensures r in PartFor(c, es[i], es[j], depth, r.kind) <==> Says(c, es, depth, i, j, r) || Says(c, es, depth, j, i, r)
  {
    hide Clamped, Share, Weaker, Certainty, Against;
    if es[i].id in depth && es[j].id in depth {
      hide DepthRelations;
      DepthExactly(c, es[i], es[j], depth, r);
      WeakerEither(es[i].confidence, es[j].confidence);
      WeakerEither(depth[es[i].id].confidence, depth[es[j].id].confidence);
    }
  }

  // ---------------------------------------------------------------- the whole output

  /** A pair says exactly what holds of one with regard to the other. */
  lemma PairSaysExactly(c: Config, es: seq<Entity>, depth: map<string, Measured>, i: nat, j: nat, r: Relation)
    requires Acceptable(c) && i < j < |es| && ValidBoxed(es[i]) && ValidBoxed(es[j])
    ensures r in PairOutput(c, es[i], es[j], depth) <==> Says(c, es, depth, i, j, r) || Says(c, es, depth, j, i, r)
  {
    hide Says, PairOutput, AxisRelations, NearRelations, InsideRelations, DepthRelations;
    PartIsIn(c, es[i], es[j], depth, r);
    match r.kind
    case LeftOf => AxisSays(c, es, depth, i, j, r);
    case RightOf => AxisSays(c, es, depth, i, j, r);
    case Above => AxisSays(c, es, depth, i, j, r);
    case Below => AxisSays(c, es, depth, i, j, r);
    case Near => NearSays(c, es, depth, i, j, r);
    case Inside => InsideSays(c, es, depth, i, j, r);
    case InFrontOf => DepthSays(c, es, depth, i, j, r);
    case Behind => DepthSays(c, es, depth, i, j, r);
    case Other(_) => NothingOther(c, es, depth, i, j, r);
  }

  lemma NothingOther(c: Config, es: seq<Entity>, depth: map<string, Measured>, i: nat, j: nat, r: Relation)
    requires Acceptable(c) && r.kind.Other?
    ensures !Says(c, es, depth, i, j, r) && !Says(c, es, depth, j, i, r)
  {}

  lemma PartIsIn(c: Config, a: Entity, b: Entity, depth: map<string, Measured>, r: Relation)
    requires Acceptable(c) && ValidBoxed(a) && ValidBoxed(b)
    ensures r in PairOutput(c, a, b, depth) <==> r in PartFor(c, a, b, depth, r.kind)
  {
    hide AxisRelations, NearRelations, InsideRelations, DepthRelations, PairOutput;
    PairParts(c, a, b, depth, r);
    if r in PairOutput(c, a, b, depth) {
      PartHolds(c, a, b, depth, r);
    }
  }

  /** For distinct ids a relation is generated exactly when it was not given and holds of some
      two candidates, with exactly the stated confidence. */
  lemma GeneratedMeans(c: Config, es: seq<Entity>, current: seq<Relation>, depth: seq<Depth>, r: Relation)
    requires Acceptable(c) && (forall e :: e in es ==> ValidEntity(e)) && DistinctIds(es)
    ensures r in Generated(c, es, current, depth) <==>
              && KeyOf(r) !in Keys(current)
              && exists i: nat, j: nat :: Says(c, Candidates(c, es), MeasuredDepths(depth), i, j, r)
  {
    hide PairOutput, Candidates, Generated, Says, MeasuredDepths;
    var cs, depths := Candidates(c, es), MeasuredDepths(depth);
    GeneratedExactly(c, es, current, depth, r);
    CandidatesAreFit(c, es);
    forall i: nat, j: nat | i < j < |cs|
      ensures Emitted(c, cs, depths, i, j, r) <==> Says(c, cs, depths, i, j, r) || Says(c, cs, depths, j, i, r)
    {
      PairSaysExactly(c, cs, depths, i, j, r);
    }
    forall i: nat, j: nat | Says(c, cs, depths, i, j, r) ensures i < |cs| && j < |cs| && i != j {
      SaysOfCandidates(c, cs, depths, i, j, r);
    }
    if i: nat, j: nat :| Says(c, cs, depths, i, j, r) {
      assert if i < j then Emitted(c, cs, depths, i, j, r) else Emitted(c, cs, depths, j, i, r);
    }
  }

  lemma SaysOfCandidates(c: Config, es: seq<Entity>, depth: map<string, Measured>, i: nat, j: nat, r: Relation)
    requires c.nearDistance > 0.0 && Says(c, es, depth, i, j, r)
    ensures i < |es| && j < |es| && i != j
  {}

  predicate Measures(d: Depth, id: string) {
    d.entity == id && d.distance.Some?
  }

  predicate LastMeasure(depth: seq<Depth>, id: string, k: nat)
    requires k < |depth|
  {
    Measures(depth[k], id) && forall l :: k < l < |depth| ==> !Measures(depth[l], id)
  }

  /** The last measured distance of an entity counts; a missing confidence is 0.75. */
  lemma {:induction false} DepthsMean(depth: seq<Depth>, id: string)
    ensures id in MeasuredDepths(depth) <==> exists k :: 0 <= k < |depth| && Measures(depth[k], id)
    ensures forall k :: 0 <= k < |depth| && LastMeasure(depth, id, k) ==>
              && id in MeasuredDepths(depth)
              && MeasuredDepths(depth)[id].distance == depth[k].distance.value
              && (depth[k].confidence.Some? ==> MeasuredDepths(depth)[id].confidence == depth[k].confidence.value)
              && (depth[k].confidence.None? ==> MeasuredDepths(depth)[id].confidence == 0.75)
  {
    if depth != [] {
      var before := depth[..|depth| - 1];
      DepthsMean(before, id);
      assert forall k :: 0 <= k < |before| ==> before[k] == depth[k];
    }
  }

  // ---------------------------------------------------------------- ranks

  /** Texts compare by their first difference. */
  lemma {:induction false} TextLeMeans(a: string, b: string)
    ensures TextLe(a, b) <==>
              exists n :: 0 <= n <= |a| && n <= |b| && a[..n] == b[..n] && (n == |a| || (n < |b| && a[n] < b[n]))
  {
    if a == "" {
      assert a[..0] == b[..0];
    } else if b != "" && a[0] == b[0] {
      TextLeMeans(a[1..], b[1..]);
      if n :| 0 <= n <= |a| - 1 && n <= |b| - 1 && a[1..][..n] == b[1..][..n]
              && (n == |a| - 1 || (n < |b| - 1 && a[1..][n] < b[1..][n])) {
        assert a[..n + 1] == [a[0]] + a[1..][..n] && b[..n + 1] == [b[0]] + b[1..][..n];
      }
      if n :| 0 <= n <= |a| && n <= |b| && a[..n] == b[..n] && (n == |a| || (n < |b| && a[n] < b[n])) {
        assert n > 0;
        assert a[1..][..n - 1] == a[..n][1..] && b[1..][..n - 1] == b[..n][1..];
      }
    } else if b != "" {
      assert a[..0] == b[..0];
    }
  }

  /** The candidates are the most confident boxed entities, ties by id, as many as there are
      up to the limit. */
  lemma CandidatesRankHighest(c: Config, es: seq<Entity>)
    ensures var cs := Candidates(c, es);
            && |cs| == (if |Boxed(es)| < c.maxEntities then |Boxed(es)| else c.maxEntities)
            && (forall i, j :: 0 <= i < j < |cs| ==> cs[i].confidence >= cs[j].confidence)
            && (forall i, j :: 0 <= i < j < |cs| && cs[i].confidence == cs[j].confidence ==> TextLe(cs[i].id, cs[j].id))
            && (forall e, o :: e in es && e.bbox.Some? && e !in cs && o in cs ==>
                  o.confidence >= e.confidence && (o.confidence == e.confidence ==> TextLe(o.id, e.id)))
  {
    hide TextLe;
    var sorted := Sort(Boxed(es), EntityLe);
    OrdersAreTotal();
    SortSorts(Boxed(es), EntityLe);
    SortPermutes(Boxed(es), EntityLe);
    SortMembers(Boxed(es), EntityLe);
    BoxedMembers(es);
    SameSize(sorted, Boxed(es));
    forall e, o | e in sorted && e !in Take(sorted, c.maxEntities) && o in Take(sorted, c.maxEntities)
      ensures EntityLe(o, e)
    {
      KeptFirst(sorted, c.maxEntities, e, o);
    }
  }

  lemma SameSize<T>(s: seq<T>, t: seq<T>)
    requires multiset(s) == multiset(t)
    ensures |s| == |t|
  {
    assert |multiset(s)| == |s| && |multiset(t)| == |t|;
  }

  lemma KeptFirst(sorted: seq<Entity>, n: nat, e: Entity, o: Entity)
    requires Sorted(sorted, EntityLe) && e in sorted && e !in Take(sorted, n) && o in Take(sorted, n)
    ensures EntityLe(o, e)
  {
    hide EntityLe;
    var i :| 0 <= i < |sorted| && sorted[i] == e;
    var j :| 0 <= j < |Take(sorted, n)| && Take(sorted, n)[j] == o;
    assert sorted[j] == o && i >= n;
  }

  /** The new relations come out by falling confidence, then by subject, name and target, as
      many as there are up to the limit. */
  lemma OutputIsOrdered(c: Config, es: seq<Entity>, current: seq<Relation>, depth: seq<Depth>, i: nat, j: nat)
    requires Acceptable(c) && i < j < |Output(c, es, current, depth)|
    ensures var g := |Generated(c, es, current, depth)|;
            |Output(c, es, current, depth)| == if g < c.maxRelations then g else c.maxRelations
    ensures var r, s := Output(c, es, current, depth)[i], Output(c, es, current, depth)[j];
            && r.confidence >= s.confidence
            && (r.confidence == s.confidence ==> TextLe(r.subject, s.subject))
            && (r.confidence == s.confidence && r.subject == s.subject ==> TextLe(Name(r.kind), Name(s.kind)))
            && (r.confidence == s.confidence && r.subject == s.subject && Name(r.kind) == Name(s.kind) ==>
                  TextLe(r.target, s.target))
  {
    hide Generated, RelationLe;
    var g := Generated(c, es, current, depth);
    OrdersAreTotal();
    SortSorts(g, RelationLe);
    SortPermutes(g, RelationLe);
    SameSize(Sort(g, RelationLe), g);
    RankMeans(Output(c, es, current, depth)[i], Output(c, es, current, depth)[j]);
  }

  lemma RankMeans(r: Relation, s: Relation)
    requires RelationLe(r, s)
    ensures && r.confidence >= s.confidence
            && (r.confidence == s.confidence ==> TextLe(r.subject, s.subject))
            && (r.confidence == s.confidence && r.subject == s.subject ==> TextLe(Name(r.kind), Name(s.kind)))
            && (r.confidence == s.confidence && r.subject == s.subject && Name(r.kind) == Name(s.kind) ==>
                  TextLe(r.target, s.target))
  {
    TextSelf(r.subject);
    TextSelf(Name(r.kind));
  }

  lemma {:induction false} TextSelf(a: string)
    ensures TextLe(a, a)
  {
    TextTotal(a, a);
  }
}
