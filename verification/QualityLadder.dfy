/** The producer's JPEG quality ladder: lowering the quality in fives until a packet fits. */
module QualityLadder {
  import opened Wrappers

  type Packet = seq<bv8>

  datatype LadderError = BudgetTooSmall | BadQuality | BadTarget | PacketTooLarge

  function TargetBytes(maxPacketBytes: int, target: real): int {
    var t := (maxPacketBytes as real * target).Floor - 1;
    if t < 1 then 1 else t
  }

  /** The goal is the last whole number of bytes that is below the target share by one or more,
      and at least one byte. */
  lemma TargetIsBelow(maxPacketBytes: int, target: real)
    ensures var t := TargetBytes(maxPacketBytes, target);
            && t >= 1
            && (t > 1 ==> (t + 1) as real <= maxPacketBytes as real * target)
            && maxPacketBytes as real * target < (t + 2) as real
  {}

  /** The qualities the ladder can reach: down from the first in fives, and the least. */
  predicate OnLadder(q: int, initial: int, least: int) {
    least <= q <= initial && (q == least || (initial - q) % 5 == 0)
  }

  /** A packet at the best quality that fits the target, or failing all at the least quality
      if it fits the budget at all. */
  ghost predicate BestFit(encode: int -> Packet, initial: int, least: int, budget: int, goal: int,
                          r: Result<(Packet, int), LadderError>) {
    match r
    case Ok((packet, q)) =>
      && OnLadder(q, initial, least) && packet == encode(q) && |packet| <= budget
      && (forall better :: OnLadder(better, initial, least) && better > q ==> |encode(better)| > goal)
      && (|packet| <= goal || q == least)
    case Err(e) =>
      && e == PacketTooLarge && |encode(least)| > budget
      && (forall any :: OnLadder(any, initial, least) ==> |encode(any)| > goal)
  }

  method EncodePacketWithBudget(encode: int -> Packet, initial: int, least: int, maxPacketBytes: int, target: real)
    returns (r: Result<(Packet, int), LadderError>, utilization: real)
    ensures maxPacketBytes < 1024 ==> r == Err(BudgetTooSmall)
    ensures maxPacketBytes >= 1024 && !(30 <= least <= initial <= 100) ==> r == Err(BadQuality)
    ensures maxPacketBytes >= 1024 && 30 <= least <= initial <= 100 && !(0.0 < target < 1.0) ==> r == Err(BadTarget)
    ensures maxPacketBytes >= 1024 && 30 <= least <= initial <= 100 && 0.0 < target < 1.0 ==>
              BestFit(encode, initial, least, maxPacketBytes, TargetBytes(maxPacketBytes, target), r)
    ensures r.Ok? ==> utilization * maxPacketBytes as real == |r.value.0| as real
  {
    utilization := 0.0;
    if maxPacketBytes < 1024 {
      return Err(BudgetTooSmall), utilization;
    }
    if !(30 <= least <= initial <= 100) {
      return Err(BadQuality), utilization;
    }
    if !(0.0 < target < 1.0) {
      return Err(BadTarget), utilization;
    }
    hide TargetBytes, BestFit;
    TargetWithinBudget(maxPacketBytes, target);
    r := ClimbDown(encode, initial, least, maxPacketBytes, TargetBytes(maxPacketBytes, target));
    if r.Ok? {
      utilization := |r.value.0| as real / maxPacketBytes as real;
    }
  }

  /** The ladder itself. */
  method ClimbDown(encode: int -> Packet, initial: int, least: int, budget: int, goal: int)
    returns (r: Result<(Packet, int), LadderError>)
    requires least <= initial && goal <= budget
    ensures BestFit(encode, initial, least, budget, goal, r)
  {
    var quality := initial;
    var packet := encode(quality);
    while |packet| > goal && quality > least
      invariant OnLadder(quality, initial, least) && packet == encode(quality)
      invariant forall better :: OnLadder(better, initial, least) && better > quality ==> |encode(better)| > goal
      decreases quality - least
    {
      var lower := if quality - 5 < least then least else quality - 5;
      NextRung(quality, lower, initial, least);
      quality := lower;
      packet := encode(quality);
    }
    if |packet| > goal && |packet| > budget {
      return Err(PacketTooLarge);
    }
    r := Ok((packet, quality));
  }

  /** Between a rung and the next lower one there is none. */
  lemma NextRung(quality: int, lower: int, initial: int, least: int)
    requires OnLadder(quality, initial, least) && quality > least
    requires lower == if quality - 5 < least then least else quality - 5
    ensures OnLadder(lower, initial, least)
    ensures forall q :: OnLadder(q, initial, least) && q > lower ==> q >= quality
  {}

  lemma TargetWithinBudget(maxPacketBytes: int, target: real)
    requires maxPacketBytes >= 1 && target < 1.0
    ensures TargetBytes(maxPacketBytes, target) <= maxPacketBytes
  {
    assert maxPacketBytes as real * target <= maxPacketBytes as real;
  }

  /** Asking for a smaller packet never gives a better quality. */
  lemma TighterBudgetLowersQuality(encode: int -> Packet, initial: int, least: int, budget: int, budget': int,
                                   goal: int, goal': int,
                                   r: Result<(Packet, int), LadderError>, r': Result<(Packet, int), LadderError>)
    requires goal' <= goal && least <= initial
    requires BestFit(encode, initial, least, budget, goal, r) && BestFit(encode, initial, least, budget', goal', r')
    requires r.Ok? && r'.Ok?
    ensures r'.value.1 <= r.value.1
  {}
}
