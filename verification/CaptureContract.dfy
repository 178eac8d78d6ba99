/** What the producers' control loops do to the world, call by call, and the contract they
    owe it. Any call may raise, and an interruption is a call that raises. */
module CaptureContract {
  import opened Wrappers

  datatype Effect =
    | Refreshed
    | Fetched(enabled: bool, revision: nat)
    | Opened
    | Closed
    | Beat(active: bool, revision: nat)
    | Read
    | Encoded
    | Sent
    | Slept(seconds: real)

  /** What an observer knows: whether the capture source is open, the desired state fetched
      last, whether something was read that has not been sent, and whether the last fetch
      still waits for its heartbeat. */
  datatype Seen = Seen(open: bool, desired: Option<(bool, nat)>, unsent: bool, owed: bool)

  const NOTHING := Seen(false, None, false, false)

  function Watch(s: Seen, e: Effect): Seen {
    match e
    case Fetched(on, revision) => s.(desired := Some((on, revision)), owed := true)
    case Opened => s.(open := true)
    case Closed => s.(open := false)
    case Read => s.(unsent := true)
    case Sent => s.(unsent := false)
    case Beat(_, _) => s.(owed := false)
    case _ => s
  }

  predicate WantsCapture(s: Seen) {
    s.desired.Some? && s.desired.value.0
  }

  /** The contract of the control loop: the source is opened, read and sent from only while
      the desired state fetched last is enabled, every sending has a reading of its own
      before it, and a heartbeat answers a fetch of its own and tells the capture state as
      it is, with the revision fetched last. */
  predicate Allowed(s: Seen, e: Effect) {
    match e
    case Opened => !s.open && WantsCapture(s)
    case Read => s.open && WantsCapture(s)
    case Encoded => s.open && WantsCapture(s) && s.unsent
    case Sent => s.open && WantsCapture(s) && s.unsent
    case Beat(active, revision) => s.owed && s.open == active && s.desired == Some((active, revision))
    case _ => true
  }

  function WatchAll(s: Seen, es: seq<Effect>): Seen
    decreases |es|
  {
    if es == [] then s else WatchAll(Watch(s, es[0]), es[1..])
  }

  predicate Safe(s: Seen, es: seq<Effect>)
    decreases |es|
  {
    es == [] || (Allowed(s, es[0]) && Safe(Watch(s, es[0]), es[1..]))
  }

  lemma {:induction false} SafeAppend(s: Seen, a: seq<Effect>, b: seq<Effect>)
    ensures WatchAll(s, a + b) == WatchAll(WatchAll(s, a), b)
    ensures Safe(s, a + b) <==> Safe(s, a) && Safe(WatchAll(s, a), b)
    decreases |a|
  {
    if a == [] {
      assert a + b == b;
    } else {
      assert (a + b)[1..] == a[1..] + b;
      SafeAppend(Watch(s, a[0]), a[1..], b);
    }
  }

  /** Safety read effect by effect. */
  lemma {:induction false} SafeMeansAllowed(s: Seen, es: seq<Effect>, i: nat)
    requires Safe(s, es) && i < |es|
    ensures Allowed(WatchAll(s, es[..i]), es[i])
    decreases i
  {
    if i > 0 {
      SafeMeansAllowed(Watch(s, es[0]), es[1..], i - 1);
      assert es[1..][..i - 1] == es[..i][1..];
    }
  }

  /** Whether the source is open after some effects. */
  function Held(held: bool, es: seq<Effect>): bool {
    if es == [] then held
    else
      match es[|es| - 1]
      case Opened => true
      case Closed => false
      case _ => Held(held, es[..|es| - 1])
  }

  lemma {:induction false} HeldIsOpen(s: Seen, es: seq<Effect>)
    ensures WatchAll(s, es).open == Held(s.open, es)
    decreases |es|
  {
    if es != [] {
      var before := es[..|es| - 1];
      HeldIsOpen(s, before);
      assert es == before + [es[|es| - 1]];
      SafeAppend(s, before, [es[|es| - 1]]);
    }
  }

  /** A call that raises leaves no effect when it is a fetch, an opening or a refresh. */
  predicate Vanishes(e: Effect) {
    e.Fetched? || e.Opened? || e.Refreshed? || e.Slept? || e.Encoded?
  }

  /** The effects of planned calls of which the one at `failAt` raises. */
  function Cut(plan: seq<Effect>, failAt: nat): seq<Effect> {
    if failAt >= |plan| then plan
    else plan[..failAt] + (if Vanishes(plan[failAt]) then [] else [plan[failAt]])
  }

  lemma {:induction false} SafePrefix(s: Seen, es: seq<Effect>, k: nat)
    requires Safe(s, es)
    ensures Safe(s, Cut(es, k))
  {
    if k < |es| {
      assert es == es[..k] + es[k..] && es[k..][0] == es[k];
      SafeAppend(s, es[..k], es[k..]);
      assert Allowed(WatchAll(s, es[..k]), es[k]);
      assert Safe(WatchAll(s, es[..k]), [es[k]]);
      SafeAppend(s, es[..k], [es[k]]);
      assert es[..k] + [] == es[..k];
    }
  }

  lemma Cons(s: Seen, e: Effect, rest: seq<Effect>)
    ensures WatchAll(s, [e] + rest) == WatchAll(Watch(s, e), rest)
    ensures Safe(s, [e] + rest) <==> Allowed(s, e) && Safe(Watch(s, e), rest)
  {
    assert ([e] + rest)[1..] == rest;
  }
}
