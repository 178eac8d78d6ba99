/** The clients that reserve, send and resolve one frame at a time: the Python gateway
    producer and the Kotlin gateway client. */
module FrameProducer {
  import opened Wrappers
  import opened ProducerState
  import opened SensorIngress

  /** What one POST comes back with: no whole response, or a status and, when its body
      parses as one, a receipt. */
  datatype Reply = Unreachable | Http(status: int, receipt: Option<Receipt>)

  datatype Verdict = Taken | Overload | Unavailable | AuthRejected | ProtocolFault

  /** Only a 200 whose receipt names this source, type, sequence and drop count means
      the frame was taken. */
  function Judge(reply: Reply, sent: Receipt): Verdict {
    match reply
    case Unreachable => Unavailable
    case Http(status, receipt) =>
      if status == 429 then Overload
      else if status == 401 || status == 403 then AuthRejected
      else if status != 200 then ProtocolFault
      else if receipt.None? then ProtocolFault
      else if receipt.value.sourceId != sent.sourceId || receipt.value.sourceType != sent.sourceType
           || receipt.value.sequence != sent.sequence then ProtocolFault
      else if receipt.value.dropped != sent.dropped then ProtocolFault
      else Taken
  }

  /** The five verdicts, told apart by the reply. */
  lemma JudgeMeans(reply: Reply, sent: Receipt)
    ensures Judge(reply, sent).Taken? <==> reply == Http(200, Some(sent))
    ensures Judge(reply, sent).Unavailable? <==> reply == Unreachable
    ensures Judge(reply, sent).Overload? <==> reply.Http? && reply.status == 429
    ensures Judge(reply, sent).AuthRejected? <==> reply.Http? && reply.status in {401, 403}
  {}

  /** `Negotiation` stands for whatever the lookup of the payload limit raised. */
  datatype SendError = EmptyPayload | State(error: StateError) | Auth | Protocol | Negotiation

  datatype SendStatus = Accepted | DroppedOverload | DroppedUnavailable

  datatype FrameResult = FrameResult(status: SendStatus, sequence: nat, pending: nat)

  function Resolution(v: Verdict, sequence: nat): Op {
    if v.Taken? then Op.MarkAccepted(sequence) else Op.MarkDropped(sequence)
  }

  class GatewayFrameProducer {
    const key: string
    const sourceId: string
    const sourceType: string
    const store: ProducerStateStore?
    var nextSequence: nat
    var pendingDropped: nat
    var captured: nat
    var accepted: nat
    var droppedOverload: nat
    var droppedUnavailable: nat

    /** What the producer would send with its next frame. */
    ghost function Current(): Entry
      reads this, store
    {
      if store == null then Entry(nextSequence, pendingDropped, None) else Lookup(store.file, key)
    }

    constructor (key: string, sourceId: string, sourceType: string, store: ProducerStateStore?,
                 startSequence: Option<nat>, recovered: Entry)
      requires store != null ==> recovered == Lookup(store.file, key)
      ensures this.key == key && this.sourceId == sourceId && this.sourceType == sourceType && this.store == store
      ensures store == null ==> Current() == Entry(if startSequence.Some? then startSequence.value else 0, 0, None)
      ensures store != null ==> nextSequence == recovered.nextSequence && pendingDropped == recovered.pendingDropped
      ensures captured == accepted == droppedOverload == droppedUnavailable == 0
    {
      this.key, this.sourceId, this.sourceType, this.store := key, sourceId, sourceType, store;
      if store != null {
        nextSequence, pendingDropped := recovered.nextSequence, recovered.pendingDropped;
      } else {
        nextSequence := if startSequence.Some? then startSequence.value else 0;
        pendingDropped := 0;
      }
      captured, accepted, droppedOverload, droppedUnavailable := 0, 0, 0, 0;
    }

    method SyncPersistentState()
      modifies this`nextSequence, this`pendingDropped
      ensures store == null || store.file.Corrupt? ==>
                && nextSequence == old(nextSequence)
                && pendingDropped == old(pendingDropped)
      ensures store != null && !store.file.Corrupt? ==>
                nextSequence == Current().nextSequence && pendingDropped == Current().pendingDropped
    {
      if store != null {
        var state := store.Snapshot(key);
        if state.Ok? {
          nextSequence, pendingDropped := state.value.nextSequence, state.value.pendingDropped;
        }
      }
    }

    method ReserveFrame(saved: bool) returns (r: Result<(nat, nat), StateError>)
      modifies this`nextSequence, this`pendingDropped, store
      ensures store == null ==>
                && r == Ok((old(nextSequence), old(pendingDropped)))
                && nextSequence == old(nextSequence) + 1 && pendingDropped == old(pendingDropped)
      ensures store != null ==>
                && store.file == CallOutcome(old(store.file), key, Op.Reserve, saved).0
                && (CallOutcome(old(store.file), key, Op.Reserve, saved).1.Ok? ==>
                      r == Ok((old(Current()).nextSequence, old(Current()).pendingDropped)))
                && (CallOutcome(old(store.file), key, Op.Reserve, saved).1.Err? ==>
                      && r == Err(CallOutcome(old(store.file), key, Op.Reserve, saved).1.error)
                      && nextSequence == old(nextSequence) && pendingDropped == old(pendingDropped))
    {
      if store == null {
        r := Ok((nextSequence, pendingDropped));
        nextSequence := nextSequence + 1;
        return;
      }
      r := store.Reserve(key, saved);
      if r.Ok? {
        SyncPersistentState();
      }
    }

    method Mark(op: Op, saved: bool) returns (r: Result<(), StateError>)
      requires op.MarkDropped? || op.MarkAccepted?
      modifies this`nextSequence, this`pendingDropped, store
      ensures store == null ==>
                && r == Ok(()) && nextSequence == old(nextSequence)
                && pendingDropped == if op.MarkDropped? then old(pendingDropped) + 1 else 0
      ensures store != null ==>
                && store.file == CallOutcome(old(store.file), key, op, saved).0
                && (r.Ok? <==> CallOutcome(old(store.file), key, op, saved).1.Ok?)
                && (r.Err? ==> r.error == CallOutcome(old(store.file), key, op, saved).1.error)
                && (r.Ok? ==> pendingDropped == Current().pendingDropped)
    {
      if store == null {
        pendingDropped := if op.MarkDropped? then pendingDropped + 1 else 0;
        return Ok(());
      }
      var updated;
      if op.MarkDropped? {
        updated := store.MarkDropped(key, op.sequence, saved);
      } else {
        updated := store.MarkAccepted(key, op.sequence, saved);
      }
      if updated.Err? {
        return Err(updated.error);
      }
      SyncPersistentState();
      r := Ok(());
    }

    /** Send one frame. Whatever the reply, the reservation is resolved before the call
        returns, as accepted exactly when a matching receipt came back, unless the state
        file could not be replaced: then the frame stays in flight for recovery. */
    method SendPayload(payloadLength: nat, reply: Reply, reserveSaved: bool, markSaved: bool)
      returns (r: Result<FrameResult, SendError>)
      modifies this, store
      ensures var e := old(Current());
              var n, p := e.nextSequence, e.pendingDropped;
              var taken := reply == Http(200, Some(Receipt(sourceId, sourceType, n, p)));
              if payloadLength == 0 then
                r == Err(EmptyPayload) && Current() == e
              else if store != null && old(store.file).Corrupt? then
                r == Err(SendError.State(BadFile)) && store.file == old(store.file)
              else if store != null && e.inflight.Some? then
                r == Err(SendError.State(InFlight)) && store.file == old(store.file)
              else if store != null && !reserveSaved then
                r == Err(SendError.State(NotSaved)) && store.file == old(store.file)
              else if store != null && !markSaved then
                && r == Err(SendError.State(NotSaved))
                && Current() == Entry(e.nextSequence + 1, e.pendingDropped, Some(e.nextSequence))
              else
                && Current() == Entry(n + 1, if taken then 0 else p + 1, None)
                && (r == Ok(FrameResult(Accepted, n, 0)) <==> taken)
                && (r == Ok(FrameResult(DroppedUnavailable, n, p + 1)) <==> reply == Unreachable)
                && (r == Ok(FrameResult(DroppedOverload, n, p + 1)) <==> reply.Http? && reply.status == 429)
                && (r == Err(Auth) <==> reply.Http? && reply.status in {401, 403})
                && (r == Err(Protocol) <==> reply.Http? && reply.status !in {401, 403, 429} && !taken)
                && captured == old(captured) + 1
                && accepted == old(accepted) + (if taken then 1 else 0)
                && droppedOverload == old(droppedOverload) + (if reply.Http? && reply.status == 429 then 1 else 0)
                && droppedUnavailable == old(droppedUnavailable) + (if reply == Unreachable then 1 else 0)
    {
      if payloadLength == 0 {
        return Err(EmptyPayload);
      }
      var reserved := ReserveFrame(reserveSaved);
      if reserved.Err? {
        return Err(SendError.State(reserved.error));
      }
      var (sequence, pendingBeforeSend) := reserved.value;
      captured := captured + 1;

      var v := Judge(reply, Receipt(sourceId, sourceType, sequence, pendingBeforeSend));
      JudgeMeans(reply, Receipt(sourceId, sourceType, sequence, pendingBeforeSend));
      var marked := Mark(Resolution(v, sequence), markSaved);
      if marked.Err? {
        return Err(SendError.State(marked.error));
      }
      match v {
        case Unavailable =>
          droppedUnavailable := droppedUnavailable + 1;
          r := Ok(FrameResult(DroppedUnavailable, sequence, pendingDropped));
        case Overload =>
          droppedOverload := droppedOverload + 1;
          r := Ok(FrameResult(DroppedOverload, sequence, pendingDropped));
        case AuthRejected => r := Err(Auth);
        case ProtocolFault => r := Err(Protocol);
        case Taken =>
          accepted := accepted + 1;
          r := Ok(FrameResult(Accepted, sequence, 0));
      }
    }
  }

  // ---------------------------------------------------------------- the Kotlin client

  class NativeStateStore {
    var state: NativeState

    constructor ()
      ensures state == NativeState(0, 0, None)
    {
      state := NativeState(0, 0, None);
    }

    method Call(op: Op, saved: bool) returns (r: Result<NativeState, StateError>)
      modifies this
      ensures match NativeApply(op, old(state))
              case Err(x) => r == Err(x) && state == old(state)
              case Ok(s) =>
                if saved then r == Ok(s) && state == s
                else state == old(state) && r == (if op.Recover? && s == old(state) then Ok(s) else Err(NotSaved))
    {
      r := NativeApply(op, state);
      if r.Ok? && !(op.Recover? && r.value == state) {
        if saved {
          state := r.value;
        } else {
          r := Err(NotSaved);
        }
      }
    }
  }

  class NativeGatewayClient {
    const sourceId: string
    const sourceType: string
    const store: NativeStateStore

    constructor (sourceId: string, sourceType: string, store: NativeStateStore)
      ensures this.sourceId == sourceId && this.sourceType == sourceType && this.store == store
    {
      this.sourceId, this.sourceType, this.store := sourceId, sourceType, store;
    }

    /** `capability` is the negotiated payload limit, None when it could not be had.
        Every exit, including a failed negotiation and an oversized payload, resolves
        the reservation it made, unless the state file could not be replaced or the drop
        count is at the end of its 64 bits; only a matching receipt clears the pending
        drops. */
    method SendEncoded(payloadLength: nat, capability: Option<nat>, reply: Reply, reserveSaved: bool, markSaved: bool)
      returns (r: Result<FrameResult, SendError>)
      requires NativeValid(store.state) && store.state.nextSequence <= LONG_MAX
               && store.state.pendingDropped <= LONG_MAX
      modifies store
      ensures var s := old(store.state);
              var n, p := s.nextSequence, s.pendingDropped;
              var sent := capability.Some? && payloadLength <= capability.value;
              var taken := sent && reply == Http(200, Some(Receipt(sourceId, sourceType, n, p)));
              if payloadLength == 0 then r == Err(EmptyPayload) && store.state == s
              else if s.inflight.Some? || n == LONG_MAX || !reserveSaved then
                r.Err? && r.error.State? && store.state == s
              else if !markSaved || (!taken && p == LONG_MAX) then
                r.Err? && r.error.State? && store.state == NativeState(n + 1, p, Some(n))
              else
                && store.state == NativeState(n + 1, if taken then 0 else p + 1, None)
                && (r == Ok(FrameResult(Accepted, n, 0)) <==> taken)
                && (r == Err(Negotiation) <==> capability.None?)
                && (r == Ok(FrameResult(DroppedUnavailable, n, p + 1)) <==> sent && reply == Unreachable)
                && (r == Ok(FrameResult(DroppedOverload, n, p + 1)) <==> sent && reply.Http? && reply.status == 429)
                && (r == Err(Auth) <==> sent && reply.Http? && reply.status in {401, 403})
                && (r == Err(Protocol) <==>
                      || (sent && reply.Http? && reply.status !in {401, 403, 429} && !taken)
                      || (capability.Some? && payloadLength > capability.value))
    {
      if payloadLength == 0 {
        return Err(EmptyPayload);
      }
      ReservationOf(store.state);
      var pending := store.state.pendingDropped;
      var reservation := store.Call(Op.Reserve, reserveSaved);
      if reservation.Err? {
        return Err(SendError.State(reservation.error));
      }
      NextCount(pending);
      var sequence := reservation.value.inflight.value;
      var v := ProtocolFault;
      if capability.Some? && payloadLength <= capability.value {
        v := Judge(reply, Receipt(sourceId, sourceType, sequence, pending));
        JudgeMeans(reply, Receipt(sourceId, sourceType, sequence, pending));
      }
      var marked := store.Call(Resolution(v, sequence), markSaved);
      if marked.Err? {
        return Err(SendError.State(marked.error));
      }
      if capability.None? {
        return Err(Negotiation);
      }
      match v {
        case Taken => r := Ok(FrameResult(Accepted, sequence, 0));
        case Unavailable => r := Ok(FrameResult(DroppedUnavailable, sequence, marked.value.pendingDropped));
        case Overload => r := Ok(FrameResult(DroppedOverload, sequence, marked.value.pendingDropped));
        case AuthRejected => r := Err(Auth);
        case ProtocolFault => r := Err(Protocol);
      }
    }
  }

  lemma ReservationOf(s: NativeState)
    requires NativeValid(s) && s.nextSequence <= LONG_MAX
    ensures NativeApply(Reserve, s) ==
            if s.inflight.Some? then Err(InFlight)
            else if s.nextSequence == LONG_MAX then Err(BadFile)
            else Ok(NativeState(s.nextSequence + 1, s.pendingDropped, Some(s.nextSequence)))
  {
    if s.inflight.None? {
      ReservationExhausted(s);
      if s.nextSequence < LONG_MAX {
        WrapSmall(s.nextSequence + 1);
      }
    }
  }
}
