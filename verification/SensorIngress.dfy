/** Frame admission and heartbeats of the sensor service: one slot into the inference
    pipeline, increasing sequences per source, and the per-source statistics. */
module SensorIngress {
  import opened Wrappers
  import opened Pressure
  import SensorPacket

  // ---------------------------------------------------------------- values

  /** What a producer says it has negotiated with the gateway, and when. */
  datatype Negotiated = Negotiated(
    maxPayload: Option<nat>,
    compression: Option<string>,
    refreshed: Option<Time>,
    refreshSeconds: Option<real>)

  const NOTHING := Negotiated(None, None, None, None)

  /** A heartbeat whose fields passed the wire contract. `capabilities` is the answer of
      capability normalisation, None when a value is refused. */
  datatype Heartbeat = Heartbeat(
    sourceId: string,
    sourceType: string,
    schemaId: string,
    device: Option<string>,
    capabilities: Option<seq<string>>,
    captureActive: Option<bool>,
    appliedRevision: Option<nat>,
    target: Option<real>,
    observed: Option<real>,
    negotiated: Negotiated)

  datatype SourceStats = SourceStats(
    sourceType: string,
    schemaId: Option<string>,
    device: Option<string>,
    capabilities: seq<string>,
    captureActive: Option<bool>,
    appliedRevision: Option<nat>,
    target: Option<real>,
    observed: Option<real>,
    negotiated: Negotiated,
    refreshObserved: Option<Time>,
    pressure: Counters,
    lastSequence: Option<int>,
    acceptedFrames: nat,
    heartbeatCount: nat,
    droppedTotal: nat,
    transport: Option<SensorPacket.Transport>,
    lastSeen: Time)

  /** `transport` describes the packet a frame came in; an encoded frame has none. */
  datatype Frame = Frame(
    sourceId: string,
    sourceType: string,
    device: Option<string>,
    sequence: int,
    dropped: int,
    payloadLength: nat,
    mediaTypeKnown: bool,
    transport: Option<SensorPacket.Transport>)

  /** What the decoder and the perception pipeline make of an admitted frame. */
  datatype Perception = Perception(decodes: bool, processes: bool)

  datatype Receipt = Receipt(sourceId: string, sourceType: string, sequence: nat, dropped: nat)

  datatype IngressError = Busy | Sequence | PayloadTooLarge | MediaType | Decode | PipelineFailure | Capabilities

  datatype Rejections = Rejections(busy: nat, sequence: nat, payload: nat, mediaType: nat, decode: nat)

  datatype State = State(
    sources: map<string, SourceStats>,
    lastSequence: map<string, int>,
    acceptedTotal: nat,
    heartbeatTotal: nat,
    rejected: Rejections,
    processing: bool)

  const EMPTY := State(map[], map[], 0, 0, Rejections(0, 0, 0, 0, 0), false)

  function Reject(r: Rejections, e: IngressError): Rejections {
    match e
    case Busy => r.(busy := r.busy + 1)
    case Sequence => r.(sequence := r.sequence + 1)
    case PayloadTooLarge => r.(payload := r.payload + 1)
    case MediaType => r.(mediaType := r.mediaType + 1)
    case Decode => r.(decode := r.decode + 1)
    case PipelineFailure => r
    case Capabilities => r
  }

  function Known(s: State, sourceId: string): Option<SourceStats> {
    if sourceId in s.sources then Some(s.sources[sourceId]) else None
  }

  function BeatOf(hb: Heartbeat, now: Time): Beat {
    Beat(hb.target, hb.observed, now)
  }

  /** When the service first saw the capability refresh that a heartbeat names. */
  function RefreshObserved(known: Option<SourceStats>, hb: Heartbeat, now: Time): Option<Time> {
    if hb.negotiated.refreshed.None? then None
    else if known.Some? && known.value.negotiated.refreshed == hb.negotiated.refreshed then known.value.refreshObserved
    else Some(now)
  }

  function HeartbeatStats(known: Option<SourceStats>, hb: Heartbeat, now: Time): SourceStats
    requires hb.capabilities.Some?
  {
    match known
    case None =>
      SourceStats(hb.sourceType, Some(hb.schemaId), hb.device, hb.capabilities.value, hb.captureActive,
                  hb.appliedRevision, hb.target, hb.observed, hb.negotiated, RefreshObserved(known, hb, now),
                  FirstBeat(BeatOf(hb, now)), None, 0, 1, 0, None, now)
    case Some(c) =>
      SourceStats(hb.sourceType, Some(hb.schemaId), hb.device, hb.capabilities.value, hb.captureActive,
                  hb.appliedRevision, hb.target, hb.observed, hb.negotiated, RefreshObserved(known, hb, now),
                  NextBeat(c.pressure, BeatOf(hb, now)),
                  c.lastSequence, c.acceptedFrames, c.heartbeatCount + 1, c.droppedTotal, c.transport, now)
  }

  function AcceptStats(known: Option<SourceStats>, f: Frame, now: Time): SourceStats
    requires 0 <= f.dropped
  {
    match known
    case None =>
      SourceStats(f.sourceType, None, f.device, [], Some(true), None, None, None, NOTHING, None, CLEAR,
                  Some(f.sequence), 1, 0, f.dropped, f.transport, now)
    case Some(c) =>
      c.(sourceType := f.sourceType, device := f.device, captureActive := Some(true),
         lastSequence := Some(f.sequence), acceptedFrames := c.acceptedFrames + 1,
         droppedTotal := c.droppedTotal + f.dropped, transport := f.transport, lastSeen := now)
  }

  function AfterHeartbeat(s: State, hb: Heartbeat, now: Time): State {
    if hb.capabilities.None? then s
    else s.(heartbeatTotal := s.heartbeatTotal + 1,
            sources := s.sources[hb.sourceId := HeartbeatStats(Known(s, hb.sourceId), hb, now)])
  }

  function AfterRecord(s: State, f: Frame, now: Time): State
    requires 0 <= f.dropped
  {
    s.(acceptedTotal := s.acceptedTotal + 1,
       sources := s.sources[f.sourceId := AcceptStats(Known(s, f.sourceId), f, now)])
  }

  function AfterForget(s: State, sourceId: string): State {
    s.(sources := s.sources - {sourceId}, lastSequence := s.lastSequence - {sourceId})
  }

  /** The checks before the slot is asked for, in the source's order. */
  function Precheck(f: Frame, maxPayload: nat): Option<IngressError> {
    if f.payloadLength == 0 then Some(Decode)
    else if f.payloadLength > maxPayload then Some(PayloadTooLarge)
    else if f.sequence < 0 then Some(Sequence)
    else if f.dropped < 0 then Some(Sequence)
    else if !f.mediaTypeKnown then Some(MediaType)
    else None
  }

  predicate SequenceFresh(s: State, f: Frame) {
    f.sourceId in s.lastSequence ==> s.lastSequence[f.sourceId] < f.sequence
  }

  /** The error an uninterrupted call ends with, if any. */
  function Refusal(s: State, f: Frame, maxPayload: nat, p: Perception): Option<IngressError> {
    if Precheck(f, maxPayload).Some? then Precheck(f, maxPayload)
    else if s.processing then Some(Busy)
    else if !SequenceFresh(s, f) then Some(Sequence)
    else if !p.decodes then Some(Decode)
    else if !p.processes then Some(PipelineFailure)
    else None
  }

  /** Nothing stands in the way of the frame but what decoding and perception make of it. */
  predicate Admissible(s: State, f: Frame, maxPayload: nat) {
    && 1 <= f.payloadLength <= maxPayload
    && f.sequence >= 0 && f.dropped >= 0
    && f.mediaTypeKnown
    && !s.processing
    && (f.sourceId !in s.lastSequence || f.sequence > s.lastSequence[f.sourceId])
  }

  /** Every refusal by its reason. */
  lemma RefusedExactly(s: State, f: Frame, maxPayload: nat, p: Perception)
    ensures var r := Refusal(s, f, maxPayload, p);
            var sized := 1 <= f.payloadLength <= maxPayload;
            var numbered := f.sequence >= 0 && f.dropped >= 0;
            && (r == None <==> Admissible(s, f, maxPayload) && p.decodes && p.processes)
            && (r == Some(PayloadTooLarge) <==> f.payloadLength > maxPayload)
            && (r == Some(MediaType) <==> sized && numbered && !f.mediaTypeKnown)
            && (r == Some(Busy) <==> sized && numbered && f.mediaTypeKnown && s.processing)
            && (r == Some(Sequence) <==>
                  sized && (!numbered || (f.mediaTypeKnown && !s.processing && f.sourceId in s.lastSequence
                                          && f.sequence <= s.lastSequence[f.sourceId])))
            && (r == Some(Decode) <==> f.payloadLength == 0 || (Admissible(s, f, maxPayload) && !p.decodes))
            && (r == Some(PipelineFailure) <==> Admissible(s, f, maxPayload) && p.decodes && !p.processes)
            && r != Some(Capabilities)
  {}

  /** A refused frame adds one to the counter of its reason, a failed pipeline to none, and
      changes nothing else. */
  lemma RefusalCounts(s: State, f: Frame, maxPayload: nat, p: Perception, now: Time)
    requires Refusal(s, f, maxPayload, p).Some?
    ensures var e := Refusal(s, f, maxPayload, p).value;
            var t := AfterFrame(s, f, maxPayload, p, now);
            && t == s.(rejected := t.rejected)
            && t.rejected.busy == s.rejected.busy + (if e == Busy then 1 else 0)
            && t.rejected.sequence == s.rejected.sequence + (if e == Sequence then 1 else 0)
            && t.rejected.payload == s.rejected.payload + (if e == PayloadTooLarge then 1 else 0)
            && t.rejected.mediaType == s.rejected.mediaType + (if e == MediaType then 1 else 0)
            && t.rejected.decode == s.rejected.decode + (if e == Decode then 1 else 0)
  {
    hide Refusal;
    RefusedExactly(s, f, maxPayload, p);
  }

  /** An uninterrupted call of `process_encoded` or `process_packet`. */
  function AfterFrame(s: State, f: Frame, maxPayload: nat, p: Perception, now: Time): State {
    match Refusal(s, f, maxPayload, p)
    case Some(e) => s.(rejected := Reject(s.rejected, e))
    case None =>
      AfterRecord(s.(lastSequence := s.lastSequence[f.sourceId := f.sequence]), f, now)
  }

  // ---------------------------------------------------------------- the object

  class Ingress {
    const maxPayload: nat
    var sources: map<string, SourceStats>
    var lastSequence: map<string, int>
    var acceptedTotal: nat
    var heartbeatTotal: nat
    var rejected: Rejections
    var processing: bool

    ghost function Value(): State
      reads this
    {
      State(sources, lastSequence, acceptedTotal, heartbeatTotal, rejected, processing)
    }

    constructor (maxPayload: nat)
      ensures Value() == EMPTY && this.maxPayload == maxPayload
    {
      this.maxPayload := maxPayload;
      sources, lastSequence := map[], map[];
      acceptedTotal, heartbeatTotal := 0, 0;
      rejected := Rejections(0, 0, 0, 0, 0);
      processing := false;
    }

    method IncrementRejection(e: IngressError)
      modifies this`rejected
      ensures rejected == Reject(old(rejected), e)
    {
      match e {
        case Busy => rejected := rejected.(busy := rejected.busy + 1);
        case Sequence => rejected := rejected.(sequence := rejected.sequence + 1);
        case PayloadTooLarge => rejected := rejected.(payload := rejected.payload + 1);
        case MediaType => rejected := rejected.(mediaType := rejected.mediaType + 1);
        case Decode => rejected := rejected.(decode := rejected.decode + 1);
        case PipelineFailure =>
        case Capabilities =>
      }
    }

    method ForgetSource(sourceId: string)
      modifies this`sources, this`lastSequence
      ensures Value() == AfterForget(old(Value()), sourceId)
      ensures sources.Keys == old(sources.Keys) - {sourceId} && lastSequence.Keys == old(lastSequence.Keys) - {sourceId}
      ensures forall id :: id in sources ==> sources[id] == old(sources)[id]
      ensures forall id :: id in lastSequence ==> lastSequence[id] == old(lastSequence)[id]
    {
      sources := sources - {sourceId};
      lastSequence := lastSequence - {sourceId};
    }

    method Heartbeat(hb: Heartbeat, now: Time) returns (accepted: bool)
      modifies this`sources, this`heartbeatTotal
      ensures accepted == hb.capabilities.Some?
      ensures Value() == AfterHeartbeat(old(Value()), hb, now)
      ensures accepted && hb.target.Some? && hb.observed.Some? && hb.target.value < hb.observed.value ==>
                && hb.sourceId in sources && sources[hb.sourceId].pressure.lastAbove == Some(now)
                && sources[hb.sourceId].pressure.streak == 1 +
                     (if hb.sourceId in old(sources) then old(sources)[hb.sourceId].pressure.streak else 0)
      ensures accepted && !(hb.target.Some? && hb.observed.Some? && hb.target.value < hb.observed.value) ==>
                hb.sourceId in sources && sources[hb.sourceId].pressure.streak == 0
    {
      if hb.capabilities.None? {
        return false;
      }
      heartbeatTotal := heartbeatTotal + 1;
      if hb.sourceId !in sources {
        var pressure := BeginPressure(hb, now);
        var observed := if hb.negotiated.refreshed.Some? then Some(now) else None;
        sources := sources[hb.sourceId :=
          SourceStats(hb.sourceType, Some(hb.schemaId), hb.device, hb.capabilities.value, hb.captureActive,
                      hb.appliedRevision, hb.target, hb.observed, hb.negotiated, observed, pressure,
                      None, 0, 1, 0, None, now)];
      } else {
        var c := sources[hb.sourceId];
        var p := MovePressure(c.pressure, hb, now);
        var observed := c.refreshObserved;
        if hb.negotiated.refreshed.None? {
          observed := None;
        } else if c.negotiated.refreshed != hb.negotiated.refreshed {
          observed := Some(now);
        }
        sources := sources[hb.sourceId :=
          c.(sourceType := hb.sourceType, schemaId := Some(hb.schemaId), device := hb.device,
             capabilities := hb.capabilities.value, captureActive := hb.captureActive,
             appliedRevision := hb.appliedRevision, target := hb.target, observed := hb.observed,
             negotiated := hb.negotiated, refreshObserved := observed, pressure := p,
             heartbeatCount := c.heartbeatCount + 1, lastSeen := now)];
      }
      accepted := true;
    }

    method BeginPressure(hb: Heartbeat, now: Time) returns (p: Counters)
      ensures p == FirstBeat(BeatOf(hb, now))
    {
      p := CLEAR;
      if hb.target.Some? && hb.observed.Some? && hb.observed.value > hb.target.value {
        p := p.(streak := 1, aboveSince := Some(now), lastAbove := Some(now));
      }
    }

    method MovePressure(before: Counters, hb: Heartbeat, now: Time) returns (p: Counters)
      ensures p == NextBeat(before, BeatOf(hb, now))
    {
      p := before;
      if hb.target.Some? && hb.observed.Some? && hb.observed.value > hb.target.value {
        if p.streak == 0 {
          p := p.(aboveSince := Some(now));
        }
        p := p.(streak := p.streak + 1);
        if p.streak == ATTENTION_STREAK {
          p := p.(episodes := p.episodes + 1);
          if p.lastRecovered.Some? {
            p := p.(recurrences := p.recurrences + 1,
                    lastRecurrence := Some(Elapsed(p.lastRecovered.value, now)));
          }
        }
        p := p.(lastAbove := Some(now));
      } else {
        if p.streak >= ATTENTION_STREAK {
          p := p.(lastRecovered := Some(now));
        }
        p := p.(streak := 0, aboveSince := None);
      }
    }

    method RecordAccept(f: Frame, now: Time)
      requires 0 <= f.dropped
      modifies this`sources, this`acceptedTotal
      ensures Value() == AfterRecord(old(Value()), f, now)
    {
      acceptedTotal := acceptedTotal + 1;
      if f.sourceId !in sources {
        sources := sources[f.sourceId :=
          SourceStats(f.sourceType, None, f.device, [], Some(true), None, None, None, NOTHING, None, CLEAR,
                      Some(f.sequence), 1, 0, f.dropped, f.transport, now)];
        return;
      }
      var c := sources[f.sourceId];
      c := c.(sourceType := f.sourceType, device := f.device, captureActive := Some(true));
      c := c.(lastSequence := Some(f.sequence), acceptedFrames := c.acceptedFrames + 1);
      c := c.(droppedTotal := c.droppedTotal + f.dropped, transport := f.transport, lastSeen := now);
      sources := sources[f.sourceId := c];
    }

    /** `process_encoded` and `process_packet` differ in the media type they know and in
        what decoding means; both are the parameters here. Every exit leaves the slot
        as it found it, and only an accepted frame moves sequences and counts. */
    method Process(f: Frame, p: Perception, now: Time) returns (r: Result<Receipt, IngressError>)
      modifies this
      ensures Value() == AfterFrame(old(Value()), f, maxPayload, p, now)
      ensures processing == old(processing)
      ensures match Refusal(old(Value()), f, maxPayload, p)
              case Some(e) => r == Err(e)
              case None => f.sequence >= 0 && f.dropped >= 0
                           && r == Ok(Receipt(f.sourceId, f.sourceType, f.sequence, f.dropped))
      ensures r.Ok? <==> Admissible(old(Value()), f, maxPayload) && p.decodes && p.processes
      ensures r == Err(PayloadTooLarge) <==> f.payloadLength > maxPayload
    {
      RefusedExactly(Value(), f, maxPayload, p);
      if f.payloadLength == 0 {
        IncrementRejection(Decode);
        return Err(Decode);
      }
      if f.payloadLength > maxPayload {
        IncrementRejection(PayloadTooLarge);
        return Err(PayloadTooLarge);
      }
      if f.sequence < 0 || f.dropped < 0 {
        IncrementRejection(Sequence);
        return Err(Sequence);
      }
      if !f.mediaTypeKnown {
        IncrementRejection(MediaType);
        return Err(MediaType);
      }
      if processing {
        IncrementRejection(Busy);
        return Err(Busy);
      }
      processing := true;
      if f.sourceId in lastSequence && f.sequence <= lastSequence[f.sourceId] {
        IncrementRejection(Sequence);
        r := Err(Sequence);
      } else if !p.decodes {
        IncrementRejection(Decode);
        r := Err(Decode);
      } else if !p.processes {
        r := Err(PipelineFailure);
      } else {
        lastSequence := lastSequence[f.sourceId := f.sequence];
        RecordAccept(f, now);
        r := Ok(Receipt(f.sourceId, f.sourceType, f.sequence, f.dropped));
      }
      processing := false;
    }
  }

  // ---------------------------------------------------------------- pressure over ingress histories

  datatype Arrival = Beats(hb: Heartbeat, now: Time) | Frames(f: Frame, p: Perception, now: Time)

  function AfterArrival(s: State, a: Arrival, maxPayload: nat): State {
    match a
    case Beats(hb, now) => AfterHeartbeat(s, hb, now)
    case Frames(f, p, now) => AfterFrame(s, f, maxPayload, p, now)
  }

  function AfterArrivals(h: seq<Arrival>, maxPayload: nat): State {
    if h == [] then EMPTY
    else AfterArrival(AfterArrivals(h[..|h| - 1], maxPayload), h[|h| - 1], maxPayload)
  }

  /** What the heartbeats of one source that were not refused reported, and when. */
  function ReadingsOf(h: seq<Arrival>, sourceId: string): seq<Reading> {
    if h == [] then []
    else
      var a := h[|h| - 1];
      ReadingsOf(h[..|h| - 1], sourceId) +
      (if a.Beats? && a.hb.sourceId == sourceId && a.hb.capabilities.Some? then
         [Reading(a.hb.target.Some? && a.hb.observed.Some? && a.hb.target.value < a.hb.observed.value, a.now)]
       else [])
  }

  /** Frames of any source and heartbeats of others never disturb the pressure counters:
      after any history of arrivals they mean exactly the source's own heartbeats. */
  lemma {:induction false} PressureIsHistory(h: seq<Arrival>, maxPayload: nat, sourceId: string)
    ensures PressureMeans(AfterArrivals(h, maxPayload), ReadingsOf(h, sourceId), sourceId)
  {
    hide Means, AfterArrival;
    if h != [] {
      var before := h[..|h| - 1];
      PressureIsHistory(before, maxPayload, sourceId);
      ArrivalStep(AfterArrivals(before, maxPayload), ReadingsOf(before, sourceId), h[|h| - 1], maxPayload, sourceId);
    }
  }

  /** Whether an arrival is a heartbeat of the source that is not refused. */
  predicate IsBeat(a: Arrival, sourceId: string) {
    a.Beats? && a.hb.sourceId == sourceId && a.hb.capabilities.Some?
  }

  ghost predicate PressureMeans(s: State, readings: seq<Reading>, sourceId: string) {
    if sourceId in s.sources then Means(s.sources[sourceId].pressure, readings) else readings == []
  }

  lemma ArrivalStep(s: State, readings: seq<Reading>, a: Arrival, maxPayload: nat, sourceId: string)
    requires PressureMeans(s, readings, sourceId)
    ensures var more := if IsBeat(a, sourceId) then [ReadingOf(a.hb.target, a.hb.observed, a.now)] else [];
            PressureMeans(AfterArrival(s, a, maxPayload), readings + more, sourceId)
  {
    hide Means, NextBeat, FirstBeat, ReadingOf;
    ClearMeansNothing();
    if IsBeat(a, sourceId) {
      var b := BeatOf(a.hb, a.now);
      var r := ReadingOf(a.hb.target, a.hb.observed, a.now);
      if sourceId in s.sources {
        MeansStep(s.sources[sourceId].pressure, readings, b, r);
      } else {
        FirstIsNext(b);
        MeansStep(CLEAR, [], b, r);
      }
    } else {
      assert readings + [] == readings;
    }
  }

  lemma ClearMeansNothing()
    ensures Means(CLEAR, [])
  {
    CountersAreHistory([], true);
    assert Readings([]) == [];
  }

  lemma FirstIsNext(b: Beat)
    ensures FirstBeat(b) == NextBeat(CLEAR, b)
  {}

  // ---------------------------------------------------------------- statistics over ingress histories

  /** The arrivals of one source that were accepted, in order. */
  function SeenOf(h: seq<Arrival>, maxPayload: nat, sourceId: string): seq<Arrival> {
    if h == [] then []
    else
      var a := h[|h| - 1];
      SeenOf(h[..|h| - 1], maxPayload, sourceId) +
      (if SourceOf(a) == sourceId && Accepts(AfterArrivals(h[..|h| - 1], maxPayload), a, maxPayload) then [a] else [])
  }

  function SourceOf(a: Arrival): string {
    if a.Beats? then a.hb.sourceId else a.f.sourceId
  }

  predicate Accepts(s: State, a: Arrival, maxPayload: nat) {
    match a
    case Beats(hb, _) => hb.capabilities.Some?
    case Frames(f, p, _) => Admissible(s, f, maxPayload) && p.decodes && p.processes
  }

  function LastBeat(seen: seq<Arrival>): (k: Option<nat>)
    ensures k.Some? ==> k.value < |seen| && seen[k.value].Beats?
    ensures forall m :: (if k.Some? then k.value + 1 else 0) <= m < |seen| ==> !seen[m].Beats?
  {
    if seen == [] then None
    else if seen[|seen| - 1].Beats? then Some(|seen| - 1)
    else LastBeat(seen[..|seen| - 1])
  }

  function LastFrame(seen: seq<Arrival>): (k: Option<nat>)
    ensures k.Some? ==> k.value < |seen| && seen[k.value].Frames?
  {
    if seen == [] then None
    else if seen[|seen| - 1].Frames? then Some(|seen| - 1)
    else LastFrame(seen[..|seen| - 1])
  }

  function FrameCount(seen: seq<Arrival>): nat {
    if seen == [] then 0 else FrameCount(seen[..|seen| - 1]) + (if seen[|seen| - 1].Frames? then 1 else 0)
  }

  function DropsIn(seen: seq<Arrival>): int {
    if seen == [] then 0
    else DropsIn(seen[..|seen| - 1]) + (if seen[|seen| - 1].Frames? then seen[|seen| - 1].f.dropped else 0)
  }

  /** What the last arrival of any kind, the last heartbeat and the last frame leave behind. */
  ghost predicate LatestShown(c: SourceStats, seen: seq<Arrival>)
    requires seen != []
  {
    && (match seen[|seen| - 1]
        case Beats(hb, now) =>
          c.sourceType == hb.sourceType && c.device == hb.device && c.captureActive == hb.captureActive
          && c.lastSeen == now
        case Frames(f, _, now) =>
          c.sourceType == f.sourceType && c.device == f.device && c.captureActive == Some(true) && c.lastSeen == now)
    && (match LastBeat(seen)
        case None =>
          && c.schemaId.None? && c.capabilities == [] && c.appliedRevision.None?
          && c.target.None? && c.observed.None? && c.negotiated == NOTHING
        case Some(k) =>
          var hb := seen[k].hb;
          && c.schemaId == Some(hb.schemaId) && Some(c.capabilities) == hb.capabilities
          && c.appliedRevision == hb.appliedRevision
          && c.target == hb.target && c.observed == hb.observed && c.negotiated == hb.negotiated)
    && (match LastFrame(seen)
        case None => c.lastSequence.None? && c.transport.None?
        case Some(k) => c.lastSequence == Some(seen[k].f.sequence) && c.transport == seen[k].f.transport)
  }

  /** The refresh that the last heartbeat names is dated by the first of the heartbeats that
      named it without another in between. */
  ghost predicate RefreshDated(seen: seq<Arrival>, at: Option<Time>) {
    match LastBeat(seen)
    case None => at.None?
    case Some(k) =>
      var refreshed := seen[k].hb.negotiated.refreshed;
      if refreshed.None? then at.None?
      else exists i :: 0 <= i <= k && FirstNaming(seen, i, k, refreshed) && at == Some(seen[i].now)
  }

  predicate FirstNaming(seen: seq<Arrival>, i: nat, k: nat, refreshed: Option<Time>)
    requires i <= k < |seen|
  {
    && seen[i].Beats?
    && (forall m :: i <= m <= k && seen[m].Beats? ==> seen[m].hb.negotiated.refreshed == refreshed)
    && (LastBeat(seen[..i]).Some? ==> seen[LastBeat(seen[..i]).value].hb.negotiated.refreshed != refreshed)
  }

  ghost predicate Counted(c: SourceStats, seen: seq<Arrival>) {
    && c.acceptedFrames == FrameCount(seen)
    && c.heartbeatCount == |seen| - FrameCount(seen)
    && c.droppedTotal == DropsIn(seen)
  }

  ghost predicate StatsMean(s: State, seen: seq<Arrival>, sourceId: string) {
    && (sourceId in s.sources <==> seen != [])
    && (seen != [] ==>
          && LatestShown(s.sources[sourceId], seen)
          && RefreshDated(seen, s.sources[sourceId].refreshObserved)
          && Counted(s.sources[sourceId], seen))
    && (sourceId in s.lastSequence <==> LastFrame(seen).Some?)
    && (LastFrame(seen).Some? ==> s.lastSequence[sourceId] == seen[LastFrame(seen).value].f.sequence)
  }

  lemma LatestStep(seen: seq<Arrival>, a: Arrival)
    ensures LastBeat(seen + [a]) == if a.Beats? then Some(|seen|) else LastBeat(seen)
    ensures LastFrame(seen + [a]) == if a.Frames? then Some(|seen|) else LastFrame(seen)
    ensures FrameCount(seen + [a]) == FrameCount(seen) + if a.Frames? then 1 else 0
    ensures DropsIn(seen + [a]) == DropsIn(seen) + if a.Frames? then a.f.dropped else 0
  {
    assert (seen + [a])[..|seen|] == seen;
  }

  lemma NamingOn(seen: seq<Arrival>, a: Arrival, i: nat, k: nat, refreshed: Option<Time>)
    requires i <= k < |seen| && FirstNaming(seen, i, k, refreshed)
    ensures FirstNaming(seen + [a], i, k, refreshed)
  {
    assert (seen + [a])[..i] == seen[..i];
  }

  /** A frame says nothing about refreshes. */
  lemma FrameKeepsDate(seen: seq<Arrival>, a: Arrival, at: Option<Time>)
    requires RefreshDated(seen, at) && a.Frames?
    ensures RefreshDated(seen + [a], at)
  {
    hide FirstNaming;
    LatestStep(seen, a);
    if LastBeat(seen).Some? && at.Some? {
      var k := LastBeat(seen).value;
      var refreshed := seen[k].hb.negotiated.refreshed;
      var i :| 0 <= i <= k && FirstNaming(seen, i, k, refreshed) && at == Some(seen[i].now);
      NamingOn(seen, a, i, k, refreshed);
      assert (seen + [a])[i] == seen[i];
    }
  }

  /** A heartbeat that names the same refresh again keeps its date. */
  lemma SameRefreshKeepsDate(seen: seq<Arrival>, a: Arrival, at: Option<Time>)
    requires RefreshDated(seen, at) && a.Beats? && a.hb.negotiated.refreshed.Some?
    requires LastBeat(seen).Some?
    requires seen[LastBeat(seen).value].hb.negotiated.refreshed == a.hb.negotiated.refreshed
    ensures RefreshDated(seen + [a], at)
  {
    LatestStep(seen, a);
    var k := LastBeat(seen).value;
    var refreshed := a.hb.negotiated.refreshed;
    var i :| 0 <= i <= k && FirstNaming(seen, i, k, refreshed) && at == Some(seen[i].now);
    assert (seen + [a])[..i] == seen[..i];
    assert FirstNaming(seen + [a], i, |seen|, refreshed);
  }

  lemma NewRefreshDated(seen: seq<Arrival>, a: Arrival)
    requires a.Beats? && a.hb.negotiated.refreshed.Some?
    requires LastBeat(seen).Some? ==>
               seen[LastBeat(seen).value].hb.negotiated.refreshed != a.hb.negotiated.refreshed
    ensures RefreshDated(seen + [a], Some(a.now))
  {
    LatestStep(seen, a);
    assert (seen + [a])[..|seen|] == seen;
    assert FirstNaming(seen + [a], |seen|, |seen|, a.hb.negotiated.refreshed);
  }

  lemma BeatStep(s: State, seen: seq<Arrival>, a: Arrival, sourceId: string)
    requires StatsMean(s, seen, sourceId) && IsBeat(a, sourceId)
    ensures StatsMean(AfterHeartbeat(s, a.hb, a.now), seen + [a], sourceId)
  {
    hide RefreshDated, LatestShown, Counted, HeartbeatStats, LastBeat, LastFrame, FrameCount, DropsIn;
    var known := Known(s, sourceId);
    BeatShown(known, seen, a);
    BeatCounted(known, seen, a);
    BeatDates(known, seen, a);
    BeatKeepsFrame(seen, a);
  }

  lemma BeatKeepsFrame(seen: seq<Arrival>, a: Arrival)
    requires a.Beats?
    ensures LastFrame(seen + [a]) == LastFrame(seen)
    ensures LastFrame(seen).Some? ==>
              (seen + [a])[LastFrame(seen).value].f.sequence == seen[LastFrame(seen).value].f.sequence
  {
    LatestStep(seen, a);
  }

  lemma SameFrame(seen: seq<Arrival>, a: Arrival)
    ensures LastFrame(seen).Some? ==> (seen + [a])[LastFrame(seen).value] == seen[LastFrame(seen).value]
  {}

  lemma BeatShown(known: Option<SourceStats>, seen: seq<Arrival>, a: Arrival)
    requires a.Beats? && a.hb.capabilities.Some? && (known.Some? <==> seen != [])
    requires known.Some? ==> LatestShown(known.value, seen)
    ensures LatestShown(HeartbeatStats(known, a.hb, a.now), seen + [a])
  {
    hide NextBeat, FirstBeat, RefreshObserved, LastBeat, LastFrame;
    LatestStep(seen, a);
    SameFrame(seen, a);
    NoneYet();
  }

  lemma NoneYet()
    ensures LastFrame([]) == None && LastBeat([]) == None && FrameCount([]) == 0 && DropsIn([]) == 0
  {}

  lemma BeatCounted(known: Option<SourceStats>, seen: seq<Arrival>, a: Arrival)
    requires a.Beats? && a.hb.capabilities.Some? && (known.Some? <==> seen != [])
    requires known.Some? ==> Counted(known.value, seen) && RefreshDated(seen, known.value.refreshObserved)
    ensures Counted(HeartbeatStats(known, a.hb, a.now), seen + [a])
    ensures HeartbeatStats(known, a.hb, a.now).refreshObserved == RefreshObserved(known, a.hb, a.now)
  {
    hide NextBeat, FirstBeat, RefreshObserved, LastBeat, LastFrame, FrameCount, DropsIn, RefreshDated;
    LatestStep(seen, a);
    NoneYet();
  }

  lemma BeatDates(known: Option<SourceStats>, seen: seq<Arrival>, a: Arrival)
    requires a.Beats? && (known.Some? <==> seen != [])
    requires known.Some? ==> LatestShown(known.value, seen) && RefreshDated(seen, known.value.refreshObserved)
    ensures RefreshDated(seen + [a], RefreshObserved(known, a.hb, a.now))
  {
    hide FirstNaming;
    LatestStep(seen, a);
    if a.hb.negotiated.refreshed.Some? {
      if known.Some? && known.value.negotiated.refreshed == a.hb.negotiated.refreshed {
        SameRefreshKeepsDate(seen, a, known.value.refreshObserved);
      } else {
        NewRefreshDated(seen, a);
      }
    }
  }

  lemma FrameStep(s: State, seen: seq<Arrival>, a: Arrival, maxPayload: nat, sourceId: string)
    requires StatsMean(s, seen, sourceId) && a.Frames? && a.f.sourceId == sourceId && Accepts(s, a, maxPayload)
    ensures StatsMean(AfterArrival(s, a, maxPayload), seen + [a], sourceId)
  {
    hide RefreshDated, Refusal, Admissible;
    RefusedExactly(s, a.f, maxPayload, a.p);
    AcceptedIsFit(s, a.f, maxPayload);
    LatestStep(seen, a);
    if seen == [] {
      FrameDatesNothing(a);
    } else {
      FrameKeepsDate(seen, a, s.sources[sourceId].refreshObserved);
    }
  }

  lemma AcceptedIsFit(s: State, f: Frame, maxPayload: nat)
    requires Admissible(s, f, maxPayload)
    ensures f.dropped >= 0
  {}

  lemma FrameDatesNothing(a: Arrival)
    requires a.Frames?
    ensures RefreshDated([] + [a], None)
  {
    LatestStep([], a);
  }

  /** A refused arrival, or another source's. */
  lemma ElseStep(s: State, seen: seq<Arrival>, a: Arrival, maxPayload: nat, sourceId: string)
    requires StatsMean(s, seen, sourceId) && !(SourceOf(a) == sourceId && Accepts(s, a, maxPayload))
    ensures StatsMean(AfterArrival(s, a, maxPayload), seen, sourceId)
  {
    hide LatestShown, RefreshDated, Counted, HeartbeatStats, AcceptStats, Reject, Refusal, Admissible;
    if a.Frames? {
      RefusedExactly(s, a.f, maxPayload, a.p);
    }
  }

  /** After any history of arrivals a source's statistics are those of its own accepted
      heartbeats and frames: every field shows the latest arrival that carries it, the
      counts count them, and the refresh is dated by the first heartbeat that named it. */
  lemma {:induction false} StatsAreHistory(h: seq<Arrival>, maxPayload: nat, sourceId: string)
    ensures StatsMean(AfterArrivals(h, maxPayload), SeenOf(h, maxPayload, sourceId), sourceId)
  {
    hide StatsMean, AfterArrival, Accepts;
    if h == [] {
      NothingSeen(sourceId);
    } else {
      var before, a := h[..|h| - 1], h[|h| - 1];
      StatsAreHistory(before, maxPayload, sourceId);
      var s, seen := AfterArrivals(before, maxPayload), SeenOf(before, maxPayload, sourceId);
      if SourceOf(a) == sourceId && Accepts(s, a, maxPayload) {
        AcceptedStep(s, seen, a, maxPayload, sourceId);
      } else {
        ElseStep(s, seen, a, maxPayload, sourceId);
        assert seen + [] == seen;
      }
    }
  }

  lemma NothingSeen(sourceId: string)
    ensures StatsMean(EMPTY, [], sourceId)
  {}

  lemma AcceptedStep(s: State, seen: seq<Arrival>, a: Arrival, maxPayload: nat, sourceId: string)
    requires StatsMean(s, seen, sourceId) && SourceOf(a) == sourceId && Accepts(s, a, maxPayload)
    ensures StatsMean(AfterArrival(s, a, maxPayload), seen + [a], sourceId)
  {
    hide StatsMean, Admissible, AfterFrame, AfterHeartbeat;
    if a.Beats? {
      BeatStep(s, seen, a, sourceId);
    } else {
      FrameStep(s, seen, a, maxPayload, sourceId);
    }
  }

  // ---------------------------------------------------------------- totals

  /** What a frame of a history is answered with. */
  function Answered(h: seq<Arrival>, maxPayload: nat, k: nat): Option<IngressError>
    requires k < |h| && h[k].Frames?
  {
    Refusal(AfterArrivals(h[..k], maxPayload), h[k].f, maxPayload, h[k].p)
  }

  /** The number of frames of a history that were answered so. */
  function AnsweredSo(h: seq<Arrival>, maxPayload: nat, e: Option<IngressError>): nat {
    if h == [] then 0
    else
      AnsweredSo(h[..|h| - 1], maxPayload, e) +
      (if h[|h| - 1].Frames? && Answered(h, maxPayload, |h| - 1) == e then 1 else 0)
  }

  function BeatCount(h: seq<Arrival>): nat {
    if h == [] then 0
    else BeatCount(h[..|h| - 1]) + (if h[|h| - 1].Beats? && h[|h| - 1].hb.capabilities.Some? then 1 else 0)
  }

  /** The totals count the accepted heartbeats, the accepted frames, and the refused ones by
      their reasons, and nothing else; a failed pipeline counts nowhere. */
  lemma {:induction false} TotalsAreCounts(h: seq<Arrival>, maxPayload: nat)
    ensures var s := AfterArrivals(h, maxPayload);
            && s.heartbeatTotal == BeatCount(h)
            && s.acceptedTotal == AnsweredSo(h, maxPayload, None)
            && s.rejected.busy == AnsweredSo(h, maxPayload, Some(Busy))
            && s.rejected.sequence == AnsweredSo(h, maxPayload, Some(Sequence))
            && s.rejected.payload == AnsweredSo(h, maxPayload, Some(PayloadTooLarge))
            && s.rejected.mediaType == AnsweredSo(h, maxPayload, Some(MediaType))
            && s.rejected.decode == AnsweredSo(h, maxPayload, Some(Decode))
            && !s.processing
  {
    hide Refusal;
    if h != [] {
      var before := h[..|h| - 1];
      TotalsAreCounts(before, maxPayload);
      var a := h[|h| - 1];
      if a.Frames? {
        RefusedExactly(AfterArrivals(before, maxPayload), a.f, maxPayload, a.p);
      }
    }
  }
}
