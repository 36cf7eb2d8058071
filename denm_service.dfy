/**
 * The per-station DENM service (ETSI EN 302 637-3): it owns an ordered list
 * of use cases, a DENM memory and a sequence counter, and runs three entry
 * paths — the periodic tick, the reception of a packet and a scripted
 * storyboard signal.  Every use case that fires makes the service build one
 * BTP request and one DENM and hand both to the transport.
 *
 * The collaborators are opaque.  What a use case answers on one pass is an
 * input (`Reply`); what the service asks of the memory, of the signal
 * emitter, of the use cases and of the transport is recorded, in call
 * order, in the ghost `trace` of the service.
 */
module Application {
  import opened Wrappers
  import opened Units
  import opened Messages

  /** What the vehicle data provider reports when a DENM is built. */
  datatype VehicleSnapshot = VehicleSnapshot(
    longitude: real,   // degrees
    latitude: real,    // degrees
    speed: real,       // metres per second, signed
    heading: real,     // degrees
    taiMillis: int)    // TAI milliseconds of the snapshot's update time

  /** The three use cases the service registers. */
  datatype UseCase =
    | ImpactReductionContainerExchange
    | TrafficJamAhead(nonUrbanEnvironment: bool)
    | TrafficJamEndOfQueue(nonUrbanEnvironment: bool)

  /**
   * What one use case answers on one pass: whether check() (on a tick) or
   * handleMessageReception() (on a reception) returned true, and what its
   * dissemination() and message() write into a blank request and DENM.
   */
  datatype Reply = Reply(fires: bool, request: DataRequest, message: Denm)

  datatype StoryboardSignal = StoryboardSignal(cause: string)

  /** A signal the service is subscribed to: the storyboard one or another. */
  datatype Signal = Storyboard(obj: StoryboardSignal) | OtherSignal(id: int)

  /** The two entry paths that poll the use cases. */
  datatype Path = Tick | Reception(obj: Denm)

  /** One call of the service into a collaborator. */
  datatype Event =
    | MemoryCreated                                              // a new DENM memory
    | MemoryDrop                                                 // memory.drop()
    | MemoryReceived(obj: Denm)                                  // memory.received(obj)
    | EmitReceived(obj: Denm)                                    // emit(denmReceivedSignal, obj)
    | Check(useCase: nat)                                        // useCases[i].check()
    | HandleMessageReception(useCase: nat, obj: Denm)            // useCases[i].handleMessageReception(obj)
    | HandleStoryboardTrigger(useCase: nat, signal: StoryboardSignal)
    | Request(useCase: nat, request: DataRequest, message: Denm) // a send for useCases[i]

  // ---------------------------------------------------------------------
  // The request builder

  /** The four transport fields a DENM request always carries. */
  predicate IsDenmTransport(r: DataRequest)
  {
    && r.destinationPort == BTP_PORT_DENM
    && r.gn.itsAid == ITS_AID_DEN
    && r.gn.transportType == GBC
    && r.gn.communicationProfile == ItsG5
  }

  /** The request fields that only the use case writes. */
  function UseCaseParameters(r: DataRequest): (int, Option<Area>, Option<int>, Option<Repetition>, int)
  {
    (r.destinationPortInfo, r.gn.destination, r.gn.maximumLifetime, r.gn.repetition, r.gn.trafficClass)
  }

  /** createRequest: the use case's request with the transport fields overwritten. */
  function CreateRequest(filled: DataRequest): (r: DataRequest)
    ensures IsDenmTransport(r)
    ensures UseCaseParameters(r) == UseCaseParameters(filled)
  {
    filled.(destinationPort := BTP_PORT_DENM,
            gn := filled.gn.(itsAid := ITS_AID_DEN, transportType := GBC, communicationProfile := ItsG5))
  }

  /** Whatever the use case wrote, the transport fields of the request are the same. */
  lemma RequestTransportIgnoresUseCase(filled1: DataRequest, filled2: DataRequest)
    ensures CreateRequest(filled1).destinationPort == CreateRequest(filled2).destinationPort
    ensures CreateRequest(filled1).gn.itsAid == CreateRequest(filled2).gn.itsAid
    ensures CreateRequest(filled1).gn.transportType == CreateRequest(filled2).gn.transportType
    ensures CreateRequest(filled1).gn.communicationProfile == CreateRequest(filled2).gn.communicationProfile
  {
  }

  // ---------------------------------------------------------------------
  // The DENM builder

  /** What every DENM the service builds satisfies, for the given local station. */
  predicate WellFormedDenm(m: Denm, stationId: int)
  {
    var management := m.denm.management;
    var position := management.eventPosition;
    && m.header.protocolVersion == PROTOCOL_VERSION
    && m.header.messageId == MESSAGE_ID_DENM
    && m.header.stationId == stationId
    && management.actionId.originatingStationId == stationId
    && management.detectionTime == management.referenceTime
    && position.altitude == Altitude(ALTITUDE_VALUE_UNAVAILABLE, ALTITUDE_CONFIDENCE_UNAVAILABLE)
    && position.positionConfidenceEllipse
       == PosConfidenceEllipse(SEMI_AXIS_LENGTH_UNAVAILABLE, SEMI_AXIS_LENGTH_UNAVAILABLE, HEADING_VALUE_UNAVAILABLE)
    && m.denm.location.Some?
    && m.denm.location.value.eventSpeed.Some?
    && m.denm.location.value.eventSpeed.value.speedValue >= 0
    && m.denm.location.value.eventPositionHeading.Some?
    && |m.denm.location.value.traces| == 1
    && m.denm.location.value.traces[0] == []
  }

  /** The DENM carries the vehicle's time, position, speed magnitude and heading. */
  predicate EncodesSnapshot(m: Denm, vdp: VehicleSnapshot)
  {
    var position := m.denm.management.eventPosition;
    && m.denm.management.referenceTime == vdp.taiMillis
    && position.latitude == Microdegrees(vdp.latitude) * LATITUDE_ONE_MICRODEGREE_NORTH
    && position.longitude == Microdegrees(vdp.longitude) * LONGITUDE_ONE_MICRODEGREE_EAST
    && m.denm.location.Some?
    && m.denm.location.value.eventSpeed
       == Some(Speed(Abs(CentimetersPerSecond(vdp.speed)) * SPEED_VALUE_ONE_CENTIMETER_PER_SEC,
                     SPEED_CONFIDENCE_EQUAL_OR_WITHIN_ONE_CENTIMETER_PER_SEC * 3))
    && m.denm.location.value.eventPositionHeading
       == Some(Heading(Decidegrees(vdp.heading), HEADING_CONFIDENCE_EQUAL_OR_WITHIN_ONE_DEGREE))
    && m.denm.location.value.roadType == None
  }

  /** The DENM fields that only the use case writes. */
  function UseCaseContent(m: Denm):
    (Option<int>, Option<int>, Option<int>, Option<int>, Option<int>, int,
     Option<SituationContainer>, Option<AlacarteContainer>)
  {
    var management := m.denm.management;
    (management.termination, management.relevanceDistance, management.relevanceTrafficDirection,
     management.validityDuration, management.transmissionInterval, management.stationType,
     m.denm.situation, m.denm.alacarte)
  }

  /** The DENM fields the service writes after the use case. */
  function Stamp(m: Denm): (ItsPduHeader, ActionId, int, int, ReferencePosition, Option<LocationContainer>)
  {
    var management := m.denm.management;
    (m.header, management.actionId, management.detectionTime, management.referenceTime,
     management.eventPosition, m.denm.location)
  }

  /**
   * The DENM createDenm produces from what the use case wrote, the local
   * station id, the (already incremented) sequence number and the vehicle.
   */
  function BuildDenm(filled: Denm, stationId: int, sequenceNumber: int, vdp: VehicleSnapshot): (m: Denm)
    ensures WellFormedDenm(m, stationId)
    ensures m.denm.management.actionId.sequenceNumber == sequenceNumber
    ensures EncodesSnapshot(m, vdp)
    ensures UseCaseContent(m) == UseCaseContent(filled)
  {
    var position := ReferencePosition(
      Microdegrees(vdp.latitude) * LATITUDE_ONE_MICRODEGREE_NORTH,
      Microdegrees(vdp.longitude) * LONGITUDE_ONE_MICRODEGREE_EAST,
      PosConfidenceEllipse(SEMI_AXIS_LENGTH_UNAVAILABLE, SEMI_AXIS_LENGTH_UNAVAILABLE, HEADING_VALUE_UNAVAILABLE),
      Altitude(ALTITUDE_VALUE_UNAVAILABLE, ALTITUDE_CONFIDENCE_UNAVAILABLE));
    var location := LocationContainer(
      Some(Speed(Abs(CentimetersPerSecond(vdp.speed)) * SPEED_VALUE_ONE_CENTIMETER_PER_SEC,
                 SPEED_CONFIDENCE_EQUAL_OR_WITHIN_ONE_CENTIMETER_PER_SEC * 3)),
      Some(Heading(Decidegrees(vdp.heading), HEADING_CONFIDENCE_EQUAL_OR_WITHIN_ONE_DEGREE)),
      [[]],
      None);
    Denm(
      ItsPduHeader(PROTOCOL_VERSION, MESSAGE_ID_DENM, stationId),
      filled.denm.(
        management := filled.denm.management.(
          actionId := ActionId(stationId, sequenceNumber),
          detectionTime := vdp.taiMillis,
          referenceTime := vdp.taiMillis,
          eventPosition := position),
        location := Some(location)))
  }

  /** The use case cannot override any field the service stamps. */
  lemma StampIgnoresUseCase(filled1: Denm, filled2: Denm, stationId: int, sequenceNumber: int, vdp: VehicleSnapshot)
    ensures Stamp(BuildDenm(filled1, stationId, sequenceNumber, vdp))
         == Stamp(BuildDenm(filled2, stationId, sequenceNumber, vdp))
  {
  }

  /** Driving forwards or backwards at the same speed gives the same DENM. */
  lemma DenmIgnoresDirectionOfTravel(filled: Denm, stationId: int, sequenceNumber: int, vdp: VehicleSnapshot)
    ensures BuildDenm(filled, stationId, sequenceNumber, vdp.(speed := -vdp.speed))
         == BuildDenm(filled, stationId, sequenceNumber, vdp)
  {
    SpeedMagnitudeIgnoresSign(vdp.speed);
  }

  /** A vehicle at rest heading north reports speed 0 and heading 0. */
  lemma DenmOfVehicleAtRest(filled: Denm, stationId: int, sequenceNumber: int, vdp: VehicleSnapshot)
    requires vdp.speed == 0.0 && vdp.heading == 0.0
    ensures BuildDenm(filled, stationId, sequenceNumber, vdp).denm.location.value.eventSpeed.value.speedValue == 0
    ensures BuildDenm(filled, stationId, sequenceNumber, vdp).denm.location.value.eventPositionHeading.value.headingValue == 0
  {
    RoundOfInteger(0);
  }

  // ---------------------------------------------------------------------
  // Filters over a trace of calls

  /** The sends of a trace, in order. */
  function Outbox(t: seq<Event>): (o: seq<Event>)
    ensures |o| <= |t|
    ensures forall k :: 0 <= k < |o| ==> o[k].Request?
  {
    if t == [] then [] else Outbox(t[..|t| - 1]) + (if t[|t| - 1].Request? then [t[|t| - 1]] else [])
  }

  predicate IsPoll(e: Event)
  {
    e.Check? || e.HandleMessageReception?
  }

  /** The use-case polls (check and handleMessageReception calls) of a trace, in order. */
  function Polls(t: seq<Event>): (o: seq<Event>)
    ensures |o| <= |t|
    ensures forall k :: 0 <= k < |o| ==> IsPoll(o[k])
  {
    if t == [] then [] else Polls(t[..|t| - 1]) + (if IsPoll(t[|t| - 1]) then [t[|t| - 1]] else [])
  }

  lemma {:induction false} OutboxAppend(a: seq<Event>, b: seq<Event>)
    ensures Outbox(a + b) == Outbox(a) + Outbox(b)
    decreases |b|
  {
    if b != [] {
      assert (a + b)[..|a + b| - 1] == a + b[..|b| - 1];
      OutboxAppend(a, b[..|b| - 1]);
    } else {
      assert a + b == a;
    }
  }

  lemma {:induction false} PollsAppend(a: seq<Event>, b: seq<Event>)
    ensures Polls(a + b) == Polls(a) + Polls(b)
    decreases |b|
  {
    if b != [] {
      assert (a + b)[..|a + b| - 1] == a + b[..|b| - 1];
      PollsAppend(a, b[..|b| - 1]);
    } else {
      assert a + b == a;
    }
  }

  lemma OneEvent(e: Event)
    ensures Outbox([e]) == (if e.Request? then [e] else [])
    ensures Polls([e]) == (if IsPoll(e) then [e] else [])
  {
    assert [e][..0] == [];
  }

  // ---------------------------------------------------------------------
  // One pass over the use cases

  /** The call that polls use case i on the given path. */
  function Poll(path: Path, i: nat): (e: Event)
  {
    match path
    case Tick => Check(i)
    case Reception(obj) => HandleMessageReception(i, obj)
  }

  /** The indices, below n, of the use cases that fire, in list order. */
  function Firing(replies: seq<Reply>, n: nat): (f: seq<nat>)
    requires n <= |replies|
    ensures |f| <= n
    ensures forall k :: 0 <= k < |f| ==> f[k] < n && replies[f[k]].fires
    ensures forall k, l :: 0 <= k < l < |f| ==> f[k] < f[l]
  {
    if n == 0 then [] else Firing(replies, n - 1) + (if replies[n - 1].fires then [n - 1] else [])
  }

  /** Every use case that fires is listed. */
  lemma {:induction false} FiringComplete(replies: seq<Reply>, n: nat, i: nat)
    requires i < n <= |replies|
    requires replies[i].fires
    ensures i in Firing(replies, n)
  {
    if i < n - 1 {
      FiringComplete(replies, n - 1, i);
    }
  }

  /** The send made for use case i when it fires and the counter reaches sequenceNumber. */
  function Sent(i: nat, reply: Reply, stationId: int, sequenceNumber: int, vdp: VehicleSnapshot): Event
  {
    Request(i, CreateRequest(reply.request), BuildDenm(reply.message, stationId, sequenceNumber, vdp))
  }

  /**
   * The calls for use case i, the counter standing at sequenceNumber before
   * the pass: poll it and, when it fires, send for it at once.
   */
  function Step(path: Path, replies: seq<Reply>, stationId: int, sequenceNumber: int, vdp: VehicleSnapshot, i: nat): seq<Event>
    requires i < |replies|
  {
    [Poll(path, i)] + StepSend(replies, stationId, sequenceNumber, vdp, i)
  }

  /** The send of step i: none, or one for use case i when it fires. */
  function StepSend(replies: seq<Reply>, stationId: int, sequenceNumber: int, vdp: VehicleSnapshot, i: nat): seq<Event>
    requires i < |replies|
  {
    if replies[i].fires
    then [Sent(i, replies[i], stationId, sequenceNumber + |Firing(replies, i)| + 1, vdp)]
    else []
  }

  /** The calls of one pass over the first n use cases, in list order. */
  function Pass(path: Path, replies: seq<Reply>, stationId: int, sequenceNumber: int, vdp: VehicleSnapshot, n: nat): seq<Event>
    requires n <= |replies|
  {
    if n == 0 then [] else Pass(path, replies, stationId, sequenceNumber, vdp, n - 1)
                           + Step(path, replies, stationId, sequenceNumber, vdp, n - 1)
  }

  /** A pass over one more use case is the pass before it followed by that use case's step. */
  lemma PassExtend(path: Path, replies: seq<Reply>, stationId: int, sequenceNumber: int, vdp: VehicleSnapshot, i: nat)
    requires i < |replies|
    ensures Pass(path, replies, stationId, sequenceNumber, vdp, i + 1)
         == Pass(path, replies, stationId, sequenceNumber, vdp, i) + Step(path, replies, stationId, sequenceNumber, vdp, i)
  {
  }

  /** A pass over n use cases makes n polls and one send per firing use case. */
  lemma {:induction false} PassLength(path: Path, replies: seq<Reply>, stationId: int, sequenceNumber: int, vdp: VehicleSnapshot, n: nat)
    requires n <= |replies|
    ensures |Pass(path, replies, stationId, sequenceNumber, vdp, n)| == n + |Firing(replies, n)|
  {
    if n > 0 {
      PassLength(path, replies, stationId, sequenceNumber, vdp, n - 1);
      assert |Step(path, replies, stationId, sequenceNumber, vdp, n - 1)| == if replies[n - 1].fires then 2 else 1;
    }
  }

  /** The sends o are those made for the firing use cases f, numbered from sequenceNumber + 1. */
  predicate SendsFor(o: seq<Event>, f: seq<nat>, replies: seq<Reply>, stationId: int, sequenceNumber: int, vdp: VehicleSnapshot)
  {
    && |o| == |f|
    && forall k :: 0 <= k < |f| ==>
         f[k] < |replies| && o[k] == Sent(f[k], replies[f[k]], stationId, sequenceNumber + k + 1, vdp)
  }

  predicate PollOrSend(path: Path, e: Event)
  {
    e.Request? || (IsPoll(e) && e == Poll(path, e.useCase))
  }

  /** One step polls its use case once and sends at most once, for that use case. */
  lemma StepEvents(path: Path, replies: seq<Reply>, stationId: int, sequenceNumber: int, vdp: VehicleSnapshot, i: nat)
    requires i < |replies|
    ensures Polls(Step(path, replies, stationId, sequenceNumber, vdp, i)) == [Poll(path, i)]
    ensures Outbox(Step(path, replies, stationId, sequenceNumber, vdp, i))
         == StepSend(replies, stationId, sequenceNumber, vdp, i)
  {
    var send := StepSend(replies, stationId, sequenceNumber, vdp, i);
    OneEvent(Poll(path, i));
    StepSendEvents(replies, stationId, sequenceNumber, vdp, i);
    PollsAppend([Poll(path, i)], send);
    OutboxAppend([Poll(path, i)], send);
  }

  /** The send of a step is a send and no poll. */
  lemma StepSendEvents(replies: seq<Reply>, stationId: int, sequenceNumber: int, vdp: VehicleSnapshot, i: nat)
    requires i < |replies|
    ensures Polls(StepSend(replies, stationId, sequenceNumber, vdp, i)) == []
    ensures Outbox(StepSend(replies, stationId, sequenceNumber, vdp, i))
         == StepSend(replies, stationId, sequenceNumber, vdp, i)
  {
    var send := StepSend(replies, stationId, sequenceNumber, vdp, i);
    if replies[i].fires {
      OneEvent(send[0]);
      assert [send[0]] == send;
    } else {
      assert Outbox(send) == [] && Polls(send) == [];
    }
  }

  /** Appending the send for one more firing use case keeps SendsFor. */
  lemma SendsForExtend(o: seq<Event>, f: seq<nat>, replies: seq<Reply>, stationId: int, sequenceNumber: int,
                       vdp: VehicleSnapshot, i: nat)
    requires SendsFor(o, f, replies, stationId, sequenceNumber, vdp)
    requires i < |replies|
    ensures SendsFor(o + [Sent(i, replies[i], stationId, sequenceNumber + |f| + 1, vdp)], f + [i],
                     replies, stationId, sequenceNumber, vdp)
  {
    var o' := o + [Sent(i, replies[i], stationId, sequenceNumber + |f| + 1, vdp)];
    var f' := f + [i];
    forall k | 0 <= k < |f'|
      ensures f'[k] < |replies| && o'[k] == Sent(f'[k], replies[f'[k]], stationId, sequenceNumber + k + 1, vdp)
    {
      if k < |f| {
        assert o'[k] == o[k] && f'[k] == f[k];
      }
    }
  }

  /** A pass sends exactly once for each firing use case, in list order, with consecutive numbers. */
  lemma {:induction false} PassOutbox(path: Path, replies: seq<Reply>, stationId: int, sequenceNumber: int, vdp: VehicleSnapshot, n: nat)
    requires n <= |replies|
    ensures SendsFor(Outbox(Pass(path, replies, stationId, sequenceNumber, vdp, n)), Firing(replies, n),
                     replies, stationId, sequenceNumber, vdp)
  {
    if n > 0 {
      PassOutbox(path, replies, stationId, sequenceNumber, vdp, n - 1);
      StepOutbox(path, replies, stationId, sequenceNumber, vdp, n - 1,
                 Pass(path, replies, stationId, sequenceNumber, vdp, n - 1));
      PassExtend(path, replies, stationId, sequenceNumber, vdp, n - 1);
    } else {
      assert Pass(path, replies, stationId, sequenceNumber, vdp, n) == [];
      assert Outbox([]) == [] && Firing(replies, n) == [];
    }
  }

  /** One more step after calls that sent for the first i firing use cases sends for the first i + 1. */
  lemma StepOutbox(path: Path, replies: seq<Reply>, stationId: int, sequenceNumber: int, vdp: VehicleSnapshot, i: nat,
                   before: seq<Event>)
    requires i < |replies|
    requires SendsFor(Outbox(before), Firing(replies, i), replies, stationId, sequenceNumber, vdp)
    ensures SendsFor(Outbox(before + Step(path, replies, stationId, sequenceNumber, vdp, i)), Firing(replies, i + 1),
                     replies, stationId, sequenceNumber, vdp)
  {
    OutboxAppend(before, Step(path, replies, stationId, sequenceNumber, vdp, i));
    StepEvents(path, replies, stationId, sequenceNumber, vdp, i);
    if replies[i].fires {
      FiringSendExtends(Outbox(before), replies, stationId, sequenceNumber, vdp, i);
    } else {
      assert Firing(replies, i + 1) == Firing(replies, i);
      assert StepSend(replies, stationId, sequenceNumber, vdp, i) == [];
      assert Outbox(before) + [] == Outbox(before);
    }
  }

  /** The send of a firing step extends the sends for the use cases before it. */
  lemma FiringSendExtends(o: seq<Event>, replies: seq<Reply>, stationId: int, sequenceNumber: int, vdp: VehicleSnapshot, i: nat)
    requires i < |replies| && replies[i].fires
    requires SendsFor(o, Firing(replies, i), replies, stationId, sequenceNumber, vdp)
    ensures SendsFor(o + StepSend(replies, stationId, sequenceNumber, vdp, i), Firing(replies, i + 1),
                     replies, stationId, sequenceNumber, vdp)
  {
    var f := Firing(replies, i);
    assert Firing(replies, i + 1) == f + [i];
    assert StepSend(replies, stationId, sequenceNumber, vdp, i) == [Sent(i, replies[i], stationId, sequenceNumber + |f| + 1, vdp)];
    SendsForExtend(o, f, replies, stationId, sequenceNumber, vdp, i);
  }

  /** The polls of the first n use cases on a path, in list order. */
  predicate PolledInOrder(o: seq<Event>, path: Path, n: nat)
  {
    |o| == n && forall i :: 0 <= i < n ==> o[i] == Poll(path, i)
  }

  lemma PolledInOrderExtend(o: seq<Event>, path: Path, n: nat)
    requires PolledInOrder(o, path, n)
    ensures PolledInOrder(o + [Poll(path, n)], path, n + 1)
  {
    var o' := o + [Poll(path, n)];
    forall i | 0 <= i < n + 1
      ensures o'[i] == Poll(path, i)
    {
      if i < n {
        assert o'[i] == o[i];
      }
    }
  }

  /** Calls that poll exactly use case i, after the polls of the first i in order, extend the order. */
  lemma PolledInOrderAppend(before: seq<Event>, step: seq<Event>, path: Path, i: nat)
    requires PolledInOrder(Polls(before), path, i)
    requires Polls(step) == [Poll(path, i)]
    ensures PolledInOrder(Polls(before + step), path, i + 1)
  {
    PollsAppend(before, step);
    PolledInOrderExtend(Polls(before), path, i);
  }

  /** A pass polls every use case exactly once, in list order. */
  lemma {:induction false} PassPolls(path: Path, replies: seq<Reply>, stationId: int, sequenceNumber: int, vdp: VehicleSnapshot, n: nat)
    requires n <= |replies|
    ensures PolledInOrder(Polls(Pass(path, replies, stationId, sequenceNumber, vdp, n)), path, n)
  {
    if n > 0 {
      var i := n - 1;
      var before := Pass(path, replies, stationId, sequenceNumber, vdp, i);
      var step := Step(path, replies, stationId, sequenceNumber, vdp, i);
      PassPolls(path, replies, stationId, sequenceNumber, vdp, i);
      StepEvents(path, replies, stationId, sequenceNumber, vdp, i);
      PolledInOrderAppend(before, step, path, i);
      PassExtend(path, replies, stationId, sequenceNumber, vdp, i);
    } else {
      assert Pass(path, replies, stationId, sequenceNumber, vdp, n) == [];
      assert Polls([]) == [];
    }
  }

  /** Every call of p is a poll on the path or a send. */
  predicate OnlyPollsAndSends(p: seq<Event>, path: Path)
  {
    forall j :: 0 <= j < |p| ==> PollOrSend(path, p[j])
  }

  /** Every send of p comes right after the poll of the use case it is for. */
  predicate SendsFollowPolls(p: seq<Event>, path: Path)
  {
    forall j :: 0 <= j < |p| && p[j].Request? ==> 0 < j && p[j - 1] == Poll(path, p[j].useCase)
  }

  /**
   * A pass makes no call other than polls on its own path and sends, and
   * each send comes right after the poll of the use case it is for.
   */
  lemma {:induction false} PassShape(path: Path, replies: seq<Reply>, stationId: int, sequenceNumber: int, vdp: VehicleSnapshot, n: nat)
    requires n <= |replies|
    ensures OnlyPollsAndSends(Pass(path, replies, stationId, sequenceNumber, vdp, n), path)
    ensures SendsFollowPolls(Pass(path, replies, stationId, sequenceNumber, vdp, n), path)
  {
    if n > 0 {
      var i := n - 1;
      PassShape(path, replies, stationId, sequenceNumber, vdp, i);
      var before := Pass(path, replies, stationId, sequenceNumber, vdp, i);
      var step := Step(path, replies, stationId, sequenceNumber, vdp, i);
      var all := Pass(path, replies, stationId, sequenceNumber, vdp, n);
      assert all == before + step;
      forall j | 0 <= j < |all|
        ensures PollOrSend(path, all[j])
      {
        if j < |before| {
          assert all[j] == before[j];
        } else {
          assert all[j] == step[j - |before|];
        }
      }
      forall j | 0 <= j < |all| && all[j].Request?
        ensures 0 < j && all[j - 1] == Poll(path, all[j].useCase)
      {
        if j < |before| {
          assert all[j] == before[j] && all[j - 1] == before[j - 1];
        } else {
          assert j == |before| + 1 && all[j] == step[1] && all[j - 1] == step[0];
        }
      }
    } else {
      assert Pass(path, replies, stationId, sequenceNumber, vdp, n) == [];
    }
  }

  // ---------------------------------------------------------------------
  // The three entry paths

  /** trigger(): drop stale memory, then one pass of check() over the use cases. */
  function TickEvents(replies: seq<Reply>, stationId: int, sequenceNumber: int, vdp: VehicleSnapshot): (e: seq<Event>)
    ensures |e| == 1 + |replies| + FiredCount(replies)
  {
    PassLength(Tick, replies, stationId, sequenceNumber, vdp, |replies|);
    [MemoryDrop] + Pass(Tick, replies, stationId, sequenceNumber, vdp, |replies|)
  }

  /** Whether indicate() acts on a decoded packet: it decoded and is not our own. */
  predicate Accepted(packet: Option<Denm>, stationId: int)
  {
    packet.Some? && packet.value.header.stationId != stationId
  }

  /**
   * indicate(): for an accepted DENM, record it in memory, emit it, then one
   * pass of handleMessageReception() over the use cases; otherwise nothing.
   */
  function IndicateEvents(packet: Option<Denm>, replies: seq<Reply>, stationId: int, sequenceNumber: int, vdp: VehicleSnapshot): (e: seq<Event>)
    ensures |e| == if Accepted(packet, stationId) then 2 + |replies| + FiredCount(replies) else 0
  {
    if Accepted(packet, stationId)
    then
      PassLength(Reception(packet.value), replies, stationId, sequenceNumber, vdp, |replies|);
      [MemoryReceived(packet.value), EmitReceived(packet.value)]
      + Pass(Reception(packet.value), replies, stationId, sequenceNumber, vdp, |replies|)
    else []
  }

  /** The storyboard trigger handed to the first n use cases, in order. */
  function StoryboardPass(obj: StoryboardSignal, n: nat): (p: seq<Event>)
    ensures |p| == n
  {
    if n == 0 then [] else StoryboardPass(obj, n - 1) + [HandleStoryboardTrigger(n - 1, obj)]
  }

  /** receiveSignal(): the storyboard signal goes to every use case; other signals are ignored. */
  function SignalEvents(signal: Signal, n: nat): (e: seq<Event>)
    ensures |e| == if signal.Storyboard? then n else 0
  {
    match signal
    case Storyboard(obj) => StoryboardPass(obj, n)
    case OtherSignal(_) => []
  }

  /** The number of sends one pass makes. */
  function FiredCount(replies: seq<Reply>): nat
  {
    |Firing(replies, |replies|)|
  }

  /** Calls that neither poll nor send, put before a pass, change neither its polls nor its sends. */
  lemma SilentHead(head: seq<Event>, pass: seq<Event>, path: Path)
    requires Outbox(head) == [] && Polls(head) == []
    requires forall j :: 0 <= j < |pass| ==> PollOrSend(path, pass[j])
    ensures Outbox(head + pass) == Outbox(pass)
    ensures Polls(head + pass) == Polls(pass)
    ensures forall j :: |head| <= j < |head + pass| ==> PollOrSend(path, (head + pass)[j])
  {
    OutboxAppend(head, pass);
    PollsAppend(head, pass);
    forall j | |head| <= j < |head + pass|
      ensures PollOrSend(path, (head + pass)[j])
    {
      assert (head + pass)[j] == pass[j - |head|];
    }
  }

  /** What memory.received() and the emitted signal add to a reception is neither a poll nor a send. */
  lemma ReceptionHeadSilent(obj: Denm)
    ensures Outbox([MemoryReceived(obj), EmitReceived(obj)]) == []
    ensures Polls([MemoryReceived(obj), EmitReceived(obj)]) == []
  {
    OneEvent(MemoryReceived(obj));
    OneEvent(EmitReceived(obj));
    OutboxAppend([MemoryReceived(obj)], [EmitReceived(obj)]);
    PollsAppend([MemoryReceived(obj)], [EmitReceived(obj)]);
    assert [MemoryReceived(obj)] + [EmitReceived(obj)] == [MemoryReceived(obj), EmitReceived(obj)];
  }

  /**
   * A tick calls memory.drop() exactly once, before anything else; after it
   * come only check() calls and sends: every use case is checked once, in
   * list order, and exactly one send is made for each use case whose
   * check() is true, in list order, with consecutive sequence numbers,
   * each one right after the check() of its own use case.
   */
  lemma TickOrder(replies: seq<Reply>, stationId: int, sequenceNumber: int, vdp: VehicleSnapshot)
    ensures var e := TickEvents(replies, stationId, sequenceNumber, vdp);
            && e[0] == MemoryDrop
            && (forall j :: 0 < j < |e| ==> PollOrSend(Tick, e[j]))
            && PolledInOrder(Polls(e), Tick, |replies|)
            && SendsFor(Outbox(e), Firing(replies, |replies|), replies, stationId, sequenceNumber, vdp)
            && SendsFollowPolls(e[1..], Tick)
  {
    var pass := Pass(Tick, replies, stationId, sequenceNumber, vdp, |replies|);
    PassShape(Tick, replies, stationId, sequenceNumber, vdp, |replies|);
    PassPolls(Tick, replies, stationId, sequenceNumber, vdp, |replies|);
    PassOutbox(Tick, replies, stationId, sequenceNumber, vdp, |replies|);
    OneEvent(MemoryDrop);
    SilentHead([MemoryDrop], pass, Tick);
    assert TickEvents(replies, stationId, sequenceNumber, vdp)[1..] == pass;
  }

  /**
   * A reception makes no call at all exactly when the packet did not decode
   * or is our own.  Otherwise it calls memory.received() and emits the
   * DENM, once each and before anything else; after them come only
   * handleMessageReception() calls with that DENM and sends: every use case
   * is asked once, in list order, and exactly one send is made for each
   * handler that returns true, in list order, each one right after the
   * call to its own handler.
   */
  lemma IndicateOrder(packet: Option<Denm>, replies: seq<Reply>, stationId: int, sequenceNumber: int, vdp: VehicleSnapshot)
    ensures var e := IndicateEvents(packet, replies, stationId, sequenceNumber, vdp);
            && (e == [] <==> !Accepted(packet, stationId))
            && (Accepted(packet, stationId) ==>
                  && e[0] == MemoryReceived(packet.value)
                  && e[1] == EmitReceived(packet.value)
                  && (forall j :: 2 <= j < |e| ==> PollOrSend(Reception(packet.value), e[j]))
                  && PolledInOrder(Polls(e), Reception(packet.value), |replies|)
                  && SendsFollowPolls(e[2..], Reception(packet.value)))
            && SendsFor(Outbox(e), if Accepted(packet, stationId) then Firing(replies, |replies|) else [],
                        replies, stationId, sequenceNumber, vdp)
  {
    if Accepted(packet, stationId) {
      var obj := packet.value;
      var pass := Pass(Reception(obj), replies, stationId, sequenceNumber, vdp, |replies|);
      PassShape(Reception(obj), replies, stationId, sequenceNumber, vdp, |replies|);
      PassPolls(Reception(obj), replies, stationId, sequenceNumber, vdp, |replies|);
      PassOutbox(Reception(obj), replies, stationId, sequenceNumber, vdp, |replies|);
      ReceptionHeadSilent(obj);
      SilentHead([MemoryReceived(obj), EmitReceived(obj)], pass, Reception(obj));
      assert IndicateEvents(packet, replies, stationId, sequenceNumber, vdp)[2..] == pass;
    }
  }

  /** Appending a call that is not a send to calls without sends gives calls without sends. */
  lemma SilentAppend(a: seq<Event>, e: Event)
    requires Outbox(a) == [] && !e.Request?
    ensures Outbox(a + [e]) == []
  {
    OutboxAppend(a, [e]);
    OneEvent(e);
  }

  /** The storyboard path reaches every use case once, in list order, and never sends. */
  lemma StoryboardOrder(obj: StoryboardSignal, n: nat)
    ensures |StoryboardPass(obj, n)| == n
    ensures forall i :: 0 <= i < n ==> StoryboardPass(obj, n)[i] == HandleStoryboardTrigger(i, obj)
    ensures Outbox(StoryboardPass(obj, n)) == []
  {
    StoryboardInOrder(obj, n);
    StoryboardSilent(obj, n);
  }

  lemma {:induction false} StoryboardInOrder(obj: StoryboardSignal, n: nat)
    ensures forall i :: 0 <= i < n ==> StoryboardPass(obj, n)[i] == HandleStoryboardTrigger(i, obj)
  {
    if n > 0 {
      var before := StoryboardPass(obj, n - 1);
      var e := HandleStoryboardTrigger(n - 1, obj);
      StoryboardInOrder(obj, n - 1);
      assert StoryboardPass(obj, n) == before + [e];
      forall i | 0 <= i < n
        ensures StoryboardPass(obj, n)[i] == HandleStoryboardTrigger(i, obj)
      {
        if i < n - 1 {
          assert (before + [e])[i] == before[i];
        }
      }
    }
  }

  lemma {:induction false} StoryboardSilent(obj: StoryboardSignal, n: nat)
    ensures Outbox(StoryboardPass(obj, n)) == []
  {
    if n > 0 {
      StoryboardSilent(obj, n - 1);
      SilentAppend(StoryboardPass(obj, n - 1), HandleStoryboardTrigger(n - 1, obj));
    } else {
      assert StoryboardPass(obj, n) == [];
      assert Outbox([]) == [];
    }
  }

  // ---------------------------------------------------------------------
  // The session: all sends since the service was built

  /** The k-th send of a session (from 1) is a DENM transport request carrying a well-formed DENM numbered k. */
  predicate ProperSend(e: Event, stationId: int, number: int)
  {
    && e.Request?
    && IsDenmTransport(e.request)
    && WellFormedDenm(e.message, stationId)
    && e.message.denm.management.actionId.sequenceNumber == number
  }

  /** The trace of a session whose counter stands at count. */
  predicate Session(t: seq<Event>, stationId: int, count: nat)
  {
    && |Outbox(t)| == count
    && forall k :: 0 <= k < |Outbox(t)| ==> ProperSend(Outbox(t)[k], stationId, k + 1)
  }

  /** In a session the DENM sequence numbers are strictly increasing, with no repeats. */
  lemma SessionNumbersIncrease(t: seq<Event>, stationId: int, count: nat, k: nat, l: nat)
    requires Session(t, stationId, count)
    requires k < l < count
    ensures Outbox(t)[k].message.denm.management.actionId.sequenceNumber
          < Outbox(t)[l].message.denm.management.actionId.sequenceNumber
  {
  }

  /** Calls that send nothing keep a session. */
  lemma SessionSilent(t: seq<Event>, extra: seq<Event>, stationId: int, count: nat)
    requires Session(t, stationId, count)
    requires Outbox(extra) == []
    ensures Session(t + extra, stationId, count)
  {
    OutboxAppend(t, extra);
    assert Outbox(t) + [] == Outbox(t);
  }

  /** Every send the service makes is a proper send with the number it was built with. */
  lemma SentIsProper(i: nat, reply: Reply, stationId: int, number: int, vdp: VehicleSnapshot)
    ensures ProperSend(Sent(i, reply, stationId, number, vdp), stationId, number)
  {
  }

  /** Calls whose sends continue the numbering keep a session, the counter advancing by the sends. */
  lemma SessionExtend(t: seq<Event>, rest: seq<Event>, f: seq<nat>, replies: seq<Reply>,
                      stationId: int, count: nat, vdp: VehicleSnapshot)
    requires Session(t, stationId, count)
    requires SendsFor(Outbox(rest), f, replies, stationId, count, vdp)
    ensures Session(t + rest, stationId, count + |f|)
  {
    OutboxAppend(t, rest);
    SendsAreProper(Outbox(rest), f, replies, stationId, count, vdp);
    ProperSendsConcat(Outbox(t), Outbox(rest), stationId, count);
  }

  /** The sends made for firing use cases are proper sends, numbered on from count. */
  lemma SendsAreProper(o: seq<Event>, f: seq<nat>, replies: seq<Reply>, stationId: int, count: nat, vdp: VehicleSnapshot)
    requires SendsFor(o, f, replies, stationId, count, vdp)
    ensures forall q :: 0 <= q < |o| ==> ProperSend(o[q], stationId, count + q + 1)
  {
    forall q | 0 <= q < |o|
      ensures ProperSend(o[q], stationId, count + q + 1)
    {
      SentIsProper(f[q], replies[f[q]], stationId, count + q + 1, vdp);
    }
  }

  /** Proper sends numbered 1..|a|, followed by proper sends numbered on from |a|, are numbered 1.. together. */
  lemma ProperSendsConcat(a: seq<Event>, b: seq<Event>, stationId: int, count: nat)
    requires |a| == count
    requires forall k :: 0 <= k < |a| ==> ProperSend(a[k], stationId, k + 1)
    requires forall q :: 0 <= q < |b| ==> ProperSend(b[q], stationId, count + q + 1)
    ensures forall k :: 0 <= k < |a + b| ==> ProperSend((a + b)[k], stationId, k + 1)
  {
    forall k | 0 <= k < |a + b|
      ensures ProperSend((a + b)[k], stationId, k + 1)
    {
      if k < |a| {
        assert (a + b)[k] == a[k];
      } else {
        assert (a + b)[k] == b[k - count];
      }
    }
  }

  /** A silent prefix and one pass keep a session, the counter advancing by the sends. */
  lemma SessionPass(t: seq<Event>, head: seq<Event>, path: Path, replies: seq<Reply>,
                    stationId: int, count: nat, vdp: VehicleSnapshot)
    requires Session(t, stationId, count)
    requires Outbox(head) == []
    ensures Session(t + (head + Pass(path, replies, stationId, count, vdp, |replies|)), stationId, count + FiredCount(replies))
  {
    var pass := Pass(path, replies, stationId, count, vdp, |replies|);
    PassOutbox(path, replies, stationId, count, vdp, |replies|);
    OutboxAppend(head, pass);
    assert Outbox(head + pass) == Outbox(pass);
    SessionExtend(t, head + pass, Firing(replies, |replies|), replies, stationId, count, vdp);
  }

  /** A tick keeps a session, the counter advancing by its sends. */
  lemma TickKeepsSession(t: seq<Event>, replies: seq<Reply>, stationId: int, count: nat, vdp: VehicleSnapshot)
    requires Session(t, stationId, count)
    ensures Session(t + TickEvents(replies, stationId, count, vdp), stationId, count + FiredCount(replies))
  {
    OneEvent(MemoryDrop);
    SessionPass(t, [MemoryDrop], Tick, replies, stationId, count, vdp);
  }

  /** A reception keeps a session, the counter advancing by its sends, and by none when it is ignored. */
  lemma IndicateKeepsSession(t: seq<Event>, packet: Option<Denm>, replies: seq<Reply>, stationId: int, count: nat,
                             vdp: VehicleSnapshot)
    requires Session(t, stationId, count)
    ensures Session(t + IndicateEvents(packet, replies, stationId, count, vdp), stationId,
                    count + (if Accepted(packet, stationId) then FiredCount(replies) else 0))
  {
    if Accepted(packet, stationId) {
      ReceptionHeadSilent(packet.value);
      SessionPass(t, [MemoryReceived(packet.value), EmitReceived(packet.value)], Reception(packet.value),
                  replies, stationId, count, vdp);
    } else {
      assert t + IndicateEvents(packet, replies, stationId, count, vdp) == t;
    }
  }

  /** A signal keeps a session: it sends nothing. */
  lemma SignalKeepsSession(t: seq<Event>, signal: Signal, n: nat, stationId: int, count: nat)
    requires Session(t, stationId, count)
    ensures Session(t + SignalEvents(signal, n), stationId, count)
  {
    match signal
    case Storyboard(obj) =>
      StoryboardOrder(obj, n);
      SessionSilent(t, StoryboardPass(obj, n), stationId, count);
    case OtherSignal(_) =>
      assert t + SignalEvents(signal, n) == t;
  }

  // ---------------------------------------------------------------------
  // The service

  class DenmService {
    /** The local station id, as the vehicle data provider reports it. */
    const stationId: int
    /** mUseCases: polled front to back. */
    var useCases: seq<UseCase>
    /** mSequenceNumber. */
    var sequenceNumber: nat
    /** Every call the service has made into a collaborator, in order. */
    ghost var trace: seq<Event>
    /** Whether initialize() has run, creating the DENM memory that trigger() and indicate() use. */
    ghost var initialized: bool

    ghost predicate Valid()
      reads this
    {
      Session(trace, stationId, sequenceNumber)
    }

    constructor (stationId: int)
      ensures Valid()
      ensures this.stationId == stationId
      ensures useCases == [] && sequenceNumber == 0 && trace == [] && !initialized
    {
      this.stationId := stationId;
      useCases := [];
      sequenceNumber := 0;
      trace := [];
      initialized := false;
    }

    /**
     * initialize(): a fresh DENM memory, then the use cases, each pushed to
     * the front of the list.
     */
    method Initialize(assumeNonUrbanEnvironment: bool)
      requires Valid()
      modifies this`useCases, this`trace, this`initialized
      ensures Valid() && initialized
      ensures trace == old(trace) + [MemoryCreated]
      ensures useCases == [ImpactReductionContainerExchange,
                           TrafficJamAhead(assumeNonUrbanEnvironment),
                           TrafficJamEndOfQueue(assumeNonUrbanEnvironment)] + old(useCases)
    {
      trace := trace + [MemoryCreated];
      initialized := true;
      OneEvent(MemoryCreated);
      SessionSilent(old(trace), [MemoryCreated], stationId, sequenceNumber);
      useCases := [TrafficJamEndOfQueue(assumeNonUrbanEnvironment)] + useCases;
      useCases := [TrafficJamAhead(assumeNonUrbanEnvironment)] + useCases;
      useCases := [ImpactReductionContainerExchange] + useCases;
    }

    /** receiveSignal(): forward a storyboard signal to every use case. */
    method ReceiveSignal(signal: Signal)
      requires Valid()
      modifies this`trace
      ensures Valid()
      ensures trace == old(trace) + SignalEvents(signal, |useCases|)
    {
      match signal {
        case Storyboard(obj) =>
          var i := 0;
          while i < |useCases|
            invariant 0 <= i <= |useCases|
            invariant trace == old(trace) + StoryboardPass(obj, i)
          {
            trace := trace + [HandleStoryboardTrigger(i, obj)];
            i := i + 1;
          }
        case OtherSignal(_) =>
          assert trace == old(trace) + [];
      }
      SignalKeepsSession(old(trace), signal, |useCases|, stationId, sequenceNumber);
    }

    /** indicate(): handle a received packet, `None` when it does not decode as a DENM. */
    method Indicate(packet: Option<Denm>, replies: seq<Reply>, vdp: VehicleSnapshot)
      requires Valid() && initialized
      requires |replies| == |useCases|
      modifies this`sequenceNumber, this`trace
      ensures Valid()
      ensures trace == old(trace) + IndicateEvents(packet, replies, stationId, old(sequenceNumber), vdp)
      ensures sequenceNumber == old(sequenceNumber) + (if Accepted(packet, stationId) then FiredCount(replies) else 0)
    {
      if packet.Some? && packet.value.header.stationId != stationId {
        var obj := packet.value;
        trace := trace + [MemoryReceived(obj), EmitReceived(obj)];
        ghost var start := trace;
        PollUseCases(Reception(obj), replies, vdp);
        IndicateKeepsSession(old(trace), packet, replies, stationId, old(sequenceNumber), vdp);
        assert start + Pass(Reception(obj), replies, stationId, old(sequenceNumber), vdp, |replies|)
            == old(trace) + IndicateEvents(packet, replies, stationId, old(sequenceNumber), vdp);
      } else {
        IndicateKeepsSession(old(trace), packet, replies, stationId, sequenceNumber, vdp);
        assert trace == old(trace) + [];
      }
    }

    /** trigger(): drop stale memory, then poll each use case in order. */
    method Trigger(replies: seq<Reply>, vdp: VehicleSnapshot)
      requires Valid() && initialized
      requires |replies| == |useCases|
      modifies this`sequenceNumber, this`trace
      ensures Valid()
      ensures trace == old(trace) + TickEvents(replies, stationId, old(sequenceNumber), vdp)
      ensures sequenceNumber == old(sequenceNumber) + FiredCount(replies)
    {
      trace := trace + [MemoryDrop];
      ghost var start := trace;
      PollUseCases(Tick, replies, vdp);
      TickKeepsSession(old(trace), replies, stationId, old(sequenceNumber), vdp);
      assert start + Pass(Tick, replies, stationId, old(sequenceNumber), vdp, |replies|)
          == old(trace) + TickEvents(replies, stationId, old(sequenceNumber), vdp);
    }

    /**
     * The loop shared by trigger() and indicate(): poll every use case in
     * list order on the given path, sending for each one that fires.
     */
    method PollUseCases(path: Path, replies: seq<Reply>, vdp: VehicleSnapshot)
      requires |replies| == |useCases|
      modifies this`sequenceNumber, this`trace
      ensures trace == old(trace) + Pass(path, replies, stationId, old(sequenceNumber), vdp, |replies|)
      ensures sequenceNumber == old(sequenceNumber) + FiredCount(replies)
    {
      var i := 0;
      while i < |useCases|
        invariant 0 <= i <= |useCases|
        invariant sequenceNumber == old(sequenceNumber) + |Firing(replies, i)|
        invariant trace == old(trace) + Pass(path, replies, stationId, old(sequenceNumber), vdp, i)
      {
        PollAndSend(path, replies, i, old(sequenceNumber), vdp);
        PassExtend(path, replies, stationId, old(sequenceNumber), vdp, i);
        i := i + 1;
      }
    }

    /**
     * One iteration of the loop of PollUseCases: poll use case
     * i on the given path and, when it fires, send for it at once.  start is
     * the counter before the pass.
     */
    method PollAndSend(path: Path, replies: seq<Reply>, i: nat, ghost start: nat, vdp: VehicleSnapshot)
      requires i < |replies|
      requires sequenceNumber == start + |Firing(replies, i)|
      modifies this`sequenceNumber, this`trace
      ensures sequenceNumber == start + |Firing(replies, i + 1)|
      ensures trace == old(trace) + Step(path, replies, stationId, start, vdp, i)
    {
      trace := trace + [Poll(path, i)];
      if replies[i].fires {
        SendDenm(i, replies[i], vdp);
      }
    }

    /** sendDenm(): build the DENM, then the request, and hand both to the transport. */
    method SendDenm(useCase: nat, reply: Reply, vdp: VehicleSnapshot)
      modifies this`sequenceNumber, this`trace
      ensures sequenceNumber == old(sequenceNumber) + 1
      ensures trace == old(trace) + [Sent(useCase, reply, stationId, sequenceNumber, vdp)]
    {
      var denm := CreateDenm(reply.message, vdp);
      var request := CreateRequest(reply.request);
      trace := trace + [Request(useCase, request, denm)];
    }

    /**
     * createDenm(): start from what the use case wrote, then stamp the
     * header, the action id with the pre-incremented counter, the times,
     * the event position and a fresh location container.
     */
    method CreateDenm(filled: Denm, vdp: VehicleSnapshot) returns (message: Denm)
      modifies this`sequenceNumber
      ensures sequenceNumber == old(sequenceNumber) + 1
      ensures message == BuildDenm(filled, stationId, sequenceNumber, vdp)
    {
      message := filled;
      var header := message.header;
      header := header.(protocolVersion := PROTOCOL_VERSION);
      header := header.(messageId := MESSAGE_ID_DENM);
      header := header.(stationId := stationId);
      message := message.(header := header);

      var management := message.denm.management;
      management := management.(actionId := management.actionId.(originatingStationId := stationId));
      sequenceNumber := sequenceNumber + 1;
      management := management.(actionId := management.actionId.(sequenceNumber := sequenceNumber));
      var taiTime := vdp.taiMillis;
      management := management.(detectionTime := taiTime);
      management := management.(referenceTime := taiTime);
      var position := management.eventPosition;
      position := position.(altitude := position.altitude.(altitudeValue := ALTITUDE_VALUE_UNAVAILABLE));
      position := position.(altitude := position.altitude.(altitudeConfidence := ALTITUDE_CONFIDENCE_UNAVAILABLE));
      position := position.(longitude := Microdegrees(vdp.longitude) * LONGITUDE_ONE_MICRODEGREE_EAST);
      position := position.(latitude := Microdegrees(vdp.latitude) * LATITUDE_ONE_MICRODEGREE_NORTH);
      var ellipse := position.positionConfidenceEllipse;
      ellipse := ellipse.(semiMajorOrientation := HEADING_VALUE_UNAVAILABLE);
      ellipse := ellipse.(semiMajorConfidence := SEMI_AXIS_LENGTH_UNAVAILABLE);
      ellipse := ellipse.(semiMinorConfidence := SEMI_AXIS_LENGTH_UNAVAILABLE);
      position := position.(positionConfidenceEllipse := ellipse);
      management := management.(eventPosition := position);
      message := message.(denm := message.denm.(management := management));

      var location := LocationContainer(None, None, [], None);
      location := location.(eventSpeed := Some(Speed(
        Abs(CentimetersPerSecond(vdp.speed)) * SPEED_VALUE_ONE_CENTIMETER_PER_SEC,
        SPEED_CONFIDENCE_EQUAL_OR_WITHIN_ONE_CENTIMETER_PER_SEC * 3)));
      location := location.(eventPositionHeading := Some(Heading(
        Decidegrees(vdp.heading),
        HEADING_CONFIDENCE_EQUAL_OR_WITHIN_ONE_DEGREE)));
      var pathHistory: PathHistory := [];
      location := location.(traces := location.traces + [pathHistory]);
      message := message.(denm := message.denm.(location := Some(location)));
      assert location.traces == [[]];
    }
  }

  /**
   * On a station that has sent nothing yet, a tick on which only the first
   * of three use cases fires sends exactly one DENM: that use case's, from
   * this station, with sequence number 1.
   */
  lemma FirstTickSendsOnce(stationId: int, firing: Reply, idle: Reply, vdp: VehicleSnapshot)
    requires firing.fires && !idle.fires
    ensures Outbox(TickEvents([firing, idle, idle], stationId, 0, vdp)) == [Sent(0, firing, stationId, 1, vdp)]
    ensures Sent(0, firing, stationId, 1, vdp).message.denm.management.actionId == ActionId(stationId, 1)
  {
    var replies := [firing, idle, idle];
    TickOrder(replies, stationId, 0, vdp);
    assert Firing(replies, 1) == [0];
    assert Firing(replies, 3) == [0];
  }
}
