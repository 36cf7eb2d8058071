# DENM service and carrier sensing of the Artery V2X simulator, modelled in Dafny

This project models two parts of Artery's ITS-G5 stack.

**The DENM service** (`src/artery/application/DenmService.cc`). A vehicle
originates Decentralized Environmental Notification Messages (ETSI EN 302 637-3)
through this service. The service keeps three things:

- an ordered list of use cases;
- a DENM memory;
- a sequence counter.

It has three entry paths:

- **The periodic tick, `trigger`.** It drops stale memory entries. Then it asks
  every use case `check()`.
- **The reception of a packet, `indicate`.**
  - A packet that does not decode as a DENM is ignored.
  - So is a DENM this station sent itself.
  - Any other DENM is recorded in memory and emitted as a signal. Then every
    use case is offered it through `handleMessageReception()`.
- **The storyboard signal, `receiveSignal`.** It is forwarded to every use case.

Every use case that fires causes one send (`sendDenm`), which does three
things:

- It builds the DENM (`createDenm`). The service starts from what the use case
  wrote. It then stamps the header, the action id with the next sequence number,
  the time, the event position with "unavailable" sentinels, the speed
  magnitude, the heading and an empty path history.
- It builds the BTP request (`createRequest`). The use case's request gets the
  DENM port, the DEN application id, GeoBroadcast transport and the ITS-G5
  profile.
- It hands both to the transport.

Use cases, memory and transport are opaque here:

- For each pass, the caller supplies what each use case answers (`Reply`).
  This is whether it fires, and what it writes into a blank request and a blank
  DENM.
- A ghost `trace` records, in call order, every call the service makes to
  the memory, to the signal, to the transport and to a use case. The calls to
  a use case are its polls (`check`, `handleMessageReception`), whose answer
  decides a send, and the storyboard call (`handleStoryboardTrigger`), which
  never sends.
- The class invariant `Valid()` says that the k-th send of the service's life
  carries a DENM transport request and a well-formed DENM from this station,
  numbered k.

**Carrier sensing** (`src/artery/mac/CarrierSensing.cc`). The channel is in
one of three states: idle, busy because another station is heard, or busy
because this station transmits. The object remembers when the current state
was entered. Simulation time is an integer passed in as `now`. A ghost clock
records the latest time passed to `SetState`. Simulation time never runs
backwards, so the idle duration the source asserts to be non-negative is
proved non-negative.

Modules:

- `Wrappers` (Option).
- `Units`: `round` and the unit scalings.
- `Messages`: the DENM and the BTP request as records, with the named
  constants of ETSI TS 102 894-2 and of the BTP/GeoNetworking stack.
- `Application`: the DENM service.
- `Mac`: carrier sensing.

## Model

| member | source | states |
|---|---|---|
| Units.Round | src/artery/application/DenmService.cc:34-39 | the result is an integer within one half of the input, and a tie is resolved away from zero (std::round) |
| Units.RoundOfInteger | src/artery/application/DenmService.cc:34-39 | a whole number is not changed by rounding |
| Units.RoundIsOdd | src/artery/application/DenmService.cc:34-39 | rounding the negated value gives the negated rounding, so ties go away from zero on both sides |
| Units.Abs | src/artery/application/DenmService.cc:159 | std::abs yields a non-negative value equal to the input or its negation |
| Units.SpeedMagnitudeIgnoresSign | src/artery/application/DenmService.cc:159 | the encoded speed magnitude in cm/s is the same for a speed and its opposite |
| Units.FifteenMetersPerSecond | src/artery/application/DenmService.cc:159 | 15 m/s encodes as 1500 cm/s, and the magnitude of -15 m/s is also 1500 |
| Units.Microdegrees | src/artery/application/DenmService.cc:151-152 | an angle in degrees is scaled by 10^6 (the microdegree unit of line 30) and rounded by Round, so it lies within one half of the exact scaled value |
| Units.Decidegrees | src/artery/application/DenmService.cc:162 | an angle in degrees is scaled by 10 (the decidegree unit of line 31) and rounded by Round, within one half of the exact scaled value |
| Units.CentimetersPerSecond | src/artery/application/DenmService.cc:159 | a speed in m/s is scaled by 100 (the centimetre-per-second unit of line 32) and rounded by Round, within one half of the exact scaled value |
| Application.CreateRequest | src/artery/application/DenmService.cc:118-130 | port, AID, transport type and profile always hold the DENM constants (port 2002, AID 37, GBC, ITS-G5); every other field is the one the use case wrote |
| Application.RequestTransportIgnoresUseCase | src/artery/application/DenmService.cc:124-127 | two requests built from any two use-case requests agree on all four transport fields |
| Application.BuildDenm | src/artery/application/DenmService.cc:132-170 | the DENM is well-formed for the station: protocol version 1 and message id DENM; header station id and originating station id are the local id; detection time equals reference time; altitude and confidence-ellipse fields are the unavailable sentinels; speed is non-negative; exactly one empty path-history trace. It carries the given sequence number and encodes the vehicle's time, position, speed magnitude and heading. Every field the service does not stamp keeps the use case's value |
| Application.StampIgnoresUseCase | src/artery/application/DenmService.cc:138-167 | whatever the use case wrote, the header, action id, times, event position and location container come out the same |
| Application.DenmIgnoresDirectionOfTravel | src/artery/application/DenmService.cc:159 | negating the vehicle's speed does not change the DENM |
| Application.DenmOfVehicleAtRest | src/artery/application/DenmService.cc:159-163 | a vehicle at rest heading 0 degrees sends speed value 0 and heading value 0 |
| Application.PassLength | src/artery/application/DenmService.cc:100-104 | a pass over n use cases makes n polls plus one send per firing use case, and no other call |
| Application.Firing | src/artery/application/DenmService.cc:100-104 | the use cases that fire among the first n are listed strictly increasing, each below n and each firing |
| Application.FiringComplete | src/artery/application/DenmService.cc:100-104 | every use case among the first n that fires is in that list |
| Application.StepEvents | src/artery/application/DenmService.cc:100-104 | one loop iteration polls its use case exactly once, and sends exactly once for that use case exactly when it fires |
| Application.PassOutbox | src/artery/application/DenmService.cc:88-92 | a pass sends exactly once for each firing use case, in list order, with consecutive sequence numbers after the counter |
| Application.StepOutbox | src/artery/application/DenmService.cc:100-104 | one more loop iteration extends the sends for the firing use cases before it by the send for its own use case, when it fires |
| Application.PassPolls | src/artery/application/DenmService.cc:100-104 | a pass polls every use case exactly once, in list order |
| Application.PassShape | src/artery/application/DenmService.cc:88-92 | a pass makes no call other than polls on its own path and sends, and every send directly follows the poll of its use case |
| Application.TickOrder | src/artery/application/DenmService.cc:96-105 | a tick calls memory.drop() first and only once; after it come only check() calls and sends; every use case is checked once, in order; exactly one send is made per firing use case, in order, numbered consecutively, each directly after the check() of its own use case |
| Application.IndicateOrder | src/artery/application/DenmService.cc:78-94 | no call at all exactly when the packet does not decode or has the local station id; otherwise memory.received() and the emitted signal come first, then only handler calls with that DENM and sends; every use case is asked once, in order; one send per handler that returns true, each directly after the call to its own handler |
| Application.TickEvents | src/artery/application/DenmService.cc:96-105 | the calls of a tick: one drop, one check per use case and one send per firing use case, 1 + n + sends in all |
| Application.IndicateEvents | src/artery/application/DenmService.cc:78-94 | the calls of a reception: none for an undecodable or own packet, otherwise received, emit, one handler call per use case and one send per true handler |
| Application.StoryboardPass | src/artery/application/DenmService.cc:72-74 | the storyboard loop makes exactly one call per use case |
| Application.SignalEvents | src/artery/application/DenmService.cc:68-76 | the calls of receiveSignal: one per use case for a storyboard signal, none for any other signal |
| Application.StoryboardOrder | src/artery/application/DenmService.cc:68-76 | the storyboard signal reaches every use case once, in list order, and the path never sends |
| Application.SessionNumbersIncrease | src/artery/application/DenmService.cc:143 | the sequence numbers of a service's DENMs strictly increase, so no two sends share an action id |
| Application.SessionPass | src/artery/application/DenmService.cc:107-116 | a pass keeps the session invariant; the counter advances by the number of sends |
| Application.SendsAreProper | src/artery/application/DenmService.cc:107-116 | sends made for firing use cases and numbered consecutively after the counter each carry the DENM transport fields and a well-formed DENM from this station with its own number |
| Application.SentIsProper | src/artery/application/DenmService.cc:107-116 | every send carries a request with the DENM transport fields and a well-formed DENM from this station with the number it was built with |
| Application.TickKeepsSession | src/artery/application/DenmService.cc:96-105 | a tick keeps the session invariant; the counter advances by the number of firing use cases |
| Application.IndicateKeepsSession | src/artery/application/DenmService.cc:78-94 | a reception keeps the session invariant; the counter advances by the number of handlers that return true, and not at all for an ignored packet |
| Application.SignalKeepsSession | src/artery/application/DenmService.cc:68-76 | a signal keeps the session invariant and the counter, since it never sends |
| Application.FirstTickSendsOnce | src/artery/application/DenmService.cc:96-105 | on a fresh service where only the first of three use cases fires, the tick sends exactly one DENM, for that use case, from this station, with sequence number 1 |
| Application.DenmService.constructor | src/artery/application/DenmService.cc:41-44 | the counter starts at 0, with no use cases, no calls made and no memory created yet |
| Application.DenmService.Initialize | src/artery/application/DenmService.cc:46-66 | one new memory; the use cases end up in the order impact reduction, jam ahead, end of queue (push_front reverses creation order), with the non-urban flag passed to both traffic-jam cases; afterwards the service counts as initialised |
| Application.DenmService.ReceiveSignal | src/artery/application/DenmService.cc:68-76 | a storyboard signal is handed to every use case in order; any other signal causes no call; the session invariant is kept |
| Application.DenmService.Indicate | src/artery/application/DenmService.cc:78-94 | only after initialize() has created the memory; the calls made are exactly those of a reception, so IndicateOrder applies; the counter advances by the sends; the session invariant is kept |
| Application.DenmService.Trigger | src/artery/application/DenmService.cc:96-105 | only after initialize() has created the memory; the calls made are exactly those of a tick, so TickOrder applies; the counter advances by the sends; the session invariant is kept |
| Application.DenmService.PollUseCases | src/artery/application/DenmService.cc:88-92 | the loop shared by trigger() and indicate() (lines 88-92 and 100-104): the calls it makes are exactly a pass over all use cases on the path, and the counter advances by the number of firing use cases |
| Application.DenmService.PollAndSend | src/artery/application/DenmService.cc:100-103 | one loop iteration of trigger() and indicate(): use case i is polled on the path, and when it fires one send follows, numbered after the sends already made in this pass |
| Application.DenmService.SendDenm | src/artery/application/DenmService.cc:107-116 | one send, of the built request and the built DENM with the next sequence number; the counter advances by one |
| Application.DenmService.CreateDenm | src/artery/application/DenmService.cc:132-170 | the counter is pre-incremented, and the field-by-field construction yields BuildDenm with the new number |
| Mac.CarrierSensing.constructor | src/artery/mac/CarrierSensing.cc:24-26 | a new carrier sense is idle, since time 0 |
| Mac.CarrierSensing.SetState | src/artery/mac/CarrierSensing.cc:32-47 | entering the current state changes neither state nor timestamp; entering another state sets the state and records now as its start |
| Mac.CarrierSensing.IdleDuration | src/artery/mac/CarrierSensing.cc:49-57 | a duration exists exactly when the channel is idle; it is non-negative, and the state's start plus the duration is now |

## Left out

- Floating point and boost.units: quantities are exact reals, and the degree conversions take the vehicle data provider's value as degrees. IEEE double rounding in `round` is not modelled.
- Range limits of the wire fields. ETSI TS 102 894-2 limits HeadingValue to 0..3601 and SpeedValue to 0..16383. createDenm (`src/artery/application/DenmService.cc:159`, `:162`) neither clamps nor rejects, and the model follows the code: 359.95 degrees encodes as heading value 3600, a negative heading gives a negative value, and no speed is capped.
- The DENM memory's internals (deduplication, ageing, `received`/`drop` semantics), the use cases' detection logic and the transport below `request`: these are collaborators of the service, and their calls appear only as events of the trace.
- OMNeT++ plumbing: signal registration and `subscribe`, facility lookup, `par`, the timer object. A failing `check_and_cast` would raise an exception; the model's signal datatype cannot carry a wrongly typed object.
- The use case's `message()` and `dissemination()` calls (`src/artery/application/DenmService.cc:122`, `:135`): they are not events of the trace. What they write enters as `Reply.message` and `Reply.request`. So the trace does not show that the DENM is built before the request (`:109-110`), or that these two calls are made only for a use case that fires; the code order is kept only in the body of `SendDenm`.
- Reading the station id: the source asks the vehicle data provider for `station_id()` on every use (`src/artery/application/DenmService.cc:83`, `:140`, `:142`). The model fixes it as a constant given to the constructor, so a station id that changes during a run is not modelled.
- TAI time conversion (`countTaiMilliseconds`, `getTimeFor`): the TAI milliseconds are an input of the vehicle snapshot.
- The ASN.1 runtime: decoding is the `Option<Denm>` input of `indicate`, `asn_long2INTEGER` is a plain assignment, and its return-code assertion always holds.
- Width of the sequence counter: its declaration is in a header that is not part of this model, so the counter is an unbounded natural with no wrap-around. ETSI TS 102 894-2 defines the action id's SequenceNumber as 0..65535, so in the program the "no two sends share an action id" of `SessionNumbersIncrease` holds only for the first 65535 DENMs of a station; a later number no longer fits the field.
- The default branch of `setState` (unknown state, runtime error): the state is a closed enumeration, so that branch cannot be reached.
- `src/artery/traci/VehicleController.h`: declarations only, with no logic to model.
- The 64-bit range of `SimTime`: simulation time is an unbounded integer.
