/**
 * The two objects a DENM send hands to the transport: the DENM itself
 * (the ASN.1 structure of ETSI EN 302 637-3, as a record of fields) and the
 * BTP-B data request with its GeoNetworking parameters.  The constants are
 * the named values of the ETSI common data dictionary (ETSI TS 102 894-2)
 * and of the BTP/GeoNetworking stack that the service refers to by name.
 */
module Messages {
  import opened Wrappers

  // ITS PDU header
  const PROTOCOL_VERSION: int := 1
  const MESSAGE_ID_DENM: int := 1               // ItsPduHeader messageID denm(1)

  // "unavailable" sentinels and unit multipliers of the data dictionary
  const ALTITUDE_VALUE_UNAVAILABLE: int := 800001
  const ALTITUDE_CONFIDENCE_UNAVAILABLE: int := 15
  const HEADING_VALUE_UNAVAILABLE: int := 3601
  const SEMI_AXIS_LENGTH_UNAVAILABLE: int := 4095
  const LONGITUDE_ONE_MICRODEGREE_EAST: int := 10
  const LATITUDE_ONE_MICRODEGREE_NORTH: int := 10
  const SPEED_VALUE_ONE_CENTIMETER_PER_SEC: int := 1
  const SPEED_CONFIDENCE_EQUAL_OR_WITHIN_ONE_CENTIMETER_PER_SEC: int := 1
  const HEADING_CONFIDENCE_EQUAL_OR_WITHIN_ONE_DEGREE: int := 10

  // transport identifiers
  const BTP_PORT_DENM: int := 2002              // well-known BTP port of DENM
  const ITS_AID_DEN: int := 37                  // ITS application identifier of DEN

  // ---- the DENM ----

  datatype ItsPduHeader = ItsPduHeader(protocolVersion: int, messageId: int, stationId: int)

  datatype ActionId = ActionId(originatingStationId: int, sequenceNumber: int)

  datatype Altitude = Altitude(altitudeValue: int, altitudeConfidence: int)

  datatype PosConfidenceEllipse =
    PosConfidenceEllipse(semiMajorConfidence: int, semiMinorConfidence: int, semiMajorOrientation: int)

  datatype ReferencePosition = ReferencePosition(
    latitude: int,
    longitude: int,
    positionConfidenceEllipse: PosConfidenceEllipse,
    altitude: Altitude)

  datatype ManagementContainer = ManagementContainer(
    actionId: ActionId,
    detectionTime: int,
    referenceTime: int,
    termination: Option<int>,
    eventPosition: ReferencePosition,
    relevanceDistance: Option<int>,
    relevanceTrafficDirection: Option<int>,
    validityDuration: Option<int>,
    transmissionInterval: Option<int>,
    stationType: int)

  datatype CauseCode = CauseCode(causeCode: int, subCauseCode: int)

  datatype SituationContainer =
    SituationContainer(informationQuality: int, eventType: CauseCode, linkedCause: Option<CauseCode>)

  datatype Speed = Speed(speedValue: int, speedConfidence: int)

  datatype Heading = Heading(headingValue: int, headingConfidence: int)

  datatype PathPoint = PathPoint(deltaLatitude: int, deltaLongitude: int, deltaAltitude: int, pathDeltaTime: Option<int>)

  type PathHistory = seq<PathPoint>

  datatype LocationContainer = LocationContainer(
    eventSpeed: Option<Speed>,
    eventPositionHeading: Option<Heading>,
    traces: seq<PathHistory>,
    roadType: Option<int>)

  /** The optional à-la-carte container, filled only by use cases. */
  datatype AlacarteContainer = AlacarteContainer(
    lanePosition: Option<int>,
    impactReduction: Option<seq<int>>,
    externalTemperature: Option<int>,
    positioningSolution: Option<int>)

  datatype DenmBody = DenmBody(
    management: ManagementContainer,
    situation: Option<SituationContainer>,
    location: Option<LocationContainer>,
    alacarte: Option<AlacarteContainer>)

  datatype Denm = Denm(header: ItsPduHeader, denm: DenmBody)

  // ---- the BTP-B data request ----

  datatype TransportType = SHB | TSB | GUC | GBC | GAC

  datatype CommunicationProfile = Unspecified | ItsG5 | LteV2x

  datatype Shape = Circle(radius: int) | Rectangle(a: int, b: int) | Ellipse(a: int, b: int)

  datatype Area = Area(shape: Shape, latitude: int, longitude: int, angle: int)

  datatype Repetition = Repetition(interval: int, maximum: int)

  datatype GeoNetParams = GeoNetParams(
    itsAid: int,
    transportType: TransportType,
    communicationProfile: CommunicationProfile,
    destination: Option<Area>,
    maximumLifetime: Option<int>,
    repetition: Option<Repetition>,
    trafficClass: int)

  datatype DataRequest = DataRequest(destinationPort: int, destinationPortInfo: int, gn: GeoNetParams)
}
