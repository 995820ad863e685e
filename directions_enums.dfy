/**
 The wire vocabulary of the Google Directions API client: the closed
 enumerations exchanged with the remote service and their string codecs.

 Three of them are decoded from response fields, with two fallback policies:
 the status decoder and the vehicle-type decoder are total and fall back to a
 sentinel case, the travel-mode decoder is partial and answers None for an
 unknown label. The request-side enumerations are only ever encoded, each as a
 fixed lowercase query-parameter token.
 */
module DirectionsEnums {

  import opened Wrappers
  import opened AsciiText

  // ---------------------------------------------------------------------------
  // Response status
  // ---------------------------------------------------------------------------

  /**
   The status of a directions request: the seven statuses the server reports
   besides OK, and three that only the client raises (BadAPIURL,
   BadJSONFormatting, MissingStatusCode).
   */
  datatype DirectionsError =
    | OK
    | NotFound
    | ZeroResults
    | MaxWaypointsExceeded
    | InvalidRequest
    | OverQueryLimit
    | RequestDenied
    | UnknownError
    | BadAPIURL
    | BadJSONFormatting
    | MissingStatusCode
  {
    /** The integer raw value of the case: its position in declaration order, OK being 0. */
    function RawValue(): (n: nat)
      ensures n <= 10
      ensures n == 0 <==> this == OK
    {
      match this
      case OK => 0
      case NotFound => 1
      case ZeroResults => 2
      case MaxWaypointsExceeded => 3
      case InvalidRequest => 4
      case OverQueryLimit => 5
      case RequestDenied => 6
      case UnknownError => 7
      case BadAPIURL => 8
      case BadJSONFormatting => 9
      case MissingStatusCode => 10
    }

    /** The human-readable message of the status; only OK reads "OK". */
    function Description(): (d: string)
      ensures |d| > 0
      ensures d == "OK" <==> this == OK
    {
      match this
      case OK => "OK"
      case NotFound => NotFoundMessage
      case ZeroResults => ZeroResultsMessage
      case MaxWaypointsExceeded => MaxWaypointsExceededMessage
      case InvalidRequest => InvalidRequestMessage
      case OverQueryLimit => OverQueryLimitMessage
      case RequestDenied => RequestDeniedMessage
      case UnknownError => UnknownErrorMessage
      case BadAPIURL => BadAPIURLMessage
      case BadJSONFormatting => BadJSONFormattingMessage
      case MissingStatusCode => MissingStatusCodeMessage
    }

    /** Whether the status reports a failure: every status but the one whose raw value is 0. */
    function Failed(): (f: bool)
      ensures f <==> RawValue() != 0
    {
      this != OK
    }

    /** The statuses that the client raises itself and the server never sends. */
    predicate IsClientStatus() {
      this == BadAPIURL || this == BadJSONFormatting || this == MissingStatusCode
    }

    /**
     Decodes the status field of a response. Total: a token outside the
     server's vocabulary falls back to UnknownError, and a client-only status
     never comes out of it. Tokens are compared as Swift compares strings, up
     to canonical equivalence.
     */
    static function ErrorFromStatus(status: string): (e: DirectionsError)
      ensures CanonicalFold(status) in StatusTable ==> e == StatusTable[CanonicalFold(status)]
      ensures CanonicalFold(status) !in StatusTable ==> e == UnknownError
      ensures !e.IsClientStatus()
      ensures e.Failed() <==> CanonicalFold(status) != "OK"
    {
      match CanonicalFold(status)
      case "OK" => OK
      case "NOT_FOUND" => NotFound
      case "ZERO_RESULTS" => ZeroResults
      case "MAX_WAYPOINTS_EXCEEDED" => MaxWaypointsExceeded
      case "INVALID_REQUEST" => InvalidRequest
      case "OVER_QUERY_LIMIT" => OverQueryLimit
      case "REQUEST_DENIED" => RequestDenied
      case "UNKNOWN_ERROR" => UnknownError
      case _ => UnknownError
    }
  }

  /** The messages of the failure statuses, one per case. */
  const NotFoundMessage: string := "At least one of the locations specified in the request's origin, destination, or waypoints could not be geocoded"
  const ZeroResultsMessage: string := "No route could be found between the origin and destination"
  const MaxWaypointsExceededMessage: string := "Too many waypointss were provided in the request"
  const InvalidRequestMessage: string := "The provided request was invalid"
  const OverQueryLimitMessage: string := "The service has received too many requests from this application within the allowed time period"
  const RequestDeniedMessage: string := "The service denied use of the directions service by this application"
  const UnknownErrorMessage: string := "The directions request could not be processed due to a server error"
  const BadAPIURLMessage: string := "Unable to build a suitable URL for API request"
  const BadJSONFormattingMessage: string := "Unable to parse JSON data returned from the API"
  const MissingStatusCodeMessage: string := "Response status code unexpectedly missing from the response payload"

  /** The eleven statuses in declaration order. */
  const AllErrors: seq<DirectionsError> :=
    [OK, NotFound, ZeroResults, MaxWaypointsExceeded, InvalidRequest, OverQueryLimit,
     RequestDenied, UnknownError, BadAPIURL, BadJSONFormatting, MissingStatusCode]

  /** The server's status tokens and the status each one denotes. */
  ghost const StatusTable: map<string, DirectionsError> := map[
    "OK" := OK,
    "NOT_FOUND" := NotFound,
    "ZERO_RESULTS" := ZeroResults,
    "MAX_WAYPOINTS_EXCEEDED" := MaxWaypointsExceeded,
    "INVALID_REQUEST" := InvalidRequest,
    "OVER_QUERY_LIMIT" := OverQueryLimit,
    "REQUEST_DENIED" := RequestDenied,
    "UNKNOWN_ERROR" := UnknownError
  ]

  /** Raw values number the cases 0 to 10 in declaration order, and every case is listed once. */
  lemma RawValuesFollowDeclarationOrder()
    ensures |AllErrors| == 11
    ensures forall i :: 0 <= i < |AllErrors| ==> AllErrors[i].RawValue() == i
    ensures forall e: DirectionsError :: e in AllErrors
  {
    forall e: DirectionsError ensures e in AllErrors {
      assert AllErrors[e.RawValue()] == e;
    }
  }

  /** Distinct statuses have distinct raw values. */
  lemma RawValueInjective(a: DirectionsError, b: DirectionsError)
    ensures a.RawValue() == b.RawValue() ==> a == b
  {
  }

  /** Distinct statuses have distinct messages. */
  lemma ErrorDescriptionInjective(a: DirectionsError, b: DirectionsError)
    ensures a.Description() == b.Description() ==> a == b
  {
  }

  /** Distinct server tokens denote distinct statuses. */
  lemma StatusTableInjective(s: string, t: string)
    requires s in StatusTable && t in StatusTable
    ensures StatusTable[s] == StatusTable[t] ==> s == t
  {
  }

  /** Each server token, spelled as the server spells it, decodes to the status the table gives it. */
  lemma StatusTokensDecode(token: string)
    requires token in StatusTable
    ensures DirectionsError.ErrorFromStatus(token) == StatusTable[token]
  {
    assert IsAscii(token);
  }

  /**
   The statuses the decoder can produce are exactly the server statuses:
   each of those has a token that decodes to it, and no token decodes to a
   client-only status.
   */
  lemma ErrorFromStatusReaches(e: DirectionsError)
    ensures (exists s :: DirectionsError.ErrorFromStatus(s) == e) <==> !e.IsClientStatus()
  {
    var token: string :=
      match e
      case OK => "OK"
      case NotFound => "NOT_FOUND"
      case ZeroResults => "ZERO_RESULTS"
      case MaxWaypointsExceeded => "MAX_WAYPOINTS_EXCEEDED"
      case InvalidRequest => "INVALID_REQUEST"
      case OverQueryLimit => "OVER_QUERY_LIMIT"
      case RequestDenied => "REQUEST_DENIED"
      case _ => "UNKNOWN_ERROR";
    if !e.IsClientStatus() {
      assert DirectionsError.ErrorFromStatus(token) == e;
    }
  }

  // ---------------------------------------------------------------------------
  // Travel mode
  // ---------------------------------------------------------------------------

  /** The mode of transport used when computing directions. */
  datatype Mode = Driving | Walking | Bicycling | Transit
  {
    /** The query-parameter token of the mode: a lowercase word. */
    function Description(): (d: string)
      ensures IsLowerWord(d)
    {
      match this
      case Driving => "driving"
      case Walking => "walking"
      case Bicycling => "bicycling"
      case Transit => "transit"
    }

    /**
     Decodes a mode label of a response. Partial: only the four uppercase
     labels are accepted, anything else gives None. Labels are compared as
     Swift compares strings, up to canonical equivalence.
     */
    static function ModeFromLabel(modeLabel: string): (r: Option<Mode>)
      ensures r.Some? <==> CanonicalFold(modeLabel) in ModeTable
      ensures r.Some? ==> r.value == ModeTable[CanonicalFold(modeLabel)] && IsUpperSnake(CanonicalFold(modeLabel))
    {
      match CanonicalFold(modeLabel)
      case "DRIVING" => Some(Driving)
      case "WALKING" => Some(Walking)
      case "BICYCLING" => Some(Bicycling)
      case "TRANSIT" => Some(Transit)
      case _ => None
    }
  }

  /** The mode labels the decoder accepts and the mode each one denotes. */
  ghost const ModeTable: map<string, Mode> := map[
    "DRIVING" := Driving,
    "WALKING" := Walking,
    "BICYCLING" := Bicycling,
    "TRANSIT" := Transit
  ]

  /** Distinct mode labels denote distinct modes. */
  lemma ModeTableInjective(s: string, t: string)
    requires s in ModeTable && t in ModeTable
    ensures ModeTable[s] == ModeTable[t] ==> s == t
  {
  }

  /** Distinct modes have distinct tokens. */
  lemma ModeDescriptionInjective(a: Mode, b: Mode)
    ensures a.Description() == b.Description() ==> a == b
  {
  }

  /** Every mode has a label that decodes to it. */
  lemma ModeFromLabelReaches(m: Mode)
    ensures exists modeLabel :: Mode.ModeFromLabel(modeLabel) == Some(m)
  {
    match m
    case Driving => assert Mode.ModeFromLabel("DRIVING") == Some(m);
    case Walking => assert Mode.ModeFromLabel("WALKING") == Some(m);
    case Bicycling => assert Mode.ModeFromLabel("BICYCLING") == Some(m);
    case Transit => assert Mode.ModeFromLabel("TRANSIT") == Some(m);
  }

  /** The token of a decoded mode is its label, folded to ASCII, in lowercase. */
  lemma DecodedModeDescriptionIsLowercaseLabel(modeLabel: string)
    requires Mode.ModeFromLabel(modeLabel).Some?
    ensures Mode.ModeFromLabel(modeLabel).value.Description() == ToLower(CanonicalFold(modeLabel))
  {
  }

  /**
   The decoder rejects every token the encoder produces: labels are uppercase
   and tokens lowercase, so encoding then decoding a mode never gives it back.
   */
  lemma ModeDescriptionIsNotALabel(m: Mode)
    ensures Mode.ModeFromLabel(m.Description()) == None
  {
    var d := m.Description();
    assert IsAscii(d);
    if Mode.ModeFromLabel(d).Some? {
      UpperSnakeIsNotLowerWord(d);
    }
  }

  /**
   A status or a mode label that spells 'K' as KELVIN SIGN (U+212A) is still
   recognised, since Swift's string equality treats the two as equal.
   */
  lemma KelvinSignSpellingsDecode()
    ensures DirectionsError.ErrorFromStatus("O\U{212A}") == OK
    ensures Mode.ModeFromLabel("WAL\U{212A}ING") == Some(Walking)
  {
    var folded := CanonicalFold("WAL\U{212A}ING");
    assert folded[3] == 'K';
    assert folded == "WALKING";
  }

  // ---------------------------------------------------------------------------
  // Request-only options
  // ---------------------------------------------------------------------------

  /** Road features a route should avoid. */
  datatype Feature = Tolls | Highways | Ferries
  {
    /** The query-parameter token of the feature: a lowercase word. */
    function Description(): (d: string)
      ensures IsLowerWord(d)
    {
      match this
      case Tolls => "tolls"
      case Highways => "highways"
      case Ferries => "ferries"
    }
  }

  /** Distinct features have distinct tokens. */
  lemma FeatureDescriptionInjective(a: Feature, b: Feature)
    ensures a.Description() == b.Description() ==> a == b
  {
  }

  /** The unit system used for textual distances. */
  datatype Unit = Metric | Imperial
  {
    /** The query-parameter token of the unit system: a lowercase word. */
    function Description(): (d: string)
      ensures IsLowerWord(d)
    {
      match this
      case Metric => "metric"
      case Imperial => "imperial"
    }
  }

  /** Distinct unit systems have distinct tokens. */
  lemma UnitDescriptionInjective(a: Unit, b: Unit)
    ensures a.Description() == b.Description() ==> a == b
  {
  }

  /** Preferred modes of public transport. */
  datatype TransitMode = Bus | Subway | Train | Tram | Rail
  {
    /** The query-parameter token of the transit mode: a lowercase word. */
    function Description(): (d: string)
      ensures IsLowerWord(d)
    {
      match this
      case Bus => "bus"
      case Subway => "subway"
      case Train => "train"
      case Tram => "tram"
      case Rail => "rail"
    }
  }

  /** Distinct transit modes have distinct tokens. */
  lemma TransitModeDescriptionInjective(a: TransitMode, b: TransitMode)
    ensures a.Description() == b.Description() ==> a == b
  {
  }

  /** Biases for transit routes. */
  datatype TransitRoutingPreference = LessWalking | FewerTransfers
  {
    /** The query-parameter token of the preference: lowercase snake case with an underscore. */
    function Description(): (d: string)
      ensures IsLowerSnake(d)
      ensures '_' in d
    {
      match this
      case LessWalking => "less_walking"
      case FewerTransfers => "fewer_transfers"
    }
  }

  /** Distinct routing preferences have distinct tokens. */
  lemma TransitRoutingPreferenceDescriptionInjective(a: TransitRoutingPreference, b: TransitRoutingPreference)
    ensures a.Description() == b.Description() ==> a == b
  {
  }

  // ---------------------------------------------------------------------------
  // Vehicle type
  // ---------------------------------------------------------------------------

  /** The kind of vehicle running on a transit line. */
  datatype VehicleType =
    | Rail
    | MetroRail
    | Subway
    | Tram
    | Monorail
    | HeavyRail
    | CommuterTrain
    | HighSpeedTrain
    | Bus
    | IntercityBus
    | Trolleybus
    | ShareTaxi
    | Ferry
    | CableCar
    | GondolaLift
    | Funicular
    | Other
  {
    /**
     Decodes the vehicle type of a transit line. Total: a token outside the
     vocabulary falls back to Other, as does "OTHER" itself. No token contains
     'K', ';' or '`', the only ASCII characters with a canonically equivalent
     non-ASCII spelling, so comparing scalar by scalar agrees with Swift's
     string equality here.
     */
    static function VehicleTypeFromValue(value: string): (v: VehicleType)
      ensures value in VehicleTable ==> v == VehicleTable[value]
      ensures value !in VehicleTable ==> v == VehicleType.Other
    {
      match value
      case "RAIL" => VehicleType.Rail
      case "METRO_RAIL" => VehicleType.MetroRail
      case "SUBWAY" => VehicleType.Subway
      case "TRAM" => VehicleType.Tram
      case "MONORAIL" => VehicleType.Monorail
      case "HEAVY_RAIL" => VehicleType.HeavyRail
      case "COMMUTER_TRAIN" => VehicleType.CommuterTrain
      case "HIGH_SPEED_TRAIN" => VehicleType.HighSpeedTrain
      case "BUS" => VehicleType.Bus
      case "INTERCITY_BUS" => VehicleType.IntercityBus
      case "TROLLEYBUS" => VehicleType.Trolleybus
      case "SHARE_TAXI" => VehicleType.ShareTaxi
      case "FERRY" => VehicleType.Ferry
      case "CABLE_CAR" => VehicleType.CableCar
      case "GONDOLA_LIFT" => VehicleType.GondolaLift
      case "FUNICULAR" => VehicleType.Funicular
      case "OTHER" => VehicleType.Other
      case _ => VehicleType.Other
    }
  }

  /** The seventeen vehicle-type tokens and the case each one denotes. */
  ghost const VehicleTable: map<string, VehicleType> := map[
    "RAIL" := VehicleType.Rail,
    "METRO_RAIL" := VehicleType.MetroRail,
    "SUBWAY" := VehicleType.Subway,
    "TRAM" := VehicleType.Tram,
    "MONORAIL" := VehicleType.Monorail,
    "HEAVY_RAIL" := VehicleType.HeavyRail,
    "COMMUTER_TRAIN" := VehicleType.CommuterTrain,
    "HIGH_SPEED_TRAIN" := VehicleType.HighSpeedTrain,
    "BUS" := VehicleType.Bus,
    "INTERCITY_BUS" := VehicleType.IntercityBus,
    "TROLLEYBUS" := VehicleType.Trolleybus,
    "SHARE_TAXI" := VehicleType.ShareTaxi,
    "FERRY" := VehicleType.Ferry,
    "CABLE_CAR" := VehicleType.CableCar,
    "GONDOLA_LIFT" := VehicleType.GondolaLift,
    "FUNICULAR" := VehicleType.Funicular,
    "OTHER" := VehicleType.Other
  ]

  /** Distinct vehicle-type tokens denote distinct cases. */
  lemma VehicleTableInjective(s: string, t: string)
    requires s in VehicleTable && t in VehicleTable
    ensures VehicleTable[s] == VehicleTable[t] ==> s == t
  {
  }

  /** Vehicle-type tokens are ASCII and contain no 'K', ';' or '`'. */
  lemma VehicleTokensHaveNoFoldTarget(token: string)
    requires token in VehicleTable
    ensures IsAscii(token)
    ensures forall i :: 0 <= i < |token| ==> !IsFoldTarget(token[i])
  {
    assert forall i :: 0 <= i < |token| ==> (IsUpperLetter(token[i]) && token[i] != 'K') || token[i] == '_';
  }

  /**
   Folding the input first would not change the decoding: a string whose fold
   is a vehicle-type token contains no character that folds, so it is that
   token already. Comparing scalar by scalar therefore agrees with Swift's
   string equality for this decoder.
   */
  lemma VehicleTypeFromValueIgnoresFold(value: string)
    ensures VehicleType.VehicleTypeFromValue(value) == VehicleType.VehicleTypeFromValue(CanonicalFold(value))
  {
    var folded := CanonicalFold(value);
    if folded in VehicleTable {
      VehicleTokensHaveNoFoldTarget(folded);
      FoldWithoutTargetsIsIdentity(value);
    } else if value in VehicleTable {
      VehicleTokensHaveNoFoldTarget(value);
      assert false;
    }
  }

  /** Every vehicle type, Other included, has a token that decodes to it. */
  lemma VehicleTypeFromValueReaches(v: VehicleType)
    ensures exists s :: VehicleType.VehicleTypeFromValue(s) == v
  {
    var token: string :=
      match v
      case Rail => "RAIL"
      case MetroRail => "METRO_RAIL"
      case Subway => "SUBWAY"
      case Tram => "TRAM"
      case Monorail => "MONORAIL"
      case HeavyRail => "HEAVY_RAIL"
      case CommuterTrain => "COMMUTER_TRAIN"
      case HighSpeedTrain => "HIGH_SPEED_TRAIN"
      case Bus => "BUS"
      case IntercityBus => "INTERCITY_BUS"
      case Trolleybus => "TROLLEYBUS"
      case ShareTaxi => "SHARE_TAXI"
      case Ferry => "FERRY"
      case CableCar => "CABLE_CAR"
      case GondolaLift => "GONDOLA_LIFT"
      case Funicular => "FUNICULAR"
      case Other => "OTHER";
    assert VehicleType.VehicleTypeFromValue(token) == v;
  }
}
