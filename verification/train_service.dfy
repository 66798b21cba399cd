/**
  `services/train_service.py`: the client of the train-data HTTP API.

  Every public method validates its identifiers, builds the parameters of
  exactly one request, and then either echoes the request back (debug mode)
  or sends it. The model splits each method into a `Plan`, which is a
  rejection or the request to send, and a shared `Invoke`, which
  carries the plan out. The HTTP round trip (`requests.get(...).json()`)
  is a `Transport` parameter. Arguments arrive as decoded JSON values,
  because they come from the language model's answer, and a non-string
  identifier makes the validator raise `TypeError`.
*/
module TrainService {
  import opened Wrappers
  import opened Text
  import opened Json
  import opened Calendar
  import opened DateService
  import opened Helpers
  import Constants

  const BaseUrl := "https://irctc1.p.rapidapi.com"

  const SearchTrainPath := "api/v1/searchTrain"
  const SearchStationPath := "api/v1/searchStation"
  const TrainsBetweenPath := "api/v3/trainBetweenStations"
  const LiveStatusPath := "api/v1/liveTrainStatus"
  const SchedulePath := "api/v1/getTrainSchedule"
  const PnrStatusPath := "api/v3/getPNRStatus"
  const SeatAvailabilityPath := "api/v1/checkSeatAvailability"
  const TrainClassesPath := "api/v1/getTrainClasses"
  const FarePath := "api/v2/getFare"

  const InvalidTrainNumber := "Invalid train number format"
  const InvalidPnr := "Invalid PNR number format"
  const InvalidStationCode := "Invalid station code format"

  /** The defaults of `get_live_train_status` and `check_seat_availability`. */
  const DefaultStartDay := "1"
  const DefaultQuota := "GN"

  /** One GET request: the path under `BaseUrl` and the query parameters. */
  datatype Request = Request(endpoint: string, params: map<string, string>) {
    function Url(): string { BaseUrl + "/" + endpoint }
  }

  /** What the HTTP round trip gives: the decoded body, or the message of
      the exception raised while sending or decoding. */
  datatype Response = Body(body: Value) | Raised(message: string)

  type Transport = Request -> Response

  /** `DEBUG_MODE`, and `json.dumps(params, indent=2)`, whose text depends
      on key order and is supplied from outside. */
  datatype Config = Config(debugMode: bool, dumps: map<string, string> -> string)

  /** The result dictionary of a method, and the request it sent, if any. */
  datatype Call = Call(result: Value, sent: Option<Request>)

  /** `{'success': False, 'error': error}` */
  function ErrorResult(error: string): (v: Value)
    ensures v.Obj? && v.fields.Keys == {"success", "error"}
    ensures v.fields["success"] == Bool(false) && v.fields["error"] == Str(error)
  {
    Obj(map["success" := Bool(false), "error" := Str(error)])
  }

  /** `{'success': False, 'error': error, 'details': details}` */
  function ErrorWithDetails(error: string, details: string): (v: Value)
    ensures v.Obj? && v.fields.Keys == {"success", "error", "details"}
    ensures v.fields["success"] == Bool(false) && v.fields["error"] == Str(error)
    ensures v.fields["details"] == Str(details)
  {
    Obj(map["success" := Bool(false), "error" := Str(error), "details" := Str(details)])
  }

  // ---------------------------------------------------------------------
  // Python operations on the arguments

  /** `re.match(pattern, v)`: only a string can be matched. */
  function MatchArg(v: Value): (r: Result<string, PyError>)
    ensures v.Str? <==> r.Success?
    ensures v.Str? ==> r.value == v.s
  {
    match v
    case Str(s) => Success(s)
    case _ => Failure(TypeError("expected string or bytes-like object, got '" + TypeName(v) + "'"))
  }

  /** `v.upper()` */
  function UpperArg(v: Value): (r: Result<string, PyError>)
    ensures v.Str? <==> r.Success?
    ensures v.Str? ==> r.value == Upper(v.s)
  {
    match v
    case Str(s) => Success(Upper(s))
    case _ => Failure(AttributeError(TypeName(v), "upper"))
  }

  /** `is_valid_train_number(v)` on any value. */
  function TrainNumberCheck(v: Value): Result<bool, PyError> {
    match MatchArg(v)
    case Success(s) => Success(IsValidTrainNumber(s))
    case Failure(e) => Failure(e)
  }

  /** `all(is_valid_station_code(code) for code in [a, b])`: stops at the
      first invalid code, so a non-string second code only raises when the
      first is valid. */
  function StationsCheck(a: Value, b: Value): (r: Result<bool, PyError>)
    ensures a.Str? && b.Str? ==> r == Success(IsValidStationCode(a.s) && IsValidStationCode(b.s))
    ensures r == Success(true) ==> a.Str? && b.Str? && IsValidStationCode(a.s) && IsValidStationCode(b.s)
  {
    match MatchArg(a)
    case Failure(e) => Failure(e)
    case Success(x) =>
      if !IsValidStationCode(x) then Success(false)
      else
        match MatchArg(b)
        case Failure(e) => Failure(e)
        case Success(y) => Success(IsValidStationCode(y))
  }

  /** Upper-casing leaves a valid station code as it is. */
  lemma UpperOfValidStation(code: string)
    requires IsValidStationCode(code)
    ensures Upper(code) == code
  {
    var t := BeforeFinalNewline(code);
    forall i | 0 <= i < |code| ensures UpperChar(code[i]) == code[i] {
      if i < |t| {
        assert IsUpperLetter(t[i]);
        assert code[i] == t[i];
      }
    }
  }

  // ---------------------------------------------------------------------
  // The date of `get_trains_between_stations`

  /** The day of `dateOfJourney` as chosen by the inner `try` of
      `get_trains_between_stations` from the server's local date: a missing
      or falsy date means today, `today` and `tomorrow` are words in any
      case, a `Y-m-d` string is read as that day, an unreadable string falls
      back to today, and a non-string truthy value sets no date at all. */
  function DayOfJourney(date: Value, clock: Clock): (r: Option<Ordinal>)
    requires clock.Valid()
    ensures !Truthy(date) ==> r == Some(clock.localToday)
    ensures Truthy(date) && !date.Str? ==> r == None
    ensures date.Str? && Lower(date.s) == "tomorrow" ==> r == Some(clock.localToday + 1)
    ensures date.Str? && Lower(date.s) == "today" ==> r == Some(clock.localToday)
    ensures date.Str? && Lower(date.s) != "tomorrow" && Lower(date.s) != "today" ==>
      r == Some(ParseIsoDate(date.s).GetOr(clock.localToday))
  {
    var today: Ordinal := clock.localToday;
    if !date.Str? then (if Truthy(date) then None else Some(today))
    else if !Truthy(date) then Some(today)
    else if Lower(date.s) == "tomorrow" then Some(today + 1)
    else if Lower(date.s) == "today" then Some(today)
    else Some(ParseIsoDate(date.s).GetOr(today))
  }

  /** The date sent is its own reading: giving the rendered day back as
      the date picks the same day. */
  lemma DayOfJourneyIdempotent(day: Ordinal, clock: Clock)
    requires clock.Valid()
    ensures DayOfJourney(Str(IsoFormat(day)), clock) == Some(day)
  {
    var s := IsoFormat(day);
    IsoFormatRoundTrip(day);
    var c := FromOrdinal(day);
    assert s[0] == ZeroPad(c.year, 4)[0];
    assert Lower(s)[0] == s[0];
    assert Lower(s) != "tomorrow" && Lower(s) != "today";
  }

  // ---------------------------------------------------------------------
  // Plans

  /** How the response of a sent request becomes the method's result. */
  datatype Delivery =
    | ViaMakeRequest          // `return self._make_request(endpoint, params)`
    | Direct                  // `requests.get` in the method itself
    | WithDateInfo(info: DateInfo)   // `_make_request`, then `date_info` is attached

  /** A method's decision before anything is sent. */
  datatype Plan =
    | Reject(result: Value)
    | Send(queryType: string, request: Request, delivery: Delivery)

  /** The shape shared by the methods that take only a train number. */
  function PlanTrainNumberOnly(trainNumber: Value, failure: string, queryType: string, endpoint: string,
                               extra: map<string, string>): (p: Plan)
    requires "trainNo" !in extra
    ensures !trainNumber.Str? ==> p.Reject? && p.result == ErrorWithDetails(failure, MatchArg(trainNumber).error.Message())
    ensures trainNumber.Str? && !IsValidTrainNumber(trainNumber.s) ==> p == Reject(ErrorResult(InvalidTrainNumber))
    ensures p.Send? <==> trainNumber.Str? && IsValidTrainNumber(trainNumber.s)
    ensures p.Send? ==> p == Send(queryType, Request(endpoint, extra["trainNo" := trainNumber.s]), ViaMakeRequest)
  {
    match MatchArg(trainNumber)
    case Failure(e) => Reject(ErrorWithDetails(failure, e.Message()))
    case Success(n) =>
      if !IsValidTrainNumber(n) then Reject(ErrorResult(InvalidTrainNumber))
      else Send(queryType, Request(endpoint, extra["trainNo" := n]), ViaMakeRequest)
  }

  /** `search_train` */
  function PlanSearchTrain(trainNumber: Value): (p: Plan)
    ensures !trainNumber.Str? ==> p.Reject? && p.result == ErrorWithDetails("Failed to search train", MatchArg(trainNumber).error.Message())
    ensures trainNumber.Str? && !IsValidTrainNumber(trainNumber.s) ==> p == Reject(ErrorResult(InvalidTrainNumber))
    ensures p.Send? <==> trainNumber.Str? && IsValidTrainNumber(trainNumber.s)
    ensures p.Send? ==> p == Send("train_search", Request(SearchTrainPath, map["query" := trainNumber.s]), ViaMakeRequest)
  {
    match MatchArg(trainNumber)
    case Failure(e) => Reject(ErrorWithDetails("Failed to search train", e.Message()))
    case Success(n) =>
      if !IsValidTrainNumber(n) then Reject(ErrorResult(InvalidTrainNumber))
      else Send("train_search", Request(SearchTrainPath, map["query" := n]), ViaMakeRequest)
  }

  /** `search_station`: no validation, only upper-casing. */
  function PlanSearchStation(stationCode: Value): (p: Plan)
    ensures p.Send? <==> stationCode.Str?
    ensures !stationCode.Str? ==> p == Reject(ErrorWithDetails("Failed to search station", UpperArg(stationCode).error.Message()))
    ensures p.Send? ==> p == Send("station_search", Request(SearchStationPath, map["query" := Upper(stationCode.s)]), ViaMakeRequest)
  {
    match UpperArg(stationCode)
    case Failure(e) => Reject(ErrorWithDetails("Failed to search station", e.Message()))
    case Success(u) => Send("station_search", Request(SearchStationPath, map["query" := u]), ViaMakeRequest)
  }

  /** The parameter names that share a length differ in their first letter. */
  lemma ParamNamesDistinct()
    ensures "pnrNumber" != "classType" && "dateOfJourney" != "toStationCode"
  {
    assert "pnrNumber"[0] != "classType"[0];
    assert "dateOfJourney"[0] != "toStationCode"[0];
  }

  /** The parameters of `get_trains_between_stations`: the two codes, and
      the day when one was chosen. */
  function JourneyParams(fromStation: string, toStation: string, day: Option<Ordinal>): (params: map<string, string>)
    ensures params.Keys == {"fromStationCode", "toStationCode"} + (if day.Some? then {"dateOfJourney"} else {})
    ensures params["fromStationCode"] == fromStation && params["toStationCode"] == toStation
    ensures day.Some? ==> params["dateOfJourney"] == IsoFormat(day.value)
  {
    ParamNamesDistinct();
    var base := map["fromStationCode" := fromStation, "toStationCode" := toStation];
    match day
    case Some(d) => base["dateOfJourney" := IsoFormat(d)]
    case None => base
  }

  /** `get_trains_between_stations` */
  function PlanTrainsBetween(fromStation: Value, toStation: Value, date: Value, clock: Clock): (p: Plan)
    requires clock.Valid()
    ensures fromStation.Str? && toStation.Str?
      && !(IsValidStationCode(fromStation.s) && IsValidStationCode(toStation.s))
      ==> p == Reject(ErrorResult(InvalidStationCode))
    ensures p.Send? <==> StationsCheck(fromStation, toStation) == Success(true)
    ensures p.Send? ==> p.queryType == "train_search" && p.request.endpoint == TrainsBetweenPath && p.delivery == Direct
    ensures p.Send? ==> p.request.params == JourneyParams(fromStation.s, toStation.s, DayOfJourney(date, clock))
  {
    match StationsCheck(fromStation, toStation)
    case Failure(e) => Reject(ErrorWithDetails("Failed to get trains between stations", e.Message()))
    case Success(ok) =>
      if !ok then Reject(ErrorResult(InvalidStationCode))
      else
        UpperOfValidStation(fromStation.s);
        UpperOfValidStation(toStation.s);
        Send("train_search", Request(TrainsBetweenPath,
          JourneyParams(Upper(fromStation.s), Upper(toStation.s), DayOfJourney(date, clock))), Direct)
  }

  /** `get_live_train_status` */
  function PlanLiveStatus(trainNumber: Value, startDay: string): (p: Plan)
    ensures p.Send? <==> trainNumber.Str? && IsValidTrainNumber(trainNumber.s)
    ensures trainNumber.Str? && !IsValidTrainNumber(trainNumber.s) ==> p == Reject(ErrorResult(InvalidTrainNumber))
    ensures p.Send? ==> p.request == Request(LiveStatusPath, map["trainNo" := trainNumber.s, "startDay" := startDay])
  {
    var p := PlanTrainNumberOnly(trainNumber, "Failed to get live train status", "live_status", LiveStatusPath,
      map["startDay" := startDay]);
    assert p.Send? ==> p.request.params == map["trainNo" := trainNumber.s, "startDay" := startDay];
    p
  }

  /** `get_train_schedule` */
  function PlanSchedule(trainNumber: Value): (p: Plan)
    ensures p.Send? <==> trainNumber.Str? && IsValidTrainNumber(trainNumber.s)
    ensures trainNumber.Str? && !IsValidTrainNumber(trainNumber.s) ==> p == Reject(ErrorResult(InvalidTrainNumber))
    ensures p.Send? ==> p.request == Request(SchedulePath, map["trainNo" := trainNumber.s])
  {
    PlanTrainNumberOnly(trainNumber, "Failed to get train schedule", "train_schedule", SchedulePath, map[])
  }

  /** `get_train_classes` */
  function PlanTrainClasses(trainNumber: Value): (p: Plan)
    ensures p.Send? <==> trainNumber.Str? && IsValidTrainNumber(trainNumber.s)
    ensures trainNumber.Str? && !IsValidTrainNumber(trainNumber.s) ==> p == Reject(ErrorResult(InvalidTrainNumber))
    ensures p.Send? ==> p.request == Request(TrainClassesPath, map["trainNo" := trainNumber.s])
  {
    PlanTrainNumberOnly(trainNumber, "Failed to get train classes", "train_classes", TrainClassesPath, map[])
  }

  /** `check_pnr_status` */
  function PlanPnrStatus(pnrNumber: Value): (p: Plan)
    ensures p.Send? <==> pnrNumber.Str? && IsValidPnr(pnrNumber.s)
    ensures pnrNumber.Str? && !IsValidPnr(pnrNumber.s) ==> p == Reject(ErrorResult(InvalidPnr))
    ensures !pnrNumber.Str? ==> p.Reject? && p.result == ErrorWithDetails("Failed to check PNR status", MatchArg(pnrNumber).error.Message())
    ensures p.Send? ==> p == Send("pnr_status", Request(PnrStatusPath, map["pnrNumber" := pnrNumber.s]), ViaMakeRequest)
  {
    match MatchArg(pnrNumber)
    case Failure(e) => Reject(ErrorWithDetails("Failed to check PNR status", e.Message()))
    case Success(n) =>
      if !IsValidPnr(n) then Reject(ErrorResult(InvalidPnr))
      else Send("pnr_status", Request(PnrStatusPath, map["pnrNumber" := n]), ViaMakeRequest)
  }

  /** The rejection of a date that does not parse or lies outside the booking window. */
  function InvalidDate(): (v: Value)
    ensures v == ErrorWithDetails("Invalid date", "Please provide a valid future date")
  {
    ErrorWithDetails("Invalid date", "Please provide a valid future date")
  }

  /** The parameters of `check_seat_availability`. */
  function SeatParams(classType: string, fromStation: string, quota: string, toStation: string,
                      trainNo: string, date: string): (params: map<string, string>)
    ensures params.Keys == {"classType", "fromStationCode", "quota", "toStationCode", "trainNo", "date"}
    ensures params["trainNo"] == trainNo && params["date"] == date
    ensures params["fromStationCode"] == fromStation && params["toStationCode"] == toStation
    ensures params["classType"] == classType && params["quota"] == quota
  {
    map["classType" := classType, "fromStationCode" := fromStation, "quota" := quota,
        "toStationCode" := toStation, "trainNo" := trainNo, "date" := date]
  }

  /** `check_seat_availability` up to the request: train number first, then
      stations, then the date, then the class and quota. */
  function PlanSeatAvailability(trainNumber: Value, fromStation: Value, toStation: Value, date: Value,
                                classType: Value, quota: Value, clock: Clock, parse: string -> ParserOutcome): (p: Plan)
    requires clock.Valid()
    ensures trainNumber.Str? && !IsValidTrainNumber(trainNumber.s) ==> p == Reject(ErrorResult(InvalidTrainNumber))
    ensures trainNumber.Str? && IsValidTrainNumber(trainNumber.s) && fromStation.Str? && toStation.Str?
      && !(IsValidStationCode(fromStation.s) && IsValidStationCode(toStation.s))
      ==> p == Reject(ErrorResult(InvalidStationCode))
    ensures trainNumber.Str? && IsValidTrainNumber(trainNumber.s) && StationsCheck(fromStation, toStation) == Success(true)
      && !IsValidTravelDate(ParseDateTime(date, parse), clock)
      ==> p == Reject(InvalidDate())
    ensures p.Send? ==> && trainNumber.Str? && IsValidTrainNumber(trainNumber.s)
                        && StationsCheck(fromStation, toStation) == Success(true)
                        && IsValidTravelDate(ParseDateTime(date, parse), clock)
                        && classType.Str? && quota.Str?
    ensures p.Send? ==> && p.queryType == "seat_availability"
                        && p.delivery == WithDateInfo(ParseDateTime(date, parse))
                        && p.request.endpoint == SeatAvailabilityPath
    ensures p.Send? ==> p.request.params == SeatParams(Upper(classType.s), fromStation.s, Upper(quota.s), toStation.s,
                                                       trainNumber.s, ParseDateTime(date, parse).formatted.apiFormat)
  {
    match TrainNumberCheck(trainNumber)
    case Failure(e) => Reject(ErrorWithDetails("Failed to check seat availability", e.Message()))
    case Success(trainOk) =>
      if !trainOk then Reject(ErrorResult(InvalidTrainNumber))
      else match StationsCheck(fromStation, toStation)
        case Failure(e) => Reject(ErrorWithDetails("Failed to check seat availability", e.Message()))
        case Success(stationsOk) =>
          if !stationsOk then Reject(ErrorResult(InvalidStationCode))
          else
            var info := ParseDateTime(date, parse);
            if info.DateFailed? || !IsValidTravelDate(info, clock) then Reject(InvalidDate())
            else
              UpperOfValidStation(fromStation.s);
              UpperOfValidStation(toStation.s);
              PlanSeatRequest(trainNumber.s, Upper(fromStation.s), Upper(toStation.s), info, classType, quota)
  }

  /** The end of `check_seat_availability`: class and quota upper-cased
      into the request. */
  function PlanSeatRequest(trainNo: string, fromStation: string, toStation: string, info: DateInfo,
                           classType: Value, quota: Value): (p: Plan)
    requires info.DateOk?
    ensures p.Send? <==> classType.Str? && quota.Str?
    ensures p.Send? ==> && p.queryType == "seat_availability"
                        && p.delivery == WithDateInfo(info)
                        && p.request.endpoint == SeatAvailabilityPath
    ensures p.Send? ==> p.request.params == SeatParams(Upper(classType.s), fromStation, Upper(quota.s), toStation,
                                                       trainNo, info.formatted.apiFormat)
  {
    match UpperArg(classType)
    case Failure(e) => Reject(ErrorWithDetails("Failed to check seat availability", e.Message()))
    case Success(c) =>
      match UpperArg(quota)
      case Failure(e) => Reject(ErrorWithDetails("Failed to check seat availability", e.Message()))
      case Success(q) =>
        Send("seat_availability", Request(SeatAvailabilityPath,
          SeatParams(c, fromStation, q, toStation, trainNo, info.formatted.apiFormat)), WithDateInfo(info))
  }

  /** The parameters of `get_fare`. */
  function FareParams(trainNo: string, fromStation: string, toStation: string): (params: map<string, string>)
    ensures params.Keys == {"trainNo", "fromStationCode", "toStationCode"}
    ensures params["trainNo"] == trainNo
    ensures params["fromStationCode"] == fromStation && params["toStationCode"] == toStation
  {
    map["trainNo" := trainNo, "fromStationCode" := fromStation, "toStationCode" := toStation]
  }

  /** `get_fare`: train number first, then stations. */
  function PlanFare(trainNumber: Value, fromStation: Value, toStation: Value): (p: Plan)
    ensures trainNumber.Str? && !IsValidTrainNumber(trainNumber.s) ==> p == Reject(ErrorResult(InvalidTrainNumber))
    ensures trainNumber.Str? && IsValidTrainNumber(trainNumber.s) && fromStation.Str? && toStation.Str?
      && !(IsValidStationCode(fromStation.s) && IsValidStationCode(toStation.s))
      ==> p == Reject(ErrorResult(InvalidStationCode))
    ensures p.Send? <==> trainNumber.Str? && IsValidTrainNumber(trainNumber.s) && StationsCheck(fromStation, toStation) == Success(true)
    ensures p.Send? ==> p.queryType == "fare_check" && p.request.endpoint == FarePath && p.delivery == ViaMakeRequest
    ensures p.Send? ==> p.request.params == FareParams(trainNumber.s, fromStation.s, toStation.s)
  {
    match TrainNumberCheck(trainNumber)
    case Failure(e) => Reject(ErrorWithDetails("Failed to get fare details", e.Message()))
    case Success(trainOk) =>
      if !trainOk then Reject(ErrorResult(InvalidTrainNumber))
      else match StationsCheck(fromStation, toStation)
        case Failure(e) => Reject(ErrorWithDetails("Failed to get fare details", e.Message()))
        case Success(stationsOk) =>
          if !stationsOk then Reject(ErrorResult(InvalidStationCode))
          else
            UpperOfValidStation(fromStation.s);
            UpperOfValidStation(toStation.s);
            Send("fare_check", Request(FarePath, FareParams(trainNumber.s, Upper(fromStation.s), Upper(toStation.s))),
                 ViaMakeRequest)
  }

  // ---------------------------------------------------------------------
  // Carrying a plan out

  /** The methods of the client, with their arguments. */
  datatype ServiceCall =
    | SearchTrain(trainNumber: Value)
    | SearchStation(stationCode: Value)
    | TrainsBetween(fromStation: Value, toStation: Value, date: Value)
    | LiveStatus(trainNumber: Value, startDay: string)
    | Schedule(trainNumber: Value)
    | PnrStatus(pnrNumber: Value)
    | SeatAvailability(trainNumber: Value, fromStation: Value, toStation: Value, date: Value, classType: Value, quota: Value)
    | TrainClasses(trainNumber: Value)
    | Fare(trainNumber: Value, fromStation: Value, toStation: Value)

  /** The outside world a call sees. */
  datatype Env = Env(clock: Clock, parse: string -> ParserOutcome, transport: Transport)

  function PlanOf(call: ServiceCall, env: Env): Plan
    requires env.clock.Valid()
  {
    match call
    case SearchTrain(n) => PlanSearchTrain(n)
    case SearchStation(c) => PlanSearchStation(c)
    case TrainsBetween(a, b, d) => PlanTrainsBetween(a, b, d, env.clock)
    case LiveStatus(n, s) => PlanLiveStatus(n, s)
    case Schedule(n) => PlanSchedule(n)
    case PnrStatus(p) => PlanPnrStatus(p)
    case SeatAvailability(n, a, b, d, c, q) => PlanSeatAvailability(n, a, b, d, c, q, env.clock, env.parse)
    case TrainClasses(n) => PlanTrainClasses(n)
    case Fare(n, a, b) => PlanFare(n, a, b)
  }

  /** The description `format_debug_response` gives a query type. */
  function QueryDescription(queryType: string): string {
    if queryType == "train_search" then "search for trains"
    else if queryType == "pnr_status" then "check PNR status"
    else if queryType == "train_schedule" then "get train schedule"
    else if queryType == "live_status" then "check live train status"
    else if queryType == "seat_availability" then "check seat availability"
    else if queryType == "fare_check" then "check train fare"
    else "make a query"
  }

  /** `caption: params[key]` and a newline when `key` is present. */
  function ParamLine(params: map<string, string>, key: string, caption: string): string {
    if key in params then caption + ": " + params[key] + "\n" else ""
  }

  /** The `understanding` text of a debug response. */
  function Understanding(queryType: string, params: map<string, string>, dumps: map<string, string> -> string): string {
    "I understand you want to " + QueryDescription(queryType) + ".\n\n"
    + (if "fromStationCode" in params && "toStationCode" in params
       then "From: " + params["fromStationCode"] + "\n" + "To: " + params["toStationCode"] + "\n"
       else "")
    + ParamLine(params, "dateOfJourney", "Date")
    + ParamLine(params, "trainNo", "Train Number")
    + ParamLine(params, "pnrNumber", "PNR Number")
    + ParamLine(params, "classType", "Class")
    + ParamLine(params, "query", "Search Query")
    + ParamLine(params, "startDay", "Start Day")
    + ParamLine(params, "quota", "Quota")
    + ParamLine(params, "date", "Date")
    + "\nIn non-debug mode, I would make an API request to:\n"
    + "Endpoint: " + BaseUrl + "/api/v3/" + queryType + "\n"
    + "Parameters: " + dumps(params)
  }

  /** `format_debug_response` */
  function FormatDebugResponse(config: Config, queryType: string, params: map<string, string>): (v: Value)
    ensures v.Obj? && v.fields.Keys == {"success", "debug", "understanding", "query_type", "params"}
    ensures v.fields["success"] == Bool(true) && v.fields["debug"] == Bool(true)
    ensures v.fields["query_type"] == Str(queryType) && v.fields["params"] == Obj(StrDict(params))
    ensures v.fields["understanding"] == Str(Understanding(queryType, params, config.dumps))
  {
    var u := Understanding(queryType, params, config.dumps);
    Obj(map[
      "success" := Bool(true),
      "debug" := Bool(true),
      "understanding" := Str(u),
      "query_type" := Str(queryType),
      "params" := Obj(StrDict(params))])
  }

  /** `_make_request` after the transport: the body, or the exception as a failure. */
  function MakeRequest(response: Response): (v: Value)
    ensures response.Body? ==> v == response.body
    ensures response.Raised? ==> v == ErrorResult(response.message)
  {
    match response
    case Body(b) => b
    case Raised(m) => ErrorResult(m)
  }

  /** The result of a sent request, per delivery. */
  function Deliver(delivery: Delivery, response: Response): (v: Value)
    ensures delivery.ViaMakeRequest? ==> v == MakeRequest(response)
    ensures delivery.Direct? && response.Body? ==> v == response.body
    ensures delivery.Direct? && response.Raised? ==>
      v == ErrorWithDetails("Failed to get trains between stations", response.message)
    ensures delivery.WithDateInfo? && !MakeRequest(response).Obj? ==>
      v == ErrorWithDetails("Failed to check seat availability",
                            AttributeError(TypeName(MakeRequest(response)), "get").Message())
    ensures delivery.WithDateInfo? && MakeRequest(response).Obj? ==>
      var r := MakeRequest(response).fields;
      if Truthy(Get(r, "success", Bool(false)))
      then v == Obj(r["date_info" := DateInfoValue(delivery.info)])
      else v == MakeRequest(response)
  {
    match delivery
    case ViaMakeRequest => MakeRequest(response)
    case Direct =>
      (match response
       case Body(b) => b
       case Raised(m) => ErrorWithDetails("Failed to get trains between stations", m))
    case WithDateInfo(info) =>
      var r := MakeRequest(response);
      match PyGet(r, "success", Bool(false))
      case Failure(e) => ErrorWithDetails("Failed to check seat availability", e.Message())
      case Success(ok) => if Truthy(ok) then Obj(r.fields["date_info" := DateInfoValue(info)]) else r
  }

  /** A method of the client called with `call`'s arguments. */
  function Invoke(call: ServiceCall, config: Config, env: Env): (c: Call)
    requires env.clock.Valid()
    ensures PlanOf(call, env).Reject? ==> c == Call(PlanOf(call, env).result, None)
    ensures config.debugMode ==> c.sent == None
    ensures PlanOf(call, env).Send? && config.debugMode ==>
      c.result == FormatDebugResponse(config, PlanOf(call, env).queryType, PlanOf(call, env).request.params)
    ensures PlanOf(call, env).Send? && !config.debugMode ==> c.sent == Some(PlanOf(call, env).request)
    ensures c.sent.Some? ==>
      c.result == Deliver(PlanOf(call, env).delivery, env.transport(c.sent.value))
  {
    match PlanOf(call, env)
    case Reject(r) => Call(r, None)
    case Send(queryType, request, delivery) =>
      if config.debugMode then Call(FormatDebugResponse(config, queryType, request.params), None)
      else Call(Deliver(delivery, env.transport(request)), Some(request))
  }

  // ---------------------------------------------------------------------
  // Properties across the client

  /** The train-number argument of the methods that validate one. */
  function TrainNumberArg(call: ServiceCall): Option<Value> {
    match call
    case SearchTrain(n) => Some(n)
    case LiveStatus(n, _) => Some(n)
    case Schedule(n) => Some(n)
    case SeatAvailability(n, _, _, _, _, _) => Some(n)
    case TrainClasses(n) => Some(n)
    case Fare(n, _, _) => Some(n)
    case _ => None
  }

  /** A malformed train number is rejected before anything else, with no
      request, in debug mode or not. */
  lemma InvalidTrainNumberRejected(call: ServiceCall, config: Config, env: Env, n: string)
    requires env.clock.Valid()
    requires TrainNumberArg(call) == Some(Str(n)) && !IsValidTrainNumber(n)
    ensures Invoke(call, config, env) == Call(ErrorResult(InvalidTrainNumber), None)
  {
  }

  /** A malformed PNR is rejected with no request. */
  lemma InvalidPnrRejected(config: Config, env: Env, pnr: string)
    requires env.clock.Valid()
    requires !IsValidPnr(pnr)
    ensures Invoke(PnrStatus(Str(pnr)), config, env) == Call(ErrorResult(InvalidPnr), None)
  {
    assert PlanOf(PnrStatus(Str(pnr)), env) == PlanPnrStatus(Str(pnr));
  }

  /** The two station codes of a call, when it validates them. */
  function StationArgs(call: ServiceCall): Option<(Value, Value)> {
    match call
    case TrainsBetween(a, b, _) => Some((a, b))
    case SeatAvailability(_, a, b, _, _, _) => Some((a, b))
    case Fare(_, a, b) => Some((a, b))
    case _ => None
  }

  /** With a well-formed (or no) train number, a malformed station code is
      rejected with no request. */
  lemma InvalidStationRejected(call: ServiceCall, config: Config, env: Env, a: string, b: string)
    requires env.clock.Valid()
    requires StationArgs(call) == Some((Str(a), Str(b)))
    requires !(IsValidStationCode(a) && IsValidStationCode(b))
    requires TrainNumberArg(call).Some? ==> TrainNumberArg(call).value.Str? && IsValidTrainNumber(TrainNumberArg(call).value.s)
    ensures Invoke(call, config, env) == Call(ErrorResult(InvalidStationCode), None)
  {
    match call
    case TrainsBetween(x, y, d) =>
      assert PlanOf(call, env) == PlanTrainsBetween(x, y, d, env.clock);
    case SeatAvailability(n, x, y, d, c, q) =>
      assert PlanOf(call, env) == PlanSeatAvailability(n, x, y, d, c, q, env.clock, env.parse);
    case Fare(n, x, y) =>
      assert PlanOf(call, env) == PlanFare(n, x, y);
  }

  /** The fixed path each method targets. */
  function EndpointOf(call: ServiceCall): string {
    match call
    case SearchTrain(_) => SearchTrainPath
    case SearchStation(_) => SearchStationPath
    case TrainsBetween(_, _, _) => TrainsBetweenPath
    case LiveStatus(_, _) => LiveStatusPath
    case Schedule(_) => SchedulePath
    case PnrStatus(_) => PnrStatusPath
    case SeatAvailability(_, _, _, _, _, _) => SeatAvailabilityPath
    case TrainClasses(_) => TrainClassesPath
    case Fare(_, _, _) => FarePath
  }

  /** Identifiers in a request are well formed: train numbers, PNRs and
      station codes pass their validators and dates read back as days. */
  predicate WellFormedParams(params: map<string, string>) {
    && ("trainNo" in params ==> IsValidTrainNumber(params["trainNo"]))
    && ("pnrNumber" in params ==> IsValidPnr(params["pnrNumber"]))
    && ("fromStationCode" in params ==> IsValidStationCode(params["fromStationCode"]))
    && ("toStationCode" in params ==> IsValidStationCode(params["toStationCode"]))
    && ("dateOfJourney" in params ==> ParseIsoDate(params["dateOfJourney"]).Some?)
    && ("date" in params ==> ParseIsoDate(params["date"]).Some?)
  }

  /** A seat query's date lies in the booking window. */
  predicate DateInWindow(params: map<string, string>, clock: Clock) {
    "date" in params ==>
      match ParseIsoDate(params["date"])
      case Some(d) => clock.now <= MidnightUtc(d) <= clock.now + Constants.MaxFutureDays * MicrosPerDay
      case None => false
  }

  /** What a sending plan promises: the method's own path, validated
      identifiers, and a seat date in the booking window. */
  predicate WellFormedPlan(p: Plan, endpoint: string, clock: Clock) {
    p.Send? ==>
      && p.request.endpoint == endpoint
      && WellFormedParams(p.request.params)
      && DateInWindow(p.request.params, clock)
  }

  /** `WellFormedPlan` for the plan of a call and the call's own path. */
  predicate SendsWellFormed(call: ServiceCall, env: Env)
    requires env.clock.Valid()
  {
    WellFormedPlan(PlanOf(call, env), EndpointOf(call), env.clock)
  }

  /** The parameters of a journey query, given its validated codes. */
  lemma JourneyParamsWellFormed(fromStation: string, toStation: string, day: Option<Ordinal>, clock: Clock)
    requires IsValidStationCode(fromStation) && IsValidStationCode(toStation)
    ensures WellFormedParams(JourneyParams(fromStation, toStation, day))
    ensures DateInWindow(JourneyParams(fromStation, toStation, day), clock)
  {
    var params := JourneyParams(fromStation, toStation, day);
    if day.Some? {
      assert params.Keys == {"fromStationCode", "toStationCode", "dateOfJourney"};
      IsoFormatRoundTrip(day.value);
    } else {
      assert params.Keys == {"fromStationCode", "toStationCode"};
    }
    assert "trainNo" !in params && "pnrNumber" !in params && "date" !in params;
  }

  /** The parameters of a seat query, given its validated parts. */
  lemma SeatParamsWellFormed(classType: string, fromStation: string, quota: string,
                             toStation: string, trainNo: string, date: string)
    requires IsValidStationCode(fromStation) && IsValidStationCode(toStation) && IsValidTrainNumber(trainNo)
    requires ParseIsoDate(date).Some?
    ensures WellFormedParams(SeatParams(classType, fromStation, quota, toStation, trainNo, date))
  {
    var params := SeatParams(classType, fromStation, quota, toStation, trainNo, date);
    ParamNamesDistinct();
    assert "pnrNumber" !in params && "dateOfJourney" !in params;
  }

  /** The parameters of a fare query, given its validated parts. */
  lemma FareParamsWellFormed(trainNo: string, fromStation: string, toStation: string)
    requires IsValidStationCode(fromStation) && IsValidStationCode(toStation) && IsValidTrainNumber(trainNo)
    ensures WellFormedParams(FareParams(trainNo, fromStation, toStation))
  {
    var params := FareParams(trainNo, fromStation, toStation);
    ParamNamesDistinct();
    assert params.Keys == {"trainNo", "fromStationCode", "toStationCode"};
    assert "pnrNumber" !in params && "dateOfJourney" !in params && "date" !in params;
  }

  /** Parameters that hold a train number and perhaps a start day. */
  lemma TrainNumberParamsWellFormed(params: map<string, string>, trainNo: string, clock: Clock)
    requires IsValidTrainNumber(trainNo)
    requires "trainNo" in params && params["trainNo"] == trainNo
    requires params.Keys <= {"trainNo", "startDay"}
    ensures WellFormedParams(params) && DateInWindow(params, clock)
  {
  }

  lemma SearchTrainPlanWellFormed(n: Value, clock: Clock)
    ensures WellFormedPlan(PlanSearchTrain(n), SearchTrainPath, clock)
  {
    if PlanSearchTrain(n).Send? {
      assert PlanSearchTrain(n).request.params == map["query" := n.s];
    }
  }

  lemma SearchStationPlanWellFormed(c: Value, clock: Clock)
    ensures WellFormedPlan(PlanSearchStation(c), SearchStationPath, clock)
  {
    if PlanSearchStation(c).Send? {
      assert PlanSearchStation(c).request.params == map["query" := Upper(c.s)];
    }
  }

  lemma TrainsBetweenPlanWellFormed(a: Value, b: Value, d: Value, clock: Clock)
    requires clock.Valid()
    ensures WellFormedPlan(PlanTrainsBetween(a, b, d, clock), TrainsBetweenPath, clock)
  {
    if PlanTrainsBetween(a, b, d, clock).Send? {
      assert StationsCheck(a, b) == Success(true);
      JourneyParamsWellFormed(a.s, b.s, DayOfJourney(d, clock), clock);
    }
  }

  lemma LiveStatusPlanWellFormed(n: Value, startDay: string, clock: Clock)
    ensures WellFormedPlan(PlanLiveStatus(n, startDay), LiveStatusPath, clock)
  {
    if PlanLiveStatus(n, startDay).Send? {
      var params := PlanLiveStatus(n, startDay).request.params;
      assert params == map["trainNo" := n.s, "startDay" := startDay];
      TrainNumberParamsWellFormed(params, n.s, clock);
    }
  }

  lemma SchedulePlanWellFormed(n: Value, clock: Clock)
    ensures WellFormedPlan(PlanSchedule(n), SchedulePath, clock)
  {
    if PlanSchedule(n).Send? {
      TrainNumberParamsWellFormed(map["trainNo" := n.s], n.s, clock);
    }
  }

  lemma PnrStatusPlanWellFormed(pnr: Value, clock: Clock)
    ensures WellFormedPlan(PlanPnrStatus(pnr), PnrStatusPath, clock)
  {
    if PlanPnrStatus(pnr).Send? {
      var params := PlanPnrStatus(pnr).request.params;
      assert params == map["pnrNumber" := pnr.s];
      assert params["pnrNumber"] == pnr.s;
    }
  }

  lemma SeatAvailabilityPlanWellFormed(n: Value, a: Value, b: Value, d: Value, c: Value, q: Value,
                                       clock: Clock, parse: string -> ParserOutcome)
    requires clock.Valid()
    ensures WellFormedPlan(PlanSeatAvailability(n, a, b, d, c, q, clock, parse), SeatAvailabilityPath, clock)
  {
    var p := PlanSeatAvailability(n, a, b, d, c, q, clock, parse);
    if p.Send? {
      var info := ParseDateTime(d, parse);
      assert StationsCheck(a, b) == Success(true);
      assert IsValidTravelDate(info, clock);
      assert ParseIsoDate(info.formatted.apiFormat) == Some(info.date);
      SeatParamsWellFormed(Upper(c.s), a.s, Upper(q.s), b.s, n.s, info.formatted.apiFormat);
    }
  }

  lemma TrainClassesPlanWellFormed(n: Value, clock: Clock)
    ensures WellFormedPlan(PlanTrainClasses(n), TrainClassesPath, clock)
  {
    if PlanTrainClasses(n).Send? {
      TrainNumberParamsWellFormed(map["trainNo" := n.s], n.s, clock);
    }
  }

  lemma FarePlanWellFormed(n: Value, a: Value, b: Value, clock: Clock)
    ensures WellFormedPlan(PlanFare(n, a, b), FarePath, clock)
  {
    var p := PlanFare(n, a, b);
    if p.Send? {
      assert n.Str? && IsValidTrainNumber(n.s);
      assert StationsCheck(a, b) == Success(true);
      assert a.Str? && b.Str? && IsValidStationCode(a.s) && IsValidStationCode(b.s);
      FareParamsWellFormed(n.s, a.s, b.s);
      assert p.request.params == FareParams(n.s, a.s, b.s);
    }
  }

  /** Every method's plan, when it sends, is well formed. */
  lemma PlanWellFormed(call: ServiceCall, env: Env)
    requires env.clock.Valid()
    ensures SendsWellFormed(call, env)
  {
    var clock := env.clock;
    match call
    case SearchTrain(n) => SearchTrainPlanWellFormed(n, clock);
    case SearchStation(c) => SearchStationPlanWellFormed(c, clock);
    case TrainsBetween(a, b, d) => TrainsBetweenPlanWellFormed(a, b, d, clock);
    case LiveStatus(n, day) => LiveStatusPlanWellFormed(n, day, clock);
    case Schedule(n) => SchedulePlanWellFormed(n, clock);
    case PnrStatus(pnr) => PnrStatusPlanWellFormed(pnr, clock);
    case SeatAvailability(n, a, b, d, c, q) => SeatAvailabilityPlanWellFormed(n, a, b, d, c, q, clock, env.parse);
    case TrainClasses(n) => TrainClassesPlanWellFormed(n, clock);
    case Fare(n, a, b) => FarePlanWellFormed(n, a, b, clock);
  }

  /** Whatever is sent goes to the method's own path and carries only
      validated identifiers; a seat query's date lies in the booking window. */
  lemma SentRequestsWellFormed(call: ServiceCall, config: Config, env: Env)
    requires env.clock.Valid()
    requires Invoke(call, config, env).sent.Some?
    ensures Invoke(call, config, env).sent.value.endpoint == EndpointOf(call)
    ensures WellFormedParams(Invoke(call, config, env).sent.value.params)
    ensures DateInWindow(Invoke(call, config, env).sent.value.params, env.clock)
  {
    assert PlanOf(call, env).Send? && Invoke(call, config, env).sent.value == PlanOf(call, env).request;
    PlanWellFormed(call, env);
  }

  /** The request a seat query with valid identifiers and a date the parser
      places in the booking window sends. */
  function SeatRequest(n: string, a: string, b: string, d: string, c: string, q: string, parse: string -> ParserOutcome): Request
    requires parse(d).Parsed?
  {
    Request(SeatAvailabilityPath, SeatParams(Upper(c), a, Upper(q), b, n, IsoFormat(parse(d).at.day)))
  }

  /** A date the parser places in the booking window passes the date checks
      of `check_seat_availability`. */
  lemma SeatDateAccepted(d: string, clock: Clock, parse: string -> ParserOutcome)
    requires clock.Valid() && parse(d).Parsed?
    requires clock.now <= MidnightUtc(parse(d).at.day) <= clock.now + Constants.MaxFutureDays * MicrosPerDay
    ensures ParseDateTime(Str(d), parse).DateOk?
    ensures ParseDateTime(Str(d), parse).formatted.apiFormat == IsoFormat(parse(d).at.day)
    ensures IsValidTravelDate(ParseDateTime(Str(d), parse), clock)
  {
    assert ParseDateTime(Str(d), parse) == DateOk(parse(d).at.day, parse(d).at, FormatMoment(parse(d).at), IsWeekend(parse(d).at.day));
  }

  /** With valid identifiers and such a date, the seat plan sends. */
  lemma SeatPlanSends(n: string, a: string, b: string, d: string, c: string, q: string, clock: Clock, parse: string -> ParserOutcome)
    requires clock.Valid()
    requires IsValidTrainNumber(n) && IsValidStationCode(a) && IsValidStationCode(b)
    requires parse(d).Parsed?
    requires clock.now <= MidnightUtc(parse(d).at.day) <= clock.now + Constants.MaxFutureDays * MicrosPerDay
    ensures PlanSeatAvailability(Str(n), Str(a), Str(b), Str(d), Str(c), Str(q), clock, parse)
      == Send("seat_availability", SeatRequest(n, a, b, d, c, q, parse), WithDateInfo(ParseDateTime(Str(d), parse)))
  {
    SeatDateAccepted(d, clock, parse);
    assert StationsCheck(Str(a), Str(b)) == Success(true);
    UpperOfValidStation(a);
    UpperOfValidStation(b);
  }

  /** A seat query with valid identifiers and a date inside the booking
      window sends the upper-cased class and quota with the date in `Y-m-d`
      form, and attaches the parsed date's record to the response. */
  lemma SeatDelivery(n: string, a: string, b: string, d: string, c: string, q: string, config: Config, env: Env)
    requires env.clock.Valid() && !config.debugMode
    requires IsValidTrainNumber(n) && IsValidStationCode(a) && IsValidStationCode(b)
    requires env.parse(d).Parsed?
    requires env.clock.now <= MidnightUtc(env.parse(d).at.day) <= env.clock.now + Constants.MaxFutureDays * MicrosPerDay
    ensures ParseDateTime(Str(d), env.parse).DateOk?
    ensures var req := SeatRequest(n, a, b, d, c, q, env.parse);
      Invoke(SeatAvailability(Str(n), Str(a), Str(b), Str(d), Str(c), Str(q)), config, env)
        == Call(Deliver(WithDateInfo(ParseDateTime(Str(d), env.parse)), env.transport(req)), Some(req))
  {
    var call := SeatAvailability(Str(n), Str(a), Str(b), Str(d), Str(c), Str(q));
    SeatDateAccepted(d, env.clock, env.parse);
    SeatPlanSends(n, a, b, d, c, q, env.clock, env.parse);
    SeatPlanOf(call, env);
  }

  /** The plan of a seat call is the seat plan of its arguments. */
  lemma SeatPlanOf(call: ServiceCall, env: Env)
    requires env.clock.Valid() && call.SeatAvailability?
    ensures PlanOf(call, env) == PlanSeatAvailability(call.trainNumber, call.fromStation, call.toStation, call.date,
                                                       call.classType, call.quota, env.clock, env.parse)
  {
  }

  /** In debug mode a journey query between two valid codes answers with
      the journey parameters it would have sent. */
  lemma DebugTrainsBetween(from: string, to: string, date: Value, config: Config, env: Env)
    requires env.clock.Valid() && config.debugMode
    requires IsValidStationCode(from) && IsValidStationCode(to)
    ensures Invoke(TrainsBetween(Str(from), Str(to), date), config, env)
      == Call(FormatDebugResponse(config, "train_search", JourneyParams(from, to, DayOfJourney(date, env.clock))), None)
  {
    var call := TrainsBetween(Str(from), Str(to), date);
    TrainsBetweenSends(call, env, from, to);
  }

  /** Two valid codes send the journey parameters. */
  lemma TrainsBetweenSends(call: ServiceCall, env: Env, from: string, to: string)
    requires env.clock.Valid() && call.TrainsBetween?
    requires call.fromStation == Str(from) && call.toStation == Str(to)
    requires IsValidStationCode(from) && IsValidStationCode(to)
    ensures PlanOf(call, env)
      == Send("train_search", Request(TrainsBetweenPath, JourneyParams(from, to, DayOfJourney(call.date, env.clock))), Direct)
  {
    var p := PlanTrainsBetween(call.fromStation, call.toStation, call.date, env.clock);
    assert PlanOf(call, env) == p;
    assert StationsCheck(call.fromStation, call.toStation) == Success(true);
  }

  /** The debug echo shows exactly the parameters the same call sends when
      debugging is off, under the same query type, and sends nothing. */
  lemma DebugEchoMatchesRequest(call: ServiceCall, dumps: map<string, string> -> string, env: Env)
    requires env.clock.Valid()
    requires Invoke(call, Config(false, dumps), env).sent.Some?
    ensures var echo := Invoke(call, Config(true, dumps), env);
      var req := Invoke(call, Config(false, dumps), env).sent.value;
      && echo.sent == None
      && echo.result.Obj? && "params" in echo.result.fields
      && echo.result.fields["params"] == Obj(StrDict(req.params))
      && echo.result.fields["debug"] == Bool(true)
  {
  }
}
