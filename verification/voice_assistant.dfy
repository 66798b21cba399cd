/**
  `voice_assistant.py`: the assistant a browser session owns, and the
  handling of one spoken query.

  The speech SDK is reduced to two opaque handles (the conversation and
  the audio interface) and a shutdown flag. A query is handled by a pure
  decision: sanitise it, let the language model extract its details, then
  either ask for a rephrasing, call one method of the train client, or
  explain. Whatever the language model writes for the user
  (`handle_error_response`, `format_train_details` with
  `generate_train_response`) is not computed: the reply names the
  function and carries its argument.
*/
module VoiceAssistant {
  import opened Wrappers
  import opened Text
  import opened Json
  import opened Calendar
  import opened DateService
  import opened Helpers
  import opened TrainService
  import opened OpenAiService

  /** An object of the speech SDK: a live conversation or audio interface. */
  datatype Handle = Handle(id: nat)

  /** The state of a `VoiceAssistant`: `conversation`, `audio_interface`,
      whether `_shutdown` is set, and `conversation_context`. */
  datatype Assistant = Assistant(conversation: Option<Handle>, audio: Option<Handle>, shutdown: bool, context: Dict)

  /** `is_active` */
  predicate IsActive(a: Assistant) {
    a.conversation.Some? && !a.shutdown
  }

  /** `VoiceAssistant()`: nothing started, shutdown not requested, no context. */
  function NewAssistant(): (a: Assistant)
    ensures !IsActive(a) && !a.shutdown
    ensures a.conversation.None? && a.audio.None? && a.context == map[]
  {
    Assistant(None, None, false, map[])
  }

  /** `force_cleanup`: shutdown set first, audio interface and conversation
      stopped and dropped, context reset. */
  function ForceCleanup(a: Assistant): (r: Assistant)
    ensures !IsActive(r) && r.shutdown
    ensures r.conversation.None? && r.audio.None? && r.context == map[]
  {
    a.(shutdown := true).(audio := None).(conversation := None).(context := map[])
  }

  /** `cleanup`: waits for the session to end, which changes no state the
      model keeps, then forces the cleanup. */
  function Cleanup(a: Assistant): (r: Assistant)
    ensures r == ForceCleanup(a)
    ensures !IsActive(r)
  {
    ForceCleanup(a)
  }

  /** A second forced cleanup changes nothing, and every assistant ends in
      the same state. */
  lemma ForceCleanupIdempotent(a: Assistant, b: Assistant)
    ensures ForceCleanup(ForceCleanup(a)) == ForceCleanup(a)
    ensures ForceCleanup(a) == ForceCleanup(b)
  {
  }

  // ---------------------------------------------------------------------
  // Replies

  const Rephrase := "I'm having trouble understanding your query. Could you please rephrase it?"
  const NeedMoreInfo := "I need more information to help you. Could you provide more details about your request?"
  const Capabilities :=
    "I can help you with several things:\n"
    + "1. Finding trains between stations\n"
    + "2. Checking PNR status\n"
    + "3. Getting train schedules\n"
    + "4. Checking live train status\n"
    + "5. Checking seat availability\n"
    + "6. Getting fare information\n"
    + "\n"
    + "Just ask me naturally, for example 'Find trains from Delhi to Mumbai' or 'Check PNR status 1234567890'."
  const DebugGeneric :=
    "I understand your request. In debug mode, I'm showing you what I understood, but normally I would fetch the actual information for you."

  /** The fixed sentences the assistant speaks, and the debug sentences
      that quote values it understood. */
  datatype Sentence =
    | AskRephrase
    | AskMoreInfo
    | ListCapabilities
    | DebugUnderstood
    | DebugTrains(from: Value, to: Value, date: Value)
    | DebugPnr(pnr: Value)
    | DebugTrain(trainNo: Value)

  /** The exact words of a sentence; quoted values are rendered with `str`. */
  function Wording(sentence: Sentence, show: Value -> string): string {
    match sentence
    case AskRephrase => Rephrase
    case AskMoreInfo => NeedMoreInfo
    case ListCapabilities => Capabilities
    case DebugUnderstood => DebugGeneric
    case DebugTrains(from, to, date) =>
      "I'll help you find trains from " + Show(from, show) + " to " + Show(to, show) + " for " + Show(date, show)
      + ". In debug mode, I'm showing you what I understood, but normally I would fetch the actual train information for you."
    case DebugPnr(pnr) =>
      "I'll check the status of PNR number " + Show(pnr, show) + " for you. In debug mode, I'm just confirming what I understood."
    case DebugTrain(trainNo) =>
      "I'll get the information for train number " + Show(trainNo, show) + " for you. In debug mode, I'm just confirming what I understood."
  }

  /** The fixed sentences are told apart by their words, and a debug
      sentence about a journey reads back the two codes and the day as
      they were echoed. */
  lemma WordingDistinguishes(from: string, to: string, date: string, show: Value -> string)
    ensures Wording(AskRephrase, show) != Wording(AskMoreInfo, show)
    ensures Wording(AskRephrase, show) != Wording(ListCapabilities, show)
    ensures Wording(AskMoreInfo, show) != Wording(ListCapabilities, show)
    ensures Wording(DebugUnderstood, show) !in {Wording(AskRephrase, show), Wording(AskMoreInfo, show), Wording(ListCapabilities, show)}
    ensures "I'll help you find trains from " + from + " to " + to + " for " + date
      <= Wording(DebugTrains(Str(from), Str(to), Str(date)), show)
  {
    assert |Rephrase| != |NeedMoreInfo|;
    assert |Capabilities| != |Rephrase| && |Capabilities| != |NeedMoreInfo|;
    assert |DebugGeneric| != |Rephrase| && |DebugGeneric| != |NeedMoreInfo| && |DebugGeneric| != |Capabilities|;
  }

  /** What the assistant says. */
  datatype Reply =
    | Say(sentence: Sentence)
      // `handle_error_response(error)`: the language model words the error
    | ExplainError(error: Value)
      // `generate_train_response(format_train_details(data, queryType), cleanQuery)`
    | Describe(data: Value, queryType: Value, cleanQuery: string)

  /** The query asks what the assistant can do: it mentions `what` and one
      of `can you`, `things`, `help`, `share`, ignoring case. */
  predicate AsksCapabilities(query: string) {
    var q := Lower(query);
    Contains(q, "what") && (Contains(q, "can you") || Contains(q, "things") || Contains(q, "help") || Contains(q, "share"))
  }

  /** Lines 233-238: the PNR sentence, else the train-number sentence,
      else the generic one. */
  function IdentifierReply(params: Value): (r: Result<Sentence, PyError>)
    ensures r.Failure? ==> !params.Obj?
    ensures params.Obj? && "pnrNumber" in params.fields ==> r == Success(DebugPnr(params.fields["pnrNumber"]))
    ensures params.Obj? && "pnrNumber" !in params.fields && "trainNo" in params.fields ==>
      r == Success(DebugTrain(params.fields["trainNo"]))
    ensures params.Obj? && "pnrNumber" !in params.fields && "trainNo" !in params.fields ==> r == Success(DebugUnderstood)
  {
    match In("pnrNumber", params)
    case Failure(e) => Failure(e)
    case Success(true) =>
      (match Index(params, "pnrNumber")
       case Failure(e) => Failure(e)
       case Success(pnr) => Success(DebugPnr(pnr)))
    case Success(false) =>
      match In("trainNo", params)
      case Failure(e) => Failure(e)
      case Success(true) =>
        (match Index(params, "trainNo")
         case Failure(e) => Failure(e)
         case Success(n) => Success(DebugTrain(n)))
      case Success(false) => Success(DebugUnderstood)
  }

  /** Lines 229-238: the sentence chosen from the echoed parameters, in the
      order journey, PNR, train number, anything else. */
  function RouteReply(params: Value): (r: Result<Sentence, PyError>)
    ensures r.Failure? ==> !params.Obj?
    ensures params.Obj? && "fromStationCode" in params.fields && "toStationCode" in params.fields ==>
      r == Success(DebugTrains(params.fields["fromStationCode"], params.fields["toStationCode"],
                              Get(params.fields, "dateOfJourney", Str("today"))))
    ensures params.Obj? && !("fromStationCode" in params.fields && "toStationCode" in params.fields) ==>
      r == IdentifierReply(params)
  {
    match In("fromStationCode", params)
    case Failure(e) => Failure(e)
    case Success(false) => IdentifierReply(params)
    case Success(true) =>
      match In("toStationCode", params)
      case Failure(e) => Failure(e)
      case Success(false) => IdentifierReply(params)
      case Success(true) =>
        match PyGet(params, "dateOfJourney", Str("today"))
        case Failure(e) => Failure(e)
        case Success(date) =>
          Success(DebugTrains(params.fields["fromStationCode"], params.fields["toStationCode"], date))
  }

  /** Lines 212-238: the reply to a debug echo. `understanding` must be
      present; the capabilities message wins over the echoed parameters. */
  function DebugReply(result: Dict, query: string): (r: Result<Sentence, PyError>)
    ensures "understanding" !in result ==> r == Failure(KeyError("understanding"))
    ensures "understanding" in result && AsksCapabilities(query) ==> r == Success(ListCapabilities)
    ensures "understanding" in result && !AsksCapabilities(query) && "params" !in result ==> r == Failure(KeyError("params"))
    ensures "understanding" in result && !AsksCapabilities(query) && "params" in result ==>
      r == RouteReply(result["params"])
  {
    match Index(Obj(result), "understanding")
    case Failure(e) => Failure(e)
    case Success(_) =>
      if AsksCapabilities(query) then Success(ListCapabilities)
      else
        match Index(Obj(result), "params")
        case Failure(e) => Failure(e)
        case Success(params) => RouteReply(params)
  }

  /** Lines 205-255: the reply to the result of the service call (`Null`
      when none was made). Printing the result with `json.dumps` comes
      first and raises on the `datetime.date` of a seat query's
      `date_info`; any exception is explained through its message. */
  function Respond(result: Value, queryType: Value, query: string, cleanQuery: string): (r: Reply)
    ensures Truthy(result) && !Serializable(result) ==> r == ExplainError(Str(DateNotSerializable))
    ensures !Truthy(result) ==> r == Say(AskMoreInfo)
    ensures Truthy(result) && Serializable(result) && !result.Obj? ==>
      r == ExplainError(Str(AttributeError(TypeName(result), "get").Message()))
    ensures result.Obj? && Truthy(result) && Serializable(result) && !Truthy(Get(result.fields, "debug", Bool(false))) ==>
      if Truthy(Get(result.fields, "success", Bool(false))) then r == Describe(result, queryType, cleanQuery)
      else r == ExplainError(Get(result.fields, "error", Str("Unknown error occurred")))
    ensures result.Obj? && Truthy(result) && Serializable(result) && Truthy(Get(result.fields, "debug", Bool(false))) ==>
      r == match DebugReply(result.fields, query)
           case Success(sentence) => Say(sentence)
           case Failure(e) => ExplainError(Str(e.Message()))
  {
    if Truthy(result) && !Serializable(result) then ExplainError(Str(DateNotSerializable))
    else if !Truthy(result) then Say(AskMoreInfo)
    else
      match PyGet(result, "debug", Bool(false))
      case Failure(e) => ExplainError(Str(e.Message()))
      case Success(debug) =>
        if Truthy(debug) then
          match DebugReply(result.fields, query)
          case Success(sentence) => Say(sentence)
          case Failure(e) => ExplainError(Str(e.Message()))
        else if !Truthy(Get(result.fields, "success", Bool(false))) then
          ExplainError(Get(result.fields, "error", Str("Unknown error occurred")))
        else Describe(result, queryType, cleanQuery)
  }

  // ---------------------------------------------------------------------
  // Dispatch

  /** The key sets that let a query type reach the train client: any one
      of them must be present. */
  function Requirements(queryType: Value): seq<set<string>> {
    if queryType == Str("train_search") then [{"train_number"}, {"from_station", "to_station"}]
    else if queryType == Str("pnr_status") then [{"pnr_number"}]
    else if queryType == Str("train_schedule") then [{"train_number"}]
    else if queryType == Str("live_status") then [{"train_number"}]
    else if queryType == Str("seat_availability") then [{"train_number", "from_station", "to_station", "class_type"}]
    else if queryType == Str("fare_check") then [{"train_number", "from_station", "to_station"}]
    else []
  }

  /** The details carry every key of one of their type's requirements. */
  predicate Dispatchable(details: Dict) {
    var alternatives := Requirements(Get(details, "query_type", Null));
    exists i :: 0 <= i < |alternatives| && alternatives[i] <= details.Keys
  }

  /** Lines 158-203: the method of the train client the details select, and
      its arguments. A missing travel date is the word `tomorrow`; the
      start day and the quota keep the client's defaults. */
  function ServiceCallFor(details: Dict): (c: Option<ServiceCall>)
    ensures Get(details, "query_type", Null) == Str("train_search") && "train_number" in details ==>
      c == Some(SearchTrain(details["train_number"]))
    ensures Get(details, "query_type", Null) == Str("train_search") && "train_number" !in details ==>
      c == if "from_station" in details && "to_station" in details
           then Some(TrainsBetween(details["from_station"], details["to_station"], Get(details, "travel_date", Str("tomorrow"))))
           else None
    ensures Get(details, "query_type", Null) == Str("pnr_status") ==>
      c == if "pnr_number" in details then Some(PnrStatus(details["pnr_number"])) else None
    ensures Get(details, "query_type", Null) == Str("train_schedule") ==>
      c == if "train_number" in details then Some(Schedule(details["train_number"])) else None
    ensures Get(details, "query_type", Null) == Str("live_status") ==>
      c == if "train_number" in details then Some(LiveStatus(details["train_number"], DefaultStartDay)) else None
    ensures Get(details, "query_type", Null) == Str("seat_availability") ==>
      c == if {"train_number", "from_station", "to_station", "class_type"} <= details.Keys
           then Some(SeatAvailability(details["train_number"], details["from_station"], details["to_station"],
                                      Get(details, "travel_date", Str("tomorrow")), details["class_type"], Str(DefaultQuota)))
           else None
    ensures Get(details, "query_type", Null) == Str("fare_check") ==>
      c == if {"train_number", "from_station", "to_station"} <= details.Keys
           then Some(Fare(details["train_number"], details["from_station"], details["to_station"]))
           else None
  {
    var queryType := Get(details, "query_type", Null);
    if queryType == Str("train_search") then
      if "train_number" in details then Some(SearchTrain(details["train_number"]))
      else if "from_station" in details && "to_station" in details then
        Some(TrainsBetween(details["from_station"], details["to_station"], Get(details, "travel_date", Str("tomorrow"))))
      else None
    else if queryType == Str("pnr_status") && "pnr_number" in details then
      Some(PnrStatus(details["pnr_number"]))
    else if queryType == Str("train_schedule") && "train_number" in details then
      Some(Schedule(details["train_number"]))
    else if queryType == Str("live_status") && "train_number" in details then
      Some(LiveStatus(details["train_number"], DefaultStartDay))
    else if queryType == Str("seat_availability") && "train_number" in details && "from_station" in details
            && "to_station" in details && "class_type" in details then
      Some(SeatAvailability(details["train_number"], details["from_station"], details["to_station"],
                            Get(details, "travel_date", Str("tomorrow")), details["class_type"], Str(DefaultQuota)))
    else if queryType == Str("fare_check") && "train_number" in details && "from_station" in details
            && "to_station" in details then
      Some(Fare(details["train_number"], details["from_station"], details["to_station"]))
    else None
  }

  /** A call is made exactly when the details meet one of their type's
      requirements. */
  lemma DispatchMatchesRequirements(details: Dict)
    ensures ServiceCallFor(details).Some? <==> Dispatchable(details)
  {
    var queryType := Get(details, "query_type", Null);
    var alternatives := Requirements(queryType);
    if ServiceCallFor(details).Some? {
      if queryType == Str("train_search") && "train_number" !in details {
        assert alternatives[1] <= details.Keys;
      } else {
        assert alternatives[0] <= details.Keys;
      }
    }
  }

  /** The outside world of a query: the train client's configuration and
      environment, and the language model's extraction. */
  datatype Services = Services(config: Config, env: Env, ask: string -> Completion)

  /** What handling a query leaves: the reply, the new context, and the
      client method called, if any. */
  datatype Outcome = Outcome(reply: Reply, context: Dict, call: Option<ServiceCall>)

  /** Lines 147-255 once the details are known. */
  function Dispatch(context: Dict, query: string, cleanQuery: string, details: Dict, s: Services): (o: Outcome)
    requires s.env.clock.Valid()
    ensures Serializable(Obj(details)) && (details == map[] || Get(details, "query_type", Null) == Str("error")) ==>
      o == Outcome(Say(AskRephrase), context, None)
    ensures o.context == context || o.context == context + details
    ensures o.call.Some? ==> o.context == context + details && o.call == ServiceCallFor(details)
    ensures o.call.Some? ==>
      o.reply == Respond(Invoke(o.call.value, s.config, s.env).result, Get(details, "query_type", Null), query, cleanQuery)
    ensures (Serializable(Obj(context)) && Serializable(Obj(details)) && details != map[]
             && Get(details, "query_type", Null) != Str("error")) ==>
        && o.context == context + details && o.call == ServiceCallFor(details)
        && (o.call.None? ==> o.reply == Say(AskMoreInfo))
  {
    if !Serializable(Obj(details)) then Outcome(ExplainError(Str(DateNotSerializable)), context, None)
    else if details == map[] || Get(details, "query_type", Null) == Str("error") then Outcome(Say(AskRephrase), context, None)
    else
      var merged := context + details;
      if !Serializable(Obj(merged)) then Outcome(ExplainError(Str(DateNotSerializable)), merged, None)
      else
        var call := ServiceCallFor(details);
        var result := if call.Some? then Invoke(call.value, s.config, s.env).result else Null;
        Outcome(Respond(result, Get(details, "query_type", Null), query, cleanQuery), merged, call)
  }

  /** `process_train_query`: the language model sees the sanitised query;
      the capabilities check reads the original one. */
  function ProcessTrainQuery(context: Dict, query: string, s: Services): Outcome
    requires s.env.clock.Valid()
  {
    var clean := SanitizeInput(query);
    var details := ExtractQueryDetails(s.ask(clean), s.env.parse, s.env.clock);
    Dispatch(context, query, clean, details.fields, s)
  }

  /** The merged context keeps every old key and takes the details' value
      for each key they carry. */
  lemma ContextMerge(context: Dict, details: Dict, k: string)
    ensures k in details ==> k in context + details && (context + details)[k] == details[k]
    ensures k in context && k !in details ==> k in context + details && (context + details)[k] == context[k]
    ensures k in context + details <==> k in context || k in details
  {
  }

  // ---------------------------------------------------------------------
  // End to end

  /** Starting from a printable context, the context stays printable: the
      details merged into it come from `json.loads` and the extraction,
      and neither produces a `date`. */
  lemma ContextStaysSerializable(context: Dict, query: string, s: Services)
    requires s.env.clock.Valid()
    requires Serializable(Obj(context))
    requires s.ask(SanitizeInput(query)).Decoded? ==> Serializable(s.ask(SanitizeInput(query)).json)
    ensures Serializable(Obj(ProcessTrainQuery(context, query, s).context))
  {
    var clean := SanitizeInput(query);
    var details := ExtractQueryDetails(s.ask(clean), s.env.parse, s.env.clock);
    ExtractedDetailsSerializable(s.ask(clean), s.env.parse, s.env.clock);
    MergeSerializable(context, details.fields);
  }

  /** Merging two printable dicts gives a printable dict. */
  lemma MergeSerializable(a: Dict, b: Dict)
    requires Serializable(Obj(a)) && Serializable(Obj(b))
    ensures Serializable(Obj(a + b))
  {
    forall k | k in a + b ensures Serializable((a + b)[k]) {
      if k in b { assert Serializable(b[k]); } else { assert Serializable(a[k]); }
    }
  }

  /** When the language model cannot be asked or its answer cannot be
      decoded, the user is asked to rephrase, no method of the client is
      called, and the context stays as it was. */
  lemma FailedExtractionAsksRephrase(context: Dict, query: string, s: Services)
    requires s.env.clock.Valid()
    requires s.ask(SanitizeInput(query)).Failed?
    ensures ProcessTrainQuery(context, query, s) == Outcome(Say(AskRephrase), context, None)
  {
    var details := ExtractQueryDetails(s.ask(SanitizeInput(query)), s.env.parse, s.env.clock);
    assert Serializable(details);
  }

  /** In debug mode a handled query never reaches the network. */
  lemma DebugModeSendsNothing(context: Dict, query: string, s: Services)
    requires s.env.clock.Valid() && s.config.debugMode
    ensures var o := ProcessTrainQuery(context, query, s);
      o.call.Some? ==> Invoke(o.call.value, s.config, s.env).sent == None
  {
  }

  /** A debug echo holds only strings and booleans, so printing it succeeds. */
  lemma DebugResponseSerializable(config: Config, queryType: string, params: map<string, string>)
    ensures Serializable(FormatDebugResponse(config, queryType, params))
  {
    var v := FormatDebugResponse(config, queryType, params);
    assert Serializable(v.fields["params"]);
  }

  /** A printable result flagged `debug` is answered from its echo. */
  lemma RespondToDebug(result: Value, qt: Value, query: string, cleanQuery: string)
    requires result.Obj? && Serializable(result)
    requires "debug" in result.fields && result.fields["debug"] == Bool(true)
    ensures Respond(result, qt, query, cleanQuery)
      == match DebugReply(result.fields, query)
         case Success(sentence) => Say(sentence)
         case Failure(e) => ExplainError(Str(e.Message()))
  {
    assert Truthy(result);
  }

  /** The sentence for echoed journey parameters. */
  lemma RouteReplyOfJourney(params: map<string, string>)
    requires "fromStationCode" in params && "toStationCode" in params
    ensures RouteReply(Obj(StrDict(params)))
      == Success(DebugTrains(Str(params["fromStationCode"]), Str(params["toStationCode"]),
                            if "dateOfJourney" in params then Str(params["dateOfJourney"]) else Str("today")))
  {
    var d := StrDict(params);
    assert d["fromStationCode"] == Str(params["fromStationCode"]);
    assert d["toStationCode"] == Str(params["toStationCode"]);
    assert Get(d, "dateOfJourney", Str("today"))
      == if "dateOfJourney" in params then Str(params["dateOfJourney"]) else Str("today");
  }

  /** The reply to any debug echo: the capabilities list when the query
      asks for it, otherwise the sentence its parameters select. */
  lemma DebugEchoReply(config: Config, queryType: string, params: map<string, string>, qt: Value,
                       query: string, cleanQuery: string)
    ensures AsksCapabilities(query) ==>
      Respond(FormatDebugResponse(config, queryType, params), qt, query, cleanQuery) == Say(ListCapabilities)
    ensures !AsksCapabilities(query) ==>
      && RouteReply(Obj(StrDict(params))).Success?
      && Respond(FormatDebugResponse(config, queryType, params), qt, query, cleanQuery)
         == Say(RouteReply(Obj(StrDict(params))).value)
  {
    var result := FormatDebugResponse(config, queryType, params);
    DebugResponseSerializable(config, queryType, params);
    RespondToDebug(result, qt, query, cleanQuery);
  }

  /** The debug answer to a journey call with two valid station codes,
      and the reply it earns. */
  lemma DebugJourneyEcho(from: string, to: string, date: Value, qt: Value, query: string, cleanQuery: string, s: Services)
    requires s.env.clock.Valid() && s.config.debugMode
    requires IsValidStationCode(from) && IsValidStationCode(to)
    requires !AsksCapabilities(query)
    requires DayOfJourney(date, s.env.clock).Some?
    ensures Respond(Invoke(TrainsBetween(Str(from), Str(to), date), s.config, s.env).result, qt, query, cleanQuery)
      == Say(DebugTrains(Str(from), Str(to), Str(IsoFormat(DayOfJourney(date, s.env.clock).value))))
  {
    var params := JourneyParams(from, to, DayOfJourney(date, s.env.clock));
    DebugTrainsBetween(from, to, date, s.config, s.env);
    DebugEchoReply(s.config, "train_search", params, qt, query, cleanQuery);
    RouteReplyOfJourney(params);
  }

  /** In debug mode a journey query with two valid station codes is read
      back to the user with the codes and the day the client would have
      asked for. */
  lemma DebugJourneyReply(context: Dict, query: string, cleanQuery: string, details: Dict, s: Services, from: string, to: string)
    requires s.env.clock.Valid() && s.config.debugMode
    requires Serializable(Obj(context)) && Serializable(Obj(details))
    requires Get(details, "query_type", Null) == Str("train_search") && "train_number" !in details
    requires "from_station" in details && details["from_station"] == Str(from)
    requires "to_station" in details && details["to_station"] == Str(to)
    requires IsValidStationCode(from) && IsValidStationCode(to)
    requires !AsksCapabilities(query)
    requires DayOfJourney(Get(details, "travel_date", Str("tomorrow")), s.env.clock).Some?
    ensures Dispatch(context, query, cleanQuery, details, s).reply
      == Say(DebugTrains(Str(from), Str(to), Str(IsoFormat(DayOfJourney(Get(details, "travel_date", Str("tomorrow")), s.env.clock).value))))
  {
    var date := Get(details, "travel_date", Str("tomorrow"));
    assert ServiceCallFor(details) == Some(TrainsBetween(Str(from), Str(to), date));
    DebugJourneyEcho(from, to, date, Get(details, "query_type", Null), query, cleanQuery, s);
  }

  /** A parsed date's record carries a `datetime.date`. */
  lemma DateInfoNotSerializable(info: DateInfo)
    requires info.DateOk?
    ensures !Serializable(DateInfoValue(info))
  {
    var fields := DateInfoValue(info).fields;
    assert "date" in fields && fields["date"] == DateObj(info.date);
  }

  /** A successful seat answer comes back with the parsed date attached. */
  lemma SeatSuccessResult(n: string, a: string, b: string, d: string, c: string, q: string, s: Services, body: Dict)
    requires s.env.clock.Valid() && !s.config.debugMode
    requires IsValidTrainNumber(n) && IsValidStationCode(a) && IsValidStationCode(b)
    requires s.env.parse(d).Parsed?
    requires s.env.clock.now <= MidnightUtc(s.env.parse(d).at.day) <= s.env.clock.now + Constants.MaxFutureDays * MicrosPerDay
    requires s.env.transport(SeatRequest(n, a, b, d, c, q, s.env.parse)) == Body(Obj(body))
    requires Truthy(Get(body, "success", Bool(false)))
    ensures var r := Invoke(SeatAvailability(Str(n), Str(a), Str(b), Str(d), Str(c), Str(q)), s.config, s.env).result;
      Truthy(r) && !Serializable(r)
  {
    SeatDelivery(n, a, b, d, c, q, s.config, s.env);
    var info := ParseDateTime(Str(d), s.env.parse);
    var withInfo := body["date_info" := DateInfoValue(info)];
    assert Deliver(WithDateInfo(info), Body(Obj(body))) == Obj(withInfo);
    DateInfoNotSerializable(info);
    assert "date_info" in withInfo;
  }

  /** As written, a successful seat query is never described to the user:
      the `date_info` attached to it holds a `datetime.date`, printing the
      result with `json.dumps` raises, and the assistant explains that
      error instead. */
  lemma SeatSuccessExplainedAsError(context: Dict, query: string, cleanQuery: string, details: Dict, s: Services,
                                    n: string, a: string, b: string, d: string, c: string, body: Dict)
    requires s.env.clock.Valid() && !s.config.debugMode
    requires "query_type" in details && details["query_type"] == Str("seat_availability")
    requires "train_number" in details && details["train_number"] == Str(n) && IsValidTrainNumber(n)
    requires "from_station" in details && details["from_station"] == Str(a) && IsValidStationCode(a)
    requires "to_station" in details && details["to_station"] == Str(b) && IsValidStationCode(b)
    requires "travel_date" in details && details["travel_date"] == Str(d)
    requires "class_type" in details && details["class_type"] == Str(c)
    requires s.env.parse(d).Parsed?
    requires s.env.clock.now <= MidnightUtc(s.env.parse(d).at.day) <= s.env.clock.now + Constants.MaxFutureDays * MicrosPerDay
    requires s.env.transport(SeatRequest(n, a, b, d, c, DefaultQuota, s.env.parse)) == Body(Obj(body))
    requires Truthy(Get(body, "success", Bool(false)))
    ensures Dispatch(context, query, cleanQuery, details, s).reply == ExplainError(Str(DateNotSerializable))
  {
    if Serializable(Obj(details)) && Serializable(Obj(context + details)) {
      SeatCallOf(details, n, a, b, d, c);
      SeatSuccessResult(n, a, b, d, c, DefaultQuota, s, body);
    }
  }

  /** Seat details with all four keys select the seat query with the default
      quota. */
  lemma SeatCallOf(details: Dict, n: string, a: string, b: string, d: string, c: string)
    requires "query_type" in details && details["query_type"] == Str("seat_availability")
    requires "train_number" in details && details["train_number"] == Str(n)
    requires "from_station" in details && details["from_station"] == Str(a)
    requires "to_station" in details && details["to_station"] == Str(b)
    requires "travel_date" in details && details["travel_date"] == Str(d)
    requires "class_type" in details && details["class_type"] == Str(c)
    ensures ServiceCallFor(details) == Some(SeatAvailability(Str(n), Str(a), Str(b), Str(d), Str(c), Str(DefaultQuota)))
  {
    assert {"train_number", "from_station", "to_station", "class_type"} <= details.Keys;
  }
}
