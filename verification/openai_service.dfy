/**
  `services/openai_service.py`: the deterministic work around the language
  model. The model's answer is opaque; what it hands back, once
  `json.loads` has run on it, is a `Completion`. What the code then does
  with that value (defaulting the query type and normalising the travel
  date of a train search) is modelled exactly.
*/
module OpenAiService {
  import opened Wrappers
  import opened Json
  import opened Calendar
  import opened DateService
  import Constants

  /** The decoded answer of the language model, or the message of the
      exception raised while asking for it or decoding it. */
  datatype Completion = Decoded(json: Value) | Failed(message: string)

  /** A day `convert_relative_date` may answer with: today, tomorrow, or a
      day inside the booking window. */
  predicate PlausibleDay(d: int, clock: Clock)
    requires clock.Valid()
  {
    || d == clock.localToday
    || d == clock.localToday + 1
    || clock.now <= MidnightUtc(d) <= clock.now + Constants.MaxFutureDays * MicrosPerDay
  }

  /** `convert_relative_date`: an empty or missing date means today; a date
      the parser reads and the booking window admits is kept; anything else
      becomes tomorrow. `datetime.now()` is the clock's local day. */
  function ConvertRelativeDate(date: Value, parse: string -> ParserOutcome, clock: Clock): (r: string)
    requires clock.Valid()
    ensures !Truthy(date) ==> r == IsoFormat(clock.localToday)
    ensures Truthy(date) && IsValidTravelDate(ParseDateTime(date, parse), clock) ==>
      r == ParseDateTime(date, parse).formatted.apiFormat
    ensures Truthy(date) && !IsValidTravelDate(ParseDateTime(date, parse), clock) ==>
      r == IsoFormat(clock.localToday + 1)
    ensures ParseIsoDate(r).Some? && PlausibleDay(ParseIsoDate(r).value, clock)
  {
    if !Truthy(date) then
      IsoFormatRoundTrip(clock.localToday);
      IsoFormat(clock.localToday)
    else
      var parsed := ParseDateTime(date, parse);
      if IsValidTravelDate(parsed, clock) then parsed.formatted.apiFormat
      else
        IsoFormatRoundTrip(clock.localToday + 1);
        IsoFormat(clock.localToday + 1)
  }

  /** `{'query_type': 'error', 'error': message}` */
  function ErrorDetails(message: string): (v: Value)
    ensures v.Obj? && v.fields.Keys == {"query_type", "error"}
    ensures v.fields["query_type"] == Str("error") && v.fields["error"] == Str(message)
  {
    Obj(map["query_type" := Str("error"), "error" := Str(message)])
  }

  /** Lines 80-84: add `query_type = 'general'` when it is missing, then
      read it back with `result.get`. `in` raises on a scalar, the
      assignment raises on a list or string that lacks the key, and `get`
      raises on a list or string that has it, so only a dict gets through. */
  function WithQueryType(result: Value): (r: Result<Dict, PyError>)
    ensures r.Success? <==> result.Obj?
    ensures result.Obj? && "query_type" in result.fields ==> r.value == result.fields
    ensures result.Obj? && "query_type" !in result.fields ==> r.value == result.fields["query_type" := Str("general")]
  {
    match In("query_type", result)
    case Failure(e) => Failure(e)
    case Success(present) =>
      var typed := if present then Success(result) else SetItem(result, "query_type", Str("general"));
      match typed
      case Failure(e) => Failure(e)
      case Success(v) =>
        match PyGet(v, "query_type", Str("general"))
        case Failure(e) => Failure(e)
        case Success(_) => Success(v.fields)
  }

  /** The three keys a train search may carry its date under, in the order
      they are looked up. */
  const DateKeys: seq<string> := ["travel_date", "date", "dateOfJourney"]

  /** The first date key present in `m`. */
  function DateSource(m: Dict): (k: Option<string>)
    ensures k.Some? ==> k.value in DateKeys && k.value in m
    ensures k.None? <==> forall i :: 0 <= i < |DateKeys| ==> DateKeys[i] !in m
    ensures "travel_date" in m ==> k == Some("travel_date")
    ensures "travel_date" !in m && "date" in m ==> k == Some("date")
  {
    if "travel_date" in m then Some("travel_date")
    else if "date" in m then Some("date")
    else if "dateOfJourney" in m then Some("dateOfJourney")
    else None
  }

  /** The normalised travel date of a train search: the first date field
      present, or the word `tomorrow` when there is none. */
  function NormalisedDate(m: Dict, parse: string -> ParserOutcome, clock: Clock): (d: string)
    requires clock.Valid()
    ensures ParseIsoDate(d).Some? && PlausibleDay(ParseIsoDate(d).value, clock)
  {
    match DateSource(m)
    case Some(k) => ConvertRelativeDate(m[k], parse, clock)
    case None => ConvertRelativeDate(Str("tomorrow"), parse, clock)
  }

  /** The keys the normalisation of a train search writes. */
  predicate Rewritten(k: string) {
    k in DateKeys || k == "date_display" || k == "day_of_week"
  }

  /** Lines 100-102: the three date fields set to `d`. */
  function SetDates(m: Dict, d: string): (r: Dict)
    ensures "travel_date" in r && "date" in r && "dateOfJourney" in r
    ensures r["travel_date"] == r["date"] == r["dateOfJourney"] == Str(d)
    ensures r.Keys == m.Keys + {"travel_date", "date", "dateOfJourney"}
    ensures forall k :: k in m && !Rewritten(k) ==> r[k] == m[k]
  {
    m["travel_date" := Str(d)]["date" := Str(d)]["dateOfJourney" := Str(d)]
  }

  /** Lines 105-108: the display form and weekday of a parsed date added. */
  function AddDisplay(m: Dict, info: DateInfo): (r: Dict)
    ensures info.DateFailed? ==> r == m
    ensures info.DateOk? ==> r.Keys == m.Keys + {"date_display", "day_of_week"}
    ensures info.DateOk? ==> r["date_display"] == Str(info.formatted.displayFormat)
    ensures info.DateOk? ==> r["day_of_week"] == Str(info.formatted.dayOfWeek)
    ensures forall k :: k in m && !Rewritten(k) ==> r[k] == m[k]
    ensures forall k :: k in m && k in DateKeys ==> r[k] == m[k]
  {
    match info
    case DateOk(_, _, f, _) => m["date_display" := Str(f.displayFormat)]["day_of_week" := Str(f.dayOfWeek)]
    case DateFailed(_, _) => m
  }

  /** Lines 100-108: all three date fields set to the normalised date, and
      its display form and weekday added when the parser reads it back. */
  function NormaliseDates(m: Dict, parse: string -> ParserOutcome, clock: Clock): (r: Dict)
    requires clock.Valid()
    ensures "travel_date" in r && "date" in r && "dateOfJourney" in r
    ensures r["travel_date"] == r["date"] == r["dateOfJourney"] == Str(NormalisedDate(m, parse, clock))
    ensures forall k :: k in m ==> k in r
    ensures forall k :: k in m && !Rewritten(k) ==> r[k] == m[k]
  {
    var d := NormalisedDate(m, parse, clock);
    AddDisplay(SetDates(m, d), ParseDateTime(Str(d), parse))
  }

  /** The display form and weekday are added exactly when the normalised
      date reads back through the parser, and nothing else is added. */
  lemma NormaliseDatesDisplay(m: Dict, parse: string -> ParserOutcome, clock: Clock)
    requires clock.Valid()
    ensures var r := NormaliseDates(m, parse, clock);
      var info := ParseDateTime(Str(NormalisedDate(m, parse, clock)), parse);
      && (info.DateOk? ==> && "date_display" in r && r["date_display"] == Str(info.formatted.displayFormat)
                           && "day_of_week" in r && r["day_of_week"] == Str(info.formatted.dayOfWeek))
      && r.Keys == m.Keys + {"travel_date", "date", "dateOfJourney"}
                 + (if info.DateOk? then {"date_display", "day_of_week"} else {})
  {
  }

  /** `extract_query_details` after the model has answered (lines 77-116). */
  function ExtractQueryDetails(completion: Completion, parse: string -> ParserOutcome, clock: Clock): (r: Value)
    requires clock.Valid()
    ensures r.Obj? && "query_type" in r.fields
    ensures completion.Failed? ==> r == ErrorDetails(completion.message)
    ensures completion.Decoded? && !completion.json.Obj? ==> r.fields.Keys == {"query_type", "error"} && r.fields["query_type"] == Str("error")
    ensures completion.Decoded? && completion.json.Obj? ==>
      forall k :: k in completion.json.fields && !Rewritten(k) ==> k in r.fields && r.fields[k] == completion.json.fields[k]
  {
    match completion
    case Failed(message) => ErrorDetails(message)
    case Decoded(v) =>
      match WithQueryType(v)
      case Failure(e) => ErrorDetails(e.Message())
      case Success(m) =>
        if Get(m, "query_type", Str("general")) == Str("train_search") then Obj(NormaliseDates(m, parse, clock))
        else Obj(m)
  }

  /** A dict answer whose type is not `train_search` comes back as it was,
      apart from the `general` default for a missing type. */
  lemma OtherTypesUnchanged(m: Dict, parse: string -> ParserOutcome, clock: Clock)
    requires clock.Valid()
    requires !("query_type" in m && m["query_type"] == Str("train_search"))
    ensures ExtractQueryDetails(Decoded(Obj(m)), parse, clock)
      == Obj(if "query_type" in m then m else m["query_type" := Str("general")])
  {
  }

  /** After a train search the three date fields agree, and they hold a
      `Y-m-d` date that is today, tomorrow, or within the booking window. */
  lemma TrainSearchDatesAgree(m: Dict, parse: string -> ParserOutcome, clock: Clock)
    requires clock.Valid()
    requires "query_type" in m && m["query_type"] == Str("train_search")
    ensures var r := ExtractQueryDetails(Decoded(Obj(m)), parse, clock).fields;
      && "travel_date" in r && "date" in r && "dateOfJourney" in r
      && r["travel_date"] == r["date"] == r["dateOfJourney"]
      && r["date"].Str? && ParseIsoDate(r["date"].s).Some?
      && PlausibleDay(ParseIsoDate(r["date"].s).value, clock)
  {
    var r := NormaliseDates(m, parse, clock);
    assert r["date"] == Str(NormalisedDate(m, parse, clock));
  }

  /** The travel date of a train search is read from `travel_date` when the
      answer has one, else from `date`, else from `dateOfJourney`, else the
      word `tomorrow` is normalised. */
  lemma TrainSearchDateSource(m: Dict, parse: string -> ParserOutcome, clock: Clock)
    requires clock.Valid()
    requires "query_type" in m && m["query_type"] == Str("train_search")
    ensures var r := ExtractQueryDetails(Decoded(Obj(m)), parse, clock).fields;
      && "date" in r
      && r["date"] == Str(
          if "travel_date" in m then ConvertRelativeDate(m["travel_date"], parse, clock)
          else if "date" in m then ConvertRelativeDate(m["date"], parse, clock)
          else if "dateOfJourney" in m then ConvertRelativeDate(m["dateOfJourney"], parse, clock)
          else ConvertRelativeDate(Str("tomorrow"), parse, clock))
  {
    var r := NormaliseDates(m, parse, clock);
    assert r["date"] == Str(NormalisedDate(m, parse, clock));
  }

  /** With no date in a train search, a `tomorrow` the parser cannot read,
      or reads as a day outside the booking window, still yields tomorrow's
      date. */
  lemma MissingDateIsTomorrow(m: Dict, parse: string -> ParserOutcome, clock: Clock)
    requires clock.Valid()
    requires "query_type" in m && m["query_type"] == Str("train_search")
    requires "travel_date" !in m && "date" !in m && "dateOfJourney" !in m
    requires !(parse("tomorrow").Parsed?
               && clock.now <= MidnightUtc(parse("tomorrow").at.day) <= clock.now + Constants.MaxFutureDays * MicrosPerDay)
    ensures ExtractQueryDetails(Decoded(Obj(m)), parse, clock).fields["date"] == Str(IsoFormat(clock.localToday + 1))
  {
    TrainSearchDateSource(m, parse, clock);
    assert !IsValidTravelDate(ParseDateTime(Str("tomorrow"), parse), clock);
  }

  /** An answer that is not a dict becomes an error record whose message
      is the one Python gives. */
  lemma NonDictAnswerIsError(v: Value, parse: string -> ParserOutcome, clock: Clock)
    requires clock.Valid()
    requires !v.Obj?
    ensures ExtractQueryDetails(Decoded(v), parse, clock) == ErrorDetails(WithQueryType(v).error.Message())
    ensures v.Null? ==>
      ExtractQueryDetails(Decoded(v), parse, clock) == ErrorDetails("argument of type 'NoneType' is not iterable")
  {
    if v.Null? {
      assert "argument of type '" + TypeName(v) + "' is not iterable" == "argument of type 'NoneType' is not iterable";
    }
  }

  lemma SetDatesSerializable(m: Dict, d: string)
    requires Serializable(Obj(m))
    ensures Serializable(Obj(SetDates(m, d)))
  {
  }

  lemma AddDisplaySerializable(m: Dict, info: DateInfo)
    requires Serializable(Obj(m))
    ensures Serializable(Obj(AddDisplay(m, info)))
  {
  }

  /** Normalising the dates of a printable dict keeps it printable: every
      value it writes is a string. */
  lemma NormaliseDatesSerializable(m: Dict, parse: string -> ParserOutcome, clock: Clock)
    requires clock.Valid()
    requires Serializable(Obj(m))
    ensures Serializable(Obj(NormaliseDates(m, parse, clock)))
  {
    var d := NormalisedDate(m, parse, clock);
    SetDatesSerializable(m, d);
    AddDisplaySerializable(SetDates(m, d), ParseDateTime(Str(d), parse));
  }

  /** `json.loads` never yields a `date`, and every value the extraction
      adds is a string, so the details it returns can always be printed. */
  lemma ExtractedDetailsSerializable(completion: Completion, parse: string -> ParserOutcome, clock: Clock)
    requires clock.Valid()
    requires completion.Decoded? ==> Serializable(completion.json)
    ensures Serializable(ExtractQueryDetails(completion, parse, clock))
  {
    if completion.Decoded? && completion.json.Obj? {
      var v := completion.json;
      var m := WithQueryType(v).value;
      assert Serializable(Obj(m)) by {
        forall k | k in m ensures Serializable(m[k]) {
          if k in v.fields { assert Serializable(v.fields[k]); }
        }
      }
      if Get(m, "query_type", Str("general")) == Str("train_search") {
        NormaliseDatesSerializable(m, parse, clock);
      }
    }
  }
}
