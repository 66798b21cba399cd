# RailSuchak core in Dafny

RailSuchak is a voice assistant for Indian Railways. A browser session talks to a Flask/Socket.IO server. Each session owns a `VoiceAssistant`, and the assistant answers a spoken query in three steps:

1. It sanitises the query.
2. It lets a language model extract structured details.
3. It calls one method of a train-data HTTP client (`TrainService`), or it answers by itself.

This project models the decision logic of that pipeline as pure Dafny functions and proves what the code promises about it. The outside world appears as parameters:

- The language model's answer is a `Completion`: the decoded JSON, or an exception message.
- The natural-language date parser is a function `string -> ParserOutcome`.
- HTTP is a `Transport` function from `Request` to `Response`.
- "Now" is a `Clock`. It holds the current instant and the server's local day.

Python values are `Json.Value`. It has no floats: a JSON number with a fraction, which `json.loads` turns into a Python `float`, is not modelled. Python exceptions whose message reaches the user are `Json.PyError`.

The modules follow the source files:

| module | source |
|---|---|
| `Text`, `Calendar`, `Json`, `Duration`, `Wrappers` | the Python built-ins the core relies on: `str.upper`, `str.split`, `datetime.date`, dict lookup and `in` with their exceptions, and the `Hh Mm` rendering shared by both `format_duration`s |
| `Constants` | `utils/constants.py` |
| `Helpers` | `utils/helpers.py` |
| `DateService` | `services/date_service.py` |
| `TrainService` | `services/train_service.py` |
| `OpenAiService` | `services/openai_service.py` |
| `VoiceAssistant` | `voice_assistant.py` |
| `Server` | `server.py` |

Some modelling choices:

- **Validators.** They follow Python's `re.match` with `^…$`, including the quirk that `$` also matches before one final `"\n"`. So `"NDLS\n"` is a valid station code (`Helpers.StationCodeWithNewline`). Character classes are ASCII only.
- **Train-client methods.** Each method is split into a `Plan`: either a rejection with its result dictionary, or the one request it sends and how the response is delivered.
  - `TrainService.Invoke` runs the plan. In debug mode it returns the echo of `format_debug_response` instead of sending.
  - An exception raised by a method's own argument handling appears in the plan as its `{success, error, details}` dictionary. Examples are `.upper()` on a non-string or `re.match` on `None`.
- **Assistant replies.** A reply is a `Reply`, not a string:
  - `Say` carries a fixed sentence; `VoiceAssistant.Wording` gives its exact words.
  - `ExplainError` carries the argument of `handle_error_response`.
  - `Describe` carries the arguments of `format_train_details` and `generate_train_response`.
- **Seat-availability quirk.** A successful non-debug seat query cannot be spoken. `check_seat_availability` attaches the parsed date record, which holds a `datetime.date`. `process_train_query` then calls `json.dumps` on the result before looking at it, and that raises `TypeError`. So the user always gets an error explanation (`VoiceAssistant.SeatSuccessExplainedAsError`).
- **Conversation context.** `process_train_query` also calls `json.dumps` on the extracted details and on the merged context, and the model keeps those checks. They cannot fail in practice: the context starts empty and is only ever merged with extracted details, which hold `json.loads` output and strings (`VoiceAssistant.ContextStaysSerializable`). The seat result above is never merged into the context.

## Model

| member | source | states |
|---|---|---|
| Helpers.IsValidStationCode | utils/helpers.py:84-86 | true exactly for 3 or 4 upper-case ASCII letters, optionally followed by one newline |
| Helpers.IsValidTrainNumber | utils/helpers.py:88-90 | true exactly for 5 ASCII digits, optionally followed by one newline |
| Helpers.IsValidPnr | utils/helpers.py:92-94 | true exactly for 10 ASCII digits, optionally followed by one newline |
| Helpers.MatchesRun | utils/helpers.py:86 | an anchored `^[class]{lo,hi}$` match: the text before an optional final newline is a run of the class whose length lies between the bounds |
| Helpers.ValidatorsMatchPatterns | utils/helpers.py:84-94 | each validator is the anchored pattern match with its class and repeat count |
| Helpers.ValidatorsWithoutNewline | utils/helpers.py:84-94 | on text without a final newline, the validators are exactly length-and-class checks |
| Helpers.StationCodeWithNewline | utils/helpers.py:86 | `$` admits one trailing newline but not two |
| Helpers.BeforeFinalNewline | utils/helpers.py:86 | the text `$` is matched against is the input, or the input without one final newline |
| Helpers.SpanClass | utils/helpers.py:86 | the longest prefix of characters of a class, and the first character that stops it |
| Helpers.KeepSafe | utils/helpers.py:99 | the first substitution keeps only word characters, whitespace, `-`, `.` and `,`, and invents no character |
| Helpers.KeepSafeChar | utils/helpers.py:99 | a single character survives the first substitution exactly when it is a word character, whitespace, `-`, `.` or `,` |
| Helpers.KeepSafeConcat | utils/helpers.py:99 | the first substitution distributes over concatenation, so with the single-character case it keeps exactly the safe characters, in order |
| Helpers.KeepSafeOfSafe | utils/helpers.py:99 | the first substitution leaves text that is already safe untouched |
| Helpers.SanitizeInput | utils/helpers.py:96-102 | the result is single-spaced (no leading, trailing or doubled whitespace) and holds only safe characters; its words are exactly the words of the input with the unsafe characters removed |
| Helpers.JoinOfWordsSafe | utils/helpers.py:101 | joining the words of safe text with single spaces keeps it safe |
| Helpers.SanitizeIdempotent | utils/helpers.py:96-102 | sanitising twice gives the same text as sanitising once |
| Helpers.SanitizeFixedPoints | utils/helpers.py:96-102 | sanitising leaves a text unchanged exactly when it is already single-spaced and safe |
| Helpers.JoinOfWords | utils/helpers.py:101 | `' '.join(s.split())` gives back every single-spaced text |
| Helpers.WordsSkipSpaces | utils/helpers.py:101 | leading whitespace does not change `split()` |
| Helpers.Chunks | utils/helpers.py:80-82 | for a positive size the chunks concatenate to the message, are non-empty, have at most `size` characters, and all but the last have exactly `size` |
| Helpers.ChunkMessage | utils/helpers.py:80-82 | a zero chunk size raises `range()`'s error; a negative one gives `[]`; a positive one gives chunks that concatenate to the message with the sizes above; the empty message gives `[]` |
| Helpers.FormatDuration | utils/helpers.py:32-42 | for non-negative minutes, the `Hh Mm` text reads back as the same number of minutes; negative minutes render with a leading `-` |
| Helpers.FormatDurationShapes | utils/helpers.py:37-42 | `Mm` under an hour, `Hh` on whole hours, `Hh Mm` otherwise |
| Helpers.CapitalizeAll | utils/helpers.py:54 | each word is capitalised in place |
| Helpers.FormatTrainName | utils/helpers.py:48-54 | the result is single-spaced and its words are the input's words, each capitalised |
| Helpers.FormatTrainNameIdempotent | utils/helpers.py:48-54 | formatting a formatted name changes nothing |
| Helpers.FindPnr | utils/helpers.py:58 | the leftmost position where ten digits stand between word boundaries, or none |
| Helpers.ExtractPnrNumber | utils/helpers.py:56-59 | `None` exactly when no bounded ten-digit run exists; otherwise the leftmost such run |
| Helpers.PnrExtractValid | utils/helpers.py:56-59 | an extracted PNR passes `is_valid_pnr`, and a bare valid PNR is extracted as itself |
| Helpers.FindKey | utils/helpers.py:30 | the position of a key in a table, or its absence |
| Helpers.FormatTrainClass | utils/helpers.py:28-30 | a code whose upper-case form is in `TRAIN_CLASSES` gives that class's name; any other code comes back unchanged |
| Helpers.FormatTrainClassKnown | utils/helpers.py:28-30 | lower-case `sl` and `3a` give `Sleeper` and `Third AC` |
| Helpers.FormatTrainClassUnknown | utils/helpers.py:28-30 | an unknown code is returned as given |
| Helpers.FindStation | utils/helpers.py:19-21 | the first `MAJOR_STATIONS` entry, in insertion order, whose upper-cased name contains the input or is contained in it |
| Helpers.FirstStationUnique | utils/helpers.py:19-21 | there is only one first matching station |
| Helpers.KeepUpperLetters | utils/helpers.py:25 | the substitution keeps only A-Z and never lengthens the text |
| Helpers.KeepUpperLettersChar | utils/helpers.py:25 | a single character survives exactly when it is a capital A-Z |
| Helpers.KeepUpperLettersConcat | utils/helpers.py:25 | the substitution distributes over concatenation, so with the single-character case it keeps exactly the capitals, in order |
| Helpers.ExtractStationCode | utils/helpers.py:6-26 | a valid code is returned unchanged; otherwise the first matching station's code; otherwise the first four A-Z letters of the upper-cased input (fewer when it has fewer), or the input itself when it has none |
| Helpers.ExtractStationCodeNonEmpty | utils/helpers.py:6-26 | the result is never empty |
| Helpers.StationCodesNonEmpty | utils/constants.py:16-27 | every major station's code has at least three letters |
| Helpers.EmptyStationIsNewDelhi | utils/helpers.py:19-21 | the empty input is contained in every name, so it resolves to the first station, `NDLS` |
| Helpers.DelhiResolves | utils/helpers.py:19-21 | `Delhi` resolves to `NDLS` |
| Text.Upper | utils/helpers.py:16 | `str.upper` on ASCII letters, position by position |
| Text.Lower | services/train_service.py:151 | `str.lower` on ASCII letters, position by position |
| Text.NatToString | utils/helpers.py:38 | the decimal rendering of a natural is a non-empty digit string |
| Text.DigitsValueOfNatToString | utils/helpers.py:38 | the decimal rendering reads back as the number |
| Text.ZeroPad | services/date_service.py:51 | the zero-padded field is all digits and at least as wide as asked |
| Text.ZeroPadValue | services/date_service.py:51 | the zero-padded field reads back as the number |
| Text.ZeroPadExact | services/date_service.py:51 | a number that fits the width is padded to exactly that width |
| Text.Words | utils/helpers.py:101 | `str.split()` gives only non-empty words without whitespace |
| Text.WordsChars | utils/helpers.py:101 | every character of a word comes from the split text |
| Text.JoinSingleSpaced | utils/helpers.py:101 | `' '.join` of words is single-spaced, and non-empty when there is a word |
| Text.WordsOfJoin | utils/helpers.py:101 | splitting a space-join of words gives the words back |
| Text.Capitalize | utils/helpers.py:54 | `str.capitalize`: the first character upper-cased, the rest lower-cased |
| Text.CapitalizeIdempotent | utils/helpers.py:54 | capitalising twice changes nothing more |
| Text.CapitalizeKeepsWord | utils/helpers.py:54 | a capitalised word is still a word |
| Calendar.FromOrdinal | services/date_service.py:47 | `date.fromordinal` gives a valid proleptic Gregorian date |
| Calendar.CivilRoundTrip | services/date_service.py:47 | a valid date's ordinal is in range and converts back to the date |
| Calendar.OrdinalRoundTrip | services/date_service.py:47 | an ordinal converts to a date and back to itself |
| Calendar.Weekday | services/date_service.py:56 | `weekday()` is between 0 and 6 |
| Calendar.WeekdayAnchors | services/date_service.py:56 | `weekday()` is 0 (Monday) on 1 January of year 1 and on 1 January 2024 |
| Calendar.WeekdayNext | services/date_service.py:56 | each day's weekday follows the previous day's, Sunday (6) wrapping to Monday (0) |
| Calendar.Hour12 | services/date_service.py:53 | the `hh` hour is between 1 and 12 and equals the 24-hour value modulo 12, so 0 and 12 both show as 12 |
| Calendar.IsoFormatRoundTrip | services/train_service.py:157-159 | `strptime('%Y-%m-%d')` reads the `strftime('%Y-%m-%d')` of any date back as the same date |
| Calendar.ParseIsoDateParts | services/train_service.py:157 | `Y-m-d` text with valid fields parses to their date |
| Json.Get | services/openai_service.py:84 | `dict.get` gives the stored value or the default |
| Json.In | voice_assistant.py:217 | `in` is key membership on a dict, substring search on a string, and raises `TypeError` on values that are not containers |
| Json.PyGet | voice_assistant.py:212 | `.get` succeeds exactly on dicts; on anything else it raises `AttributeError` |
| Json.Index | voice_assistant.py:214 | subscripting succeeds exactly on a dict holding the key |
| Json.StrDict | services/train_service.py:71 | a string map as a dict of strings, key for key |
| Json.SetItem | services/openai_service.py:81 | item assignment succeeds exactly on dicts and stores the value under the key |
| Duration.RenderRoundTrip | utils/helpers.py:32-42 | the hours-and-minutes rendering of a non-negative count reads back as the count, for both unit spellings |
| Duration.RenderCases | services/date_service.py:117-125 | the rendering is the minutes alone, the hours alone, or both, by the same three cases as the source |
| Duration.RenderNegative | services/date_service.py:117-125 | a negative count renders with a leading minus |
| DateService.DateInfoValue | services/date_service.py:45-59 | the dict's `success` flag is true exactly for a parsed date |
| DateService.ParseDateTime | services/date_service.py:10-66 | never raises: a non-string, an unreadable string or a parser exception each give `success: False` with their message and the input; otherwise the parsed day, its `Y-m-d` rendering that reads back as the day, and a weekend flag set exactly on Saturday and Sunday |
| DateService.IsValidTravelDate | services/date_service.py:68-89 | false without `success`; otherwise true exactly when the day's midnight lies between now and now plus 120 days, both ends included |
| DateService.TravelWindowInDays | services/date_service.py:74-86 | in whole days: every day after today's UTC day up to 120 days later is accepted, nothing outside that span is, and today's UTC day only at the exact instant of UTC midnight |
| DateService.IndiaTodayAccepted | services/date_service.py:74-86 | India's current day is accepted only while India is a calendar day ahead of UTC, or at UTC midnight |
| DateService.MidnightUtcOfUtcDay | services/date_service.py:74-75 | the current instant falls between its UTC day's midnight and the next |
| DateService.EntryForDescribes | services/date_service.py:100-107 | a range entry's `date` reads back as its day, and `is_weekend` is set exactly on Saturday and Sunday |
| DateService.GetDateRange | services/date_service.py:91-112 | a failed parse gives `[]`; otherwise `days` entries, the i-th for the start day plus i; a range past the last representable day gives `[]` |
| DateService.DateRangeConsecutive | services/date_service.py:100-103 | consecutive entries name consecutive days |
| DateService.WeekendEveryWeek | services/date_service.py:106 | the weekend flag repeats every seven days |
| DateService.FormatDuration | services/date_service.py:114-128 | non-negative integers and booleans render as `H hours M minutes` text that reads back as the count; a negative integer renders with a leading `-`; any other value the model can express (none, text, lists, dicts, dates) makes `//` raise and falls to the handler, which gives `str(minutes) + " minutes"` |
| TrainService.ErrorResult | services/train_service.py:132-135 | `{success: False, error}` with exactly those keys |
| TrainService.ErrorWithDetails | services/train_service.py:179-183 | `{success: False, error, details}` with exactly those keys |
| TrainService.MatchArg | services/train_service.py:90 | `re.match` accepts exactly string arguments |
| TrainService.UpperArg | services/train_service.py:139-140 | `.upper()` succeeds exactly on strings |
| TrainService.StationsCheck | services/train_service.py:131 | on strings, both codes must be valid; a pass implies two valid string codes |
| TrainService.UpperOfValidStation | services/train_service.py:139-140 | upper-casing a valid code leaves it unchanged |
| TrainService.DayOfJourney | services/train_service.py:144-163 | a missing or empty date gives today; `tomorrow` in any case gives today plus one; `today` gives today; a `Y-m-d` string gives its day; other strings give today; a non-string leaves the date out |
| TrainService.DayOfJourneyIdempotent | services/train_service.py:157-159 | a date already in `Y-m-d` form is kept |
| TrainService.PlanTrainNumberOnly | services/train_service.py:211-232 | a non-string number gives the method's failure dict; an invalid one gives `Invalid train number format`; a valid one sends `trainNo` to the method's path |
| TrainService.PlanSearchTrain | services/train_service.py:87-108 | an invalid number is rejected with no request; a valid one sends `query` to `searchTrain` |
| TrainService.PlanSearchStation | services/train_service.py:110-125 | a string is upper-cased and sent to `searchStation`; a non-string gives the failure dict |
| TrainService.JourneyParams | services/train_service.py:138-163 | the journey parameters are the two codes, plus `dateOfJourney` in `Y-m-d` form when a day was found |
| TrainService.PlanTrainsBetween | services/train_service.py:127-183 | sends exactly when both codes are valid, directly to `trainBetweenStations` with the journey parameters and the defaulted day |
| TrainService.PlanLiveStatus | services/train_service.py:185-209 | sends exactly for a valid number, with `trainNo` and `startDay`; an invalid number is rejected |
| TrainService.PlanSchedule | services/train_service.py:211-232 | sends exactly for a valid number, with `trainNo`; an invalid number is rejected |
| TrainService.PlanTrainClasses | services/train_service.py:309-330 | sends exactly for a valid number, with `trainNo`; an invalid number is rejected |
| TrainService.PlanPnrStatus | services/train_service.py:234-255 | sends exactly for a valid PNR; an invalid PNR gives `Invalid PNR number format`; a non-string gives the failure dict |
| TrainService.InvalidDate | services/train_service.py:277-282 | the `Invalid date` dict and its details text |
| TrainService.SeatParams | services/train_service.py:284-291 | the six seat parameters, each holding its argument |
| TrainService.PlanSeatAvailability | services/train_service.py:257-307 | the train number is decided first, then the stations, then the date; a date that does not parse or is outside the window gives `Invalid date`; a send carries the parsed `Y-m-d` date and the upper-cased class and quota |
| TrainService.PlanSeatRequest | services/train_service.py:284-300 | with a parsed date, it sends exactly when class and quota are strings, with the date record attached on delivery |
| TrainService.FareParams | services/train_service.py:348-352 | the three fare parameters, each holding its argument |
| TrainService.PlanFare | services/train_service.py:332-364 | the train number is decided first, then the stations; a send goes to `getFare` with the fare parameters |
| TrainService.FormatDebugResponse | services/train_service.py:24-72 | the echo has exactly the keys `success`, `debug`, `understanding`, `query_type` and `params`; both flags are true and `params` are the given parameters |
| TrainService.MakeRequest | services/train_service.py:74-85 | the decoded body is passed on; an exception becomes `{success: False, error}` |
| TrainService.Deliver | services/train_service.py:170-183 | each method passes on the response its own way; the seat query attaches `date_info` only to a response reporting success |
| TrainService.Invoke | services/train_service.py:66-72 | a rejection sends nothing; debug mode sends nothing and echoes the parameters it would have sent; otherwise exactly the planned request is sent and its response delivered |
| TrainService.InvalidTrainNumberRejected | services/train_service.py:90-94 | every method that takes a train number rejects an invalid string one with `Invalid train number format` and no request |
| TrainService.InvalidPnrRejected | services/train_service.py:237-241 | an invalid PNR string is rejected with no request |
| TrainService.InvalidStationRejected | services/train_service.py:131-135 | with a valid train number where one is needed, an invalid station code is rejected with `Invalid station code format` and no request |
| TrainService.JourneyParamsWellFormed | services/train_service.py:138-163 | valid codes give journey parameters with valid codes and a readable date |
| TrainService.SeatParamsWellFormed | services/train_service.py:284-291 | valid identifiers give well-formed seat parameters |
| TrainService.FareParamsWellFormed | services/train_service.py:348-352 | valid identifiers give well-formed fare parameters |
| TrainService.TrainNumberParamsWellFormed | services/train_service.py:194-197 | a valid train number added to date-free parameters keeps them well formed |
| TrainService.SearchTrainPlanWellFormed | services/train_service.py:87-108 | a sent search goes to its own path with a valid number |
| TrainService.SearchStationPlanWellFormed | services/train_service.py:110-125 | a sent station search goes to its own path |
| TrainService.TrainsBetweenPlanWellFormed | services/train_service.py:127-174 | a sent journey query goes to its own path with valid codes and a readable date |
| TrainService.LiveStatusPlanWellFormed | services/train_service.py:185-209 | a sent live-status query goes to its own path with a valid number |
| TrainService.SchedulePlanWellFormed | services/train_service.py:211-232 | a sent schedule query goes to its own path with a valid number |
| TrainService.PnrStatusPlanWellFormed | services/train_service.py:234-255 | a sent PNR query goes to its own path with a valid PNR |
| TrainService.SeatAvailabilityPlanWellFormed | services/train_service.py:257-307 | a sent seat query goes to its own path with valid identifiers and a date inside the booking window |
| TrainService.TrainClassesPlanWellFormed | services/train_service.py:309-330 | a sent class query goes to its own path with a valid number |
| TrainService.FarePlanWellFormed | services/train_service.py:332-364 | a sent fare query goes to its own path with valid identifiers |
| TrainService.PlanWellFormed | services/train_service.py:87-364 | every method's plan targets its own fixed path with validated identifiers |
| TrainService.SentRequestsWellFormed | services/train_service.py:87-364 | every request actually sent targets the method's path, carries validated identifiers, and has a seat date inside the booking window |
| TrainService.SeatDateAccepted | services/train_service.py:276-282 | a date the parser places in the booking window passes both date checks, and its `api_format` is that day in `Y-m-d` form |
| TrainService.SeatPlanSends | services/train_service.py:257-291 | valid identifiers and such a date make the seat query send the upper-cased class and quota with that date |
| TrainService.SeatPlanOf | services/train_service.py:257-307 | a seat call is planned by the seat method with its own arguments |
| TrainService.SeatDelivery | services/train_service.py:284-300 | such a seat query sends exactly that request and attaches the parsed date's record to the response on success |
| TrainService.TrainsBetweenSends | services/train_service.py:131-174 | two valid codes send the journey parameters directly |
| TrainService.DebugTrainsBetween | services/train_service.py:166-167 | in debug mode a journey query with valid codes echoes the journey parameters with the defaulted day |
| TrainService.DebugEchoMatchesRequest | services/train_service.py:66-72 | the debug echo's `params` are exactly the parameters the same call sends outside debug mode, and nothing is sent |
| OpenAiService.ConvertRelativeDate | services/openai_service.py:19-38 | an empty or missing date gives today; a parsed date inside the window gives its `api_format`; anything else gives tomorrow; the answer always reads back as today, tomorrow or a day in the window |
| OpenAiService.ErrorDetails | services/openai_service.py:113-116 | exactly `{query_type: 'error', error}` |
| OpenAiService.WithQueryType | services/openai_service.py:79-81 | a dict answer keeps its `query_type` or gets `general`; a non-dict answer raises |
| OpenAiService.DateSource | services/openai_service.py:89-90 | the first of `travel_date`, `date`, `dateOfJourney` present, or none |
| OpenAiService.NormalisedDate | services/openai_service.py:92-97 | the normalised date reads back as today, tomorrow or a day in the window |
| OpenAiService.SetDates | services/openai_service.py:100-102 | the three date fields are set to the same value and no other key changes |
| OpenAiService.AddDisplay | services/openai_service.py:105-108 | display fields are added exactly when the date parses, and nothing else changes |
| OpenAiService.NormaliseDates | services/openai_service.py:87-108 | the three date fields agree on the normalised date; other keys are kept |
| OpenAiService.NormaliseDatesDisplay | services/openai_service.py:104-108 | the keys added are the three date fields, plus the two display fields exactly when the normalised date parses |
| OpenAiService.ExtractQueryDetails | services/openai_service.py:77-116 | the result always has a `query_type`; any exception gives the error dict; keys that are not rewritten keep the model's values |
| OpenAiService.OtherTypesUnchanged | services/openai_service.py:80-87 | an answer that is not a train search comes back unchanged apart from the `general` default |
| OpenAiService.TrainSearchDatesAgree | services/openai_service.py:100-102 | after a train search, `travel_date`, `date` and `dateOfJourney` are equal and hold a plausible `Y-m-d` date |
| OpenAiService.TrainSearchDateSource | services/openai_service.py:89-97 | the date comes from `travel_date`, else `date`, else `dateOfJourney`, else the word `tomorrow` |
| OpenAiService.MissingDateIsTomorrow | services/openai_service.py:96-97 | with no date given, a `tomorrow` the parser cannot read, or reads as a day outside the window, still gives tomorrow's date |
| OpenAiService.ExtractedDetailsSerializable | services/openai_service.py:77-116 | when the decoded answer is printable (as anything `json.loads` returns is), so are the extracted details |
| OpenAiService.NonDictAnswerIsError | services/openai_service.py:80 | a non-dict answer gives the error dict with Python's message, e.g. for `null` |
| VoiceAssistant.NewAssistant | voice_assistant.py:62-68 | a new assistant is inactive, not shut down, with no conversation, no audio and an empty context |
| VoiceAssistant.ForceCleanup | voice_assistant.py:70-110 | afterwards: no conversation, no audio, an empty context, shutdown set, so not active |
| VoiceAssistant.Cleanup | voice_assistant.py:112-132 | ends in the state of `force_cleanup`, not active |
| VoiceAssistant.ForceCleanupIdempotent | voice_assistant.py:70-110 | a second cleanup changes nothing, and the end state does not depend on the state before |
| VoiceAssistant.WordingDistinguishes | voice_assistant.py:151-238 | the fixed replies are distinct texts, and the journey debug reply quotes the codes and the date |
| VoiceAssistant.IdentifierReply | voice_assistant.py:233-238 | `pnrNumber` is preferred over `trainNo`, then the generic debug reply; a non-dict `params` raises |
| VoiceAssistant.RouteReply | voice_assistant.py:229-238 | both station codes give the journey reply with `dateOfJourney` or `today`; otherwise the identifier replies |
| VoiceAssistant.DebugReply | voice_assistant.py:212-238 | a missing `understanding` raises `KeyError`; a capabilities question lists the capabilities; a missing `params` raises `KeyError`; otherwise the route reply |
| VoiceAssistant.Respond | voice_assistant.py:205-263 | an unprintable result is explained as the `json.dumps` error; no result asks for more information; a debug result gets its debug reply; a failure is explained by its `error` or `Unknown error occurred`; a success is described |
| VoiceAssistant.ServiceCallFor | voice_assistant.py:162-203 | for each query type, the client method called and its arguments: a train number wins over stations for a search, `travel_date` defaults to `tomorrow`, and other types need their required keys |
| VoiceAssistant.DispatchMatchesRequirements | voice_assistant.py:162-203 | a method is called exactly when the details carry one of their type's required key sets |
| VoiceAssistant.Dispatch | voice_assistant.py:147-255 | empty or error details ask for a rephrasing with the context untouched; otherwise the context is merged with the details, the chosen method is called, and its result answered; with nothing to call, more information is asked for |
| VoiceAssistant.ContextMerge | voice_assistant.py:154 | after the update, the details' keys carry their values and other keys are kept |
| VoiceAssistant.ContextStaysSerializable | voice_assistant.py:146-155 | a printable context stays printable after a query whenever the language model's decoded answer is printable |
| VoiceAssistant.FailedExtractionAsksRephrase | voice_assistant.py:141-151 | when extraction fails, the user is asked to rephrase, nothing is called, and the context is unchanged |
| VoiceAssistant.DebugModeSendsNothing | voice_assistant.py:162-203 | in debug mode no query reaches the network |
| VoiceAssistant.DebugResponseSerializable | voice_assistant.py:205 | a debug echo can always be printed |
| VoiceAssistant.RespondToDebug | voice_assistant.py:212-238 | a printable debug result is answered by its debug reply |
| VoiceAssistant.RouteReplyOfJourney | voice_assistant.py:229-232 | echoed journey parameters give the journey reply quoting them |
| VoiceAssistant.DebugEchoReply | voice_assistant.py:212-238 | any debug echo is answered with the capabilities list when the query asks for it, and otherwise with the sentence its parameters select, which is never an error |
| VoiceAssistant.DebugJourneyEcho | voice_assistant.py:169-173 | in debug mode a journey query with valid codes is answered with the journey reply quoting those codes and the defaulted day |
| VoiceAssistant.DebugJourneyReply | voice_assistant.py:162-238 | end to end: in debug mode, a train search with two valid station codes and no train number reads back those codes and the day |
| VoiceAssistant.DateInfoNotSerializable | services/date_service.py:47 | a parsed date record holds a `date` and cannot be printed by `json.dumps` |
| VoiceAssistant.SeatSuccessResult | services/train_service.py:297-300 | a successful response to a valid seat query carries `date_info` and so cannot be printed |
| VoiceAssistant.SeatCallOf | voice_assistant.py:187-195 | seat details with the four required keys call the seat method with `travel_date` and the default quota |
| VoiceAssistant.SeatSuccessExplainedAsError | voice_assistant.py:187-205 | a valid seat query whose answer reports success is explained as the `json.dumps` error, whatever else the context or details hold |
| Server.CleanupSession | server.py:22-45 | the session is gone afterwards, every other entry is untouched, and a present session's assistant is cleaned up |
| Server.CleanupAbsent | server.py:25 | an absent session leaves the registry unchanged |
| Server.CleanupIdempotent | server.py:25-39 | a second cleanup of the same session is a no-op |
| Server.CleanupCommutes | server.py:22-45 | cleaning up two sessions gives the same registry in either order |
| Server.HandleConnect | server.py:61-67 | the session maps to a fresh assistant; other entries are kept |
| Server.HandleDisconnect | server.py:69-74 | the session is removed by cleanup |
| Server.HandleStopListening | server.py:135-141 | the session is removed and the status `idle` / `Click to start` is emitted |
| Server.ConnectThenDisconnect | server.py:61-74 | connecting and then disconnecting equals cleaning up the session |
| Server.Index | server.py:47-55 | loading the page empties the registry |

## Left out

- **Vendor SDKs and process management.** These are side effects with no decision logic:
  - the ElevenLabs conversation and audio SDK: `start_conversation`, `_handle_webhook`, the callbacks, and `wait_for_session_end`;
  - `kill_process_tree` and `psutil`/`pkill`;
  - `gc.collect`, `time.sleep`, and the signal and `atexit` handlers.
- **`server.py` handlers.** `handle_start_listening` and `cleanup_and_kill` drive the SDK and take a non-reentrant lock that `cleanup_session` takes again. Locking and threading are not modelled.
- **Index order.** `Server.Index` does not fix the order `list(assistants.keys())` yields. Any order gives the same empty registry.
- **Language-model calls.** `generate_train_response`, `handle_error_response` and `format_train_details` produce opaque text.
  - A reply names the function and carries its argument.
  - `format_train_details` also mutates a dict while iterating over it, which depends on the response body's structure.
  - The prompt of `extract_query_details` (lines 40-76) is not modelled; only its decoded answer is.
- **HTTP.** `requests.get` and `response.json()` are the `Transport` parameter. Headers, the API key and the logging are not modelled.
- **Date parsing.** The natural-language parser `dateparser.parse`, with its Indian settings, is the `parse` parameter.
  - Arrow's `humanize` text, the aware `datetime` and the epoch `timestamp` are not carried in the parsed date record. The model assumes `humanize(locale='en_in')` returns normally. If that locale were unsupported, every parse would fail with the locale's message (services/date_service.py:61-66). A `parse` that answers `Raised` covers that case.
  - `reference_date` is not modelled.
- **Time zones.** The server's local day (`datetime.now()`) and the instant (`arrow.now`) are two independent fields of `Clock`. `Clock.Valid` asks that every day derived from them fits Python's `date`.
- **Years before 1000.** `strftime('%Y')` pads these differently on some platforms. The model always pads to four digits.
- **Floating point.** `format_fare` and `format_train_status` rely on float formatting. `Json.Value` has no floats at all (see DateService.FormatDuration below).
- **Regular expressions.** The model is ASCII-only: `\d`, `\w`, `\s`, `str.upper` and `str.capitalize` act on ASCII characters. Python also accepts non-ASCII digits, letters and whitespace there.
- **Dict order.** Key order is not modelled. `MAJOR_STATIONS` and `TRAIN_CLASSES` are kept as ordered lists, because lookup order matters for them.
- **Debug text and `json.dumps`.**
  - The `understanding` text of `format_debug_response` embeds `json.dumps(params, indent=2)`. That rendering depends on key order, so it is the `dumps` parameter of `Config`.
  - Printing a result with `json.dumps` is modelled only as whether it raises (the `Serializable` predicate).
- **Unused constants.** The `API_ENDPOINTS`, `ERROR_MESSAGES` and other `STATUS_MESSAGES` entries of `utils/constants.py` are not used by the modelled code. The core does not read `MAX_FUTURE_DAYS` or the idle message either: it writes `shift(days=120)` (services/date_service.py:82) and `'Click to start'` (server.py:141) inline. The model names these literals `Constants.MaxFutureDays` and `Constants.IdleMessage` after the equal constants.
- VoiceAssistant.ForceCleanup: assumes the SDK's `stop()` does not raise. If it did, the `finally` block would still clear the conversation and audio, but the context would keep its old value and only `_shutdown` would be set.
- VoiceAssistant.Respond: the exception path passes the exception's message to `handle_error_response` for the two failures the model can produce: the `json.dumps` error and the `.get`/subscript errors on a malformed result. Other exceptions from the SDK or from logging are not modelled.
- DateService.FormatDuration: fractional numbers are not modelled. For a Python `float`, `//` and `%` do not raise; they give floats, so `90.5` renders as `1.0 hours 30.5 minutes` and `0.5` as `0.5 minutes`, not through the handler.
- DateService.FormatDuration: for negative integers the contract states only the leading minus. The rendering follows Python's floor division and remainder, so `-5` renders as `-1 hours 55 minutes`.
- Helpers.FormatDuration: for negative minutes the contract states only the leading minus. The rendering itself follows Python's floor division and remainder, so `-5` renders as `-1h 55m`.
