/**
  The string helpers of `utils/helpers.py`: format validators, input
  sanitising, message chunking, duration and name formatting, and the
  resolution of a spoken station name to a station code.

  Regular expressions are matched on ASCII only (see `Text`). The one
  Python quirk that matters for the validators is kept: in `re.match`,
  `$` also matches just before a final `"\n"`.
*/
module Helpers {
  import opened Wrappers
  import opened Text
  import opened Constants
  import Duration

  // ---------------------------------------------------------------------
  // Anchored character-class runs: `re.match(r'^[C]{lo,hi}$', s)`

  datatype CharClass = UpperLetters | Digits {
    predicate Has(c: char) {
      match this
      case UpperLetters => IsUpperLetter(c)
      case Digits => IsDigit(c)
    }
  }

  predicate AllIn(s: string, cls: CharClass) {
    forall i :: 0 <= i < |s| ==> cls.Has(s[i])
  }

  /** Length of the leading run of characters of class `cls`. */
  function SpanClass(s: string, cls: CharClass): (k: nat)
    ensures k <= |s|
    ensures AllIn(s[..k], cls)
    ensures k < |s| ==> !cls.Has(s[k])
  {
    if s == [] || !cls.Has(s[0]) then 0
    else
      var k := 1 + SpanClass(s[1..], cls);
      assert s[..k] == [s[0]] + s[1..][..k - 1];
      k
  }

  /** `s` without one final newline, if it has one: the part `$` must reach. */
  function BeforeFinalNewline(s: string): (t: string)
    ensures t == s || t + "\n" == s
  {
    if |s| > 0 && s[|s| - 1] == '\n' then s[..|s| - 1] else s
  }

  /** The strings `^[C]{lo,hi}$` accepts: `lo` to `hi` class characters,
      then the end of the string or a final newline. */
  predicate InRun(s: string, cls: CharClass, lo: nat, hi: nat) {
    var t := BeforeFinalNewline(s);
    lo <= |t| <= hi && AllIn(t, cls)
  }

  /** `re.match(r'^[C]{lo,hi}$', s)` as the matcher runs it: a greedy run
      of class characters, then the end of the string or a final newline. */
  function MatchesRun(s: string, cls: CharClass, lo: nat, hi: nat): (ok: bool)
    ensures ok <==> InRun(s, cls, lo, hi)
  {
    var k := SpanClass(s, cls);
    var ok := lo <= k <= hi && (k == |s| || (k == |s| - 1 && s[k] == '\n'));
    var t := BeforeFinalNewline(s);
    assert ok ==> t == s[..k];
    ok
  }

  /** `is_valid_station_code` */
  function IsValidStationCode(code: string): (ok: bool)
    ensures ok <==> 3 <= |BeforeFinalNewline(code)| <= 4 && AllUpperLetters(BeforeFinalNewline(code))
  {
    InRun(code, UpperLetters, 3, 4)
  }

  /** `is_valid_train_number` */
  function IsValidTrainNumber(number: string): (ok: bool)
    ensures ok <==> |BeforeFinalNewline(number)| == 5 && AllDigits(BeforeFinalNewline(number))
  {
    InRun(number, Digits, 5, 5)
  }

  /** `is_valid_pnr` */
  function IsValidPnr(pnr: string): (ok: bool)
    ensures ok <==> |BeforeFinalNewline(pnr)| == 10 && AllDigits(BeforeFinalNewline(pnr))
  {
    InRun(pnr, Digits, 10, 10)
  }

  /** Each validator answers as its pattern's match does. */
  lemma ValidatorsMatchPatterns(s: string)
    ensures IsValidStationCode(s) == MatchesRun(s, UpperLetters, 3, 4)
    ensures IsValidTrainNumber(s) == MatchesRun(s, Digits, 5, 5)
    ensures IsValidPnr(s) == MatchesRun(s, Digits, 10, 10)
  {
  }

  /** On a string without a final newline the validators are exactly the
      length-and-alphabet checks. */
  lemma ValidatorsWithoutNewline(s: string)
    requires |s| == 0 || s[|s| - 1] != '\n'
    ensures IsValidStationCode(s) <==> 3 <= |s| <= 4 && AllUpperLetters(s)
    ensures IsValidTrainNumber(s) <==> |s| == 5 && AllDigits(s)
    ensures IsValidPnr(s) <==> |s| == 10 && AllDigits(s)
  {
  }

  /** The regex quirk: a code followed by one newline still passes. */
  lemma StationCodeWithNewline()
    ensures IsValidStationCode("NDLS\n")
    ensures !IsValidStationCode("NDLS\n\n")
  {
    assert BeforeFinalNewline("NDLS\n") == "NDLS";
    var t := BeforeFinalNewline("NDLS\n\n");
    assert t == "NDLS\n";
    assert !IsUpperLetter(t[4]);
  }

  // ---------------------------------------------------------------------
  // sanitize_input

  /** The characters `[\w\s\-.,]` that sanitising keeps. */
  predicate IsSafe(c: char) {
    IsWordChar(c) || IsSpace(c) || c == '-' || c == '.' || c == ','
  }

  predicate AllSafe(s: string) {
    forall i :: 0 <= i < |s| ==> IsSafe(s[i])
  }

  /** `re.sub(r'[^\w\s\-.,]', '', text)` */
  function KeepSafe(s: string): (r: string)
    ensures AllSafe(r)
    ensures |r| <= |s|
    ensures forall i :: 0 <= i < |r| ==> r[i] in s
  {
    if s == [] then []
    else
      var tail := KeepSafe(s[1..]);
      assert forall i :: 0 <= i < |tail| ==> tail[i] in s by {
        forall i | 0 <= i < |tail| ensures tail[i] in s {
          assert tail[i] in s[1..];
        }
      }
      if IsSafe(s[0]) then [s[0]] + tail else tail
  }

  /** One character is kept exactly when it is safe. */
  lemma KeepSafeChar(c: char)
    ensures KeepSafe([c]) == if IsSafe(c) then [c] else []
  {
    assert [c][1..] == [];
  }

  /** The substitution works character by character: it distributes over
      concatenation, so together with `KeepSafeChar` it keeps exactly the
      safe characters, in order. */
  lemma {:induction false} KeepSafeConcat(a: string, b: string)
    ensures KeepSafe(a + b) == KeepSafe(a) + KeepSafe(b)
    decreases |a|
  {
    if a == [] {
      assert a + b == b;
    } else {
      assert (a + b)[0] == a[0];
      assert (a + b)[1..] == a[1..] + b;
      KeepSafeConcat(a[1..], b);
    }
  }

  lemma {:induction false} KeepSafeOfSafe(s: string)
    requires AllSafe(s)
    ensures KeepSafe(s) == s
    decreases |s|
  {
    if s != [] {
      KeepSafeOfSafe(s[1..]);
      assert [s[0]] + s[1..] == s;
    }
  }

  /** `sanitize_input`: drop unsafe characters, then `' '.join(cleaned.split())`. */
  function SanitizeInput(text: string): (r: string)
    ensures SingleSpaced(r)
    ensures AllSafe(r)
    ensures Words(r) == Words(KeepSafe(text))
  {
    var ws := Words(KeepSafe(text));
    WordsOfJoin(ws);
    JoinSingleSpaced(ws);
    WordsChars(KeepSafe(text));
    JoinOfWordsSafe(ws, KeepSafe(text));
    Join(ws)
  }

  lemma JoinOfWordsSafe(ws: seq<string>, s: string)
    requires AllSafe(s)
    requires forall k, i :: 0 <= k < |ws| && 0 <= i < |ws[k]| ==> ws[k][i] in s
    ensures AllSafe(Join(ws))
  {
    forall i | 0 <= i < |Join(ws)| ensures IsSafe(Join(ws)[i]) {
      JoinChars(ws, i);
    }
  }

  /** Sanitising twice is sanitising once. */
  lemma SanitizeIdempotent(text: string)
    ensures SanitizeInput(SanitizeInput(text)) == SanitizeInput(text)
  {
    var ws := Words(KeepSafe(text));
    var once := SanitizeInput(text);
    assert once == Join(ws);
    KeepSafeOfSafe(once);
    WordsOfJoin(ws);
  }

  /** Words of a string that starts with whitespace are the words of the rest. */
  lemma WordsSkipSpaces(s: string)
    ensures Words(s) == Words(s[SpanSpaces(s)..])
  {
    var a := SpanSpaces(s);
    var t := s[a..];
    assert SpanSpaces(t) == 0 by {
      if |t| > 0 { assert t[0] == s[a]; }
    }
    assert t[0..] == t;
  }

  /** A suffix of a single-spaced string that starts at a non-space is
      single-spaced. */
  lemma SingleSpacedSuffix(s: string, j: nat)
    requires SingleSpaced(s) && j <= |s|
    requires j < |s| ==> !IsSpace(s[j])
    ensures SingleSpaced(s[j..])
  {
    var t := s[j..];
    forall i | 0 <= i < |t| - 1 ensures !(IsSpace(t[i]) && IsSpace(t[i + 1])) {
      assert t[i] == s[j + i] && t[i + 1] == s[j + i + 1];
    }
    forall i | 0 <= i < |t| && IsSpace(t[i]) ensures t[i] == ' ' {
      assert t[i] == s[j + i];
    }
    if |t| > 0 {
      assert t[|t| - 1] == s[|s| - 1];
    }
  }

  /** A non-empty string without whitespace is its own only word. */
  lemma WordsOfOneWord(s: string)
    requires s != [] && SpanSpaces(s) == 0 && SpanWord(s) == |s|
    ensures Words(s) == [s]
  {
    assert s[0..] == s;
    assert s[|s|..] == [];
    assert s[..|s|] == s;
  }

  /** The first word of a single-spaced string with several words, and
      what follows its one separating space. */
  lemma WordsOfSeveral(s: string, w: nat)
    requires SingleSpaced(s) && s != [] && w == SpanWord(s) < |s|
    ensures w + 1 < |s| && !IsSpace(s[w + 1])
    ensures Words(s) == [s[..w]] + Words(s[w + 1..])
  {
    assert SpanSpaces(s) == 0;
    assert s[0..] == s;
    assert s[w] == ' ';
    var rest := s[w..];
    assert SpanSpaces(rest) == 1 by {
      assert rest[0] == s[w] && rest[1] == s[w + 1];
      assert SpanSpaces(rest[1..]) == 0;
    }
    WordsSkipSpaces(rest);
    assert rest[1..] == s[w + 1..];
  }

  /** Splitting a string around the character at `w`. */
  lemma SplitAround(s: string, w: nat)
    requires w < |s|
    ensures s == s[..w] + [s[w]] + s[w + 1..]
  {
  }

  /** Joining a word onto a non-empty list puts one space between. */
  lemma JoinCons(w: string, rest: seq<string>)
    requires |rest| > 0
    ensures Join([w] + rest) == w + " " + Join(rest)
  {
    assert ([w] + rest)[1..] == rest;
  }

  /** A single-spaced string is the join of its words. */
  lemma {:induction false} JoinOfWords(s: string)
    requires SingleSpaced(s)
    ensures Join(Words(s)) == s
    ensures s != [] ==> |Words(s)| > 0
    decreases |s|
  {
    if s != [] {
      assert SpanSpaces(s) == 0;
      var w := SpanWord(s);
      if w == |s| {
        WordsOfOneWord(s);
      } else {
        WordsOfSeveral(s, w);
        var t := s[w + 1..];
        SingleSpacedSuffix(s, w + 1);
        JoinOfWords(t);
        JoinCons(s[..w], Words(t));
        SplitAround(s, w);
        assert s[w] == ' ';
      }
    }
  }

  /** The fixed points of sanitising are exactly the single-spaced strings of
      safe characters. */
  lemma SanitizeFixedPoints(text: string)
    ensures SanitizeInput(text) == text <==> SingleSpaced(text) && AllSafe(text)
  {
    if SingleSpaced(text) && AllSafe(text) {
      KeepSafeOfSafe(text);
      JoinOfWords(text);
    }
  }

  // ---------------------------------------------------------------------
  // chunk_message

  /** Concatenation of a list of strings. */
  function Concat(parts: seq<string>): string {
    if parts == [] then [] else parts[0] + Concat(parts[1..])
  }

  /** Consecutive slices of `size` characters; the last may be shorter. */
  function Chunks(message: string, size: nat): (parts: seq<string>)
    requires size > 0
    ensures Concat(parts) == message
    ensures forall k :: 0 <= k < |parts| ==> 0 < |parts[k]| <= size
    ensures forall k :: 0 <= k < |parts| - 1 ==> |parts[k]| == size
    decreases |message|
  {
    if message == [] then []
    else if |message| <= size then
      assert Concat([message]) == message + Concat([]);
      [message]
    else
      var rest := Chunks(message[size..], size);
      var parts := [message[..size]] + rest;
      assert parts[1..] == rest;
      assert message == message[..size] + message[size..];
      parts
  }

  /** `chunk_message`: `range(0, len(message), chunk_size)` raises for a
      zero step and is empty for a negative one. */
  function ChunkMessage(message: string, chunkSize: int): (r: Result<seq<string>, string>)
    ensures chunkSize == 0 <==> r.Failure?
    ensures chunkSize == 0 ==> r.error == "range() arg 3 must not be zero"
    ensures chunkSize < 0 ==> r == Success([])
    ensures chunkSize > 0 ==> r.Success? && Concat(r.value) == message
    ensures chunkSize > 0 ==> forall k :: 0 <= k < |r.value| ==> 0 < |r.value[k]| <= chunkSize
    ensures chunkSize > 0 ==> forall k :: 0 <= k < |r.value| - 1 ==> |r.value[k]| == chunkSize
    ensures message == [] && chunkSize != 0 ==> r == Success([])
  {
    if chunkSize == 0 then Failure("range() arg 3 must not be zero")
    else if chunkSize < 0 then Success([])
    else Success(Chunks(message, chunkSize))
  }

  // ---------------------------------------------------------------------
  // format_duration

  /** `format_duration` of the helpers: `"Mm"`, `"Hh"` or `"Hh Mm"`. */
  function FormatDuration(minutes: int): (r: string)
    ensures minutes >= 0 ==> Duration.Read(r, "h", "m") == Some(minutes)
    ensures minutes < 0 ==> |r| > 0 && r[0] == '-'
  {
    var r := Duration.Render(minutes, "h", "m");
    assert minutes >= 0 ==> Duration.Read(r, "h", "m") == Some(minutes) by {
      if minutes >= 0 { Duration.RenderRoundTrip(minutes, "h", "m"); }
    }
    assert minutes < 0 ==> |r| > 0 && r[0] == '-' by {
      if minutes < 0 { Duration.RenderNegative(minutes, "h", "m"); }
    }
    r
  }

  /** The three shapes of the rendering. */
  lemma FormatDurationShapes(minutes: nat)
    ensures minutes / 60 == 0 ==> FormatDuration(minutes) == NatToString(minutes % 60) + "m"
    ensures minutes / 60 > 0 && minutes % 60 == 0 ==> FormatDuration(minutes) == NatToString(minutes / 60) + "h"
    ensures minutes / 60 > 0 && minutes % 60 > 0 ==>
      FormatDuration(minutes) == NatToString(minutes / 60) + "h " + NatToString(minutes % 60) + "m"
  {
    var h, m := NatToString(minutes / 60), NatToString(minutes % 60);
    assert FormatDuration(minutes) == Duration.Render(minutes, "h", "m");
    Duration.RenderCases(minutes, "h", "m");
    assert h + ("h" + " " + m + "m") == h + "h " + m + "m";
  }

  // ---------------------------------------------------------------------
  // format_train_name

  /** Every word capitalized. */
  function CapitalizeAll(ws: seq<string>): (cs: seq<string>)
    ensures |cs| == |ws|
    ensures forall k :: 0 <= k < |ws| ==> cs[k] == Capitalize(ws[k])
  {
    seq(|ws|, k requires 0 <= k < |ws| => Capitalize(ws[k]))
  }

  /** `format_train_name`: collapse whitespace, strip, and capitalize each
      word. Collapsing and stripping do not change what `split()` returns,
      so the words are taken from the name directly. */
  function FormatTrainName(trainName: string): (r: string)
    ensures SingleSpaced(r)
    ensures Words(r) == CapitalizeAll(Words(trainName))
  {
    var ws := Words(trainName);
    var cs := CapitalizeAll(ws);
    forall k | 0 <= k < |cs| ensures IsWord(cs[k]) {
      CapitalizeKeepsWord(ws[k]);
    }
    JoinSingleSpaced(cs);
    WordsOfJoin(cs);
    Join(cs)
  }

  /** Formatting a formatted name changes nothing. */
  lemma FormatTrainNameIdempotent(trainName: string)
    ensures FormatTrainName(FormatTrainName(trainName)) == FormatTrainName(trainName)
  {
    var once := FormatTrainName(trainName);
    var ws := Words(trainName);
    var cs := CapitalizeAll(ws);
    assert Words(once) == cs;
    forall k | 0 <= k < |cs| ensures Capitalize(cs[k]) == cs[k] {
      CapitalizeIdempotent(ws[k]);
    }
    assert CapitalizeAll(cs) == cs;
    JoinOfWords(once);
  }

  // ---------------------------------------------------------------------
  // extract_pnr_number

  /** `\b\d{10}\b` matches at index `i`. */
  predicate PnrAt(text: string, i: int) {
    && 0 <= i && i + 10 <= |text|
    && AllDigits(text[i..i + 10])
    && (i == 0 || !IsWordChar(text[i - 1]))
    && (i + 10 == |text| || !IsWordChar(text[i + 10]))
  }

  /** The leftmost match at or after `from`. */
  function FindPnr(text: string, from: nat): (r: Option<nat>)
    ensures r.Some? ==> from <= r.value && PnrAt(text, r.value)
    ensures r.Some? ==> forall j :: from <= j < r.value ==> !PnrAt(text, j)
    ensures r.None? ==> forall j :: from <= j ==> !PnrAt(text, j)
    decreases |text| - from
  {
    if from + 10 > |text| then None
    else if PnrAt(text, from) then Some(from)
    else FindPnr(text, from + 1)
  }

  /** `extract_pnr_number`: the leftmost stand-alone run of ten digits. */
  function ExtractPnrNumber(text: string): (r: Option<string>)
    ensures r.None? <==> forall i :: !PnrAt(text, i)
    ensures r.Some? ==>
      exists i :: PnrAt(text, i) && r.value == text[i..i + 10] && forall j :: 0 <= j < i ==> !PnrAt(text, j)
  {
    match FindPnr(text, 0)
    case None => None
    case Some(i) => Some(text[i..i + 10])
  }

  /** Extraction and validation agree: what is extracted is a valid PNR, and
      a valid PNR on its own is extracted whole. */
  lemma PnrExtractValid(text: string)
    ensures ExtractPnrNumber(text).Some? ==> IsValidPnr(ExtractPnrNumber(text).value)
    ensures IsValidPnr(text) && |text| == 10 ==> ExtractPnrNumber(text) == Some(text)
  {
    if IsValidPnr(text) && |text| == 10 {
      assert text[0..10] == text;
      assert PnrAt(text, 0);
    }
  }

  // ---------------------------------------------------------------------
  // format_train_class

  /** Index of the first entry of `table` with key `key`. */
  function FindKey(table: seq<(string, string)>, key: string): (r: Option<nat>)
    ensures r.Some? ==> r.value < |table| && table[r.value].0 == key
    ensures r.None? ==> forall i :: 0 <= i < |table| ==> table[i].0 != key
  {
    if table == [] then None
    else if table[0].0 == key then Some(0)
    else match FindKey(table[1..], key)
      case None => None
      case Some(i) => Some(i + 1)
  }

  /** `format_train_class`: `TRAIN_CLASSES.get(class_code.upper(), class_code)`. */
  function FormatTrainClass(classCode: string): (name: string)
    ensures forall i :: 0 <= i < |TrainClasses| && TrainClasses[i].0 == Upper(classCode) ==>
      name == TrainClasses[i].1
    ensures (forall i :: 0 <= i < |TrainClasses| ==> TrainClasses[i].0 != Upper(classCode)) ==>
      name == classCode
  {
    match FindKey(TrainClasses, Upper(classCode))
    case None => classCode
    case Some(i) => TrainClasses[i].1
  }

  /** Known codes are named whatever their case. */
  lemma FormatTrainClassKnown()
    ensures FormatTrainClass("sl") == "Sleeper"
    ensures FormatTrainClass("3a") == "Third AC"
  {
    assert Upper("sl") == "SL" && TrainClasses[3] == ("SL", "Sleeper");
    assert Upper("3a") == "3A" && TrainClasses[2] == ("3A", "Third AC");
  }

  /** An unknown code is returned as given. */
  lemma FormatTrainClassUnknown()
    ensures FormatTrainClass("XY") == "XY"
  {
    assert Upper("XY") == "XY";
    forall i | 0 <= i < |TrainClasses| ensures TrainClasses[i].0 != "XY" {
      assert TrainClasses[i].0[0] != 'X';
    }
  }

  // ---------------------------------------------------------------------
  // extract_station_code

  /** The upper-cased name of station `j` contains, or is contained in, `upper`. */
  predicate StationMatches(upper: string, j: int)
    requires 0 <= j < |MajorStations|
  {
    var name := Upper(MajorStations[j].1);
    Contains(name, upper) || Contains(upper, name)
  }

  /** Station `j` matches and no earlier one does. */
  predicate FirstStation(upper: string, j: int) {
    && 0 <= j < |MajorStations| && StationMatches(upper, j)
    && forall i :: 0 <= i < j ==> !StationMatches(upper, i)
  }

  predicate NoStation(upper: string) {
    forall j :: 0 <= j < |MajorStations| ==> !StationMatches(upper, j)
  }

  /** The first station, in table order from `from`, that matches. */
  function FindStation(upper: string, from: nat): (r: Option<nat>)
    requires from <= |MajorStations|
    ensures r.Some? ==> from <= r.value < |MajorStations| && StationMatches(upper, r.value)
    ensures r.Some? ==> forall j :: from <= j < r.value ==> !StationMatches(upper, j)
    ensures r.None? ==> forall j :: from <= j < |MajorStations| ==> !StationMatches(upper, j)
    decreases |MajorStations| - from
  {
    if from == |MajorStations| then None
    else if StationMatches(upper, from) then Some(from)
    else FindStation(upper, from + 1)
  }

  /** At most one station is the first to match. */
  lemma FirstStationUnique(upper: string, j: nat)
    requires FirstStation(upper, j)
    ensures forall k :: FirstStation(upper, k) ==> k == j
  {
  }

  /** `re.sub(r'[^A-Z]', '', s)` */
  function KeepUpperLetters(s: string): (r: string)
    ensures AllUpperLetters(r)
    ensures |r| <= |s|
  {
    if s == [] then []
    else if IsUpperLetter(s[0]) then [s[0]] + KeepUpperLetters(s[1..])
    else KeepUpperLetters(s[1..])
  }

  /** One character is kept exactly when it is a capital A-Z. */
  lemma KeepUpperLettersChar(c: char)
    ensures KeepUpperLetters([c]) == if IsUpperLetter(c) then [c] else []
  {
    assert [c][1..] == [];
  }

  /** The substitution distributes over concatenation, so together with
      `KeepUpperLettersChar` it keeps exactly the capitals, in order. */
  lemma {:induction false} KeepUpperLettersConcat(a: string, b: string)
    ensures KeepUpperLetters(a + b) == KeepUpperLetters(a) + KeepUpperLetters(b)
    decreases |a|
  {
    if a == [] {
      assert a + b == b;
    } else {
      assert (a + b)[0] == a[0];
      assert (a + b)[1..] == a[1..] + b;
      KeepUpperLettersConcat(a[1..], b);
    }
  }

  /** `extract_station_code` */
  function ExtractStationCode(stationInput: string): (code: string)
    ensures IsValidStationCode(stationInput) ==> code == stationInput
    ensures !IsValidStationCode(stationInput) ==>
      forall j :: FirstStation(Upper(stationInput), j) ==> code == MajorStations[j].0
    ensures !IsValidStationCode(stationInput) && NoStation(Upper(stationInput)) ==>
      var k := KeepUpperLetters(Upper(stationInput));
      code == if k == [] then stationInput else k[..if |k| < 4 then |k| else 4]
  {
    if IsValidStationCode(stationInput) then stationInput
    else
      var upper := Upper(stationInput);
      match FindStation(upper, 0)
      case Some(j) =>
        FirstStationUnique(upper, j);
        MajorStations[j].0
      case None =>
        var cleaned := KeepUpperLetters(upper);
        if |cleaned| == 0 then stationInput
        else if |cleaned| > 4 then cleaned[..4]
        else cleaned
  }

  /** Resolution never yields the empty string: the empty input matches the
      first station, and any other input is returned when nothing else is. */
  lemma ExtractStationCodeNonEmpty(stationInput: string)
    ensures |ExtractStationCode(stationInput)| > 0
  {
    if stationInput == [] {
      EmptyStationIsNewDelhi();
    } else if !IsValidStationCode(stationInput) {
      match FindStation(Upper(stationInput), 0)
      case Some(j) => StationCodesNonEmpty(j);
      case None =>
    }
  }

  lemma StationCodesNonEmpty(j: nat)
    requires j < |MajorStations|
    ensures |MajorStations[j].0| >= 3
  {
  }

  /** The empty input is contained in every name, so it resolves to the first station. */
  lemma EmptyStationIsNewDelhi()
    ensures ExtractStationCode("") == "NDLS"
  {
    assert Upper("") == "";
    ContainsEmpty(Upper(MajorStations[0].1));
    assert StationMatches("", 0);
  }

  /** A spoken city resolves through the station names. */
  lemma DelhiResolves()
    ensures ExtractStationCode("Delhi") == "NDLS"
  {
    assert Upper("Delhi") == "DELHI";
    assert Upper(MajorStations[0].1) == "NEW DELHI";
    assert OccursAt("NEW DELHI", "DELHI", 4);
    assert StationMatches("DELHI", 0);
    assert !IsUpperLetter("Delhi"[1]);
  }
}
