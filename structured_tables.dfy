/**
 * The structured-table generator: decrypted exports are read source by source
 * (initial surveys, biweekly surveys, consent forms, location points), each row
 * is turned into a typed record or dropped, and the records accumulate in the
 * generator's lists. Values are looked up across fallback column names and
 * coerced leniently. Date parsing is a parameter.
 */
module StructuredTables {
  import opened Text
  import opened Common
  import DecryptionPipeline

  // ---------------------------------------------------------------------------
  // Lookup across fallback columns (_find_value)

  /** `str(cell).strip()` */
  function Cleaned(py: Builtins, cell: Value): string {
    Strip(PyStr(py, cell))
  }

  /** The spellings of a missing value that `_find_value` refuses, besides ''. */
  predicate NullWord(s: string) {
    (|s| == 3 || |s| == 4) && (Lower(s) == "nan" || Lower(s) == "none" || Lower(s) == "null")
  }

  /** A column is used when it is present, not NaN/None, and its stripped text is neither empty nor a null word. */
  predicate Usable(py: Builtins, row: Row, column: string) {
    column in row && !IsMissing(row[column])
    && Cleaned(py, row[column]) != "" && !NullWord(Cleaned(py, row[column]))
  }

  /** Whether each column of the list is usable, position by position. */
  function UsableFlags(py: Builtins, row: Row, columns: seq<string>): (flags: seq<bool>)
    ensures |flags| == |columns|
    ensures forall j :: 0 <= j < |columns| ==> flags[j] == Usable(py, row, columns[j])
  {
    seq(|columns|, j requires 0 <= j < |columns| => Usable(py, row, columns[j]))
  }

  /** The first set flag at position i or later; |flags| when there is none. */
  function FirstSetFrom(flags: seq<bool>, i: nat): (k: nat)
    requires i <= |flags|
    ensures i <= k <= |flags|
    ensures k < |flags| ==> flags[k]
    ensures forall j :: i <= j < k ==> !flags[j]
    decreases |flags| - i
  {
    if i == |flags| then i
    else if flags[i] then i
    else FirstSetFrom(flags, i + 1)
  }

  /** The first usable column at position i or later; |columns| when there is none. */
  function FirstUsableFrom(py: Builtins, row: Row, columns: seq<string>, i: nat): (k: nat)
    requires i <= |columns|
    ensures i <= k <= |columns|
    ensures k < |columns| ==> Usable(py, row, columns[k])
    ensures forall j :: i <= j < k ==> !Usable(py, row, columns[j])
  {
    FirstSetFrom(UsableFlags(py, row, columns), i)
  }

  /** The first usable column of the list, by position. */
  function FirstUsable(py: Builtins, row: Row, columns: seq<string>): nat {
    FirstUsableFrom(py, row, columns, 0)
  }

  /**
   * The value `_find_value` returns: the stripped text of the first usable column,
   * or None. A found value has no surrounding whitespace and is not a null word.
   */
  function FoundValue(py: Builtins, row: Row, columns: seq<string>): (r: Option<string>)
    ensures r.None? <==> forall j :: 0 <= j < |columns| ==> !Usable(py, row, columns[j])
    ensures r.Some? ==> r.value != "" && !IsSpace(r.value[0]) && !IsSpace(r.value[|r.value| - 1]) && !NullWord(r.value)
  {
    var k := FirstUsable(py, row, columns);
    if k < |columns| then Some(Cleaned(py, row[columns[k]])) else None
  }

  /** `_find_value`: the loop over the candidate columns, returning at the first usable one. */
  method FindValue(py: Builtins, row: Row, columns: seq<string>) returns (r: Option<string>)
    ensures r == FoundValue(py, row, columns)
  {
    for i := 0 to |columns|
      invariant forall j :: 0 <= j < i ==> !Usable(py, row, columns[j])
    {
      var column := columns[i];
      if column in row && !IsMissing(row[column]) {
        var value := Strip(PyStr(py, row[column]));
        if value != "" && !NullWord(value) {
          FirstUsableAt(py, row, columns, i);
          return Some(value);
        }
      }
    }
    FirstUsableAt(py, row, columns, |columns|);
    return None;
  }

  /** The first usable position is the one before which nothing is usable. */
  lemma {:induction false} FirstUsableAt(py: Builtins, row: Row, columns: seq<string>, i: nat)
    requires i <= |columns|
    requires forall j :: 0 <= j < i ==> !Usable(py, row, columns[j])
    requires i < |columns| ==> Usable(py, row, columns[i])
    ensures FirstUsable(py, row, columns) == i
  {
    var k := 0;
    while k < i
      invariant 0 <= k <= i
      invariant FirstSetFrom(UsableFlags(py, row, columns), k) == FirstUsable(py, row, columns)
    {
      k := k + 1;
    }
  }

  /** A fallback column is consulted only when every column before it is unusable. */
  lemma {:induction false} FoundValuePrefersEarlierColumns(py: Builtins, row: Row, columns: seq<string>, more: seq<string>)
    requires FoundValue(py, row, columns).Some?
    ensures FoundValue(py, row, columns + more) == FoundValue(py, row, columns)
  {
    var k := FirstUsable(py, row, columns);
    assert forall j :: 0 <= j < k ==> (columns + more)[j] == columns[j];
    assert (columns + more)[k] == columns[k];
    FirstUsableAt(py, row, columns + more, k);
  }

  // ---------------------------------------------------------------------------
  // Coercions (_safe_int, _safe_float, _safe_bool)

  /** A found value, or None as a cell. */
  function OrNull(v: Option<string>): Value {
    match v
    case Some(s) => Str(s)
    case None => Null
  }

  /** `int(x)` for a float: truncation toward zero. */
  function Truncate(r: real): (i: int)
    ensures r >= 0.0 ==> i as real <= r < i as real + 1.0
    ensures r < 0.0 ==> i as real - 1.0 < r <= i as real
  {
    if r >= 0.0 then r.Floor else -((-r).Floor)
  }

  /** `_safe_int`: `int(float(value))` of a found value, None when absent or unparsable. */
  function SafeInt(py: Builtins, value: Option<string>): (r: Option<int>)
    ensures value.None? ==> r.None?
    ensures r.Some? ==> value.Some? && py.parseFloat(value.value).Some? && r.value == Truncate(py.parseFloat(value.value).value)
    ensures value.Some? && py.parseFloat(value.value).Some? ==> r == Some(Truncate(py.parseFloat(value.value).value))
  {
    match value
    case None => None
    case Some(s) =>
      match py.parseFloat(s)
      case None => None
      case Some(x) => Some(Truncate(x))
  }

  /**
   * `_safe_float` on a cell: None for a falsy cell or text that does not parse,
   * the number for text, ints, floats and True; NaN stays NaN.
   */
  function SafeFloat(py: Builtins, value: Value): (r: Option<Value>)
    ensures !Truthy(value) ==> r.None?
    ensures r.Some? ==> r.value.Float? || r.value.NaN?
    ensures value.Float? && value.r != 0.0 ==> r == Some(value)
    ensures value.Str? && value.s != "" ==>
      r == (if py.parseFloat(value.s).Some? then Some(Float(py.parseFloat(value.s).value)) else None)
    ensures value.Int? && value.i != 0 ==> r == Some(Float(value.i as real))
    ensures value == Bool(true) ==> r == Some(Float(1.0))
    ensures value.NaN? ==> r == Some(NaN)
    ensures value.List? || value.Dict? ==> r.None?
  {
    if !Truthy(value) then None
    else
      match value
      case Str(s) => (match py.parseFloat(s) case Some(x) => Some(Float(x)) case None => None)
      case Int(i) => Some(Float(i as real))
      case Float(x) => Some(Float(x))
      case Bool(b) => Some(Float(1.0))
      case NaN => Some(NaN)
      case _ => None
  }

  /** The answers `_safe_bool` reads as yes. */
  predicate YesWord(s: string) {
    s == "true" || s == "yes" || s == "1" || s == "on" || s == "agree"
  }

  /**
   * `_safe_bool`: a bool as it is; text is true iff its lower case is one of
   * true, yes, 1, on, agree; a number is true iff it is positive; anything else
   * is false.
   */
  function SafeBool(value: Value): (b: bool)
    ensures value.Bool? ==> b == value.b
    ensures value.Str? ==> (b <==> YesWord(Lower(value.s)))
    ensures value.Int? ==> (b <==> value.i > 0)
    ensures value.Float? ==> (b <==> value.r > 0.0)
    ensures (value.Null? || value.NaN? || value.List? || value.Dict?) ==> !b
  {
    match value
    case Bool(x) => x
    case Str(s) => YesWord(Lower(s))
    case Int(i) => i > 0
    case Float(x) => x > 0.0
    case _ => false
  }

  /** Lower-casing an ASCII character after upper-casing it is lower-casing it. */
  lemma LowerUpperChar(c: char)
    ensures LowerChar(UpperChar(c)) == LowerChar(c)
  {
  }

  /** Text answers are read case-insensitively: "YES", "Yes" and "yes" agree. */
  lemma SafeBoolIgnoresCase(s: string)
    ensures SafeBool(Str(Upper(s))) == SafeBool(Str(s)) == SafeBool(Str(Lower(s)))
  {
    forall i | 0 <= i < |s|
      ensures Lower(Upper(s))[i] == Lower(s)[i] && Lower(Lower(s))[i] == Lower(s)[i]
    {
      LowerUpperChar(s[i]);
    }
    assert Lower(Upper(s)) == Lower(s);
    assert Lower(Lower(s)) == Lower(s);
  }

  // ---------------------------------------------------------------------------
  // Dates (_safe_date, _parse_timestamp)

  /** A parsed date and time, as the location rows use it. */
  datatype DateTime = DateTime(date: string, time: string, dayOfWeek: string, hour: nat)

  /** `datetime.strptime` and `datetime.fromisoformat`, which the model does not define. */
  datatype Calendar = Calendar(
    strptime: (string, string) -> Option<DateTime>,
    fromIsoFormat: string -> Option<DateTime>)

  /** The formats `_safe_date` tries, in order. */
  const DateFormats: seq<string> := ["%Y-%m-%d %H:%M:%S", "%Y-%m-%d", "%d/%m/%Y", "%m/%d/%Y"]

  /** The first format, from position k on, that parses the text. */
  function FirstParsed(cal: Calendar, text: string, formats: seq<string>): (r: Option<DateTime>)
    ensures r.None? <==> forall k :: 0 <= k < |formats| ==> cal.strptime(text, formats[k]).None?
    ensures r.Some? ==>
      exists k :: 0 <= k < |formats| && cal.strptime(text, formats[k]) == r
        && forall j :: 0 <= j < k ==> cal.strptime(text, formats[j]).None?
    decreases |formats|
  {
    if formats == [] then None
    else
      match cal.strptime(text, formats[0])
      case Some(dt) => Some(dt)
      case None => FirstParsed(cal, text, formats[1..])
  }

  /** `_safe_date`: the ISO date of the first format that parses `str(value)`, None for a falsy value. */
  function SafeDate(py: Builtins, cal: Calendar, value: Value): (r: Option<string>)
    ensures r.Some? <==> Truthy(value) && exists k :: 0 <= k < |DateFormats| && cal.strptime(PyStr(py, value), DateFormats[k]).Some?
    ensures Truthy(value) && cal.strptime(PyStr(py, value), DateFormats[0]).Some? ==>
      r == Some(cal.strptime(PyStr(py, value), DateFormats[0]).value.date)
    ensures Truthy(value) && FirstParsed(cal, PyStr(py, value), DateFormats).Some? ==>
      r == Some(FirstParsed(cal, PyStr(py, value), DateFormats).value.date)
  {
    if !Truthy(value) then None
    else
      match FirstParsed(cal, PyStr(py, value), DateFormats)
      case Some(dt) => Some(dt.date)
      case None => None
  }

  /**
   * `_parse_timestamp`: ISO format with 'Z' read as '+00:00', then the full
   * date-time format. A non-text timestamp fails both and gives None.
   */
  function ParseTimestamp(cal: Calendar, timestamp: Value): (r: Option<DateTime>)
    ensures !timestamp.Str? ==> r.None?
    ensures r.Some? ==>
      timestamp.Str? && timestamp.s != ""
      && (r == cal.fromIsoFormat(ReplaceChar(timestamp.s, 'Z', "+00:00"))
          || (cal.fromIsoFormat(ReplaceChar(timestamp.s, 'Z', "+00:00")).None? && r == cal.strptime(timestamp.s, "%Y-%m-%d %H:%M:%S")))
    // a successful ISO parse is returned; only when it fails is the fixed format tried
    ensures timestamp.Str? && timestamp.s != "" ==>
      r == (if cal.fromIsoFormat(ReplaceChar(timestamp.s, 'Z', "+00:00")).Some?
            then cal.fromIsoFormat(ReplaceChar(timestamp.s, 'Z', "+00:00"))
            else cal.strptime(timestamp.s, "%Y-%m-%d %H:%M:%S"))
  {
    if !Truthy(timestamp) || !timestamp.Str? then None
    else
      match cal.fromIsoFormat(ReplaceChar(timestamp.s, 'Z', "+00:00"))
      case Some(dt) => Some(dt)
      case None => cal.strptime(timestamp.s, "%Y-%m-%d %H:%M:%S")
  }

  // ---------------------------------------------------------------------------
  // Records and their extraction rules

  const ParticipantIdColumns: seq<string> := ["ResponseId", "participantId", "participant_id", "Q1"]
  const AgeColumns: seq<string> := ["Q2", "age", "Age"]
  const GenderColumns: seq<string> := ["Q3", "gender", "Gender"]
  const EthnicityColumns: seq<string> := ["Q4", "ethnicity", "Ethnicity"]
  const EducationColumns: seq<string> := ["Q5", "education", "Education"]
  const EmploymentColumns: seq<string> := ["Q6", "employment", "Employment"]
  const IncomeColumns: seq<string> := ["Q7", "income", "Income"]
  const HouseholdSizeColumns: seq<string> := ["Q8", "household_size", "HouseholdSize"]
  const LocationAreaColumns: seq<string> := ["Q9", "location_area", "LocationArea"]

  const ResponseIdColumns: seq<string> := ["ResponseId", "response_id"]
  const RespondentColumns: seq<string> := ["Q1", "participantId", "participant_id"]
  const HappinessColumns: seq<string> := ["Q2", "happiness", "happiness_score"]
  const StressColumns: seq<string> := ["Q3", "stress", "stress_level"]
  const SatisfactionColumns: seq<string> := ["Q4", "satisfaction", "life_satisfaction"]
  const HealthColumns: seq<string> := ["Q5", "health", "health_rating"]
  const ActivityColumns: seq<string> := ["Q6", "activity", "activity_level"]
  const PlacesColumns: seq<string> := ["Q7", "places", "places_visited"]
  const SocialColumns: seq<string> := ["Q8", "social", "social_interactions"]
  const GreenSpaceColumns: seq<string> := ["Q9", "green_space", "green_space_time"]
  const TransportColumns: seq<string> := ["Q10", "transport", "transport_modes"]

  datatype Participant = Participant(
    participantId: string, age: Option<int>, gender: Option<string>, ethnicity: Option<string>,
    education: Option<string>, employment: Option<string>, income: Option<string>,
    householdSize: Option<int>, locationArea: Option<string>, registrationDate: Option<string>)

  /** `_extract_participant_data`: a row without a participant id is dropped. */
  function ParticipantOf(py: Builtins, cal: Calendar, row: Row): (r: Option<Participant>)
    ensures r.Some? <==> FoundValue(py, row, ParticipantIdColumns).Some?
    ensures r.Some? ==>
      r.value.participantId == FoundValue(py, row, ParticipantIdColumns).value
      && r.value.age == SafeInt(py, FoundValue(py, row, AgeColumns))
      && r.value.householdSize == SafeInt(py, FoundValue(py, row, HouseholdSizeColumns))
  {
    match FoundValue(py, row, ParticipantIdColumns)
    case None => None
    case Some(id) =>
      Some(Participant(
        id,
        SafeInt(py, FoundValue(py, row, AgeColumns)),
        FoundValue(py, row, GenderColumns),
        FoundValue(py, row, EthnicityColumns),
        FoundValue(py, row, EducationColumns),
        FoundValue(py, row, EmploymentColumns),
        FoundValue(py, row, IncomeColumns),
        SafeInt(py, FoundValue(py, row, HouseholdSizeColumns)),
        FoundValue(py, row, LocationAreaColumns),
        SafeDate(py, cal, Get(row, "RecordedDate", Str("")))))
  }

  /** The phrase `_extract_biweekly_data` looks for in Q18, around the point count. */
  const Marker: string := "DECRYPTED: "
  const MarkerTail: string := " location points"

  /** The length of the run of digits starting at position i. */
  function DigitRun(s: string, i: nat): (n: nat)
    requires i <= |s|
    ensures i + n <= |s|
    ensures forall k :: i <= k < i + n ==> IsDigit(s[k])
    ensures i + n < |s| ==> !IsDigit(s[i + n])
    decreases |s| - i
  {
    if i < |s| && IsDigit(s[i]) then 1 + DigitRun(s, i + 1) else 0
  }

  /** A match of `DECRYPTED: (\d+) location points` starting at position p, and the number it captures. */
  function CountAt(s: string, p: nat): (r: Option<nat>)
    requires p <= |s|
    ensures r.Some? ==> StartsWith(s[p..], Marker)
  {
    if !StartsWith(s[p..], Marker) then None
    else
      var d := p + |Marker|;
      var n := DigitRun(s, d);
      if n > 0 && StartsWith(s[d + n..], MarkerTail) then Some(DigitsValue(s[d..d + n])) else None
  }

  /** `re.search`: the leftmost match from position p on. */
  function SearchCount(s: string, p: nat): Option<nat>
    requires p <= |s|
    decreases |s| - p
  {
    match CountAt(s, p)
    case Some(n) => Some(n)
    case None => if p == |s| then None else SearchCount(s, p + 1)
  }

  /** A Q18 text of the expected form gives back the count it states. */
  lemma LocationCountRoundTrip(n: nat)
    ensures SearchCount(Marker + NatToString(n) + MarkerTail, 0) == Some(n)
  {
    var digits := NatToString(n);
    var s := Marker + digits + MarkerTail;
    var d := |Marker|;
    assert s[0..] == s;
    assert s[..|Marker|] == Marker;
    assert s[d..d + |digits|] == digits;
    assert s[d + |digits|..] == MarkerTail;
    assert s[d + |digits|] == ' ';
    DigitRunIs(s, d, |digits|);
    NatToStringRoundTrip(n);
  }

  /** A run of exactly n digits followed by a non-digit. */
  lemma {:induction false} DigitRunIs(s: string, i: nat, n: nat)
    requires i + n <= |s|
    requires forall k :: i <= k < i + n ==> IsDigit(s[k])
    requires i + n < |s| ==> !IsDigit(s[i + n])
    ensures DigitRun(s, i) == n
    decreases n
  {
    if n > 0 {
      DigitRunIs(s, i + 1, n - 1);
    }
  }

  /** A match always holds the marker, so a count is only ever set when the flag is. */
  lemma {:induction false} CountImpliesMarker(s: string, p: nat)
    requires p <= |s|
    requires SearchCount(s, p).Some?
    ensures IsSubstring("DECRYPTED:", s[p..])
    decreases |s| - p
  {
    if CountAt(s, p).Some? {
      assert s[p..][..|"DECRYPTED:"|] == s[p..][..|Marker|][..|"DECRYPTED:"|];
    } else {
      CountImpliesMarker(s, p + 1);
      assert s[p..][1..] == s[p + 1..];
    }
  }

  /** The count in the Q18 text, when the expected phrase is there. */
  function LocationCount(text: string): (r: Option<nat>)
    ensures r.Some? ==> IsSubstring("DECRYPTED:", text)
  {
    var r := SearchCount(text, 0);
    if r.Some? then
      CountImpliesMarker(text, 0);
      assert text[0..] == text;
      r
    else r
  }

  datatype BiweeklyResponse = BiweeklyResponse(
    responseId: string, participantId: string, submissionDate: Option<string>,
    happinessScore: Option<Value>, stressLevel: Option<Value>, lifeSatisfaction: Option<Value>,
    healthRating: Option<Value>, activityLevel: Option<string>, placesVisited: Option<int>,
    socialInteractions: Option<int>, greenSpaceTime: Option<Value>, transportModes: Option<string>,
    hasLocationData: bool, locationPointsCount: Option<nat>)

  /**
   * `_extract_biweekly_data`: a row needs both a response id and a participant id;
   * Q18 flags location data when it holds 'DECRYPTED:', and the count is read only
   * from 'DECRYPTED: <digits> location points'.
   */
  function BiweeklyOf(py: Builtins, cal: Calendar, row: Row): (r: Option<BiweeklyResponse>)
    ensures r.Some? <==> FoundValue(py, row, ResponseIdColumns).Some? && FoundValue(py, row, RespondentColumns).Some?
    ensures r.Some? ==>
      r.value.responseId == FoundValue(py, row, ResponseIdColumns).value
      && r.value.participantId == FoundValue(py, row, RespondentColumns).value
      && (r.value.hasLocationData <==> IsSubstring("DECRYPTED:", PyStr(py, Get(row, "Q18", Str("")))))
      && (r.value.locationPointsCount.Some? ==> r.value.hasLocationData)
      && r.value.submissionDate == SafeDate(py, cal, Get(row, "RecordedDate", Str("")))
  {
    var responseId := FoundValue(py, row, ResponseIdColumns);
    var participantId := FoundValue(py, row, RespondentColumns);
    if responseId.None? || participantId.None? then None
    else
      var q18 := PyStr(py, Get(row, "Q18", Str("")));
      var hasLocation := IsSubstring("DECRYPTED:", q18);
      var count := if hasLocation then LocationCount(q18) else None;
      Some(BiweeklyResponse(
        responseId.value, participantId.value,
        SafeDate(py, cal, Get(row, "RecordedDate", Str(""))),
        SafeFloat(py, OrNull(FoundValue(py, row, HappinessColumns))),
        SafeFloat(py, OrNull(FoundValue(py, row, StressColumns))),
        SafeFloat(py, OrNull(FoundValue(py, row, SatisfactionColumns))),
        SafeFloat(py, OrNull(FoundValue(py, row, HealthColumns))),
        FoundValue(py, row, ActivityColumns),
        SafeInt(py, FoundValue(py, row, PlacesColumns)),
        SafeInt(py, FoundValue(py, row, SocialColumns)),
        SafeFloat(py, OrNull(FoundValue(py, row, GreenSpaceColumns))),
        FoundValue(py, row, TransportColumns),
        hasLocation, count))
  }

  /** An initial-survey row is kept exactly when one of its participant-id columns is usable, and that value is the id. */
  lemma ParticipantNeedsId(py: Builtins, cal: Calendar, row: Row)
    ensures ParticipantOf(py, cal, row).Some? <==>
      exists j :: 0 <= j < |ParticipantIdColumns| && Usable(py, row, ParticipantIdColumns[j])
    ensures ParticipantOf(py, cal, row).Some? ==>
      ParticipantOf(py, cal, row).value.participantId == FoundValue(py, row, ParticipantIdColumns).value
  {
  }

  /**
   * A biweekly row is kept exactly when it has both ids; it is flagged as having
   * location data when Q18 holds 'DECRYPTED:', and a count comes only with the flag.
   */
  lemma BiweeklyNeedsIds(py: Builtins, cal: Calendar, row: Row)
    ensures BiweeklyOf(py, cal, row).Some? <==>
      FoundValue(py, row, ResponseIdColumns).Some? && FoundValue(py, row, RespondentColumns).Some?
    ensures BiweeklyOf(py, cal, row).Some? ==>
      var b := BiweeklyOf(py, cal, row).value;
      (b.hasLocationData <==> IsSubstring("DECRYPTED:", PyStr(py, Get(row, "Q18", Str("")))))
      && (b.locationPointsCount.Some? ==> b.hasLocationData)
  {
  }

  /** The count a Q18 text of the expected form states is the count the biweekly record carries. */
  lemma BiweeklyReadsStatedCount(py: Builtins, cal: Calendar, row: Row, n: nat)
    requires BiweeklyOf(py, cal, row).Some?
    requires Get(row, "Q18", Str("")) == Str(Marker + NatToString(n) + MarkerTail)
    ensures BiweeklyOf(py, cal, row).value.locationPointsCount == Some(n)
  {
    StatedCountRead(n);
  }

  lemma StatedCountRead(n: nat)
    ensures IsSubstring("DECRYPTED:", Marker + NatToString(n) + MarkerTail)
    ensures LocationCount(Marker + NatToString(n) + MarkerTail) == Some(n)
  {
    var q18 := Marker + NatToString(n) + MarkerTail;
    assert q18[..|"DECRYPTED:"|] == "DECRYPTED:";
    LocationCountRoundTrip(n);
  }

  /** No position from p on starts the phrase, so no count is found. */
  lemma {:induction false} NoMarkerNoCount(s: string, p: nat)
    requires p <= |s|
    requires forall q :: p <= q <= |s| ==> !StartsWith(s[q..], Marker)
    ensures SearchCount(s, p).None?
    decreases |s| - p
  {
    if p < |s| {
      NoMarkerNoCount(s, p + 1);
    }
  }

  /**
   * The text the decryption pipeline leaves in a decrypted cell,
   * 'DECRYPTED: <n> chars', raises the location flag but never yields a count:
   * the count pattern wants 'location points' after the digits.
   */
  lemma PipelineSentinelGivesNoCount(d: DecryptionPipeline.Decryption)
    requires d.Decrypted?
    ensures IsSubstring("DECRYPTED:", DecryptionPipeline.Sentinel(d).s)
    ensures LocationCount(DecryptionPipeline.Sentinel(d).s).None?
  {
    var digits := NatToString(d.summaryLength);
    var text := DecryptionPipeline.Sentinel(d).s;
    assert text == Marker + digits + CharsTail;
    assert text[..|"DECRYPTED:"|] == "DECRYPTED:";
    CharsSentinelNoCountAtStart(digits, text);
    forall q | 1 <= q <= |text|
      ensures !StartsWith(text[q..], Marker)
    {
      CharsSentinelMarkerOnlyAtStart(digits, text, q);
    }
    NoMarkerNoCount(text, 1);
  }

  /** The word after the digits in the decryption pipeline's sentinel. */
  const CharsTail: string := " chars"

  /** At its start, 'DECRYPTED: <digits> chars' matches the marker but not the count pattern. */
  lemma CharsSentinelNoCountAtStart(digits: string, text: string)
    requires digits != [] && forall k :: 0 <= k < |digits| ==> IsDigit(digits[k])
    requires text == Marker + digits + CharsTail
    ensures CountAt(text, 0).None?
  {
    var d0 := |Marker|;
    assert text[d0..d0 + |digits|] == digits;
    assert text[d0 + |digits|] == ' ';
    DigitRunIs(text, d0, |digits|);
    assert |text[d0 + |digits|..]| == |CharsTail| < |MarkerTail|;
  }

  /** Past its first character, 'DECRYPTED: <digits> chars' never starts the marker again. */
  lemma CharsSentinelMarkerOnlyAtStart(digits: string, text: string, q: nat)
    requires forall k :: 0 <= k < |digits| ==> IsDigit(digits[k])
    requires text == Marker + digits + CharsTail
    requires 1 <= q <= |text|
    ensures !StartsWith(text[q..], Marker)
  {
    var d0 := |Marker|;
    if q == |text| {
      return;
    }
    if q == 8 {
      assert text[q + 1] == ':' != Marker[1];
      assert text[q..][1] == text[q + 1];
      return;
    }
    if q < d0 {
      assert text[q] == Marker[q];
    } else if q < d0 + |digits| {
      assert text[q] == digits[q - d0];
    } else {
      assert text[q] == CharsTail[q - d0 - |digits|];
    }
    assert text[q..][0] == text[q];
  }

  datatype ConsentRecord = ConsentRecord(
    consentId: string, participantId: string, consentDate: Option<string>, consentType: string,
    dataSharingApproved: bool, locationSharingApproved: bool, researchContactApproved: bool)

  /**
   * `_extract_consent_data`: a row needs a truthy ResponseId and Q1; Q2, Q3 and Q4
   * are the three approvals, and the consent type is always 'initial_consent'.
   */
  function ConsentOf(py: Builtins, cal: Calendar, row: Row): (r: Option<ConsentRecord>)
    ensures r.Some? <==> Truthy(Get(row, "ResponseId", Str(""))) && Truthy(Get(row, "Q1", Str("")))
    ensures r.Some? ==>
      r.value.consentType == "initial_consent"
      && r.value.dataSharingApproved == SafeBool(Get(row, "Q2", Bool(false)))
      && r.value.locationSharingApproved == SafeBool(Get(row, "Q3", Bool(false)))
      && r.value.researchContactApproved == SafeBool(Get(row, "Q4", Bool(false)))
  {
    var consentId := Get(row, "ResponseId", Str(""));
    var participantId := Get(row, "Q1", Str(""));
    if !Truthy(consentId) || !Truthy(participantId) then None
    else
      Some(ConsentRecord(
        PyStr(py, consentId), PyStr(py, participantId),
        SafeDate(py, cal, Get(row, "RecordedDate", Str(""))), "initial_consent",
        SafeBool(Get(row, "Q2", Bool(false))), SafeBool(Get(row, "Q3", Bool(false))),
        SafeBool(Get(row, "Q4", Bool(false)))))
  }

  datatype LocationTrack = LocationTrack(
    trackId: string, participantId: string, responseId: string, timestamp: Value,
    latitude: Value, longitude: Value, accuracy: Option<Value>, altitude: Option<Value>,
    speed: Option<Value>, heading: Option<Value>, moment: Option<DateTime>)

  /** `f"{participant_id}_{timestamp}"` */
  function TrackId(py: Builtins, participant: Value, timestamp: Value): string {
    PyStr(py, participant) + "_" + PyStr(py, timestamp)
  }

  /** For one participant, two points share a track id exactly when their timestamps print alike. */
  lemma TrackIdsDistinguishTimestamps(py: Builtins, participant: Value, t1: Value, t2: Value)
    ensures TrackId(py, participant, t1) == TrackId(py, participant, t2) <==> PyStr(py, t1) == PyStr(py, t2)
  {
    var prefix := PyStr(py, participant) + "_";
    if TrackId(py, participant, t1) == TrackId(py, participant, t2) {
      assert TrackId(py, participant, t1)[|prefix|..] == PyStr(py, t1);
      assert TrackId(py, participant, t2)[|prefix|..] == PyStr(py, t2);
    }
  }

  /** The five required fields of a location row are all truthy. */
  predicate LocationComplete(py: Builtins, row: Row) {
    Truthy(Get(row, "response_id", Str(""))) && Truthy(Get(row, "timestamp", Str("")))
    && SafeFloat(py, Get(row, "latitude", Str(""))).Some? && Truthy(SafeFloat(py, Get(row, "latitude", Str(""))).value)
    && SafeFloat(py, Get(row, "longitude", Str(""))).Some? && Truthy(SafeFloat(py, Get(row, "longitude", Str(""))).value)
  }

  /**
   * `_extract_location_data`: the response id doubles as the participant id, and a
   * row is dropped when any required field is falsy, a coordinate of exactly 0
   * included.
   */
  function TrackOf(py: Builtins, cal: Calendar, row: Row): (r: Option<LocationTrack>)
    ensures r.Some? <==> LocationComplete(py, row)
    ensures r.Some? ==>
      r.value.participantId == r.value.responseId
      && r.value.trackId == TrackId(py, Get(row, "response_id", Str("")), Get(row, "timestamp", Str("")))
      && r.value.latitude != Float(0.0) && r.value.longitude != Float(0.0)
  {
    if !LocationComplete(py, row) then None
    else
      var id := Get(row, "response_id", Str(""));
      var timestamp := Get(row, "timestamp", Str(""));
      Some(LocationTrack(
        TrackId(py, id, timestamp), PyStr(py, id), PyStr(py, id), timestamp,
        SafeFloat(py, Get(row, "latitude", Str(""))).value,
        SafeFloat(py, Get(row, "longitude", Str(""))).value,
        SafeFloat(py, Get(row, "accuracy", Str(""))),
        SafeFloat(py, Get(row, "altitude", Str(""))),
        SafeFloat(py, Get(row, "speed", Str(""))),
        SafeFloat(py, Get(row, "heading", Str(""))),
        ParseTimestamp(cal, timestamp)))
  }

  // ---------------------------------------------------------------------------
  // Sources, files and the generator's state

  /** The four kinds of input the generator reads. */
  datatype Source = InitialSource | BiweeklySource | ConsentSource | LocationSource

  /** The file names each source looks for, in order. */
  function SourceFiles(source: Source): seq<string> {
    match source
    case InitialSource => ["initial_decrypted_responses.csv", "initial_survey_responses.csv"]
    case BiweeklySource => ["biweekly_decrypted_responses.csv", "biweekly_survey_responses.csv"]
    case ConsentSource => ["consent_decrypted_responses.csv", "consent_form_responses.csv"]
    case LocationSource => ["biweekly_decrypted_locations.csv", "location_data.csv"]
  }

  /** The prefix of the quality issue a failed file of each source logs. */
  function FailureLabel(source: Source): string {
    match source
    case InitialSource => "Initial survey processing error: "
    case BiweeklySource => "Biweekly survey processing error: "
    case ConsentSource => "Consent data processing error: "
    case LocationSource => "Location data processing error: "
  }

  /** The input directory: each file present, with its rows or the error reading it raised. */
  type Directory = map<string, Outcome<seq<Row>>>

  /** `_find_files`: the candidate names present, in the order given. */
  function FindFiles(dir: Directory, names: seq<string>): (found: seq<Outcome<seq<Row>>>)
    ensures |found| <= |names|
    ensures (forall k :: 0 <= k < |names| ==> names[k] !in dir) ==> found == []
    decreases |names|
  {
    if names == [] then []
    else (if names[0] in dir then [dir[names[0]]] else []) + FindFiles(dir, names[1..])
  }

  /** One more candidate name adds its file exactly when it exists, after the files found before. */
  lemma {:induction false} FindFilesAppend(dir: Directory, names: seq<string>, n: string)
    ensures FindFiles(dir, names + [n]) == FindFiles(dir, names) + (if n in dir then [dir[n]] else [])
    decreases |names|
  {
    if names == [] {
      assert FindFiles(dir, [n]) == (if n in dir then [dir[n]] else []) + FindFiles(dir, []);
    } else {
      var head := if names[0] in dir then [dir[names[0]]] else [];
      var tail := if n in dir then [dir[n]] else [];
      assert (names + [n])[0] == names[0];
      assert (names + [n])[1..] == names[1..] + [n];
      FindFilesAppend(dir, names[1..], n);
      calc {
        FindFiles(dir, names + [n]);
        head + FindFiles(dir, names[1..] + [n]);
        head + (FindFiles(dir, names[1..]) + tail);
        (head + FindFiles(dir, names[1..])) + tail;
        FindFiles(dir, names) + tail;
      }
    }
  }

  /** The generator's lists and statistics. */
  datatype Structured = Structured(
    participants: seq<Participant>, biweekly: seq<BiweeklyResponse>, consents: seq<ConsentRecord>,
    tracks: seq<LocationTrack>, filesProcessed: nat, participantsFound: nat, responsesProcessed: nat,
    locationPoints: nat, issues: seq<string>)

  /** Between files, each statistic is the length of the list it summarises. */
  predicate StatsMatch(s: Structured) {
    s.participantsFound == |s.participants| && s.responsesProcessed == |s.biweekly|
    && s.locationPoints == |s.tracks|
  }

  /** The record of a kept row, none for a dropped one. */
  function Kept<T>(r: Option<T>): (xs: seq<T>)
    ensures |xs| <= 1
    ensures r.Some? ==> xs == [r.value]
    ensures r.None? ==> xs == []
  {
    match r
    case Some(x) => [x]
    case None => []
  }

  /**
   * The row extractors of the four sources. The generator's bookkeeping is stated
   * over any extractors; `Standard` holds the ones defined above.
   */
  datatype Extractors = Extractors(
    participant: Row -> Option<Participant>,
    biweekly: Row -> Option<BiweeklyResponse>,
    consent: Row -> Option<ConsentRecord>,
    track: Row -> Option<LocationTrack>)

  function Standard(py: Builtins, cal: Calendar): (ex: Extractors)
    ensures forall row :: ex.participant(row) == ParticipantOf(py, cal, row)
    ensures forall row :: ex.biweekly(row) == BiweeklyOf(py, cal, row)
    ensures forall row :: ex.consent(row) == ConsentOf(py, cal, row)
    ensures forall row :: ex.track(row) == TrackOf(py, cal, row)
  {
    Extractors(
      row => ParticipantOf(py, cal, row), row => BiweeklyOf(py, cal, row),
      row => ConsentOf(py, cal, row), row => TrackOf(py, cal, row))
  }

  /** The records extracted from rows, in row order, dropped rows left out. */
  function Extracted<T>(extract: Row -> Option<T>, rows: seq<Row>): (r: seq<T>)
    ensures |r| <= |rows|
    decreases |rows|
  {
    if rows == [] then []
    else Extracted(extract, rows[..|rows| - 1]) + Kept(extract(rows[|rows| - 1]))
  }

  /** Every extracted record is the extraction of some row. */
  lemma {:induction false} ExtractedFromRows<T>(extract: Row -> Option<T>, rows: seq<Row>, k: nat)
    requires k < |Extracted(extract, rows)|
    ensures exists i :: 0 <= i < |rows| && extract(rows[i]) == Some(Extracted(extract, rows)[k])
    decreases |rows|
  {
    var init := rows[..|rows| - 1];
    var last := rows[|rows| - 1];
    if k < |Extracted(extract, init)| {
      ExtractedFromRows(extract, init, k);
      var i :| 0 <= i < |init| && extract(init[i]) == Some(Extracted(extract, init)[k]);
      assert rows[i] == init[i];
    } else {
      assert extract(rows[|rows| - 1]) == Some(Extracted(extract, rows)[k]);
    }
  }

  /** Every record a consent file yields is an initial consent. */
  lemma ConsentsAreInitial(py: Builtins, cal: Calendar, rows: seq<Row>)
    ensures forall c :: c in Extracted(Standard(py, cal).consent, rows) ==> c.consentType == "initial_consent"
  {
    var ex := Standard(py, cal);
    forall c | c in Extracted(ex.consent, rows)
      ensures c.consentType == "initial_consent"
    {
      var k :| 0 <= k < |Extracted(ex.consent, rows)| && Extracted(ex.consent, rows)[k] == c;
      ExtractedFromRows(ex.consent, rows, k);
    }
  }

  /** Every location point a file yields carries its response id as its participant id. */
  lemma TracksKeyedByResponse(py: Builtins, cal: Calendar, rows: seq<Row>)
    ensures forall t :: t in Extracted(Standard(py, cal).track, rows) ==> t.participantId == t.responseId
  {
    var ex := Standard(py, cal);
    forall t | t in Extracted(ex.track, rows)
      ensures t.participantId == t.responseId
    {
      var k :| 0 <= k < |Extracted(ex.track, rows)| && Extracted(ex.track, rows)[k] == t;
      ExtractedFromRows(ex.track, rows, k);
    }
  }

  /** Extracting one more row appends its record, if it is kept. */
  lemma ExtractedStep<T>(extract: Row -> Option<T>, rows: seq<Row>, row: Row)
    ensures Extracted(extract, rows + [row]) == Extracted(extract, rows) + Kept(extract(row))
  {
    assert (rows + [row])[..|rows|] == rows;
  }

  /** A row of the source appended to its list when it is kept. */
  function RowAdded(ex: Extractors, s: Structured, source: Source, row: Row): Structured {
    match source
    case InitialSource => s.(participants := s.participants + Kept(ex.participant(row)))
    case BiweeklySource => s.(biweekly := s.biweekly + Kept(ex.biweekly(row)))
    case ConsentSource => s.(consents := s.consents + Kept(ex.consent(row)))
    case LocationSource => s.(tracks := s.tracks + Kept(ex.track(row)))
  }

  /** All rows of one file, extracted in order and appended to the source's list. */
  function RowsAdded(ex: Extractors, s: Structured, source: Source, rows: seq<Row>): Structured {
    match source
    case InitialSource => s.(participants := s.participants + Extracted(ex.participant, rows))
    case BiweeklySource => s.(biweekly := s.biweekly + Extracted(ex.biweekly, rows))
    case ConsentSource => s.(consents := s.consents + Extracted(ex.consent, rows))
    case LocationSource => s.(tracks := s.tracks + Extracted(ex.track, rows))
  }

  /** Adding the rows one at a time is adding them all. */
  lemma RowsAddedStep(ex: Extractors, s: Structured, source: Source, rows: seq<Row>, row: Row)
    ensures RowsAdded(ex, s, source, rows + [row]) == RowAdded(ex, RowsAdded(ex, s, source, rows), source, row)
  {
    match source {
      case InitialSource =>
        ExtractedStep(ex.participant, rows, row);
        assert s.participants + (Extracted(ex.participant, rows) + Kept(ex.participant(row)))
          == (s.participants + Extracted(ex.participant, rows)) + Kept(ex.participant(row));
      case BiweeklySource =>
        ExtractedStep(ex.biweekly, rows, row);
        assert s.biweekly + (Extracted(ex.biweekly, rows) + Kept(ex.biweekly(row)))
          == (s.biweekly + Extracted(ex.biweekly, rows)) + Kept(ex.biweekly(row));
      case ConsentSource =>
        ExtractedStep(ex.consent, rows, row);
        assert s.consents + (Extracted(ex.consent, rows) + Kept(ex.consent(row)))
          == (s.consents + Extracted(ex.consent, rows)) + Kept(ex.consent(row));
      case LocationSource =>
        ExtractedStep(ex.track, rows, row);
        assert s.tracks + (Extracted(ex.track, rows) + Kept(ex.track(row)))
          == (s.tracks + Extracted(ex.track, rows)) + Kept(ex.track(row));
    }
  }

  /** After a file is read: one more file processed, and the source's statistic set to its list's length. */
  function FileCounted(s: Structured, source: Source): Structured {
    var s1 := s.(filesProcessed := s.filesProcessed + 1);
    match source
    case InitialSource => s1.(participantsFound := |s1.participants|)
    case BiweeklySource => s1.(responsesProcessed := |s1.biweekly|)
    case ConsentSource => s1
    case LocationSource => s1.(locationPoints := |s1.tracks|)
  }

  /**
   * A source's files in order. A file that cannot be read logs an issue and stops
   * the source, which then reports failure; files read before it keep their rows.
   */
  function SourceEffect(ex: Extractors, s: Structured, source: Source, files: seq<Outcome<seq<Row>>>): (Structured, bool)
    decreases |files|
  {
    if files == [] then (s, true)
    else
      match files[0]
      case Err(m) => (s.(issues := s.issues + [FailureLabel(source) + m]), false)
      case Ok(rows) => SourceEffect(ex, FileCounted(RowsAdded(ex, s, source, rows), source), source, files[1..])
  }

  /**
   * A source reports success iff none of its files failed, and touches only its
   * own list, its statistic, the file counter and the issues; the statistics stay
   * bounded by the lists.
   */
  lemma {:induction false} SourceEffectFacts(ex: Extractors, s: Structured, source: Source, files: seq<Outcome<seq<Row>>>)
    ensures SourceEffect(ex, s, source, files).1 <==> forall k :: 0 <= k < |files| ==> files[k].Ok?
    ensures StatsMatch(s) ==> StatsMatch(SourceEffect(ex, s, source, files).0)
    ensures var r := SourceEffect(ex, s, source, files).0;
      (source != InitialSource ==> r.participants == s.participants && r.participantsFound == s.participantsFound)
      && (source != BiweeklySource ==> r.biweekly == s.biweekly && r.responsesProcessed == s.responsesProcessed)
      && (source != ConsentSource ==> r.consents == s.consents)
      && (source != LocationSource ==> r.tracks == s.tracks && r.locationPoints == s.locationPoints)
    decreases |files|
  {
    if files != [] && files[0].Ok? {
      var next := FileCounted(RowsAdded(ex, s, source, files[0].value), source);
      SourceEffectFacts(ex, next, source, files[1..]);
      assert forall k :: 1 <= k < |files| ==> files[k] == files[1..][k - 1];
    }
  }

  /** The four sources in their fixed order, each run whatever the ones before it reported. */
  function AllSources(ex: Extractors, s: Structured, dir: Directory): (Structured, bool) {
    var (s1, ok1) := SourceEffect(ex, s, InitialSource, FindFiles(dir, SourceFiles(InitialSource)));
    var (s2, ok2) := SourceEffect(ex, s1, BiweeklySource, FindFiles(dir, SourceFiles(BiweeklySource)));
    var (s3, ok3) := SourceEffect(ex, s2, ConsentSource, FindFiles(dir, SourceFiles(ConsentSource)));
    var (s4, ok4) := SourceEffect(ex, s3, LocationSource, FindFiles(dir, SourceFiles(LocationSource)));
    (s4, ok1 && ok2 && ok3 && ok4)
  }

  /** What a source appends to its own list depends only on that list, not on the rest of the state. */
  lemma {:induction false} SourceEffectTableOnly(ex: Extractors, s: Structured, t: Structured, source: Source, files: seq<Outcome<seq<Row>>>)
    requires source == LocationSource ==> s.tracks == t.tracks
    requires source == ConsentSource ==> s.consents == t.consents
    ensures source == LocationSource ==>
      SourceEffect(ex, s, source, files).0.tracks == SourceEffect(ex, t, source, files).0.tracks
    ensures source == ConsentSource ==>
      SourceEffect(ex, s, source, files).0.consents == SourceEffect(ex, t, source, files).0.consents
    decreases |files|
  {
    if files != [] && files[0].Ok? {
      var rows := files[0].value;
      SourceEffectTableOnly(ex, FileCounted(RowsAdded(ex, s, source, rows), source),
        FileCounted(RowsAdded(ex, t, source, rows), source), source, files[1..]);
    }
  }

  /**
   * A failing source does not keep the later ones from running: the consent
   * records and location points come out as if their source ran alone.
   */
  lemma LaterSourcesStillRun(ex: Extractors, s: Structured, dir: Directory)
    ensures AllSources(ex, s, dir).0.tracks ==
      SourceEffect(ex, s, LocationSource, FindFiles(dir, SourceFiles(LocationSource))).0.tracks
    ensures AllSources(ex, s, dir).0.consents ==
      SourceEffect(ex, s, ConsentSource, FindFiles(dir, SourceFiles(ConsentSource))).0.consents
  {
    var (s1, _) := SourceEffect(ex, s, InitialSource, FindFiles(dir, SourceFiles(InitialSource)));
    SourceEffectFacts(ex, s, InitialSource, FindFiles(dir, SourceFiles(InitialSource)));
    var (s2, _) := SourceEffect(ex, s1, BiweeklySource, FindFiles(dir, SourceFiles(BiweeklySource)));
    SourceEffectFacts(ex, s1, BiweeklySource, FindFiles(dir, SourceFiles(BiweeklySource)));
    var (s3, _) := SourceEffect(ex, s2, ConsentSource, FindFiles(dir, SourceFiles(ConsentSource)));
    SourceEffectFacts(ex, s2, ConsentSource, FindFiles(dir, SourceFiles(ConsentSource)));
    SourceEffectFacts(ex, s3, LocationSource, FindFiles(dir, SourceFiles(LocationSource)));
    SourceEffectTableOnly(ex, s, s3, LocationSource, FindFiles(dir, SourceFiles(LocationSource)));
    SourceEffectTableOnly(ex, s, s2, ConsentSource, FindFiles(dir, SourceFiles(ConsentSource)));
  }

  // ---------------------------------------------------------------------------
  // The generator

  class StructuredDataTablesGenerator {
    var participants: seq<Participant>
    var biweeklyResponses: seq<BiweeklyResponse>
    var consentRecords: seq<ConsentRecord>
    var locationTracks: seq<LocationTrack>
    var filesProcessed: nat
    var participantsFound: nat
    var responsesProcessed: nat
    var locationPoints: nat
    var dataQualityIssues: seq<string>

    function Snapshot(): Structured
      reads this
    {
      Structured(participants, biweeklyResponses, consentRecords, locationTracks,
        filesProcessed, participantsFound, responsesProcessed, locationPoints, dataQualityIssues)
    }

    predicate Valid()
      reads this
    {
      StatsMatch(Snapshot())
    }

    constructor()
      ensures Snapshot() == Structured([], [], [], [], 0, 0, 0, 0, [])
      ensures Valid()
    {
      participants := [];
      biweeklyResponses := [];
      consentRecords := [];
      locationTracks := [];
      filesProcessed := 0;
      participantsFound := 0;
      responsesProcessed := 0;
      locationPoints := 0;
      dataQualityIssues := [];
    }

    /** One row: the source's extractor, and the record appended when the row is kept. */
    method AddRow(ex: Extractors, source: Source, row: Row)
      modifies this
      ensures Snapshot() == RowAdded(ex, old(Snapshot()), source, row)
    {
      match source {
        case InitialSource => participants := participants + Kept(ex.participant(row));
        case BiweeklySource => biweeklyResponses := biweeklyResponses + Kept(ex.biweekly(row));
        case ConsentSource => consentRecords := consentRecords + Kept(ex.consent(row));
        case LocationSource => locationTracks := locationTracks + Kept(ex.track(row));
      }
    }

    /** The rows of one file (`df.iterrows()`), each extracted and kept or dropped. */
    method AddRows(ex: Extractors, source: Source, rows: seq<Row>)
      modifies this
      ensures Snapshot() == RowsAdded(ex, old(Snapshot()), source, rows)
    {
      ghost var s0 := Snapshot();
      for j := 0 to |rows|
        invariant Snapshot() == RowsAdded(ex, s0, source, rows[..j])
      {
        RowsAddedStep(ex, s0, source, rows[..j], rows[j]);
        assert rows[..j + 1] == rows[..j] + [rows[j]];
        AddRow(ex, source, rows[j]);
      }
      assert rows[..|rows|] == rows;
    }

    /** The statistics after a file is read: one more file, and the source's list length. */
    method CountFile(source: Source)
      modifies this
      ensures Snapshot() == FileCounted(old(Snapshot()), source)
    {
      filesProcessed := filesProcessed + 1;
      match source {
        case InitialSource => participantsFound := |participants|;
        case BiweeklySource => responsesProcessed := |biweeklyResponses|;
        case ConsentSource =>
        case LocationSource => locationPoints := |locationTracks|;
      }
    }

    /**
     * `_process_initial_surveys`, `_process_biweekly_surveys`, `_process_consent_data`
     * and `_process_location_data`: every file of the source in order, each row
     * extracted, the file counted; the first unreadable file logs an issue and
     * ends the source with failure.
     */
    method ProcessSource(ex: Extractors, source: Source, files: seq<Outcome<seq<Row>>>) returns (ok: bool)
      modifies this
      ensures (Snapshot(), ok) == SourceEffect(ex, old(Snapshot()), source, files)
    {
      var i := 0;
      while i < |files|
        invariant 0 <= i <= |files|
        invariant SourceEffect(ex, Snapshot(), source, files[i..]) == SourceEffect(ex, old(Snapshot()), source, files)
      {
        assert files[i..][0] == files[i] && files[i..][1..] == files[i + 1..];
        match files[i] {
          case Err(m) =>
            dataQualityIssues := dataQualityIssues + [FailureLabel(source) + m];
            return false;
          case Ok(rows) =>
            AddRows(ex, source, rows);
            CountFile(source);
        }
        i := i + 1;
      }
      return true;
    }

    /**
     * `process_all_data`: false when the input directory is missing; otherwise all
     * four sources run in order, and the result (which decides whether the output
     * files are written) is true iff every source succeeded.
     */
    method ProcessAllData(py: Builtins, cal: Calendar, inputExists: bool, dir: Directory) returns (success: bool)
      requires Valid()
      modifies this
      ensures Valid()
      ensures !inputExists ==> !success && Snapshot() == old(Snapshot())
      ensures inputExists ==> (Snapshot(), success) == AllSources(Standard(py, cal), old(Snapshot()), dir)
    {
      if !inputExists {
        return false;
      }
      var ex := Standard(py, cal);
      SourceEffectFacts(ex, Snapshot(), InitialSource, FindFiles(dir, SourceFiles(InitialSource)));
      var ok1 := ProcessSource(ex, InitialSource, FindFiles(dir, SourceFiles(InitialSource)));
      SourceEffectFacts(ex, Snapshot(), BiweeklySource, FindFiles(dir, SourceFiles(BiweeklySource)));
      var ok2 := ProcessSource(ex, BiweeklySource, FindFiles(dir, SourceFiles(BiweeklySource)));
      SourceEffectFacts(ex, Snapshot(), ConsentSource, FindFiles(dir, SourceFiles(ConsentSource)));
      var ok3 := ProcessSource(ex, ConsentSource, FindFiles(dir, SourceFiles(ConsentSource)));
      SourceEffectFacts(ex, Snapshot(), LocationSource, FindFiles(dir, SourceFiles(LocationSource)));
      var ok4 := ProcessSource(ex, LocationSource, FindFiles(dir, SourceFiles(LocationSource)));
      success := ok1 && ok2 && ok3 && ok4;
    }
  }
}
