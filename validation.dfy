/**
 * The survey data validator: completeness of the critical and important fields of
 * each table, consistency of participants between consent, initial and biweekly
 * surveys, validity of location coordinates, participant journeys, and the
 * weighted quality score with its grade and exit code. Percentages are exact
 * rationals; the one-decimal rounding of the stored figures is left out.
 */
module Validation {
  import opened Text
  import opened Common

  // ---------------------------------------------------------------------------
  // Percentages

  function Max1(n: nat): (m: nat)
    ensures m >= 1 && (n > 0 ==> m == n)
  {
    if n == 0 then 1 else n
  }

  /** `part / max(whole, 1) * 100`. */
  function Percent(part: nat, whole: nat): real {
    (part as real) / (Max1(whole) as real) * 100.0
  }

  /** A share of a whole is between 0 and 100 per cent, and 100 exactly when it is all of a non-empty whole. */
  lemma PercentBounds(part: nat, whole: nat)
    requires part <= whole
    ensures 0.0 <= Percent(part, whole) <= 100.0
    ensures Percent(part, whole) == 100.0 <==> part == whole && whole > 0
  {
    var w := Max1(whole) as real;
    var q := (part as real) / w;
    assert q * w == part as real;
    if part == whole && whole > 0 {
      DivSelf(w);
    }
    if Percent(part, whole) == 100.0 {
      assert q == 1.0;
      assert part as real == w;
    }
  }

  lemma DivSelf(w: real)
    requires w > 0.0
    ensures w / w == 1.0
  {
  }

  /** A finite set has at least as many elements as any subset of it. */
  lemma SubsetCard<T>(a: set<T>, b: set<T>)
    requires a <= b
    ensures |a| <= |b|
  {
    assert b == a + (b - a) && a * (b - a) == {};
  }

  /** A percentage threshold is a comparison of whole numbers. */
  lemma PercentAbove(part: nat, whole: nat, threshold: nat)
    requires whole > 0
    ensures Percent(part, whole) > threshold as real <==> 100 * part > threshold * whole
    ensures Percent(part, whole) < threshold as real <==> 100 * part < threshold * whole
  {
    var w := whole as real;
    var q := (part as real) / w;
    assert q * w == part as real;
    assert Percent(part, whole) * w == 100.0 * (part as real);
  }

  // ---------------------------------------------------------------------------
  // Issues

  datatype Severity = Critical | Warning | Info

  /** What an issue reports; the issue's text is formatted from these values. */
  datatype Finding =
    | CriticalFieldMissing(survey: string, field: string, missing: nat, records: nat)
    | FieldMissing(survey: string, field: string, missing: nat, records: nat)
    | ImportantFieldMissing(survey: string, field: string, missing: nat, records: nat)
    | CriticalFieldAbsent(survey: string, field: string)
    | ConsentWithoutInitial(count: nat)
    | InitialWithoutConsent(count: nat)
    | LowBiweeklyParticipation(rate: real)
    | InvalidCoordinates(invalidPercent: real)
    | PoorAccuracy(points: nat)
    | NoLocationData

  datatype Issue = Issue(finding: Finding, severity: Severity)

  // ---------------------------------------------------------------------------
  // Completeness of one table

  /** The cells of a column, one per row; a row without the column holds NaN. */
  function Column(t: Table, field: string): (vs: seq<Value>)
    ensures |vs| == |t.rows|
    ensures forall k :: 0 <= k < |vs| ==> vs[k] == Get(t.rows[k], field, NaN)
  {
    seq(|t.rows|, k requires 0 <= k < |t.rows| => Get(t.rows[k], field, NaN))
  }

  /** A cell counted by `isna()` or, in a text column, by `== ''`. */
  predicate MissingCell(v: Value) {
    IsMissing(v) || v == Str("")
  }

  function CountMissing(vs: seq<Value>): (n: nat)
    ensures n <= |vs|
    decreases |vs|
  {
    if vs == [] then 0 else CountMissing(vs[..|vs| - 1]) + (if MissingCell(vs[|vs| - 1]) then 1 else 0)
  }

  /** `missing_count + empty_count` of a column. */
  function MissingCount(t: Table, field: string): (n: nat)
    ensures n <= |t.rows|
  {
    CountMissing(Column(t, field))
  }

  /** The issue a critical field raises: absent, more than 20% missing, or some missing. */
  function CriticalFieldIssues(t: Table, survey: string, field: string): seq<Issue> {
    if field !in t.columns then [Issue(CriticalFieldAbsent(survey, field), Critical)]
    else
      var m := MissingCount(t, field);
      if m == 0 then []
      else if Percent(m, |t.rows|) > 20.0 then [Issue(CriticalFieldMissing(survey, field, m, |t.rows|), Critical)]
      else [Issue(FieldMissing(survey, field, m, |t.rows|), Warning)]
  }

  /** The issue an important field raises: only when more than 50% is missing. */
  function ImportantFieldIssues(t: Table, survey: string, field: string): seq<Issue> {
    if field !in t.columns then []
    else
      var m := MissingCount(t, field);
      if m > 0 && Percent(m, |t.rows|) > 50.0 then [Issue(ImportantFieldMissing(survey, field, m, |t.rows|), Warning)]
      else []
  }

  function CriticalIssues(t: Table, survey: string, fields: seq<string>): seq<Issue>
    decreases |fields|
  {
    if fields == [] then []
    else CriticalIssues(t, survey, fields[..|fields| - 1]) + CriticalFieldIssues(t, survey, fields[|fields| - 1])
  }

  function ImportantIssues(t: Table, survey: string, fields: seq<string>): seq<Issue>
    decreases |fields|
  {
    if fields == [] then []
    else ImportantIssues(t, survey, fields[..|fields| - 1]) + ImportantFieldIssues(t, survey, fields[|fields| - 1])
  }

  /** The cells of one field that are checked: all its rows when the table has it. */
  function FieldChecked(t: Table, field: string): nat {
    if field in t.columns then |t.rows| else 0
  }

  /** The checked cells of one field that are not missing. */
  function FieldPassed(t: Table, field: string): nat {
    if field in t.columns then |t.rows| - MissingCount(t, field) else 0
  }

  /** The cells checked: every row of every listed field the table has. */
  function Checked(t: Table, fields: seq<string>): nat
    decreases |fields|
  {
    if fields == [] then 0
    else Checked(t, fields[..|fields| - 1]) + FieldChecked(t, fields[|fields| - 1])
  }

  /** The checked cells that are not missing. */
  function Passed(t: Table, fields: seq<string>): nat
    decreases |fields|
  {
    if fields == [] then 0
    else Passed(t, fields[..|fields| - 1]) + FieldPassed(t, fields[|fields| - 1])
  }

  /** One more field adds its own issues and counts after those of the fields before it. */
  lemma FieldStep(t: Table, survey: string, fields: seq<string>, i: nat)
    requires i < |fields|
    ensures CriticalIssues(t, survey, fields[..i + 1]) == CriticalIssues(t, survey, fields[..i]) + CriticalFieldIssues(t, survey, fields[i])
    ensures ImportantIssues(t, survey, fields[..i + 1]) == ImportantIssues(t, survey, fields[..i]) + ImportantFieldIssues(t, survey, fields[i])
    ensures Checked(t, fields[..i + 1]) == Checked(t, fields[..i]) + FieldChecked(t, fields[i])
    ensures Passed(t, fields[..i + 1]) == Passed(t, fields[..i]) + FieldPassed(t, fields[i])
  {
    assert fields[..i + 1][..i] == fields[..i];
  }

  /** The result of `_check_dataframe_completeness`, less the per-field breakdown that the issues carry. */
  datatype Completeness = Completeness(survey: string, records: nat, score: real)

  function CompletenessOf(t: Table, survey: string, critical: seq<string>, important: seq<string>): Completeness {
    var total := Checked(t, critical) + Checked(t, important);
    var passed := Passed(t, critical) + Passed(t, important);
    Completeness(survey, |t.rows|, if total > 0 then Percent(passed, total) else 0.0)
  }

  lemma {:induction false} PassedAtMostChecked(t: Table, fields: seq<string>)
    ensures Passed(t, fields) <= Checked(t, fields)
    decreases |fields|
  {
    if fields != [] {
      PassedAtMostChecked(t, fields[..|fields| - 1]);
    }
  }

  /** The completeness score is a percentage. */
  lemma CompletenessScoreBounds(t: Table, survey: string, critical: seq<string>, important: seq<string>)
    ensures 0.0 <= CompletenessOf(t, survey, critical, important).score <= 100.0
  {
    PassedAtMostChecked(t, critical);
    PassedAtMostChecked(t, important);
    PercentBounds(Passed(t, critical) + Passed(t, important), Checked(t, critical) + Checked(t, important));
  }

  /**
   * A critical field raises exactly one issue when it is absent or has missing
   * cells, and none otherwise; the issue is critical exactly when the field is
   * absent or more than a fifth of its cells are missing.
   */
  lemma CriticalFieldClassification(t: Table, survey: string, field: string)
    ensures var issues := CriticalFieldIssues(t, survey, field);
      var m := MissingCount(t, field);
      |issues| <= 1
      && (issues == [] <==> field in t.columns && m == 0)
      && (issues != [] ==> (issues[0].severity == Critical <==> field !in t.columns || 5 * m > |t.rows|))
      && (issues != [] ==> (issues[0].severity == Warning <==> field in t.columns && 0 < m && 5 * m <= |t.rows|))
  {
    var m := MissingCount(t, field);
    if field in t.columns && m > 0 {
      PercentAbove(m, |t.rows|, 20);
    }
  }

  /** An important field raises a warning exactly when more than half of its cells are missing. */
  lemma ImportantFieldClassification(t: Table, survey: string, field: string)
    ensures var issues := ImportantFieldIssues(t, survey, field);
      |issues| <= 1
      && (issues != [] <==> field in t.columns && 2 * MissingCount(t, field) > |t.rows|)
      && (issues != [] ==> issues[0].severity == Warning)
  {
    var m := MissingCount(t, field);
    if field in t.columns && m > 0 {
      PercentAbove(m, |t.rows|, 50);
    }
  }

  // ---------------------------------------------------------------------------
  // Participant consistency

  /** `set(df['participant_uuid'].dropna())` */
  function UuidSet(t: Table): set<Value> {
    set v | v in Column(t, "participant_uuid") && !IsMissing(v)
  }

  /** A table that was not loaded, or one whose participant_uuid column can be indexed. */
  predicate Keyed(t: Option<Table>) {
    t.None? || "participant_uuid" in t.value.columns
  }

  datatype ConsentVsInitial = ConsentVsInitial(consentOnly: nat, initialOnly: nat, both: nat, rate: real)

  datatype InitialVsBiweekly = InitialVsBiweekly(initialParticipants: nat, biweeklyParticipants: nat, rate: real)

  function CompareConsentInitial(c: set<Value>, i: set<Value>): ConsentVsInitial {
    ConsentVsInitial(|c - i|, |i - c|, |c * i|, Percent(|c * i|, |c + i|))
  }

  function CompareInitialBiweekly(i: set<Value>, b: set<Value>): InitialVsBiweekly {
    InitialVsBiweekly(|i|, |b|, Percent(|b * i|, |i|))
  }

  /**
   * The three counts split the participants of both tables, and the consistency
   * rate is a percentage that reaches 100 exactly when both tables name the same,
   * non-empty set of participants.
   */
  lemma ConsentVsInitialFacts(c: set<Value>, i: set<Value>)
    ensures var r := CompareConsentInitial(c, i);
      r.consentOnly + r.both == |c| && r.initialOnly + r.both == |i|
      && r.consentOnly + r.initialOnly + r.both == |c + i|
      && 0.0 <= r.rate <= 100.0
      && (r.rate == 100.0 <==> c == i && c != {})
  {
    assert c == (c - i) + (c * i) && (c - i) * (c * i) == {};
    assert i == (i - c) + (c * i) && (i - c) * (c * i) == {};
    assert c + i == (c - i) + i && (c - i) * i == {};
    assert |c * i| <= |c + i|;
    PercentBounds(|c * i|, |c + i|);
    if |c * i| == |c + i| && |c + i| > 0 {
      assert |c - i| == 0 && |i - c| == 0;
      assert c - i == {} && i - c == {};
      assert c == i by {
        forall x | x in c ensures x in i { assert x !in c - i; }
        forall x | x in i ensures x in c { assert x !in i - c; }
      }
    }
  }

  /** The biweekly participation rate is a percentage. */
  lemma ParticipationRateBounds(i: set<Value>, b: set<Value>)
    ensures 0.0 <= CompareInitialBiweekly(i, b).rate <= 100.0
  {
    SubsetCard(b * i, i);
    PercentBounds(|b * i|, |i|);
  }

  function ConsistencyIssues(r: ConsentVsInitial): seq<Issue> {
    (if r.consentOnly > 0 then [Issue(ConsentWithoutInitial(r.consentOnly), Warning)] else [])
      + (if r.initialOnly > 0 then [Issue(InitialWithoutConsent(r.initialOnly), Critical)] else [])
  }

  function ParticipationIssues(r: InitialVsBiweekly): seq<Issue> {
    if r.rate < 50.0 then [Issue(LowBiweeklyParticipation(r.rate), Warning)] else []
  }

  // ---------------------------------------------------------------------------
  // Coordinates and accuracy

  /** `float(v)` of a cell that is not NaN. */
  function ToFloat(py: Builtins, v: Value): Outcome<real>
    requires !v.NaN?
  {
    match v
    case Int(i) => Ok(i as real)
    case Float(r) => Ok(r)
    case Bool(b) => Ok(if b then 1.0 else 0.0)
    case Str(s) =>
      (match py.parseFloat(s)
       case Some(r) => Ok(r)
       case None => Err("ValueError: could not convert string to float"))
    case _ => Err("TypeError: float() argument must be a string or a real number")
  }

  function Abs(r: real): real {
    if r < 0.0 then -r else r
  }

  /**
   * Whether a row's coordinates are valid: a missing latitude or longitude is
   * invalid; otherwise the latitude is converted first and the longitude only when
   * the latitude is within range, as `and` short-circuits.
   */
  function ClassifyCoordinate(py: Builtins, row: Row): Outcome<bool> {
    var lat := Get(row, "latitude", Null);
    var lon := Get(row, "longitude", Null);
    if IsMissing(lat) || IsMissing(lon) then Ok(false)
    else match ToFloat(py, lat)
      case Err(e) => Err(e)
      case Ok(a) =>
        if Abs(a) > 90.0 then Ok(false)
        else match ToFloat(py, lon)
          case Err(e) => Err(e)
          case Ok(b) => Ok(Abs(b) <= 180.0)
  }

  /** The valid and invalid coordinate counts of rows, or the first conversion error. */
  function CoordinateCounts(py: Builtins, rows: seq<Row>): Outcome<(nat, nat)>
    decreases |rows|
  {
    if rows == [] then Ok((0, 0))
    else match CoordinateCounts(py, rows[..|rows| - 1])
      case Err(e) => Err(e)
      case Ok(counts) =>
        match ClassifyCoordinate(py, rows[|rows| - 1])
        case Err(e) => Err(e)
        case Ok(valid) => Ok(if valid then (counts.0 + 1, counts.1) else (counts.0, counts.1 + 1))
  }

  /** The rows whose coordinates are valid. */
  function ValidRows(py: Builtins, rows: seq<Row>): nat
    decreases |rows|
  {
    if rows == [] then 0 else ValidRows(py, rows[..|rows| - 1]) + (if ClassifyCoordinate(py, rows[|rows| - 1]) == Ok(true) then 1 else 0)
  }

  /**
   * When no conversion fails, every row is counted once, as valid or invalid, and
   * the valid count is the number of rows with valid coordinates.
   */
  lemma {:induction false} CoordinateCountsFacts(py: Builtins, rows: seq<Row>)
    ensures var r := CoordinateCounts(py, rows);
      r.Ok? ==> r.value.0 + r.value.1 == |rows| && r.value.0 == ValidRows(py, rows)
    ensures CoordinateCounts(py, rows).Err? <==> exists k :: 0 <= k < |rows| && ClassifyCoordinate(py, rows[k]).Err?
    decreases |rows|
  {
    if rows != [] {
      var init := rows[..|rows| - 1];
      CoordinateCountsFacts(py, init);
      assert forall k :: 0 <= k < |init| ==> init[k] == rows[k];
    }
  }

  /** A conversion error in a prefix of the rows is an error of all of them. */
  lemma {:induction false} CoordinateErrorPersists(py: Builtins, rows: seq<Row>, n: nat)
    requires n <= |rows| && CoordinateCounts(py, rows[..n]).Err?
    ensures CoordinateCounts(py, rows) == CoordinateCounts(py, rows[..n])
    decreases |rows| - n
  {
    if n < |rows| {
      assert rows[..n + 1][..n] == rows[..n];
      CoordinateErrorPersists(py, rows, n + 1);
    } else {
      assert rows[..n] == rows;
    }
  }

  /** A row with a missing coordinate is invalid and never raises. */
  lemma MissingCoordinateInvalid(py: Builtins, row: Row)
    requires IsMissing(Get(row, "latitude", Null)) || IsMissing(Get(row, "longitude", Null))
    ensures ClassifyCoordinate(py, row) == Ok(false)
  {
  }

  /** `pd.to_numeric(v, errors='coerce')`, with None for what coercion turns into NaN. */
  function NumericValue(py: Builtins, v: Value): Option<real> {
    match v
    case Int(i) => Some(i as real)
    case Float(r) => Some(r)
    case Bool(b) => Some(if b then 1.0 else 0.0)
    case Str(s) => py.parseFloat(s)
    case _ => None
  }

  /** The accuracy values that survive the coercion, in order. */
  function AccuracyValues(py: Builtins, vs: seq<Value>): (xs: seq<real>)
    ensures |xs| <= |vs|
    decreases |vs|
  {
    if vs == [] then []
    else
      var x := NumericValue(py, vs[|vs| - 1]);
      AccuracyValues(py, vs[..|vs| - 1]) + (if x.Some? then [x.value] else [])
  }

  function CountAbove(xs: seq<real>, bound: real): (n: nat)
    ensures n <= |xs|
    decreases |xs|
  {
    if xs == [] then 0 else CountAbove(xs[..|xs| - 1], bound) + (if xs[|xs| - 1] > bound then 1 else 0)
  }

  function CountAtMost(xs: seq<real>, bound: real): (n: nat)
    ensures n <= |xs|
    decreases |xs|
  {
    if xs == [] then 0 else CountAtMost(xs[..|xs| - 1], bound) + (if xs[|xs| - 1] <= bound then 1 else 0)
  }

  /** The accuracy statistics kept as whole numbers: points within 10 m and points beyond 50 m. */
  datatype AccuracyStats = AccuracyStats(highAccuracy: nat, lowAccuracy: nat)

  function AccuracyOf(py: Builtins, t: Table): Option<AccuracyStats> {
    if "accuracy" !in t.columns then None
    else
      var xs := AccuracyValues(py, Column(t, "accuracy"));
      if xs == [] then None else Some(AccuracyStats(CountAtMost(xs, 10.0), CountAbove(xs, 50.0)))
  }

  datatype LocationQuality = LocationQuality(
    totalPoints: nat, uniqueResponses: nat, pointsPerResponse: real,
    valid: nat, invalid: nat, validity: real, accuracy: Option<AccuracyStats>)

  /** `nunique()` of a column: its distinct values that are not missing. */
  function Distinct(vs: seq<Value>): set<Value> {
    set v | v in vs && !IsMissing(v)
  }

  function LocationIssues(q: LocationQuality): seq<Issue> {
    (if q.validity < 95.0 then [Issue(InvalidCoordinates(100.0 - q.validity), Warning)] else [])
      + (if q.accuracy.Some? && q.accuracy.value.lowAccuracy as real > q.totalPoints as real * 0.3
         then [Issue(PoorAccuracy(q.accuracy.value.lowAccuracy), Info)] else [])
  }

  // ---------------------------------------------------------------------------
  // Quality score, grade and exit code

  function Sum(xs: seq<real>): real
    decreases |xs|
  {
    if xs == [] then 0.0 else Sum(xs[..|xs| - 1]) + xs[|xs| - 1]
  }

  /** `np.mean(xs) if xs else 0` */
  function Mean(xs: seq<real>): real {
    if xs == [] then 0.0 else Sum(xs) / (|xs| as real)
  }

  predicate AllPercentages(xs: seq<real>) {
    forall k :: 0 <= k < |xs| ==> 0.0 <= xs[k] <= 100.0
  }

  lemma {:induction false} SumBounds(xs: seq<real>)
    requires AllPercentages(xs)
    ensures 0.0 <= Sum(xs) <= 100.0 * (|xs| as real)
    decreases |xs|
  {
    if xs != [] {
      var init := xs[..|xs| - 1];
      assert forall k :: 0 <= k < |init| ==> init[k] == xs[k];
      SumBounds(init);
    }
  }

  /** The mean of percentages is a percentage. */
  lemma MeanBounds(xs: seq<real>)
    requires AllPercentages(xs)
    ensures 0.0 <= Mean(xs) <= 100.0
  {
    if xs != [] {
      SumBounds(xs);
      var n := |xs| as real;
      assert Mean(xs) * n == Sum(xs);
    }
  }

  /** The four weighted components of the quality score, in order. */
  datatype ScoreParts = ScoreParts(files: real, completeness: real, consistency: real, location: real)

  function Components(filesAvailable: nat, completeness: seq<real>, consistency: Option<real>, location: Option<real>)
    : ScoreParts
  {
    ScoreParts(
      filesAvailable as real / 4.0 * 25.0,
      Mean(completeness) / 100.0 * 35.0,
      (if consistency.Some? then consistency.value else 100.0) / 100.0 * 25.0,
      if location.Some? then location.value / 100.0 * 15.0 else 0.0)
  }

  function Total(p: ScoreParts): real {
    p.files + p.completeness + p.consistency + p.location
  }

  /**
   * Each component lies between 0 and its weight (25, 35, 25 and 15), so the score
   * lies between 0 and 100.
   */
  lemma ComponentBounds(filesAvailable: nat, completeness: seq<real>, consistency: Option<real>, location: Option<real>)
    requires filesAvailable <= 4 && AllPercentages(completeness)
    requires consistency.Some? ==> 0.0 <= consistency.value <= 100.0
    requires location.Some? ==> 0.0 <= location.value <= 100.0
    ensures var p := Components(filesAvailable, completeness, consistency, location);
      0.0 <= p.files <= 25.0 && 0.0 <= p.completeness <= 35.0
      && 0.0 <= p.consistency <= 25.0 && 0.0 <= p.location <= 15.0
      && 0.0 <= Total(p) <= 100.0
  {
    MeanBounds(completeness);
  }

  /** The recommendation the score adds. */
  function ScoreRecommendation(score: real): string {
    if score >= 90.0 then "Excellent data quality! Continue current data collection practices."
    else if score >= 75.0 then "Good data quality with minor issues to address."
    else if score >= 60.0 then "Moderate data quality - several issues need attention."
    else "Poor data quality - urgent fixes needed for reliable analysis."
  }

  /** The letter grade of a score. */
  function Grade(score: real): char {
    if score >= 90.0 then 'A' else if score >= 75.0 then 'B' else if score >= 60.0 then 'C' else 'F'
  }

  /** The exit code of a completed validation. */
  function ExitCode(score: real): int {
    if score >= 75.0 then 0 else 1
  }

  /** A run succeeds exactly when its score earns an A or a B, and a higher score never earns a lower grade. */
  lemma ExitCodeMatchesGrade(score: real, other: real)
    ensures ExitCode(score) == 0 <==> Grade(score) in {'A', 'B'}
    ensures ExitCode(score) == 1 <==> Grade(score) in {'C', 'F'}
    ensures score <= other ==> GradeRank(Grade(score)) <= GradeRank(Grade(other))
  {
  }

  function GradeRank(g: char): nat {
    if g == 'A' then 3 else if g == 'B' then 2 else if g == 'C' then 1 else 0
  }

  // ---------------------------------------------------------------------------
  // Journeys

  /** How many cells of a column equal a value. */
  function Occurrences(vs: seq<Value>, p: Value): nat
    decreases |vs|
  {
    if vs == [] then 0 else Occurrences(vs[..|vs| - 1], p) + (if vs[|vs| - 1] == p then 1 else 0)
  }

  lemma {:induction false} OccurrencesPositive(vs: seq<Value>, p: Value)
    ensures Occurrences(vs, p) > 0 <==> p in vs
    decreases |vs|
  {
    if vs != [] {
      OccurrencesPositive(vs[..|vs| - 1], p);
      assert vs == vs[..|vs| - 1] + [vs[|vs| - 1]];
    }
  }

  datatype Journeys = Journeys(total: nat, complete: nat, patterns: map<string, nat>)

  /** A journey pattern's count, with the default of a `defaultdict(int)`. */
  function PatternCount(patterns: map<string, nat>, key: string): nat {
    if key in patterns then patterns[key] else 0
  }

  /** Taking one element out of what remains adds it to what is done. */
  lemma RemoveStep<T>(all: set<T>, done: set<T>, p: T)
    requires p in all - done
    ensures (all - done) - {p} == all - (done + {p})
  {
  }

  /** Counting one more participant under a pattern. */
  lemma PatternBump(patterns: map<string, nat>, key: string)
    requires forall k :: k in patterns ==> patterns[k] > 0
    ensures var bumped := patterns[key := PatternCount(patterns, key) + 1];
      (forall k :: PatternCount(bumped, k) == PatternCount(patterns, k) + (if k == key then 1 else 0))
      && (forall k :: k in bumped ==> bumped[k] > 0)
  {
  }

  lemma {:induction false} SubstringAfter(prefix: string, sub: string, rest: string)
    ensures IsSubstring(sub, prefix + sub + rest)
    decreases |prefix|
  {
    var s := prefix + sub + rest;
    if prefix == [] {
      assert s[..|sub|] == sub;
    } else {
      SubstringAfter(prefix[1..], sub, rest);
      assert s[1..] == prefix[1..] + sub + rest;
    }
  }

  /** The stage names of a journey and the arrow that joins them into its pattern. */
  const ConsentStage: string := "consent"
  const InitialStage: string := "initial"
  const BiweeklyStage: string := "biweekly"
  const StageArrow: string := " -> "

  /** A word that opens the third of three joined stages occurs in the joined text. */
  lemma ThirdStageFound(sep: string, first: string, second: string, word: string, rest: string)
    ensures IsSubstring(word, Join(sep, [first, second, word + rest]))
  {
    var stages := [first, second, word + rest];
    assert stages[1..] == [second, word + rest] && stages[1..][1..] == [word + rest];
    assert Join(sep, stages[1..][1..]) == word + rest;
    assert Join(sep, stages) == first + sep + (second + sep + (word + rest));
    assert first + sep + (second + sep + (word + rest)) == (first + sep + second + sep) + word + rest;
    SubstringAfter(first + sep + second + sep, word, rest);
  }

  // ---------------------------------------------------------------------------
  // The validator

  const ConsentCritical: seq<string> := ["participant_uuid", "consent_id", "informed_consent"]
  const ConsentImportant: seq<string> := ["consent_participate", "consent_qualtrics_data", "participant_signature"]
  const InitialCritical: seq<string> := ["participant_uuid", "age"]
  const InitialImportant: seq<string> := ["gender", "ethnicity", "challenges_stress_level"]
  const BiweeklyCritical: seq<string> := ["participant_uuid", "timestamp"]
  const BiweeklyImportant: seq<string> := ["cheerful_spirits", "calm_relaxed", "active_vigorous"]
  const LocationCritical: seq<string> := ["response_id", "timestamp", "latitude", "longitude"]
  const LocationImportant: seq<string> := ["accuracy", "activity"]

  /** The issues of one table's completeness check, none for a table that was not loaded. */
  function TableIssues(t: Option<Table>, survey: string, critical: seq<string>, important: seq<string>): seq<Issue> {
    if t.None? then [] else CriticalIssues(t.value, survey, critical) + ImportantIssues(t.value, survey, important)
  }

  function TableResults(t: Option<Table>, survey: string, critical: seq<string>, important: seq<string>)
    : seq<Completeness>
  {
    if t.None? then [] else [CompletenessOf(t.value, survey, critical, important)]
  }

  lemma ScoresInRangeAppend(a: seq<Completeness>, b: seq<Completeness>)
    requires ScoresInRange(a) && ScoresInRange(b)
    ensures ScoresInRange(a + b)
  {
    forall k | 0 <= k < |a + b|
      ensures 0.0 <= (a + b)[k].score <= 100.0
    {
      if k >= |a| {
        assert (a + b)[k] == b[k - |a|];
      }
    }
  }

  /** The results the checks store, as `validation_results` holds them. */
  datatype Checks = Checks(
    completeness: seq<Completeness>,
    consistency: Option<ConsentVsInitial>,
    participation: Option<InitialVsBiweekly>,
    location: Option<LocationQuality>,
    journeys: Option<Journeys>,
    qualityScore: real)

  function Scores(cs: seq<Completeness>): (xs: seq<real>)
    ensures |xs| == |cs| && forall k :: 0 <= k < |cs| ==> xs[k] == cs[k].score
  {
    seq(|cs|, k requires 0 <= k < |cs| => cs[k].score)
  }

  predicate ScoresInRange(cs: seq<Completeness>) {
    forall k :: 0 <= k < |cs| ==> 0.0 <= cs[k].score <= 100.0
  }

  /** Every stored percentage lies between 0 and 100. */
  predicate InRange(c: Checks) {
    ScoresInRange(c.completeness)
    && (c.consistency.Some? ==> 0.0 <= c.consistency.value.rate <= 100.0)
    && (c.location.Some? ==> 0.0 <= c.location.value.validity <= 100.0)
  }

  /** `SurveyDataValidator` over the tables `load_data_files` read; None for a file that is absent or failed to load. */
  class SurveyDataValidator {
    const consent: Option<Table>
    const initial: Option<Table>
    const biweekly: Option<Table>
    const location: Option<Table>
    var checks: Checks
    var issues: seq<Issue>
    var recommendations: seq<string>

    predicate Valid()
      reads this
    {
      InRange(checks)
    }

    constructor(consent: Option<Table>, initial: Option<Table>, biweekly: Option<Table>, location: Option<Table>)
      ensures this.consent == consent && this.initial == initial
      ensures this.biweekly == biweekly && this.location == location
      ensures checks == Checks([], None, None, None, None, 0.0) && issues == [] && recommendations == []
      ensures Valid()
    {
      this.consent := consent;
      this.initial := initial;
      this.biweekly := biweekly;
      this.location := location;
      checks := Checks([], None, None, None, None, 0.0);
      issues := [];
      recommendations := [];
    }

    /** The files loaded without error. */
    function FilesAvailable(): (n: nat)
      ensures n <= 4
    {
      (if consent.Some? then 1 else 0) + (if initial.Some? then 1 else 0)
        + (if biweekly.Some? then 1 else 0) + (if location.Some? then 1 else 0)
    }

    /** `_add_issue`; the time stamp it records is left out. */
    method AddIssue(issue: Issue)
      modifies this
      ensures issues == old(issues) + [issue]
      ensures checks == old(checks) && recommendations == old(recommendations)
    {
      issues := issues + [issue];
    }

    /** The critical-field half of `_check_dataframe_completeness`. */
    method CheckCriticalFields(t: Table, survey: string, critical: seq<string>) returns (checked: nat, passed: nat)
      modifies this
      ensures issues == old(issues) + CriticalIssues(t, survey, critical)
      ensures checked == Checked(t, critical) && passed == Passed(t, critical)
      ensures checks == old(checks) && recommendations == old(recommendations)
    {
      checked, passed := 0, 0;
      for i := 0 to |critical|
        invariant issues == old(issues) + CriticalIssues(t, survey, critical[..i])
        invariant checked == Checked(t, critical[..i]) && passed == Passed(t, critical[..i])
        invariant checks == old(checks) && recommendations == old(recommendations)
      {
        var fieldChecked, fieldPassed := CheckCriticalField(t, survey, critical[i]);
        FieldStep(t, survey, critical, i);
        assert issues == old(issues) + (CriticalIssues(t, survey, critical[..i]) + CriticalFieldIssues(t, survey, critical[i]));
        checked, passed := checked + fieldChecked, passed + fieldPassed;
      }
      assert critical[..|critical|] == critical;
    }

    /** One critical field: its cells are counted, and its absence or missing values raise its issue. */
    method CheckCriticalField(t: Table, survey: string, field: string) returns (checked: nat, passed: nat)
      modifies this
      ensures issues == old(issues) + CriticalFieldIssues(t, survey, field)
      ensures checked == FieldChecked(t, field) && passed == FieldPassed(t, field)
      ensures checks == old(checks) && recommendations == old(recommendations)
    {
      checked, passed := 0, 0;
      if field in t.columns {
        var m := MissingCount(t, field);
        checked := |t.rows|;
        passed := |t.rows| - m;
        if m > 0 {
          if Percent(m, |t.rows|) > 20.0 {
            AddIssue(Issue(CriticalFieldMissing(survey, field, m, |t.rows|), Critical));
          } else {
            AddIssue(Issue(FieldMissing(survey, field, m, |t.rows|), Warning));
          }
        }
      } else {
        AddIssue(Issue(CriticalFieldAbsent(survey, field), Critical));
      }
    }

    /** The important-field half of `_check_dataframe_completeness`. */
    method CheckImportantFields(t: Table, survey: string, important: seq<string>) returns (checked: nat, passed: nat)
      modifies this
      ensures issues == old(issues) + ImportantIssues(t, survey, important)
      ensures checked == Checked(t, important) && passed == Passed(t, important)
      ensures checks == old(checks) && recommendations == old(recommendations)
    {
      checked, passed := 0, 0;
      for i := 0 to |important|
        invariant issues == old(issues) + ImportantIssues(t, survey, important[..i])
        invariant checked == Checked(t, important[..i]) && passed == Passed(t, important[..i])
        invariant checks == old(checks) && recommendations == old(recommendations)
      {
        var fieldChecked, fieldPassed := CheckImportantField(t, survey, important[i]);
        FieldStep(t, survey, important, i);
        assert issues == old(issues) + (ImportantIssues(t, survey, important[..i]) + ImportantFieldIssues(t, survey, important[i]));
        checked, passed := checked + fieldChecked, passed + fieldPassed;
      }
      assert important[..|important|] == important;
    }

    /** One important field: its cells are counted, and more than 50% missing raises its warning. */
    method CheckImportantField(t: Table, survey: string, field: string) returns (checked: nat, passed: nat)
      modifies this
      ensures issues == old(issues) + ImportantFieldIssues(t, survey, field)
      ensures checked == FieldChecked(t, field) && passed == FieldPassed(t, field)
      ensures checks == old(checks) && recommendations == old(recommendations)
    {
      checked, passed := 0, 0;
      if field in t.columns {
        var m := MissingCount(t, field);
        checked := |t.rows|;
        passed := |t.rows| - m;
        if m > 0 && Percent(m, |t.rows|) > 50.0 {
          AddIssue(Issue(ImportantFieldMissing(survey, field, m, |t.rows|), Warning));
        }
      }
    }

    /** `_check_dataframe_completeness`: the critical fields, then the important ones, and the score. */
    method CheckDataframeCompleteness(t: Table, survey: string, critical: seq<string>, important: seq<string>)
      returns (result: Completeness)
      modifies this
      ensures issues == old(issues) + CriticalIssues(t, survey, critical) + ImportantIssues(t, survey, important)
      ensures result == CompletenessOf(t, survey, critical, important)
      ensures checks == old(checks) && recommendations == old(recommendations)
    {
      var totalCritical, passedCritical := CheckCriticalFields(t, survey, critical);
      var totalImportant, passedImportant := CheckImportantFields(t, survey, important);
      var total := totalCritical + totalImportant;
      var passed := passedCritical + passedImportant;
      result := Completeness(survey, |t.rows|, if total > 0 then Percent(passed, total) else 0.0);
    }

    /** One table's completeness check; nothing for a table that was not loaded. */
    method CheckTableCompleteness(t: Option<Table>, survey: string, critical: seq<string>, important: seq<string>)
      returns (results: seq<Completeness>)
      modifies this
      ensures issues == old(issues) + TableIssues(t, survey, critical, important)
      ensures results == TableResults(t, survey, critical, important) && ScoresInRange(results)
      ensures checks == old(checks) && recommendations == old(recommendations)
    {
      results := [];
      if t.Some? {
        var r := CheckDataframeCompleteness(t.value, survey, critical, important);
        CompletenessScoreBounds(t.value, survey, critical, important);
        AppendAssociative(old(issues), CriticalIssues(t.value, survey, critical), ImportantIssues(t.value, survey, important));
        results := [r];
        assert results[0] == r;
      }
    }

    /** `check_data_completeness`: each loaded table with its own critical and important fields. */
    method CheckDataCompleteness()
      modifies this
      requires Valid()
      ensures Valid()
      ensures issues == old(issues)
        + TableIssues(consent, "consent", ConsentCritical, ConsentImportant)
        + TableIssues(initial, "initial_survey", InitialCritical, InitialImportant)
        + TableIssues(biweekly, "biweekly_survey", BiweeklyCritical, BiweeklyImportant)
        + TableIssues(location, "location_data", LocationCritical, LocationImportant)
      ensures checks == old(checks).(completeness :=
        TableResults(consent, "consent", ConsentCritical, ConsentImportant)
        + TableResults(initial, "initial_survey", InitialCritical, InitialImportant)
        + TableResults(biweekly, "biweekly_survey", BiweeklyCritical, BiweeklyImportant)
        + TableResults(location, "location_data", LocationCritical, LocationImportant))
      ensures recommendations == old(recommendations)
    {
      var a := CheckTableCompleteness(consent, "consent", ConsentCritical, ConsentImportant);
      var b := CheckTableCompleteness(initial, "initial_survey", InitialCritical, InitialImportant);
      var c := CheckTableCompleteness(biweekly, "biweekly_survey", BiweeklyCritical, BiweeklyImportant);
      var d := CheckTableCompleteness(location, "location_data", LocationCritical, LocationImportant);
      ScoresInRangeAppend(a, b);
      ScoresInRangeAppend(a + b, c);
      ScoresInRangeAppend(a + b + c, d);
      checks := checks.(completeness := a + b + c + d);
    }

    /** The consent/initial comparison, when both tables were loaded. */
    function ConsentInitial(): Option<ConsentVsInitial> {
      if consent.Some? && initial.Some? then Some(CompareConsentInitial(UuidSet(consent.value), UuidSet(initial.value)))
      else None
    }

    /** The initial/biweekly comparison, when both tables were loaded. */
    function InitialBiweekly(): Option<InitialVsBiweekly> {
      if initial.Some? && biweekly.Some? then Some(CompareInitialBiweekly(UuidSet(initial.value), UuidSet(biweekly.value)))
      else None
    }

    /** The consent/initial comparison does not raise: a table is missing or both have the column. */
    predicate ConsentInitialComparable() {
      !(consent.Some? && initial.Some?) || (Keyed(consent) && Keyed(initial))
    }

    predicate InitialBiweeklyComparable() {
      !(initial.Some? && biweekly.Some?) || (Keyed(initial) && Keyed(biweekly))
    }

    function ConsentInitialIssues(): seq<Issue> {
      if ConsentInitial().Some? then ConsistencyIssues(ConsentInitial().value) else []
    }

    function InitialBiweeklyIssues(): seq<Issue> {
      if InitialBiweekly().Some? then ParticipationIssues(InitialBiweekly().value) else []
    }

    /** The first half of `check_participant_consistency`: consent against initial participants. */
    method CompareConsentWithInitial() returns (r: Outcome<Option<ConsentVsInitial>>)
      modifies this
      ensures r.Ok? <==> ConsentInitialComparable()
      ensures r.Ok? ==> r.value == ConsentInitial() && issues == old(issues) + ConsentInitialIssues()
      ensures r.Ok? && r.value.Some? ==> 0.0 <= r.value.value.rate <= 100.0
      ensures r.Err? ==> issues == old(issues)
      ensures checks == old(checks) && recommendations == old(recommendations)
    {
      if !(consent.Some? && initial.Some?) {
        return Ok(None);
      }
      if !Keyed(consent) || !Keyed(initial) {
        return Err("KeyError: 'participant_uuid'");
      }
      var cvi := CompareConsentInitial(UuidSet(consent.value), UuidSet(initial.value));
      ConsentVsInitialFacts(UuidSet(consent.value), UuidSet(initial.value));
      if cvi.consentOnly > 0 {
        AddIssue(Issue(ConsentWithoutInitial(cvi.consentOnly), Warning));
      }
      if cvi.initialOnly > 0 {
        AddIssue(Issue(InitialWithoutConsent(cvi.initialOnly), Critical));
      }
      r := Ok(Some(cvi));
    }

    /** The second half of `check_participant_consistency`: biweekly against initial participants. */
    method CompareInitialWithBiweekly() returns (r: Outcome<Option<InitialVsBiweekly>>)
      modifies this
      ensures r.Ok? <==> InitialBiweeklyComparable()
      ensures r.Ok? ==> r.value == InitialBiweekly() && issues == old(issues) + InitialBiweeklyIssues()
      ensures r.Err? ==> issues == old(issues)
      ensures checks == old(checks) && recommendations == old(recommendations)
    {
      if !(initial.Some? && biweekly.Some?) {
        return Ok(None);
      }
      if !Keyed(initial) || !Keyed(biweekly) {
        return Err("KeyError: 'participant_uuid'");
      }
      var ivb := CompareInitialBiweekly(UuidSet(initial.value), UuidSet(biweekly.value));
      if ivb.rate < 50.0 {
        AddIssue(Issue(LowBiweeklyParticipation(ivb.rate), Warning));
      }
      r := Ok(Some(ivb));
    }

    /**
     * `check_participant_consistency`. Indexing a missing participant_uuid column
     * raises; the issues of the first comparison are kept when the second raises.
     */
    method CheckParticipantConsistency() returns (r: Outcome<()>)
      modifies this
      requires Valid()
      ensures Valid()
      ensures r.Ok? <==> ConsentInitialComparable() && InitialBiweeklyComparable()
      ensures r.Ok? ==> checks == old(checks).(consistency := ConsentInitial(), participation := InitialBiweekly())
                        && issues == old(issues) + ConsentInitialIssues() + InitialBiweeklyIssues()
      ensures r.Err? ==> checks == old(checks)
                         && issues == old(issues) + (if ConsentInitialComparable() then ConsentInitialIssues() else [])
      ensures recommendations == old(recommendations)
    {
      var first := CompareConsentWithInitial();
      if first.Err? {
        return Err(first.msg);
      }
      var second := CompareInitialWithBiweekly();
      if second.Err? {
        return Err(second.msg);
      }
      checks := checks.(consistency := first.value, participation := second.value);
      r := Ok(());
    }

    /** The location quality record of the loaded location table, when no conversion fails. */
    function LocationOf(py: Builtins, t: Table): Option<LocationQuality> {
      match CoordinateCounts(py, t.rows)
      case Err(_) => None
      case Ok(counts) => Some(QualityOf(py, t, counts.0, counts.1))
    }

    function QualityOf(py: Builtins, t: Table, valid: nat, invalid: nat): LocationQuality {
      var unique := |Distinct(Column(t, "response_id"))|;
      LocationQuality(|t.rows|, unique, (|t.rows| as real) / (Max1(unique) as real),
                      valid, invalid, Percent(valid, |t.rows|), AccuracyOf(py, t))
    }

    /** The quality issues of a location record. */
    method AddLocationIssues(q: LocationQuality)
      modifies this
      ensures issues == old(issues) + LocationIssues(q)
      ensures checks == old(checks) && recommendations == old(recommendations)
    {
      if q.validity < 95.0 {
        AddIssue(Issue(InvalidCoordinates(100.0 - q.validity), Warning));
      }
      if q.accuracy.Some? && q.accuracy.value.lowAccuracy as real > q.totalPoints as real * 0.3 {
        AddIssue(Issue(PoorAccuracy(q.accuracy.value.lowAccuracy), Info));
      }
    }

    /** The valid and invalid coordinates of rows, counted one row at a time. */
    method CountCoordinates(py: Builtins, rows: seq<Row>) returns (r: Outcome<(nat, nat)>)
      ensures r == CoordinateCounts(py, rows)
    {
      var valid, invalid := 0, 0;
      for i := 0 to |rows|
        invariant CoordinateCounts(py, rows[..i]) == Ok((valid, invalid))
      {
        assert rows[..i + 1][..i] == rows[..i];
        var c := ClassifyCoordinate(py, rows[i]);
        if c.Err? {
          CoordinateErrorPersists(py, rows, i + 1);
          return Err(c.msg);
        }
        if c.value {
          valid := valid + 1;
        } else {
          invalid := invalid + 1;
        }
      }
      assert rows[..|rows|] == rows;
      r := Ok((valid, invalid));
    }

    /**
     * `check_location_data_quality`: a warning when no location table was loaded;
     * a KeyError without a response_id column; the first coordinate that cannot be
     * converted raises; otherwise the counts and their issues.
     */
    method CheckLocationDataQuality(py: Builtins) returns (r: Outcome<()>)
      modifies this
      requires Valid()
      ensures Valid()
      ensures location.None? ==> r.Ok? && issues == old(issues) + [Issue(NoLocationData, Warning)] && checks == old(checks)
      ensures location.Some? ==>
        (r.Ok? <==> "response_id" in location.value.columns && LocationOf(py, location.value).Some?)
        && (r.Ok? ==> checks == old(checks).(location := LocationOf(py, location.value))
                      && issues == old(issues) + LocationIssues(LocationOf(py, location.value).value))
        && (r.Err? ==> checks == old(checks) && issues == old(issues))
      ensures recommendations == old(recommendations)
    {
      if location.None? {
        AddIssue(Issue(NoLocationData, Warning));
        return Ok(());
      }
      var t := location.value;
      if "response_id" !in t.columns {
        return Err("KeyError: 'response_id'");
      }
      var counts := CountCoordinates(py, t.rows);
      if counts.Err? {
        return Err(counts.msg);
      }
      var valid, invalid := counts.value.0, counts.value.1;
      CoordinateCountsFacts(py, t.rows);
      PercentBounds(valid, |t.rows|);
      var q := QualityOf(py, t, valid, invalid);
      assert LocationOf(py, t) == Some(q);
      AddLocationIssues(q);
      checks := checks.(location := Some(q));
      r := Ok(());
    }

    /** Every participant named by a loaded table: `all_participants`. */
    function AllParticipants(): set<Value> {
      (if consent.Some? then UuidSet(consent.value) else {})
        + (if initial.Some? then UuidSet(initial.value) else {})
        + (if biweekly.Some? then UuidSet(biweekly.value) else {})
    }

    /** The biweekly rows of a participant. */
    function BiweeklyCount(p: Value): nat {
      if biweekly.Some? then Occurrences(Column(biweekly.value, "participant_uuid"), p) else 0
    }

    /** The stages a participant went through, in order. */
    function Journey(p: Value): (stages: seq<string>)
      ensures |stages| <= 3
    {
      (if consent.Some? && p in Column(consent.value, "participant_uuid") then [ConsentStage] else [])
        + (if initial.Some? && p in Column(initial.value, "participant_uuid") then [InitialStage] else [])
        + (if BiweeklyCount(p) > 0 then [BiweeklyStage + "(" + NatToString(BiweeklyCount(p)) + ")"] else [])
    }

    function JourneyKey(p: Value): string {
      Join(StageArrow, Journey(p))
    }

    predicate CompleteJourney(p: Value) {
      |Journey(p)| >= 3 && IsSubstring(BiweeklyStage, JourneyKey(p))
    }

    /** A journey is complete exactly when the participant consented, answered the initial survey and at least one biweekly one. */
    lemma CompleteJourneyIff(p: Value)
      ensures CompleteJourney(p) <==>
        consent.Some? && p in Column(consent.value, "participant_uuid")
        && initial.Some? && p in Column(initial.value, "participant_uuid")
        && BiweeklyCount(p) > 0
    {
      if |Journey(p)| == 3 {
        var count := "(" + NatToString(BiweeklyCount(p)) + ")";
        assert BiweeklyStage + "(" + NatToString(BiweeklyCount(p)) + ")" == BiweeklyStage + count;
        assert Journey(p) == [ConsentStage, InitialStage, BiweeklyStage + count];
        ThirdStageFound(StageArrow, ConsentStage, InitialStage, BiweeklyStage, count);
      }
    }

    function CompleteIn(s: set<Value>): set<Value> {
      set p | p in s && CompleteJourney(p)
    }

    function WithPattern(s: set<Value>, key: string): set<Value> {
      set p | p in s && JourneyKey(p) == key
    }

    /**
     * `analyze_participant_journeys`: over every participant in any order, count
     * each journey pattern and the complete journeys.
     */
    method AnalyzeParticipantJourneys() returns (r: Outcome<Journeys>)
      modifies this
      requires Valid()
      ensures Valid()
      ensures r.Ok? <==> Keyed(consent) && Keyed(initial) && Keyed(biweekly)
      ensures r.Ok? ==>
        r.value.total == |AllParticipants()| && r.value.complete == |CompleteIn(AllParticipants())|
        && (forall key :: PatternCount(r.value.patterns, key) == |WithPattern(AllParticipants(), key)|)
        && (forall key :: key in r.value.patterns ==> r.value.patterns[key] > 0)
        && checks == old(checks).(journeys := Some(r.value))
      ensures r.Err? ==> checks == old(checks)
      ensures issues == old(issues) && recommendations == old(recommendations)
    {
      if !Keyed(consent) || !Keyed(initial) || !Keyed(biweekly) {
        return Err("KeyError: 'participant_uuid'");
      }
      var all := AllParticipants();
      var complete, patterns := CountJourneys(all);
      var j := Journeys(|all|, complete, patterns);
      checks := checks.(journeys := Some(j));
      r := Ok(j);
    }

    /** The loop of `analyze_participant_journeys`: each participant of `all`, in any order, counted once. */
    method CountJourneys(all: set<Value>) returns (complete: nat, patterns: map<string, nat>)
      ensures complete == |CompleteIn(all)|
      ensures forall key :: PatternCount(patterns, key) == |WithPattern(all, key)|
      ensures forall key :: key in patterns ==> patterns[key] > 0
    {
      var remaining := all;
      ghost var done: set<Value> := {};
      patterns := map[];
      complete := 0;
      NothingCounted();
      while remaining != {}
        invariant done <= all && remaining == all - done
        invariant complete == |CompleteIn(done)|
        invariant PatternsExact(patterns, done)
        decreases |remaining|
      {
        var p :| p in remaining;
        var key := JourneyKey(p);
        ghost var before := patterns;
        patterns := patterns[key := PatternCount(patterns, key) + 1];
        PatternStep(before, patterns, done, p);
        if CompleteJourney(p) {
          complete := complete + 1;
        }
        RemoveStep(all, done, p);
        remaining := remaining - {p};
        done := done + {p};
      }
      assert done == all;
    }

    /** The pattern counts of the participants done: each one exact, and only patterns seen are keys. */
    ghost predicate PatternsExact(patterns: map<string, nat>, done: set<Value>)
      reads this
    {
      (forall key :: PatternCount(patterns, key) == |WithPattern(done, key)|)
      && (forall key :: key in patterns ==> patterns[key] > 0)
    }

    /** Before the first participant nothing is counted. */
    lemma NothingCounted()
      ensures |CompleteIn({})| == 0
      ensures forall key :: |WithPattern({}, key)| == 0
    {
      assert CompleteIn({}) == {};
      forall key
        ensures |WithPattern({}, key)| == 0
      {
        assert WithPattern({}, key) == {};
      }
    }

    /** The pattern counts stay exact when one more participant is counted. */
    lemma PatternStep(patterns: map<string, nat>, bumped: map<string, nat>, done: set<Value>, p: Value)
      requires p !in done
      requires PatternsExact(patterns, done)
      requires bumped == patterns[JourneyKey(p) := PatternCount(patterns, JourneyKey(p)) + 1]
      ensures PatternsExact(bumped, done + {p})
      ensures |CompleteIn(done + {p})| == |CompleteIn(done)| + (if CompleteJourney(p) then 1 else 0)
    {
      JourneyStep(done, p);
      PatternBump(patterns, JourneyKey(p));
    }

    /** Adding one participant not yet counted adds one to its pattern and, if complete, to the complete journeys. */
    lemma JourneyStep(done: set<Value>, p: Value)
      requires p !in done
      ensures |CompleteIn(done + {p})| == |CompleteIn(done)| + (if CompleteJourney(p) then 1 else 0)
      ensures forall key :: |WithPattern(done + {p}, key)| == |WithPattern(done, key)| + (if JourneyKey(p) == key then 1 else 0)
    {
      CompleteStep(done, p);
      forall key
        ensures |WithPattern(done + {p}, key)| == |WithPattern(done, key)| + (if JourneyKey(p) == key then 1 else 0)
      {
        PatternKeyStep(done, p, key);
      }
    }

    /** One more participant adds one complete journey exactly when its own is complete. */
    lemma CompleteStep(done: set<Value>, p: Value)
      requires p !in done
      ensures |CompleteIn(done + {p})| == |CompleteIn(done)| + (if CompleteJourney(p) then 1 else 0)
    {
      if CompleteJourney(p) {
        assert CompleteIn(done + {p}) == CompleteIn(done) + {p};
      } else {
        assert CompleteIn(done + {p}) == CompleteIn(done);
      }
    }

    /** One more participant adds one to the count of its own pattern and leaves every other pattern's count. */
    lemma PatternKeyStep(done: set<Value>, p: Value, key: string)
      requires p !in done
      ensures |WithPattern(done + {p}, key)| == |WithPattern(done, key)| + (if JourneyKey(p) == key then 1 else 0)
    {
      if JourneyKey(p) == key {
        assert WithPattern(done + {p}, key) == WithPattern(done, key) + {p};
      } else {
        assert WithPattern(done + {p}, key) == WithPattern(done, key);
      }
    }

    /** The score parts of the stored results. */
    function ScorePartsOf(c: Checks): ScoreParts {
      Components(FilesAvailable(), Scores(c.completeness),
                 if c.consistency.Some? then Some(c.consistency.value.rate) else None,
                 if c.location.Some? then Some(c.location.value.validity) else None)
    }

    /** `calculate_overall_data_quality_score`: store the weighted total and add its recommendation. */
    method CalculateOverallDataQualityScore() returns (score: real)
      modifies this
      requires Valid()
      ensures Valid()
      ensures score == Total(ScorePartsOf(old(checks))) && 0.0 <= score <= 100.0
      ensures checks == old(checks).(qualityScore := score)
      ensures recommendations == old(recommendations) + [ScoreRecommendation(score)]
      ensures issues == old(issues)
    {
      ComponentBounds(FilesAvailable(), Scores(checks.completeness),
                      if checks.consistency.Some? then Some(checks.consistency.value.rate) else None,
                      if checks.location.Some? then Some(checks.location.value.validity) else None);
      score := Total(ScorePartsOf(checks));
      checks := checks.(qualityScore := score);
      recommendations := recommendations + [ScoreRecommendation(score)];
    }

    /** No check raises on the loaded tables. */
    predicate NothingRaises(py: Builtins) {
      ConsentInitialComparable() && InitialBiweeklyComparable()
      && (location.Some? ==> "response_id" in location.value.columns && LocationOf(py, location.value).Some?)
      && Keyed(consent) && Keyed(initial) && Keyed(biweekly)
    }

    /**
     * `run_full_validation` followed by the exit code of `main`: 1 when no file was
     * loaded or a check raised, and otherwise 0 exactly when the score is at least 75.
     */
    method RunFullValidation(py: Builtins) returns (code: int)
      modifies this
      requires Valid()
      ensures Valid()
      ensures code == 0 || code == 1
      ensures code == 0 ==> FilesAvailable() > 0 && checks.qualityScore >= 75.0 && Grade(checks.qualityScore) in {'A', 'B'}
      ensures FilesAvailable() == 0 ==> code == 1
      ensures code == 0 ==> NothingRaises(py)
      ensures FilesAvailable() > 0 && NothingRaises(py) ==> (code == 0 <==> checks.qualityScore >= 75.0)
      // when every check runs, the score is the weighted total of what the checks found in the tables
      ensures FilesAvailable() > 0 && NothingRaises(py) ==>
        checks.completeness ==
          TableResults(consent, "consent", ConsentCritical, ConsentImportant)
          + TableResults(initial, "initial_survey", InitialCritical, InitialImportant)
          + TableResults(biweekly, "biweekly_survey", BiweeklyCritical, BiweeklyImportant)
          + TableResults(location, "location_data", LocationCritical, LocationImportant)
        && checks.consistency == ConsentInitial() && checks.participation == InitialBiweekly()
        && checks.location == (if location.Some? then LocationOf(py, location.value) else old(checks).location)
        && checks.journeys.Some? && checks.journeys.value.total == |AllParticipants()|
        && checks.journeys.value.complete == |CompleteIn(AllParticipants())|
        && checks.qualityScore == Total(ScorePartsOf(checks))
        && recommendations == old(recommendations) + [ScoreRecommendation(checks.qualityScore)]
    {
      if FilesAvailable() == 0 {
        return 1;
      }
      CheckDataCompleteness();
      var consistency := CheckParticipantConsistency();
      if consistency.Err? {
        return 1;
      }
      var quality := CheckLocationDataQuality(py);
      if quality.Err? {
        return 1;
      }
      var journeys := AnalyzeParticipantJourneys();
      if journeys.Err? {
        return 1;
      }
      var score := CalculateOverallDataQualityScore();
      ExitCodeMatchesGrade(score, score);
      code := ExitCode(score);
    }
  }
}
