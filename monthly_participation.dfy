/**
 * The monthly participation summary: for every consenting participant, how many
 * initial and biweekly submissions fall in each calendar month, with their total,
 * and the Markdown table that shows it. Date parsing and the month of an instant
 * are parameters.
 */
module MonthlyParticipation {
  import opened Text
  import opened Common

  /**
   * `pd.to_datetime(..., errors="coerce", utc=True)` of one cell, as a count of
   * nanoseconds or None for NaT, and `to_period("M")` of an instant as "YYYY-MM".
   */
  datatype MonthClock = MonthClock(toUtc: Value -> Option<int>, monthOf: int -> string)

  /** The coerced submission time of a row; a table without the column has none. */
  function SubmittedAt(clock: MonthClock, row: Row): Option<int> {
    if "submitted_at" in row then clock.toUtc(row["submitted_at"]) else None
  }

  /** A row that survives `dropna(subset=["participant_uuid", "submitted_at"])`. */
  predicate Qualifies(clock: MonthClock, row: Row) {
    HasUuid(row) && SubmittedAt(clock, row).Some?
  }

  // ---------------------------------------------------------------------------
  // _first_valid_string and _md_escape

  /** A value `_first_valid_string` accepts: a string with something besides whitespace. */
  predicate ValidString(v: Value) {
    v.Str? && Strip(v.s) != ""
  }

  /** The first accepted value, stripped, or '' when there is none. */
  function FirstValid(values: seq<Value>): (r: string)
    ensures r == "" <==> forall k :: 0 <= k < |values| ==> !ValidString(values[k])
    decreases |values|
  {
    if values == [] then ""
    else if ValidString(values[0]) then Strip(values[0].s)
    else FirstValid(values[1..])
  }

  /**
   * The result is '' exactly when no value is accepted, and otherwise the stripped
   * first accepted value.
   */
  lemma {:induction false} FirstValidFacts(values: seq<Value>)
    ensures FirstValid(values) == "" <==> forall k :: 0 <= k < |values| ==> !ValidString(values[k])
    ensures FirstValid(values) != "" ==>
      exists k :: 0 <= k < |values| && ValidString(values[k]) && FirstValid(values) == Strip(values[k].s)
                  && (forall j :: 0 <= j < k ==> !ValidString(values[j]))
    decreases |values|
  {
    if values == [] {
      return;
    }
    if ValidString(values[0]) {
      assert FirstValid(values) == Strip(values[0].s);
      var k := 0;
      assert 0 <= k < |values| && ValidString(values[k]) && FirstValid(values) == Strip(values[k].s);
      return;
    }
    var rest := values[1..];
    FirstValidFacts(rest);
    assert FirstValid(values) == FirstValid(rest);
    if FirstValid(rest) != "" {
      var k :| 0 <= k < |rest| && ValidString(rest[k]) && FirstValid(rest) == Strip(rest[k].s)
        && (forall j :: 0 <= j < k ==> !ValidString(rest[j]));
      assert values[k + 1] == rest[k];
      forall j | 0 <= j < k + 1
        ensures !ValidString(values[j])
      {
        if j > 0 {
          assert values[j] == rest[j - 1];
        }
      }
      assert ValidString(values[k + 1]) && FirstValid(values) == Strip(values[k + 1].s);
    }
  }

  /** `_first_valid_string`: the loop over the series, returning at the first accepted value. */
  method FirstValidString(values: seq<Value>) returns (r: string)
    ensures r == FirstValid(values)
  {
    for i := 0 to |values|
      invariant FirstValid(values) == FirstValid(values[i..])
    {
      assert values[i..][0] == values[i] && values[i..][1..] == values[i + 1..];
      if values[i].Str? && Strip(values[i].s) != "" {
        return Strip(values[i].s);
      }
    }
    return "";
  }

  /** `_md_escape` of a string: every '|' becomes "\|". */
  function MdEscape(text: string): (r: string)
    ensures |r| >= |text|
    ensures '|' !in text ==> r == text
  {
    ReplaceChar(text, '|', "\\|")
  }

  /** `_md_escape` of a cell: None is '', anything else is escaped `str(value)`. */
  function MdEscapeValue(py: Builtins, v: Value): string {
    if v.Null? then "" else MdEscape(PyStr(py, v))
  }

  /** The reading of a Markdown cell: "\|" stands for '|'. */
  function MdUnescape(text: string): string
    decreases |text|
  {
    if |text| >= 2 && text[0] == '\\' && text[1] == '|' then "|" + MdUnescape(text[2..])
    else if text == [] then ""
    else [text[0]] + MdUnescape(text[1..])
  }

  /** An escaped text never begins with a bare '|'. */
  lemma MdEscapeHead(text: string)
    requires text != []
    ensures MdEscape(text) != [] && MdEscape(text)[0] == (if text[0] == '|' then '\\' else text[0])
  {
    assert MdEscape(text) == (if text[0] == '|' then "\\|" else [text[0]]) + MdEscape(text[1..]);
  }

  /** Reading an escaped cell gives back the text, whatever backslashes it held. */
  lemma {:induction false} MdEscapeRoundTrip(text: string)
    ensures MdUnescape(MdEscape(text)) == text
    decreases |text|
  {
    if text != [] {
      var rest := MdEscape(text[1..]);
      MdEscapeRoundTrip(text[1..]);
      assert MdEscape(text) == (if text[0] == '|' then "\\|" else [text[0]]) + rest;
      if text[0] == '|' {
        assert ("\\|" + rest)[2..] == rest;
      } else {
        var e := [text[0]] + rest;
        assert e[1..] == rest;
        if text[0] == '\\' && rest != [] {
          MdEscapeHead(text[1..]);
        }
      }
      assert text == [text[0]] + text[1..];
    }
  }

  /** Every '|' of an escaped text follows a backslash, so none ends a table cell. */
  lemma {:induction false} MdEscapeGuardsPipes(text: string)
    ensures var e := MdEscape(text);
      forall i :: 0 <= i < |e| && e[i] == '|' ==> i > 0 && e[i - 1] == '\\'
    decreases |text|
  {
    if text != [] {
      MdEscapeGuardsPipes(text[1..]);
      var rest := MdEscape(text[1..]);
      var head := if text[0] == '|' then "\\|" else [text[0]];
      var e := head + rest;
      assert MdEscape(text) == e;
      forall i | 0 <= i < |e| && e[i] == '|'
        ensures i > 0 && e[i - 1] == '\\'
      {
        if i >= |head| {
          var j := i - |head|;
          assert rest[j] == '|';
        }
      }
    }
  }

  // ---------------------------------------------------------------------------
  // compute_monthly_counts

  /** One qualifying submission: whose it is and the month it falls in. */
  datatype Submission = Submission(uuid: string, month: string)

  /** The qualifying rows of a table as submissions, in table order. */
  function Submissions(py: Builtins, clock: MonthClock, rows: seq<Row>): (r: seq<Submission>)
    ensures |r| <= |rows|
    decreases |rows|
  {
    if rows == [] then []
    else
      var last := rows[|rows| - 1];
      Submissions(py, clock, rows[..|rows| - 1])
        + (if Qualifies(clock, last) then [Submission(UuidKey(py, last), clock.monthOf(SubmittedAt(clock, last).value))] else [])
  }

  /** The participant_uuid of every qualifying consent row, in table order. */
  function ConsentKeys(py: Builtins, clock: MonthClock, rows: seq<Row>): (keys: seq<string>)
    ensures forall x :: x in keys <==> exists i :: 0 <= i < |rows| && Qualifies(clock, rows[i]) && UuidKey(py, rows[i]) == x
    decreases |rows|
  {
    if rows == [] then []
    else
      var init := rows[..|rows| - 1];
      var last := rows[|rows| - 1];
      assert forall i :: 0 <= i < |init| ==> init[i] == rows[i];
      ConsentKeys(py, clock, init) + (if Qualifies(clock, last) then [UuidKey(py, last)] else [])
  }

  /** The months of the submissions, in order. */
  function Months(subs: seq<Submission>): (ms: seq<string>)
    ensures |ms| == |subs|
    ensures forall k :: 0 <= k < |subs| ==> ms[k] == subs[k].month
  {
    seq(|subs|, k requires 0 <= k < |subs| => subs[k].month)
  }

  /** How many submissions a participant made in a month. */
  function CountIn(subs: seq<Submission>, uuid: string, month: string): nat
    decreases |subs|
  {
    if subs == [] then 0
    else
      var last := subs[|subs| - 1];
      CountIn(subs[..|subs| - 1], uuid, month) + (if last.uuid == uuid && last.month == month then 1 else 0)
  }

  /** How many submissions a participant made in any of the given months. */
  function CountInAny(subs: seq<Submission>, uuid: string, months: seq<string>): nat
    decreases |subs|
  {
    if subs == [] then 0
    else
      var last := subs[|subs| - 1];
      CountInAny(subs[..|subs| - 1], uuid, months) + (if last.uuid == uuid && last.month in months then 1 else 0)
  }

  /** How many submissions a participant made. */
  function CountOf(subs: seq<Submission>, uuid: string): nat
    decreases |subs|
  {
    if subs == [] then 0
    else
      var last := subs[|subs| - 1];
      CountOf(subs[..|subs| - 1], uuid) + (if last.uuid == uuid then 1 else 0)
  }

  function Sum(xs: seq<nat>): nat
    decreases |xs|
  {
    if xs == [] then 0 else Sum(xs[..|xs| - 1]) + xs[|xs| - 1]
  }

  /** One line of the summary. */
  datatype SummaryRow = SummaryRow(code: string, uuid: string, total: nat, counts: seq<nat>)

  /** The summary table, or the empty frame returned when consent.csv has no rows. */
  datatype Summary = NoConsent | Summary(months: seq<string>, rows: seq<SummaryRow>)

  /** The counts of one participant, one per month column. */
  function MonthCounts(subs: seq<Submission>, uuid: string, months: seq<string>): (cs: seq<nat>)
    ensures |cs| == |months|
    ensures forall m :: 0 <= m < |months| ==> cs[m] == CountIn(subs, uuid, months[m])
  {
    seq(|months|, m requires 0 <= m < |months| => CountIn(subs, uuid, months[m]))
  }

  /** The qualifying consent rows of one participant. */
  function ConsentGroup(py: Builtins, clock: MonthClock, rows: seq<Row>, uuid: string): (g: seq<Row>)
    ensures forall k :: 0 <= k < |g| ==> g[k] in rows && Qualifies(clock, g[k]) && UuidKey(py, g[k]) == uuid
    decreases |rows|
  {
    if rows == [] then []
    else
      var last := rows[|rows| - 1];
      ConsentGroup(py, clock, rows[..|rows| - 1], uuid)
        + (if Qualifies(clock, last) && UuidKey(py, last) == uuid then [last] else [])
  }

  /** The time of a qualifying row. */
  function TimeOf(clock: MonthClock, row: Row): int {
    var t := SubmittedAt(clock, row);
    if t.Some? then t.value else 0
  }

  /** A row placed after every row that is not later. */
  function InsertByTime(clock: MonthClock, row: Row, rows: seq<Row>): (r: seq<Row>)
    ensures multiset(r) == multiset(rows) + multiset{row}
    decreases |rows|
  {
    if rows == [] then [row]
    else if TimeOf(clock, row) < TimeOf(clock, rows[0]) then [row] + rows
    else
      assert rows == [rows[0]] + rows[1..];
      [rows[0]] + InsertByTime(clock, row, rows[1..])
  }

  /** `sort_values("submitted_at")` on a group. */
  function SortByTime(clock: MonthClock, rows: seq<Row>): (r: seq<Row>)
    ensures multiset(r) == multiset(rows)
    decreases |rows|
  {
    if rows == [] then []
    else
      assert rows == rows[..|rows| - 1] + [rows[|rows| - 1]];
      InsertByTime(clock, rows[|rows| - 1], SortByTime(clock, rows[..|rows| - 1]))
  }

  predicate SortedByTime(clock: MonthClock, rows: seq<Row>) {
    forall i, j :: 0 <= i < j < |rows| ==> TimeOf(clock, rows[i]) <= TimeOf(clock, rows[j])
  }

  lemma {:induction false} InsertByTimeSorted(clock: MonthClock, row: Row, rows: seq<Row>)
    requires SortedByTime(clock, rows)
    ensures SortedByTime(clock, InsertByTime(clock, row, rows))
    decreases |rows|
  {
    if rows != [] && TimeOf(clock, row) >= TimeOf(clock, rows[0]) {
      InsertByTimeSorted(clock, row, rows[1..]);
      var rest := InsertByTime(clock, row, rows[1..]);
      forall j | 0 <= j < |rest|
        ensures TimeOf(clock, rows[0]) <= TimeOf(clock, rest[j])
      {
        assert rest[j] in multiset(rest);
        if rest[j] != row {
          assert rest[j] in rows[1..];
          var i :| 0 <= i < |rows[1..]| && rows[1..][i] == rest[j];
          assert rows[i + 1] == rest[j];
        }
      }
    }
  }

  /** The group sorted by time is in time order. */
  lemma {:induction false} SortByTimeSorted(clock: MonthClock, rows: seq<Row>)
    ensures SortedByTime(clock, SortByTime(clock, rows))
    decreases |rows|
  {
    if rows != [] {
      SortByTimeSorted(clock, rows[..|rows| - 1]);
      InsertByTimeSorted(clock, rows[|rows| - 1], SortByTime(clock, rows[..|rows| - 1]));
    }
  }

  /** The participant_signature cell of a row; a row without the column gives None. */
  function SignatureCell(row: Row): Value {
    Get(row, "participant_signature", Null)
  }

  /** The participant_signature cells of rows, in order. */
  function Signatures(rows: seq<Row>): (vs: seq<Value>)
    ensures |vs| == |rows|
    ensures forall k :: 0 <= k < |rows| ==> vs[k] == SignatureCell(rows[k])
  {
    seq(|rows|, k requires 0 <= k < |rows| => SignatureCell(rows[k]))
  }

  /** `participant_code`: the first valid signature of the participant's consent rows in time order. */
  function ParticipantCode(py: Builtins, clock: MonthClock, rows: seq<Row>, uuid: string): string {
    FirstValid(Signatures(SortByTime(clock, ConsentGroup(py, clock, rows, uuid))))
  }

  /** The submissions of the initial and biweekly tables together. */
  function AllSubmissions(py: Builtins, clock: MonthClock, initial: Table, biweekly: Table): seq<Submission> {
    Submissions(py, clock, initial.rows) + Submissions(py, clock, biweekly.rows)
  }

  /** The summary row of one participant. */
  function RowFor(py: Builtins, clock: MonthClock, consent: Table, subs: seq<Submission>, months: seq<string>,
                  uuid: string): SummaryRow
  {
    var counts := MonthCounts(subs, uuid, months);
    SummaryRow(ParticipantCode(py, clock, consent.rows, uuid), uuid, Sum(counts), counts)
  }

  /**
   * `compute_monthly_counts`: an empty frame for a consent table without rows; a
   * KeyError when a table with rows lacks a column the aggregation names;
   * otherwise one row per consenting participant, in uuid order, with a column per
   * month any qualifying submission falls in, in ascending order.
   */
  function ComputeMonthlyCounts(py: Builtins, clock: MonthClock, consent: Table, initial: Table, biweekly: Table)
    : (r: Outcome<Summary>)
    ensures consent.rows == [] ==> r == Ok(NoConsent)
    ensures r.Err? <==>
      consent.rows != []
      && ("participant_uuid" !in consent.columns || "participant_signature" !in consent.columns
          || (initial.rows != [] && "participant_uuid" !in initial.columns)
          || (biweekly.rows != [] && "participant_uuid" !in biweekly.columns))
  {
    if consent.rows == [] then Ok(NoConsent)
    else if "participant_uuid" !in consent.columns then Err("KeyError: ['participant_uuid']")
    else if "participant_signature" !in consent.columns then Err("KeyError: participant_signature")
    else if initial.rows != [] && "participant_uuid" !in initial.columns then Err("KeyError: ['participant_uuid']")
    else if biweekly.rows != [] && "participant_uuid" !in biweekly.columns then Err("KeyError: ['participant_uuid']")
    else
      var subs := AllSubmissions(py, clock, initial, biweekly);
      var months := SortedDistinct(Months(subs));
      var uuids := SortedDistinct(ConsentKeys(py, clock, consent.rows));
      Ok(Summary(months, seq(|uuids|, k requires 0 <= k < |uuids| => RowFor(py, clock, consent, subs, months, uuids[k]))))
  }

  // ---------------------------------------------------------------------------
  // What the summary promises

  /** Counting over months one by one adds up to counting over all of them, when no month repeats. */
  lemma {:induction false} SumMonthCounts(subs: seq<Submission>, uuid: string, months: seq<string>)
    requires StrictlySorted(months)
    ensures Sum(MonthCounts(subs, uuid, months)) == CountInAny(subs, uuid, months)
    decreases |months|
  {
    if months != [] {
      var init := months[..|months| - 1];
      var last := months[|months| - 1];
      assert StrictlySorted(init);
      SumMonthCounts(subs, uuid, init);
      assert MonthCounts(subs, uuid, months)[..|months| - 1] == MonthCounts(subs, uuid, init);
      assert last !in init by {
        if last in init {
          var i :| 0 <= i < |init| && init[i] == last;
          StrLessIrreflexive(last);
        }
      }
      assert init + [last] == months;
      CountInAnyLast(subs, uuid, init, last);
      var cs := MonthCounts(subs, uuid, months);
      assert Sum(cs) == Sum(cs[..|cs| - 1]) + cs[|cs| - 1];
    } else {
      CountInNoMonths(subs, uuid);
    }
  }

  /** No submission falls in none of the months. */
  lemma {:induction false} CountInNoMonths(subs: seq<Submission>, uuid: string)
    ensures CountInAny(subs, uuid, []) == 0
    decreases |subs|
  {
    if subs != [] {
      CountInNoMonths(subs[..|subs| - 1], uuid);
    }
  }

  /** Counting over one more month that was not counted adds that month's count. */
  lemma {:induction false} CountInAnyLast(subs: seq<Submission>, uuid: string, months: seq<string>, month: string)
    requires month !in months
    ensures CountInAny(subs, uuid, months + [month]) == CountInAny(subs, uuid, months) + CountIn(subs, uuid, month)
    decreases |subs|
  {
    if subs != [] {
      CountInAnyLast(subs[..|subs| - 1], uuid, months, month);
    }
  }

  /** Counting over months that hold every submission's month counts every submission. */
  lemma {:induction false} CountInAllMonths(subs: seq<Submission>, uuid: string, months: seq<string>)
    requires forall k :: 0 <= k < |subs| ==> subs[k].month in months
    ensures CountInAny(subs, uuid, months) == CountOf(subs, uuid)
    decreases |subs|
  {
    if subs != [] {
      CountInAllMonths(subs[..|subs| - 1], uuid, months);
    }
  }

  /** The participant_uuid column of the summary. */
  function Uuids(rows: seq<SummaryRow>): (us: seq<string>)
    ensures |us| == |rows|
    ensures forall j :: 0 <= j < |rows| ==> us[j] == rows[j].uuid
  {
    seq(|rows|, j requires 0 <= j < |rows| => rows[j].uuid)
  }

  /** The month columns are ascending and are exactly the months some qualifying submission falls in. */
  lemma SummaryMonths(py: Builtins, clock: MonthClock, consent: Table, initial: Table, biweekly: Table)
    requires ComputeMonthlyCounts(py, clock, consent, initial, biweekly).Ok?
    requires ComputeMonthlyCounts(py, clock, consent, initial, biweekly).value.Summary?
    ensures var s := ComputeMonthlyCounts(py, clock, consent, initial, biweekly).value;
      var subs := AllSubmissions(py, clock, initial, biweekly);
      StrictlySorted(s.months)
      && forall m :: m in s.months <==> exists k :: 0 <= k < |subs| && subs[k].month == m
  {
    var subs := AllSubmissions(py, clock, initial, biweekly);
    var ms := Months(subs);
    forall m
      ensures m in SortedDistinct(ms) <==> exists k :: 0 <= k < |subs| && subs[k].month == m
    {
      SortedDistinctMembers(ms, m);
      if m in ms {
        var k :| 0 <= k < |ms| && ms[k] == m;
        assert subs[k].month == m;
      }
    }
  }

  /**
   * The summary has one row per participant with a consent row that survives the
   * dropna, in ascending uuid order.
   */
  lemma SummaryParticipants(py: Builtins, clock: MonthClock, consent: Table, initial: Table, biweekly: Table)
    requires ComputeMonthlyCounts(py, clock, consent, initial, biweekly).Ok?
    requires ComputeMonthlyCounts(py, clock, consent, initial, biweekly).value.Summary?
    ensures var s := ComputeMonthlyCounts(py, clock, consent, initial, biweekly).value;
      StrictlySorted(Uuids(s.rows))
      && forall u :: u in Uuids(s.rows) <==>
           exists i :: 0 <= i < |consent.rows| && Qualifies(clock, consent.rows[i]) && UuidKey(py, consent.rows[i]) == u
  {
    var s := ComputeMonthlyCounts(py, clock, consent, initial, biweekly).value;
    var keys := ConsentKeys(py, clock, consent.rows);
    var uuids := SortedDistinct(keys);
    assert Uuids(s.rows) == uuids;
    forall u
      ensures u in uuids <==> u in keys
    {
      SortedDistinctMembers(keys, u);
    }
  }

  /**
   * Every summary row has one count per month column, that count is the number of
   * the participant's qualifying submissions in the month, and `total_responses`
   * is the number of all its qualifying submissions.
   */
  lemma SummaryCounts(py: Builtins, clock: MonthClock, consent: Table, initial: Table, biweekly: Table)
    requires ComputeMonthlyCounts(py, clock, consent, initial, biweekly).Ok?
    requires ComputeMonthlyCounts(py, clock, consent, initial, biweekly).value.Summary?
    ensures var s := ComputeMonthlyCounts(py, clock, consent, initial, biweekly).value;
      var subs := AllSubmissions(py, clock, initial, biweekly);
      forall j :: 0 <= j < |s.rows| ==>
        |s.rows[j].counts| == |s.months|
        && (forall m :: 0 <= m < |s.months| ==> s.rows[j].counts[m] == CountIn(subs, s.rows[j].uuid, s.months[m]))
        && s.rows[j].total == CountOf(subs, s.rows[j].uuid)
  {
    var s := ComputeMonthlyCounts(py, clock, consent, initial, biweekly).value;
    var subs := AllSubmissions(py, clock, initial, biweekly);
    var ms := Months(subs);
    forall k | 0 <= k < |subs|
      ensures subs[k].month in s.months
    {
      SortedDistinctMembers(ms, subs[k].month);
      assert ms[k] == subs[k].month;
    }
    forall j | 0 <= j < |s.rows|
      ensures s.rows[j].total == CountOf(subs, s.rows[j].uuid)
    {
      SumMonthCounts(subs, s.rows[j].uuid, s.months);
      CountInAllMonths(subs, s.rows[j].uuid, s.months);
    }
  }

  /** Sorting rows by time keeps exactly the same rows. */
  lemma SortByTimeMembers(clock: MonthClock, rows: seq<Row>)
    ensures forall x :: x in SortByTime(clock, rows) <==> x in rows
  {
    var sorted := SortByTime(clock, rows);
    forall x
      ensures x in sorted <==> x in rows
    {
      assert x in sorted <==> x in multiset(sorted);
      assert x in rows <==> x in multiset(rows);
    }
  }

  /** A participant's code is '' exactly when none of its consent rows has a valid signature. */
  lemma ParticipantCodeBlank(py: Builtins, clock: MonthClock, rows: seq<Row>, uuid: string)
    ensures ParticipantCode(py, clock, rows, uuid) == "" <==>
      var group := ConsentGroup(py, clock, rows, uuid);
      forall k :: 0 <= k < |group| ==> !ValidString(SignatureCell(group[k]))
  {
    var group := ConsentGroup(py, clock, rows, uuid);
    var sorted := SortByTime(clock, group);
    var sigs := Signatures(sorted);
    FirstValidFacts(sigs);
    SortByTimeMembers(clock, group);
    if forall n :: 0 <= n < |sigs| ==> !ValidString(sigs[n]) {
      forall k | 0 <= k < |group|
        ensures !ValidString(SignatureCell(group[k]))
      {
        assert group[k] in sorted;
        var n :| 0 <= n < |sorted| && sorted[n] == group[k];
        assert sigs[n] == SignatureCell(group[k]);
      }
    } else {
      var n :| 0 <= n < |sigs| && ValidString(sigs[n]);
      assert sorted[n] in group;
    }
  }

  /** Row k has a valid signature and no row with a valid signature is earlier. */
  predicate EarliestSigned(clock: MonthClock, rows: seq<Row>, k: int) {
    0 <= k < |rows| && ValidString(SignatureCell(rows[k]))
    && forall i :: 0 <= i < |rows| && ValidString(SignatureCell(rows[i])) ==> TimeOf(clock, rows[k]) <= TimeOf(clock, rows[i])
  }

  /**
   * A participant's code, when not '', is the stripped signature of one of its
   * consent rows, and no consent row of the participant with a valid signature is
   * earlier.
   */
  lemma ParticipantCodeEarliest(py: Builtins, clock: MonthClock, rows: seq<Row>, uuid: string)
    requires ParticipantCode(py, clock, rows, uuid) != ""
    ensures var group := ConsentGroup(py, clock, rows, uuid);
      exists k :: EarliestSigned(clock, group, k)
                  && ParticipantCode(py, clock, rows, uuid) == Strip(SignatureCell(group[k]).s)
  {
    var g := EarliestSignedIndex(py, clock, rows, uuid);
  }

  /** The consent row whose signature gives a non-blank participant code. */
  lemma EarliestSignedIndex(py: Builtins, clock: MonthClock, rows: seq<Row>, uuid: string) returns (g: int)
    requires ParticipantCode(py, clock, rows, uuid) != ""
    ensures EarliestSigned(clock, ConsentGroup(py, clock, rows, uuid), g)
    ensures ParticipantCode(py, clock, rows, uuid) == Strip(SignatureCell(ConsentGroup(py, clock, rows, uuid)[g]).s)
  {
    var group := ConsentGroup(py, clock, rows, uuid);
    var sorted := SortByTime(clock, group);
    var sigs := Signatures(sorted);
    FirstValidFacts(sigs);
    SortByTimeSorted(clock, group);
    var k :| 0 <= k < |sigs| && ValidString(sigs[k]) && FirstValid(sigs) == Strip(sigs[k].s)
      && (forall j :: 0 <= j < k ==> !ValidString(sigs[j]));
    var time := (r: Row) => TimeOf(clock, r);
    var signed := (r: Row) => ValidString(SignatureCell(r));
    assert forall j :: 0 <= j < k ==> !signed(sorted[j]) by {
      forall j | 0 <= j < k
        ensures !signed(sorted[j])
      {
        assert sigs[j] == SignatureCell(sorted[j]);
      }
    }
    g := EarliestOfPermutation(time, signed, group, sorted, k);
    forall i | 0 <= i < |group| && ValidString(SignatureCell(group[i]))
      ensures TimeOf(clock, group[g]) <= TimeOf(clock, group[i])
    {
      assert signed(group[i]);
    }
    assert sigs[k] == SignatureCell(group[g]);
    assert 0 <= g < |group|;
    assert ValidString(SignatureCell(group[g]));
    assert EarliestSigned(clock, group, g);
  }

  /**
   * In a time-ordered permutation of xs, the first element that satisfies ok is an
   * element of xs no later than any element of xs that satisfies ok.
   */
  lemma EarliestOfPermutation<T>(time: T -> int, ok: T -> bool, xs: seq<T>, sorted: seq<T>, k: int) returns (g: int)
    requires multiset(sorted) == multiset(xs)
    requires forall i, j :: 0 <= i < j < |sorted| ==> time(sorted[i]) <= time(sorted[j])
    requires 0 <= k < |sorted| && ok(sorted[k]) && forall j :: 0 <= j < k ==> !ok(sorted[j])
    ensures 0 <= g < |xs| && xs[g] == sorted[k] && ok(xs[g])
    ensures forall i :: 0 <= i < |xs| && ok(xs[i]) ==> time(xs[g]) <= time(xs[i])
  {
    assert sorted[k] in multiset(xs);
    g :| 0 <= g < |xs| && xs[g] == sorted[k];
    forall i | 0 <= i < |xs| && ok(xs[i])
      ensures time(xs[g]) <= time(xs[i])
    {
      assert xs[i] in multiset(sorted);
      var n :| 0 <= n < |sorted| && sorted[n] == xs[i];
      assert n >= k;
      if n != k {
        assert time(sorted[k]) <= time(sorted[n]);
      }
    }
  }

  // ---------------------------------------------------------------------------
  // write_markdown_report

  const SummaryColumns: seq<string> := ["participant_code", "participant_uuid", "total_responses"]

  /** The columns of the summary, in order. */
  function Headers(months: seq<string>): (hs: seq<string>)
    ensures |hs| == 3 + |months|
  {
    SummaryColumns + months
  }

  /** The cells of one summary row, as `_md_escape(row.get(col))` gives them. */
  function RowCells(py: Builtins, row: SummaryRow): (cells: seq<string>)
    ensures |cells| == 3 + |row.counts|
  {
    [MdEscapeValue(py, Str(row.code)), MdEscapeValue(py, Str(row.uuid)), MdEscapeValue(py, Int(row.total))]
      + seq(|row.counts|, m requires 0 <= m < |row.counts| => MdEscapeValue(py, Int(row.counts[m])))
  }

  /** `"| " + " | ".join(cells) + " |\n"` */
  function TableLine(cells: seq<string>): string {
    "| " + Join(" | ", cells) + " |\n"
  }

  const MarkdownTitle: string := "# Monthly Survey Participation\n\n"
  const MarkdownIntro: string :=
    "This table counts initial + biweekly survey submissions per participant, grouped by calendar month (YYYY-MM).\n\n"
  const NoSubmissions: string := "_No qualifying survey submissions were found._\n"

  /** The separator row: one "---" per column. */
  function Dashes(n: nat): (cells: seq<string>)
    ensures |cells| == n
  {
    seq(n, _ => "---")
  }

  /** The text lines of the table: header, separator and one line per summary row. */
  function TableLines(py: Builtins, months: seq<string>, rows: seq<SummaryRow>): (lines: seq<string>)
    ensures |lines| == |rows| + 2
    ensures lines[0] == TableLine(Headers(months)) && lines[1] == TableLine(Dashes(|Headers(months)|))
    ensures forall j :: 0 <= j < |rows| ==> lines[j + 2] == TableLine(RowCells(py, rows[j]))
  {
    [TableLine(Headers(months)), TableLine(Dashes(|Headers(months)|))]
      + seq(|rows|, j requires 0 <= j < |rows| => TableLine(RowCells(py, rows[j])))
  }

  /** The Markdown report: the title and introduction, then the table or the no-submissions line. */
  function MarkdownReport(py: Builtins, s: Summary): string
  {
    MarkdownTitle + MarkdownIntro
      + if s.NoConsent? || s.rows == [] then NoSubmissions else Concat(TableLines(py, s.months, s.rows))
  }

  /** The parts written one after another. */
  function Concat(parts: seq<string>): string
    decreases |parts|
  {
    if parts == [] then "" else Concat(parts[..|parts| - 1]) + parts[|parts| - 1]
  }

  /** `write_markdown_report`, with the text it writes as the result. */
  method WriteMarkdownReport(py: Builtins, s: Summary) returns (text: string)
    ensures text == MarkdownReport(py, s)
  {
    text := MarkdownTitle + MarkdownIntro;
    if s.NoConsent? || s.rows == [] {
      text := text + NoSubmissions;
      return;
    }
    var headers := Headers(s.months);
    ghost var lines := TableLines(py, s.months, s.rows);
    var table := TableLine(headers);
    ConcatPrefix(lines, 0);
    assert lines[..0] == [];
    table := table + TableLine(Dashes(|headers|));
    ConcatPrefix(lines, 1);
    for j := 0 to |s.rows|
      invariant table == Concat(lines[..j + 2])
    {
      table := table + TableLine(RowCells(py, s.rows[j]));
      ConcatPrefix(lines, j + 2);
    }
    assert lines[..|s.rows| + 2] == lines;
    text := text + table;
  }

  /** Writing one more part appends it. */
  lemma ConcatPrefix(parts: seq<string>, j: nat)
    requires j < |parts|
    ensures Concat(parts[..j + 1]) == Concat(parts[..j]) + parts[j]
  {
    assert parts[..j + 1][..j] == parts[..j];
  }

  /** Every row line of the report of a computed summary has one cell per header. */
  lemma ReportRowsMatchHeader(py: Builtins, clock: MonthClock, consent: Table, initial: Table, biweekly: Table)
    requires ComputeMonthlyCounts(py, clock, consent, initial, biweekly).Ok?
    requires ComputeMonthlyCounts(py, clock, consent, initial, biweekly).value.Summary?
    ensures var s := ComputeMonthlyCounts(py, clock, consent, initial, biweekly).value;
      forall j :: 0 <= j < |s.rows| ==> |RowCells(py, s.rows[j])| == |Headers(s.months)|
  {
    SummaryCounts(py, clock, consent, initial, biweekly);
  }
}
