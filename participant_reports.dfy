/**
 * The per-participant report generator: how answers read from the structured CSV
 * tables are judged blank, turned into text and gathered into question blocks,
 * how the consent, initial and biweekly rows of one participant are brought
 * together, and how the index sorts testers and participants by consent time.
 * Timestamp parsing and the choice of a group's latest row are parameters; the
 * HTML, Markdown and map rendering is not modelled.
 */
module ParticipantReports {
  import opened Text
  import opened Common

  // ---------------------------------------------------------------------------
  // safe_filename

  /** The characters `safe_filename` keeps. */
  predicate FilenameChar(c: char) {
    IsAlnum(c) || c == '-' || c == '_'
  }

  /** `safe_filename`: every character that is not alphanumeric, '-' or '_' becomes '-'. */
  function SafeFilename(name: string): (r: string)
    ensures |r| == |name|
    ensures forall i :: 0 <= i < |r| ==> FilenameChar(r[i])
    ensures forall i :: 0 <= i < |r| ==> (r[i] == name[i] <==> FilenameChar(name[i]))
  {
    seq(|name|, i requires 0 <= i < |name| => if FilenameChar(name[i]) then name[i] else '-')
  }

  /** A safe name is left as it is, so sanitising twice is sanitising once. */
  lemma SafeFilenameIdempotent(name: string)
    ensures SafeFilename(SafeFilename(name)) == SafeFilename(name)
  {
    var once := SafeFilename(name);
    assert forall i :: 0 <= i < |once| ==> SafeFilename(once)[i] == once[i];
  }

  // ---------------------------------------------------------------------------
  // is_blank, format_boolean, parse_multi, format_answer

  /** Stripped text that reads, ignoring case, as 'nan' or 'none'. */
  predicate NullText(t: string) {
    (|t| == 3 || |t| == 4) && (Lower(t) == "nan" || Lower(t) == "none")
  }

  /** Text that strips to '' or to a null text. */
  predicate BlankText(s: string) {
    Strip(s) == "" || NullText(Strip(s))
  }

  /** `is_blank`: None, a NaN float, or blank text; every other value is an answer. */
  predicate IsBlank(v: Value): (b: bool)
    ensures v.Null? || v.NaN? ==> b
    ensures v.Str? ==> (b <==> Strip(v.s) == "" || Lower(Strip(v.s)) == "nan" || Lower(Strip(v.s)) == "none")
    ensures v.Bool? || v.Int? || v.Float? || v.List? || v.Dict? ==> !b
  {
    match v
    case Null => true
    case NaN => true
    case Str(s) => BlankText(s)
    case _ => false
  }

  const NoResponse: string := "No response recorded"

  /** The texts `format_boolean` reads as yes and as no, after strip and lower-casing. */
  predicate YesText(t: string) {
    |t| <= 4 && (t == "1" || t == "true" || t == "yes")
  }

  predicate NoText(t: string) {
    |t| <= 5 && (t == "0" || t == "false" || t == "no")
  }

  /**
   * `format_boolean`: blank answers read "No response recorded"; 1/true/yes read
   * "Yes" and 0/false/no read "No", ignoring case and surrounding whitespace;
   * anything else is shown as `str(value)`.
   */
  function FormatBoolean(py: Builtins, v: Value): (r: string)
    ensures IsBlank(v) ==> r == NoResponse
    ensures r == NoResponse || r == "Yes" || r == "No" || r == PyStr(py, v)
  {
    if IsBlank(v) then NoResponse
    else
      var t := Lower(Strip(PyStr(py, v)));
      if YesText(t) then "Yes"
      else if NoText(t) then "No"
      else PyStr(py, v)
  }

  /** A non-blank value whose text has no surrounding whitespace is judged on its lower-cased text. */
  lemma FormatBooleanPlain(py: Builtins, v: Value, t: string)
    requires !v.Null? && !v.NaN? && PyStr(py, v) == t
    requires t != "" && !IsSpace(t[0]) && !IsSpace(t[|t| - 1]) && !NullText(t)
    ensures FormatBoolean(py, v) ==
      if YesText(Lower(t)) then "Yes" else if NoText(Lower(t)) then "No" else t
  {
    StripClean(t);
  }

  /** Booleans read as Yes and No. */
  lemma FormatBooleanOfBool(py: Builtins, b: bool)
    ensures FormatBoolean(py, Bool(b)) == if b then "Yes" else "No"
  {
    var t := if b then "True" else "False";
    if b {
      assert Lower(t) == "true";
    } else {
      assert Lower(t) == "false";
    }
    FormatBooleanPlain(py, Bool(b), t);
  }

  /** The integers 1 and 0 read as Yes and No. */
  lemma FormatBooleanOfBit(py: Builtins, i: int)
    requires i == 0 || i == 1
    ensures FormatBoolean(py, Int(i)) == if i == 1 then "Yes" else "No"
  {
    var d := [DigitChar(i)];
    assert PyStr(py, Int(i)) == d by {
      assert NatToString(i) == d;
    }
    assert !NullText(d);
    assert Lower(d) == d by {
      assert Lower(d)[0] == d[0];
    }
    FormatBooleanPlain(py, Int(i), d);
    if i == 1 {
      assert d == "1" && YesText(d);
    } else {
      assert d == "0" && !YesText(d) && NoText(d);
    }
  }

  /** Yes-text is recognised whatever its case: "YES", "Yes" and "yes" all read Yes. */
  lemma FormatBooleanIgnoresCase(py: Builtins, s: string)
    requires !BlankText(s)
    requires Lower(Strip(s)) == "yes"
    ensures FormatBoolean(py, Str(s)) == "Yes"
  {
    assert !IsBlank(Str(s));
    assert PyStr(py, Str(s)) == s;
    assert YesText(Lower(Strip(s)));
  }

  /** `str(item)` of every item that is not blank, in order. */
  function NonBlankStrings(py: Builtins, items: seq<Value>): (r: seq<string>)
    ensures |r| <= |items|
    decreases |items|
  {
    if items == [] then []
    else
      var last := items[|items| - 1];
      NonBlankStrings(py, items[..|items| - 1]) + (if IsBlank(last) then [] else [PyStr(py, last)])
  }

  /** `[item.strip() for item in parts if item.strip()]` */
  function TrimmedParts(parts: seq<string>): (r: seq<string>)
    ensures |r| <= |parts|
    ensures forall k :: 0 <= k < |r| ==> r[k] != "" && !IsSpace(r[k][0]) && !IsSpace(r[k][|r[k]| - 1])
    decreases |parts|
  {
    if parts == [] then []
    else
      var t := Strip(parts[|parts| - 1]);
      TrimmedParts(parts[..|parts| - 1]) + (if t == "" then [] else [t])
  }

  /**
   * `parse_multi`: no items for a blank value; a list's non-blank items; a
   * bracketed text that parses as a JSON array, its non-blank items; otherwise the
   * text split on ';' if it has one, else on ',' if it has one, each part trimmed
   * and empty parts dropped; otherwise the text itself.
   */
  function ParseMulti(py: Builtins, v: Value): (r: seq<string>)
    ensures IsBlank(v) ==> r == []
    ensures v.List? ==> r == NonBlankStrings(py, v.items)
  {
    if IsBlank(v) then []
    else if v.List? then NonBlankStrings(py, v.items)
    else ParseText(py, Strip(PyStr(py, v)))
  }

  /** The stripped text of an answer: a JSON array's non-blank items when it is one, else its separated parts. */
  function ParseText(py: Builtins, text: string): (r: seq<string>)
    ensures !StartsWith(text, "[") ==> r == SeparatedParts(text)
  {
    var bracketed := StartsWith(text, "[") && EndsWith(text, "]");
    var parsed := if bracketed then py.jsonLoads(text) else Err("not a JSON array");
    if parsed.Ok? && parsed.value.List? then NonBlankStrings(py, parsed.value.items)
    else SeparatedParts(text)
  }

  /** Plain text split on ';' if it has one, else on ',' if it has one, else the text itself. */
  function SeparatedParts(text: string): seq<string> {
    if ';' in text then TrimmedParts(Split(text, ';'))
    else if ',' in text then TrimmedParts(Split(text, ','))
    else [text]
  }

  /** `format_answer`: several items joined with ", ", a single item as it is, and `str(value)` when there are none. */
  function FormatAnswer(py: Builtins, v: Value): (r: string)
    ensures IsBlank(v) ==> r == NoResponse
    ensures !IsBlank(v) && ParseMulti(py, v) == [] ==> r == PyStr(py, v)
    ensures !IsBlank(v) && |ParseMulti(py, v)| == 1 ==> r == ParseMulti(py, v)[0]
    ensures !IsBlank(v) && |ParseMulti(py, v)| > 1 ==> r == Join(", ", ParseMulti(py, v))
  {
    if IsBlank(v) then NoResponse
    else
      var items := ParseMulti(py, v);
      if |items| > 1 then Join(", ", items)
      else if |items| == 1 then items[0]
      else PyStr(py, v)
  }

  /** An item as a multi-value answer holds it: non-empty, trimmed, no separator, not starting a JSON array. */
  predicate CleanItem(item: string) {
    item != "" && !IsSpace(item[0]) && !IsSpace(item[|item| - 1])
    && ';' !in item && ',' !in item && item[0] != '['
  }

  /** Trimmed, non-empty parts survive trimming unchanged. */
  lemma {:induction false} TrimmedCleanParts(parts: seq<string>)
    requires forall k :: 0 <= k < |parts| ==> CleanItem(parts[k])
    ensures TrimmedParts(parts) == parts
    decreases |parts|
  {
    if parts != [] {
      TrimmedCleanParts(parts[..|parts| - 1]);
      StripClean(parts[|parts| - 1]);
    }
  }

  /** Clean items joined on a separator: no surrounding whitespace, not bracketed, holding the separator and no other. */
  lemma JoinedItemsText(items: seq<string>, sep: char)
    requires sep == ';' || sep == ','
    requires |items| >= 2
    requires forall k :: 0 <= k < |items| ==> CleanItem(items[k])
    ensures var text := Join([sep], items);
      text != "" && !IsSpace(text[0]) && !IsSpace(text[|text| - 1]) && text[0] != '['
      && sep in text && (sep == ',' ==> ';' !in text)
  {
    var text := Join([sep], items);
    JoinEnds([sep], items);
    assert text == items[0] + [sep] + Join([sep], items[1..]);
    assert text[|items[0]|] == sep;
    if sep == ',' && ';' in text {
      JoinChars([sep], items, ';');
    }
  }

  /** Text holding ';' or ',' is no null text. */
  lemma SeparatedTextNotNull(text: string, sep: char)
    requires sep == ';' || sep == ','
    requires sep in text
    ensures !NullText(text)
  {
    var i :| 0 <= i < |text| && text[i] == sep;
    assert Lower(text)[i] == sep;
  }

  /** Text with no surrounding whitespace that is not blank and not bracketed is split on its first kind of separator. */
  lemma ParseMultiPlainText(py: Builtins, text: string)
    requires text != "" && !IsSpace(text[0]) && !IsSpace(text[|text| - 1]) && text[0] != '['
    requires !NullText(text)
    ensures ParseMulti(py, Str(text)) ==
      if ';' in text then TrimmedParts(Split(text, ';'))
      else if ',' in text then TrimmedParts(Split(text, ','))
      else [text]
  {
    StripClean(text);
    assert !IsBlank(Str(text));
    assert !StartsWith(text, "[") by {
      assert text[..1][0] == text[0];
    }
  }

  /**
   * Items written out separated by ';' or by ',' are read back as the same items,
   * and `format_answer` shows them joined with ", ".
   */
  lemma MultiValueRoundTrip(py: Builtins, items: seq<string>, sep: char)
    requires sep == ';' || sep == ','
    requires |items| >= 2
    requires forall k :: 0 <= k < |items| ==> CleanItem(items[k])
    ensures ParseMulti(py, Str(Join([sep], items))) == items
    ensures FormatAnswer(py, Str(Join([sep], items))) == Join(", ", items)
  {
    var text := Join([sep], items);
    JoinedItemsText(items, sep);
    SeparatedTextNotNull(text, sep);
    ParseMultiPlainText(py, text);
    SplitJoin(items, sep);
    TrimmedCleanParts(items);
    assert ParseMulti(py, Str(text)) == items;
    assert !IsBlank(Str(text)) by {
      StripClean(text);
    }
  }

  // ---------------------------------------------------------------------------
  // Question maps and format_question_block

  /** A question map in its insertion order: column name and question text. */
  type QuestionMap = seq<(string, string)>

  function Columns(qs: QuestionMap): (cs: seq<string>)
    ensures |cs| == |qs|
    ensures forall k :: 0 <= k < |qs| ==> cs[k] == qs[k].0
  {
    seq(|qs|, k requires 0 <= k < |qs| => qs[k].0)
  }

  /** A dict's keys are distinct. */
  predicate DistinctColumns(qs: QuestionMap) {
    forall i, j :: 0 <= i < j < |qs| ==> qs[i].0 != qs[j].0
  }

  /** `d[key]` for a key the dict holds. */
  function Lookup(qs: QuestionMap, column: string): (q: string)
    requires column in Columns(qs)
    ensures exists k :: 0 <= k < |qs| && qs[k] == (column, q)
    decreases |qs|
  {
    if qs[0].0 == column then qs[0].1
    else
      assert column in Columns(qs[1..]) by {
        var k :| 0 <= k < |qs| && Columns(qs)[k] == column;
        assert Columns(qs[1..])[k - 1] == column;
      }
      var q := Lookup(qs[1..], column);
      var k :| 0 <= k < |qs[1..]| && qs[1..][k] == (column, q);
      assert qs[k + 1] == (column, q);
      q
  }

  /** The override entries whose columns the base map does not have, in the override's order. */
  function NewEntries(base: QuestionMap, overrides: QuestionMap): (r: QuestionMap)
    ensures |r| <= |overrides|
    ensures forall k :: 0 <= k < |r| ==> r[k] in overrides && r[k].0 !in Columns(base)
    decreases |overrides|
  {
    if overrides == [] then []
    else
      var last := overrides[|overrides| - 1];
      NewEntries(base, overrides[..|overrides| - 1]) + (if last.0 in Columns(base) then [] else [last])
  }

  /**
   * `{**base, **overrides}`: the base columns keep their places, each with the
   * override's text when it has one, and the override's new columns follow in
   * its order.
   */
  function MergeQuestionMap(base: QuestionMap, overrides: QuestionMap): (r: QuestionMap)
    ensures |r| >= |base|
    ensures Columns(r)[..|base|] == Columns(base)
    ensures forall k :: 0 <= k < |base| ==>
      r[k].1 == if base[k].0 in Columns(overrides) then Lookup(overrides, base[k].0) else base[k].1
    ensures r[|base|..] == NewEntries(base, overrides)
  {
    var kept := seq(|base|, k requires 0 <= k < |base| =>
      (base[k].0, if base[k].0 in Columns(overrides) then Lookup(overrides, base[k].0) else base[k].1));
    var r := kept + NewEntries(base, overrides);
    assert r[..|base|] == kept;
    assert Columns(r)[..|base|] == Columns(base);
    r
  }

  /** Merging never duplicates a column. */
  lemma MergeKeepsColumnsDistinct(base: QuestionMap, overrides: QuestionMap)
    requires DistinctColumns(base) && DistinctColumns(overrides)
    ensures DistinctColumns(MergeQuestionMap(base, overrides))
  {
    var r := MergeQuestionMap(base, overrides);
    var added := NewEntries(base, overrides);
    forall i, j | 0 <= i < j < |r|
      ensures r[i].0 != r[j].0
    {
      if j < |base| {
        assert Columns(r)[i] == Columns(base)[i] && Columns(r)[j] == Columns(base)[j];
      } else if i < |base| {
        assert r[j] == added[j - |base|];
        assert Columns(r)[i] == Columns(base)[i];
        assert base[i].0 in Columns(base);
      } else {
        NewEntriesDistinct(base, overrides);
        assert r[i] == added[i - |base|] && r[j] == added[j - |base|];
      }
    }
  }

  /** The new entries keep the override's columns apart. */
  lemma {:induction false} NewEntriesDistinct(base: QuestionMap, overrides: QuestionMap)
    requires DistinctColumns(overrides)
    ensures DistinctColumns(NewEntries(base, overrides))
    decreases |overrides|
  {
    if overrides != [] {
      var init := overrides[..|overrides| - 1];
      assert DistinctColumns(init);
      NewEntriesDistinct(base, init);
      var last := overrides[|overrides| - 1];
      forall k | 0 <= k < |NewEntries(base, init)|
        ensures NewEntries(base, init)[k].0 != last.0
      {
        var e := NewEntries(base, init)[k];
        assert e in init;
        var i :| 0 <= i < |init| && init[i] == e;
        assert overrides[i] == e;
      }
    }
  }

  /** A column that holds an answer. */
  predicate Answered(row: Row, column: string) {
    column in row && !IsBlank(row[column])
  }

  /** `f"**{question}**\n\n{answer}"` */
  function AnswerLine(question: string, answer: string): (line: string)
    ensures line != "" && line[0] == '*'
  {
    "**" + question + "**\n\n" + answer
  }

  /** One line per answered question, in the map's order. */
  function AnswerLines(py: Builtins, row: Row, qs: QuestionMap): (lines: seq<string>)
    ensures |lines| <= |qs|
    ensures forall k :: 0 <= k < |lines| ==> lines[k] != "" && lines[k][0] == '*'
    decreases |qs|
  {
    if qs == [] then []
    else
      var (column, question) := qs[|qs| - 1];
      AnswerLines(py, row, qs[..|qs| - 1])
        + (if Answered(row, column) then [AnswerLine(question, FormatAnswer(py, row[column]))] else [])
  }

  const NoResponses: string := "_No responses recorded._"

  /** The block `format_question_block` produces. */
  function QuestionBlock(py: Builtins, row: Row, qs: QuestionMap): string {
    var lines := AnswerLines(py, row, qs);
    if lines == [] then NoResponses else Join("\n\n", lines)
  }

  /** `format_question_block`: the answered questions' lines in map order, separated by blank lines. */
  method FormatQuestionBlock(py: Builtins, row: Row, qs: QuestionMap) returns (block: string)
    ensures block == QuestionBlock(py, row, qs)
  {
    var lines: seq<string> := [];
    for i := 0 to |qs|
      invariant lines == AnswerLines(py, row, qs[..i])
    {
      assert qs[..i + 1][..i] == qs[..i];
      var (column, question) := qs[i];
      if column in row && !IsBlank(row[column]) {
        var answer := FormatAnswer(py, row[column]);
        lines := lines + [AnswerLine(question, answer)];
      }
    }
    assert qs[..|qs|] == qs;
    if lines == [] {
      return NoResponses;
    }
    return Join("\n\n", lines);
  }

  /** Lines for a map split in two are the lines of each part, in order. */
  lemma {:induction false} AnswerLinesSplit(py: Builtins, row: Row, qs: QuestionMap, more: QuestionMap)
    ensures AnswerLines(py, row, qs + more) == AnswerLines(py, row, qs) + AnswerLines(py, row, more)
    decreases |more|
  {
    if more != [] {
      var init := more[..|more| - 1];
      assert (qs + more)[..|qs + more| - 1] == qs + init;
      assert (qs + more)[|qs + more| - 1] == more[|more| - 1];
      AnswerLinesSplit(py, row, qs, init);
    } else {
      assert qs + more == qs;
    }
  }

  /** No lines exactly when no question of the map is answered. */
  lemma {:induction false} NoLinesIffUnanswered(py: Builtins, row: Row, qs: QuestionMap)
    ensures AnswerLines(py, row, qs) == [] <==> forall k :: 0 <= k < |qs| ==> !Answered(row, qs[k].0)
    decreases |qs|
  {
    if qs != [] {
      var init := qs[..|qs| - 1];
      NoLinesIffUnanswered(py, row, init);
      assert forall k :: 0 <= k < |qs| - 1 ==> qs[k] == init[k];
    }
  }

  /** A block reads "_No responses recorded._" exactly when no question of the map is answered. */
  lemma NoResponsesIffUnanswered(py: Builtins, row: Row, qs: QuestionMap)
    ensures QuestionBlock(py, row, qs) == NoResponses <==>
      forall k :: 0 <= k < |qs| ==> !Answered(row, qs[k].0)
  {
    NoLinesIffUnanswered(py, row, qs);
    var lines := AnswerLines(py, row, qs);
    if lines != [] {
      JoinEnds("\n\n", lines);
      assert Join("\n\n", lines)[0] == '*';
    }
  }

  // ---------------------------------------------------------------------------
  // parse_timestamp and extract_timestamp

  /**
   * `pd.to_datetime` on one cell: the instant it names, as a count of
   * nanoseconds, or None when it raises or does not give a single timestamp.
   */
  datatype Clock = Clock(toDatetime: Value -> Option<int>)

  /** `parse_timestamp`: blank cells have no timestamp. */
  function ParseTimestamp(clock: Clock, v: Value): Option<int> {
    if IsBlank(v) then None else clock.toDatetime(v)
  }

  /** The columns `extract_timestamp` tries, in order. */
  const TimestampColumns: seq<string> := ["submitted_at", "timestamp", "created_at"]

  /** The timestamp one column of a row gives: none when the column is absent or blank. */
  function StampAt(clock: Clock, row: Row, column: string): Option<int> {
    if column in row && !IsBlank(row[column]) then ParseTimestamp(clock, row[column]) else None
  }

  /** The timestamp of the first of `columns` that gives one. */
  function FirstStamp(clock: Clock, row: Row, columns: seq<string>): Option<int>
    decreases |columns|
  {
    if columns == [] then None
    else
      var t := StampAt(clock, row, columns[0]);
      if t.Some? then t else FirstStamp(clock, row, columns[1..])
  }

  /** The first column that gives a timestamp decides; there is none only when no column gives one. */
  lemma {:induction false} FirstStampFacts(clock: Clock, row: Row, columns: seq<string>)
    ensures var r := FirstStamp(clock, row, columns);
      (r.None? <==> forall k :: 0 <= k < |columns| ==> StampAt(clock, row, columns[k]).None?)
      && (r.Some? ==> exists k :: 0 <= k < |columns| && StampAt(clock, row, columns[k]) == r
                                   && forall j :: 0 <= j < k ==> StampAt(clock, row, columns[j]).None?)
    decreases |columns|
  {
    if columns != [] && StampAt(clock, row, columns[0]).None? {
      var r := FirstStamp(clock, row, columns[1..]);
      FirstStampFacts(clock, row, columns[1..]);
      assert forall k :: 1 <= k < |columns| ==> columns[k] == columns[1..][k - 1];
      if r.Some? {
        var k :| 0 <= k < |columns[1..]| && StampAt(clock, row, columns[1..][k]) == r
          && forall j :: 0 <= j < k ==> StampAt(clock, row, columns[1..][j]).None?;
        assert StampAt(clock, row, columns[k + 1]) == r;
        assert forall j :: 0 <= j < k + 1 ==> StampAt(clock, row, columns[j]).None?;
      }
    }
  }

  /** `extract_timestamp`: no row, no timestamp. */
  function ExtractTimestamp(clock: Clock, row: Option<Row>): (r: Option<int>)
    ensures row.None? ==> r.None?
    ensures row.Some? && StampAt(clock, row.value, "submitted_at").Some? ==> r == StampAt(clock, row.value, "submitted_at")
  {
    if row.None? then None else FirstStamp(clock, row.value, TimestampColumns)
  }

  /** A parsable "submitted_at" wins over the other columns; without any parsable column there is none. */
  lemma ExtractTimestampPrefersSubmitted(clock: Clock, row: Row)
    ensures StampAt(clock, row, "submitted_at").Some? ==>
      ExtractTimestamp(clock, Some(row)) == StampAt(clock, row, "submitted_at")
    ensures ExtractTimestamp(clock, Some(row)).None? <==>
      StampAt(clock, row, "submitted_at").None? && StampAt(clock, row, "timestamp").None?
      && StampAt(clock, row, "created_at").None?
  {
    var cs := TimestampColumns;
    assert cs[0] == "submitted_at" && cs[1] == "timestamp" && cs[2] == "created_at";
    FirstStampFacts(clock, row, cs);
    if StampAt(clock, row, "submitted_at").Some? {
      var r := ExtractTimestamp(clock, Some(row));
      var k :| 0 <= k < |cs| && StampAt(clock, row, cs[k]) == r
        && forall j :: 0 <= j < k ==> StampAt(clock, row, cs[j]).None?;
      assert k == 0;
    }
  }

  // ---------------------------------------------------------------------------
  // The latest biweekly timestamp

  /** The greatest of the timestamps present, if any. */
  function Latest(ts: seq<Option<int>>): Option<int>
    decreases |ts|
  {
    if ts == [] then None
    else
      var prev := Latest(ts[..|ts| - 1]);
      var t := ts[|ts| - 1];
      if t.Some? && (prev.None? || t.value > prev.value) then t else prev
  }

  /** None exactly when no timestamp is present; otherwise one of them, and no smaller than any. */
  lemma {:induction false} LatestIsMaximum(ts: seq<Option<int>>)
    ensures var r := Latest(ts);
      (r.None? <==> forall k :: 0 <= k < |ts| ==> ts[k].None?)
      && (r.Some? ==> r in ts && forall k :: 0 <= k < |ts| && ts[k].Some? ==> ts[k].value <= r.value)
    decreases |ts|
  {
    if ts != [] {
      var init := ts[..|ts| - 1];
      LatestIsMaximum(init);
      var prev := Latest(init);
      assert forall k :: 0 <= k < |ts| - 1 ==> ts[k] == init[k];
      if prev.Some? {
        var k :| 0 <= k < |init| && init[k] == prev;
        assert ts[k] == prev;
      }
    }
  }

  /** The timestamp `extract_timestamp` gives for each row. */
  function Stamps(clock: Clock, rows: seq<Row>): (ts: seq<Option<int>>)
    ensures |ts| == |rows|
    ensures forall k :: 0 <= k < |rows| ==> ts[k] == ExtractTimestamp(clock, Some(rows[k]))
  {
    seq(|rows|, k requires 0 <= k < |rows| => ExtractTimestamp(clock, Some(rows[k])))
  }

  /** The loop of `build_participant_data` that keeps the latest biweekly timestamp. */
  method LatestTimestamp(clock: Clock, rows: seq<Row>) returns (latest: Option<int>)
    ensures latest == Latest(Stamps(clock, rows))
  {
    ghost var ts := Stamps(clock, rows);
    latest := None;
    for i := 0 to |rows|
      invariant latest == Latest(ts[..i])
    {
      assert ts[..i + 1][..i] == ts[..i];
      var t := ExtractTimestamp(clock, Some(rows[i]));
      if t.Some? && (latest.None? || t.value > latest.value) {
        latest := t;
      }
    }
    assert ts[..|rows|] == ts;
  }

  // ---------------------------------------------------------------------------
  // Grouping by participant_uuid

  /** `df.groupby("participant_uuid")`'s keys: the distinct keys of grouped rows, in ascending order. */
  function GroupKeys(py: Builtins, rows: seq<Row>): (keys: seq<string>)
    ensures StrictlySorted(keys)
    decreases |rows|
  {
    if rows == [] then []
    else
      var last := rows[|rows| - 1];
      var keys := GroupKeys(py, rows[..|rows| - 1]);
      if HasUuid(last) then InsertSorted(UuidKey(py, last), keys) else keys
  }

  /** A key is a group key exactly when some grouped row has it. */
  lemma {:induction false} GroupKeysAreRowKeys(py: Builtins, rows: seq<Row>, x: string)
    ensures x in GroupKeys(py, rows) <==> exists i :: 0 <= i < |rows| && HasUuid(rows[i]) && UuidKey(py, rows[i]) == x
    decreases |rows|
  {
    if rows != [] {
      var init := rows[..|rows| - 1];
      GroupKeysAreRowKeys(py, init, x);
      assert forall i :: 0 <= i < |init| ==> init[i] == rows[i];
    }
  }

  /** `df[df["participant_uuid"] == key]`: the rows with that key, in table order. */
  function Matching(py: Builtins, rows: seq<Row>, key: string): (r: seq<Row>)
    ensures |r| <= |rows|
    ensures forall k :: 0 <= k < |r| ==> r[k] in rows && HasUuid(r[k]) && UuidKey(py, r[k]) == key
    decreases |rows|
  {
    if rows == [] then []
    else
      var last := rows[|rows| - 1];
      Matching(py, rows[..|rows| - 1], key) + (if HasUuid(last) && UuidKey(py, last) == key then [last] else [])
  }

  /** A key that some grouped row has matches at least that row. */
  lemma {:induction false} MatchingNonEmpty(py: Builtins, rows: seq<Row>, key: string, i: nat)
    requires i < |rows| && HasUuid(rows[i]) && UuidKey(py, rows[i]) == key
    ensures Matching(py, rows, key) != []
    decreases |rows|
  {
    if i < |rows| - 1 {
      MatchingNonEmpty(py, rows[..|rows| - 1], key, i);
    }
  }

  // ---------------------------------------------------------------------------
  // build_participant_data

  /**
   * The pandas operations `build_participant_data` relies on: `_choose_latest`
   * (sort by the first timestamp column present, take the last row) and
   * `sort_values("submitted_at")`.
   */
  datatype Frames = Frames(chooseLatest: seq<Row> -> Row, sortBySubmitted: seq<Row> -> seq<Row>)

  /** `_choose_latest` returns one of the rows it is given. */
  ghost predicate Picks(fr: Frames) {
    forall rows: seq<Row> :: rows != [] ==> fr.chooseLatest(rows) in rows
  }

  /** Sorting reorders rows, losing and adding none. */
  ghost predicate Reorders(fr: Frames) {
    forall rows: seq<Row> :: multiset(fr.sortBySubmitted(rows)) == multiset(rows)
  }

  datatype ParticipantData = ParticipantData(
    uuid: string,
    consent: Row,
    initial: Option<Row>,
    biweekly: seq<Row>,
    signature: Option<string>,
    consentAt: Option<int>,
    initialAt: Option<int>,
    latestBiweeklyAt: Option<int>)

  /** The rows of a table that match a key, when the table has rows and a participant_uuid column. */
  function MatchesIn(py: Builtins, t: Table, key: string): (r: seq<Row>)
    ensures forall k :: 0 <= k < |r| ==> r[k] in t.rows && UuidKey(py, r[k]) == key
  {
    if t.rows != [] && "participant_uuid" in t.columns then Matching(py, t.rows, key) else []
  }

  /**
   * `str(consent.get("participant_signature", "")).strip() or None`, as written:
   * a consent table is read without `fillna`, so an empty signature cell is NaN,
   * whose text is "nan".
   */
  function SignatureAsWritten(py: Builtins, consent: Row): (r: Option<string>)
    ensures r.None? <==> Strip(PyStr(py, Get(consent, "participant_signature", Str("")))) == ""
    ensures r.Some? ==> r.value != "" && !IsSpace(r.value[0]) && !IsSpace(r.value[|r.value| - 1])
  {
    var sig := Strip(PyStr(py, Get(consent, "participant_signature", Str(""))));
    if sig == "" then None else Some(sig)
  }

  /** An empty signature cell gives the signature "nan". */
  lemma EmptySignatureReadsNan(py: Builtins)
    ensures SignatureAsWritten(py, map["participant_signature" := NaN]) == Some("nan")
  {
    var row: Row := map["participant_signature" := NaN];
    assert Get(row, "participant_signature", Str("")) == NaN;
    StripClean("nan");
  }

  /** The signature, with a missing cell read as no signature. */
  function Signature(py: Builtins, consent: Row): (r: Option<string>)
    ensures IsMissing(Get(consent, "participant_signature", Str(""))) ==> r.None?
    ensures r.Some? ==> r.value != "" && !IsSpace(r.value[0]) && !IsSpace(r.value[|r.value| - 1])
    ensures r != SignatureAsWritten(py, consent) ==> IsMissing(Get(consent, "participant_signature", Str("")))
  {
    var cell := Get(consent, "participant_signature", Str(""));
    if IsMissing(cell) then None else SignatureAsWritten(py, consent)
  }

  /**
   * A signature is stripped text that is not empty; a missing cell gives none, and
   * only a missing cell makes it differ from the code as written.
   */
  lemma SignatureFacts(py: Builtins, consent: Row)
    ensures var r := Signature(py, consent);
      (r.Some? ==> r.value != "" && !IsSpace(r.value[0]) && !IsSpace(r.value[|r.value| - 1]))
      && ("participant_signature" !in consent || IsMissing(consent["participant_signature"]) ==> r.None?)
      && (r != SignatureAsWritten(py, consent) ==> IsMissing(Get(consent, "participant_signature", Str(""))))
  {
  }

  /** `_choose_latest` of the consent rows of a group. */
  function LatestConsent(py: Builtins, fr: Frames, consent: Table, key: string): Row {
    fr.chooseLatest(Matching(py, consent.rows, key))
  }

  /** `_choose_latest` of the initial rows with the key, if there are any. */
  function InitialRecord(py: Builtins, fr: Frames, initial: Table, key: string): Option<Row> {
    var matches := MatchesIn(py, initial, key);
    if matches == [] then None else Some(fr.chooseLatest(matches))
  }

  /** The biweekly rows with the key, sorted by submission time when the table has that column. */
  function BiweeklyRows(py: Builtins, fr: Frames, biweekly: Table, key: string): seq<Row> {
    var matches := MatchesIn(py, biweekly, key);
    if matches != [] && "submitted_at" in biweekly.columns then fr.sortBySubmitted(matches) else matches
  }

  /** The participant of a group whose key does not strip to ''. */
  function GroupParticipant(py: Builtins, clock: Clock, fr: Frames, consent: Table, initial: Table, biweekly: Table,
                            key: string): (p: ParticipantData)
    ensures p.uuid == Strip(key)
    ensures p.signature == Signature(py, p.consent)
    ensures p.consentAt == ExtractTimestamp(clock, Some(p.consent)) && p.initialAt == ExtractTimestamp(clock, p.initial)
    ensures p.latestBiweeklyAt == Latest(Stamps(clock, p.biweekly))
  {
    var c := LatestConsent(py, fr, consent, key);
    var initialRecord := InitialRecord(py, fr, initial, key);
    var rows := BiweeklyRows(py, fr, biweekly, key);
    ParticipantData(Strip(key), c, initialRecord, rows, Signature(py, c),
      ExtractTimestamp(clock, Some(c)), ExtractTimestamp(clock, initialRecord), Latest(Stamps(clock, rows)))
  }

  /** The participant one group key gives, or None when the key strips to ''. */
  function ParticipantFor(py: Builtins, clock: Clock, fr: Frames, consent: Table, initial: Table, biweekly: Table, key: string)
    : Option<ParticipantData>
  {
    if Strip(key) == "" then None else Some(GroupParticipant(py, clock, fr, consent, initial, biweekly, key))
  }

  /** What each key of a list gives. */
  function Candidates(py: Builtins, clock: Clock, fr: Frames, consent: Table, initial: Table, biweekly: Table,
                      keys: seq<string>): (cs: seq<Option<ParticipantData>>)
    ensures |cs| == |keys|
    ensures forall k {:trigger cs[k]} :: 0 <= k < |keys| ==> cs[k] == ParticipantFor(py, clock, fr, consent, initial, biweekly, keys[k])
  {
    seq(|keys|, k requires 0 <= k < |keys| => ParticipantFor(py, clock, fr, consent, initial, biweekly, keys[k]))
  }

  /** The values present in a list of options, in order. */
  function Somes<T>(xs: seq<Option<T>>): (r: seq<T>)
    ensures |r| <= |xs|
    decreases |xs|
  {
    if xs == [] then []
    else
      var last := xs[|xs| - 1];
      Somes(xs[..|xs| - 1]) + (if last.Some? then [last.value] else [])
  }

  /** Each value present is kept, and nothing else is. */
  lemma {:induction false} SomesFacts<T>(xs: seq<Option<T>>)
    ensures forall j :: 0 <= j < |Somes(xs)| ==> exists k :: 0 <= k < |xs| && xs[k] == Some(Somes(xs)[j])
    ensures forall k :: 0 <= k < |xs| && xs[k].Some? ==> exists j :: 0 <= j < |Somes(xs)| && xs[k] == Some(Somes(xs)[j])
    decreases |xs|
  {
    if xs != [] {
      var init := xs[..|xs| - 1];
      SomesFacts(init);
      var prev := Somes(init);
      var r := Somes(xs);
      var last := xs[|xs| - 1];
      assert r == prev + (if last.Some? then [last.value] else []);
      forall j | 0 <= j < |Somes(xs)|
        ensures exists k :: 0 <= k < |xs| && xs[k] == Some(Somes(xs)[j])
      {
        if j < |prev| {
          var k :| 0 <= k < |init| && init[k] == Some(prev[j]);
          assert r[j] == prev[j];
          assert xs[k] == Some(r[j]);
          assert Somes(xs)[j] == r[j];
        } else {
          assert j == |prev| && last.Some? && r[j] == last.value;
          assert xs[|xs| - 1] == Some(r[j]);
        }
      }
      assert r == Somes(xs);
      forall k | 0 <= k < |xs| && xs[k].Some?
        ensures exists j :: 0 <= j < |r| && xs[k] == Some(r[j])
      {
        if k < |init| {
          assert init[k] == xs[k];
          var j :| 0 <= j < |prev| && init[k] == Some(prev[j]);
          assert r[j] == prev[j];
        } else {
          assert r[|prev|] == xs[k].value;
        }
      }
      assert forall j :: 0 <= j < |Somes(xs)| ==> exists k :: 0 <= k < |xs| && xs[k] == Some(Somes(xs)[j]);
    } else {
      assert |Somes(xs)| == 0;
    }
  }

  /** A value present in a list of options is among the values `Somes` keeps. */
  lemma SomeIsKept<T>(xs: seq<Option<T>>, k: int)
    requires 0 <= k < |xs| && xs[k].Some?
    ensures exists j :: 0 <= j < |Somes(xs)| && Somes(xs)[j] == xs[k].value
  {
    SomesFacts(xs);
  }


  /** What `build_participant_data` returns: nothing without a participant_uuid column. */
  function Participants(py: Builtins, clock: Clock, fr: Frames, consent: Table, initial: Table, biweekly: Table)
    : seq<ParticipantData>
  {
    if "participant_uuid" !in consent.columns then []
    else Somes(Candidates(py, clock, fr, consent, initial, biweekly, GroupKeys(py, consent.rows)))
  }

  /** One pass of the loop of `build_participant_data`. */
  method BuildParticipant(py: Builtins, clock: Clock, fr: Frames, consent: Table, initial: Table, biweekly: Table, key: string)
    returns (p: Option<ParticipantData>)
    ensures p == ParticipantFor(py, clock, fr, consent, initial, biweekly, key)
  {
    var uuid := Strip(key);
    if uuid == "" {
      return None;
    }
    var c := fr.chooseLatest(Matching(py, consent.rows, key));
    var consentAt := ExtractTimestamp(clock, Some(c));
    var initialRecord, initialAt := FindInitial(py, clock, fr, initial, key);
    var rows, latest := FindBiweekly(py, clock, fr, biweekly, key);
    return Some(ParticipantData(uuid, c, initialRecord, rows, Signature(py, c), consentAt, initialAt, latest));
  }

  /** The initial-survey part of a pass: the latest initial row with the key, and its time. */
  method FindInitial(py: Builtins, clock: Clock, fr: Frames, initial: Table, key: string)
    returns (initialRecord: Option<Row>, initialAt: Option<int>)
    ensures initialRecord == InitialRecord(py, fr, initial, key)
    ensures initialAt == ExtractTimestamp(clock, initialRecord)
  {
    initialRecord := None;
    initialAt := None;
    if initial.rows != [] && "participant_uuid" in initial.columns {
      var initialMatches := Matching(py, initial.rows, key);
      if initialMatches != [] {
        initialRecord := Some(fr.chooseLatest(initialMatches));
        initialAt := ExtractTimestamp(clock, initialRecord);
      }
    }
  }

  /** The biweekly part of a pass: the rows with the key, sorted when they can be, and the latest of their times. */
  method FindBiweekly(py: Builtins, clock: Clock, fr: Frames, biweekly: Table, key: string)
    returns (rows: seq<Row>, latest: Option<int>)
    ensures rows == BiweeklyRows(py, fr, biweekly, key)
    ensures latest == Latest(Stamps(clock, rows))
  {
    rows := [];
    latest := None;
    if biweekly.rows != [] && "participant_uuid" in biweekly.columns {
      var matches := Matching(py, biweekly.rows, key);
      if matches != [] {
        if "submitted_at" in biweekly.columns {
          matches := fr.sortBySubmitted(matches);
        }
        rows := matches;
        latest := LatestTimestamp(clock, rows);
      }
    }
  }

  /** A key that does not strip to '' gives a participant whose uuid is the stripped key. */
  lemma ParticipantForUuid(py: Builtins, clock: Clock, fr: Frames, consent: Table, initial: Table, biweekly: Table,
                           key: string)
    ensures var p := ParticipantFor(py, clock, fr, consent, initial, biweekly, key);
      (p.Some? <==> Strip(key) != "") && (p.Some? ==> p.value.uuid == Strip(key))
  {
  }

  /** The loop of `build_participant_data` over the group keys. */
  method BuildForKeys(py: Builtins, clock: Clock, fr: Frames, consent: Table, initial: Table, biweekly: Table,
                      keys: seq<string>)
    returns (participants: seq<ParticipantData>)
    ensures participants == Somes(Candidates(py, clock, fr, consent, initial, biweekly, keys))
  {
    participants := [];
    ghost var cs := Candidates(py, clock, fr, consent, initial, biweekly, keys);
    for i := 0 to |keys|
      invariant participants == Somes(cs[..i])
    {
      assert cs[..i + 1][..i] == cs[..i];
      var p := BuildParticipant(py, clock, fr, consent, initial, biweekly, keys[i]);
      if p.Some? {
        participants := participants + [p.value];
      }
    }
    assert cs[..|keys|] == cs;
  }

  /** `build_participant_data`: one participant per group whose key does not strip to ''. */
  method BuildParticipantData(py: Builtins, clock: Clock, fr: Frames, consent: Table, initial: Table, biweekly: Table)
    returns (participants: seq<ParticipantData>)
    ensures participants == Participants(py, clock, fr, consent, initial, biweekly)
  {
    if "participant_uuid" !in consent.columns {
      return [];
    }
    var keys := GroupKeys(py, consent.rows);
    participants := BuildForKeys(py, clock, fr, consent, initial, biweekly, keys);
  }

  /** The consent row of a group is one of the consent rows with its key. */
  lemma LatestConsentFacts(py: Builtins, fr: Frames, consent: Table, key: string)
    requires Picks(fr)
    requires exists i :: 0 <= i < |consent.rows| && HasUuid(consent.rows[i]) && UuidKey(py, consent.rows[i]) == key
    ensures LatestConsent(py, fr, consent, key) in consent.rows
    ensures UuidKey(py, LatestConsent(py, fr, consent, key)) == key
  {
    var i :| 0 <= i < |consent.rows| && HasUuid(consent.rows[i]) && UuidKey(py, consent.rows[i]) == key;
    MatchingNonEmpty(py, consent.rows, key, i);
    var group := Matching(py, consent.rows, key);
    var j :| 0 <= j < |group| && group[j] == LatestConsent(py, fr, consent, key);
  }

  /** There is an initial record exactly when some initial row has the key, and it is one of them. */
  lemma InitialRecordFacts(py: Builtins, fr: Frames, initial: Table, key: string)
    requires Picks(fr)
    ensures var r := InitialRecord(py, fr, initial, key);
      (r.None? <==> MatchesIn(py, initial, key) == [])
      && (r.Some? ==> r.value in initial.rows && UuidKey(py, r.value) == key)
  {
    var matches := MatchesIn(py, initial, key);
    if matches != [] {
      var j :| 0 <= j < |matches| && matches[j] == fr.chooseLatest(matches);
    }
  }

  /** The biweekly rows of a participant are the biweekly rows with its key, reordered. */
  lemma BiweeklyRowsFacts(py: Builtins, fr: Frames, biweekly: Table, key: string)
    requires Reorders(fr)
    ensures multiset(BiweeklyRows(py, fr, biweekly, key)) == multiset(MatchesIn(py, biweekly, key))
  {
  }

  /**
   * The participant of a group key: none exactly when the key strips to ''; otherwise
   * the uuid is the stripped key, the consent and initial rows are rows of their
   * tables with that key, and the biweekly rows are exactly the biweekly table's
   * rows with that key, reordered.
   */
  lemma ParticipantForFacts(py: Builtins, clock: Clock, fr: Frames, consent: Table, initial: Table, biweekly: Table,
                            key: string)
    requires Picks(fr) && Reorders(fr)
    requires exists i :: 0 <= i < |consent.rows| && HasUuid(consent.rows[i]) && UuidKey(py, consent.rows[i]) == key
    ensures var p := ParticipantFor(py, clock, fr, consent, initial, biweekly, key);
      (p.Some? <==> Strip(key) != "")
      && (p.Some? ==>
        p.value.uuid == Strip(key)
        && p.value.consent in consent.rows && UuidKey(py, p.value.consent) == key
        && (p.value.initial.None? <==> MatchesIn(py, initial, key) == [])
        && (p.value.initial.Some? ==> p.value.initial.value in initial.rows && UuidKey(py, p.value.initial.value) == key)
        && multiset(p.value.biweekly) == multiset(MatchesIn(py, biweekly, key)))
  {
    LatestConsentFacts(py, fr, consent, key);
    InitialRecordFacts(py, fr, initial, key);
    BiweeklyRowsFacts(py, fr, biweekly, key);
  }

  /**
   * Every participant `build_participant_data` yields has a non-empty uuid, and
   * its consent row is a consent row whose participant_uuid strips to that uuid.
   */
  lemma ParticipantsFromConsentRows(py: Builtins, clock: Clock, fr: Frames, consent: Table, initial: Table,
                                    biweekly: Table)
    requires Picks(fr) && Reorders(fr)
    ensures var ps := Participants(py, clock, fr, consent, initial, biweekly);
      forall j :: 0 <= j < |ps| ==>
        ps[j].uuid != "" && ps[j].consent in consent.rows && Strip(UuidKey(py, ps[j].consent)) == ps[j].uuid
  {
    var ps := Participants(py, clock, fr, consent, initial, biweekly);
    if "participant_uuid" in consent.columns {
      var keys := GroupKeys(py, consent.rows);
      var cs := Candidates(py, clock, fr, consent, initial, biweekly, keys);
      SomesFacts(cs);
      forall j | 0 <= j < |ps|
        ensures ps[j].uuid != "" && ps[j].consent in consent.rows && Strip(UuidKey(py, ps[j].consent)) == ps[j].uuid
      {
        var k :| 0 <= k < |cs| && cs[k] == Some(ps[j]);
        assert keys[k] in keys;
        GroupKeysAreRowKeys(py, consent.rows, keys[k]);
        ParticipantForFacts(py, clock, fr, consent, initial, biweekly, keys[k]);
      }
    }
  }

  /** Every consent row whose participant_uuid is present and strips to non-empty text gives a participant. */
  lemma {:induction false} ConsentRowsGiveParticipants(py: Builtins, clock: Clock, fr: Frames, consent: Table, initial: Table,
                                                       biweekly: Table, i: nat)
    requires "participant_uuid" in consent.columns
    requires i < |consent.rows| && HasUuid(consent.rows[i]) && Strip(UuidKey(py, consent.rows[i])) != ""
    ensures var ps := Participants(py, clock, fr, consent, initial, biweekly);
      exists j :: 0 <= j < |ps| && ps[j].uuid == Strip(UuidKey(py, consent.rows[i]))
  {
    var keys := GroupKeys(py, consent.rows);
    var cs := Candidates(py, clock, fr, consent, initial, biweekly, keys);
    var key := UuidKey(py, consent.rows[i]);
    GroupKeysAreRowKeys(py, consent.rows, key);
    var k :| 0 <= k < |keys| && keys[k] == key;
    ParticipantForUuid(py, clock, fr, consent, initial, biweekly, key);
    assert cs[k].Some? && cs[k].value.uuid == Strip(key);
    SomeIsKept(cs, k);
    assert Participants(py, clock, fr, consent, initial, biweekly) == Somes(cs);
  }

  // ---------------------------------------------------------------------------
  // The index page: testers and participants, each sorted by consent time

  /** An entry of the index: its sort key (the consent time), the participant's uuid and its report file. */
  datatype IndexEntry = IndexEntry(sortKey: Option<int>, uuid: string, filename: string)

  /** `safe_filename(participant.participant_uuid or "participant") + ".html"` */
  function ReportFilename(uuid: string): (f: string)
    ensures EndsWith(f, ".html")
    ensures |f| == (if uuid == "" then |"participant"| else |uuid|) + 5
    ensures forall i :: 0 <= i < |f| - 5 ==> FilenameChar(f[i])
  {
    var name := SafeFilename(if uuid == "" then "participant" else uuid);
    var f := name + ".html";
    assert f[|name|..] == ".html";
    f
  }

  function EntryOf(p: ParticipantData): IndexEntry {
    IndexEntry(p.consentAt, p.uuid, ReportFilename(p.uuid))
  }

  /** A participant whose signature, stripped and upper-cased, reads "TESTER". */
  predicate IsTester(p: ParticipantData) {
    var sig := Strip(if p.signature.Some? then p.signature.value else "");
    |sig| == 6 && Upper(sig) == "TESTER"
  }

  /** The entries of the testers, in the participants' order. */
  function TesterEntries(ps: seq<ParticipantData>): (r: seq<IndexEntry>)
    ensures |r| <= |ps|
    decreases |ps|
  {
    if ps == [] then []
    else
      var last := ps[|ps| - 1];
      TesterEntries(ps[..|ps| - 1]) + (if IsTester(last) then [EntryOf(last)] else [])
  }

  /** The entries of everyone else (signatures starting "P4H" included), in the participants' order. */
  function ParticipantEntries(ps: seq<ParticipantData>): (r: seq<IndexEntry>)
    ensures |r| <= |ps|
    decreases |ps|
  {
    if ps == [] then []
    else
      var last := ps[|ps| - 1];
      ParticipantEntries(ps[..|ps| - 1]) + (if IsTester(last) then [] else [EntryOf(last)])
  }

  /** The entry of every participant, in order. */
  function Entries(ps: seq<ParticipantData>): (r: seq<IndexEntry>)
    ensures |r| == |ps|
    decreases |ps|
  {
    if ps == [] then [] else Entries(ps[..|ps| - 1]) + [EntryOf(ps[|ps| - 1])]
  }

  /** Every participant's entry lands in exactly one of the two lists. */
  lemma {:induction false} EntriesPartition(ps: seq<ParticipantData>)
    ensures multiset(TesterEntries(ps)) + multiset(ParticipantEntries(ps)) == multiset(Entries(ps))
    ensures |TesterEntries(ps)| + |ParticipantEntries(ps)| == |ps|
    decreases |ps|
  {
    if ps != [] {
      var init := ps[..|ps| - 1];
      var last := ps[|ps| - 1];
      EntriesPartition(init);
      var t := if IsTester(last) then [EntryOf(last)] else [];
      var o := if IsTester(last) then [] else [EntryOf(last)];
      assert TesterEntries(ps) == TesterEntries(init) + t;
      assert ParticipantEntries(ps) == ParticipantEntries(init) + o;
      assert Entries(ps) == Entries(init) + [EntryOf(last)];
      assert multiset(t) + multiset(o) == multiset([EntryOf(last)]);
    }
  }

  /** `a < b` on sort keys, where a missing consent time stands for `Timestamp.max`. */
  predicate KeyBefore(a: Option<int>, b: Option<int>) {
    a.Some? && (b.None? || a.value < b.value)
  }

  predicate SortedByKey(es: seq<IndexEntry>) {
    forall i, j :: 0 <= i < j < |es| ==> !KeyBefore(es[j].sortKey, es[i].sortKey)
  }

  /** An entry placed after every entry whose key is not greater. */
  function InsertEntry(e: IndexEntry, es: seq<IndexEntry>): (r: seq<IndexEntry>)
    ensures multiset(r) == multiset(es) + multiset{e}
    decreases |es|
  {
    if es == [] then [e]
    else if KeyBefore(e.sortKey, es[0].sortKey) then [e] + es
    else
      assert es == [es[0]] + es[1..];
      [es[0]] + InsertEntry(e, es[1..])
  }

  /** `entries.sort(key=lambda item: item[0])`: a stable sort on the key. */
  function SortByKey(es: seq<IndexEntry>): (r: seq<IndexEntry>)
    ensures multiset(r) == multiset(es)
    decreases |es|
  {
    if es == [] then []
    else
      assert es == es[..|es| - 1] + [es[|es| - 1]];
      InsertEntry(es[|es| - 1], SortByKey(es[..|es| - 1]))
  }

  /** Inserting into a sorted list keeps it sorted. */
  lemma {:induction false} InsertEntrySorted(e: IndexEntry, es: seq<IndexEntry>)
    requires SortedByKey(es)
    ensures SortedByKey(InsertEntry(e, es))
    decreases |es|
  {
    if es != [] && !KeyBefore(e.sortKey, es[0].sortKey) {
      InsertEntrySorted(e, es[1..]);
      var rest := InsertEntry(e, es[1..]);
      forall j | 0 <= j < |rest|
        ensures !KeyBefore(rest[j].sortKey, es[0].sortKey)
      {
        assert rest[j] in multiset(rest);
        if rest[j] != e {
          assert rest[j] in es[1..];
          var i :| 0 <= i < |es[1..]| && es[1..][i] == rest[j];
          assert es[i + 1] == rest[j];
        }
      }
    }
  }

  /** The sorted list is sorted. */
  lemma {:induction false} SortByKeySorted(es: seq<IndexEntry>)
    ensures SortedByKey(SortByKey(es))
    decreases |es|
  {
    if es != [] {
      SortByKeySorted(es[..|es| - 1]);
      InsertEntrySorted(es[|es| - 1], SortByKey(es[..|es| - 1]));
    }
  }

  /** The entries with a given key, in order. */
  function WithKey(es: seq<IndexEntry>, key: Option<int>): (r: seq<IndexEntry>)
    ensures forall i :: 0 <= i < |r| ==> r[i].sortKey == key
    decreases |es|
  {
    if es == [] then []
    else (if es[0].sortKey == key then [es[0]] else []) + WithKey(es[1..], key)
  }

  lemma {:induction false} WithKeyAppend(a: seq<IndexEntry>, b: seq<IndexEntry>, key: Option<int>)
    ensures WithKey(a + b, key) == WithKey(a, key) + WithKey(b, key)
    decreases |a|
  {
    if a == [] {
      assert a + b == b;
    } else {
      assert (a + b)[1..] == a[1..] + b;
      WithKeyAppend(a[1..], b, key);
    }
  }

  lemma {:induction false} WithKeyNone(es: seq<IndexEntry>, key: Option<int>)
    requires forall i :: 0 <= i < |es| ==> es[i].sortKey != key
    ensures WithKey(es, key) == []
    decreases |es|
  {
    if es != [] {
      WithKeyNone(es[1..], key);
    }
  }

  /** Inserting into a sorted list puts the entry after every entry with the same key. */
  lemma {:induction false} InsertEntryWithKey(e: IndexEntry, es: seq<IndexEntry>, key: Option<int>)
    requires SortedByKey(es)
    ensures WithKey(InsertEntry(e, es), key) == WithKey(es, key) + (if e.sortKey == key then [e] else [])
    decreases |es|
  {
    var own := if e.sortKey == key then [e] else [];
    if es == [] {
      assert InsertEntry(e, es) == [e];
      return;
    }
    if KeyBefore(e.sortKey, es[0].sortKey) {
      InsertFrontWithKey(e, es, key);
      return;
    }
    var rest := InsertEntry(e, es[1..]);
    var r := [es[0]] + rest;
    assert InsertEntry(e, es) == r;
    assert r[1..] == rest;
    assert SortedByKey(es[1..]);
    InsertEntryWithKey(e, es[1..], key);
    var head := if es[0].sortKey == key then [es[0]] else [];
    assert WithKey(r, key) == head + (WithKey(es[1..], key) + own);
    assert WithKey(es, key) == head + WithKey(es[1..], key);
    AppendAssociative(head, WithKey(es[1..], key), own);
  }

  /** An entry that goes before the whole sorted list has a key no entry of the list has. */
  lemma InsertFrontWithKey(e: IndexEntry, es: seq<IndexEntry>, key: Option<int>)
    requires SortedByKey(es) && es != [] && KeyBefore(e.sortKey, es[0].sortKey)
    ensures WithKey([e] + es, key) == WithKey(es, key) + (if e.sortKey == key then [e] else [])
  {
    var r := [e] + es;
    assert r[1..] == es;
    if e.sortKey == key {
      forall i | 0 <= i < |es|
        ensures es[i].sortKey != key
      {
        if i > 0 {
          assert !KeyBefore(es[i].sortKey, es[0].sortKey);
        }
      }
      WithKeyNone(es, key);
    }
  }

  /** The entries with a key, of a list, are those of all but its last entry, then the last if it has the key. */
  lemma WithKeyLast(es: seq<IndexEntry>, key: Option<int>)
    requires es != []
    ensures WithKey(es, key) == WithKey(es[..|es| - 1], key) + (if es[|es| - 1].sortKey == key then [es[|es| - 1]] else [])
  {
    var last := es[|es| - 1];
    assert es == es[..|es| - 1] + [last];
    WithKeyAppend(es[..|es| - 1], [last], key);
    assert [last][1..] == [];
  }

  /** The sort is stable: entries with equal keys keep their relative order. */
  lemma {:induction false} SortByKeyStable(es: seq<IndexEntry>, key: Option<int>)
    ensures WithKey(SortByKey(es), key) == WithKey(es, key)
    decreases |es|
  {
    if es != [] {
      var init := es[..|es| - 1];
      var last := es[|es| - 1];
      SortByKeyStable(init, key);
      SortByKeySorted(init);
      InsertEntryWithKey(last, SortByKey(init), key);
      WithKeyLast(es, key);
    }
  }

  /**
   * The grouping loop of `generate_reports` followed by the two sorts: the testers'
   * entries and everyone else's, each sorted by consent time.
   */
  method IndexSections(ps: seq<ParticipantData>) returns (testers: seq<IndexEntry>, others: seq<IndexEntry>)
    ensures testers == SortByKey(TesterEntries(ps))
    ensures others == SortByKey(ParticipantEntries(ps))
  {
    testers := [];
    others := [];
    for i := 0 to |ps|
      invariant testers == TesterEntries(ps[..i])
      invariant others == ParticipantEntries(ps[..i])
    {
      assert ps[..i + 1][..i] == ps[..i];
      var p := ps[i];
      var entry := IndexEntry(p.consentAt, p.uuid, ReportFilename(p.uuid));
      var sig := Strip(if p.signature.Some? then p.signature.value else "");
      if |sig| == 6 && Upper(sig) == "TESTER" {
        testers := testers + [entry];
      } else {
        others := others + [entry];
      }
    }
    assert ps[..|ps|] == ps;
    testers := SortByKey(testers);
    others := SortByKey(others);
  }
}
