/**
 * The S3 buffer downloader: payloads the proxy parked in a bucket are listed,
 * fetched, tagged with a survey type taken from their key, de-duplicated by the
 * SHA-256 of the payload and written as a CSV shaped like a Qualtrics export.
 * The S3 client and the hash are parameters: the listing is a sequence of keys,
 * a fetch is a partial function of the key.
 */
module BufferedSurveys {
  import opened Text
  import opened Common
  import Ciphers
  import SurveyDecrypt

  // ---------------------------------------------------------------------------
  // Survey type from the object key (infer_survey_type)

  /** The non-empty segments of a split, in order. */
  function NonEmptySegments(parts: seq<string>): (r: seq<string>)
    ensures |r| <= |parts|
    ensures forall k :: 0 <= k < |r| ==> r[k] != ""
    decreases |parts|
  {
    if parts == [] then []
    else (if parts[0] != "" then [parts[0]] else []) + NonEmptySegments(parts[1..])
  }

  /** The key with the prefix removed when the key starts with it. */
  function TrimPrefix(key: string, prefix: string): (r: string)
    ensures StartsWith(key, prefix) ==> key == prefix + r
    ensures !StartsWith(key, prefix) ==> r == key
  {
    if StartsWith(key, prefix) then key[|prefix|..] else key
  }

  /**
   * `infer_survey_type`: the first non-empty '/'-separated segment of the key
   * after the prefix, lower-cased, or "unknown" when there is none.
   */
  function InferSurveyType(key: string, prefix: string): (t: string)
    ensures '/' !in t
    ensures forall i :: 0 <= i < |t| ==> !('A' <= t[i] <= 'Z')
    ensures t != ""
  {
    var parts := NonEmptySegments(Split(TrimPrefix(key, prefix), '/'));
    if parts == [] then "unknown"
    else
      var segment := parts[0];
      FirstSegmentHasNoSlash(TrimPrefix(key, prefix));
      var t := Lower(segment);
      forall i | 0 <= i < |t| ensures t[i] != '/' && !('A' <= t[i] <= 'Z') {
        assert segment[i] in segment;
      }
      t
  }

  /** The first non-empty part of a path split at '/' holds no '/'. */
  lemma FirstSegmentHasNoSlash(s: string)
    ensures NonEmptySegments(Split(s, '/')) != [] ==> '/' !in NonEmptySegments(Split(s, '/'))[0]
  {
    NonEmptySegmentsFromSplit(Split(s, '/'));
  }

  lemma {:induction false} NonEmptySegmentsFromSplit(parts: seq<string>)
    requires forall k :: 0 <= k < |parts| ==> '/' !in parts[k]
    ensures forall k :: 0 <= k < |NonEmptySegments(parts)| ==> '/' !in NonEmptySegments(parts)[k]
    decreases |parts|
  {
    if parts != [] {
      NonEmptySegmentsFromSplit(parts[1..]);
    }
  }

  /** The characters of s up to the first '/'. */
  function SegmentAt(s: string): (r: string)
    ensures '/' !in r && StartsWith(s, r)
    decreases |s|
  {
    if s == [] || s[0] == '/' then "" else [s[0]] + SegmentAt(s[1..])
  }

  /** A reference reading of the first path segment: skip leading slashes, read to the next one. */
  function FirstSegment(s: string): string
    decreases |s|
  {
    if s == [] then ""
    else if s[0] == '/' then FirstSegment(s[1..])
    else SegmentAt(s)
  }

  lemma {:induction false} SplitHeadIsSegment(s: string)
    ensures Split(s, '/')[0] == SegmentAt(s)
    decreases |s|
  {
    if s != [] && s[0] != '/' {
      SplitHeadIsSegment(s[1..]);
    }
  }

  lemma {:induction false} NonEmptySegmentsAppend(a: seq<string>, b: seq<string>)
    ensures NonEmptySegments(a + b) == NonEmptySegments(a) + NonEmptySegments(b)
    decreases |a|
  {
    if a == [] {
      assert a + b == b;
    } else {
      assert (a + b)[1..] == a[1..] + b;
      NonEmptySegmentsAppend(a[1..], b);
    }
  }

  /** The first non-empty segment of a split is the first path segment, and there is none iff the path has none. */
  lemma {:induction false} FirstNonEmptySegment(s: string)
    ensures NonEmptySegments(Split(s, '/')) == [] <==> FirstSegment(s) == ""
    ensures NonEmptySegments(Split(s, '/')) != [] ==> NonEmptySegments(Split(s, '/'))[0] == FirstSegment(s)
    decreases |s|
  {
    var parts := Split(s, '/');
    if s == [] {
    } else if s[0] == '/' {
      assert parts == [""] + Split(s[1..], '/');
      NonEmptySegmentsAppend([""], Split(s[1..], '/'));
      FirstNonEmptySegment(s[1..]);
    } else {
      SplitHeadIsSegment(s);
      assert parts[0] != "" by { assert parts[0] == [s[0]] + Split(s[1..], '/')[0]; }
      assert parts == [parts[0]] + parts[1..];
      NonEmptySegmentsAppend([parts[0]], parts[1..]);
    }
  }

  /** The survey type is the lower-cased first path segment after the prefix, or "unknown". */
  lemma InferSurveyTypeIsFirstSegment(key: string, prefix: string)
    ensures InferSurveyType(key, prefix) ==
      (if FirstSegment(TrimPrefix(key, prefix)) == "" then "unknown" else Lower(FirstSegment(TrimPrefix(key, prefix))))
  {
    FirstNonEmptySegment(TrimPrefix(key, prefix));
  }

  // ---------------------------------------------------------------------------
  // The buffered payload and its CSV row

  /** What a successful `get_object` and UTF-8 decode return for one key. */
  datatype Fetched = Fetched(payload: string, lastModified: Option<string>, etag: Option<string>)

  /** `BufferedPayload`; the timestamp is kept in its ISO form. */
  datatype BufferedPayload = BufferedPayload(
    bucket: string, key: string, surveyType: string, payload: string,
    lastModified: Option<string>, etag: Option<string>)

  /** `download_payload` after the S3 call: a failed fetch or decode gives None. */
  function DownloadPayload(bucket: string, key: string, prefix: string, fetched: Option<Fetched>): (r: Option<BufferedPayload>)
    ensures r.Some? <==> fetched.Some?
    ensures r.Some? ==>
      r.value.key == key && r.value.bucket == bucket
      && r.value.surveyType == InferSurveyType(key, prefix) && r.value.payload == fetched.value.payload
      && r.value.lastModified == fetched.value.lastModified && r.value.etag == fetched.value.etag
  {
    match fetched
    case None => None
    case Some(f) => Some(BufferedPayload(bucket, key, InferSurveyType(key, prefix), f.payload, f.lastModified, f.etag))
  }

  /** `encrypted_hash`: the SHA-256 hex digest of the payload's UTF-8 bytes. */
  function EncryptedHash(py: Builtins, p: BufferedPayload): string {
    py.sha256Hex(p.payload)
  }

  /** `response_id`: the same payload always gets the same id, whatever its key. */
  function ResponseId(py: Builtins, p: BufferedPayload): (id: string)
    ensures StartsWith(id, "s3::") && id[4..] == EncryptedHash(py, p)
  {
    "s3::" + EncryptedHash(py, p)
  }

  /** Outside s[i..j] there are only copies of `ch`. */
  predicate OnlyAround(s: string, ch: char, i: nat, j: nat)
    requires i <= j <= |s|
  {
    (forall k :: 0 <= k < i ==> s[k] == ch) && (forall k :: j <= k < |s| ==> s[k] == ch)
  }

  /** The number of leading copies of `ch` in s[lo..]. */
  function LeadingFrom(s: string, ch: char, lo: nat): (i: nat)
    requires lo <= |s|
    ensures lo <= i <= |s|
    ensures forall k :: lo <= k < i ==> s[k] == ch
    ensures i < |s| ==> s[i] != ch
    decreases |s| - lo
  {
    if lo < |s| && s[lo] == ch then LeadingFrom(s, ch, lo + 1) else lo
  }

  /** Where the trailing copies of `ch` in s[lo..hi] begin. */
  function TrailingFrom(s: string, ch: char, lo: nat, hi: nat): (j: nat)
    requires lo <= hi <= |s|
    ensures lo <= j <= hi
    ensures forall k :: j <= k < hi ==> s[k] == ch
    ensures j > lo ==> s[j - 1] != ch
    decreases hi - lo
  {
    if hi > lo && s[hi - 1] == ch then TrailingFrom(s, ch, lo, hi - 1) else hi
  }

  /** `str.strip(ch)` on one character: every leading and trailing copy removed. */
  function StripChar(s: string, ch: char): (r: string)
    ensures r == "" || (r[0] != ch && r[|r| - 1] != ch)
    ensures exists i, j :: 0 <= i <= j <= |s| && r == s[i..j] && OnlyAround(s, ch, i, j)
    ensures (s == "" || (s[0] != ch && s[|s| - 1] != ch)) ==> r == s
  {
    var i := LeadingFrom(s, ch, 0);
    var j := TrailingFrom(s, ch, i, |s|);
    assert OnlyAround(s, ch, i, j);
    s[i..j]
  }

  const ResponseIdColumn: string := "ResponseId"
  const BucketColumn: string := "buffer_bucket"
  const EtagColumn: string := "buffer_etag"
  const KeyColumn: string := "buffer_key"
  const LastModifiedColumn: string := "buffer_last_modified"
  const SourceColumn: string := "buffer_source"
  const DataColumn: string := "encrypted_data"
  const HashColumn: string := "encrypted_data_hash"
  const TypeColumn: string := "survey_type"

  /** The nine CSV columns, in sorted order. */
  const SortedColumns: seq<string> := [
    ResponseIdColumn, BucketColumn, EtagColumn, KeyColumn, LastModifiedColumn,
    SourceColumn, DataColumn, HashColumn, TypeColumn]

  /** The keys of every row. */
  const ColumnSet: set<string> := {
    ResponseIdColumn, TypeColumn, DataColumn, HashColumn, SourceColumn,
    BucketColumn, KeyColumn, LastModifiedColumn, EtagColumn}

  /** The header written when there are no records: the same columns, unsorted. */
  const FallbackColumns: seq<string> := [
    ResponseIdColumn, TypeColumn, DataColumn, HashColumn, SourceColumn,
    BucketColumn, KeyColumn, LastModifiedColumn, EtagColumn]

  /** `to_row` */
  function ToRow(py: Builtins, p: BufferedPayload): (row: map<string, string>)
    ensures row.Keys == ColumnSet
    ensures row[ResponseIdColumn] == ResponseId(py, p) && row[HashColumn] == EncryptedHash(py, p)
    ensures row[TypeColumn] == p.surveyType && row[DataColumn] == p.payload
    ensures row[SourceColumn] == "s3" && row[BucketColumn] == p.bucket && row[KeyColumn] == p.key
    ensures row[LastModifiedColumn] == (if p.lastModified.Some? then p.lastModified.value else "")
    ensures row[EtagColumn] == StripChar(if p.etag.Some? then p.etag.value else "", '"')
  {
    map[
      ResponseIdColumn := ResponseId(py, p),
      TypeColumn := p.surveyType,
      DataColumn := p.payload,
      HashColumn := EncryptedHash(py, p),
      SourceColumn := "s3",
      BucketColumn := p.bucket,
      KeyColumn := p.key,
      LastModifiedColumn := if p.lastModified.Some? then p.lastModified.value else "",
      EtagColumn := StripChar(if p.etag.Some? then p.etag.value else "", '"')]
  }

  /** The header of `write_records_csv`: the first row's keys sorted, or the fixed list. */
  function CsvColumns(records: seq<BufferedPayload>): (cols: seq<string>)
    ensures records != [] ==> cols == SortedColumns
    ensures records == [] ==> cols == FallbackColumns
  {
    if records != [] then SortedColumns else FallbackColumns
  }

  lemma LeadingColumnsOrdered()
    ensures StrLess(ResponseIdColumn, BucketColumn)
    ensures StrLess(BucketColumn, EtagColumn)
    ensures StrLess(EtagColumn, KeyColumn)
  {
    LessAt(ResponseIdColumn, BucketColumn, 0);
    LessAfterBuffer(BucketColumn, EtagColumn);
    LessAfterBuffer(EtagColumn, KeyColumn);
  }

  lemma MiddleColumnsOrdered()
    ensures StrLess(KeyColumn, LastModifiedColumn)
    ensures StrLess(LastModifiedColumn, SourceColumn)
    ensures StrLess(SourceColumn, DataColumn)
  {
    LessAfterBuffer(KeyColumn, LastModifiedColumn);
    LessAfterBuffer(LastModifiedColumn, SourceColumn);
    LessAt(SourceColumn, DataColumn, 0);
  }

  lemma TrailingColumnsOrdered()
    ensures StrLess(DataColumn, HashColumn)
    ensures StrLess(HashColumn, TypeColumn)
  {
    PrefixIsLess(DataColumn, HashColumn);
    LessAt(HashColumn, TypeColumn, 0);
  }

  lemma SortedNine(a0: string, a1: string, a2: string, a3: string, a4: string, a5: string, a6: string, a7: string, a8: string)
    requires StrLess(a0, a1) && StrLess(a1, a2) && StrLess(a2, a3) && StrLess(a3, a4)
    requires StrLess(a4, a5) && StrLess(a5, a6) && StrLess(a6, a7) && StrLess(a7, a8)
    ensures StrictlySorted([a0, a1, a2, a3, a4, a5, a6, a7, a8])
  {
    AdjacentSorted([a0, a1, a2, a3, a4, a5, a6, a7, a8]);
  }

  /** The sorted header is strictly increasing, so it is `sorted()` of its own elements. */
  lemma SortedColumnsSorted()
    ensures StrictlySorted(SortedColumns)
  {
    LeadingColumnsOrdered();
    MiddleColumnsOrdered();
    TrailingColumnsOrdered();
    SortedNine(
      ResponseIdColumn, BucketColumn, EtagColumn, KeyColumn, LastModifiedColumn,
      SourceColumn, DataColumn, HashColumn, TypeColumn);
  }

  lemma SetOfNine(a0: string, a1: string, a2: string, a3: string, a4: string, a5: string, a6: string, a7: string, a8: string)
    ensures (set c | c in [a0, a1, a2, a3, a4, a5, a6, a7, a8]) == {a0, a1, a2, a3, a4, a5, a6, a7, a8}
  {
  }

  /** `SortedColumns` holds exactly a row's keys: it is `sorted(records[0].to_row().keys())`. */
  lemma SortedHeaderHoldsRowKeys(py: Builtins, p: BufferedPayload)
    ensures (set c | c in SortedColumns) == ToRow(py, p).Keys
  {
    SetOfNine(
      "ResponseId", "buffer_bucket", "buffer_etag", "buffer_key", "buffer_last_modified",
      "buffer_source", "encrypted_data", "encrypted_data_hash", "survey_type");
  }

  /** The header of an empty file holds the same columns. */
  lemma FallbackHeaderHoldsRowKeys(py: Builtins, p: BufferedPayload)
    ensures (set c | c in FallbackColumns) == ToRow(py, p).Keys
  {
    SetOfNine(
      "ResponseId", "survey_type", "encrypted_data", "encrypted_data_hash", "buffer_source",
      "buffer_bucket", "buffer_key", "buffer_last_modified", "buffer_etag");
  }

  /** No column is written twice. */
  lemma HeaderHasNoRepeats()
    ensures |set c | c in SortedColumns| == |SortedColumns|
  {
    SortedColumnsSorted();
    DistinctCardinality(SortedColumns);
  }

  /** Strings that agree before position k and differ there are ordered by that position. */
  lemma {:induction false} LessAt(a: string, b: string, k: nat)
    requires k < |a| && k < |b| && a[..k] == b[..k] && a[k] < b[k]
    ensures StrLess(a, b)
    decreases k
  {
    if k > 0 {
      assert a[0] == a[..k][0] && b[0] == b[..k][0];
      assert a[1..][..k - 1] == a[..k][1..] && b[1..][..k - 1] == b[..k][1..];
      LessAt(a[1..], b[1..], k - 1);
    }
  }

  /** Two `buffer_` columns are ordered by their first character after the prefix. */
  lemma LessAfterBuffer(a: string, b: string)
    requires |a| > 7 && |b| > 7
    requires a[0] == b[0] && a[1] == b[1] && a[2] == b[2] && a[3] == b[3]
    requires a[4] == b[4] && a[5] == b[5] && a[6] == b[6] && a[7] < b[7]
    ensures StrLess(a, b)
  {
    assert a[..7] == b[..7];
    LessAt(a, b, 7);
  }

  lemma {:induction false} PrefixIsLess(a: string, b: string)
    requires |a| < |b| && a == b[..|a|]
    ensures StrLess(a, b)
    decreases |a|
  {
    if a != [] {
      PrefixIsLess(a[1..], b[1..]);
    }
  }

  /** A sequence sorted between neighbours is sorted, by transitivity. */
  lemma {:induction false} AdjacentSorted(xs: seq<string>)
    requires forall i :: 0 <= i < |xs| - 1 ==> StrLess(xs[i], xs[i + 1])
    ensures StrictlySorted(xs)
    decreases |xs|
  {
    if |xs| > 1 {
      AdjacentSorted(xs[1..]);
      forall j | 1 < j < |xs|
        ensures StrLess(xs[0], xs[j])
      {
        assert StrLess(xs[1], xs[j]) by { assert xs[1..][0] == xs[1] && xs[1..][j - 1] == xs[j]; }
        StrLessTransitive(xs[0], xs[1], xs[j]);
      }
      forall i, j | 0 <= i < j < |xs|
        ensures StrLess(xs[i], xs[j])
      {
        if i > 0 {
          assert xs[1..][i - 1] == xs[i] && xs[1..][j - 1] == xs[j];
        }
      }
    }
  }

  /** A strictly sorted sequence has no repeats, so its set is as large as it is. */
  lemma {:induction false} DistinctCardinality(xs: seq<string>)
    requires StrictlySorted(xs)
    ensures |set c | c in xs| == |xs|
    decreases |xs|
  {
    if xs != [] {
      var rest := xs[1..];
      assert StrictlySorted(rest) by {
        forall i, j | 0 <= i < j < |rest|
          ensures StrLess(rest[i], rest[j])
        {
          assert rest[i] == xs[i + 1] && rest[j] == xs[j + 1];
        }
      }
      DistinctCardinality(rest);
      assert xs[0] !in rest by {
        forall k | 0 <= k < |rest|
          ensures rest[k] != xs[0]
        {
          assert StrLess(xs[0], xs[k + 1]);
          StrLessIrreflexive(xs[0]);
        }
      }
      assert (set c | c in xs) == {xs[0]} + (set c | c in rest) by {
        assert xs == [xs[0]] + rest;
      }
    }
  }

  // ---------------------------------------------------------------------------
  // Listing, de-duplication and the run's counters (list_keys, main)

  /** `list_keys`: every listed key except the directory markers ending in '/', in listing order. */
  function ListKeys(listing: seq<string>): (keys: seq<string>)
    ensures |keys| <= |listing|
    ensures forall k :: k in keys <==> k in listing && !EndsWith(k, "/")
    decreases |listing|
  {
    if listing == [] then []
    else (if EndsWith(listing[0], "/") then [] else [listing[0]]) + ListKeys(listing[1..])
  }

  /** Listing page after page gives the keys of each page in turn: the order of the listing is kept. */
  lemma {:induction false} ListKeysAppend(a: seq<string>, b: seq<string>)
    ensures ListKeys(a + b) == ListKeys(a) + ListKeys(b)
    decreases |a|
  {
    if a != [] {
      assert (a + b)[1..] == a[1..] + b;
      ListKeysAppend(a[1..], b);
    } else {
      assert a + b == b;
    }
  }

  /** One listed key is kept exactly when it is not a directory marker. */
  lemma ListKeysSingle(k: string)
    ensures ListKeys([k]) == if EndsWith(k, "/") then [] else [k]
  {
    assert [k][1..] == [];
  }

  /** How many keys the loop inspects: all of them, or `--max` of them (none when it is 0 or negative). */
  function Inspected(keyCount: nat, max: Option<int>): (n: nat)
    ensures n <= keyCount
    ensures max.Some? ==> n <= (if max.value < 0 then 0 else max.value)
  {
    match max
    case None => keyCount
    case Some(m) => if m <= 0 then 0 else if m < keyCount then m else keyCount
  }

  /** The hashes of a list of records. */
  function Hashes(py: Builtins, records: seq<BufferedPayload>): (hs: set<string>)
    ensures forall k :: 0 <= k < |records| ==> EncryptedHash(py, records[k]) in hs
    decreases |records|
  {
    if records == [] then {}
    else Hashes(py, records[..|records| - 1]) + {EncryptedHash(py, records[|records| - 1])}
  }

  /** The unique records and the duplicate count after scanning some downloads. */
  datatype Scan = Scan(records: seq<BufferedPayload>, duplicates: nat)

  /** The de-duplication of the main loop as a specification: a payload whose hash was seen is a duplicate. */
  function Dedupe(py: Builtins, downloads: seq<Option<BufferedPayload>>): Scan
    decreases |downloads|
  {
    if downloads == [] then Scan([], 0)
    else
      var before := Dedupe(py, downloads[..|downloads| - 1]);
      match downloads[|downloads| - 1]
      case None => before
      case Some(p) =>
        if EncryptedHash(py, p) in Hashes(py, before.records) then Scan(before.records, before.duplicates + 1)
        else Scan(before.records + [p], before.duplicates)
  }

  /** Download k is the first one with its hash. */
  ghost predicate FirstOfItsHash(py: Builtins, downloads: seq<Option<BufferedPayload>>, k: int)
    requires 0 <= k < |downloads|
  {
    downloads[k].Some?
    && forall j :: 0 <= j < k && downloads[j].Some? ==> EncryptedHash(py, downloads[j].value) != EncryptedHash(py, downloads[k].value)
  }

  /** The hashes of every download that succeeded. */
  ghost function DownloadedHashes(py: Builtins, downloads: seq<Option<BufferedPayload>>): set<string> {
    set k | 0 <= k < |downloads| && downloads[k].Some? :: EncryptedHash(py, downloads[k].value)
  }

  /** The number of failed downloads. */
  function Failures(downloads: seq<Option<BufferedPayload>>): nat
    decreases |downloads|
  {
    if downloads == [] then 0
    else Failures(downloads[..|downloads| - 1]) + (if downloads[|downloads| - 1].None? then 1 else 0)
  }

  /**
   * What the de-duplication keeps: records with pairwise distinct hashes, the
   * hashes of exactly the payloads downloaded, and every download accounted for
   * as a record, a duplicate or a failure.
   */
  lemma {:induction false} DedupeInvariant(py: Builtins, downloads: seq<Option<BufferedPayload>>)
    ensures Hashes(py, Dedupe(py, downloads).records) == DownloadedHashes(py, downloads)
    ensures forall i, j :: 0 <= i < j < |Dedupe(py, downloads).records| ==>
      EncryptedHash(py, Dedupe(py, downloads).records[i]) != EncryptedHash(py, Dedupe(py, downloads).records[j])
    ensures |Dedupe(py, downloads).records| + Dedupe(py, downloads).duplicates + Failures(downloads) == |downloads|
    decreases |downloads|
  {
    if downloads != [] {
      var init := downloads[..|downloads| - 1];
      DedupeInvariant(py, init);
      var before := Dedupe(py, init);
      assert DownloadedHashes(py, downloads) ==
        DownloadedHashes(py, init) + (if downloads[|downloads| - 1].Some? then {EncryptedHash(py, downloads[|downloads| - 1].value)} else {}) by {
        forall h | h in DownloadedHashes(py, downloads)
          ensures h in DownloadedHashes(py, init) || (downloads[|downloads| - 1].Some? && h == EncryptedHash(py, downloads[|downloads| - 1].value))
        {
          var k :| 0 <= k < |downloads| && downloads[k].Some? && h == EncryptedHash(py, downloads[k].value);
          if k < |init| { assert init[k] == downloads[k]; }
        }
        forall h | h in DownloadedHashes(py, init)
          ensures h in DownloadedHashes(py, downloads)
        {
          var k :| 0 <= k < |init| && init[k].Some? && h == EncryptedHash(py, init[k].value);
          assert downloads[k] == init[k];
        }
      }
      match downloads[|downloads| - 1]
      case None =>
      case Some(p) =>
        if EncryptedHash(py, p) !in Hashes(py, before.records) {
          var after := before.records + [p];
          assert after[..|after| - 1] == before.records;
          forall i, j | 0 <= i < j < |after|
            ensures EncryptedHash(py, after[i]) != EncryptedHash(py, after[j])
          {
            if j == |after| - 1 {
              assert after[i] == before.records[i];
            } else {
              assert after[i] == before.records[i] && after[j] == before.records[j];
            }
          }
        }
    }
  }

  /** The first download with a given hash is kept and every later one is a duplicate. */
  lemma {:induction false} DedupeKeepsFirstOccurrence(py: Builtins, downloads: seq<Option<BufferedPayload>>)
    ensures Dedupe(py, downloads).records == FirstOccurrences(py, downloads)
    decreases |downloads|
  {
    if downloads != [] {
      var init := downloads[..|downloads| - 1];
      DedupeKeepsFirstOccurrence(py, init);
      DedupeInvariant(py, init);
      var last := |downloads| - 1;
      if downloads[last].Some? {
        var h := EncryptedHash(py, downloads[last].value);
        if !FirstOfItsHash(py, downloads, last) {
          var j :| 0 <= j < last && downloads[j].Some? && EncryptedHash(py, downloads[j].value) == h;
          assert init[j] == downloads[j];
          assert h in DownloadedHashes(py, init);
        }
      }
    }
  }

  /** An independent statement of which downloads are kept: the first of each hash, in order. */
  ghost function FirstOccurrences(py: Builtins, downloads: seq<Option<BufferedPayload>>): seq<BufferedPayload>
    decreases |downloads|
  {
    if downloads == [] then []
    else
      FirstOccurrences(py, downloads[..|downloads| - 1])
      + (if FirstOfItsHash(py, downloads, |downloads| - 1) then [downloads[|downloads| - 1].value] else [])
  }

  /**
   * `maybe_decrypt_payload` once the key is loaded: `decrypt_data` on the payload,
   * a success when it returns a truthy value.
   */
  function DecryptsOk(py: Builtins, c: Ciphers.Crypto, p: BufferedPayload): (ok: bool)
    ensures ok <==>
      (SurveyDecrypt.DecryptData(py, c, p.payload).Some? && Truthy(SurveyDecrypt.DecryptData(py, c, p.payload).value))
  {
    var d := SurveyDecrypt.DecryptData(py, c, p.payload);
    d.Some? && Truthy(d.value)
  }

  /** The number of records whose decryption is judged a success. */
  function CountDecrypted(py: Builtins, c: Ciphers.Crypto, records: seq<BufferedPayload>): (n: nat)
    ensures n <= |records|
    decreases |records|
  {
    if records == [] then 0
    else CountDecrypted(py, c, records[..|records| - 1]) + (if DecryptsOk(py, c, records[|records| - 1]) then 1 else 0)
  }

  /** One more download: the specification unfolded at position i. */
  lemma DedupeStep(py: Builtins, downloads: seq<Option<BufferedPayload>>, i: nat)
    requires i < |downloads|
    ensures Dedupe(py, downloads[..i + 1]) ==
      match downloads[i]
      case None => Dedupe(py, downloads[..i])
      case Some(p) =>
        if EncryptedHash(py, p) in Hashes(py, Dedupe(py, downloads[..i]).records)
        then Scan(Dedupe(py, downloads[..i]).records, Dedupe(py, downloads[..i]).duplicates + 1)
        else Scan(Dedupe(py, downloads[..i]).records + [p], Dedupe(py, downloads[..i]).duplicates)
  {
    assert downloads[..i + 1][..i] == downloads[..i];
  }

  /** One more record: its hash joins the set, its decryption joins the count. */
  lemma AppendFacts(py: Builtins, c: Ciphers.Crypto, records: seq<BufferedPayload>, p: BufferedPayload)
    ensures Hashes(py, records + [p]) == Hashes(py, records) + {EncryptedHash(py, p)}
    ensures CountDecrypted(py, c, records + [p]) == CountDecrypted(py, c, records) + (if DecryptsOk(py, c, p) then 1 else 0)
  {
    assert (records + [p])[..|records|] == records;
  }

  /** The loop's step: a failed download, a duplicate, or a new record with its hash and decryption counted. */
  lemma ScanStep(py: Builtins, c: Ciphers.Crypto, downloads: seq<Option<BufferedPayload>>, i: nat,
                 records: seq<BufferedPayload>, duplicates: nat)
    requires i < |downloads| && Dedupe(py, downloads[..i]) == Scan(records, duplicates)
    ensures downloads[i].None? ==> Dedupe(py, downloads[..i + 1]) == Scan(records, duplicates)
    ensures downloads[i].Some? && EncryptedHash(py, downloads[i].value) in Hashes(py, records) ==>
      Dedupe(py, downloads[..i + 1]) == Scan(records, duplicates + 1)
    ensures downloads[i].Some? && EncryptedHash(py, downloads[i].value) !in Hashes(py, records) ==>
      var p := downloads[i].value;
      Dedupe(py, downloads[..i + 1]) == Scan(records + [p], duplicates)
      && Hashes(py, records + [p]) == Hashes(py, records) + {EncryptedHash(py, p)}
      && CountDecrypted(py, c, records + [p]) == CountDecrypted(py, c, records) + (if DecryptsOk(py, c, p) then 1 else 0)
  {
    DedupeStep(py, downloads, i);
    if downloads[i].Some? {
      AppendFacts(py, c, records, downloads[i].value);
    }
  }

  /** The summary the run prints. */
  datatype Summary = Summary(
    records: seq<BufferedPayload>, processed: nat, duplicates: nat, decryptedOk: nat, decryptedFail: nat)

  /**
   * The loop of `main`: stop once `--max` keys were inspected, skip failed
   * downloads, skip payloads whose hash was already seen, keep the rest in order
   * and, unless decryption is skipped, count decryption successes and failures.
   */
  method ScanBuffer(
    py: Builtins, c: Ciphers.Crypto, bucket: string, prefix: string, keys: seq<string>,
    fetch: string -> Option<Fetched>, max: Option<int>, skipDecrypt: bool)
    returns (s: Summary)
    ensures s.processed == Inspected(|keys|, max)
    ensures Scan(s.records, s.duplicates) == Dedupe(py, Downloads(bucket, prefix, keys, fetch)[..s.processed])
    ensures skipDecrypt ==> s.decryptedOk == 0 && s.decryptedFail == 0
    ensures !skipDecrypt ==>
      s.decryptedOk == CountDecrypted(py, c, s.records) && s.decryptedOk + s.decryptedFail == |s.records|
  {
    var downloads := Downloads(bucket, prefix, keys, fetch);
    var seen: set<string> := {};
    var records: seq<BufferedPayload> := [];
    var processed := 0;
    var duplicates := 0;
    var decryptedOk := 0;
    var decryptedFail := 0;
    for i := 0 to |keys|
      invariant processed == i
      invariant processed <= Inspected(|keys|, max)
      invariant Dedupe(py, downloads[..i]) == Scan(records, duplicates)
      invariant seen == Hashes(py, records)
      invariant skipDecrypt ==> decryptedOk == 0 && decryptedFail == 0
      invariant !skipDecrypt ==> decryptedOk == CountDecrypted(py, c, records) && decryptedOk + decryptedFail == |records|
    {
      if max.Some? && processed >= max.value {
        InspectedReached(|keys|, max, processed);
        break;
      }
      processed := processed + 1;
      var record := DownloadPayload(bucket, keys[i], prefix, fetch(keys[i]));
      ScanStep(py, c, downloads, i, records, duplicates);
      if record.None? {
        continue;
      }
      var hash := EncryptedHash(py, record.value);
      if hash in seen {
        duplicates := duplicates + 1;
        continue;
      }
      seen := seen + {hash};
      records := records + [record.value];
      if !skipDecrypt {
        if DecryptsOk(py, c, record.value) {
          decryptedOk := decryptedOk + 1;
        } else {
          decryptedFail := decryptedFail + 1;
        }
      }
    }
    s := Summary(records, processed, duplicates, decryptedOk, decryptedFail);
  }

  /** The loop stops exactly when it has inspected `Inspected` keys. */
  lemma InspectedReached(keyCount: nat, max: Option<int>, processed: nat)
    requires processed <= Inspected(keyCount, max)
    requires max.Some? && processed >= max.value
    ensures processed == Inspected(keyCount, max)
  {
  }

  /** Each inspected key's download, in order. */
  function Downloads(bucket: string, prefix: string, keys: seq<string>, fetch: string -> Option<Fetched>): (d: seq<Option<BufferedPayload>>)
    ensures |d| == |keys|
    ensures forall k :: 0 <= k < |keys| ==> d[k] == DownloadPayload(bucket, keys[k], prefix, fetch(keys[k]))
  {
    seq(|keys|, k requires 0 <= k < |keys| => DownloadPayload(bucket, keys[k], prefix, fetch(keys[k])))
  }

  /**
   * `write_records_csv`: the header, then one row per record in order; the
   * header lemmas above show that it names exactly each row's keys.
   */
  method WriteRecordsCsv(py: Builtins, records: seq<BufferedPayload>) returns (header: seq<string>, rows: seq<map<string, string>>)
    ensures header == CsvColumns(records)
    ensures |rows| == |records|
    ensures forall k :: 0 <= k < |records| ==> rows[k] == ToRow(py, records[k])
  {
    header := CsvColumns(records);
    rows := [];
    for i := 0 to |records|
      invariant |rows| == i
      invariant forall k :: 0 <= k < i ==> rows[k] == ToRow(py, records[k])
    {
      rows := rows + [ToRow(py, records[i])];
    }
  }
}
