/**
 * The survey CSV creator: every row of the decrypted exports is dispatched on its
 * `decrypted_type` to the consent, initial or biweekly processor, each of which
 * parses the row's JSON cells and appends one record to its table; biweekly rows
 * also flatten their location list into the location table. The creator's tables
 * and counters are fields updated in place. Reading files, writing images and
 * fetching URLs are parameters.
 */
module SurveyCsvs {
  import opened Text
  import opened Common

  // ---------------------------------------------------------------------------
  // Cell parsing (_parse_json_field, _parse_list_field)

  /**
   * `_parse_json_field`: a missing or empty cell is `{}`; text that starts with '{'
   * and holds a single quote is evaluated, or on failure re-read as JSON with the
   * quotes swapped; other text is read as JSON; a non-text cell is returned as is.
   * Every failure gives `{}`, and so does the text "{}" itself (`json.loads('{}')`),
   * which is also what an absent column reads.
   */
  function ParseJsonField(py: Builtins, row: Row, field: string): (v: Value)
    ensures var cell := Get(row, field, Str("{}"));
      (IsMissing(cell) || cell == Str("")) ==> v == Dict(map[])
    ensures var cell := Get(row, field, Str("{}"));
      (!IsMissing(cell) && !cell.Str?) ==> v == cell
    ensures field !in row ==> v == Dict(map[])
  {
    var cell := Get(row, field, Str("{}"));
    if IsMissing(cell) || cell == Str("") || cell == Str("{}") then Dict(map[])
    else if cell.Str? then
      var s := cell.s;
      if StartsWith(s, "{") && '\'' in s then
        match py.pyEval(s)
        case Ok(v) => v
        case Err(_) =>
          match py.jsonLoads(ReplaceChar(s, '\'', "\""))
          case Ok(v) => v
          case Err(_) => Dict(map[])
      else
        match py.jsonLoads(s)
        case Ok(v) => v
        case Err(_) => Dict(map[])
    else cell
  }

  /** `', '.join(str(item) for item in items)` */
  function JoinItems(py: Builtins, items: seq<Value>): (r: string)
    ensures |items| == 1 ==> r == PyStr(py, items[0])
    ensures items == [] ==> r == ""
    decreases |items|
  {
    if items == [] then ""
    else if |items| == 1 then PyStr(py, items[0])
    else PyStr(py, items[0]) + ", " + JoinItems(py, items[1..])
  }

  /** What the list-field parser made of the value before formatting it. */
  function ParsedListValue(py: Builtins, value: Value): (r: Outcome<Value>)
    requires Truthy(value) && value != Str("[]")
  {
    if value.Str? && StartsWith(value.s, "[") then
      match py.pyEval(value.s)
      case Ok(v) => Ok(v)
      case Err(_) =>
        match py.jsonLoads(ReplaceChar(value.s, '\'', "\""))
        case Ok(v) => Ok(v)
        // the fallback rebinds `value` before it fails, so the swapped text is what is kept
        case Err(_) => Err(ReplaceChar(value.s, '\'', "\""))
    else if value.Str? then
      match py.jsonLoads(value.s)
      case Ok(v) => Ok(v)
      case Err(_) => Err(value.s)
    else Ok(value)
  }

  /**
   * `_parse_list_field`: '' for a falsy value or "[]", the items joined by ", " for
   * a list, `str(parsed)` for anything else; text that cannot be parsed is kept
   * as text (with quotes swapped when it looked like a list).
   */
  function ParseListField(py: Builtins, value: Value): (r: string)
    ensures (!Truthy(value) || value == Str("[]")) ==> r == ""
    ensures value.List? && value.items != [] ==> r == JoinItems(py, value.items)
    ensures (Truthy(value) && value != Str("[]") && ParsedListValue(py, value).Ok?) ==>
      r == (if ParsedListValue(py, value).value.List? then JoinItems(py, ParsedListValue(py, value).value.items)
            else PyStr(py, ParsedListValue(py, value).value))
    ensures (Truthy(value) && value != Str("[]") && ParsedListValue(py, value).Err?) ==> r == ParsedListValue(py, value).msg
  {
    if !Truthy(value) || value == Str("[]") then ""
    else
      match ParsedListValue(py, value)
      case Err(kept) => kept
      case Ok(parsed) => if parsed.List? then JoinItems(py, parsed.items) else PyStr(py, parsed)
  }

  /** A Python list of strings with no comma in them is joined so that splitting on ',' gives them back. */
  lemma {:induction false} JoinItemsSplits(py: Builtins, items: seq<string>)
    requires items != []
    requires forall k :: 0 <= k < |items| ==> ',' !in items[k]
    ensures Split(JoinItems(py, StrValues(items)), ',') == [items[0]] + SpacedTail(items)
    decreases |items|
  {
    if |items| == 1 {
      assert JoinItems(py, StrValues(items)) == items[0];
      SplitWithoutSeparator(items[0], ',');
      return;
    }
    var rest := items[1..];
    var joined := JoinItems(py, StrValues(rest));
    JoinItemsUnfold(py, items);
    JoinItemsSplits(py, rest);
    SplitAfterPart(items[0], ',', " " + joined);
    SplitLeadingSpace(joined);
    SpacedTailStep(items);
  }

  /** The string values of a list of strings. */
  function StrValues(items: seq<string>): (vs: seq<Value>)
    ensures |vs| == |items| && forall k :: 0 <= k < |vs| ==> vs[k] == Str(items[k])
  {
    seq(|items|, k requires 0 <= k < |items| => Str(items[k]))
  }

  /** Joining two or more string items puts the first one, a comma and a space before the rest. */
  lemma JoinItemsUnfold(py: Builtins, items: seq<string>)
    requires |items| >= 2
    ensures JoinItems(py, StrValues(items)) == items[0] + [','] + (" " + JoinItems(py, StrValues(items[1..])))
  {
    assert StrValues(items)[1..] == StrValues(items[1..]);
  }

  /** The items after the first, each with a leading space. */
  function SpacedTail(items: seq<string>): (t: seq<string>)
    requires items != []
    ensures |t| == |items| - 1 && forall k :: 0 <= k < |t| ==> t[k] == " " + items[k + 1]
  {
    seq(|items| - 1, k requires 0 <= k < |items| - 1 => " " + items[k + 1])
  }

  /** The spaced tail of a list starts with its second item, spaced, then the spaced tail of the rest. */
  lemma SpacedTailStep(items: seq<string>)
    requires |items| >= 2
    ensures SpacedTail(items) == [" " + items[1]] + SpacedTail(items[1..])
  {
    assert SpacedTail(items)[1..] == SpacedTail(items[1..]);
  }

  /** A leading space joins the first part of the split. */
  lemma SplitLeadingSpace(s: string)
    ensures Split(" " + s, ',') == [" " + Split(s, ',')[0]] + Split(s, ',')[1..]
  {
    assert (" " + s)[1..] == s;
  }

  // ---------------------------------------------------------------------------
  // Survey-type dispatch (_process_csv_file)

  datatype SurveyKind = ConsentKind | InitialKind | BiweeklyKind | UnknownKind

  /** The row's `decrypted_type`, lower-cased; a missing value is ''. */
  function SurveyTypeOf(py: Builtins, row: Row): (t: string)
    ensures Get(row, "decrypted_type", Str("")).Str? ==> t == Lower(Get(row, "decrypted_type", Str("")).s)
    ensures IsMissing(Get(row, "decrypted_type", Str(""))) ==> t == ""
  {
    var raw := Get(row, "decrypted_type", Str(""));
    if raw.Str? then Lower(raw.s)
    else if IsMissing(raw) then ""
    else Lower(PyStr(py, raw))
  }

  /** The processor a survey type selects: 'consent', then 'initial', then 'biweekly', as substrings. */
  function Dispatch(surveyType: string): (k: SurveyKind)
    ensures k == ConsentKind <==> IsSubstring("consent", surveyType)
    ensures k == InitialKind <==> !IsSubstring("consent", surveyType) && IsSubstring("initial", surveyType)
    ensures k == BiweeklyKind <==>
      !IsSubstring("consent", surveyType) && !IsSubstring("initial", surveyType) && IsSubstring("biweekly", surveyType)
    ensures k == UnknownKind <==>
      !IsSubstring("consent", surveyType) && !IsSubstring("initial", surveyType) && !IsSubstring("biweekly", surveyType)
  {
    if IsSubstring("consent", surveyType) then ConsentKind
    else if IsSubstring("initial", surveyType) then InitialKind
    else if IsSubstring("biweekly", surveyType) then BiweeklyKind
    else UnknownKind
  }

  // ---------------------------------------------------------------------------
  // Image file names and URLs (_extract_encrypted_images, _download_image_urls)

  /** Some character of s[lo..hi] is not a dot. */
  predicate HasNonDot(s: string, lo: int, hi: int)
    requires 0 <= lo <= hi <= |s|
  {
    exists i :: lo <= i < hi && s[i] != '.'
  }

  /**
   * `os.path.splitext`: the extension starts at the last dot of the last path
   * component, unless everything before that dot in the component is dots.
   */
  function SplitExt(p: string): (r: (string, string))
    ensures r.0 + r.1 == p
    ensures r.1 == "" || (r.1[0] == '.' && '/' !in r.1 && '.' !in r.1[1..])
  {
    var sep := LastIndexOf(p, '/');
    var dot := LastIndexOf(p, '.');
    if dot > sep && HasNonDot(p, sep + 1, dot) then
      var ext := p[dot..];
      assert forall j :: 0 <= j < |ext| ==> ext[j] == p[dot + j];
      assert p[..dot] + ext == p;
      (p[..dot], ext)
    else (p, "")
  }

  /** The name an extracted image is saved under: `{response_id}_{survey_type}_{name}{ext}`, '.jpg' by default. */
  function ImageFileName(responseId: string, surveyType: string, originalName: string): string {
    var (name, ext) := SplitExt(originalName);
    responseId + "_" + surveyType + "_" + name + (if ext == "" then ".jpg" else ext)
  }

  /**
   * The saved name keeps the original name after the prefix, with '.jpg' added
   * exactly when the original has no extension.
   */
  lemma ImageFileNameKeepsOriginal(responseId: string, surveyType: string, originalName: string)
    ensures ImageFileName(responseId, surveyType, originalName) ==
      responseId + "_" + surveyType + "_" + originalName + (if SplitExt(originalName).1 == "" then ".jpg" else "")
  {
    var (name, ext) := SplitExt(originalName);
    if ext == "" {
      assert name == originalName;
    } else {
      assert name + ext == originalName;
      assert responseId + "_" + surveyType + "_" + name + ext == responseId + "_" + surveyType + "_" + (name + ext);
    }
  }

  /**
   * The final component of a path as `PurePath` sees it: empty components (from
   * repeated or trailing '/') and "." components are dropped first.
   */
  function PathName(path: string): (name: string)
    ensures '/' !in name
  {
    LastKept(Split(path, '/'))
  }

  /** The last part that is neither empty nor "."; '' when there is none. */
  function LastKept(parts: seq<string>): (name: string)
    requires forall k :: 0 <= k < |parts| ==> '/' !in parts[k]
    ensures '/' !in name
    decreases |parts|
  {
    if parts == [] then ""
    else
      var last := parts[|parts| - 1];
      if last == "" || last == "." then LastKept(parts[..|parts| - 1]) else last
  }

  /** `PurePath.suffix` of a final component: from its last dot, '' for a leading or trailing dot. */
  function NameSuffix(name: string): (ext: string)
    ensures ext == "" || (ext[0] == '.' && |ext| >= 2 && '.' !in ext[1..])
    ensures ext != "" ==> exists i :: 0 < i < |name| - 1 && ext == name[i..]
  {
    var i := LastIndexOf(name, '.');
    if 0 < i < |name| - 1 then
      assert forall j :: 0 <= j < |name| - i ==> name[i..][j] == name[i + j];
      name[i..]
    else ""
  }

  /** `PurePath(path).suffix`: the suffix of the path's final component. */
  function PathSuffix(path: string): (ext: string)
    ensures ext == "" || (ext[0] == '.' && |ext| >= 2 && '.' !in ext[1..] && '/' !in ext)
  {
    var name := PathName(path);
    var ext := NameSuffix(name);
    assert ext != "" ==> '/' !in ext by {
      if ext != "" {
        var i :| 0 < i < |name| - 1 && ext == name[i..];
        assert forall j :: 0 <= j < |ext| ==> ext[j] == name[i + j];
      }
    }
    ext
  }

  /** Splitting text, a separator and a last part without separators appends that part. */
  lemma {:induction false} SplitAppendPart(s: string, sep: char, t: string)
    requires sep !in t
    ensures Split(s + [sep] + t, sep) == Split(s, sep) + [t]
    decreases |s|
  {
    if s == [] {
      assert s + [sep] + t == [sep] + t;
      assert ([sep] + t)[1..] == t;
      SplitWithoutSeparator(t, sep);
    } else {
      assert (s + [sep] + t)[1..] == s[1..] + [sep] + t;
      SplitAppendPart(s[1..], sep, t);
    }
  }

  /** The suffix of "dir/name" is that of the real component `name`, whatever `dir` is. */
  lemma PathSuffixOfName(dir: string, name: string)
    requires '/' !in name && name != "" && name != "."
    ensures PathSuffix(dir + "/" + name) == NameSuffix(name)
  {
    SplitAppendPart(dir, '/', name);
  }

  /** A trailing '/' or "/." does not change the suffix, as in `PurePath("/img.png/").suffix == ".png"`. */
  lemma PathSuffixIgnoresTrailing(path: string, tail: string)
    requires tail == "" || tail == "."
    ensures PathSuffix(path + "/" + tail) == PathSuffix(path)
  {
    SplitAppendPart(path, '/', tail);
    var parts := Split(path, '/');
    assert (parts + [tail])[..|parts|] == parts;
  }

  /** The URLs the downloader tries: non-empty text starting with "http". */
  predicate UrlAccepted(url: Value) {
    url.Str? && url.s != "" && StartsWith(url.s, "http")
  }

  /** How images reach the disk: the path part of a URL, and whether fetching and saving it succeeds. */
  datatype MediaIo = MediaIo(urlPath: string -> string, download: string -> bool)

  /** The URL is accepted and its download succeeds. */
  predicate Fetched(io: MediaIo, url: Value) {
    UrlAccepted(url) && io.download(url.s)
  }

  /** The name a downloaded image is saved under. */
  function DownloadFileName(io: MediaIo, responseId: string, surveyType: string, index: nat, url: string): string {
    var ext := PathSuffix(io.urlPath(url));
    responseId + "_" + surveyType + "_download_" + NatToString(index) + (if ext == "" then ".jpg" else ext)
  }

  /** The number of entries from position k on that the downloader would fetch. */
  function AcceptedUrls(urls: seq<Value>, k: nat): nat
    requires k <= |urls|
    decreases |urls| - k
  {
    if k == |urls| then 0 else (if UrlAccepted(urls[k]) then 1 else 0) + AcceptedUrls(urls, k + 1)
  }

  /**
   * The download loop from position k: empty entries and non-http text are
   * skipped, a non-text entry ends the loop (its `startswith` raises inside the
   * outer handler), and a URL whose fetch succeeds adds its path. Only accepted
   * URLs give images, and when every entry is fetched every one does.
   */
  function DownloadedImages(io: MediaIo, urls: seq<Value>, k: nat, responseId: string, surveyType: string): (paths: seq<string>)
    requires k <= |urls|
    ensures |paths| <= AcceptedUrls(urls, k)
    ensures (forall j :: k <= j < |urls| ==> Fetched(io, urls[j])) ==> |paths| == |urls| - k
    decreases |urls| - k
  {
    if k == |urls| then []
    else
      var url := urls[k];
      if !Truthy(url) then DownloadedImages(io, urls, k + 1, responseId, surveyType)
      else if !url.Str? then []
      else if !StartsWith(url.s, "http") then DownloadedImages(io, urls, k + 1, responseId, surveyType)
      else
        var here := if io.download(url.s) then ["images/" + DownloadFileName(io, responseId, surveyType, k, url.s)] else [];
        here + DownloadedImages(io, urls, k + 1, responseId, surveyType)
  }

  /** `_download_image_urls`: a JSON list when the text starts with '[', else the one URL. */
  function DownloadImageUrls(py: Builtins, io: MediaIo, imageUrls: Value, responseId: string, surveyType: string): seq<string> {
    if !imageUrls.Str? then []
    else if StartsWith(imageUrls.s, "[") then
      match py.jsonLoads(imageUrls.s)
      case Ok(List(urls)) => DownloadedImages(io, urls, 0, responseId, surveyType)
      case _ => []
    else DownloadedImages(io, [imageUrls], 0, responseId, surveyType)
  }

  /** The object an encrypted image entry stands for: a JSON string is parsed, anything else is used as is. */
  function ImageObject(py: Builtins, item: Value): Value {
    if item.Str? then (match py.jsonLoads(item.s) case Ok(v) => v case Err(_) => Null) else item
  }

  /**
   * An entry is saved when it is an object whose `filename` (default `image_{idx}`)
   * is text and whose `data` is non-empty text that base64-decodes.
   */
  predicate ImageSaved(py: Builtins, obj: Value, index: nat) {
    obj.Dict?
    && Get(obj.fields, "filename", Str("image_" + NatToString(index))).Str?
    && Truthy(Get(obj.fields, "data", Str("")))
    && Get(obj.fields, "data", Str("")).Str?
    && py.b64decode(Get(obj.fields, "data", Str("")).s).Ok?
  }

  /** One entry of an encrypted image list: the path it is saved under, if it is saved. */
  function ExtractedImage(py: Builtins, item: Value, index: nat, responseId: string, surveyType: string): (r: Option<string>)
    ensures r.Some? <==> ImageSaved(py, ImageObject(py, item), index)
  {
    var obj := ImageObject(py, item);
    if !obj.Dict? then None
    else
      var original := Get(obj.fields, "filename", Str("image_" + NatToString(index)));
      var data := Get(obj.fields, "data", Str(""));
      if !Truthy(data) || !original.Str? then None
      else if data.Str? && py.b64decode(data.s).Ok? then
        Some("images/" + ImageFileName(responseId, surveyType, original.s))
      else None
  }

  /** The number of entries from position k on that are saved. */
  function SavedImages(py: Builtins, items: seq<Value>, k: nat): nat
    requires k <= |items|
    decreases |items| - k
  {
    if k == |items| then 0 else (if ImageSaved(py, ImageObject(py, items[k]), k) then 1 else 0) + SavedImages(py, items, k + 1)
  }

  /** The paths of the entries from position k on, in order: one per saved entry. */
  function ExtractedImages(py: Builtins, items: seq<Value>, k: nat, responseId: string, surveyType: string): (paths: seq<string>)
    requires k <= |items|
    ensures |paths| == SavedImages(py, items, k)
    decreases |items| - k
  {
    if k == |items| then []
    else
      (match ExtractedImage(py, items[k], k, responseId, surveyType) case Some(p) => [p] case None => [])
      + ExtractedImages(py, items, k + 1, responseId, surveyType)
  }

  /**
   * `_extract_encrypted_images`: a missing cell gives nothing; text starting with
   * '[' is read as JSON, else as a Python literal, and each entry extracted; other
   * text gives nothing; a non-text cell makes the debug dump raise, and that
   * error escapes.
   */
  function ExtractEncryptedImages(py: Builtins, cell: Value, responseId: string, surveyType: string): (r: Outcome<seq<string>>)
    ensures r.Err? <==> !IsMissing(cell) && !cell.Str?
    ensures cell.Str? && !StartsWith(cell.s, "[") ==> r == Ok([])
  {
    if IsMissing(cell) then Ok([])
    else if !cell.Str? then Err("write() argument must be str, not " + TypeName(cell))
    else if !StartsWith(cell.s, "[") then Ok([])
    else
      var parsed: Outcome<Value> := match py.jsonLoads(cell.s) case Ok(v) => Ok(v) case Err(_) => py.literalEval(cell.s);
      match parsed
      case Ok(List(items)) => Ok(ExtractedImages(py, items, 0, responseId, surveyType))
      case _ => Ok([])
  }

  /** What `_process_images` returns, and the error it logs. */
  datatype ImageResult = ImageResult(paths: seq<string>, error: Option<string>)

  /**
   * `_process_images`: nothing unless images are enabled; otherwise the extracted
   * images, then the downloaded ones. An escaping error logs one message and
   * gives no paths.
   */
  function ProcessImagesResult(py: Builtins, io: MediaIo, downloadImages: bool, row: Row, surveyType: string): (r: ImageResult)
    ensures !downloadImages ==> r == ImageResult([], None)
    ensures r.error.Some? ==> r.paths == []
  {
    if !downloadImages then ImageResult([], None)
    else
      var rid := PyStr(py, Get(row, "ResponseId", Str("")));
      var encrypted := Get(row, "decrypted_encrypted_images", Str(""));
      var extracted := if Truthy(encrypted) then ExtractEncryptedImages(py, encrypted, rid, surveyType) else Ok([]);
      match extracted
      case Err(m) => ImageResult([], Some("Error processing images for " + rid + ": " + m))
      case Ok(first) =>
        var urls := Get(row, "image_urls", Str(""));
        ImageResult(first + (if Truthy(urls) then DownloadImageUrls(py, io, urls, rid, surveyType) else []), None)
  }

  /** The `image_files` cell: the paths joined by ';', or ''. */
  function ImageFilesCell(paths: seq<string>): (v: Value)
    ensures paths == [] ==> v == Str("")
    ensures paths != [] ==> v == Str(Join(";", paths))
  {
    if paths != [] then Str(Join(";", paths)) else Str("")
  }

  // ---------------------------------------------------------------------------
  // Records

  /** Columns copied from the consent data with default 0. */
  const ConsentFlags: seq<string> := [
    "informed_consent", "data_processing", "location_data", "survey_data", "data_retention",
    "data_sharing", "voluntary_participation", "consent_participate", "consent_qualtrics_data",
    "consent_race_ethnicity", "consent_health", "consent_sexual_orientation",
    "consent_location_mobility", "consent_data_transfer", "consent_public_reporting",
    "consent_researcher_sharing", "consent_further_research", "consent_public_repository",
    "consent_followup_contact", "synced"]

  /** The wellbeing questions shared by the initial and biweekly surveys. */
  const WellbeingFields: seq<string> := [
    "cheerful_spirits", "calm_relaxed", "active_vigorous", "woke_up_fresh", "daily_life_interesting",
    "cooperate_with_people", "improving_skills", "social_situations", "family_support",
    "family_knows_me", "access_to_food", "people_enjoy_time", "talk_to_family", "friends_support",
    "belong_in_community", "family_stands_by_me", "friends_stand_by_me", "treated_fairly",
    "opportunities_responsibility", "secure_with_family", "opportunities_abilities",
    "enjoy_cultural_traditions", "environmental_challenges", "challenges_stress_level", "coping_help"]

  /** Initial-survey columns copied from the data with default ''. */
  const InitialTextFields: seq<string> := [
    "submitted_at", "age", "gender", "sexuality", "birth_place", "lives_in_barcelona", "suburb",
    "building_type", "education", "climate_activism", "general_health", "living_arrangement",
    "relationship_status", "voice_note_urls", "image_urls", "research_site", "created_at"] + WellbeingFields

  /** Biweekly columns copied from the data with default ''. */
  const BiweeklyTextFields: seq<string> := [
    "submitted_at", "living_arrangement", "relationship_status", "voice_note_urls", "image_urls",
    "created_at"] + WellbeingFields

  /** `data.get(name, default)` for each listed name. */
  function Copied(source: map<string, Value>, names: seq<string>, default: Value): (r: map<string, Value>)
    ensures r.Keys == set n | n in names
    ensures forall n :: n in names ==> r[n] == Get(source, n, default)
  {
    map n | n in names :: Get(source, n, default)
  }

  /** The identifier columns every survey record takes from the row. */
  datatype Ids = Ids(responseId: Value, participantUuid: Value, surveyId: Value, timestamp: Value)

  function SurveyIds(row: Row): Ids {
    Ids(Get(row, "ResponseId", Str("")), Get(row, "decrypted_participant_uuid", Str("")),
      Get(row, "decrypted_survey_id", Str("")), Get(row, "decrypted_timestamp", Str("")))
  }

  /** A row of the consent table; `permissions` holds the flag columns. */
  datatype Consent = Consent(
    responseId: Value, participantUuid: Value, consentId: Value, timestamp: Value, submittedAt: Value,
    permissions: map<string, Value>, participantSignature: Value, appVersion: Value,
    submissionMethod: Value, createdAt: Value)

  /** A row of the initial-survey table; `answers` holds the columns copied as they are. */
  datatype InitialSurvey = InitialSurvey(
    ids: Ids, answers: map<string, Value>, ethnicity: string, householdItems: string, activities: string,
    imageFiles: Value, appVersion: Value, submissionMethod: Value, hasImages: Value, synced: Value)

  /** A row of the biweekly-survey table, with the location summary. */
  datatype BiweeklySurvey = BiweeklySurvey(
    ids: Ids, answers: map<string, Value>, activities: string, imageFiles: Value,
    locationPointsCount: Value, locationSharingOption: Value, userErasedCount: Value,
    collectionPeriodDays: Value, appVersion: Value, submissionMethod: Value, hasImages: Value, synced: Value)

  /** A row of the location table. */
  datatype LocationPoint = LocationPoint(
    responseId: Value, timestamp: Value, latitude: Value, longitude: Value, accuracy: Value,
    altitude: Value, speed: Value, activity: Value, sharingOption: Value,
    collectionPeriodDays: Value, submittedAt: Value)

  /** `_process_consent_response` without the append: fails when the data or the metadata is not an object. */
  function ConsentRecord(py: Builtins, row: Row): (r: Outcome<Consent>)
    ensures r.Ok? <==> ParseJsonField(py, row, "decrypted_data").Dict? && ParseJsonField(py, row, "decrypted_metadata").Dict?
    ensures !ParseJsonField(py, row, "decrypted_data").Dict? ==> r == Err(NoAttribute(ParseJsonField(py, row, "decrypted_data"), "get"))
    ensures r.Ok? ==>
      r.value.responseId == Get(row, "ResponseId", Str(""))
      && r.value.submittedAt == Get(ParseJsonField(py, row, "decrypted_data").fields, "consented_at", Str(""))
      && r.value.permissions.Keys == set n | n in ConsentFlags
  {
    var data := ParseJsonField(py, row, "decrypted_data");
    var metadata := ParseJsonField(py, row, "decrypted_metadata");
    if !data.Dict? then Err(NoAttribute(data, "get"))
    else if !metadata.Dict? then Err(NoAttribute(metadata, "get"))
    else
      Ok(Consent(
        Get(row, "ResponseId", Str("")), Get(row, "decrypted_participant_uuid", Str("")),
        Get(row, "decrypted_consent_id", Str("")), Get(row, "decrypted_timestamp", Str("")),
        Get(data.fields, "consented_at", Str("")),
        Copied(data.fields, ConsentFlags, Int(0)),
        Get(data.fields, "participant_signature", Str("")),
        Get(metadata.fields, "app_version", Str("")), Get(metadata.fields, "submission_method", Str("")),
        Get(data.fields, "created_at", Str(""))))
  }

  /** `_process_initial_response` without the append, given the image paths already collected. */
  function InitialRecord(py: Builtins, row: Row, imagePaths: seq<string>): (r: Outcome<InitialSurvey>)
    ensures r.Ok? <==> ParseJsonField(py, row, "decrypted_data").Dict? && ParseJsonField(py, row, "decrypted_metadata").Dict?
    ensures !ParseJsonField(py, row, "decrypted_data").Dict? ==> r == Err(NoAttribute(ParseJsonField(py, row, "decrypted_data"), "get"))
    ensures r.Ok? ==>
      r.value.ids.responseId == Get(row, "ResponseId", Str(""))
      && r.value.imageFiles == ImageFilesCell(imagePaths)
      && r.value.ethnicity == ParseListField(py, Get(ParseJsonField(py, row, "decrypted_data").fields, "ethnicity", Str("[]")))
  {
    var data := ParseJsonField(py, row, "decrypted_data");
    var metadata := ParseJsonField(py, row, "decrypted_metadata");
    if !data.Dict? then Err(NoAttribute(data, "get"))
    else if !metadata.Dict? then Err(NoAttribute(metadata, "get"))
    else
      Ok(InitialSurvey(
        SurveyIds(row),
        Copied(data.fields, InitialTextFields, Str("")),
        ParseListField(py, Get(data.fields, "ethnicity", Str("[]"))),
        ParseListField(py, Get(data.fields, "household_items", Str("[]"))),
        ParseListField(py, Get(data.fields, "activities", Str("[]"))),
        ImageFilesCell(imagePaths),
        Get(metadata.fields, "app_version", Str("")), Get(metadata.fields, "submission_method", Str("")),
        Get(metadata.fields, "has_images", Bool(false)), Get(data.fields, "synced", Int(0))))
  }

  // ---------------------------------------------------------------------------
  // Location flattening (_process_location_data)

  /** One location row: the point's fields and the survey's sharing context, '' when missing. */
  function LocationRecord(location: map<string, Value>, responseId: Value, context: map<string, Value>): (r: LocationPoint)
    ensures r.responseId == responseId
    ensures r.latitude == Get(location, "latitude", Str("")) && r.longitude == Get(location, "longitude", Str(""))
    ensures r.sharingOption == Get(context, "sharing_option", Str(""))
  {
    LocationPoint(
      responseId, Get(location, "timestamp", Str("")),
      Get(location, "latitude", Str("")), Get(location, "longitude", Str("")),
      Get(location, "accuracy", Str("")), Get(location, "altitude", Str("")),
      Get(location, "speed", Str("")), Get(location, "activity", Str("")),
      Get(context, "sharing_option", Str("")), Get(context, "collection_period_days", Str("")),
      Get(context, "submitted_at", Str("")))
  }

  /** The number of leading objects in a list: where iteration stops with an AttributeError. */
  function LeadingDicts(items: seq<Value>): (n: nat)
    ensures n <= |items|
    ensures forall k :: 0 <= k < n ==> items[k].Dict?
    ensures n < |items| ==> !items[n].Dict?
    decreases |items|
  {
    if items == [] || !items[0].Dict? then 0 else 1 + LeadingDicts(items[1..])
  }

  /** The location rows for a run of objects, in order. */
  function LocationRecords(items: seq<Value>, responseId: Value, context: map<string, Value>): (r: seq<LocationPoint>)
    requires forall k :: 0 <= k < |items| ==> items[k].Dict?
    ensures |r| == |items|
    ensures forall k :: 0 <= k < |items| ==> r[k] == LocationRecord(items[k].fields, responseId, context)
  {
    seq(|items|, k requires 0 <= k < |items| => LocationRecord(items[k].fields, responseId, context))
  }

  /** One more object adds its row at the end. */
  lemma LocationRecordsStep(items: seq<Value>, i: nat, responseId: Value, context: map<string, Value>)
    requires i < |items| && forall k :: 0 <= k <= i ==> items[k].Dict?
    ensures LocationRecords(items[..i + 1], responseId, context)
      == LocationRecords(items[..i], responseId, context) + [LocationRecord(items[i].fields, responseId, context)]
  {
    assert items[..i + 1][..i] == items[..i];
  }

  /** The rows `_process_location_data` appends before it returns or raises, and what it raises. */
  datatype LocationResult = LocationResult(records: seq<LocationPoint>, error: Option<string>)

  function LocationEffect(locationData: Value, responseId: Value): (r: LocationResult)
    ensures !Truthy(locationData) ==> r == LocationResult([], None)
    ensures locationData.Dict? && "locations" in locationData.fields && locationData.fields["locations"].List? ==>
      var items := locationData.fields["locations"].items;
      r.records == LocationRecords(items[..LeadingDicts(items)], responseId, locationData.fields)
      && (r.error.None? <==> LeadingDicts(items) == |items|)
  {
    if !Truthy(locationData) then LocationResult([], None)
    else
      match PyIn("locations", locationData)
      case Err(m) => LocationResult([], Some(m))
      case Ok(present) =>
        if !present then LocationResult([], None)
        else if !locationData.Dict? then LocationResult([], Some(NoAttribute(locationData, "get")))
        else
          var context := locationData.fields;
          match context["locations"]
          case List(items) =>
            var n := LeadingDicts(items);
            LocationResult(LocationRecords(items[..n], responseId, context),
              if n < |items| then Some(NoAttribute(items[n], "get")) else None)
          // iterating text yields one-character strings, iterating an object yields its keys
          case Str(s) => LocationResult([], if s == "" then None else Some(NoAttribute(Str(s[..1]), "get")))
          case Dict(m) => LocationResult([], if m == map[] then None else Some(NoAttribute(Str(""), "get")))
          case other => LocationResult([], Some("'" + TypeName(other) + "' object is not iterable"))
  }

  /** `len(location_data.get('locations', []))` for truthy location data, 0 otherwise. */
  function LocationCount(locationData: Value): Outcome<Value> {
    if !Truthy(locationData) then Ok(Int(0))
    else if !locationData.Dict? then Err(NoAttribute(locationData, "get"))
    else
      match PyLen(Get(locationData.fields, "locations", List([])))
      case Ok(n) => Ok(Int(n))
      case Err(m) => Err(m)
  }

  /** A location-summary column: `location_data.get(name, default)` for truthy data, else the default. */
  function LocationSummary(locationData: Value, name: string, default: Value): Value
    requires !Truthy(locationData) || locationData.Dict?
  {
    if Truthy(locationData) then Get(locationData.fields, name, default) else default
  }

  /** `_process_biweekly_response` without the appends, once images and locations are done. */
  function BiweeklyRecord(py: Builtins, row: Row, imagePaths: seq<string>): (r: Outcome<BiweeklySurvey>)
    ensures r.Ok? <==>
      ParseJsonField(py, row, "decrypted_data").Dict? && ParseJsonField(py, row, "decrypted_metadata").Dict?
      && LocationCount(ParseJsonField(py, row, "decrypted_location_data")).Ok?
    ensures !ParseJsonField(py, row, "decrypted_data").Dict? ==> r == Err(NoAttribute(ParseJsonField(py, row, "decrypted_data"), "get"))
    ensures ParseJsonField(py, row, "decrypted_data").Dict? && LocationCount(ParseJsonField(py, row, "decrypted_location_data")).Err? ==>
      r == Err(LocationCount(ParseJsonField(py, row, "decrypted_location_data")).msg)
    ensures r.Ok? ==>
      ParseJsonField(py, row, "decrypted_data").Dict? && ParseJsonField(py, row, "decrypted_metadata").Dict?
      && LocationCount(ParseJsonField(py, row, "decrypted_location_data")) == Ok(r.value.locationPointsCount)
      && r.value.ids.responseId == Get(row, "ResponseId", Str(""))
      && r.value.imageFiles == ImageFilesCell(imagePaths)
  {
    var data := ParseJsonField(py, row, "decrypted_data");
    var metadata := ParseJsonField(py, row, "decrypted_metadata");
    var locationData := ParseJsonField(py, row, "decrypted_location_data");
    if !data.Dict? then Err(NoAttribute(data, "get"))
    else
      match LocationCount(locationData)
      case Err(m) => Err(m)
      case Ok(count) =>
        if !metadata.Dict? then Err(NoAttribute(metadata, "get"))
        else
          Ok(BiweeklySurvey(
            SurveyIds(row),
            Copied(data.fields, BiweeklyTextFields, Str("")),
            ParseListField(py, Get(data.fields, "activities", Str("[]"))),
            ImageFilesCell(imagePaths),
            count,
            LocationSummary(locationData, "sharing_option", Str("")),
            LocationSummary(locationData, "user_erased_count", Int(0)),
            LocationSummary(locationData, "collection_period_days", Int(0)),
            Get(metadata.fields, "app_version", Str("")), Get(metadata.fields, "submission_method", Str("")),
            Get(metadata.fields, "has_images", Bool(false)), Get(data.fields, "synced", Int(0))))
  }

  /**
   * When a biweekly record is written, its `location_points_count` is the number
   * of location rows the same row added.
   */
  lemma BiweeklyCountMatchesLocations(py: Builtins, row: Row, imagePaths: seq<string>)
    requires LocationEffect(ParseJsonField(py, row, "decrypted_location_data"), Get(row, "ResponseId", Str(""))).error.None?
    requires BiweeklyRecord(py, row, imagePaths).Ok?
    ensures BiweeklyRecord(py, row, imagePaths).value.locationPointsCount ==
      Int(|LocationEffect(ParseJsonField(py, row, "decrypted_location_data"), Get(row, "ResponseId", Str(""))).records|)
  {
    var locationData := ParseJsonField(py, row, "decrypted_location_data");
    if Truthy(locationData) && "locations" in locationData.fields {
      var locs := locationData.fields["locations"];
      if locs.Dict? {
        assert locs.fields == map[];
      }
    }
  }

  // ---------------------------------------------------------------------------
  // The creator's state as a value, and the effect of each step on it

  /** Everything the creator accumulates. */
  datatype Tables = Tables(
    consent: seq<Consent>, initial: seq<InitialSurvey>, biweekly: seq<BiweeklySurvey>, locations: seq<LocationPoint>,
    filesProcessed: nat, consentResponses: nat, initialResponses: nat, biweeklyResponses: nat,
    locationPoints: nat, imagesProcessed: nat, errors: seq<string>)

  /** Each counter equals the length of its table. */
  predicate CountsMatch(t: Tables) {
    t.consentResponses == |t.consent| && t.initialResponses == |t.initial|
    && t.biweeklyResponses == |t.biweekly| && t.locationPoints == |t.locations|
  }

  function ImagesEffect(t: Tables, r: ImageResult): Tables {
    match r.error
    case Some(m) => t.(errors := t.errors + [m])
    case None => t.(imagesProcessed := t.imagesProcessed + |r.paths|)
  }

  function LocationsEffect(t: Tables, r: LocationResult): Tables {
    t.(locations := t.locations + r.records, locationPoints := t.locationPoints + |r.records|)
  }

  /** The processor's effect and the message of what it raised, if anything. */
  datatype Step = Step(tables: Tables, raised: Option<string>)

  function ConsentEffect(py: Builtins, t: Tables, row: Row): Step {
    match ConsentRecord(py, row)
    case Ok(rec) => Step(t.(consent := t.consent + [rec]), None)
    case Err(m) => Step(t, Some("Failed to process consent response: " + m))
  }

  function InitialEffect(py: Builtins, io: MediaIo, downloadImages: bool, t: Tables, row: Row): Step {
    var images := ProcessImagesResult(py, io, downloadImages, row, "initial");
    var t1 := ImagesEffect(t, images);
    match InitialRecord(py, row, images.paths)
    case Ok(rec) => Step(t1.(initial := t1.initial + [rec]), None)
    case Err(m) => Step(t1, Some("Failed to process initial survey response: " + m))
  }

  function BiweeklyEffect(py: Builtins, io: MediaIo, downloadImages: bool, t: Tables, row: Row): Step {
    var images := ProcessImagesResult(py, io, downloadImages, row, "biweekly");
    var t1 := ImagesEffect(t, images);
    var located := LocationEffect(ParseJsonField(py, row, "decrypted_location_data"), Get(row, "ResponseId", Str("")));
    var t2 := LocationsEffect(t1, located);
    match located.error
    case Some(m) => Step(t2, Some("Failed to process biweekly survey response: " + m))
    case None =>
      match BiweeklyRecord(py, row, images.paths)
      case Ok(rec) => Step(t2.(biweekly := t2.biweekly + [rec]), None)
      case Err(m) => Step(t2, Some("Failed to process biweekly survey response: " + m))
  }

  /**
   * A consent row touches only the consent table, and appends to it exactly
   * when the processor does not raise.
   */
  lemma ConsentStepAppends(py: Builtins, t: Tables, row: Row)
    ensures var s := ConsentEffect(py, t, row);
      s.tables == t.(consent := s.tables.consent)
      && |s.tables.consent| == |t.consent| + (if s.raised.None? then 1 else 0)
      && (s.raised.None? <==> ConsentRecord(py, row).Ok?)
  {
  }

  /**
   * An initial row touches only the initial table, the image counter and the
   * error log; the record is appended exactly when the processor does not raise.
   */
  lemma InitialStepAppends(py: Builtins, io: MediaIo, downloadImages: bool, t: Tables, row: Row)
    ensures var s := InitialEffect(py, io, downloadImages, t, row);
      s.tables == t.(initial := s.tables.initial, imagesProcessed := s.tables.imagesProcessed, errors := s.tables.errors)
      && |s.tables.initial| == |t.initial| + (if s.raised.None? then 1 else 0)
      && |t.errors| <= |s.tables.errors| <= |t.errors| + 1
  {
    var images := ProcessImagesResult(py, io, downloadImages, row, "initial");
    var t1 := ImagesEffect(t, images);
    ImagesEffectFrame(t, images);
    var s := InitialEffect(py, io, downloadImages, t, row);
    if InitialRecord(py, row, images.paths).Ok? {
      assert s.tables == t1.(initial := t1.initial + [InitialRecord(py, row, images.paths).value]);
    } else {
      assert s.tables == t1;
    }
  }

  /** The image step touches only the image counter and the error log, adding at most one error. */
  lemma ImagesEffectFrame(t: Tables, r: ImageResult)
    ensures var t1 := ImagesEffect(t, r);
      t1 == t.(imagesProcessed := t1.imagesProcessed, errors := t1.errors)
      && |t.errors| <= |t1.errors| <= |t.errors| + 1
  {
  }

  /**
   * A biweekly row touches only the biweekly and location tables, the point and
   * image counters and the error log; the points grow with the location table,
   * and the record is appended exactly when the processor does not raise.
   */
  lemma BiweeklyStepAppends(py: Builtins, io: MediaIo, downloadImages: bool, t: Tables, row: Row)
    ensures var s := BiweeklyEffect(py, io, downloadImages, t, row);
      s.tables == t.(biweekly := s.tables.biweekly, locations := s.tables.locations, locationPoints := s.tables.locationPoints,
        imagesProcessed := s.tables.imagesProcessed, errors := s.tables.errors)
      && |s.tables.biweekly| == |t.biweekly| + (if s.raised.None? then 1 else 0)
      && s.tables.locationPoints - |s.tables.locations| == t.locationPoints - |t.locations|
      && |t.errors| <= |s.tables.errors| <= |t.errors| + 1
  {
    var images := ProcessImagesResult(py, io, downloadImages, row, "biweekly");
    var t1 := ImagesEffect(t, images);
    ImagesEffectFrame(t, images);
    var located := LocationEffect(ParseJsonField(py, row, "decrypted_location_data"), Get(row, "ResponseId", Str("")));
    var t2 := LocationsEffect(t1, located);
    var s := BiweeklyEffect(py, io, downloadImages, t, row);
    if located.error.Some? {
      assert s.tables == t2;
    } else if BiweeklyRecord(py, row, images.paths).Ok? {
      assert s.tables == t2.(biweekly := t2.biweekly + [BiweeklyRecord(py, row, images.paths).value]);
    } else {
      assert s.tables == t2;
    }
  }

  /** What the processor the row's type selects does; an unknown type does nothing. */
  function ProcessorStep(py: Builtins, io: MediaIo, downloadImages: bool, t: Tables, row: Row): Step {
    match Dispatch(SurveyTypeOf(py, row))
    case ConsentKind => ConsentEffect(py, t, row)
    case InitialKind => InitialEffect(py, io, downloadImages, t, row)
    case BiweeklyKind => BiweeklyEffect(py, io, downloadImages, t, row)
    case UnknownKind => Step(t, None)
  }

  /** The counter of a survey kind, incremented. */
  function Counted(t: Tables, kind: SurveyKind): Tables {
    match kind
    case ConsentKind => t.(consentResponses := t.consentResponses + 1)
    case InitialKind => t.(initialResponses := t.initialResponses + 1)
    case BiweeklyKind => t.(biweeklyResponses := t.biweeklyResponses + 1)
    case UnknownKind => t
  }

  /** The message logged for a row whose processor raised. */
  function RowError(index: nat, fileName: string, message: string): string {
    "Error processing row " + NatToString(index) + " in " + fileName + ": " + message
  }

  /** One row of `_process_csv_file`: dispatch, then count the row if its processor did not raise, else log it. */
  function RowEffect(py: Builtins, io: MediaIo, downloadImages: bool, t: Tables, row: Row, index: nat, fileName: string): Tables {
    var step := ProcessorStep(py, io, downloadImages, t, row);
    match step.raised
    case Some(m) => step.tables.(errors := step.tables.errors + [RowError(index, fileName, m)])
    case None => Counted(step.tables, Dispatch(SurveyTypeOf(py, row)))
  }

  /** The rows of one file, in order, each at its index. */
  function RowsEffect(py: Builtins, io: MediaIo, downloadImages: bool, t: Tables, rows: seq<Row>, fileName: string): Tables
    decreases |rows|
  {
    if rows == [] then t
    else
      var n := |rows| - 1;
      RowEffect(py, io, downloadImages, RowsEffect(py, io, downloadImages, t, rows[..n], fileName), rows[n], n, fileName)
  }

  /** A row's effect, read off the step its processor took. */
  lemma RowEffectOfStep(py: Builtins, io: MediaIo, downloadImages: bool, t: Tables, row: Row, index: nat, fileName: string, step: Step)
    requires ProcessorStep(py, io, downloadImages, t, row) == step
    ensures step.raised.Some? ==>
      RowEffect(py, io, downloadImages, t, row, index, fileName) == step.tables.(errors := step.tables.errors + [RowError(index, fileName, step.raised.value)])
    ensures step.raised.None? ==>
      RowEffect(py, io, downloadImages, t, row, index, fileName) == Counted(step.tables, Dispatch(SurveyTypeOf(py, row)))
  {
  }

  /** The rows up to and including row i: those before it, then row i at its index. */
  lemma RowsEffectStep(py: Builtins, io: MediaIo, downloadImages: bool, t: Tables, rows: seq<Row>, i: nat, fileName: string)
    requires i < |rows|
    ensures RowsEffect(py, io, downloadImages, t, rows[..i + 1], fileName)
      == RowEffect(py, io, downloadImages, RowsEffect(py, io, downloadImages, t, rows[..i], fileName), rows[i], i, fileName)
  {
    assert rows[..i + 1][..i] == rows[..i];
  }

  /** A row of unknown type changes nothing. */
  lemma UnknownRowIgnored(py: Builtins, io: MediaIo, downloadImages: bool, t: Tables, row: Row, index: nat, fileName: string)
    requires Dispatch(SurveyTypeOf(py, row)) == UnknownKind
    ensures RowEffect(py, io, downloadImages, t, row, index, fileName) == t
  {
  }

  /**
   * Every row keeps each counter equal to its table's length: a record is appended
   * exactly when its counter is incremented, and each location row adds one point.
   * The error log only grows, and the file counter is untouched.
   */
  lemma RowEffectKeepsCounts(py: Builtins, io: MediaIo, downloadImages: bool, t: Tables, row: Row, index: nat, fileName: string)
    ensures CountsMatch(t) ==> CountsMatch(RowEffect(py, io, downloadImages, t, row, index, fileName))
    ensures |RowEffect(py, io, downloadImages, t, row, index, fileName).errors| >= |t.errors|
    ensures RowEffect(py, io, downloadImages, t, row, index, fileName).filesProcessed == t.filesProcessed
  {
    RowEffectOfStep(py, io, downloadImages, t, row, index, fileName, ProcessorStep(py, io, downloadImages, t, row));
    match Dispatch(SurveyTypeOf(py, row))
    case ConsentKind => ConsentStepAppends(py, t, row);
    case InitialKind => InitialStepAppends(py, io, downloadImages, t, row);
    case BiweeklyKind => BiweeklyStepAppends(py, io, downloadImages, t, row);
    case UnknownKind =>
  }

  /**
   * A consent row is counted iff its record could be built; otherwise it logs
   * exactly one error, naming the row and the file, and no counter moves.
   */
  lemma ConsentRowCountedIffRecorded(py: Builtins, io: MediaIo, downloadImages: bool, t: Tables, row: Row, index: nat, fileName: string)
    requires Dispatch(SurveyTypeOf(py, row)) == ConsentKind
    ensures var after := RowEffect(py, io, downloadImages, t, row, index, fileName);
      (after.consentResponses == t.consentResponses + 1 <==> ConsentRecord(py, row).Ok?)
      && (ConsentRecord(py, row).Err? ==>
            after.errors == t.errors + [RowError(index, fileName, "Failed to process consent response: " + ConsentRecord(py, row).msg)]
            && after.consentResponses == t.consentResponses)
      && after.initialResponses == t.initialResponses && after.biweeklyResponses == t.biweeklyResponses
  {
    ConsentStepAppends(py, t, row);
  }

  /** With images switched off, no row moves the image counter. */
  lemma ImagesOffLeaveImageCounter(py: Builtins, io: MediaIo, t: Tables, row: Row, index: nat, fileName: string)
    ensures RowEffect(py, io, false, t, row, index, fileName).imagesProcessed == t.imagesProcessed
  {
    RowEffectOfStep(py, io, false, t, row, index, fileName, ProcessorStep(py, io, false, t, row));
    match Dispatch(SurveyTypeOf(py, row))
    case ConsentKind => ConsentStepAppends(py, t, row);
    case InitialKind => InitialStepAppends(py, io, false, t, row);
    case BiweeklyKind => BiweeklyStepAppends(py, io, false, t, row);
    case UnknownKind =>
  }

  /** Over a whole file the counters keep matching their tables, and errors are only added. */
  lemma {:induction false} RowsEffectKeepsCounts(py: Builtins, io: MediaIo, downloadImages: bool, t: Tables, rows: seq<Row>, fileName: string)
    ensures CountsMatch(t) ==> CountsMatch(RowsEffect(py, io, downloadImages, t, rows, fileName))
    ensures |RowsEffect(py, io, downloadImages, t, rows, fileName).errors| >= |t.errors|
    ensures RowsEffect(py, io, downloadImages, t, rows, fileName).filesProcessed == t.filesProcessed
    decreases |rows|
  {
    if rows != [] {
      var n := |rows| - 1;
      RowsEffectKeepsCounts(py, io, downloadImages, t, rows[..n], fileName);
      RowEffectKeepsCounts(py, io, downloadImages, RowsEffect(py, io, downloadImages, t, rows[..n], fileName), rows[n], n, fileName);
    }
  }

  /** A decrypted export as read from disk, or the error reading it raised. */
  datatype CsvFile = CsvFile(name: string, content: Outcome<seq<Row>>)

  /** One file of `process_all_files`: a read error is logged, otherwise the rows are processed and the file counted. */
  function FileEffect(py: Builtins, io: MediaIo, downloadImages: bool, t: Tables, file: CsvFile): Tables {
    match file.content
    case Err(m) => t.(errors := t.errors + ["Error processing " + file.name + ": " + m])
    case Ok(rows) =>
      var after := RowsEffect(py, io, downloadImages, t, rows, file.name);
      after.(filesProcessed := after.filesProcessed + 1)
  }

  function FilesEffect(py: Builtins, io: MediaIo, downloadImages: bool, t: Tables, files: seq<CsvFile>): Tables
    decreases |files|
  {
    if files == [] then t
    else
      var n := |files| - 1;
      FileEffect(py, io, downloadImages, FilesEffect(py, io, downloadImages, t, files[..n]), files[n])
  }

  /**
   * Every file is either counted as processed or logged as an error, and the
   * counters keep matching their tables across all files.
   */
  lemma {:induction false} FilesAccountedFor(py: Builtins, io: MediaIo, downloadImages: bool, t: Tables, files: seq<CsvFile>)
    ensures CountsMatch(t) ==> CountsMatch(FilesEffect(py, io, downloadImages, t, files))
    ensures var after := FilesEffect(py, io, downloadImages, t, files);
      after.filesProcessed - t.filesProcessed + (|after.errors| - |t.errors|) >= |files|
      && after.filesProcessed <= t.filesProcessed + |files|
    decreases |files|
  {
    if files != [] {
      var n := |files| - 1;
      FilesAccountedFor(py, io, downloadImages, t, files[..n]);
      var mid := FilesEffect(py, io, downloadImages, t, files[..n]);
      if files[n].content.Ok? {
        RowsEffectKeepsCounts(py, io, downloadImages, mid, files[n].content.value, files[n].name);
      }
    }
  }

  // ---------------------------------------------------------------------------
  // The creator

  class SurveyCsvCreator {
    const downloadImages: bool
    var consentData: seq<Consent>
    var initialSurveyData: seq<InitialSurvey>
    var biweeklySurveyData: seq<BiweeklySurvey>
    var locationData: seq<LocationPoint>
    var filesProcessed: nat
    var consentResponses: nat
    var initialResponses: nat
    var biweeklyResponses: nat
    var locationPoints: nat
    var imagesProcessed: nat
    var errors: seq<string>

    function Snapshot(): Tables
      reads this
    {
      Tables(consentData, initialSurveyData, biweeklySurveyData, locationData,
        filesProcessed, consentResponses, initialResponses, biweeklyResponses,
        locationPoints, imagesProcessed, errors)
    }

    /** The counters agree with the tables. */
    predicate Valid()
      reads this
    {
      CountsMatch(Snapshot())
    }

    constructor(downloadImages: bool)
      ensures this.downloadImages == downloadImages
      ensures Snapshot() == Tables([], [], [], [], 0, 0, 0, 0, 0, 0, [])
      ensures Valid()
    {
      this.downloadImages := downloadImages;
      consentData := [];
      initialSurveyData := [];
      biweeklySurveyData := [];
      locationData := [];
      filesProcessed := 0;
      consentResponses := 0;
      initialResponses := 0;
      biweeklyResponses := 0;
      locationPoints := 0;
      imagesProcessed := 0;
      errors := [];
    }

    /** `_process_images`: returns the paths and updates the image counter or the error log. */
    method ProcessImages(py: Builtins, io: MediaIo, row: Row, surveyType: string) returns (paths: seq<string>)
      modifies this
      ensures paths == ProcessImagesResult(py, io, downloadImages, row, surveyType).paths
      ensures Snapshot() == ImagesEffect(old(Snapshot()), ProcessImagesResult(py, io, downloadImages, row, surveyType))
    {
      var result := ProcessImagesResult(py, io, downloadImages, row, surveyType);
      paths := result.paths;
      match result.error {
        case Some(m) => errors := errors + [m];
        case None => imagesProcessed := imagesProcessed + |paths|;
      }
    }

    /**
     * `_process_location_data`: one location row per object in `locations`, in
     * order, each adding a point; a non-object entry raises after the rows before
     * it were appended.
     */
    method ProcessLocationData(locationValue: Value, responseId: Value) returns (raised: Option<string>)
      modifies this
      ensures raised == LocationEffect(locationValue, responseId).error
      ensures Snapshot() == LocationsEffect(old(Snapshot()), LocationEffect(locationValue, responseId))
    {
      var effect := LocationEffect(locationValue, responseId);
      if !Truthy(locationValue) {
        return None;
      }
      var present := PyIn("locations", locationValue);
      if present.Err? {
        return Some(present.msg);
      }
      if !present.value {
        return None;
      }
      if !locationValue.Dict? {
        return Some(NoAttribute(locationValue, "get"));
      }
      var context := locationValue.fields;
      var locations := context["locations"];
      if !locations.List? {
        return effect.error;
      }
      raised := AppendLocationRows(locations.items, responseId, context);
    }

    /**
     * The loop of `_process_location_data` over a list: a row and a point for each
     * object, until the first entry that is not one raises.
     */
    method AppendLocationRows(items: seq<Value>, responseId: Value, context: map<string, Value>) returns (raised: Option<string>)
      modifies this
      ensures var n := LeadingDicts(items);
        raised == (if n < |items| then Some(NoAttribute(items[n], "get")) else None)
      ensures var records := LocationRecords(items[..LeadingDicts(items)], responseId, context);
        Snapshot() == old(Snapshot()).(locations := old(locationData) + records, locationPoints := old(locationPoints) + |records|)
    {
      var n := LeadingDicts(items);
      for i := 0 to n
        invariant locationData == old(locationData) + LocationRecords(items[..i], responseId, context)
        invariant locationPoints == old(locationPoints) + i
        invariant consentData == old(consentData) && initialSurveyData == old(initialSurveyData)
        invariant biweeklySurveyData == old(biweeklySurveyData) && filesProcessed == old(filesProcessed)
        invariant consentResponses == old(consentResponses) && initialResponses == old(initialResponses)
        invariant biweeklyResponses == old(biweeklyResponses) && imagesProcessed == old(imagesProcessed)
        invariant errors == old(errors)
      {
        LocationRecordsStep(items, i, responseId, context);
        locationData := locationData + [LocationRecord(items[i].fields, responseId, context)];
        locationPoints := locationPoints + 1;
      }
      // the first entry that is not an object raises
      if n < |items| {
        return Some(NoAttribute(items[n], "get"));
      }
      return None;
    }

    /** `_process_consent_response`: appends the record, or raises without touching anything. */
    method ProcessConsentResponse(py: Builtins, row: Row) returns (raised: Option<string>)
      modifies this
      ensures Step(Snapshot(), raised) == ConsentEffect(py, old(Snapshot()), row)
    {
      var record := ConsentRecord(py, row);
      if record.Err? {
        return Some("Failed to process consent response: " + record.msg);
      }
      consentData := consentData + [record.value];
      return None;
    }

    /** `_process_initial_response`: images first (their effect stays), then the record or the raise. */
    method ProcessInitialResponse(py: Builtins, io: MediaIo, row: Row) returns (raised: Option<string>)
      modifies this
      ensures Step(Snapshot(), raised) == InitialEffect(py, io, downloadImages, old(Snapshot()), row)
    {
      var imagePaths := ProcessImages(py, io, row, "initial");
      var record := InitialRecord(py, row, imagePaths);
      if record.Err? {
        return Some("Failed to process initial survey response: " + record.msg);
      }
      initialSurveyData := initialSurveyData + [record.value];
      return None;
    }

    /**
     * `_process_biweekly_response`: images, then the location rows (those appended
     * before a failure stay), then the record or the raise.
     */
    method ProcessBiweeklyResponse(py: Builtins, io: MediaIo, row: Row) returns (raised: Option<string>)
      modifies this
      ensures Step(Snapshot(), raised) == BiweeklyEffect(py, io, downloadImages, old(Snapshot()), row)
    {
      var imagePaths := ProcessImages(py, io, row, "biweekly");
      var locationValue := ParseJsonField(py, row, "decrypted_location_data");
      var locationError := ProcessLocationData(locationValue, Get(row, "ResponseId", Str("")));
      if locationError.Some? {
        return Some("Failed to process biweekly survey response: " + locationError.value);
      }
      var record := BiweeklyRecord(py, row, imagePaths);
      if record.Err? {
        return Some("Failed to process biweekly survey response: " + record.msg);
      }
      biweeklySurveyData := biweeklySurveyData + [record.value];
      return None;
    }

    /** The processor the row's type selects. */
    method ProcessRow(py: Builtins, io: MediaIo, row: Row) returns (raised: Option<string>)
      modifies this
      ensures Step(Snapshot(), raised) == ProcessorStep(py, io, downloadImages, old(Snapshot()), row)
    {
      match Dispatch(SurveyTypeOf(py, row)) {
        case ConsentKind => raised := ProcessConsentResponse(py, row);
        case InitialKind => raised := ProcessInitialResponse(py, io, row);
        case BiweeklyKind => raised := ProcessBiweeklyResponse(py, io, row);
        case UnknownKind => raised := None;
      }
    }

    /** One iteration of the row loop: the processor, then the counter or the logged error. */
    method ProcessIndexedRow(py: Builtins, io: MediaIo, row: Row, index: nat, fileName: string)
      modifies this
      ensures Snapshot() == RowEffect(py, io, downloadImages, old(Snapshot()), row, index, fileName)
    {
      ghost var before := Snapshot();
      var raised := ProcessRow(py, io, row);
      RowEffectOfStep(py, io, downloadImages, before, row, index, fileName, Step(Snapshot(), raised));
      if raised.Some? {
        errors := errors + [RowError(index, fileName, raised.value)];
      } else {
        CountRow(Dispatch(SurveyTypeOf(py, row)));
      }
    }

    /** The counter of the row's survey kind goes up by one. */
    method CountRow(kind: SurveyKind)
      modifies this
      ensures Snapshot() == Counted(old(Snapshot()), kind)
    {
      match kind {
        case ConsentKind => consentResponses := consentResponses + 1;
        case InitialKind => initialResponses := initialResponses + 1;
        case BiweeklyKind => biweeklyResponses := biweeklyResponses + 1;
        case UnknownKind =>
      }
    }

    /** `_process_csv_file` once the file is read: every row in order, counted when its processor succeeded. */
    method ProcessCsvFile(py: Builtins, io: MediaIo, rows: seq<Row>, fileName: string)
      modifies this
      ensures Snapshot() == RowsEffect(py, io, downloadImages, old(Snapshot()), rows, fileName)
    {
      for i := 0 to |rows|
        invariant Snapshot() == RowsEffect(py, io, downloadImages, old(Snapshot()), rows[..i], fileName)
      {
        RowsEffectStep(py, io, downloadImages, old(Snapshot()), rows, i, fileName);
        ProcessIndexedRow(py, io, rows[i], i, fileName);
      }
      assert rows[..|rows|] == rows;
    }

    /**
     * `process_all_files`: false when no export was found; otherwise every file,
     * a read error logged and the rest continuing.
     */
    method ProcessAllFiles(py: Builtins, io: MediaIo, files: seq<CsvFile>) returns (ok: bool)
      requires Valid()
      modifies this
      ensures Valid()
      ensures ok <==> files != []
      ensures Snapshot() == FilesEffect(py, io, downloadImages, old(Snapshot()), files)
    {
      if files == [] {
        return false;
      }
      for i := 0 to |files|
        invariant Snapshot() == FilesEffect(py, io, downloadImages, old(Snapshot()), files[..i])
      {
        assert files[..i + 1][..i] == files[..i];
        var file := files[i];
        match file.content {
          case Err(m) => errors := errors + ["Error processing " + file.name + ": " + m];
          case Ok(rows) =>
            ProcessCsvFile(py, io, rows, file.name);
            filesProcessed := filesProcessed + 1;
        }
      }
      assert files[..|files|] == files;
      FilesAccountedFor(py, io, downloadImages, old(Snapshot()), files);
      return true;
    }
  }
}
