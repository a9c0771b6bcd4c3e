/**
 * The automated decryption pipeline: for every survey row it resolves the
 * envelope of the `encrypted_data` cell, unwraps the AES key with RSA, deciphers
 * the payload with the first of three candidate ciphers that yields JSON, and
 * writes either the decrypted fields or a fixed sentinel into the row.
 */
module DecryptionPipeline {
  import opened Text
  import opened Common
  import opened Ciphers
  import RepeatingXor

  // ---------------------------------------------------------------------------
  // Ordered choice

  /** The value of the first attempt that did not raise. */
  function FirstOk<T>(attempts: seq<Outcome<T>>): Option<T>
    decreases |attempts|
  {
    if attempts == [] then None
    else if attempts[0].Ok? then Some(attempts[0].value)
    else FirstOk(attempts[1..])
  }

  /** FirstOk picks the earliest successful attempt, and fails only when all fail. */
  lemma {:induction false} FirstOkIsEarliest<T>(attempts: seq<Outcome<T>>)
    ensures FirstOk(attempts).None? <==> forall i :: 0 <= i < |attempts| ==> attempts[i].Err?
    ensures FirstOk(attempts).Some? ==>
      exists i :: 0 <= i < |attempts| && attempts[i] == Ok(FirstOk(attempts).value)
                  && forall j :: 0 <= j < i ==> attempts[j].Err?
    decreases |attempts|
  {
    if attempts != [] && attempts[0].Err? {
      FirstOkIsEarliest(attempts[1..]);
      if FirstOk(attempts).Some? {
        var i :| 0 <= i < |attempts[1..]| && attempts[1..][i] == Ok(FirstOk(attempts).value)
                 && forall j :: 0 <= j < i ==> attempts[1..][j].Err?;
        assert attempts[i + 1] == Ok(FirstOk(attempts).value);
        assert forall j :: 0 <= j < i + 1 ==> attempts[j].Err? by {
          forall j | 0 <= j < i + 1 ensures attempts[j].Err? {
            if j > 0 { assert attempts[j] == attempts[1..][j - 1]; }
          }
        }
      } else {
        forall i | 0 <= i < |attempts| ensures attempts[i].Err? {
          if i > 0 { assert attempts[i] == attempts[1..][i - 1]; }
        }
      }
    } else if attempts != [] {
      assert attempts[0] == Ok(FirstOk(attempts).value);
    }
  }

  // ---------------------------------------------------------------------------
  // Key unwrap (decrypt_aes_key)

  /** The RSA plaintext is base64 text: `b64decode(plaintext.decode('utf-8'))`. */
  function KeyFromPlaintext(py: Builtins, plaintext: Outcome<Bytes>): Outcome<Bytes> {
    match plaintext
    case Err(m) => Err(m)
    case Ok(pt) =>
      match py.utf8Decode(pt)
      case Err(m) => Err(m)
      case Ok(text) => py.b64decode(text)
  }

  /**
   * `decrypt_aes_key`: base64-decode the wrapped key, try RSA-OAEP(SHA-256) and fall
   * back to RSA-PKCS1-v1_5 when any step of the OAEP branch raises; both branches
   * base64-decode the RSA plaintext again. Every failure gives None.
   * A non-string key makes `b64decode` raise TypeError.
   */
  function DecryptAesKey(py: Builtins, c: Crypto, encryptedKey: Value): (r: Option<Bytes>)
    ensures !encryptedKey.Str? ==> r.None?
    ensures encryptedKey.Str? && py.b64decode(encryptedKey.s).Err? ==> r.None?
    ensures encryptedKey.Str? && py.b64decode(encryptedKey.s).Ok? ==>
      var wrapped := py.b64decode(encryptedKey.s).value;
      r == FirstOk([KeyFromPlaintext(py, c.oaepDecrypt(wrapped)), KeyFromPlaintext(py, c.pkcs1Decrypt(wrapped))])
  {
    if !encryptedKey.Str? then None
    else
      match py.b64decode(encryptedKey.s)
      case Err(_) => None
      case Ok(wrapped) =>
        var oaep, pkcs1 := KeyFromPlaintext(py, c.oaepDecrypt(wrapped)), KeyFromPlaintext(py, c.pkcs1Decrypt(wrapped));
        assert [oaep, pkcs1][1..] == [pkcs1] && [pkcs1][1..] == [];
        assert FirstOk([pkcs1]) == (if pkcs1.Ok? then Some(pkcs1.value) else FirstOk([]));
        assert FirstOk([oaep, pkcs1]) == (if oaep.Ok? then Some(oaep.value) else FirstOk([pkcs1]));
        match oaep
        case Ok(key) => Some(key)
        case Err(_) =>
          match pkcs1
          case Ok(key) => Some(key)
          case Err(_) => None
  }

  /** PKCS1-v1_5 is consulted only when the whole OAEP branch raised. */
  lemma OaepTakesPrecedence(py: Builtins, c: Crypto, s: string, wrapped: Bytes)
    requires py.b64decode(s) == Ok(wrapped)
    ensures KeyFromPlaintext(py, c.oaepDecrypt(wrapped)).Ok? ==>
      DecryptAesKey(py, c, Str(s)) == Some(KeyFromPlaintext(py, c.oaepDecrypt(wrapped)).value)
    ensures KeyFromPlaintext(py, c.oaepDecrypt(wrapped)).Err? && KeyFromPlaintext(py, c.pkcs1Decrypt(wrapped)).Ok? ==>
      DecryptAesKey(py, c, Str(s)) == Some(KeyFromPlaintext(py, c.pkcs1Decrypt(wrapped)).value)
    ensures DecryptAesKey(py, c, Str(s)).None? <==>
      KeyFromPlaintext(py, c.oaepDecrypt(wrapped)).Err? && KeyFromPlaintext(py, c.pkcs1Decrypt(wrapped)).Err?
  {
    var attempts := [KeyFromPlaintext(py, c.oaepDecrypt(wrapped)), KeyFromPlaintext(py, c.pkcs1Decrypt(wrapped))];
    FirstOkIsEarliest(attempts);
  }

  // ---------------------------------------------------------------------------
  // Payload decipher (decrypt_location_data)

  const GcmNonceBytes := 12
  const GcmTagBytes := 16
  const CbcIvBytes := 16

  /** `nonce = data[:12]`, `tag = data[-16:]`, `ciphertext = data[12:-16]`. */
  function GcmSplit(data: Bytes): (parts: (Bytes, Bytes, Bytes))
    requires |data| >= GcmNonceBytes + GcmTagBytes
    ensures |parts.0| == GcmNonceBytes && |parts.2| == GcmTagBytes
    ensures parts.0 + parts.1 + parts.2 == data
  {
    (data[..GcmNonceBytes], data[GcmNonceBytes..|data| - GcmTagBytes], data[|data| - GcmTagBytes..])
  }

  /** `iv = data[:16]`, `ciphertext = data[16:]`. */
  function CbcSplit(data: Bytes): (parts: (Bytes, Bytes))
    requires |data| > CbcIvBytes
    ensures |parts.0| == CbcIvBytes && |parts.1| > 0
    ensures parts.0 + parts.1 == data
  {
    (data[..CbcIvBytes], data[CbcIvBytes..])
  }

  /**
   * `padded[:-padded[-1]]`: drops as many trailing bytes as the last byte says and
   * checks nothing else. A last byte of 0 gives `padded[:-0]`, the empty slice, and
   * a last byte at least the length also gives the empty slice.
   */
  function UnpadUnchecked(padded: Bytes): (r: Bytes)
    requires |padded| > 0
    ensures |r| < |padded| && r == padded[..|r|]
    ensures padded[|padded| - 1] == 0 ==> r == []
    ensures 0 < padded[|padded| - 1] as int <= |padded| ==> |r| == |padded| - padded[|padded| - 1] as int
    ensures padded[|padded| - 1] as int > |padded| ==> r == []
  {
    var n := padded[|padded| - 1] as int;
    if n == 0 || n >= |padded| then [] else padded[..|padded| - n]
  }

  /** On correctly padded input the unchecked unpad agrees with the library's unpadder. */
  lemma UnpadUncheckedAgreesWhenWellPadded(padded: Bytes)
    requires WellPadded(padded)
    ensures Pkcs7Unpad(padded) == Ok(UnpadUnchecked(padded))
  {
  }

  /**
   * Only the last byte is read: two buffers of the same length with the same last
   * byte and the same kept prefix unpad alike, whatever the other pad bytes hold.
   */
  lemma UnpadUncheckedReadsOnlyLastByte(padded: Bytes, other: Bytes)
    requires |padded| == |other| > 0 && padded[|padded| - 1] == other[|other| - 1]
    requires forall k :: 0 <= k < |padded| - padded[|padded| - 1] as int ==> padded[k] == other[k]
    ensures UnpadUnchecked(padded) == UnpadUnchecked(other)
  {
    var n := padded[|padded| - 1] as int;
    if 0 < n < |padded| {
      assert padded[..|padded| - n] == other[..|other| - n];
    }
  }

  /** Candidate 1: repeating-key XOR, then UTF-8, then JSON. */
  function XorCandidate(py: Builtins, data: Bytes, key: Bytes): Outcome<Value> {
    match RepeatingXor.XorDecipher(data, key)
    case Err(m) => Err(m)
    case Ok(plain) => DecodeJson(py, plain)
  }

  /** Candidate 2: AES-GCM over nonce(12) ‖ ciphertext ‖ tag(16), tried only from 28 bytes on. */
  function GcmCandidate(py: Builtins, c: Crypto, data: Bytes, key: Bytes): Outcome<Value> {
    if |data| < GcmNonceBytes + GcmTagBytes then Err("shorter than nonce and tag")
    else
      var (nonce, ciphertext, tag) := GcmSplit(data);
      match c.gcmDecrypt(key, nonce, ciphertext, tag)
      case Err(m) => Err(m)
      case Ok(plain) => DecodeJson(py, plain)
  }

  /** Candidate 3: AES-CBC over iv(16) ‖ ciphertext, tried only above 16 bytes, unchecked unpad. */
  function CbcCandidate(py: Builtins, c: Crypto, data: Bytes, key: Bytes): Outcome<Value> {
    if |data| <= CbcIvBytes then Err("not longer than the IV")
    else
      var (iv, ciphertext) := CbcSplit(data);
      match c.cbcDecrypt(key, iv, ciphertext)
      case Err(m) => Err(m)
      case Ok(padded) =>
        if padded == [] then Err("index out of range")
        else DecodeJson(py, UnpadUnchecked(padded))
  }

  /**
   * `decrypt_location_data`: base64-decode, then XOR, AES-GCM and AES-CBC in that
   * order; the first whose output parses as JSON is returned. Exhausting the
   * candidates, or a base64 failure (including a non-string input), gives None.
   */
  function DecryptLocationData(py: Builtins, c: Crypto, encryptedData: Value, key: Bytes): (r: Option<Value>)
    ensures !encryptedData.Str? || py.b64decode(encryptedData.s).Err? ==> r.None?
    ensures encryptedData.Str? && py.b64decode(encryptedData.s).Ok? ==>
      var data := py.b64decode(encryptedData.s).value;
      r == FirstOk([XorCandidate(py, data, key), GcmCandidate(py, c, data, key), CbcCandidate(py, c, data, key)])
  {
    if !encryptedData.Str? then None
    else
      match py.b64decode(encryptedData.s)
      case Err(_) => None
      case Ok(data) =>
        var xor, gcm, cbc := XorCandidate(py, data, key), GcmCandidate(py, c, data, key), CbcCandidate(py, c, data, key);
        assert [xor, gcm, cbc][1..] == [gcm, cbc] && [gcm, cbc][1..] == [cbc] && [cbc][1..] == [];
        assert FirstOk([cbc]) == (if cbc.Ok? then Some(cbc.value) else FirstOk([]));
        assert FirstOk([gcm, cbc]) == (if gcm.Ok? then Some(gcm.value) else FirstOk([cbc]));
        assert FirstOk([xor, gcm, cbc]) == (if xor.Ok? then Some(xor.value) else FirstOk([gcm, cbc]));
        match xor
        case Ok(v) => Some(v)
        case Err(_) =>
          match gcm
          case Ok(v) => Some(v)
          case Err(_) =>
            match cbc
            case Ok(v) => Some(v)
            case Err(_) => None
  }

  /** The guards: AES-GCM never decides below 28 bytes, AES-CBC never at 16 bytes or fewer. */
  lemma DecipherGuards(py: Builtins, c: Crypto, s: string, data: Bytes, key: Bytes)
    requires py.b64decode(s) == Ok(data)
    ensures |data| <= 16 ==>
      DecryptLocationData(py, c, Str(s), key) == (match XorCandidate(py, data, key) case Ok(v) => Some(v) case Err(_) => None)
    ensures (|data| < 28 && XorCandidate(py, data, key).Err?) ==>
      DecryptLocationData(py, c, Str(s), key) == (match CbcCandidate(py, c, data, key) case Ok(v) => Some(v) case Err(_) => None)
    ensures DecryptLocationData(py, c, Str(s), key).Some? ==>
      XorCandidate(py, data, key).Ok? || (|data| >= 28 && GcmCandidate(py, c, data, key).Ok?) || (|data| > 16 && CbcCandidate(py, c, data, key).Ok?)
  {
    FirstOkIsEarliest([XorCandidate(py, data, key), GcmCandidate(py, c, data, key), CbcCandidate(py, c, data, key)]);
  }

  // ---------------------------------------------------------------------------
  // Survey configuration

  datatype SurveyConfig = SurveyConfig(encryptedDataColumn: string, locationColumn: Option<string>, outputPrefix: string)

  const EncryptedDataColumn := "encrypted_data"

  /** The survey types the pipeline knows, and the suffix of their output files. */
  const InitialType := "initial"
  const BiweeklyType := "biweekly"
  const ConsentType := "consent"
  const DecryptedSuffix := "_decrypted"

  /** The configurations of the three known survey types. */
  const KnownConfigs: map<string, SurveyConfig> := map[
    InitialType := SurveyConfig(EncryptedDataColumn, None, InitialType + DecryptedSuffix),
    BiweeklyType := SurveyConfig(EncryptedDataColumn, Some(EncryptedDataColumn), BiweeklyType + DecryptedSuffix),
    ConsentType := SurveyConfig(EncryptedDataColumn, None, ConsentType + DecryptedSuffix)]

  /**
   * The configuration used for a survey type: a known one, else a default with
   * prefix `<type>_decrypted`. Every type reads `encrypted_data`, and only
   * biweekly surveys carry location data.
   */
  function ConfigFor(surveyType: string): (cfg: SurveyConfig)
    ensures cfg.encryptedDataColumn == EncryptedDataColumn
    ensures cfg.outputPrefix == surveyType + DecryptedSuffix
    ensures cfg.locationColumn.Some? <==> surveyType == BiweeklyType
    ensures cfg.locationColumn.Some? ==> cfg.locationColumn.value == cfg.encryptedDataColumn
  {
    if surveyType in KnownConfigs then KnownConfigs[surveyType]
    else SurveyConfig(EncryptedDataColumn,
                      if surveyType == BiweeklyType then Some(EncryptedDataColumn) else None,
                      surveyType + DecryptedSuffix)
  }

  // ---------------------------------------------------------------------------
  // Location points (_extract_location_points)

  datatype LocationPoint = LocationPoint(
    responseId: Value, pointSequence: nat,
    timestamp: Value, latitude: Value, longitude: Value, accuracy: Value, altitude: Value,
    speed: Value, heading: Value, provider: Value, batteryLevel: Value, isMock: Value)

  /** One output point from one location dict; every missing field reads ''. */
  function PointOf(loc: map<string, Value>, sequence: nat, responseId: Value): LocationPoint {
    var e := Str("");
    LocationPoint(responseId, sequence,
      Get(loc, "timestamp", e), Get(loc, "latitude", e), Get(loc, "longitude", e),
      Get(loc, "accuracy", e), Get(loc, "altitude", e), Get(loc, "speed", e),
      Get(loc, "heading", e), Get(loc, "provider", e), Get(loc, "batteryLevel", e), Get(loc, "isMock", e))
  }

  function CountDicts(items: seq<Value>): nat
    decreases |items|
  {
    if items == [] then 0 else (if items[0].Dict? then 1 else 0) + CountDicts(items[1..])
  }

  /**
   * The points of `items`, which start at original index `offset`: one per dict
   * entry, in order, numbered by original index + 1; other entries are skipped.
   */
  function PointsFrom(items: seq<Value>, offset: nat, responseId: Value): (r: seq<LocationPoint>)
    ensures |r| == CountDicts(items)
    ensures forall k :: 0 <= k < |r| ==>
      offset < r[k].pointSequence <= offset + |items|
      && items[r[k].pointSequence - offset - 1].Dict?
      && r[k] == PointOf(items[r[k].pointSequence - offset - 1].fields, r[k].pointSequence, responseId)
    ensures forall k, l :: 0 <= k < l < |r| ==> r[k].pointSequence < r[l].pointSequence
    decreases |items|
  {
    if items == [] then []
    else
      var rest := PointsFrom(items[1..], offset + 1, responseId);
      if items[0].Dict? then [PointOf(items[0].fields, offset + 1, responseId)] + rest else rest
  }

  /** `_extract_location_points`: points only from a dict whose `locationData` is a list. */
  function ExtractLocationPoints(decrypted: Value, responseId: Value): (r: seq<LocationPoint>)
    ensures r != [] ==> decrypted.Dict? && "locationData" in decrypted.fields && decrypted.fields["locationData"].List?
    ensures decrypted.Dict? && "locationData" in decrypted.fields && decrypted.fields["locationData"].List? ==>
      |r| == CountDicts(decrypted.fields["locationData"].items)
  {
    if decrypted.Dict? && "locationData" in decrypted.fields && decrypted.fields["locationData"].List?
    then PointsFrom(decrypted.fields["locationData"].items, 0, responseId)
    else []
  }

  // ---------------------------------------------------------------------------
  // One record (the body of the row loop of _process_survey_group)

  const DirectPrefix := "{\"encryptedData\""
  /** The base64 text of a JSON object starts with `eyJ`, the encoding of `{"` (section 4 of RFC 4648). */
  const Base64Prefix := "eyJ"

  /** What happened to an encrypted cell. */
  datatype Decryption =
    | Untouched                     // the package lacks a truthy encryptedData or encryptedKey
    | KeyFailed
    | DataFailed
    | Failed(message: string)       // an exception was raised and caught
    | Decrypted(payload: map<string, Value>, summaryLength: nat, points: seq<LocationPoint>)

  /**
   * The package parsed from the cell: text opening with the direct prefix is read
   * as JSON; any other text is base64-decoded, then decoded as UTF-8, then read
   * as JSON, and the first step that fails gives the error.
   */
  function ParseEnvelope(py: Builtins, s: string): (r: Outcome<Value>)
    ensures StartsWith(s, DirectPrefix) ==> r == py.jsonLoads(s)
    ensures !StartsWith(s, DirectPrefix) && py.b64decode(s).Err? ==> r == Err(py.b64decode(s).msg)
    ensures !StartsWith(s, DirectPrefix) && py.b64decode(s).Ok? && py.utf8Decode(py.b64decode(s).value).Err? ==>
      r == Err(py.utf8Decode(py.b64decode(s).value).msg)
    ensures !StartsWith(s, DirectPrefix) && py.b64decode(s).Ok? && py.utf8Decode(py.b64decode(s).value).Ok? ==>
      r == py.jsonLoads(py.utf8Decode(py.b64decode(s).value).value)
  {
    if StartsWith(s, DirectPrefix) then py.jsonLoads(s)
    else
      match py.b64decode(s)
      case Err(m) => Err(m)
      case Ok(b) => DecodeJson(py, b)
  }

  /**
   * The try block of the encrypted branch. A package that is not a dict has no
   * `get`; a key that decodes to no bytes and a payload that is falsy (`{}`, `[]`,
   * `0`, `""`, `null`) count as failures; a truthy payload that is not a dict
   * raises on `in` or on `items()`.
   */
  function DecryptPackage(py: Builtins, c: Crypto, cfg: SurveyConfig, s: string, responseId: Value): (d: Decryption)
    ensures d.Decrypted? ==> d.payload != map[]
    ensures d.Decrypted? && d.points != [] ==> cfg.locationColumn == Some(cfg.encryptedDataColumn)
    // an envelope that does not parse, or parses to something other than a dict, raises
    ensures ParseEnvelope(py, s).Err? ==> d == Failed(ParseEnvelope(py, s).msg)
    ensures ParseEnvelope(py, s).Ok? && !ParseEnvelope(py, s).value.Dict? ==>
      d == Failed(NoAttribute(ParseEnvelope(py, s).value, "get"))
    // a dict package: left alone without both parts, else the key, then the payload
    ensures ParseEnvelope(py, s).Ok? && ParseEnvelope(py, s).value.Dict? ==>
      var pkg := ParseEnvelope(py, s).value.fields;
      (d.Untouched? <==> !Wrapped(pkg))
      && (Wrapped(pkg) ==> (d.KeyFailed? <==> !UsableKey(DecryptAesKey(py, c, Get(pkg, "encryptedKey", Null)))))
    ensures ParseEnvelope(py, s).Ok? && ParseEnvelope(py, s).value.Dict? ==>
      var pkg := ParseEnvelope(py, s).value.fields;
      var key := DecryptAesKey(py, c, Get(pkg, "encryptedKey", Null));
      Wrapped(pkg) && UsableKey(key) ==>
        var payload := DecryptLocationData(py, c, Get(pkg, "encryptedData", Null), key.value);
        (d.DataFailed? <==> payload.None? || !Truthy(payload.value))
        && (payload.Some? && Truthy(payload.value) ==> PayloadOutcome(py, cfg, payload.value, responseId, d))
  {
    match ParseEnvelope(py, s)
    case Err(m) => Failed(m)
    case Ok(package) =>
      if !package.Dict? then Failed(NoAttribute(package, "get"))
      else
        var encryptedData := Get(package.fields, "encryptedData", Null);
        var encryptedKey := Get(package.fields, "encryptedKey", Null);
        if !(Truthy(encryptedData) && Truthy(encryptedKey)) then Untouched
        else
          match DecryptAesKey(py, c, encryptedKey)
          case None => KeyFailed
          case Some(key) =>
            if key == [] then KeyFailed
            else
              match DecryptLocationData(py, c, encryptedData, key)
              case None => DataFailed
              case Some(payload) =>
                if !Truthy(payload) then DataFailed
                else
                  var wantsLocations := cfg.locationColumn == Some(cfg.encryptedDataColumn);
                  if wantsLocations && PyIn("locationData", payload).Err? then Failed(PyIn("locationData", payload).msg)
                  else if !payload.Dict? then Failed(NoAttribute(payload, "items"))
                  else
                    var points := if wantsLocations && "locationData" in payload.fields
                                  then ExtractLocationPoints(payload, responseId) else [];
                    Decrypted(payload.fields, |PyStr(py, payload)|, points)
  }

  /** Both parts of a hybrid package are present and truthy. */
  predicate Wrapped(pkg: map<string, Value>) {
    Truthy(Get(pkg, "encryptedData", Null)) && Truthy(Get(pkg, "encryptedKey", Null))
  }

  /** A key that `if aes_key:` accepts: one was recovered, and it has bytes. */
  predicate UsableKey(key: Option<Bytes>) {
    key.Some? && key.value != []
  }

  /**
   * What a truthy decrypted payload leads to: a dict is a success that summarises
   * its text length and carries its points when the column holds locations; any
   * other value raises, on `in` when it is not a container and otherwise on `items`.
   */
  predicate PayloadOutcome(py: Builtins, cfg: SurveyConfig, payload: Value, responseId: Value, d: Decryption) {
    var wantsLocations := cfg.locationColumn == Some(cfg.encryptedDataColumn);
    if payload.Dict? then
      d == Decrypted(payload.fields, |PyStr(py, payload)|,
                     if wantsLocations && "locationData" in payload.fields then ExtractLocationPoints(payload, responseId) else [])
    else if wantsLocations && PyIn("locationData", payload).Err? then d == Failed(PyIn("locationData", payload).msg)
    else d == Failed(NoAttribute(payload, "items"))
  }

  const DecryptedPrefix := "decrypted_"

  /** The payload keys that are copied into the row, as row keys. */
  function CopiedKeys(payload: map<string, Value>): set<string> {
    set p | p in payload.Keys && p != "locationData" :: DecryptedPrefix + p
  }

  /** Copies every payload key except `locationData` into the row as `decrypted_<key>`. */
  function CopyDecryptedFields(row: Row, payload: map<string, Value>): (r: Row)
    ensures r.Keys == row.Keys + CopiedKeys(payload)
    ensures forall p :: p in payload && p != "locationData" ==> r[DecryptedPrefix + p] == payload[p]
    ensures forall k :: k in row && !StartsWith(k, DecryptedPrefix) ==> r[k] == row[k]
  {
    map k | k in row.Keys + CopiedKeys(payload) ::
      if StartsWith(k, DecryptedPrefix) && k[|DecryptedPrefix|..] in payload && k[|DecryptedPrefix|..] != "locationData"
      then payload[k[|DecryptedPrefix|..]]
      else row[k]
  }

  /**
   * The text written over a processed cell. Each outcome has its own marker, an
   * error keeps at most 100 characters of its message, and a success gives the
   * length of the payload's text.
   */
  function Sentinel(d: Decryption): (cell: Value)
    requires !d.Untouched?
    ensures cell.Str?
    ensures d.Failed? ==> StartsWith(cell.s, ErrorMarker) && |cell.s| <= |ErrorMarker| + 100
    ensures d.Decrypted? ==>
      StartsWith(cell.s, DecryptedMarker) && EndsWith(cell.s, CharsMarker)
      && |cell.s| > |DecryptedMarker| + |CharsMarker|
      && (forall i :: |DecryptedMarker| <= i < |cell.s| - |CharsMarker| ==> IsDigit(cell.s[i]))
      && DigitsValue(cell.s[|DecryptedMarker|..|cell.s| - |CharsMarker|]) == d.summaryLength
  {
    match d
    case KeyFailed => Str("KEY_DECRYPTION_FAILED")
    case DataFailed => Str("DECRYPTION_FAILED")
    case Failed(m) => Str(ErrorMarker + Take(m, 100))
    case Decrypted(_, n, _) =>
      var digits := NatToString(n);
      NatToStringRoundTrip(n);
      assert (DecryptedMarker + digits + CharsMarker)[|DecryptedMarker|..|DecryptedMarker| + |digits|] == digits;
      Str(DecryptedMarker + digits + CharsMarker)
  }

  const ErrorMarker := "PROCESSING_ERROR: "
  const DecryptedMarker := "DECRYPTED: "
  const CharsMarker := " chars"

  /** Different outcomes leave different cells, so the cell tells which outcome it was. */
  lemma SentinelsDistinct(d: Decryption, e: Decryption)
    requires !d.Untouched? && !e.Untouched?
    requires d.KeyFailed? != e.KeyFailed? || d.DataFailed? != e.DataFailed? || d.Failed? != e.Failed?
    ensures Sentinel(d) != Sentinel(e)
  {
    SentinelHead(d);
    SentinelHead(e);
  }

  /** The first and eighth characters of each marker: K/R, D/I, P/I and D/E. */
  function HeadOf(d: Decryption): (char, char) {
    match d
    case KeyFailed => ('K', 'R')
    case DataFailed => ('D', 'I')
    case Failed(_) => ('P', 'I')
    case _ => ('D', 'E')
  }

  lemma SentinelHead(d: Decryption)
    requires !d.Untouched?
    ensures |Sentinel(d).s| >= 8 && (Sentinel(d).s[0], Sentinel(d).s[7]) == HeadOf(d)
  {
    match d
    case KeyFailed =>
    case DataFailed =>
    case Failed(m) =>
      assert Sentinel(d).s[..|ErrorMarker|] == ErrorMarker;
    case Decrypted(_, _, _) =>
      assert Sentinel(d).s[..|DecryptedMarker|] == DecryptedMarker;
  }

  datatype RecordResult = RecordResult(row: Row, points: seq<LocationPoint>)

  /** The cell is a string opening with one of the two envelope prefixes. */
  predicate Enveloped(row: Row, column: string) {
    column in row && row[column].Str? && (StartsWith(row[column].s, DirectPrefix) || StartsWith(row[column].s, Base64Prefix))
  }

  /** `response_data.get('ResponseId', f'row_{idx}')` */
  function ResponseIdOf(row: Row, index: nat): Value {
    Get(row, "ResponseId", Str("row_" + NatToString(index)))
  }

  /** `setdefault('encrypted_data_hash', sha256(cell))` for a non-empty string cell. */
  function WithHash(py: Builtins, row: Row, column: string): (r: Row)
    ensures r.Keys >= row.Keys
    ensures forall k :: k in row ==> r[k] == row[k]
  {
    if column in row && row[column].Str? && row[column].s != "" && "encrypted_data_hash" !in row
    then row["encrypted_data_hash" := Str(py.sha256Hex(row[column].s))]
    else row
  }

  /** The row once its package's outcome is known: the cell's marker, and on success the copied fields and the points. */
  function Rewritten(cfg: SurveyConfig, hashed: Row, d: Decryption): (res: RecordResult)
    ensures res.row.Keys >= hashed.Keys
    ensures forall k :: k in hashed && k != cfg.encryptedDataColumn && !StartsWith(k, DecryptedPrefix) ==> res.row[k] == hashed[k]
    ensures res.points != [] ==> d.Decrypted? && res.points == d.points
  {
    var column := cfg.encryptedDataColumn;
    if d.Untouched? then RecordResult(hashed, [])
    else if d.Decrypted? then RecordResult(CopyDecryptedFields(hashed[column := Sentinel(d)], d.payload), d.points)
    else RecordResult(hashed[column := Sentinel(d)], [])
  }

  /**
   * One row of `_process_survey_group`, at position `index` in its group. The
   * output row is the input row with the hash set by default, then the cell
   * rewritten according to its envelope.
   */
  function ProcessRecord(py: Builtins, c: Crypto, cfg: SurveyConfig, row: Row, index: nat): (res: RecordResult)
    ensures res.row.Keys >= row.Keys
    ensures forall k :: k in row && k != cfg.encryptedDataColumn && !StartsWith(k, DecryptedPrefix) ==> res.row[k] == row[k]
    ensures res.points != [] ==> cfg.locationColumn == Some(cfg.encryptedDataColumn)
  {
    var column := cfg.encryptedDataColumn;
    var hashed := WithHash(py, row, column);
    if !(column in row && Truthy(row[column])) then RecordResult(hashed, [])
    else
      match row[column]
      case Str(s) =>
        if StartsWith(s, DirectPrefix) || StartsWith(s, Base64Prefix) then
          Rewritten(cfg, hashed, DecryptPackage(py, c, cfg, s, ResponseIdOf(row, index)))
        else RecordResult(hashed[column := Str("NON_ENCRYPTED: " + Take(s, 50) + "...")], [])
      case _ => RecordResult(hashed, [])
  }

  /**
   * An enveloped cell: the outcome of its package decides the row. Left alone,
   * only the hash is added; on a failure the cell is replaced by the outcome's
   * marker; on a success the payload's fields are copied in as well and its
   * points are returned.
   */
  lemma EnvelopedOutcome(py: Builtins, c: Crypto, cfg: SurveyConfig, row: Row, index: nat)
    requires Enveloped(row, cfg.encryptedDataColumn)
    ensures var column := cfg.encryptedDataColumn;
      var d := DecryptPackage(py, c, cfg, row[column].s, ResponseIdOf(row, index));
      var res := ProcessRecord(py, c, cfg, row, index);
      (d.Untouched? ==> res == RecordResult(WithHash(py, row, column), []))
      && (!d.Untouched? && !d.Decrypted? ==> res == RecordResult(WithHash(py, row, column)[column := Sentinel(d)], []))
      && (d.Decrypted? ==>
            res.row == CopyDecryptedFields(WithHash(py, row, column)[column := Sentinel(d)], d.payload) && res.points == d.points)
      && (!d.Untouched? && !StartsWith(column, DecryptedPrefix) ==> res.row[column] == Sentinel(d))
  {
    var column := cfg.encryptedDataColumn;
    assert Truthy(row[column]);
    var d := DecryptPackage(py, c, cfg, row[column].s, ResponseIdOf(row, index));
    if d.Decrypted? {
      var hashed := WithHash(py, row, column);
      assert column in hashed[column := Sentinel(d)];
    }
  }

  /** A cell that is not a string is left alone, and no hash is added for it. */
  lemma NonStringCellUntouched(py: Builtins, c: Crypto, cfg: SurveyConfig, row: Row, index: nat)
    requires cfg.encryptedDataColumn in row && !row[cfg.encryptedDataColumn].Str?
    ensures ProcessRecord(py, c, cfg, row, index) == RecordResult(row, [])
  {
  }

  /** A non-empty string with neither envelope prefix is marked, keeping its first 50 characters. */
  lemma PlainStringMarked(py: Builtins, c: Crypto, cfg: SurveyConfig, row: Row, index: nat, s: string)
    requires cfg.encryptedDataColumn in row && row[cfg.encryptedDataColumn] == Str(s) && s != ""
    requires !StartsWith(s, DirectPrefix) && !StartsWith(s, Base64Prefix)
    ensures ProcessRecord(py, c, cfg, row, index).row[cfg.encryptedDataColumn] == Str("NON_ENCRYPTED: " + Take(s, 50) + "...")
    ensures "encrypted_data_hash" in ProcessRecord(py, c, cfg, row, index).row
    ensures ProcessRecord(py, c, cfg, row, index).points == []
  {
  }

  /** A payload that decrypts to an empty object is reported as a decryption failure. */
  lemma EmptyPayloadFails(py: Builtins, c: Crypto, cfg: SurveyConfig, s: string, responseId: Value,
                          package: map<string, Value>, key: Bytes)
    requires ParseEnvelope(py, s) == Ok(Dict(package))
    requires "encryptedData" in package && "encryptedKey" in package
    requires Truthy(package["encryptedData"]) && Truthy(package["encryptedKey"])
    requires DecryptAesKey(py, c, package["encryptedKey"]) == Some(key) && key != []
    requires DecryptLocationData(py, c, package["encryptedData"], key) == Some(Dict(map[]))
    ensures DecryptPackage(py, c, cfg, s, responseId) == DataFailed
  {
  }

  /** Points of the rows before `n`, in row order. */
  function GroupPoints(py: Builtins, c: Crypto, cfg: SurveyConfig, rows: seq<Row>, n: nat): seq<LocationPoint>
    requires n <= |rows|
  {
    if n == 0 then [] else GroupPoints(py, c, cfg, rows, n - 1) + ProcessRecord(py, c, cfg, rows[n - 1], n - 1).points
  }

  /**
   * `_process_survey_group`: every input row yields exactly one output row, in
   * input order, and the location points of all rows are concatenated in order.
   * Returns the two counts the caller adds to its totals.
   */
  method ProcessSurveyGroup(py: Builtins, c: Crypto, cfg: SurveyConfig, rows: seq<Row>)
    returns (out: seq<Row>, points: seq<LocationPoint>)
    ensures |out| == |rows|
    ensures forall i :: 0 <= i < |rows| ==> out[i] == ProcessRecord(py, c, cfg, rows[i], i).row
    ensures points == GroupPoints(py, c, cfg, rows, |rows|)
    ensures points != [] ==> cfg.locationColumn == Some(cfg.encryptedDataColumn)
  {
    out, points := [], [];
    var idx := 0;
    while idx < |rows|
      invariant 0 <= idx <= |rows|
      invariant |out| == idx
      invariant forall i :: 0 <= i < idx ==> out[i] == ProcessRecord(py, c, cfg, rows[i], i).row
      invariant points == GroupPoints(py, c, cfg, rows, idx)
      invariant points != [] ==> cfg.locationColumn == Some(cfg.encryptedDataColumn)
    {
      var res := ProcessRecord(py, c, cfg, rows[idx], idx);
      out := out + [res.row];
      points := points + res.points;
      idx := idx + 1;
    }
  }

  // ---------------------------------------------------------------------------
  // Per-file totals (process_csv_file and self.results)

  /** The outcome of reading one CSV: the groups of `df.groupby('survey_type')`. */
  datatype CsvInput =
    | NotFound
    | NoSurveyTypeColumn
    | ReadError(message: string)
    | Groups(groups: seq<(string, seq<Row>)>)

  function TotalRows(groups: seq<(string, seq<Row>)>): nat
    decreases |groups|
  {
    if groups == [] then 0 else TotalRows(groups[..|groups| - 1]) + |groups[|groups| - 1].1|
  }

  function TotalPoints(py: Builtins, c: Crypto, groups: seq<(string, seq<Row>)>): nat
    decreases |groups|
  {
    if groups == [] then 0
    else
      var (t, rows) := groups[|groups| - 1];
      TotalPoints(py, c, groups[..|groups| - 1]) + |GroupPoints(py, c, ConfigFor(t), rows, |rows|)|
  }

  /** The loop of `process_csv_file` over survey-type groups, each with its configuration. */
  method ProcessGroups(py: Builtins, c: Crypto, groups: seq<(string, seq<Row>)>) returns (rowCount: nat, pointCount: nat)
    ensures rowCount == TotalRows(groups)
    ensures pointCount == TotalPoints(py, c, groups)
  {
    rowCount, pointCount := 0, 0;
    var g := 0;
    while g < |groups|
      invariant 0 <= g <= |groups|
      invariant rowCount == TotalRows(groups[..g])
      invariant pointCount == TotalPoints(py, c, groups[..g])
    {
      var (surveyType, rows) := groups[g];
      var out, points := ProcessSurveyGroup(py, c, ConfigFor(surveyType), rows);
      TotalsStep(py, c, groups, g);
      rowCount := rowCount + |out|;
      pointCount := pointCount + |points|;
      g := g + 1;
    }
    assert groups[..|groups|] == groups;
  }

  /** Both totals over one more group add that group's rows and points. */
  lemma TotalsStep(py: Builtins, c: Crypto, groups: seq<(string, seq<Row>)>, g: nat)
    requires g < |groups|
    ensures TotalRows(groups[..g + 1]) == TotalRows(groups[..g]) + |groups[g].1|
    ensures TotalPoints(py, c, groups[..g + 1]) ==
      TotalPoints(py, c, groups[..g]) + |GroupPoints(py, c, ConfigFor(groups[g].0), groups[g].1, |groups[g].1|)|
  {
    assert groups[..g + 1][..g] == groups[..g];
  }

  class PipelineResults {
    var processedFiles: seq<string>
    var decryptedResponses: nat
    var locationPoints: nat
    var errors: seq<string>

    constructor ()
      ensures processedFiles == [] && decryptedResponses == 0 && locationPoints == 0 && errors == []
    {
      processedFiles, decryptedResponses, locationPoints, errors := [], 0, 0, [];
    }

    /**
     * `process_csv_file`: processes every survey-type group with its configuration
     * and adds the totals. `decrypted_responses` grows by the number of rows
     * processed, whatever their outcome. A read error is recorded; a missing file
     * or a missing `survey_type` column changes nothing.
     */
    method ProcessCsvFile(py: Builtins, c: Crypto, filename: string, input: CsvInput) returns (ok: bool)
      modifies this
      ensures ok <==> input.Groups?
      ensures input.Groups? ==>
        processedFiles == old(processedFiles) + [filename]
        && decryptedResponses == old(decryptedResponses) + TotalRows(input.groups)
        && locationPoints == old(locationPoints) + TotalPoints(py, c, input.groups)
        && errors == old(errors)
      ensures input.ReadError? ==>
        errors == old(errors) + ["Processing error in " + filename + ": " + input.message]
        && processedFiles == old(processedFiles) && decryptedResponses == old(decryptedResponses)
        && locationPoints == old(locationPoints)
      ensures (input.NotFound? || input.NoSurveyTypeColumn?) ==>
        errors == old(errors) && processedFiles == old(processedFiles)
        && decryptedResponses == old(decryptedResponses) && locationPoints == old(locationPoints)
    {
      match input {
        case NotFound => return false;
        case NoSurveyTypeColumn => return false;
        case ReadError(m) =>
          errors := errors + ["Processing error in " + filename + ": " + m];
          return false;
        case Groups(groups) =>
          var totalDecrypted, totalPoints := ProcessGroups(py, c, groups);
          processedFiles := processedFiles + [filename];
          decryptedResponses := decryptedResponses + totalDecrypted;
          locationPoints := locationPoints + totalPoints;
          return true;
      }
    }
  }
}
