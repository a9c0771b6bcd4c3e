/**
 * The stand-alone survey decryptor: a payload is either a base64 JSON package
 * holding `encryptedData` and `encryptedKey` (hybrid RSA + XOR), or one RSA
 * block (direct RSA-PKCS1-v1_5). Test surveys are loaded from a CSV and tagged
 * with a survey type taken from the file name.
 */
module SurveyDecrypt {
  import opened Text
  import opened Common
  import opened Ciphers
  import RepeatingXor

  /** `fix_base64_padding`: append '=' until the length is a multiple of 4. */
  function FixBase64Padding(data: string): (r: string)
    ensures |r| % 4 == 0
    ensures |data| <= |r| <= |data| + 3
    ensures r[..|data|] == data
    ensures forall i :: |data| <= i < |r| ==> r[i] == '='
    ensures |data| % 4 == 0 ==> r == data
  {
    var missing := |data| % 4;
    if missing != 0 then data + seq(4 - missing, _ => '=') else data
  }

  /** Padding twice pads no more than once. */
  lemma FixBase64PaddingIdempotent(data: string)
    ensures FixBase64Padding(FixBase64Padding(data)) == FixBase64Padding(data)
  {
  }

  /**
   * The hybrid key: the PKCS1-v1_5 plaintext read as UTF-8 base64 text, or the raw
   * plaintext when either decoding step raises.
   */
  function NormaliseHybridKey(py: Builtins, plaintext: Bytes): (key: Bytes)
    ensures (py.utf8Decode(plaintext).Ok? && py.b64decode(py.utf8Decode(plaintext).value).Ok?) ==>
      key == py.b64decode(py.utf8Decode(plaintext).value).value
    ensures (py.utf8Decode(plaintext).Err? || py.b64decode(py.utf8Decode(plaintext).value).Err?) ==> key == plaintext
  {
    match py.utf8Decode(plaintext)
    case Err(_) => plaintext
    case Ok(text) =>
      match py.b64decode(text)
      case Err(_) => plaintext
      case Ok(key) => key
  }

  /** A field of the package, padding-fixed and base64-decoded; anything but a string fails. */
  function DecodeField(py: Builtins, package: map<string, Value>, name: string): (r: Outcome<Bytes>)
    ensures name !in package || !package[name].Str? ==> r.Err?
    ensures name in package && package[name].Str? ==> r == py.b64decode(FixBase64Padding(package[name].s))
  {
    if name !in package then Err("'" + name + "'")
    else if !package[name].Str? then Err("not a base64 string")
    else py.b64decode(FixBase64Padding(package[name].s))
  }

  /**
   * `decrypt_hybrid_format`: both fields padding-fixed and base64-decoded, the key
   * unwrapped with PKCS1-v1_5 and normalised, the data deciphered by XOR only,
   * then UTF-8 and JSON. Every failure gives None.
   */
  function DecryptHybridFormat(py: Builtins, c: Crypto, package: Value): (r: Option<Value>)
    ensures !package.Dict? ==> r.None?
    ensures r.Some? ==>
      package.Dict? && DecodeField(py, package.fields, "encryptedData").Ok?
      && DecodeField(py, package.fields, "encryptedKey").Ok?
      && c.pkcs1Decrypt(DecodeField(py, package.fields, "encryptedKey").value).Ok?
      && var data := DecodeField(py, package.fields, "encryptedData").value;
         var key := NormaliseHybridKey(py, c.pkcs1Decrypt(DecodeField(py, package.fields, "encryptedKey").value).value);
         (|key| > 0 || |data| == 0) && DecodeJson(py, RepeatingXor.Xor(data, key)) == Ok(r.value)
    // and conversely: when every step succeeds, the decoded JSON is returned
    ensures (package.Dict? && DecodeField(py, package.fields, "encryptedData").Ok?
             && DecodeField(py, package.fields, "encryptedKey").Ok?
             && c.pkcs1Decrypt(DecodeField(py, package.fields, "encryptedKey").value).Ok?) ==>
      var data := DecodeField(py, package.fields, "encryptedData").value;
      var key := NormaliseHybridKey(py, c.pkcs1Decrypt(DecodeField(py, package.fields, "encryptedKey").value).value);
      (|key| > 0 || |data| == 0) && DecodeJson(py, RepeatingXor.Xor(data, key)).Ok? ==>
        r == Some(DecodeJson(py, RepeatingXor.Xor(data, key)).value)
  {
    if !package.Dict? then None
    else
      match DecodeField(py, package.fields, "encryptedData")
      case Err(_) => None
      case Ok(data) =>
        match DecodeField(py, package.fields, "encryptedKey")
        case Err(_) => None
        case Ok(wrappedKey) =>
          match c.pkcs1Decrypt(wrappedKey)
          case Err(_) => None
          case Ok(plaintext) =>
            var key := NormaliseHybridKey(py, plaintext);
            match RepeatingXor.XorDecipher(data, key)
            case Err(_) => None
            case Ok(plain) =>
              match DecodeJson(py, plain)
              case Err(_) => None
              case Ok(v) => Some(v)
  }

  /** The package when the input decodes to JSON holding both `encryptedData` and `encryptedKey`. */
  function HybridPackage(py: Builtins, text: string): (r: Option<Value>)
    ensures r.Some? <==>
      py.b64decode(text).Ok? && DecodeJson(py, py.b64decode(text).value).Ok?
      && PyIn("encryptedData", DecodeJson(py, py.b64decode(text).value).value) == Ok(true)
      && PyIn("encryptedKey", DecodeJson(py, py.b64decode(text).value).value) == Ok(true)
    ensures r.Some? ==> r.value == DecodeJson(py, py.b64decode(text).value).value
  {
    match py.b64decode(text)
    case Err(_) => None
    case Ok(b) =>
      match DecodeJson(py, b)
      case Err(_) => None
      case Ok(package) =>
        if PyIn("encryptedData", package) == Ok(true) && PyIn("encryptedKey", package) == Ok(true)
        then Some(package) else None
  }

  /** The direct path: one RSA block no longer than the key, PKCS1-v1_5, UTF-8, JSON. */
  function DirectRsa(py: Builtins, c: Crypto, text: string): (r: Option<Value>)
    ensures r.Some? <==>
      py.b64decode(text).Ok? && |py.b64decode(text).value| <= c.keySizeBits / 8
      && c.pkcs1Decrypt(py.b64decode(text).value).Ok?
      && DecodeJson(py, c.pkcs1Decrypt(py.b64decode(text).value).value).Ok?
    ensures r.Some? ==> r.value == DecodeJson(py, c.pkcs1Decrypt(py.b64decode(text).value).value).value
  {
    match py.b64decode(text)
    case Err(_) => None
    case Ok(block) =>
      if |block| > c.keySizeBits / 8 then None
      else
        match c.pkcs1Decrypt(block)
        case Err(_) => None
        case Ok(plain) =>
          match DecodeJson(py, plain)
          case Err(_) => None
          case Ok(v) => Some(v)
  }

  /**
   * `decrypt_data`: the hybrid path when the input is a hybrid package, with its
   * result returned as is (None included); otherwise direct RSA, which refuses a
   * block longer than `key_size // 8` bytes.
   */
  function DecryptData(py: Builtins, c: Crypto, text: string): (r: Option<Value>)
    ensures HybridPackage(py, text).Some? ==> r == DecryptHybridFormat(py, c, HybridPackage(py, text).value)
    ensures HybridPackage(py, text).None? && py.b64decode(text).Ok? && |py.b64decode(text).value| > c.keySizeBits / 8 ==> r.None?
    ensures HybridPackage(py, text).None? && r.Some? ==>
      py.b64decode(text).Ok? && c.pkcs1Decrypt(py.b64decode(text).value).Ok?
      && DecodeJson(py, c.pkcs1Decrypt(py.b64decode(text).value).value) == Ok(r.value)
    // a block that fits the key and decrypts to JSON gives that JSON
    ensures (HybridPackage(py, text).None? && py.b64decode(text).Ok? && |py.b64decode(text).value| <= c.keySizeBits / 8
             && c.pkcs1Decrypt(py.b64decode(text).value).Ok?
             && DecodeJson(py, c.pkcs1Decrypt(py.b64decode(text).value).value).Ok?) ==>
      r == Some(DecodeJson(py, c.pkcs1Decrypt(py.b64decode(text).value).value).value)
  {
    match HybridPackage(py, text)
    case Some(package) => DecryptHybridFormat(py, c, package)
    case None => DirectRsa(py, c, text)
  }

  /** The size guard decides before RSA is called: the RSA function cannot change the answer. */
  lemma OversizedBlockNeverReachesRsa(py: Builtins, c1: Crypto, c2: Crypto, text: string)
    requires c1.keySizeBits == c2.keySizeBits
    requires HybridPackage(py, text).None? && py.b64decode(text).Ok?
    requires |py.b64decode(text).value| > c1.keySizeBits / 8
    ensures DecryptData(py, c1, text) == DecryptData(py, c2, text) == None
  {
  }

  // ---------------------------------------------------------------------------
  // Test survey loading (load_test_surveys)

  datatype TestSurvey = TestSurvey(timestamp: string, data: string, surveyType: string)

  /** The survey type named by the file: biweekly, else initial, else consent, else unknown. */
  function SurveyTypeFromFilename(name: string): (t: string)
    ensures t == "biweekly" <==> IsSubstring("biweekly", Lower(name))
    ensures t == "initial" <==> !IsSubstring("biweekly", Lower(name)) && IsSubstring("initial", Lower(name))
    ensures t == "consent" <==>
      !IsSubstring("biweekly", Lower(name)) && !IsSubstring("initial", Lower(name)) && IsSubstring("consent", Lower(name))
    ensures t == "unknown" <==>
      !IsSubstring("biweekly", Lower(name)) && !IsSubstring("initial", Lower(name)) && !IsSubstring("consent", Lower(name))
  {
    var lower := Lower(name);
    if IsSubstring("biweekly", lower) then "biweekly"
    else if IsSubstring("initial", lower) then "initial"
    else if IsSubstring("consent", lower) then "consent"
    else "unknown"
  }

  /** The surveys read from data rows: rows with fewer than two columns are skipped. */
  function TaggedRows(rows: seq<seq<string>>, surveyType: string): (r: seq<TestSurvey>)
    ensures |r| <= |rows|
    ensures forall k :: 0 <= k < |r| ==> r[k].surveyType == surveyType
    decreases |rows|
  {
    if rows == [] then []
    else
      var last := rows[|rows| - 1];
      TaggedRows(rows[..|rows| - 1], surveyType)
      + (if |last| >= 2 then [TestSurvey(last[0], last[1], surveyType)] else [])
  }

  /** A single data row gives one survey holding its first two columns exactly when it has at least two. */
  lemma TaggedRowsSingle(row: seq<string>, surveyType: string)
    ensures TaggedRows([row], surveyType) == if |row| >= 2 then [TestSurvey(row[0], row[1], surveyType)] else []
  {
    assert [row][..0] == [];
  }

  /** Reading a file in two parts gives the surveys of the first part, then those of the second. */
  lemma {:induction false} TaggedRowsAppend(a: seq<seq<string>>, b: seq<seq<string>>, surveyType: string)
    ensures TaggedRows(a + b, surveyType) == TaggedRows(a, surveyType) + TaggedRows(b, surveyType)
    decreases |b|
  {
    if b != [] {
      var b' := b[..|b| - 1];
      assert (a + b)[..|a + b| - 1] == a + b';
      TaggedRowsAppend(a, b', surveyType);
    } else {
      assert a + b == a;
    }
  }

  /**
   * `load_test_surveys` over the reader's lines: the first line is the header; an
   * empty file raises StopIteration, which is caught and gives no surveys.
   */
  method LoadTestSurveys(filename: string, lines: seq<seq<string>>) returns (surveys: seq<TestSurvey>)
    ensures lines == [] ==> surveys == []
    ensures lines != [] ==> surveys == TaggedRows(lines[1..], SurveyTypeFromFilename(filename))
  {
    surveys := [];
    if lines == [] {
      return;
    }
    var rows := lines[1..];
    var surveyType := SurveyTypeFromFilename(filename);
    var i := 0;
    while i < |rows|
      invariant 0 <= i <= |rows|
      invariant surveys == TaggedRows(rows[..i], surveyType)
    {
      var row := rows[i];
      assert rows[..i + 1][..i] == rows[..i];
      if |row| >= 2 {
        surveys := surveys + [TestSurvey(row[0], row[1], surveyType)];
      }
      i := i + 1;
    }
    assert rows[..|rows|] == rows;
  }
}
