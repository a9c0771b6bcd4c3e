/**
 * The encryption-limits harness: it generates a synthetic GPS track, packs it
 * as the app would, encrypts the JSON with a fresh 32-byte AES key (AES-CBC or
 * the legacy XOR), wraps the raw key with RSA-OAEP, and decrypts it again.
 * Randomness, clocks and timing are parameters of the model.
 */
module EncryptionLimits {
  import opened Text
  import opened Common
  import opened Ciphers
  import RepeatingXor
  import DecryptionPipeline

  // ---------------------------------------------------------------------------
  // Track generation

  const SecondsPerHour := 3600
  const BaseLat: real := -26.2041
  const BaseLng: real := 28.0473
  const MaxMovement: real := 0.1

  /** `(duration_hours * 3600) // frequency_seconds`; a zero frequency raises. */
  function TrackLength(hours: nat, frequencySeconds: nat): (r: Outcome<nat>)
    ensures r.Ok? <==> frequencySeconds > 0
    ensures r.Ok? ==> r.value * frequencySeconds <= hours * SecondsPerHour < (r.value + 1) * frequencySeconds
  {
    if frequencySeconds == 0 then Err("integer division or modulo by zero")
    else Ok((hours * SecondsPerHour) / frequencySeconds)
  }

  /** One random draw of the walk: the two coordinate changes and the reported accuracy. */
  datatype Draw = Draw(latChange: real, lngChange: real, accuracy: real)

  datatype TrackPoint = TrackPoint(timestamp: string, latitude: real, longitude: real, accuracy: real)

  function Clamp(x: real, lo: real, hi: real): (r: real)
    requires lo <= hi
    ensures lo <= r <= hi
    ensures lo <= x <= hi ==> r == x
  {
    if x > hi then hi else if x < lo then lo else x
  }

  /**
   * `generate_location_track`: one point per sampling instant, timestamped at
   * i * frequency seconds from the start; the random walk never leaves the box of
   * `MaxMovement` degrees around the base location. `draw(i)` is the i-th set of
   * random values and `isoAt(s)` the ISO text of the start time plus s seconds.
   */
  method GenerateLocationTrack(hours: nat, frequencySeconds: nat, draw: nat -> Draw, isoAt: nat -> string)
    returns (track: Outcome<seq<TrackPoint>>)
    ensures track.Ok? <==> frequencySeconds > 0
    ensures track.Ok? ==> |track.value| == TrackLength(hours, frequencySeconds).value
    ensures track.Ok? ==> forall i :: 0 <= i < |track.value| ==>
      track.value[i].timestamp == isoAt(i * frequencySeconds)
      && track.value[i].accuracy == draw(i).accuracy
      && BaseLat - MaxMovement <= track.value[i].latitude <= BaseLat + MaxMovement
      && BaseLng - MaxMovement <= track.value[i].longitude <= BaseLng + MaxMovement
  {
    if frequencySeconds == 0 {
      return Err("integer division or modulo by zero");
    }
    var total := (hours * SecondsPerHour) / frequencySeconds;
    var points: seq<TrackPoint> := [];
    var lat, lng := BaseLat, BaseLng;
    var i := 0;
    while i < total
      invariant 0 <= i <= total
      invariant |points| == i
      invariant BaseLat - MaxMovement <= lat <= BaseLat + MaxMovement
      invariant BaseLng - MaxMovement <= lng <= BaseLng + MaxMovement
      invariant forall k :: 0 <= k < i ==>
        points[k].timestamp == isoAt(k * frequencySeconds)
        && points[k].accuracy == draw(k).accuracy
        && BaseLat - MaxMovement <= points[k].latitude <= BaseLat + MaxMovement
        && BaseLng - MaxMovement <= points[k].longitude <= BaseLng + MaxMovement
    {
      var d := draw(i);
      lat := Clamp(lat + d.latChange, BaseLat - MaxMovement, BaseLat + MaxMovement);
      lng := Clamp(lng + d.lngChange, BaseLng - MaxMovement, BaseLng + MaxMovement);
      points := points + [TrackPoint(isoAt(i * frequencySeconds), lat, lng, d.accuracy)];
      i := i + 1;
    }
    return Ok(points);
  }

  // ---------------------------------------------------------------------------
  // The scenario table

  datatype Scenario = Scenario(name: string, hours: nat, frequencySeconds: nat, expectedPoints: nat)

  const TwoWeeksHours: nat := 24 * 14

  const Scenarios: seq<Scenario> := [
    Scenario("Low frequency (15 min intervals)", TwoWeeksHours, 15 * 60, (TwoWeeksHours * 3600) / (15 * 60)),
    Scenario("Medium frequency (5 min intervals)", TwoWeeksHours, 5 * 60, (TwoWeeksHours * 3600) / (5 * 60)),
    Scenario("High frequency (1 min intervals)", TwoWeeksHours, 60, (TwoWeeksHours * 3600) / 60),
    Scenario("Very high frequency (30 sec intervals)", TwoWeeksHours, 30, (TwoWeeksHours * 3600) / 30),
    Scenario("Extreme frequency (10 sec intervals)", TwoWeeksHours, 10, (TwoWeeksHours * 3600) / 10),
    Scenario("Maximum frequency (5 sec intervals)", TwoWeeksHours, 5, (TwoWeeksHours * 3600) / 5)]

  /**
   * Every scenario's `expected_points` is the number of points the generator
   * yields for its hours and frequency, and the frequencies divide two weeks
   * exactly (1,344 to 241,920 points).
   */
  lemma ScenariosMatchGenerator()
    ensures forall i :: 0 <= i < |Scenarios| ==>
      Scenarios[i].frequencySeconds > 0
      && TrackLength(Scenarios[i].hours, Scenarios[i].frequencySeconds) == Ok(Scenarios[i].expectedPoints)
      && Scenarios[i].expectedPoints * Scenarios[i].frequencySeconds == Scenarios[i].hours * SecondsPerHour
    ensures [Scenarios[0].expectedPoints, Scenarios[1].expectedPoints, Scenarios[2].expectedPoints,
             Scenarios[3].expectedPoints, Scenarios[4].expectedPoints, Scenarios[5].expectedPoints]
            == [1344, 4032, 20160, 40320, 120960, 241920]
  {
    var totalSeconds := TwoWeeksHours * SecondsPerHour;
    assert totalSeconds == 1209600;
    assert Scenarios[0].expectedPoints == 1344 && 1344 * 900 == totalSeconds;
    assert Scenarios[1].expectedPoints == 4032 && 4032 * 300 == totalSeconds;
    assert Scenarios[2].expectedPoints == 20160 && 20160 * 60 == totalSeconds;
    assert Scenarios[3].expectedPoints == 40320 && 40320 * 30 == totalSeconds;
    assert Scenarios[4].expectedPoints == 120960 && 120960 * 10 == totalSeconds;
    assert Scenarios[5].expectedPoints == 241920 && 241920 * 5 == totalSeconds;
  }

  // ---------------------------------------------------------------------------
  // The package

  datatype LocationPackage = LocationPackage(
    participantId: string, surveyResponseId: string,
    startTime: string, endTime: string, durationHours: real,
    totalPoints: nat, averageAccuracy: real, deviceInfo: string, appVersion: string,
    locationData: seq<TrackPoint>)

  function SumAccuracy(points: seq<TrackPoint>): real
    decreases |points|
  {
    if points == [] then 0.0 else SumAccuracy(points[..|points| - 1]) + points[|points| - 1].accuracy
  }

  /**
   * `create_location_package`: the point count is the number of locations, the
   * period runs from the first to the last timestamp ('' when there are none),
   * and `durationHours` is the point count divided by 3600. `nowSeconds` stands
   * for `int(time.time())`.
   */
  function CreateLocationPackage(locations: seq<TrackPoint>, participantId: string, nowSeconds: nat): (p: LocationPackage)
    ensures p.totalPoints == |locations| && p.locationData == locations
    ensures p.startTime == (if locations == [] then "" else locations[0].timestamp)
    ensures p.endTime == (if locations == [] then "" else locations[|locations| - 1].timestamp)
    ensures p.averageAccuracy * (|locations| as real) == SumAccuracy(locations)
    ensures p.durationHours * 3600.0 == |locations| as real
  {
    LocationPackage(
      participantId, "RESP_" + NatToString(nowSeconds),
      if locations == [] then "" else locations[0].timestamp,
      if locations == [] then "" else locations[|locations| - 1].timestamp,
      if locations == [] then 0.0 else (|locations| as real) / 3600.0,
      |locations|,
      if locations == [] then 0.0 else SumAccuracy(locations) / (|locations| as real),
      "Test Device", "1.0.0",
      locations)
  }

  // ---------------------------------------------------------------------------
  // Encryption and decryption

  /** `_encrypt_aes_cbc`: the IV followed by the AES-CBC encryption of the PKCS#7-padded data. */
  function EncryptAesCbc(c: Crypto, data: Bytes, key: Bytes, iv: Bytes): (r: Outcome<Bytes>)
    requires |iv| == CbcIvBytes
    ensures r.Ok? <==> c.cbcEncrypt(key, iv, Pkcs7Pad(data)).Ok?
    ensures r.Ok? ==> |r.value| >= CbcIvBytes && r.value[..CbcIvBytes] == iv && r.value[CbcIvBytes..] == c.cbcEncrypt(key, iv, Pkcs7Pad(data)).value
  {
    match c.cbcEncrypt(key, iv, Pkcs7Pad(data))
    case Err(m) => Err(m)
    case Ok(ciphertext) => Ok(iv + ciphertext)
  }

  const CbcIvBytes := 16

  /** AES-CBC encryption keeps the length of the padded plaintext. */
  ghost predicate CbcKeepsLength(c: Crypto) {
    forall key, iv, plain :: c.cbcEncrypt(key, iv, plain).Ok? ==> |c.cbcEncrypt(key, iv, plain).value| == |plain|
  }

  /** The output is 16 + 16 * (len(data) div 16 + 1) bytes long. */
  lemma EncryptAesCbcLength(c: Crypto, data: Bytes, key: Bytes, iv: Bytes)
    requires |iv| == CbcIvBytes && CbcKeepsLength(c)
    requires c.cbcEncrypt(key, iv, Pkcs7Pad(data)).Ok?
    ensures |EncryptAesCbc(c, data, key, iv).value| == 16 + 16 * (|data| / 16 + 1)
  {
    var padded := Pkcs7Pad(data);
    assert |c.cbcEncrypt(key, iv, padded).value| == |padded|;
  }

  /** `_decrypt_aes_cbc`: IV = first 16 bytes, ciphertext = the rest, then the library unpadder. */
  function DecryptAesCbc(c: Crypto, data: Bytes, key: Bytes): (r: Outcome<Bytes>)
    ensures r.Ok? ==> exists padded :: c.cbcDecrypt(key, FirstBytes(data, 16), DropBytes(data, 16)) == Ok(padded)
                                      && Pkcs7Unpad(padded) == Ok(r.value)
    ensures c.cbcDecrypt(key, FirstBytes(data, 16), DropBytes(data, 16)).Ok? ==>
      r == Pkcs7Unpad(c.cbcDecrypt(key, FirstBytes(data, 16), DropBytes(data, 16)).value)
    ensures c.cbcDecrypt(key, FirstBytes(data, 16), DropBytes(data, 16)).Err? ==> r.Err?
  {
    match c.cbcDecrypt(key, FirstBytes(data, 16), DropBytes(data, 16))
    case Err(m) => Err(m)
    case Ok(padded) => Pkcs7Unpad(padded)
  }

  /** `b[:n]`, clamped as Python slices are. */
  function FirstBytes(b: Bytes, n: nat): Bytes {
    if |b| <= n then b else b[..n]
  }

  /** `b[n:]`, clamped as Python slices are. */
  function DropBytes(b: Bytes, n: nat): Bytes {
    if |b| <= n then [] else b[n..]
  }

  /** `method == 'aes_cbc'` picks AES-CBC; every other value, the legacy XOR. */
  function Encipher(c: Crypto, cipherMethod: string, plain: Bytes, key: Bytes, iv: Bytes): Outcome<Bytes>
    requires |iv| == CbcIvBytes
  {
    if cipherMethod == "aes_cbc" then EncryptAesCbc(c, plain, key, iv) else RepeatingXor.XorDecipher(plain, key)
  }

  /**
   * `encrypt_location_data`: the package as compact JSON, enciphered under `aesKey`
   * (os.urandom(32)), with the raw key OAEP-wrapped and no base64 layer inside RSA.
   */
  function EncryptLocationData(py: Builtins, c: Crypto, package: Value, cipherMethod: string,
                               aesKey: Bytes, iv: Bytes, timestamp: string): (r: Outcome<Value>)
    requires |aesKey| == 32 && |iv| == CbcIvBytes
    ensures r.Ok? ==> r.value.Dict? && r.value.fields.Keys == {"encryptedData", "encryptedKey", "method", "timestamp"}
    ensures r.Ok? ==> r.value.fields["method"] == Str(cipherMethod) && r.value.fields["timestamp"] == Str(timestamp)
    ensures r.Ok? ==> c.oaepEncrypt(aesKey).Ok? && r.value.fields["encryptedKey"] == Str(py.b64encode(c.oaepEncrypt(aesKey).value))
  {
    var plain := py.utf8Encode(py.jsonDumps(package));
    match Encipher(c, cipherMethod, plain, aesKey, iv)
    case Err(m) => Err(m)
    case Ok(enciphered) =>
      match c.oaepEncrypt(aesKey)
      case Err(m) => Err(m)
      case Ok(wrapped) =>
        Ok(Dict(map[
          "encryptedData" := Str(py.b64encode(enciphered)),
          "encryptedKey" := Str(py.b64encode(wrapped)),
          "method" := Str(cipherMethod),
          "timestamp" := Str(timestamp)]))
  }

  /** The metrics that matter to callers: success, and the error text of a failure. */
  datatype DecryptMetrics = DecryptMetrics(success: bool, error: Option<string>)

  /** `encrypted_package[name]` base64-decoded. */
  function PackageField(py: Builtins, package: Value, name: string): Outcome<Bytes> {
    if !package.Dict? then Err("'" + TypeName(package) + "' object is not subscriptable")
    else if name !in package.fields then Err("'" + name + "'")
    else if !package.fields[name].Str? then Err("argument should be a bytes-like object or ASCII string")
    else py.b64decode(package.fields[name].s)
  }

  /** The body of the try block of `decrypt_location_data`. */
  function DecryptSteps(py: Builtins, c: Crypto, package: Value): Outcome<Value> {
    match PackageField(py, package, "encryptedData")
    case Err(m) => Err(m)
    case Ok(data) =>
      match PackageField(py, package, "encryptedKey")
      case Err(m) => Err(m)
      case Ok(wrapped) =>
        var cipherMethod := if package.Dict? then Get(package.fields, "method", Str("aes_cbc")) else Str("aes_cbc");
        match c.oaepDecrypt(wrapped)
        case Err(m) => Err(m)
        case Ok(aesKey) =>
          var plain := if cipherMethod == Str("aes_cbc") then DecryptAesCbc(c, data, aesKey) else RepeatingXor.XorDecipher(data, aesKey);
          match plain
          case Err(m) => Err(m)
          case Ok(b) => DecodeJson(py, b)
  }

  /**
   * `decrypt_location_data`: never raises; a failure gives an empty dict and
   * metrics with success false and the error text.
   */
  function DecryptLocationData(py: Builtins, c: Crypto, package: Value): (r: (Value, DecryptMetrics))
    ensures r.1.success <==> DecryptSteps(py, c, package).Ok?
    ensures r.1.success ==> r.0 == DecryptSteps(py, c, package).value && r.1.error.None?
    ensures !r.1.success ==> r.0 == Dict(map[]) && r.1.error == Some(DecryptSteps(py, c, package).msg)
  {
    match DecryptSteps(py, c, package)
    case Ok(v) => (v, DecryptMetrics(true, None))
    case Err(m) => (Dict(map[]), DecryptMetrics(false, Some(m)))
  }

  /** A missing method field means AES-CBC; any method other than 'aes_cbc' means XOR. */
  lemma MethodDispatch(py: Builtins, c: Crypto, package: map<string, Value>, data: Bytes, wrapped: Bytes, aesKey: Bytes)
    requires PackageField(py, Dict(package), "encryptedData") == Ok(data)
    requires PackageField(py, Dict(package), "encryptedKey") == Ok(wrapped)
    requires c.oaepDecrypt(wrapped) == Ok(aesKey)
    ensures "method" !in package || package["method"] == Str("aes_cbc") ==>
      DecryptSteps(py, c, Dict(package)) ==
        (match DecryptAesCbc(c, data, aesKey) case Err(m) => Err(m) case Ok(b) => DecodeJson(py, b))
    ensures "method" in package && package["method"] != Str("aes_cbc") ==>
      DecryptSteps(py, c, Dict(package)) ==
        (match RepeatingXor.XorDecipher(data, aesKey) case Err(m) => Err(m) case Ok(b) => DecodeJson(py, b))
  {
  }

  /** The legacy XOR cipher of the harness: deciphering the enciphered data gives it back. */
  lemma XorRoundTrip(data: Bytes, key: Bytes)
    requires |key| > 0
    ensures RepeatingXor.XorDecipher(data, key).Ok?
    ensures RepeatingXor.XorDecipher(RepeatingXor.XorDecipher(data, key).value, key) == Ok(data)
    ensures |RepeatingXor.XorDecipher(data, key).value| == |data|
  {
    RepeatingXor.XorInvolution(data, key);
  }

  /** AES-CBC encryption followed by decryption gives back the plaintext, padding and all. */
  lemma AesCbcRoundTrip(c: Crypto, data: Bytes, key: Bytes, iv: Bytes)
    requires |iv| == CbcIvBytes
    requires c.cbcEncrypt(key, iv, Pkcs7Pad(data)).Ok?
    requires c.cbcDecrypt(key, iv, c.cbcEncrypt(key, iv, Pkcs7Pad(data)).value) == Ok(Pkcs7Pad(data))
    ensures DecryptAesCbc(c, EncryptAesCbc(c, data, key, iv).value, key) == Ok(data)
  {
    var out := EncryptAesCbc(c, data, key, iv).value;
    var ciphertext := c.cbcEncrypt(key, iv, Pkcs7Pad(data)).value;
    assert out == iv + ciphertext;
    if |out| <= 16 {
      assert ciphertext == [];
      assert FirstBytes(out, 16) == iv && DropBytes(out, 16) == ciphertext;
    } else {
      assert FirstBytes(out, 16) == iv && DropBytes(out, 16) == ciphertext;
    }
    PadUnpad(data);
  }

  /**
   * The harness round trip: a package encrypted by `encrypt_location_data` is
   * decrypted by `decrypt_location_data` to the same package, for both methods,
   * given that the codecs and ciphers invert each other on these inputs.
   */
  lemma PackageRoundTrip(py: Builtins, c: Crypto, package: Value, cipherMethod: string,
                         aesKey: Bytes, iv: Bytes, timestamp: string)
    requires |aesKey| == 32 && |iv| == CbcIvBytes
    requires forall b :: py.b64decode(py.b64encode(b)) == Ok(b)
    requires py.utf8Decode(py.utf8Encode(py.jsonDumps(package))) == Ok(py.jsonDumps(package))
    requires py.jsonLoads(py.jsonDumps(package)) == Ok(package)
    requires c.oaepEncrypt(aesKey).Ok? && c.oaepDecrypt(c.oaepEncrypt(aesKey).value) == Ok(aesKey)
    requires var padded := Pkcs7Pad(py.utf8Encode(py.jsonDumps(package)));
             c.cbcEncrypt(aesKey, iv, padded).Ok? && c.cbcDecrypt(aesKey, iv, c.cbcEncrypt(aesKey, iv, padded).value) == Ok(padded)
    ensures EncryptLocationData(py, c, package, cipherMethod, aesKey, iv, timestamp).Ok?
    ensures DecryptLocationData(py, c, EncryptLocationData(py, c, package, cipherMethod, aesKey, iv, timestamp).value)
            == (package, DecryptMetrics(true, None))
  {
    var plain := py.utf8Encode(py.jsonDumps(package));
    var enciphered := Encipher(c, cipherMethod, plain, aesKey, iv);
    if cipherMethod == "aes_cbc" {
      AesCbcRoundTrip(c, plain, aesKey, iv);
    } else {
      XorRoundTrip(plain, aesKey);
    }
    var wrapped := c.oaepEncrypt(aesKey).value;
    var sealed := EncryptLocationData(py, c, package, cipherMethod, aesKey, iv, timestamp).value;
    assert PackageField(py, sealed, "encryptedData") == Ok(enciphered.value);
    assert PackageField(py, sealed, "encryptedKey") == Ok(wrapped);
  }

  /**
   * The harness's key convention is not the pipeline's: a raw AES key wrapped with
   * OAEP is rejected by the pipeline's key unwrap when the raw bytes are not UTF-8
   * text and the PKCS1-v1_5 attempt fails, since the pipeline expects base64 text
   * inside RSA.
   */
  lemma RawWrappedKeyRejectedByPipeline(py: Builtins, c: Crypto, aesKey: Bytes)
    requires c.oaepEncrypt(aesKey).Ok?
    requires py.b64decode(py.b64encode(c.oaepEncrypt(aesKey).value)) == Ok(c.oaepEncrypt(aesKey).value)
    requires c.oaepDecrypt(c.oaepEncrypt(aesKey).value) == Ok(aesKey)
    requires py.utf8Decode(aesKey).Err?
    requires c.pkcs1Decrypt(c.oaepEncrypt(aesKey).value).Err?
    ensures DecryptionPipeline.DecryptAesKey(py, c, Str(py.b64encode(c.oaepEncrypt(aesKey).value))).None?
  {
    var wrapped := c.oaepEncrypt(aesKey).value;
    DecryptionPipeline.OaepTakesPrecedence(py, c, py.b64encode(wrapped), wrapped);
  }
}
