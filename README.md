# gwm-data-processor in Dafny

A model of the survey-data processing core of gwm-data-processor, the
back office of the Gauteng Wellbeing Mapper study. The mobile app sends
survey answers and GPS tracks to Qualtrics or to an S3 buffer. Each
payload is encrypted with a symmetric key, and that key is wrapped with
the project's RSA key. The scripts modelled here:

- fetch buffered payloads from S3 and remove repeated ones
  (`BufferedSurveys`, in `buffered_download.dfy`);
- decrypt every survey row. The row's envelope is resolved, the AES key
  unwrapped with RSAES-OAEP and then RSAES-PKCS1-v1_5 (sections 7.1 and
  7.2 of RFC 8017), and the payload deciphered by the first of
  repeating-key XOR, AES-GCM and AES-CBC that yields JSON.
  The row then receives either the decrypted fields or a fixed sentinel
  (`DecryptionPipeline`, `RepeatingXor`, `Ciphers`, in `pipeline.dfy`,
  `xor.dfy`, `crypto.dfy`). The stand-alone decryptor has its own hybrid
  and direct-RSA paths (`SurveyDecrypt`, in `survey_decrypt.dfy`).
- check the round trip of the encryption-limits harness
  (`EncryptionLimits`, in `encryption_limits.dfy`);
- turn decrypted exports into consent, initial, biweekly and location
  tables (`SurveyCsvs`, in `survey_csvs.dfy`), and into typed
  structured records (`StructuredTables`, in `structured_tables.dfy`);
- write per-participant reports and the monthly participation summary
  (`ParticipantReports`, `MonthlyParticipation`);
- grade the quality of the collected data (`Validation`, in
  `validation.dfy`);
- compare the size-optimisation strategies for location tracks
  (`LocationAnalysis`, in `location_analysis.dfy`).

Each Python script becomes one module. Pure helpers become functions with
lemmas. Scripts that keep state in an object become a `class` whose
methods state the whole new state. Loops become methods proved against a
function that states their result. Python exceptions become the `Err` case of
`Common.Outcome`, and a Python `None` result becomes `Common.Option`.
Values read from pandas or JSON are `Common.Value`, a Python-like sum of
None, NaN, booleans, integers, floats (as reals), strings, lists and
dictionaries. `Text` holds the ASCII string operations the scripts use.

Cryptography, codecs, hashing, dates and pandas operations that the model
does not compute are fields of records passed as parameters:

- `Ciphers.Crypto`: RSA and AES;
- `Common.Builtins`: `repr`, JSON, `eval`/`literal_eval`, base64, UTF-8,
  SHA-256 and float parsing;
- `StructuredTables.Calendar`;
- `ParticipantReports.Clock` and `ParticipantReports.Frames`;
- `MonthlyParticipation.MonthClock`;
- `SurveyCsvs.MediaIo`;
- `LocationAnalysis.Rounding`.

Every property is proved for all such parameters. PKCS #7 padding (section
6.3 of RFC 5652) is computed.

One consequence of two scripts that the model makes explicit concerns
location counts. The decryption pipeline marks a decrypted row
`DECRYPTED: <n> chars`. The structured-table generator reads the
location count only from `DECRYPTED: <n> location points`. So a biweekly
row written by the pipeline has location data but never a location count
(`StructuredTables.PipelineSentinelGivesNoCount`).

## Model

| member | source | states |
|---|---|---|
| RepeatingXor.XorBytes | decryption_tools/decrypt_survey_data.py:120-122 | the XOR loop yields one byte per input byte, `data[i] ^ key[i % len(key)]`; an empty key with non-empty data raises |
| RepeatingXor.XorDecipher | decryption_tools/automated_decryption_pipeline.py:174-177 | the deciphering succeeds exactly when the key is non-empty or the data empty, and gives the keystream XOR |
| RepeatingXor.XorInvolution | structure_tools/analyze_encryption_limits.py:246-251 | XOR with the same key keeps the length and undoes itself (the encrypt/decrypt pair at 246-251 and 326-331) |
| Ciphers.Pkcs7Pad | structure_tools/analyze_encryption_limits.py:233-235 | PKCS #7 padding to 16-byte blocks keeps the data as a prefix and adds 1 to 16 bytes, a whole number of blocks |
| Ciphers.Pkcs7Unpad | structure_tools/analyze_encryption_limits.py:319-321 | unpadding succeeds exactly on well-formed padding and removes as many bytes as the last byte says |
| Ciphers.PadUnpad | structure_tools/analyze_encryption_limits.py:233-235 | unpadding a padded message gives the message back, for every message |
| SurveyDecrypt.FixBase64Padding | decryption_tools/decrypt_survey_data.py:136-141 | the result has a length that is a multiple of 4, keeps the input as a prefix and appends at most three '=' |
| SurveyDecrypt.FixBase64PaddingIdempotent | decryption_tools/decrypt_survey_data.py:136-141 | fixing the padding twice gives the same text as fixing it once |
| SurveyDecrypt.NormaliseHybridKey | decryption_tools/decrypt_survey_data.py:105-115 | the unwrapped key is the base64 decoding of its UTF-8 text when both steps succeed, and the raw plaintext otherwise |
| SurveyDecrypt.DecodeField | decryption_tools/decrypt_survey_data.py:87-91 | a field that is absent or not text fails; a text field is the base64 decoding of its padding-fixed text |
| SurveyDecrypt.DecryptHybridFormat | decryption_tools/decrypt_survey_data.py:81-134 | a package that is not a dict gives None; a result exists exactly when both fields decode, the key unwraps, the XOR can run and its output is UTF-8 JSON, and then it is that JSON value |
| SurveyDecrypt.HybridPackage | decryption_tools/decrypt_survey_data.py:32-36 | the text is taken as a hybrid package exactly when it base64-decodes to UTF-8 JSON holding both "encryptedData" and "encryptedKey", and the package is that JSON value |
| SurveyDecrypt.DirectRsa | decryption_tools/decrypt_survey_data.py:41-73 | the direct path gives a value exactly when the text base64-decodes, the block is at most key_size // 8 bytes, RSA decryption succeeds and its plaintext is UTF-8 JSON; the value is that JSON |
| SurveyDecrypt.DecryptData | decryption_tools/decrypt_survey_data.py:25-79 | a hybrid package takes the hybrid path and its result as is; otherwise a block longer than key_size // 8 gives None before RSA, a block that fits the key and whose PKCS #1 v1.5 plaintext is JSON gives exactly that JSON, and any result is the JSON of the RSA plaintext |
| SurveyDecrypt.OversizedBlockNeverReachesRsa | decryption_tools/decrypt_survey_data.py:56-61 | an oversized block gives None whatever the RSA function is, so RSA is never consulted |
| SurveyDecrypt.SurveyTypeFromFilename | decryption_tools/decrypt_survey_data.py:185-192 | the type is biweekly, else initial, else consent by the lower-cased file name containing that word, else unknown; each case exactly |
| SurveyDecrypt.TaggedRows | decryption_tools/decrypt_survey_data.py:180-198 | rows shorter than two cells are skipped, so there are never more surveys than rows, and every survey read carries the file's type; with `TaggedRowsSingle` and `TaggedRowsAppend` this fixes the surveys of every list of rows |
| SurveyDecrypt.TaggedRowsAppend | decryption_tools/decrypt_survey_data.py:180-198 | reading rows in two parts gives the surveys of the first part followed by those of the second |
| SurveyDecrypt.TaggedRowsSingle | decryption_tools/decrypt_survey_data.py:184-198 | one row gives exactly one survey, holding its first cell as the timestamp and its second as the data, when it has at least two cells, and no survey otherwise |
| SurveyDecrypt.LoadTestSurveys | decryption_tools/decrypt_survey_data.py:175-209 | an empty file gives no surveys; otherwise the header line is skipped and the surveys are those of the remaining rows |
| EncryptionLimits.TrackLength | structure_tools/analyze_encryption_limits.py:80 | the point count is the floor of the track's seconds over the frequency; a zero frequency raises |
| EncryptionLimits.Clamp | structure_tools/analyze_encryption_limits.py:100-103 | `max(min(x, hi), lo)` lies in [lo, hi] and is x when x already does |
| EncryptionLimits.GenerateLocationTrack | structure_tools/analyze_encryption_limits.py:76-123 | one point per sampling instant, stamped i·frequency seconds after the start, keeping the drawn accuracy, never leaving the box around the base location |
| EncryptionLimits.ScenariosMatchGenerator | structure_tools/analyze_encryption_limits.py:343-386 | every scenario's expected_points is what the generator yields for two weeks at its frequency (1,344 to 241,920) |
| EncryptionLimits.CreateLocationPackage | structure_tools/analyze_encryption_limits.py:125-145 | totalPoints is the number of locations; start and end are the first and last time stamps or ''; the average accuracy times the count is the accuracy sum |
| EncryptionLimits.EncryptAesCbc | structure_tools/analyze_encryption_limits.py:226-243 | the output is the IV followed by the CBC encryption of the PKCS #7-padded data |
| EncryptionLimits.EncryptAesCbcLength | structure_tools/analyze_encryption_limits.py:226-243 | the output is 16 + 16·(len(data) div 16 + 1) bytes long |
| EncryptionLimits.DecryptAesCbc | structure_tools/analyze_encryption_limits.py:306-323 | when CBC decryption of the bytes after the 16-byte IV succeeds, the result is exactly the PKCS #7 unpadding of its output (success or error); when it fails, the result is an error |
| EncryptionLimits.EncryptLocationData | structure_tools/analyze_encryption_limits.py:171-224 | the package holds exactly encryptedData, encryptedKey, method and timestamp; the key field is the base64 of the OAEP-wrapped raw key |
| EncryptionLimits.DecryptLocationData | structure_tools/analyze_encryption_limits.py:254-304 | never raises: success exactly when every step succeeds; a failure gives an empty dict and the error text |
| EncryptionLimits.MethodDispatch | structure_tools/analyze_encryption_limits.py:264-280 | a missing method or 'aes_cbc' decrypts with AES-CBC; any other method value decrypts with XOR |
| EncryptionLimits.XorRoundTrip | structure_tools/analyze_encryption_limits.py:245-252 | the legacy XOR encryption is undone by the XOR decryption with the same key |
| EncryptionLimits.AesCbcRoundTrip | structure_tools/analyze_encryption_limits.py:306-323 | AES-CBC encryption followed by decryption gives the plaintext back when the block cipher inverts itself |
| EncryptionLimits.PackageRoundTrip | structure_tools/analyze_encryption_limits.py:425-441 | a package encrypted by the harness is decrypted to the same package with success, for both methods |
| EncryptionLimits.RawWrappedKeyRejectedByPipeline | decryption_tools/automated_decryption_pipeline.py:131-165 | a raw AES key wrapped by the harness is not accepted by the pipeline's key unwrap, which expects base64 text inside RSA |
| DecryptionPipeline.FirstOkIsEarliest | decryption_tools/automated_decryption_pipeline.py:169-231 | the first candidate that does not raise is the earliest such one, and there is none exactly when every candidate raises |
| DecryptionPipeline.DecryptAesKey | decryption_tools/automated_decryption_pipeline.py:131-165 | a non-string or non-base64 key gives None; otherwise the key comes from the OAEP branch, else from the PKCS1-v1_5 branch, each base64-decoding the RSA plaintext |
| DecryptionPipeline.OaepTakesPrecedence | decryption_tools/automated_decryption_pipeline.py:136-161 | a successful OAEP branch decides; PKCS1-v1_5 decides only when the OAEP branch raised; None exactly when both raise |
| DecryptionPipeline.GcmSplit | decryption_tools/automated_decryption_pipeline.py:187-190 | nonce (12 bytes), ciphertext and tag (16 bytes) are consecutive and together make up the data |
| DecryptionPipeline.CbcSplit | decryption_tools/automated_decryption_pipeline.py:206-209 | IV (16 bytes) and a non-empty ciphertext together make up the data |
| DecryptionPipeline.UnpadUnchecked | decryption_tools/automated_decryption_pipeline.py:219-221 | `padded[:-padded[-1]]` is a proper prefix; a last byte of 0 or one beyond the length gives the empty slice |
| DecryptionPipeline.UnpadUncheckedAgreesWhenWellPadded | decryption_tools/automated_decryption_pipeline.py:219-221 | on correct PKCS #7 padding the unchecked slice equals the library unpadder's result |
| DecryptionPipeline.UnpadUncheckedReadsOnlyLastByte | decryption_tools/automated_decryption_pipeline.py:219-221 | only the last byte is read: the other pad bytes are never checked |
| DecryptionPipeline.DecryptLocationData | decryption_tools/automated_decryption_pipeline.py:167-231 | a non-string or non-base64 input gives None; otherwise the result is that of the first of XOR, AES-GCM and AES-CBC whose output parses as JSON |
| DecryptionPipeline.DecipherGuards | decryption_tools/automated_decryption_pipeline.py:187-206 | AES-GCM is never tried below 28 bytes and AES-CBC never at 16 bytes or fewer |
| DecryptionPipeline.ConfigFor | decryption_tools/automated_decryption_pipeline.py:84-101 | every survey type reads encrypted_data with prefix `<type>_decrypted`; only biweekly has a location column, the encrypted one |
| DecryptionPipeline.PointsFrom | decryption_tools/automated_decryption_pipeline.py:440-457 | one point per dict entry, in order, numbered by original index + 1, with '' for missing fields |
| DecryptionPipeline.ExtractLocationPoints | decryption_tools/automated_decryption_pipeline.py:436-460 | points come only from a dict whose locationData is a list, and then one per dict entry of it |
| DecryptionPipeline.ParseEnvelope | decryption_tools/automated_decryption_pipeline.py:358-367 | a cell opening with `{"encryptedData"` is read as JSON; any other is base64-decoded, then UTF-8-decoded, then read as JSON, and the first failing step's error is returned |
| DecryptionPipeline.DecryptPackage | decryption_tools/automated_decryption_pipeline.py:356-407 | each outcome is tied to its cause: an envelope error, or a package that is not a dict, raises; a dict package without both truthy parts is left alone; with both, an unrecovered or empty key is a key failure; with a usable key, a missing or falsy payload is a data failure; a truthy dict payload is a success with the length of its text and, for the location column, its points; any other truthy payload raises |
| DecryptionPipeline.Sentinel | decryption_tools/automated_decryption_pipeline.py:383-407 | an error cell starts `PROCESSING_ERROR: ` and keeps at most 100 characters of the message; a success cell reads `DECRYPTED: <digits> chars` and its digits give back the payload's text length |
| DecryptionPipeline.SentinelsDistinct | decryption_tools/automated_decryption_pipeline.py:383-407 | a key failure, a data failure, an error and a success always leave different cells |
| DecryptionPipeline.CopyDecryptedFields | decryption_tools/automated_decryption_pipeline.py:395-397 | every payload key except locationData is copied as `decrypted_<key>`; other row fields are kept |
| DecryptionPipeline.WithHash | decryption_tools/automated_decryption_pipeline.py:340-343 | the hash is only set by default: every existing field, encrypted_data_hash included, is kept |
| DecryptionPipeline.ProcessRecord | decryption_tools/automated_decryption_pipeline.py:330-413 | the output row keeps every input field except the encrypted cell and `decrypted_` fields; points only for the location column |
| DecryptionPipeline.EnvelopedOutcome | decryption_tools/automated_decryption_pipeline.py:330-407 | for an enveloped cell, a package left alone adds only the hash; any other outcome replaces the cell with its marker; a success also copies the payload's fields in as `decrypted_<key>` and returns its points |
| DecryptionPipeline.NonStringCellUntouched | decryption_tools/automated_decryption_pipeline.py:340-351 | a cell that is not a string leaves the row unchanged, with no hash and no points |
| DecryptionPipeline.PlainStringMarked | decryption_tools/automated_decryption_pipeline.py:408-411 | a non-empty string without an envelope prefix becomes `NON_ENCRYPTED: <first 50 chars>...`, hashed, without points |
| DecryptionPipeline.EmptyPayloadFails | decryption_tools/automated_decryption_pipeline.py:378-399 | a payload that decrypts to an empty object counts as DECRYPTION_FAILED |
| DecryptionPipeline.ProcessSurveyGroup | decryption_tools/automated_decryption_pipeline.py:315-429 | one output row per input row, in order, each the processed record; the points of all rows concatenated in order |
| DecryptionPipeline.ProcessGroups | decryption_tools/automated_decryption_pipeline.py:276-300 | the counts are the totals of rows and points over all survey-type groups |
| DecryptionPipeline.PipelineResults.ProcessCsvFile | decryption_tools/automated_decryption_pipeline.py:233-313 | true exactly when the groups were processed; decrypted_responses grows by every processed row; a read error is recorded; a missing file or survey_type column changes nothing |
| DecryptionPipeline.PipelineResults.constructor | decryption_tools/automated_decryption_pipeline.py:76-81 | a new pipeline has processed no file, decrypted no response, counted no location point and recorded no error |
| BufferedSurveys.TrimPrefix | qualtrics_tools/download_buffered_surveys.py:170 | the prefix is removed exactly when the key starts with it; otherwise the key is kept whole |
| BufferedSurveys.NonEmptySegments | qualtrics_tools/download_buffered_surveys.py:171 | the kept segments are the non-empty ones, none longer in number than the split |
| BufferedSurveys.InferSurveyType | qualtrics_tools/download_buffered_surveys.py:169-172 | the survey type is a non-empty, lower-case text without '/' |
| BufferedSurveys.FirstSegmentHasNoSlash | qualtrics_tools/download_buffered_surveys.py:169-172 | the first non-empty part of a key split at '/' never holds a '/' |
| BufferedSurveys.FirstNonEmptySegment | qualtrics_tools/download_buffered_surveys.py:171-172 | the first non-empty segment of the split is the first path segment, and there is none iff the path has none |
| BufferedSurveys.InferSurveyTypeIsFirstSegment | qualtrics_tools/download_buffered_surveys.py:169-172 | the type is the lower-cased first path segment after the prefix, or "unknown" when the path has none |
| BufferedSurveys.DownloadPayload | qualtrics_tools/download_buffered_surveys.py:175-196 | a record exists exactly when the fetch and decode succeeded, and carries the bucket, the key, the inferred type, the decoded payload, and the fetched LastModified time and ETag unchanged |
| BufferedSurveys.ResponseId | qualtrics_tools/download_buffered_surveys.py:72-74 | the id is "s3::" followed by the payload hash, so equal payloads get equal ids |
| BufferedSurveys.StripChar | qualtrics_tools/download_buffered_surveys.py:86 | `strip('"')` leaves a slice of the input with no quote at either end, everything cut from either end is a quote, and nothing changes when there is none |
| BufferedSurveys.ToRow | qualtrics_tools/download_buffered_surveys.py:76-87 | the row has exactly the nine columns, holding the id, type, payload, hash, source, bucket, key, ISO time or '' and the unquoted ETag |
| BufferedSurveys.CsvColumns | qualtrics_tools/download_buffered_surveys.py:201-211 | the header is the sorted column list when there are records and the fixed list otherwise |
| BufferedSurveys.SortedColumnsSorted | qualtrics_tools/download_buffered_surveys.py:201 | the sorted header is strictly increasing, as `sorted()` makes it |
| BufferedSurveys.SortedHeaderHoldsRowKeys | qualtrics_tools/download_buffered_surveys.py:201 | the sorted header names exactly the keys of a row |
| BufferedSurveys.FallbackHeaderHoldsRowKeys | qualtrics_tools/download_buffered_surveys.py:201-211 | the header of an empty file names the same columns |
| BufferedSurveys.HeaderHasNoRepeats | qualtrics_tools/download_buffered_surveys.py:201 | no column appears twice in the header |
| BufferedSurveys.ListKeys | qualtrics_tools/download_buffered_surveys.py:159-166 | the keys are the listed ones not ending in '/', in listing order |
| BufferedSurveys.ListKeysAppend | qualtrics_tools/download_buffered_surveys.py:159-166 | listing page after page gives each page's keys in turn, so the listing order is kept |
| BufferedSurveys.ListKeysSingle | qualtrics_tools/download_buffered_surveys.py:163-166 | one listed key is kept exactly when it does not end in '/' |
| BufferedSurveys.Inspected | qualtrics_tools/download_buffered_surveys.py:286-288 | the loop inspects at most every key, and at most `--max` of them |
| BufferedSurveys.Hashes | qualtrics_tools/download_buffered_surveys.py:277-303 | every kept record's hash is among the seen hashes |
| BufferedSurveys.DedupeInvariant | qualtrics_tools/download_buffered_surveys.py:292-304 | kept records have pairwise distinct hashes, cover the hash of every successful download, and records + duplicates + failures = downloads |
| BufferedSurveys.DedupeKeepsFirstOccurrence | qualtrics_tools/download_buffered_surveys.py:298-304 | the kept records are the first download of each hash, in order |
| BufferedSurveys.DecryptsOk | qualtrics_tools/download_buffered_surveys.py:220-245 | a decryption counts as a success exactly when `decrypt_data` returns a truthy value |
| BufferedSurveys.CountDecrypted | qualtrics_tools/download_buffered_surveys.py:307-311 | the successes are at most the records |
| BufferedSurveys.DedupeStep | qualtrics_tools/download_buffered_surveys.py:292-304 | one more download is a failure, a duplicate of a seen hash, or a new record appended |
| BufferedSurveys.AppendFacts | qualtrics_tools/download_buffered_surveys.py:303-311 | a new record adds its hash to the seen set and its decryption result to the count |
| BufferedSurveys.ScanStep | qualtrics_tools/download_buffered_surveys.py:292-311 | one loop step keeps the loop's state equal to the de-duplication of the downloads seen so far: a failure changes nothing, a duplicate adds one to the duplicates, and a new record is appended with its hash added to the seen set and its decryption counted |
| BufferedSurveys.ScanBuffer | qualtrics_tools/download_buffered_surveys.py:277-311 | the loop inspects `Inspected` keys, keeps the de-duplicated downloads in order, and counts decryptions only when not skipped |
| BufferedSurveys.InspectedReached | qualtrics_tools/download_buffered_surveys.py:287-288 | the loop stops exactly when `--max` keys were inspected |
| BufferedSurveys.Downloads | qualtrics_tools/download_buffered_surveys.py:285-293 | one download per listed key, in order |
| BufferedSurveys.WriteRecordsCsv | qualtrics_tools/download_buffered_surveys.py:199-217 | the header, then one row per record in order |
| SurveyCsvs.ParseJsonField | structure_tools/generate_survey_csvs.py:531-553 | a missing or empty cell reads as `{}`, an absent column reads as `{}` (its default text '{}' is JSON for the empty dict), and a cell that is not text is returned unchanged |
| SurveyCsvs.JoinItems | structure_tools/generate_survey_csvs.py:573-574 | a one-item list gives that item's `str`, and an empty list gives '' |
| SurveyCsvs.ParseListField | structure_tools/generate_survey_csvs.py:555-576 | a blank value or '[]' gives ''; a non-empty list gives its items joined by ', '; otherwise the parsed value's text, or the error text when parsing fails |
| SurveyCsvs.JoinItemsSplits | structure_tools/generate_survey_csvs.py:573-574 | joining items that have no comma can be undone: splitting on ',' gives the first item back, then every later item behind one space |
| SurveyCsvs.SurveyTypeOf | structure_tools/generate_survey_csvs.py:127-133 | a text `decrypted_type` is lower-cased, and a missing one gives '' |
| SurveyCsvs.Dispatch | structure_tools/generate_survey_csvs.py:135-145 | the type goes to consent if it contains "consent", else to initial if it contains "initial", else to biweekly if it contains "biweekly", else nowhere; each case holds in both directions |
| SurveyCsvs.SplitExt | structure_tools/generate_survey_csvs.py:460-463 | stem and extension concatenate back to the name; the extension is empty or starts with its only dot and holds no '/' |
| SurveyCsvs.ImageFileNameKeepsOriginal | structure_tools/generate_survey_csvs.py:458-465 | the saved image's name is response id, survey type and the original file name, with '.jpg' added exactly when the original has no extension |
| SurveyCsvs.PathSuffix | structure_tools/generate_survey_csvs.py:508-509 | a URL path's suffix is empty, or a dot followed by at least one character with no further dot and no '/' |
| SurveyCsvs.PathName | structure_tools/generate_survey_csvs.py:508 | the final component has no '/': empty and "." components are skipped, as `PurePath` does |
| SurveyCsvs.NameSuffix | structure_tools/generate_survey_csvs.py:508 | a component's suffix is empty or a part of it that starts after its first character, ends at its end, and holds exactly one dot, at its start |
| SurveyCsvs.PathSuffixOfName | structure_tools/generate_survey_csvs.py:508 | the suffix of `dir/name` is the suffix of `name` for any `dir` |
| SurveyCsvs.PathSuffixIgnoresTrailing | structure_tools/generate_survey_csvs.py:508 | adding a trailing '/' or '/.' to a path does not change its suffix, so `/img.png/` keeps `.png` |
| SurveyCsvs.DownloadedImages | structure_tools/generate_survey_csvs.py:503-524 | at most one file per accepted http URL, and one per URL when every fetch succeeds |
| SurveyCsvs.ExtractedImage | structure_tools/generate_survey_csvs.py:446-484 | an image item yields a path exactly when it carries base64 data that decodes and is written |
| SurveyCsvs.ExtractedImages | structure_tools/generate_survey_csvs.py:445-484 | one path for every item that is saved, in order |
| SurveyCsvs.ExtractEncryptedImages | structure_tools/generate_survey_csvs.py:424-494 | the extraction raises exactly when the cell is present but not text; text not starting with '[' gives no images |
| SurveyCsvs.ProcessImagesResult | structure_tools/generate_survey_csvs.py:395-422 | images switched off give no paths and no error; an error that escapes leaves no paths |
| SurveyCsvs.ImageFilesCell | structure_tools/generate_survey_csvs.py:268 | the `image_files` cell is '' for no images, and otherwise the paths joined by ';' |
| SurveyCsvs.Copied | structure_tools/generate_survey_csvs.py:162-198 | the copied columns are exactly the named ones, each taken from the source with the default when absent |
| SurveyCsvs.ConsentRecord | structure_tools/generate_survey_csvs.py:152-202 | a consent record is built exactly when data and metadata both parse to dictionaries; a non-dictionary `data` raises the `.get` error; the record keeps the response id, `consented_at` and exactly the twenty columns that default to 0, the nineteen consent permissions and `synced` |
| SurveyCsvs.InitialRecord | structure_tools/generate_survey_csvs.py:204-284 | an initial record is built exactly when data and metadata both parse to dictionaries, with the same error as consent otherwise |
| SurveyCsvs.LocationRecord | structure_tools/generate_survey_csvs.py:373-390 | a location row carries the response id, the point's latitude and longitude and the survey's sharing option |
| SurveyCsvs.LocationRecords | structure_tools/generate_survey_csvs.py:369-393 | one row per location, in order |
| SurveyCsvs.LocationEffect | structure_tools/generate_survey_csvs.py:365-393 | empty data adds nothing; a list of locations adds one row per leading dictionary, and raises exactly when a later item is not a dictionary |
| SurveyCsvs.BiweeklyRecord | structure_tools/generate_survey_csvs.py:286-363 | a biweekly record is built exactly when data and metadata are dictionaries and the length of the location list can be taken; a non-dictionary `data` raises the `.get` error and a failing count raises its own error; a built record's point count is that length, and it keeps the response id and the image cell |
| SurveyCsvs.BiweeklyCountMatchesLocations | structure_tools/generate_survey_csvs.py:296-347 | when the location step does not raise, the record's `location_points_count` equals the number of location rows added |
| SurveyCsvs.ConsentStepAppends | structure_tools/generate_survey_csvs.py:152-202 | a consent row changes only the consent table, and appends exactly when the record can be built |
| SurveyCsvs.InitialStepAppends | structure_tools/generate_survey_csvs.py:204-284 | an initial row changes only its table, the image counter and at most one error, and appends exactly when it does not raise |
| SurveyCsvs.BiweeklyStepAppends | structure_tools/generate_survey_csvs.py:286-393 | a biweekly row changes only its tables, counters and at most one error; the point counter grows with the location table |
| SurveyCsvs.UnknownRowIgnored | structure_tools/generate_survey_csvs.py:144-145 | a row of unknown type leaves every table and counter as it was |
| SurveyCsvs.RowEffectKeepsCounts | structure_tools/generate_survey_csvs.py:125-150 | after any row, each counter still equals its table's length, the error log has only grown and the file counter is unchanged |
| SurveyCsvs.ConsentRowCountedIffRecorded | structure_tools/generate_survey_csvs.py:135-137 | a consent row is counted exactly when its record is built; otherwise exactly one error naming row and file is logged |
| SurveyCsvs.ImagesOffLeaveImageCounter | structure_tools/generate_survey_csvs.py:399-400 | with images switched off no row moves the image counter |
| SurveyCsvs.RowsEffectKeepsCounts | structure_tools/generate_survey_csvs.py:125-150 | across a whole file the counters keep matching their tables and errors are only added |
| SurveyCsvs.FilesAccountedFor | structure_tools/generate_survey_csvs.py:103-111 | every file is either counted as processed or logged as an error, at most one count per file, and the counters keep matching their tables |
| SurveyCsvs.SurveyCsvCreator.constructor | structure_tools/generate_survey_csvs.py:55-86 | the creator starts with empty tables and zero counters |
| SurveyCsvs.SurveyCsvCreator.ProcessImages | structure_tools/generate_survey_csvs.py:395-422 | returns the image paths and adds their number to the counter, or logs the escaping error |
| SurveyCsvs.SurveyCsvCreator.ProcessLocationData | structure_tools/generate_survey_csvs.py:365-393 | appends the location rows and counts each, and reports what is raised |
| SurveyCsvs.SurveyCsvCreator.AppendLocationRows | structure_tools/generate_survey_csvs.py:372-393 | the leading objects of the list each append one location row, in order, and one point; the first entry that is not an object raises and nothing after it is appended; no other table or counter changes |
| SurveyCsvs.SurveyCsvCreator.ProcessConsentResponse | structure_tools/generate_survey_csvs.py:152-202 | the new state and the raised error are those of the consent step |
| SurveyCsvs.SurveyCsvCreator.ProcessInitialResponse | structure_tools/generate_survey_csvs.py:204-284 | the new state and the raised error are those of the initial step |
| SurveyCsvs.SurveyCsvCreator.ProcessBiweeklyResponse | structure_tools/generate_survey_csvs.py:286-363 | the new state and the raised error are those of the biweekly step |
| SurveyCsvs.SurveyCsvCreator.ProcessRow | structure_tools/generate_survey_csvs.py:126-145 | the row goes to the processor its type selects |
| SurveyCsvs.SurveyCsvCreator.ProcessIndexedRow | structure_tools/generate_survey_csvs.py:126-150 | a counted row bumps its counter; a raised error is logged with the row index and file name |
| SurveyCsvs.SurveyCsvCreator.CountRow | structure_tools/generate_survey_csvs.py:135-143 | only the statistics counter of the row's survey kind goes up by one; an unknown kind changes nothing |
| SurveyCsvs.SurveyCsvCreator.ProcessCsvFile | structure_tools/generate_survey_csvs.py:115-150 | the rows are processed in order |
| SurveyCsvs.SurveyCsvCreator.ProcessAllFiles | structure_tools/generate_survey_csvs.py:88-113 | returns false exactly when there are no files; each file's rows are processed and the file counted, or its error logged; the counters keep matching their tables |
| StructuredTables.FirstUsableFrom | structure_tools/create_structured_tables.py:521-528 | the column scan stops at the first usable column from position i, and every column it skips is unusable |
| StructuredTables.FoundValue | structure_tools/create_structured_tables.py:521-528 | `_find_value` gives None exactly when no candidate column is usable; a found value is non-empty, stripped at both ends and not a null word ('nan', 'none', 'null') |
| StructuredTables.FindValue | structure_tools/create_structured_tables.py:521-528 | the loop over the candidate columns returns `FoundValue`: the first usable column's stripped text, or None when none is usable |
| StructuredTables.FirstUsableAt | structure_tools/create_structured_tables.py:522-527 | when the columns before i are all unusable and column i is usable, the scan stops at i |
| StructuredTables.FoundValuePrefersEarlierColumns | structure_tools/create_structured_tables.py:522-527 | adding fallback column names after the list never changes a value that the earlier names already find |
| StructuredTables.Truncate | structure_tools/create_structured_tables.py:535 | `int()` of a float truncates toward zero: the result lies within one of the input, below it for non-negative inputs and above it for negative ones |
| StructuredTables.SafeInt | structure_tools/create_structured_tables.py:530-537 | no value gives None; a value whose text parses as a float gives exactly that float truncated toward zero, and any integer result is such a truncation |
| StructuredTables.SafeFloat | structure_tools/create_structured_tables.py:539-546 | a falsy value gives None; a non-empty string gives its float parse or None when it does not parse; a non-zero integer gives itself as a float, True gives 1.0, NaN passes through, a list or dict gives None, and a non-zero float passes through unchanged |
| StructuredTables.SafeBool | structure_tools/create_structured_tables.py:548-556 | booleans pass through; text is true exactly for 'true', 'yes', '1', 'on' or 'agree' in any case; numbers are true exactly when positive; anything else is false |
| StructuredTables.SafeBoolIgnoresCase | structure_tools/create_structured_tables.py:552-553 | upper-casing or lower-casing a text leaves its truth value unchanged |
| StructuredTables.FirstParsed | structure_tools/create_structured_tables.py:564-569 | the first format that parses wins: the result is None exactly when no format parses, and otherwise every earlier format failed |
| StructuredTables.SafeDate | structure_tools/create_structured_tables.py:558-572 | a date is given exactly when the value is truthy and one of the four formats parses it, and then it is the date of the first format that parses |
| StructuredTables.ParticipantOf | structure_tools/create_structured_tables.py:333-370 | a participant is extracted exactly when a participant id column holds a value; it carries that id and the age and household size read through `_safe_int` |
| StructuredTables.BiweeklyOf | structure_tools/create_structured_tables.py:372-403 | a response is extracted exactly when both a response id and a participant id are found; it carries both ids, has location data exactly when Q18 contains "DECRYPTED:", has a point count only then, and its date is `_safe_date` of RecordedDate |
| StructuredTables.ParseTimestamp | structure_tools/create_structured_tables.py:574-586 | only non-empty text parses; its result is the ISO parse with 'Z' read as '+00:00' whenever that succeeds, and otherwise the parse with the full date-time format, None when both fail |
| StructuredTables.DigitRun | structure_tools/create_structured_tables.py:401 | the `\d+` run is maximal: the counted characters are all digits and the next one is not |
| StructuredTables.CountAt | structure_tools/create_structured_tables.py:401 | a match at position p begins with 'DECRYPTED: ' |
| StructuredTables.LocationCountRoundTrip | structure_tools/create_structured_tables.py:399-403 | reading back 'DECRYPTED: n location points' gives n |
| StructuredTables.DigitRunIs | structure_tools/create_structured_tables.py:401 | a run of exactly n digits followed by a non-digit is measured as n |
| StructuredTables.CountImpliesMarker | structure_tools/create_structured_tables.py:395-403 | a count is found only in a text that holds 'DECRYPTED:' |
| StructuredTables.LocationCount | structure_tools/create_structured_tables.py:395-403 | a count is set only when the location flag is set |
| StructuredTables.ParticipantNeedsId | structure_tools/create_structured_tables.py:336-340 | an initial-survey row is kept exactly when one of its participant-id columns is usable, and that column's value is the id |
| StructuredTables.BiweeklyNeedsIds | structure_tools/create_structured_tables.py:376-403 | a biweekly row is kept exactly when both ids are found; it is flagged as having locations exactly when Q18 holds 'DECRYPTED:', and a count comes only with the flag |
| StructuredTables.BiweeklyReadsStatedCount | structure_tools/create_structured_tables.py:395-403 | a Q18 text 'DECRYPTED: n location points' gives the record a count of n |
| StructuredTables.StatedCountRead | structure_tools/create_structured_tables.py:395-403 | a text of that form raises the flag and yields its count |
| StructuredTables.PipelineSentinelGivesNoCount | structure_tools/create_structured_tables.py:395-403 | the 'DECRYPTED: n chars' text that the decryption pipeline writes (decryption_tools/automated_decryption_pipeline.py:383) raises the location flag but never yields a count |
| StructuredTables.ConsentOf | structure_tools/create_structured_tables.py:429-459 | a consent row is kept exactly when ResponseId and Q1 are truthy; it has the type 'initial_consent', and Q2, Q3 and Q4 are its three approvals |
| StructuredTables.TrackIdsDistinguishTimestamps | structure_tools/create_structured_tables.py:488-489 | two points of one participant share a track id exactly when their timestamps print alike |
| StructuredTables.TrackOf | structure_tools/create_structured_tables.py:461-510 | a location row is kept exactly when id, timestamp, latitude and longitude are all present and truthy, so a 0.0 coordinate drops the point; the participant id is the response id, and the track id joins id and timestamp |
| StructuredTables.FindFiles | structure_tools/create_structured_tables.py:512-519 | at most one file per candidate name, and none when no candidate is present |
| StructuredTables.FindFilesAppend | structure_tools/create_structured_tables.py:515-518 | one more candidate name appends its file exactly when it exists, after the files already found, so every present candidate is returned in the given order |
| StructuredTables.Kept | structure_tools/create_structured_tables.py:229-232 | a kept record is appended once, and a dropped row appends nothing |
| StructuredTables.Standard | structure_tools/create_structured_tables.py:333-510 | the generator's four extractors are the participant, biweekly, consent and location rules |
| StructuredTables.Extracted | structure_tools/create_structured_tables.py:229-232 | a file yields at most one record per row |
| StructuredTables.ExtractedFromRows | structure_tools/create_structured_tables.py:229-232 | every record in a source's list came from some row of its file |
| StructuredTables.ConsentsAreInitial | structure_tools/create_structured_tables.py:447-455 | every extracted consent record has the type 'initial_consent' |
| StructuredTables.TracksKeyedByResponse | structure_tools/create_structured_tables.py:466-467 | every extracted track has its participant id equal to its response id |
| StructuredTables.ExtractedStep | structure_tools/create_structured_tables.py:229-232 | extracting one more row appends only that row's record, if it is kept |
| StructuredTables.RowsAddedStep | structure_tools/create_structured_tables.py:229-232 | adding a file's rows one at a time is the same as adding them all |
| StructuredTables.SourceEffectFacts | structure_tools/create_structured_tables.py:214-331 | a source succeeds exactly when every one of its files reads; it changes only its own list and statistic, and each statistic stays equal to the length of its list |
| StructuredTables.SourceEffectTableOnly | structure_tools/create_structured_tables.py:274-331 | what the consent and location sources append depends only on their own lists |
| StructuredTables.LaterSourcesStillRun | structure_tools/create_structured_tables.py:201-205 | `success &=` runs every source: the consent records and location tracks come out the same whatever the earlier sources reported |
| StructuredTables.StructuredDataTablesGenerator.constructor | structure_tools/create_structured_tables.py:144-160 | the generator starts with empty lists, zero statistics and no issues |
| StructuredTables.StructuredDataTablesGenerator.AddRow | structure_tools/create_structured_tables.py:229-232 | the row's record is appended to its source's list when it is kept |
| StructuredTables.StructuredDataTablesGenerator.AddRows | structure_tools/create_structured_tables.py:229-232 | a file's rows are extracted in order |
| StructuredTables.StructuredDataTablesGenerator.CountFile | structure_tools/create_structured_tables.py:234-235 | a read file bumps the file counter and sets the source's statistic to its list's length |
| StructuredTables.StructuredDataTablesGenerator.ProcessSource | structure_tools/create_structured_tables.py:214-242 | the files are read in order; the first unreadable one logs the source's issue and ends it with failure |
| StructuredTables.StructuredDataTablesGenerator.ProcessAllData | structure_tools/create_structured_tables.py:188-212 | a missing input directory gives false and changes nothing; otherwise all four sources run in order, and success means every source succeeded; each statistic stays equal to the length of its list |
| ParticipantReports.SafeFilename | structure_tools/generate_participant_reports.py:147-148 | the name keeps its length, every character is alphanumeric, '-' or '_', and a character is kept exactly when it is already allowed |
| ParticipantReports.SafeFilenameIdempotent | structure_tools/generate_participant_reports.py:147-148 | making a file name safe twice is the same as once |
| ParticipantReports.FormatBoolean | structure_tools/generate_participant_reports.py:161-169 | a blank value reads 'No response recorded'; otherwise the answer is 'Yes', 'No' or the value's text |
| ParticipantReports.FormatBooleanPlain | structure_tools/generate_participant_reports.py:164-169 | for stripped non-null text, '1', 'true' and 'yes' give 'Yes', '0', 'false' and 'no' give 'No', and anything else is returned as is |
| ParticipantReports.FormatBooleanOfBool | structure_tools/generate_participant_reports.py:161-169 | a boolean answer reads 'Yes' or 'No' |
| ParticipantReports.FormatBooleanIgnoresCase | structure_tools/generate_participant_reports.py:164-166 | any casing and padding of 'yes' reads 'Yes' |
| ParticipantReports.FormatBooleanOfBit | structure_tools/generate_participant_reports.py:161-169 | the integers 1 and 0 read 'Yes' and 'No' |
| ParticipantReports.IsBlank | structure_tools/generate_participant_reports.py:151-158 | None and NaN are blank; a string is blank exactly when it strips to empty or to "nan" or "none" in any case; any other value is not blank |
| ParticipantReports.NonBlankStrings | structure_tools/generate_participant_reports.py:175-176 | blank items are dropped from a list answer, so it never grows |
| ParticipantReports.TrimmedParts | structure_tools/generate_participant_reports.py:184-187 | the parts kept after splitting are non-empty and stripped at both ends |
| ParticipantReports.ParseMulti | structure_tools/generate_participant_reports.py:172-188 | a blank value gives no items, and a list gives its non-blank items |
| ParticipantReports.FormatAnswer | structure_tools/generate_participant_reports.py:191-199 | a blank value reads 'No response recorded'; several parsed items are joined with ', '; a single item is shown as it is; a value with no parsed items is printed as is |
| ParticipantReports.TrimmedCleanParts | structure_tools/generate_participant_reports.py:184-187 | trimming parts that are already clean changes nothing |
| ParticipantReports.JoinedItemsText | structure_tools/generate_participant_reports.py:184-187 | clean items joined by ';' or ',' form a stripped text, not a JSON list, holding the separator (and no ';' when the separator is ',') |
| ParticipantReports.SeparatedTextNotNull | structure_tools/generate_participant_reports.py:151-158 | a text holding a separator is never a null word |
| ParticipantReports.ParseText | structure_tools/generate_participant_reports.py:175-186 | text that does not open with '[' is never read as JSON: it is split on ';' first, then on ',', and is otherwise a single item |
| ParticipantReports.ParseMultiPlainText | structure_tools/generate_participant_reports.py:177-188 | a stripped non-list text is split on ';' first, then on ',', and is otherwise a single item |
| ParticipantReports.MultiValueRoundTrip | structure_tools/generate_participant_reports.py:172-199 | a multi-answer stored joined by ';' or ',' parses back to exactly its items and is displayed joined by ', ' |
| ParticipantReports.Columns | structure_tools/generate_participant_reports.py:22-94 | the column names of a question map, in order |
| ParticipantReports.Lookup | structure_tools/generate_participant_reports.py:382 | the question shown for a column is one the map pairs with it |
| ParticipantReports.NewEntries | structure_tools/generate_participant_reports.py:382 | the override columns the base map lacks, each taken from the overrides |
| ParticipantReports.MergeQuestionMap | structure_tools/generate_participant_reports.py:382 | `{**base, **override}` keeps the base columns in their order, each with the override's question when there is one, and then appends the new override columns |
| ParticipantReports.MergeKeepsColumnsDistinct | structure_tools/generate_participant_reports.py:382 | merging two maps without repeated columns gives a map without repeated columns |
| ParticipantReports.NewEntriesDistinct | structure_tools/generate_participant_reports.py:382 | the appended override columns are distinct |
| ParticipantReports.AnswerLine | structure_tools/generate_participant_reports.py:247 | an answer line starts with the bold marker |
| ParticipantReports.AnswerLines | structure_tools/generate_participant_reports.py:242-247 | at most one line per question, each starting with the bold marker |
| ParticipantReports.FormatQuestionBlock | structure_tools/generate_participant_reports.py:242-250 | the loop over the question map builds `QuestionBlock`: one line per answered question, in map order, separated by blank lines |
| ParticipantReports.AnswerLinesSplit | structure_tools/generate_participant_reports.py:244-247 | the lines of two question maps in sequence are the lines of each, concatenated |
| ParticipantReports.NoLinesIffUnanswered | structure_tools/generate_participant_reports.py:244-248 | there are no answer lines exactly when no question's column is present and non-blank |
| ParticipantReports.NoResponsesIffUnanswered | structure_tools/generate_participant_reports.py:242-250 | the block reads '_No responses recorded._' exactly when no question is answered |
| ParticipantReports.FirstStampFacts | structure_tools/generate_participant_reports.py:218-226 | the first column that holds a parseable time wins, and there is none exactly when no column parses |
| ParticipantReports.ExtractTimestamp | structure_tools/generate_participant_reports.py:218-226 | a missing row has no time; when "submitted_at" parses, its time is the result |
| ParticipantReports.ExtractTimestampPrefersSubmitted | structure_tools/generate_participant_reports.py:218-226 | a parseable `submitted_at` is always the one used, and there is no time exactly when none of `submitted_at`, `timestamp` and `created_at` parses |
| ParticipantReports.LatestIsMaximum | structure_tools/generate_participant_reports.py:295-299 | the latest biweekly time is None exactly when no row has one, and otherwise it is a row's time and no row's time exceeds it |
| ParticipantReports.Stamps | structure_tools/generate_participant_reports.py:296-297 | one time per biweekly row, each extracted from that row |
| ParticipantReports.LatestTimestamp | structure_tools/generate_participant_reports.py:295-299 | the loop keeping the greatest time computes the latest of the rows' times |
| ParticipantReports.GroupKeys | structure_tools/generate_participant_reports.py:272 | the groups come in strictly increasing key order, each key once |
| ParticipantReports.GroupKeysAreRowKeys | structure_tools/generate_participant_reports.py:272 | a group key exists exactly when some consent row has a participant_uuid with that text |
| ParticipantReports.Matching | structure_tools/generate_participant_reports.py:283 | the rows matched for a key are rows of the table carrying that key |
| ParticipantReports.MatchingNonEmpty | structure_tools/generate_participant_reports.py:272-283 | a key taken from a row always matches at least that row |
| ParticipantReports.MatchesIn | structure_tools/generate_participant_reports.py:282-291 | the initial or biweekly matches are rows of that table carrying the key |
| ParticipantReports.EmptySignatureReadsNan | structure_tools/generate_participant_reports.py:307 | as written, a consent row whose signature cell is empty (read as NaN) gets the signature 'nan' |
| ParticipantReports.SignatureFacts | structure_tools/generate_participant_reports.py:307 | a signature is non-empty stripped text, a missing cell gives none, and only a missing cell makes it differ from the code as written |
| ParticipantReports.SignatureAsWritten | structure_tools/generate_participant_reports.py:307 | as written, the signature is None exactly when the stringified cell strips to empty, and otherwise non-empty with no space at either end |
| ParticipantReports.Signature | structure_tools/generate_participant_reports.py:307 | a missing cell gives None, any signature is non-empty with no space at either end, and it differs from the as-written reading only on a missing cell |
| ParticipantReports.Candidates | structure_tools/generate_participant_reports.py:272-276 | one candidate per group key, each what that key gives |
| ParticipantReports.Somes | structure_tools/generate_participant_reports.py:274-276 | skipping the empty keys never adds participants |
| ParticipantReports.SomesFacts | structure_tools/generate_participant_reports.py:274-312 | the participants are exactly the candidates present, none lost and none invented |
| ParticipantReports.BuildParticipant | structure_tools/generate_participant_reports.py:273-311 | one pass of the grouping loop gives no participant for a key that strips to '', and otherwise `GroupParticipant` (latest consent, latest initial record, sorted biweekly rows, their times and the signature) |
| ParticipantReports.GroupParticipant | structure_tools/generate_participant_reports.py:272-311 | the participant built for a group carries the stripped key, the signature of its consent row, the extracted consent and initial times, and the latest biweekly time |
| ParticipantReports.FindInitial | structure_tools/generate_participant_reports.py:280-286 | the initial record is the latest initial row with the key, None when the table is empty, lacks the column or has no such row, and its time is read from that record |
| ParticipantReports.FindBiweekly | structure_tools/generate_participant_reports.py:288-299 | the biweekly rows are the rows with the key, sorted by submission time when that column exists, and the latest time is the greatest time among them |
| ParticipantReports.ParticipantForUuid | structure_tools/generate_participant_reports.py:273-275 | a group gives a participant exactly when its key strips to non-empty text, and that text is the participant's uuid |
| ParticipantReports.BuildForKeys | structure_tools/generate_participant_reports.py:272-312 | the grouping loop keeps, in order, the participant of every group whose key is not blank |
| ParticipantReports.BuildParticipantData | structure_tools/generate_participant_reports.py:263-312 | `build_participant_data` returns one participant per group key that does not strip to '', in key order, and none when the consent table lacks a participant_uuid column |
| ParticipantReports.LatestConsentFacts | structure_tools/generate_participant_reports.py:253-260 | the consent row chosen for a group is one of that group's rows |
| ParticipantReports.InitialRecordFacts | structure_tools/generate_participant_reports.py:280-286 | a participant has an initial record exactly when the initial table has a row with its key, and the record is such a row |
| ParticipantReports.BiweeklyRowsFacts | structure_tools/generate_participant_reports.py:288-295 | the biweekly rows are exactly the biweekly table's rows with the key, reordered |
| ParticipantReports.ParticipantForFacts | structure_tools/generate_participant_reports.py:272-311 | a participant has the stripped key as uuid, its own consent row, an initial record exactly when one exists, and exactly its biweekly rows |
| ParticipantReports.ParticipantsFromConsentRows | structure_tools/generate_participant_reports.py:272-312 | every participant has a non-empty uuid and a consent row whose participant_uuid strips to it |
| ParticipantReports.ConsentRowsGiveParticipants | structure_tools/generate_participant_reports.py:272-312 | every consent row whose participant_uuid strips to non-empty text yields a participant with that uuid |
| ParticipantReports.ReportFilename | structure_tools/generate_participant_reports.py:516 | the report file is the safe form of the uuid (or 'participant') followed by '.html' |
| ParticipantReports.TesterEntries | structure_tools/generate_participant_reports.py:542-544 | the testers' section never lists more entries than there are participants |
| ParticipantReports.ParticipantEntries | structure_tools/generate_participant_reports.py:545-548 | the participants' section never lists more entries than there are participants |
| ParticipantReports.Entries | structure_tools/generate_participant_reports.py:496-550 | one index entry per participant |
| ParticipantReports.EntriesPartition | structure_tools/generate_participant_reports.py:542-548 | every participant lands in exactly one of the two sections |
| ParticipantReports.InsertEntry | structure_tools/generate_participant_reports.py:557-561 | inserting an entry adds exactly that entry |
| ParticipantReports.SortByKey | structure_tools/generate_participant_reports.py:557-561 | sorting an index section is a permutation of it |
| ParticipantReports.InsertEntrySorted | structure_tools/generate_participant_reports.py:557-561 | inserting into a sorted section keeps it sorted |
| ParticipantReports.SortByKeySorted | structure_tools/generate_participant_reports.py:557-561 | a sorted section is ordered by consent time, with entries that have no time last |
| ParticipantReports.WithKey | structure_tools/generate_participant_reports.py:557-561 | the entries sharing one sort key |
| ParticipantReports.WithKeyAppend | structure_tools/generate_participant_reports.py:557-561 | the entries with one key in two lists are those of each list, concatenated |
| ParticipantReports.WithKeyNone | structure_tools/generate_participant_reports.py:557-561 | a list with no entry of a key has none to pick |
| ParticipantReports.InsertEntryWithKey | structure_tools/generate_participant_reports.py:557-561 | inserting an entry puts it after every other entry with its key |
| ParticipantReports.WithKeyLast | structure_tools/generate_participant_reports.py:557-561 | the entries with a key in a list are those of its front, then the last entry if it has the key |
| ParticipantReports.SortByKeyStable | structure_tools/generate_participant_reports.py:557-561 | the sort is stable: entries with equal consent times keep their order |
| ParticipantReports.IndexSections | structure_tools/generate_participant_reports.py:496-561 | the index loop puts participants whose signature reads 'TESTER' in any case in the testers' section and everyone else in the participants' section, each sorted stably by consent time |
| MonthlyParticipation.FirstValidFacts | structure_tools/calculate_monthly_participation.py:38-42 | the participant code is '' exactly when no value is non-blank text; otherwise it is the stripped first such value |
| MonthlyParticipation.FirstValidString | structure_tools/calculate_monthly_participation.py:38-42 | the loop returns `FirstValid`: the first non-blank text value, stripped, or '' when there is none |
| MonthlyParticipation.FirstValid | structure_tools/calculate_monthly_participation.py:38-42 | the result is '' exactly when no value is a string with something besides whitespace |
| MonthlyParticipation.MdEscapeHead | structure_tools/calculate_monthly_participation.py:53-55 | an escaped text starts with a backslash in place of a leading pipe character, and otherwise with the text's own first character |
| MonthlyParticipation.MdEscapeRoundTrip | structure_tools/calculate_monthly_participation.py:53-55 | unescaping an escaped cell gives the original text back |
| MonthlyParticipation.MdEscapeGuardsPipes | structure_tools/calculate_monthly_participation.py:53-55 | every pipe character in an escaped cell is preceded by a backslash, so no cell can split the table row |
| MonthlyParticipation.MdEscape | structure_tools/calculate_monthly_participation.py:53-55 | escaping never shortens the text, and a text without a pipe is unchanged |
| MonthlyParticipation.Submissions | structure_tools/calculate_monthly_participation.py:84-98 | dropping rows without a uuid or a parseable time never adds submissions |
| MonthlyParticipation.ConsentKeys | structure_tools/calculate_monthly_participation.py:68-77 | the consent keys are exactly the uuids of consent rows that have a uuid and a parseable submission time |
| MonthlyParticipation.Months | structure_tools/calculate_monthly_participation.py:106 | one month per submission, each that submission's month |
| MonthlyParticipation.MonthCounts | structure_tools/calculate_monthly_participation.py:107-117 | one count per month column, each the number of the participant's submissions in that month |
| MonthlyParticipation.ConsentGroup | structure_tools/calculate_monthly_participation.py:71-76 | a participant's consent group holds only qualifying consent rows with that uuid |
| MonthlyParticipation.InsertByTime | structure_tools/calculate_monthly_participation.py:72 | inserting a row by time adds exactly that row |
| MonthlyParticipation.SortByTime | structure_tools/calculate_monthly_participation.py:72 | sorting by submission time is a permutation of the rows |
| MonthlyParticipation.InsertByTimeSorted | structure_tools/calculate_monthly_participation.py:72 | inserting into rows sorted by time keeps them sorted |
| MonthlyParticipation.SortByTimeSorted | structure_tools/calculate_monthly_participation.py:72 | the sorted rows are in ascending order of submission time |
| MonthlyParticipation.Signatures | structure_tools/calculate_monthly_participation.py:75 | one signature cell per consent row, in order |
| MonthlyParticipation.SumMonthCounts | structure_tools/calculate_monthly_participation.py:116-118 | over distinct months, the month columns add up to the count over all of those months |
| MonthlyParticipation.CountInNoMonths | structure_tools/calculate_monthly_participation.py:118 | no months count nothing |
| MonthlyParticipation.CountInAnyLast | structure_tools/calculate_monthly_participation.py:118 | adding a new month column adds that month's count |
| MonthlyParticipation.CountInAllMonths | structure_tools/calculate_monthly_participation.py:107-118 | when the columns cover every submission's month, counting over them counts all of the participant's submissions |
| MonthlyParticipation.Uuids | structure_tools/calculate_monthly_participation.py:119 | the uuid column, one per summary row |
| MonthlyParticipation.SummaryMonths | structure_tools/calculate_monthly_participation.py:100-117 | the month columns are in ascending order, each appears once, and they are exactly the months some submission falls in |
| MonthlyParticipation.SummaryParticipants | structure_tools/calculate_monthly_participation.py:68-77 | the rows are in ascending uuid order, one per participant, and they are exactly the participants with a qualifying consent row (`reindex(consent_meta.index)`) |
| MonthlyParticipation.SummaryCounts | structure_tools/calculate_monthly_participation.py:107-118 | each row has one count per month, that month's submissions of the participant, and `total_responses` equals all of the participant's submissions, so the month columns add up to the total |
| MonthlyParticipation.ComputeMonthlyCounts | structure_tools/calculate_monthly_participation.py:63-125 | no consent rows gives the empty summary; the computation fails exactly when there are consent rows and a column it reads is missing from a non-empty table |
| MonthlyParticipation.SortByTimeMembers | structure_tools/calculate_monthly_participation.py:72 | sorting keeps exactly the rows it was given |
| MonthlyParticipation.ParticipantCodeBlank | structure_tools/calculate_monthly_participation.py:75 | the participant code is '' exactly when none of the participant's consent rows has a non-blank signature |
| MonthlyParticipation.ParticipantCodeEarliest | structure_tools/calculate_monthly_participation.py:71-76 | a participant code is the stripped signature of the earliest consent row that has one |
| MonthlyParticipation.EarliestSignedIndex | structure_tools/calculate_monthly_participation.py:71-76 | the code's consent row is signed, and no signed row of the group is earlier |
| MonthlyParticipation.EarliestOfPermutation | structure_tools/calculate_monthly_participation.py:72-75 | the first qualifying element of a time-sorted permutation is a qualifying element of the original with the least time |
| MonthlyParticipation.Headers | structure_tools/calculate_monthly_participation.py:122 | the header holds code, uuid, total and then one column per month |
| MonthlyParticipation.RowCells | structure_tools/calculate_monthly_participation.py:144-146 | a row has a cell for code, uuid, total and each month |
| MonthlyParticipation.Dashes | structure_tools/calculate_monthly_participation.py:142 | one '---' per header |
| MonthlyParticipation.TableLines | structure_tools/calculate_monthly_participation.py:140-146 | the table is the header line, the rule line, and one line per summary row, in order |
| MonthlyParticipation.WriteMarkdownReport | structure_tools/calculate_monthly_participation.py:128-146 | the writer produces `MarkdownReport`: the title and introduction, then the header, the separator and one line per summary row, or the no-submissions note when there is no consent table or no row |
| MonthlyParticipation.ReportRowsMatchHeader | structure_tools/calculate_monthly_participation.py:140-146 | every row of a computed summary has as many cells as the header |
| Validation.Max1 | validate_survey_data.py:313 | the divisor `max(n, 1)` is at least 1 and equals n whenever n is positive |
| Validation.PercentBounds | validate_survey_data.py:288 | a part of a whole, as a percentage, lies in [0, 100] and is 100 exactly when the part is the whole and the whole is non-empty |
| Validation.PercentAbove | validate_survey_data.py:245 | comparing a percentage with a threshold is the same as comparing 100 times the part with the threshold times the whole |
| Validation.Column | validate_survey_data.py:229-231 | a column has one cell per row, and a row without the field contributes NaN |
| Validation.CountMissing | validate_survey_data.py:230-232 | the missing or empty cells of a column are at most its length |
| Validation.MissingCount | validate_survey_data.py:230-232 | a field's missing-plus-empty count never exceeds the number of records |
| Validation.PassedAtMostChecked | validate_survey_data.py:234-235 | the passed checks of a list of fields never exceed the checks made |
| Validation.CompletenessScoreBounds | validate_survey_data.py:284-289 | the overall completeness score of a table is a percentage in [0, 100] |
| Validation.CriticalFieldClassification | validate_survey_data.py:228-257 | a critical field raises an issue exactly when it is absent or has missing cells; the issue is critical exactly when the field is absent or more than 20% of it is missing, and a warning when 1 to 20% is |
| Validation.ImportantFieldClassification | validate_survey_data.py:259-282 | an important field raises an issue exactly when it is present and more than half of it is missing, and that issue is always a warning |
| Validation.ConsentVsInitialFacts | validate_survey_data.py:301-327 | consent-only plus both is the consent count, initial-only plus both is the initial count, the three partition the union, and the consistency rate lies in [0, 100] and is 100 exactly when both tables name the same non-empty set of participants |
| Validation.ParticipationRateBounds | validate_survey_data.py:330-340 | the biweekly participation rate lies in [0, 100] |
| Validation.CoordinateCountsFacts | validate_survey_data.py:368-381 | without a failing float conversion every location row is counted once, as valid or invalid, and the valid count is the number of rows within latitude 90 and longitude 180; the count fails exactly when some row's conversion fails |
| Validation.CoordinateErrorPersists | validate_survey_data.py:370-379 | a conversion error in an earlier row ends the whole count with that error |
| Validation.MissingCoordinateInvalid | validate_survey_data.py:374-375 | a row with a missing latitude or longitude counts as invalid and never raises |
| Validation.AccuracyValues | validate_survey_data.py:385 | coercing the accuracy column and dropping failures keeps at most as many values as cells |
| Validation.CountAbove | validate_survey_data.py:391 | the low-accuracy points (above 50 m) are at most the accuracy values |
| Validation.CountAtMost | validate_survey_data.py:390 | the high-accuracy points (10 m or better) are at most the accuracy values |
| Validation.SumBounds | validate_survey_data.py:499 | a sum of n percentages lies in [0, 100 n] |
| Validation.MeanBounds | validate_survey_data.py:499 | the mean of the completeness percentages, 0 when there are none, lies in [0, 100] |
| Validation.ComponentBounds | validate_survey_data.py:486-518 | file availability is worth at most 25, completeness at most 35, consistency at most 25 and location at most 15, so the total score lies in [0, 100] |
| Validation.ExitCodeMatchesGrade | validate_survey_data.py:623 | the run exits 0 exactly when the score earns grade A or B and 1 exactly when it earns C or F (lines 714-719), and a higher score never earns a lower grade |
| Validation.OccurrencesPositive | validate_survey_data.py:455-456 | a participant's biweekly row count is positive exactly when the participant appears in the biweekly table |
| Validation.SubstringAfter | validate_survey_data.py:463 | a text contains any piece it was built around |
| Validation.Scores | validate_survey_data.py:494-496 | the completeness scores are read in the order the tables were checked, one per table |
| Validation.SurveyDataValidator.constructor | validate_survey_data.py:51-70 | a new validator holds the loaded tables, no check results, no issues, no recommendations and a score of 0 |
| Validation.SurveyDataValidator.FilesAvailable | validate_survey_data.py:488-490 | at most four files count as available |
| Validation.SurveyDataValidator.AddIssue | validate_survey_data.py:539-545 | the issue is appended and nothing else changes |
| Validation.SurveyDataValidator.CheckCriticalFields | validate_survey_data.py:228-257 | the critical fields' issues are appended in field order and the checked and passed counts are returned |
| Validation.SurveyDataValidator.CheckCriticalField | validate_survey_data.py:228-256 | one critical field adds all the table's rows to the checked cells and the non-missing ones to the passed cells; it raises a critical issue when absent or more than 20% missing, a warning when 20% or less is missing, and nothing when complete |
| Validation.SurveyDataValidator.CheckImportantFields | validate_survey_data.py:259-282 | the important fields' issues are appended in field order and the checked and passed counts are returned |
| Validation.SurveyDataValidator.CheckImportantField | validate_survey_data.py:260-282 | one important field present in the table adds its rows to the checked cells and its non-missing rows to the passed cells, and raises a warning only when more than 50% is missing; an absent field changes nothing |
| Validation.SurveyDataValidator.CheckDataframeCompleteness | validate_survey_data.py:211-293 | critical issues then important issues are appended, and the result's score is the completeness of the table |
| Validation.SurveyDataValidator.CheckTableCompleteness | validate_survey_data.py:170-207 | a loaded table is checked and an absent one adds nothing; every score returned is a percentage |
| Validation.SurveyDataValidator.CheckDataCompleteness | validate_survey_data.py:163-209 | consent, initial, biweekly and location tables are checked in that order with their own critical and important fields; the issues and results of each are appended in that order |
| Validation.SurveyDataValidator.CompareConsentWithInitial | validate_survey_data.py:301-327 | when both tables are loaded and keyed the comparison is stored and its issues appended; a missing key column raises and changes nothing |
| Validation.SurveyDataValidator.CompareInitialWithBiweekly | validate_survey_data.py:330-346 | when both tables are loaded and keyed the participation rate is stored and a warning added below 50%; a missing key column raises and changes nothing |
| Validation.SurveyDataValidator.CheckParticipantConsistency | validate_survey_data.py:295-348 | succeeds exactly when both comparisons can be made, and then stores both; on failure the stored results are unchanged |
| Validation.SurveyDataValidator.AddLocationIssues | validate_survey_data.py:405-416 | below 95% validity a warning is added, and with more than 30% low-accuracy points an info issue is added, in that order |
| Validation.SurveyDataValidator.CountCoordinates | validate_survey_data.py:368-381 | the loop's counts are the coordinate counts of the rows, including the conversion error |
| Validation.SurveyDataValidator.CheckLocationDataQuality | validate_survey_data.py:353-422 | without location data one warning is added and nothing stored; otherwise it succeeds exactly when the response column exists and no coordinate conversion fails, and then stores the location results and appends their issues |
| Validation.SurveyDataValidator.Journey | validate_survey_data.py:443-457 | a journey has at most three stages |
| Validation.SurveyDataValidator.CompleteJourneyIff | validate_survey_data.py:462-464 | a journey is complete exactly when the participant has a consent record, an initial survey and at least one biweekly survey |
| Validation.SurveyDataValidator.AnalyzeParticipantJourneys | validate_survey_data.py:424-471 | the total is the number of participants in any table, the complete count is the number with complete journeys, each pattern's count is the number of participants with that journey, and only patterns seen are stored |
| Validation.SurveyDataValidator.CountJourneys | validate_survey_data.py:442-464 | over any iteration order, the counts equal the number of complete journeys and of participants per pattern |
| Validation.SurveyDataValidator.NothingCounted | validate_survey_data.py:439-440 | before the loop no journey and no pattern is counted |
| Validation.SurveyDataValidator.PatternStep | validate_survey_data.py:460-464 | counting one more participant bumps exactly its own pattern and adds one complete journey exactly when it is complete |
| Validation.SurveyDataValidator.JourneyStep | validate_survey_data.py:460-464 | adding a participant to the counted set grows the complete set and its pattern's set by that participant alone |
| Validation.SurveyDataValidator.CalculateOverallDataQualityScore | validate_survey_data.py:481-537 | the stored score is the weighted total of the stored results, lies in [0, 100], and exactly one recommendation for its band is appended |
| Validation.SurveyDataValidator.RunFullValidation | validate_survey_data.py:654-672 | together with the exit of `main` (lines 707-722): the code is 0 or 1; with no file loaded it is 1; code 0 means files were loaded, no check raised, the score is at least 75 and the grade is A or B; when files were loaded and nothing raises, the code is 0 exactly when the score is at least 75, the stored completeness, consistency, participation, location and journey results are those the step checks compute from the tables, the score is their weighted total and one score recommendation is appended |
| LocationAnalysis.ScenarioArithmetic | structure_tools/realistic_location_analysis.py:45-94 | every tracking scenario covers fourteen days, its daily points sample a whole day exactly at its frequency, and its total is fourteen days of daily points |
| LocationAnalysis.Filtered | structure_tools/realistic_location_analysis.py:291 | the filtered track is never empty and always starts with the first point |
| LocationAnalysis.KeptSubsequence | structure_tools/realistic_location_analysis.py:296-304 | the points kept after the first are drawn from the rest of the track, in order |
| LocationAnalysis.FilteredSubsequence | structure_tools/realistic_location_analysis.py:291-304 | the filtered track is the original track with some points left out, the rest in order, starting with the first point |
| LocationAnalysis.KeptChainMoves | structure_tools/realistic_location_analysis.py:297-304 | each kept point moved more than 0.0001 degrees in latitude or longitude away from the point kept before it |
| LocationAnalysis.FilteredMoves | structure_tools/realistic_location_analysis.py:291-304 | every point of the filtered track after the first moved away from its predecessor in the filtered track |
| LocationAnalysis.KeptAppend | structure_tools/realistic_location_analysis.py:296-304 | one more point is kept exactly when it moved away from the last point kept; a dropped point does not change the reference |
| LocationAnalysis.FilteredExtend | structure_tools/realistic_location_analysis.py:296-304 | filtering a track one point longer appends that point exactly when it moved away from the last point kept |
| LocationAnalysis.FilterStationary | structure_tools/realistic_location_analysis.py:291-304 | an empty track raises, and otherwise the loop's result is the filtered track |
| LocationAnalysis.ReducePrecision | structure_tools/realistic_location_analysis.py:256-265 | one copy per point, in order, with coordinates rounded to four places, accuracy and speed to one, altitude and heading to none, and every other field kept |
| LocationAnalysis.MinimalRecords | structure_tools/realistic_location_analysis.py:274-282 | one minimal record per point, in order: time stamp, coordinates to four places, accuracy to one |
| LocationAnalysis.RoundingKeepsTimes | structure_tools/realistic_location_analysis.py:258-280 | rounding never changes a point's time stamp or activity |
| LocationAnalysis.AnalyzeOptimizationStrategies | structure_tools/realistic_location_analysis.py:248-333 | an empty track raises; otherwise the four strategies are the reduced copy and the minimal records of every point, the filtered track, and the minimal records of the filtered track |
| LocationAnalysis.SubsequenceShorter | structure_tools/realistic_location_analysis.py:291-304 | a track with points left out is no longer than the original |
| LocationAnalysis.CombinedAtMostMinimal | structure_tools/realistic_location_analysis.py:291-325 | the stationary and combined strategies keep between one point and the whole track |

## Left out

- Cryptography: RSA, AES-GCM and AES-CBC are uninterpreted partial functions in `Ciphers.Crypto`. The library's PKCS #7 padder is modelled by `Ciphers.Pkcs7Pad`. Key generation and PEM loading (`load_private_key`, `generate_key_pair`) and passphrase prompts are interactive setup and are left out.
- Codecs and hashing: base64, UTF-8, JSON, `eval`, `ast.literal_eval`, `repr` of floats, lists and dictionaries, SHA-256 and float parsing are abstract `Common.Builtins` fields. Only what the scripts do around them is modelled.
- Dates and times: `strptime`, `fromisoformat`, `pd.to_datetime` and `to_period("M")` are the parameters `StructuredTables.Calendar`, `ParticipantReports.Clock` and `MonthlyParticipation.MonthClock`. `datetime.now()` in issue records and output names is left out.
- pandas: a table is a sequence of rows, each a map from column name to `Common.Value`. Column order, `dtype` inference, `groupby` with non-string keys and the exact NaN handling of list cells are not modelled. `_choose_latest` and `sort_values` in the report generator are the parameter `ParticipantReports.Frames`, with their choice stated by a predicate.
- File, network and process I/O is left out: S3 listing and fetching, HTTP image downloads, CSV, JSON and SQLite writes (`save_csv_files`, `_generate_output_files`, `_save_csv`, `_save_json`, `generate_sqlite_database`, `save_raw_payload`, `ensure_output_dirs`), `run_download_first`, `process_directory`, argument parsing and every `main`. The S3 listing is a sequence of keys and a fetch is a partial function of the key. Images reach the disk through `SurveyCsvs.MediaIo`.
- Console and report text is left out: `print_summary`, `generate_report`, `_generate_summary_report`, `print_summary_report`, `save_detailed_report`, `generate_recommendations` and `generate_summary_report`. Issues keep their severity and the figures they report, not their wording.
- Rendering is left out: `create_map_for_response`, the `render_*` sections, `build_report_html`, `format_timestamp` and `load_question_overrides` of the report generator. Only the question blocks and the index order are modelled. The monthly summary's Markdown table is modelled.
- Floating point: Python floats are exact reals. Rounding to one, two or six decimals (`round`), means and medians of accuracies, memory and timing metrics, and the random track generators (`generate_realistic_location_data`, the random steps of `generate_location_track`) are left out. The random steps and `round` are parameters.
- `EncryptionLimits.GenerateLocationTrack`: stores the unrounded coordinates. The source stores `round(current_lat, 6)` and `round(current_lng, 6)` (`structure_tools/analyze_encryption_limits.py`, lines 111-112).
- `MonthlyParticipation.SortByTime`: a stable insertion sort. The source's `sort_values("submitted_at")` (`structure_tools/calculate_monthly_participation.py`, line 72) uses pandas' default quicksort, which is not stable. So among consent rows with equal times, only the model is sure to take the first in table order as `participant_code`. `MonthlyParticipation.ParticipantCodeEarliest` holds whatever the order of ties.
- `LocationAnalysis.Rounding`: `round(x, n)` is uninterpreted, so the strategies' output sizes in bytes, JSON sizes and compression ratios of `run_analysis` are not computed.
- `DecryptionPipeline.PipelineResults.ProcessCsvFile`: the `Groups` input stands for the frame after three steps that are not modelled. The first is the Qualtrics header-row skip (`decryption_tools/automated_decryption_pipeline.py`, lines 250-253). The second is the `ResponseId` filter, which drops NaN, empty, `ImportId` and `Response ID` rows and raises `KeyError` when the column is missing (lines 258-260). The third is `groupby('survey_type')`, which drops rows whose survey type is NaN and sorts the group keys (line 273). The counts of decrypted responses and location points therefore cover only the rows that survive these steps.
- `Validation.SurveyDataValidator`: the issues that `load_data_files` records itself are not modelled. These are the "Failed to load" critical issue (`validate_survey_data.py`, line 108) and the "Required file missing" warning (line 112). The model receives the loaded tables and starts from an empty issue list. `analyze_data_summary` (lines 122-161) is not modelled either. It fills the summary dictionary for the printed report, and it raises KeyError when a loaded table lacks its id column (lines 132-151). The model counts such a run as one that raises: `NothingRaises` requires every loaded survey table to carry `participant_uuid` and the location table to carry `response_id`, and the later consistency, journey and location checks index the same columns. So leaving it out does not change the exit code.
- `_decrypt_response_location` of the pipeline is never called by the pipeline and is not modelled.
- SurveyDecrypt.LoadTestSurveys: takes the lines of the chosen file. Choosing the file among the default paths is left out, and so are the fixtures of `get_hardcoded_test_data` returned when no file exists and the read-error paths.
- Strings are ASCII for `lower`, `upper`, `isalnum` and `strip`. `Text.IsSpace` knows space, tab, newline, carriage return, vertical tab and form feed. Python's `str.strip()` also removes the separators `\x1c` to `\x1f` and non-ASCII whitespace such as `\x85` and `\xa0`; the model keeps those. Unicode case mapping is not modelled.
- `StructuredTables.SafeInt`: `int(float("inf"))` raises `OverflowError`, which `_safe_int` does not catch. The model's float parser yields only finite reals, so that exception path is not modelled.
- `StructuredTables.StructuredDataTablesGenerator.ProcessSource`: the per-row "extraction error" branch is unreachable in the model, because no extractor raises once its primitives are total.
- `SurveyCsvs.ExtractedImages`: iterating an image list that parsed to a dictionary (Python iterates its keys) gives no images in the model.
- `Validation.SurveyDataValidator.RunFullValidation`: compares the exact score with 75. The source compares the score rounded to one decimal, so scores from 74.95 up to 75 pass there and fail here. The same holds for `Validation.ExitCodeMatchesGrade` and the grade.
- `Validation.SurveyDataValidator.CalculateOverallDataQualityScore`: averages the exact completeness percentages and consistency rate. The source averages the figures after rounding each to one decimal.
- `Validation.SurveyDataValidator.CheckLocationDataQuality`: the accuracy statistics keep only the counts of points within 10 m and beyond 50 m, not the mean and median.

## Findings

| source | as written | input that shows it | evidently intended | confidence | as-written member | corrected member |
|---|---|---|---|---|---|---|
| structure_tools/generate_participant_reports.py:307 | the consent table is read without `fillna` (line 475), so an empty `participant_signature` cell is NaN, and `str(NaN).strip()` is the non-empty text "nan" | a consent row whose `participant_signature` cell is empty | an empty signature gives no signature (None), as the `or None` intends | medium, not executed | ParticipantReports.SignatureAsWritten, ParticipantReports.EmptySignatureReadsNan | ParticipantReports.Signature, ParticipantReports.SignatureFacts |
