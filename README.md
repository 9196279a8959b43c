# QR attendance scanners of frontend-adb, modelled in Dafny

This project models the front end's QR attendance pipeline and the small helpers around it.

- **Extractors.** The front end has four QR scanner components. Each has its own copy of the function that turns a decoded QR text into a student DNI (`extractDNIFromQR` / `extractDNI`). The model gives each copy's rules in order:
  - trimming;
  - the `JSON.parse` rule;
  - the regular expressions, with their ECMAScript meaning (`\d`, `\b`, the `i` flag, greedy `{8,10}`, leftmost match);
  - the 8-10 digit rule.

  It proves what each copy returns and where the copies agree or differ.
- **Generator.** The test QR generator `GeneradorQRPrueba` has three payload formats. Each payload is shown to read back as the DNI it was made from in every scanner.
- **Scanner components.** Each scanner is a class whose fields are the component's state and refs. Each handler is a method that is proved to compute a pure transition function on a `State` value. Its lemmas cover:
  - the invariant the transitions keep: one live interval exactly while scanning, and only non-empty DNIs reported;
  - the processing flags and the guards that drop ticks;
  - the cooldowns;
  - the fallback schedule (local decoder on the first five ready ticks, remote API on every third);
  - the timers after an invalid QR.

  Timers and the interval are modelled as counters of pending callbacks, and each callback is a method.
- **Attendance page.** `RegistroAsistenciaQR` chains these steps: validate, register, reload, message and its clearing timer. It also filters the day's records.
- **Student form.** `AgregarEstudiante` covers the faculty/career filter effect, the photo size limit and the submit. The submit makes the student POST, then one POST per career and per club, collects their errors and writes the final message.
- **Backup.** The backup service classifies errors and formats file sizes. The backup widget picks its status tier.

The modules are these:
- `Text`: characters, JavaScript `trim`, decimal text, `filter`;
- `Json`: the parser as a parameter, and `JSON.stringify` escaping;
- `Patterns`: the regular expressions;
- `Extraction`: the extractor copies;
- `Generator`;
- `ScannerQr`, `ScannerSimple`, `ScannerFuncional` and `ScannerFallback`, one per scanner component;
- `Attendance`;
- `StudentForm`;
- `Backup`.

Some parts of the system are parameters rather than modelled code:
- `JSON.parse` is a parameter. Lemmas that need it to reject non-objects assume `ObjectsOnly(parse)`. Lemmas that need it to read back `JSON.stringify` output assume `ReadsBackAttendance(parse)`.
- The camera, the ZXing decoder and the HTTP requests appear as the outcome they settle with: a `Decode`, `Remote`, `QuickChart`, `QrServer`, `Validation` or `Registration` value.
- The clock is an integer parameter `now`.

## Model

| member | source | states |
|---|---|---|
| Text.TrimStart | src/components/EscanerQR.jsx:115 | the result is a suffix of the input, and everything dropped is ECMAScript whitespace; the result does not start with whitespace |
| Text.TrimEnd | src/components/EscanerQR.jsx:115 | the result is a prefix of the input, and everything dropped is ECMAScript whitespace; the result does not end with whitespace |
| Text.TrimOfTrimmed | src/components/EscanerQRSimple.jsx:100 | a text without whitespace at either end is unchanged by `trim` |
| Text.TrimIdempotent | src/components/EscanerQRConFallback.jsx:234 | trimming an already trimmed text changes nothing |
| Text.NatToString | src/components/GeneradorQRPrueba.jsx:16-20 | the decimal text of a number (as `JSON.stringify` writes the timestamp) is non-empty and all digits |
| Text.NatToStringValue | src/services/backup.service.js:84-85 | the decimal text of `n` denotes `n` again |
| Text.OrElse | src/services/backup.service.js:111 | `v \|\| fallback` is `v` when `v` is a non-empty string, and the fallback otherwise (absent or empty) |
| Text.Filter | src/pages/RegistroAsistenciaQR.jsx:114-117 | `filter` keeps exactly the elements that pass the test, and never grows the list |
| Text.FilterKeepsOrder | src/components/AgregarEstudiante.jsx:48 | what `filter` keeps appears in the original order |
| Text.FilterCounts | src/pages/RegistroAsistenciaQR.jsx:114-117 | `filter` keeps every copy of a kept element and no copy of a rejected one |
| Json.NotAnObject | src/components/EscanerQRSimple.jsx:108-115 | a text whose first character is neither JSON whitespace nor `{` is not read as an object, so the JSON rule is skipped |
| Json.EscapeDigits | src/components/GeneradorQRPrueba.jsx:16-20 | `JSON.stringify` writes a digit string without escapes |
| Patterns.DigitRun | src/components/EscanerQR.jsx:153 | the length of the maximal run of digits starting at a position |
| Patterns.GreedyDigits | src/components/EscanerQR.jsx:153 | greedy `(\d{8,10})` captures 8-10 digits of the text: ten if there are ten, otherwise the whole run; it fails exactly when fewer than eight digits start there |
| Patterns.GreedyIffEight | src/components/EscanerQR.jsx:153 | the greedy capture succeeds exactly where eight digits in a row start |
| Patterns.BoundedRun | src/components/EscanerQRSimple.jsx:130 | `(\d{8,10})\b` with backtracking captures the longest run of 10, 9 or 8 digits at the position that a word boundary follows, and fails if and only if none of the three lengths fits |
| Patterns.KeyAt | src/components/EscanerQR.jsx:132-133 | `key[=:](\d{8,10})` under the `i` flag captures only 8-10 digit strings |
| Patterns.MatchAt | src/components/EscanerQRSimple.jsx:118-130 | any pattern's group 1 at a start position is an 8-10 digit string |
| Patterns.Search | src/components/EscanerQR.jsx:137 | the search finds the first start position where the pattern matches, and nothing before it matches; when it fails, no position matches |
| Patterns.FirstMatch | src/components/EscanerQR.jsx:137 | `s.match(p)[1]` is an 8-10 digit string when it exists |
| Patterns.NoMatch | src/components/EscanerQR.jsx:137-138 | `match` returns `null` if and only if the pattern matches at no position |
| Patterns.LeftmostMatch | src/components/EscanerQR.jsx:137 | the leftmost matching position decides the capture |
| Patterns.FirstPatternMatch | src/components/EscanerQR.jsx:136-142 | the pattern loop returns an 8-10 digit string or nothing |
| Patterns.NoPatternMatch | src/components/EscanerQR.jsx:136-142 | the loop returns nothing if and only if every pattern fails |
| Patterns.FirstPatternWins | src/components/EscanerQRConFallback.jsx:256-259 | the first pattern of the list that matches decides the result |
| Patterns.MatchCapture | src/components/EscanerQRSimple.jsx:118-132 | a match's group 1 is a slice of the text at its capture start, where a run of at least eight digits starts |
| Patterns.GreedyCapture | src/components/EscanerQR.jsx:153-157 | a greedy capture is the slice of the text at its start |
| Patterns.KeyCapture | src/components/EscanerQR.jsx:132-133 | a key pattern's capture is the greedy capture just after the key and its separator |
| Patterns.GreedyRun | src/components/EscanerQR.jsx:145-149 | at the start of a run of 8-10 digits that no digit follows, the greedy capture is the whole run |
| Patterns.LitAtIgnoringCase | src/components/EscanerQRSimple.jsx:118 | a lower-case literal found exactly is also found under the `i` flag |
| Extraction.PatternImpliesAnyDigits | src/components/EscanerQR.jsx:152-158 | if any pattern matches, the catch-all `/(\d{8,10})/` matches too |
| Extraction.AnyDigitsNone | src/components/EscanerQR.jsx:153-158 | the catch-all fails if and only if no eight digits in a row occur |
| Extraction.QrTextRules | src/components/EscanerQR.jsx:128-161 | the non-JSON rules of `extractDNIFromQR`, in order: the first of the four patterns that matches gives its capture; failing that, the whole text when it is 8-10 digits; failing that, the first run of eight or more digits cut to ten; the result is 8-10 digits, `null` if and only if the text holds no eight consecutive digits |
| Extraction.ExtractDniFromQR | src/components/EscanerQR.jsx:110-166 | an attendance object (`tipo === 'asistencia'` with a truthy `dni`) yields its `dni`; otherwise the result is exactly QrTextRules of the trimmed text; `null` if and only if the text is not such an object and holds no eight consecutive digits |
| Extraction.SimpleTextRules | src/components/EscanerQRSimple.jsx:117-135 | the path, key and bounded-digit rules return an 8-10 digit string, and `null` if and only if none of the three patterns matches at any position |
| Extraction.ExtractDni | src/components/EscanerQRSimple.jsx:96-136 | a trimmed 8-10 digit text is returned as is; otherwise an object with a truthy `dni` or `DNI` yields it (`dni` first); otherwise the first of the path, key and bounded-digit patterns that matches decides, and the result is 8-10 digits; `null` if and only if the text is neither a DNI nor such an object and none of the three patterns matches |
| Extraction.ExtractDniPatternLoop | src/components/EscanerQRConFallback.jsx:233-262 | any result outside the JSON rule is 8-10 digits; `null` if and only if the text is neither a DNI nor an object with a truthy `dni`/`DNI` and none of the three loop patterns matches |
| Extraction.LoopIsChain | src/components/EscanerQRConFallback.jsx:249-259 | the loop over three patterns gives the same result as the chain of three `match` calls in the other copies |
| Extraction.CopiesAgree | src/components/EscanerQRConFallback.jsx:233-262 | the pattern-loop copy returns the same DNI as the `EscanerQRSimple`/`EscanerQRFuncional` copy for every text and every parser |
| Extraction.ExtractDniNonEmpty | src/components/EscanerQRFuncional.jsx:165-209 | a returned DNI is never the empty string |
| Extraction.PatternLoopResultsNonEmpty | src/components/EscanerQRConFallback.jsx:233-262 | every DNI the pattern-loop copy returns is non-empty |
| Extraction.ExtractDniFromQRNonEmpty | src/components/EscanerQR.jsx:110-166 | every DNI `extractDNIFromQR` returns is non-empty |
| Extraction.NoQrPatternInDigits | src/components/EscanerQR.jsx:129-134 | in a text made only of digits, none of the four path and key patterns matches |
| Extraction.NoKeyOrPathAt | src/components/EscanerQR.jsx:129-134 | no path or key pattern (of either copy) matches at a position holding neither `/` nor a `d` or `i` in either case |
| Extraction.NoKeyOrPathAtDigit | src/components/EscanerQR.jsx:129-134 | no path or key pattern matches at a digit or at the end of the text |
| Extraction.NoKeyOrPathBeforeDigit | src/components/EscanerQRSimple.jsx:117-127 | no path or key pattern matches at a word character followed by a digit |
| Extraction.NoKeyOrPathGlued | src/components/EscanerQRSimple.jsx:117-127 | in a word character followed by digits, no path or key pattern matches anywhere |
| Extraction.QrDirectDigits | src/components/EscanerQR.jsx:144-150 | an 8-10 digit text, padded or not, is returned trimmed |
| Extraction.LongRunRejected | src/components/EscanerQRSimple.jsx:103-133 | a run of more than ten digits alone is rejected (`\b` after ten digits fails) |
| Extraction.NoBoundaryGlued | src/components/EscanerQRSimple.jsx:130 | digits glued to a letter have no `\b` in front of them, so `/\b(\d{8,10})\b/` fails |
| Extraction.GluedTrim | src/components/EscanerQRSimple.jsx:100 | a word character followed by a DNI has nothing for `trim` to remove |
| Extraction.GluedNotJson | src/components/EscanerQRSimple.jsx:108-115 | a text that starts with a word character does not parse as a JSON object |
| Extraction.GluedNotDni | src/components/EscanerQRSimple.jsx:103 | a text that starts with a non-digit fails `/^\d{8,10}$/` |
| Extraction.GluedText | src/components/EscanerQRSimple.jsx:100-115 | a letter followed by a DNI is trimmed already, is not JSON and is not a DNI, so only the pattern rules apply |
| Extraction.GluedNoChainMatch | src/components/EscanerQRSimple.jsx:117-135 | in a letter followed by an 8-10 digit DNI, none of the path, key and bounded-digit patterns matches |
| Extraction.GluedDigitsRejected | src/components/EscanerQRSimple.jsx:96-136 | a letter followed by an 8-10 digit DNI gives `null` in `EscanerQRSimple` and `EscanerQRFuncional` |
| Extraction.AnyDigitsGlued | src/components/EscanerQR.jsx:153 | the catch-all without `\b` finds the DNI after a letter |
| Extraction.GluedDigitsAccepted | src/components/EscanerQR.jsx:110-166 | the same text gives the DNI in `EscanerQR`, so the copies disagree on it |
| Extraction.DniKeyInPair | src/components/EscanerQR.jsx:132 | in `id=<a>&dni=<b>`, `/dni[=:](\d{8,10})/i` captures `b` |
| Extraction.KeyParamInPair | src/components/EscanerQRSimple.jsx:124 | in `id=<a>&dni=<b>`, `/(?:dni\|id)[=:](\d{8,10})/i` captures `a` |
| Extraction.KeyPairChars | src/components/EscanerQR.jsx:129-134 | where each character of `id=<a>&dni=<b>` comes from; it holds no `/` |
| Extraction.NoPathWithoutSlash | src/components/EscanerQR.jsx:130-131 | without a `/` in the text, no path pattern matches anywhere |
| Extraction.KeyPairQrRules | src/components/EscanerQR.jsx:136-142 | `EscanerQR`'s pattern loop on `id=<a>&dni=<b>` finds no path and returns `b` from the `dni` pattern |
| Extraction.KeyPairTextRules | src/components/EscanerQRSimple.jsx:117-127 | the other copies' rules on `id=<a>&dni=<b>` find no path and return `a` from the key pattern |
| Extraction.KeyPairPlain | src/components/EscanerQRSimple.jsx:100-115 | `id=<a>&dni=<b>` is trimmed already, is not JSON and is not a DNI |
| Extraction.KeyOrderDiffers | src/components/EscanerQR.jsx:129-142 | for `id=<a>&dni=<b>`, `EscanerQR` returns `b` (it tries `dni` before `id`) and the other copies return `a` |
| Extraction.PlainTextDecides | src/components/EscanerQR.jsx:128-142 | on trimmed text that is neither JSON nor a bare DNI, each copy's result is what its own pattern rules return |
| Extraction.QrRulesDecide | src/components/EscanerQR.jsx:136-142 | on a trimmed non-JSON text, a pattern-loop match is the result |
| Extraction.TextRulesDecide | src/components/EscanerQRFuncional.jsx:186-207 | on a trimmed non-JSON text that is not itself a DNI, the text rules decide |
| Extraction.TextRulesReject | src/components/EscanerQRSimple.jsx:96-136 | on a trimmed non-JSON text that is not a DNI and where neither the path, the key nor the bounded-digit pattern matches, `extractDNI` returns `null`, in both copies |
| Extraction.JsonDniUnchecked | src/components/EscanerQR.jsx:119-123 | a JSON `dni` is returned without any check of its shape (`"abc"` comes back) |
| Generator.AttendanceJson | src/components/GeneradorQRPrueba.jsx:15-20 | the JSON payload is an object text: it starts with `{` and ends with `}` |
| Generator.Payload | src/components/GeneradorQRPrueba.jsx:13-23 | `simple` is the DNI itself; `json` is an object text; any other type is the profile URL, host and path followed by the DNI |
| Generator.SimpleRoundTrip | src/components/GeneradorQRPrueba.jsx:13-14 | the `simple` payload of an 8-10 digit DNI reads back as that DNI in all three extractors |
| Generator.JsonText | src/components/GeneradorQRPrueba.jsx:15-20 | the JSON payload has no whitespace to trim and is not a DNI |
| Generator.ReadsAsAttendance | src/components/EscanerQR.jsx:119-123 | a text read as an attendance object with a non-empty `dni` yields that `dni` in all three extractors |
| Generator.JsonRoundTrip | src/components/GeneradorQRPrueba.jsx:15-20 | the `json` payload of any non-empty DNI reads back as that DNI in all three extractors |
| Generator.NoPathInHost | src/components/GeneradorQRPrueba.jsx:22 | no path pattern matches inside the host part of the URL payload |
| Generator.MatchAtProfile | src/components/GeneradorQRPrueba.jsx:22 | at the profile path, both path patterns capture the DNI |
| Generator.ProfileIgnoringCase | src/components/EscanerQRSimple.jsx:118 | the URL payload holds `perfil-estudiante/` under the `i` flag right after the host's `/` |
| Generator.PathAtProfile | src/components/GeneradorQRPrueba.jsx:22 | the first path match in the URL payload is at the profile path and captures the DNI |
| Generator.UrlHead | src/components/GeneradorQRPrueba.jsx:22 | the URL payload is too long to be a DNI, starts with `h` and ends with the DNI |
| Generator.UrlReadsBackQr | src/components/EscanerQR.jsx:129-141 | `extractDNIFromQR` finds the DNI of the URL payload with its first pattern |
| Generator.UrlReadsBack | src/components/EscanerQRSimple.jsx:117-121 | the other extractors find the DNI of the URL payload with their path pattern |
| Generator.UrlRoundTrip | src/components/GeneradorQRPrueba.jsx:21-23 | the URL payload of an 8-10 digit DNI reads back as that DNI in all three extractors |
| ScannerQr.InitialConsistent | src/components/EscanerQR.jsx:7-14 | the component starts consistent: not scanning, no interval, no decode outstanding |
| ScannerQr.StartConsistent | src/components/EscanerQR.jsx:34-43 | starting a stopped scanner keeps one interval exactly while scanning |
| ScannerQr.StopConsistent | src/components/EscanerQR.jsx:102-108 | stopping keeps the invariant and leaves no interval |
| ScannerQr.TickConsistent | src/components/EscanerQR.jsx:45-66 | the start of a tick keeps the invariant: the flag is up only while a decode is outstanding |
| ScannerQr.HandleSteady | src/components/EscanerQR.jsx:70-86 | acting on a new text keeps the steady part of the invariant when the DNI found is non-empty |
| ScannerQr.DecodedConsistent | src/components/EscanerQR.jsx:65-93 | the rest of the tick keeps the invariant, however the decode settles |
| ScannerQr.ResetConsistent | src/components/EscanerQR.jsx:81-84 | the 3-second reset keeps the invariant |
| ScannerQr.BusyTickIgnored | src/components/EscanerQR.jsx:46 | while `isProcessing` is up, a tick changes nothing |
| ScannerQr.DecodeStartsWhenIdle | src/components/EscanerQR.jsx:46-51 | a decode starts only when the flag is down and the video is ready, and then it holds the flag |
| ScannerQr.DecodedReleases | src/components/EscanerQR.jsx:90-92 | however the decode settles, `finally` lowers the flag and one decode fewer is outstanding |
| ScannerQr.NothingNewIgnored | src/components/EscanerQR.jsx:66-72 | no text, an empty text or the text just scanned changes only the flag |
| ScannerQr.NewTextStops | src/components/EscanerQR.jsx:70-74 | a new text stops the scanner and becomes `lastScan` |
| ScannerQr.NewTextDetected | src/components/EscanerQR.jsx:75-79 | a new text with a DNI passes that DNI to `onQRDetected` |
| ScannerQr.NewTextRejected | src/components/EscanerQR.jsx:80-85 | a new text without a DNI shows the invalid-QR message and arms the reset timer; nobody is called |
| ScannerQr.ResetDoesNotRestart | src/components/EscanerQR.jsx:81-84 | the reset timer clears the message and `lastScan` and does not restart scanning |
| ScannerQr.RejectedTextNewAfterReset | src/components/EscanerQR.jsx:70-84 | after the reset, the rejected QR counts as new again |
| ScannerQr.StopIdempotent | src/components/EscanerQR.jsx:102-108 | stopping twice is stopping once |
| ScannerQr.QrScanner.constructor | src/components/EscanerQR.jsx:7-14 | the fields start at the initial state |
| ScannerQr.QrScanner.StartScanning | src/components/EscanerQR.jsx:34-43 | updates the fields as `startScanning` does |
| ScannerQr.QrScanner.StopScanning | src/components/EscanerQR.jsx:102-108 | updates the fields as `stopScanning` does |
| ScannerQr.QrScanner.OnTick | src/components/EscanerQR.jsx:45-66 | updates the fields as a tick does up to the `await` |
| ScannerQr.QrScanner.OnDecoded | src/components/EscanerQR.jsx:65-97 | updates the fields as the rest of the tick does |
| ScannerQr.QrScanner.HandleText | src/components/EscanerQR.jsx:70-86 | updates the fields as the new-text branch does |
| ScannerQr.QrScanner.OnResetTimer | src/components/EscanerQR.jsx:81-84 | updates the fields as the reset timer does |
| ScannerSimple.Handle | src/components/EscanerQRSimple.jsx:77-94 | `handleQRDetection` always stops the scanner and clears its interval, and leaves the cooldown clock alone |
| ScannerSimple.InitialConsistent | src/components/EscanerQRSimple.jsx:7-13 | the component starts consistent |
| ScannerSimple.StartConsistent | src/components/EscanerQRSimple.jsx:27-37 | starting a stopped scanner keeps one interval exactly while scanning |
| ScannerSimple.StopConsistent | src/components/EscanerQRSimple.jsx:69-75 | stopping keeps the invariant and leaves no interval |
| ScannerSimple.TickConsistent | src/components/EscanerQRSimple.jsx:39-66 | a tick keeps the invariant |
| ScannerSimple.RestartConsistent | src/components/EscanerQRSimple.jsx:89-92 | the restart keeps the invariant when the scanner is still stopped as it fires |
| ScannerSimple.CooldownIgnores | src/components/EscanerQRSimple.jsx:56-60 | within 2000 ms of the last detection acted on, a tick changes nothing |
| ScannerSimple.ActedTickStops | src/components/EscanerQRSimple.jsx:55-60 | a tick that acts on a result records its time and stops the interval |
| ScannerSimple.ValidDetection | src/components/EscanerQRSimple.jsx:84-87 | a result with a DNI passes that DNI to `onQRDetected` once and schedules nothing |
| ScannerSimple.InvalidDetection | src/components/EscanerQRSimple.jsx:88-93 | a result without a DNI calls nobody, quotes the text and schedules a restart |
| ScannerSimple.MessageQuotesText | src/components/EscanerQRSimple.jsx:88 | the message contains the decoded text verbatim |
| ScannerSimple.RestartResumes | src/components/EscanerQRSimple.jsx:89-92 | when the restart fires with the video present, scanning resumes with no message |
| ScannerSimple.StopIdempotent | src/components/EscanerQRSimple.jsx:69-75 | stopping twice is stopping once |
| ScannerSimple.RestartLeaksInterval | src/components/EscanerQRSimple.jsx:89-92 | as written: a start during the 3 s, then the restart, then a stop leaves scanning off with one interval still running |
| ScannerSimple.GuardedRestartFires | src/components/EscanerQRSimple.jsx:89-92 | (corrected) the restart timer clears the message, and calls `startScanning` only when nothing restarted the scanner meanwhile |
| ScannerSimple.GuardedRestartConsistent | src/components/EscanerQRSimple.jsx:89-92 | the restart that starts only a stopped scanner keeps the invariant from every consistent state, so a stop always clears every interval |
| ScannerSimple.SimpleScanner.constructor | src/components/EscanerQRSimple.jsx:7-13 | the fields start at the initial state |
| ScannerSimple.SimpleScanner.StartScanning | src/components/EscanerQRSimple.jsx:27-37 | updates the fields as `startScanning` does |
| ScannerSimple.SimpleScanner.StopScanning | src/components/EscanerQRSimple.jsx:69-75 | updates the fields as `stopScanning` does |
| ScannerSimple.SimpleScanner.HandleQrDetection | src/components/EscanerQRSimple.jsx:77-94 | updates the fields as `handleQRDetection` does |
| ScannerSimple.SimpleScanner.OnTick | src/components/EscanerQRSimple.jsx:39-66 | updates the fields as an interval tick does |
| ScannerSimple.SimpleScanner.OnRestartTimer | src/components/EscanerQRSimple.jsx:89-92 | updates the fields as the restart timer does: it clears the message and calls `startScanning` whether or not scanning was restarted meanwhile |
| ScannerFuncional.Handle | src/components/EscanerQRFuncional.jsx:146-163 | `handleDetection` always stops the scanner and lowers `procesando`, and leaves the list of methods alone |
| ScannerFuncional.RemoteText | src/components/EscanerQRFuncional.jsx:122-130 | the API's text counts if and only if the response is `ok` and `data[0].symbol[0].data` is a non-empty text |
| ScannerFuncional.ApiStep | src/components/EscanerQRFuncional.jsx:102-144 | `tryWithAPI` makes exactly one request |
| ScannerFuncional.LocalMiss | src/components/EscanerQRFuncional.jsx:83-93 | after a failed local decode, the API is called if and only if `'ZXing'` was in the list the tick read |
| ScannerFuncional.AppendUnlessSingle | src/components/EscanerQRFuncional.jsx:85-87 | the guarded append never adds a second copy of an entry |
| ScannerFuncional.ComponentExtractorNonEmpty | src/components/EscanerQRFuncional.jsx:165-209 | the component's extractor never returns an empty DNI |
| ScannerFuncional.InitialConsistent | src/components/EscanerQRFuncional.jsx:7-14 | the component starts consistent |
| ScannerFuncional.StartConsistent | src/components/EscanerQRFuncional.jsx:29-41 | starting a stopped scanner keeps one interval exactly while scanning |
| ScannerFuncional.StopConsistent | src/components/EscanerQRFuncional.jsx:43-51 | stopping keeps the invariant and leaves no interval |
| ScannerFuncional.TickConsistent | src/components/EscanerQRFuncional.jsx:53-62 | the start of a tick keeps the invariant |
| ScannerFuncional.HandleSteady | src/components/EscanerQRFuncional.jsx:146-163 | a detection keeps the steady part of the invariant |
| ScannerFuncional.ApiStepSteady | src/components/EscanerQRFuncional.jsx:102-144 | the API step keeps the steady part of the invariant |
| ScannerFuncional.LocalMissSteady | src/components/EscanerQRFuncional.jsx:83-93 | the path after a local miss keeps the steady part of the invariant |
| ScannerFuncional.SettledConsistent | src/components/EscanerQRFuncional.jsx:64-99 | however the tick settles, the invariant holds afterwards |
| ScannerFuncional.RestartConsistent | src/components/EscanerQRFuncional.jsx:158-161 | the restart keeps the invariant when the scanner is still stopped as it fires |
| ScannerFuncional.BusyOrNoVideoIgnored | src/components/EscanerQRFuncional.jsx:54 | with `procesando` up or no video, a tick changes nothing |
| ScannerFuncional.NotReadyLeavesNoTrace | src/components/EscanerQRFuncional.jsx:56-62 | on a video without enough data the flag goes up and down again, and nothing else changes |
| ScannerFuncional.SettledReleases | src/components/EscanerQRFuncional.jsx:97-99 | however a started tick ends, `finally` lowers the flag |
| ScannerFuncional.LocalDetectionSkipsApi | src/components/EscanerQRFuncional.jsx:78-81 | a local detection returns before the API: no request and the list unchanged |
| ScannerFuncional.ApiAfterEarlierFailure | src/components/EscanerQRFuncional.jsx:83-93 | the API is called only if an earlier tick already noted `'ZXing'` |
| ScannerFuncional.ApiOnlyAfterZXing | src/components/EscanerQRFuncional.jsx:91-93 | a request implies that `'ZXing'` was in the list |
| ScannerFuncional.ApiDetectionShape | src/components/EscanerQRFuncional.jsx:122-130 | an API answer becomes a detection only when it has the accepted shape |
| ScannerFuncional.ApiFailedRepeats | src/components/EscanerQRFuncional.jsx:138-142 | a failed request appends `'API Failed'` each time, since the guard looks for `'API'` |
| ScannerFuncional.ApiNotedOnce | src/components/EscanerQRFuncional.jsx:134-136 | a reply without data notes `'API'` once |
| ScannerFuncional.DetectionOutcome | src/components/EscanerQRFuncional.jsx:146-163 | a DNI goes to `onQRDetected`; otherwise the message shows the text and a restart is scheduled |
| ScannerFuncional.StartOutcome | src/components/EscanerQRFuncional.jsx:29-41 | without video only the message changes; with video the message and the list are cleared |
| ScannerFuncional.StopIdempotent | src/components/EscanerQRFuncional.jsx:43-51 | stopping twice is stopping once |
| ScannerFuncional.FuncionalScanner.constructor | src/components/EscanerQRFuncional.jsx:7-14 | the fields start at the initial state |
| ScannerFuncional.FuncionalScanner.StartScanning | src/components/EscanerQRFuncional.jsx:29-41 | updates the fields as `startScanning` does |
| ScannerFuncional.FuncionalScanner.StopScanning | src/components/EscanerQRFuncional.jsx:43-51 | updates the fields as `stopScanning` does |
| ScannerFuncional.FuncionalScanner.HandleDetection | src/components/EscanerQRFuncional.jsx:146-163 | updates the fields as `handleDetection` does |
| ScannerFuncional.FuncionalScanner.OnTick | src/components/EscanerQRFuncional.jsx:53-62 | updates the fields as the start of `tryDetectQR` does |
| ScannerFuncional.FuncionalScanner.TryWithApi | src/components/EscanerQRFuncional.jsx:102-144 | updates the fields as `tryWithAPI` does |
| ScannerFuncional.FuncionalScanner.AfterLocalMiss | src/components/EscanerQRFuncional.jsx:83-93 | updates the fields as the code after a local miss does |
| ScannerFuncional.FuncionalScanner.OnSettled | src/components/EscanerQRFuncional.jsx:64-99 | updates the fields as the rest of `tryDetectQR` does |
| ScannerFuncional.FuncionalScanner.OnRestartTimer | src/components/EscanerQRFuncional.jsx:158-161 | updates the fields as the restart timer does |
| ScannerFallback.Stop | src/components/EscanerQRConFallback.jsx:206-213 | `stopScanning` stops, lowers `usandoAPI` and keeps the run's counters |
| ScannerFallback.Handle | src/components/EscanerQRConFallback.jsx:215-231 | `handleQRDetection` always stops and lowers `usandoAPI`, and keeps the counters |
| ScannerFallback.AutoText | src/components/EscanerQRConFallback.jsx:115-122 | the automatic request detects if and only if the response is `ok` and `data.text` has a non-blank trim |
| ScannerFallback.AutoApi | src/components/EscanerQRConFallback.jsx:81-134 | the automatic request changes neither the counter nor the local decodes |
| ScannerFallback.AfterLocal | src/components/EscanerQRConFallback.jsx:67-71 | the API part of a tick leaves the counter and the local decodes alone |
| ScannerFallback.Tick | src/components/EscanerQRConFallback.jsx:35-75 | a tick never calls the alternative API |
| ScannerFallback.PrimaryText | src/components/EscanerQRConFallback.jsx:156-163 | the manual request accepts a truthy `data.text` of an `ok` response, without trimming |
| ScannerFallback.AlternativeText | src/components/EscanerQRConFallback.jsx:194-198 | qrserver.com's text counts if and only if the response is `ok` and `data[0].symbol[0].data` is truthy |
| ScannerFallback.ComponentExtractorNonEmpty | src/components/EscanerQRConFallback.jsx:233-262 | the component's extractor never returns an empty DNI |
| ScannerFallback.InitialConsistent | src/components/EscanerQRConFallback.jsx:7-13 | the component starts consistent |
| ScannerFallback.StartConsistent | src/components/EscanerQRConFallback.jsx:26-36 | starting a stopped scanner keeps the invariant and zeroes the run's counters |
| ScannerFallback.StopConsistent | src/components/EscanerQRConFallback.jsx:206-213 | stopping keeps the invariant and leaves no interval |
| ScannerFallback.HandleConsistent | src/components/EscanerQRConFallback.jsx:215-231 | a detection keeps the invariant |
| ScannerFallback.AfterLocalConsistent | src/components/EscanerQRConFallback.jsx:67-71 | the API part of a tick keeps the bound of one request per three ticks |
| ScannerFallback.TickConsistent | src/components/EscanerQRConFallback.jsx:35-75 | a tick keeps the invariant: local decodes are min(ticks, 5) and requests are at most ticks / 3 |
| ScannerFallback.ReleaseConsistent | src/components/EscanerQRConFallback.jsx:132 | the release timer keeps the invariant |
| ScannerFallback.RestartConsistent | src/components/EscanerQRConFallback.jsx:226-229 | the restart keeps the invariant when the scanner is still stopped as it fires |
| ScannerFallback.ManualConsistent | src/components/EscanerQRConFallback.jsx:136-175 | the manual request cascade keeps the invariant |
| ScannerFallback.CounterCountsReadyTicks | src/components/EscanerQRConFallback.jsx:37-41 | the counter starts at 0 with each run and goes up by one exactly on ready ticks |
| ScannerFallback.LocalOnlyFirstFive | src/components/EscanerQRConFallback.jsx:54-65 | the local decoder runs only on the first five ready ticks of a run |
| ScannerFallback.LocalDecodesBounded | src/components/EscanerQRConFallback.jsx:54-65 | a run decodes locally at most five times, and exactly five once past five ticks |
| ScannerFallback.RemoteOnlyEveryThird | src/components/EscanerQRConFallback.jsx:68-71 | a request goes out only on a ready tick whose count is a multiple of three, with no request in flight |
| ScannerFallback.LocalDetectionSkipsApi | src/components/EscanerQRConFallback.jsx:59-62 | a local detection returns before the API |
| ScannerFallback.RemoteWhenDue | src/components/EscanerQRConFallback.jsx:68-71 | otherwise a due tick sends the request and schedules its release |
| ScannerFallback.OneReleasePerRequest | src/components/EscanerQRConFallback.jsx:131-133 | every request schedules exactly one release of `usandoAPI`, whatever its outcome |
| ScannerFallback.BusyApiReturns | src/components/EscanerQRConFallback.jsx:82 | while `usandoAPI` is up, the automatic request returns at once |
| ScannerFallback.BlankReplyIgnored | src/components/EscanerQRConFallback.jsx:119-122 | a reply whose text is only whitespace leaves scanning on |
| ScannerFallback.ReleaseLowersFlag | src/components/EscanerQRConFallback.jsx:132 | the release timer lowers `usandoAPI` |
| ScannerFallback.ManualCascade | src/components/EscanerQRConFallback.jsx:136-175 | qrserver.com is asked exactly when quickchart.io gave no text, and `usandoAPI` ends down |
| ScannerFallback.DetectionOutcome | src/components/EscanerQRConFallback.jsx:215-231 | a DNI goes to `onQRDetected`; otherwise the message names the text and the method |
| ScannerFallback.StopIdempotent | src/components/EscanerQRConFallback.jsx:206-213 | stopping twice is stopping once |
| ScannerFallback.FallbackScanner.constructor | src/components/EscanerQRConFallback.jsx:7-13 | the fields start at the initial state |
| ScannerFallback.FallbackScanner.StartScanning | src/components/EscanerQRConFallback.jsx:26-36 | updates the fields as `startScanning` does |
| ScannerFallback.FallbackScanner.StopScanning | src/components/EscanerQRConFallback.jsx:206-213 | updates the fields as `stopScanning` does |
| ScannerFallback.FallbackScanner.HandleQrDetection | src/components/EscanerQRConFallback.jsx:215-231 | updates the fields as `handleQRDetection` does |
| ScannerFallback.FallbackScanner.TryApiAutomatically | src/components/EscanerQRConFallback.jsx:81-134 | updates the fields as `intentarConAPIAutomatica` does |
| ScannerFallback.FallbackScanner.OnTick | src/components/EscanerQRConFallback.jsx:35-75 | updates the fields as an interval tick does |
| ScannerFallback.FallbackScanner.OnReleaseTimer | src/components/EscanerQRConFallback.jsx:132 | updates the fields as the release timer does |
| ScannerFallback.FallbackScanner.OnRestartTimer | src/components/EscanerQRConFallback.jsx:226-229 | updates the fields as the restart timer does |
| ScannerFallback.FallbackScanner.TryAlternativeApi | src/components/EscanerQRConFallback.jsx:177-204 | updates the fields as `intentarConAPIAlternativa` does |
| ScannerFallback.FallbackScanner.TryApi | src/components/EscanerQRConFallback.jsx:136-175 | updates the fields as `intentarConAPI` does |
| Attendance.ValidationMessage | src/pages/RegistroAsistenciaQR.jsx:44-49 | the thrown message is 'Estudiante no encontrado' if and only if the status is 404; it is never empty |
| Attendance.RegistrationMessage | src/pages/RegistroAsistenciaQR.jsx:56-61 | a 400 throws the server's `error` text (empty when it has none); any other failure gives 'Error al registrar asistencia' |
| Attendance.CaughtMessage | src/pages/RegistroAsistenciaQR.jsx:90-92 | the caught message is the error's own when non-empty, and 'Error al procesar código QR' when the error has no message or an empty one |
| Attendance.Show | src/pages/RegistroAsistenciaQR.jsx:31-38 | `mostrarMensaje` shows the text with its tone, schedules one more clearing and touches nothing else |
| Attendance.Load | src/pages/RegistroAsistenciaQR.jsx:18-29 | `cargarAsistencias` makes one list call and always ends with `loading` false |
| Attendance.Detected | src/pages/RegistroAsistenciaQR.jsx:64-96 | `handleQRDetected` always hides the scanner and ends with `loading` false |
| Attendance.DetectedCalls | src/pages/RegistroAsistenciaQR.jsx:64-89 | the calls are validate, then register, then reload, as far as each step succeeds |
| Attendance.RegistersOnlyWhenValid | src/pages/RegistroAsistenciaQR.jsx:69-78 | registration is attempted if and only if validation answered `valido` |
| Attendance.InvalidReplyMessage | src/pages/RegistroAsistenciaQR.jsx:72-75 | a reply without `valido` shows 'QR no válido' as an error |
| Attendance.ValidationFailureMessage | src/pages/RegistroAsistenciaQR.jsx:44-49 | a failed validation shows 'Estudiante no encontrado' for 404 and 'Error al validar estudiante' otherwise |
| Attendance.RegistrationFailureMessage | src/pages/RegistroAsistenciaQR.jsx:56-61 | a failed registration shows the server's text for 400 with an `error`, 'Error al procesar código QR' for 400 without one, and the generic message otherwise |
| Attendance.RegisteredOutcome | src/pages/RegistroAsistenciaQR.jsx:80-88 | a registration names the student in a success message; the reload then replaces the list, or its failure replaces the message |
| Attendance.OneClearPerMessage | src/pages/RegistroAsistenciaQR.jsx:31-38 | one clearing is scheduled per message shown: two when the reload fails after a registration, one otherwise |
| Attendance.ShowThenClear | src/pages/RegistroAsistenciaQR.jsx:34-37 | once the timer of a message fires, no message is shown |
| Attendance.TodayExactly | src/pages/RegistroAsistenciaQR.jsx:108-118 | today's list holds exactly the records from today's midnight (inclusive) to tomorrow's (exclusive), every copy of them, in the original order |
| Attendance.Today | src/pages/RegistroAsistenciaQR.jsx:108-118 | the list holds a record if and only if the record is in the input and its time lies in [today's midnight, tomorrow's midnight); it is never longer than the input |
| Attendance.TodayBounds | src/pages/RegistroAsistenciaQR.jsx:114-117 | midnight today is in the list and midnight tomorrow is out |
| Attendance.AttendancePage.constructor | src/pages/RegistroAsistenciaQR.jsx:6-10 | the fields start at the initial state |
| Attendance.AttendancePage.ShowMessage | src/pages/RegistroAsistenciaQR.jsx:31-38 | updates the fields as `mostrarMensaje` does |
| Attendance.AttendancePage.OnClearTimer | src/pages/RegistroAsistenciaQR.jsx:34-37 | updates the fields as the clearing timer does |
| Attendance.AttendancePage.LoadAttendances | src/pages/RegistroAsistenciaQR.jsx:18-29 | updates the fields as `cargarAsistencias` does |
| Attendance.AttendancePage.HandleQrDetected | src/pages/RegistroAsistenciaQR.jsx:64-96 | updates the fields as `handleQRDetected` does |
| StudentForm.LinkPosts | src/components/AgregarEstudiante.jsx:107-122 | the loop makes one POST per id, whatever the outcomes |
| StudentForm.LinkStep | src/components/AgregarEstudiante.jsx:107-113 | one more turn of the loop adds one POST and, for a failure, one error |
| StudentForm.FacultyEffect | src/components/AgregarEstudiante.jsx:46-54 | the effect empties the chosen careers and posts nothing |
| StudentForm.CareersOfExactly | src/components/AgregarEstudiante.jsx:46-54 | the shown careers are exactly those of the selected faculty, every copy, in the list's order; none without a selection |
| StudentForm.CareersOf | src/components/AgregarEstudiante.jsx:46-54 | no careers without a selected faculty; with one, a career is shown if and only if it is in the list and belongs to that faculty |
| StudentForm.InitialFiltered | src/components/AgregarEstudiante.jsx:7-24 | the page starts with the shown careers matching the selection |
| StudentForm.SelectFacultyFiltered | src/components/AgregarEstudiante.jsx:46-54 | choosing a faculty keeps the shown careers matching the selection |
| StudentForm.ReferenceLoadedFiltered | src/components/AgregarEstudiante.jsx:27-44 | loading the reference data keeps the shown careers matching the selection |
| StudentForm.PhotoChosenFiltered | src/components/AgregarEstudiante.jsx:65-75 | choosing a photo keeps the shown careers matching the selection |
| StudentForm.SubmittedFiltered | src/components/AgregarEstudiante.jsx:83-139 | a submit keeps the shown careers matching the selection |
| StudentForm.ChangeDropsCareers | src/components/AgregarEstudiante.jsx:46-54 | a change of faculty or a new career list drops the chosen careers |
| StudentForm.PhotoLimitExact | src/components/AgregarEstudiante.jsx:68-71 | for every file: no file changes nothing; a size over 2 MiB (2 097 152 bytes) only sets the size message and keeps `FOTO`; a size up to 2 MiB only sets `FOTO` to the file's data URL |
| StudentForm.RejectedWithoutPost | src/components/AgregarEstudiante.jsx:85-92 | a missing required field or a bad date rejects the submit before any POST and keeps the form |
| StudentForm.FailureKeepsForm | src/components/AgregarEstudiante.jsx:94-104 | a failed student POST posts no link and keeps the form and the faculty |
| StudentForm.CreatedPostsEveryLink | src/components/AgregarEstudiante.jsx:94-135 | a created student is followed by one POST per career, then one per club, and the form is reset |
| StudentForm.LinkPostsAt | src/components/AgregarEstudiante.jsx:107-122 | the i-th link POST carries the i-th id |
| StudentForm.LinkErrorsEmpty | src/components/AgregarEstudiante.jsx:107-122 | no error is collected if and only if every link succeeded |
| StudentForm.LinkErrorsOnlyFailures | src/components/AgregarEstudiante.jsx:110-112 | every collected error comes from a failed link |
| StudentForm.LinkErrorsKeepFailures | src/components/AgregarEstudiante.jsx:110-112 | every failed link leaves its error |
| StudentForm.LinkErrorsRecordFailures | src/components/AgregarEstudiante.jsx:107-122 | the collected errors are exactly those of the failed links |
| StudentForm.CreatedMessage | src/components/AgregarEstudiante.jsx:124-127 | the plain success message appears if and only if no link failed; otherwise career errors come before club errors |
| StudentForm.FormPage.constructor | src/components/AgregarEstudiante.jsx:7-24 | the fields start at the initial state |
| StudentForm.FormPage.RunFacultyEffect | src/components/AgregarEstudiante.jsx:46-54 | updates the fields as the faculty effect does |
| StudentForm.FormPage.OnFacultyChange | src/components/AgregarEstudiante.jsx:46-54 | updates the fields as a faculty change does |
| StudentForm.FormPage.OnReferenceData | src/components/AgregarEstudiante.jsx:27-44 | updates the fields as `fetchData` does |
| StudentForm.FormPage.OnFileChange | src/components/AgregarEstudiante.jsx:65-75 | updates the fields as `handleFileChange` does |
| StudentForm.FormPage.PostLinks | src/components/AgregarEstudiante.jsx:107-113 | the loop returns exactly the errors of the failed links and appends one POST per id |
| StudentForm.FormPage.Submit | src/components/AgregarEstudiante.jsx:83-139 | updates the fields as `handleSubmit` does |
| Backup.HandleError | src/services/backup.service.js:107-117 | the classified message is never empty |
| Backup.FormatFileSize | src/services/backup.service.js:83-91 | the text always ends in one of " KB", " MB", " GB" |
| Backup.Tenths | src/services/backup.service.js:87-89 | `toFixed(1)` of `size / unit` counts the tenths nearest to the quotient, the larger one on a tie |
| Backup.Fixed1Reads | src/services/backup.service.js:87-89 | the one-decimal text reads back as the count of tenths it was printed from: digits, a point, one digit |
| Backup.LargeSizeText | src/services/backup.service.js:86-90 | from 1024 KB on, the number before the unit, read as whole part and tenth, is the size in MB (below 1024²) or GB rounded to the nearest tenth |
| Backup.ResponseClassified | src/services/backup.service.js:110-111 | a response wins: its `message`, or 'Error del servidor' when it has none |
| Backup.NoResponseClassified | src/services/backup.service.js:112-116 | without a response, a request with no answer is a connection failure; anything else is a local error |
| Backup.ClassifiedText | src/services/backup.service.js:107-117 | the message is one of the three fixed texts, or the server's own text from a response |
| Backup.ThrowsClassified | src/services/backup.service.js:7-79 | a method throws if and only if its request failed, and then with the classified message; otherwise it returns the data (a download returns its success message) |
| Backup.Perform | src/services/backup.service.js:7-79 | a method throws if and only if its request failed, with `handleError`'s message; it reports a download if and only if a download request was answered |
| Backup.SizeTiers | src/services/backup.service.js:83-91 | the text ends in " KB" below 1024, in " MB" below 1024², in " GB" from there on, each if and only if |
| Backup.SizeBoundaries | src/services/backup.service.js:84-89 | 1023 prints "1023 KB", 1024 prints "1.0 MB", 1048575 is in MB and 1048576 prints "1.0 GB" |
| Backup.SizeTierMonotone | src/services/backup.service.js:83-91 | a bigger size never gets a smaller unit |
| Backup.KilobyteText | src/services/backup.service.js:84-85 | below 1024 the text is the size's decimal numeral followed by " KB" |
| Backup.SameTier | src/components/BackupWidget.jsx:38-52 | the colour and the message always come from the same tier |
| Backup.StatusColor | src/components/BackupWidget.jsx:38-42 | the colour is one of the three; 'danger' if and only if there is no info or the count is 0; 'warning' if and only if the count is 1 or 2 |
| Backup.StatusMessage | src/components/BackupWidget.jsx:44-52 | the message is one of the three; 'Sin backups disponibles' if and only if there is no info or the count is 0; 'Pocos backups disponibles' if and only if the count is 1 or 2 |
| Backup.CountTiers | src/components/BackupWidget.jsx:38-42 | 0 backups is 'danger', 1-2 'warning', 3 or more 'success' |
| Backup.StatusMonotone | src/components/BackupWidget.jsx:38-42 | more backups never give a worse colour |
| Backup.MissingCountLooksActive | src/components/BackupWidget.jsx:38-52 | a reply without `totalBackups` shows 'success' and 'Sistema de backup activo' |

## Left out

- Concurrency of timers and requests. Each handler, timer callback and request outcome is one atomic step. Interleavings inside one step are not modelled.
  - `EscanerQR` and `EscanerQRFuncional` split their tick at the `await`, so other steps can run while a decode is outstanding.
  - The `EscanerQRConFallback` tick, including its automatic request, is one step.
- Stale closures. React state read inside a closure is modelled by its current value, including the `scanning`, `procesando`, `usandoAPI` and `metodosIntentados` read by interval callbacks. In `EscanerQRFuncional` the list a tick read is passed as `seen`.
- The camera, the canvas, ZXing and `fetch`. They are modelled as the outcome each call settles with; images, blobs, base64 and `FormData` are not modelled.
- The JSON grammar. `JSON.parse` is a parameter that returns the fields the scanners read. The hypotheses `ObjectsOnly` and `ReadsBackAttendance` stand for its behaviour.
- `Date.now`, `Date.parse` and `new Date(...)`. Times are integers given as parameters, and the date check of the student form is a boolean.
- Date formatting (`formatDate` and its `toLocaleString`) is not modelled.
- Backup.FormatFileSize: sizes are whole numbers of KB. A fractional size (printed as, say, "512.5 KB"), the rounding of sizes beyond 2^53 KB in a double, and the exponent form `toFixed` uses from 10^21 on are not modelled.
- Backup.ThrowsClassified: the blob download itself (object URL, link click) is left out; only its result message is modelled.
- The `timeout` option of the `EscanerQRFuncional` fetch. The browser ignores it, so it changes nothing.
- The extractor in `ScannerFuncional` and `ScannerFallback` is a parameter. Each module proves the component's own extractor (`ComponentExtractor`) qualifies for it.
- `FileReader` completing at once. The data URL is part of the file outcome.
- The 5-second message timer of `AgregarEstudiante` (lines 56-61) only clears the message and is not modelled.
- The manual capture buttons of the scanners (`captureManual` and its like) and the webcam callbacks. These are UI paths that only call the modelled handlers or set messages.
- `intentarConAPI` of `EscanerQRConFallback` is never called by the component. It is modelled (`Manual`) as written.
- A validation reply without `estudiante`. The model always has a student in a `valido` reply.
- The faculty select's `parseInt` is modelled as an `Option<int>` selection.
- The other pages, the auth and API services, routing and rendering are not part of this model.
- The unmount cleanup effects of the scanners, which clear the interval and reset ZXing, are not modelled.

## Findings

| source | as written | input that shows it | evidently intended | confidence | as-written member | corrected member |
|---|---|---|---|---|---|---|
| src/components/EscanerQRSimple.jsx:89-92 | the 3-second timer after an invalid QR calls `startScanning` without checking whether scanning was restarted meanwhile; `startScanning` overwrites `intervalRef.current` | an invalid QR; the user presses the start button within 3 s; the timer fires; then `stopScanning` | a restart only when the scanner is still stopped, so that `stopScanning` clears every interval | not executed; the same timer is in EscanerQRFuncional.jsx:158-161 and EscanerQRConFallback.jsx:226-229 | ScannerSimple.RestartLeaksInterval | ScannerSimple.GuardedRestartConsistent |
