# TorScraper core, modelled in Dafny

TorScraper reads a list of target URLs and scans each one through a Tor SOCKS client. A scan
checks that the route goes through Tor, fetches the page's HTML, and takes a headless-browser
screenshot. Each successful scan saves its two artifacts under names derived from the target's
host. Every target adds one record to a JSON report. This project models the sequential logic
of that pipeline and proves its properties:

- `Input` (internal/input/reader.go): the target-list filter. Each line is trimmed and blank
  lines are dropped. A failed open and a scanner error are modelled as error results.
- `OutputWriter` (internal/output/writer.go): `generateSafeFilename`. It picks the host or the
  fallback trim, replaces the six reserved bytes, joins host, timestamp and extension, and caps
  the length. Names are byte strings, because Go's `len` and slicing count bytes.
- `OutputReport` (internal/output/report.go): the `ReportWriter` and its `ScanReport` as
  classes. Each counter always equals the number of records with its status.
- `Scanner` (internal/scanner/scanner.go): `ScanTarget` sequences the Tor check, the fetch and
  the screenshot, and stops at the first failure. The check itself, the fetch and the
  screenshot are given to the model as their outcomes.
- `TorScraper` (cmd/tor-scraper/main.go): the per-target body of `scanTargets` and the loop over
  all targets, which drive the `ReportWriter`. `RunScan` stands for what `main` does with the
  counts.
- `GoStrings` supplies `byte`, `int64`, `unicode.IsSpace` and `strings.TrimSpace`. `Wrappers`
  supplies Option and Result.

Inputs the model takes as parameters:
- The clock: record timestamps, the report start time, and the formatted timestamp in file
  names.
- `url.Parse(...).Hostname()`: `None` means the parse failed, `Some(h)` is the hostname.
- Each HTTP exchange: request construction, `client.Do` and `io.ReadAll`.
- The result of `chromedp.Run`.
- The results of `SaveScreenshot`/`SaveHTML`, as Go's (path, error) pair.

## Model

| member | source | states |
|---|---|---|
| GoStrings.TrimSpace | internal/input/reader.go:25 | the trimmed line is the factor of the line left after its leading and trailing whitespace runs; it is empty exactly when the line is all whitespace, and otherwise starts and ends with a non-space |
| GoStrings.TrimSpaceIdempotent | internal/input/reader.go:25 | trimming an already trimmed line changes nothing |
| Input.NonBlankTrimmed | internal/input/reader.go:22-31 | the kept targets are never more than the lines read |
| Input.ReadTargets | internal/input/reader.go:10-37 | an open failure gives an empty list and the open error; a scanner error gives an empty list and that error, discarding what was collected; otherwise the list is exactly the trimmed non-blank lines and there is no error |
| Input.NonBlankTrimmedStep | internal/input/reader.go:22-30 | reading one more line extends the kept targets by that line's trimmed text, or by nothing when it is blank |
| Input.NonBlankTrimmedAppend | internal/input/reader.go:22-31 | the filter distributes over concatenation, so targets come out in line order |
| Input.NonBlankTrimmedSingle | internal/input/reader.go:25-30 | one line contributes its trimmed text, or nothing when that is empty |
| Input.NonBlankTrimmedElements | internal/input/reader.go:25-28 | every returned target is non-empty, has no leading or trailing whitespace and is its own TrimSpace |
| Input.NonBlankTrimmedMembership | internal/input/reader.go:22-31 | a string is returned exactly when it is non-empty and is the trimmed text of some line |
| Input.NonBlankTrimmedMultiplicity | internal/input/reader.go:22-31 | no deduplication: a non-empty target occurs as many times as there are lines trimming to it |
| OutputWriter.TrimPrefix | internal/output/writer.go:59-60 | one leading copy of the prefix is removed when present, otherwise the string is unchanged |
| OutputWriter.TrimSuffix | internal/output/writer.go:61 | one trailing copy of the suffix is removed when present, otherwise the string is unchanged |
| OutputWriter.Sanitize | internal/output/writer.go:65-72 | each byte maps to one byte (length kept), the six reserved bytes become `_`, every other byte is unchanged, and no reserved byte remains |
| OutputWriter.SanitizeIdempotent | internal/output/writer.go:65-72 | sanitizing a sanitized name changes nothing |
| OutputWriter.SanitizeFixesClean | internal/output/writer.go:65-72 | a name without reserved bytes is left as it is |
| OutputWriter.FallbackHost | internal/output/writer.go:57-62 | the fallback removes at most 16 bytes, and leaves a URL with neither scheme prefix nor trailing slash unchanged |
| OutputWriter.FallbackHostStripsOnce | internal/output/writer.go:59-61 | the trims are applied once each, in order: a doubled `http://` keeps its second copy, `http://https://` loses both, and one of two trailing slashes stays |
| OutputWriter.HostPart | internal/output/writer.go:52-62 | the parser's hostname is used when the parse succeeded and the hostname is non-empty; otherwise the fallback trim of the URL is used |
| OutputWriter.GenerateSafeFilename | internal/output/writer.go:50-86 | a joined name of at most 250 bytes is returned as it is; a longer one becomes its first 250 bytes plus the extension, of length 250 + extension length; either way the name ends with the extension and is at most 250 + extension length |
| OutputWriter.SafeFilenameLayout | internal/output/writer.go:65-83 | the name starts with the sanitized host (cut at 250 bytes), so none of those bytes is reserved; when everything fits, the name is host, `_`, timestamp, extension |
| OutputWriter.LongHostDropsTimestamp | internal/output/writer.go:74-83 | as written, a hostname of 250 bytes or more gives a name that does not depend on the timestamp |
| OutputWriter.SchemelessLongTargetCollides | internal/output/writer.go:74-83 | concrete case: a 250-byte target with no scheme gets the same `.png` name at two different timestamps |
| OutputWriter.SafeFilenameKeepingTimestamp | internal/output/writer.go:74-83 | corrected naming: at most 250 bytes overall, always ends with `_`, the timestamp and the extension, and starts with a prefix of the sanitized host |
| OutputWriter.KeepingTimestampDistinguishesTimes | internal/output/writer.go:74-75 | with the corrected naming, two different timestamps of the same width always give different names |
| OutputWriter.KeepingTimestampAgreesWhenShort | internal/output/writer.go:78-85 | where the written code does not cut, the corrected naming gives the same name |
| OutputReport.SuccessRecord | internal/output/report.go:52-60 | a success record carries status `SUCCESS`, the given url, status code, IP, both paths and the timestamp, and no error |
| OutputReport.FailureRecord | internal/output/report.go:67-72 | a failure record carries status `FAILED`, the given url, timestamp and error text, with status code 0 and empty IP and paths |
| OutputReport.CountStatusAppend | internal/output/report.go:62-63 | appending a record raises the count of its own status by one and leaves every other status count unchanged |
| OutputReport.AppendKeepsCounts | internal/output/report.go:62-63 | appending a SUCCESS or FAILED record keeps every record SUCCESS or FAILED, raises exactly its own status count, and keeps the two counts summing to the number of records |
| OutputReport.CountsPartition | internal/output/report.go:54-75 | when every record is SUCCESS or FAILED, the two counts add up to the number of records |
| OutputReport.ScanReport.constructor | internal/output/report.go:39-43 | a new report has the start time and total given, a zero end time, zero counters and no records |
| OutputReport.ReportWriter.constructor | internal/output/report.go:36-49 | a fresh writer has success and fail counts 0, no records, `TotalTargets` equal to the argument, and satisfies the counting invariant |
| OutputReport.ReportWriter.AddSuccess | internal/output/report.go:51-64 | appends exactly one success record at the end and keeps all earlier records; raises only the success counter; keeps the invariant, `SuccessCount + FailCount == len(Records)`, `TotalTargets` and both times |
| OutputReport.ReportWriter.AddError | internal/output/report.go:66-76 | appends exactly one failure record at the end and keeps all earlier records; raises only the fail counter; keeps the invariant, `SuccessCount + FailCount == len(Records)`, `TotalTargets` and both times |
| OutputReport.ReportWriter.GetStats | internal/output/report.go:104-106 | returns the two counters and changes nothing; the counts are the numbers of SUCCESS and FAILED records, and they add up to the number of records |
| Scanner.VerifyTorConnection | internal/scanner/scanner.go:49-67 | the check succeeds exactly when the exchange completed, whatever its status, and returns the body as the IP; a `client.Do` error is prefixed `failed to check TOR IP: `; request and read errors are passed through |
| Scanner.FetchHTML | internal/scanner/scanner.go:69-89 | the fetch succeeds exactly when the exchange completed, and returns the body and the status code as received; a `client.Do` error is prefixed `failed to fetch URL: `; request and read errors are passed through |
| Scanner.TakeScreenshot | internal/scanner/scanner.go:148-152 | the capture fails exactly when the browser run failed, and its error is then prefixed `failed to capture screenshot: `; otherwise the image is passed through |
| Scanner.ScanTarget | internal/scanner/scanner.go:21-47 | the result is a success exactly when all three stages completed, and then carries the screenshot, the HTML, the status code and the IP from the Tor check; each failing stage yields its own `[FAILED] ...` prefix followed by that stage's error |
| Scanner.VerifyFailureShortCircuits | internal/scanner/scanner.go:23-26 | when the Tor check fails, the outcome is a failure and does not depend on what fetch or screenshot would produce |
| Scanner.FetchFailureShortCircuits | internal/scanner/scanner.go:29-32 | when the fetch fails, the outcome is a failure and does not depend on what the screenshot would produce |
| Scanner.StatusCodeNeverGates | internal/scanner/scanner.go:55-88 | the fetch's HTTP status and the Tor check's status never decide success; a success records the fetched code as is |
| Scanner.FailureNamesStage | internal/scanner/scanner.go:23-37 | every failure text starts with the prefix of the stage that failed |
| TorScraper.RecordedPath | cmd/tor-scraper/main.go:80-92 | a save that reported an error leaves the path empty; otherwise the returned path is kept |
| TorScraper.TargetRecord | cmd/tor-scraper/main.go:73-97 | a target's record is a success exactly when its scan succeeded; a scan error gives a failure record with that error's text; a success carries the fetched status code, the Tor IP and the paths, blanked where the save failed |
| TorScraper.SaveFailureNeverDowngrades | cmd/tor-scraper/main.go:80-97 | whatever the two saves return, the record keeps the same status, error text, status code and IP |
| TorScraper.ScanOne | cmd/tor-scraper/main.go:73-97 | handling one target appends exactly that target's record to the report and keeps the counting invariant, `TotalTargets`, the start time and the end time |
| TorScraper.BatchRecords | cmd/tor-scraper/main.go:63-98 | the batch yields one record per target, the k-th for the k-th target |
| TorScraper.ScanTargets | cmd/tor-scraper/main.go:59-102 | the report gains exactly the batch's records after its earlier ones; the counter sum grows by the number of targets; `TotalTargets`, the start time and the end time are unchanged |
| TorScraper.RunScan | cmd/tor-scraper/main.go:37-51 | with a fresh report for `len(targets)`, the success and fail counts add up to the number of targets and are the batch's SUCCESS and FAILED counts |
| TorScraper.BatchCounts | cmd/tor-scraper/main.go:73-97 | the success count is the number of targets whose scan succeeded, and the fail count is the rest |
| TorScraper.AllStagesPassAllSucceed | cmd/tor-scraper/main.go:73-97 | when every stage of every target completes, all targets succeed and none fails |
| TorScraper.SingleTargetVerifyFails | cmd/tor-scraper/main.go:73-78 | one target whose Tor check fails gives one failure record whose error starts with the verification prefix, with zero successes and one failure |

## Findings

| source | as written | input that shows it | evidently intended | confidence | as-written member | corrected member |
|---|---|---|---|---|---|---|
| internal/output/writer.go:74-83 | the 250-byte cap is applied to host + `_` + timestamp + extension, so a long host pushes the timestamp out of the name | target `aaa…a` (250 bytes, no scheme), timestamps `20260101_000000` and `20260101_000001`, extension `.png`: both give the same name | the timestamp is added "to avoid collisions", so the cap should cut the host and keep `_`, the timestamp and the extension | medium, not executed | OutputWriter.LongHostDropsTimestamp | OutputWriter.SafeFilenameKeepingTimestamp |

The driver uses only the save outcomes, not file names, so the corrected naming changes
nothing else in the model.

## Left out

- Goroutines, the `sync.WaitGroup` and the three-slot semaphore (cmd/tor-scraper/main.go:60-69, 101): the batch is a sequential loop, so records are in target order. In the real program the order is arbitrary.
- The unsynchronised `AddSuccess`/`AddError` calls from concurrent goroutines are a data race in the real program. The sequential model does not capture that race or any lost update it might cause.
- The HTTP requests, `io.ReadAll`, the SOCKS5 client (internal/tor/client.go is not part of this model) and the `User-Agent` header: network and library calls, given as `Exchange` outcomes.
- Scanner.ScanTarget: that a failed stage means later stages are never *attempted* is stated as "the result does not depend on them", because the calls themselves are I/O.
- The body of `takeScreenshot` (chromedp options, the status listener, the 5-second polling loop, the 30-second deadline): browser automation, given as the outcome of `chromedp.Run`.
- `ReportWriter.Save`, `GetReportPath` and the report file name: filesystem and JSON marshalling. The `reportFile` field is therefore not modelled.
- `SaveScreenshot`/`SaveHTML` directory creation and file writes: filesystem calls, given as their returned (path, error) pair.
- `internal/logger/logger.go` and every log line: console and file output only.
- `time.Now()` and `Format("20060102_150405")`: the clock is a parameter, and the formatted timestamp is an arbitrary byte string.
- `url.Parse` and `Hostname()`: library parsing, given as an optional hostname.
- Opening the file and `bufio.Scanner` line splitting (including its 64 KiB line limit, which surfaces as the scanner error): lines arrive already split.
- Input.ReadTargets: the distinction between the empty slice (open failure) and `nil` (scan error) is not kept; both are the empty sequence.
- GoStrings.TrimSpace: lines are sequences of decoded code points, so invalid UTF-8 bytes are not modelled.
- OutputReport.ReportWriter.AddSuccess: `SuccessCount` is unbounded; Go's `int` would wrap after 2^63 increments.
- OutputReport.ReportWriter.AddError: `FailCount` is unbounded; Go's `int` would wrap after 2^63 increments.
- The fatal exits in `main` when the target list or the Tor client cannot be set up (cmd/tor-scraper/main.go:23-33): process termination; `RunScan` starts after both succeeded.
