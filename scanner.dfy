/**
 * The per-target pipeline of internal/scanner/scanner.go: verify the Tor route, fetch the
 * page, capture a screenshot, stopping at the first failure. Each network or browser call is
 * given by what it produced; errors are modelled by their text, which is what the callers
 * read through `err.Error()` and `%v`.
 */
module Scanner {
  import opened Wrappers
  import opened GoStrings

  /**
   * What one HTTP exchange over the Tor client produced: the request could not be built,
   * `client.Do` failed, reading the body failed, or a response with a status and a body.
   */
  datatype Exchange<B> =
    | RequestFailed(err: string)
    | TransportFailed(err: string)
    | ReadFailed(err: string)
    | Completed(statusCode: int64, body: B)

  datatype ScanResult = ScanResult(screenshot: Bytes, html: Bytes, statusCode: int64, ipAddress: string)

  datatype Page = Page(html: Bytes, statusCode: int64)

  const CheckIPFailedPrefix: string := "failed to check TOR IP: "
  const FetchURLFailedPrefix: string := "failed to fetch URL: "
  const CaptureFailedPrefix: string := "failed to capture screenshot: "
  const VerifyStageFailedPrefix: string := "[FAILED] TOR connection verification failed: "
  const FetchStageFailedPrefix: string := "[FAILED] failed to fetch HTML: "
  const ScreenshotStageFailedPrefix: string := "[FAILED] failed to capture screenshot: "

  /**
   * `verifyTORConnection` against check.torproject.org: the body, read as text, is the IP
   * whatever the status code; only a transport error gets a prefix of its own.
   */
  function VerifyTorConnection(check: Exchange<string>): (r: Result<string, string>)
    ensures r.Success? <==> check.Completed?
    ensures check.Completed? ==> r.value == check.body
    ensures check.TransportFailed? ==> r.error == CheckIPFailedPrefix + check.err
    ensures check.RequestFailed? || check.ReadFailed? ==> r.error == check.err
  {
    match check
    case RequestFailed(e) => Failure(e)
    case TransportFailed(e) => Failure(CheckIPFailedPrefix + e)
    case ReadFailed(e) => Failure(e)
    case Completed(_, body) => Success(body)
  }

  /** `fetchHTMLWithClient`: any completed exchange yields its body and status code as they are. */
  function FetchHTML(fetch: Exchange<Bytes>): (r: Result<Page, string>)
    ensures r.Success? <==> fetch.Completed?
    ensures fetch.Completed? ==> r.value == Page(fetch.body, fetch.statusCode)
    ensures fetch.TransportFailed? ==> r.error == FetchURLFailedPrefix + fetch.err
    ensures fetch.RequestFailed? || fetch.ReadFailed? ==> r.error == fetch.err
  {
    match fetch
    case RequestFailed(e) => Failure(e)
    case TransportFailed(e) => Failure(FetchURLFailedPrefix + e)
    case ReadFailed(e) => Failure(e)
    case Completed(code, body) => Success(Page(body, code))
  }

  /**
   * `takeScreenshot` seen from outside: `run` is what `chromedp.Run` produced (the image, or
   * its error, including the 5-second wait for a status and the 30-second deadline).
   */
  function TakeScreenshot(run: Result<Bytes, string>): (r: Result<Bytes, string>)
    ensures r.Success? <==> run.Success?
    ensures run.Success? ==> r.value == run.value
    ensures run.Failure? ==> r.error == CaptureFailedPrefix + run.error
  {
    match run
    case Success(shot) => Success(shot)
    case Failure(e) => Failure(CaptureFailedPrefix + e)
  }

  /** `ScanTarget`: the three stages in order, each a hard gate for the next. */
  function ScanTarget(check: Exchange<string>, fetch: Exchange<Bytes>, render: Result<Bytes, string>)
    : (r: Result<ScanResult, string>)
    ensures r.Success? <==> check.Completed? && fetch.Completed? && render.Success?
    ensures r.Success? ==>
              r.value == ScanResult(render.value, fetch.body, fetch.statusCode, check.body)
    ensures !check.Completed? ==>
              r == Failure(VerifyStageFailedPrefix + VerifyTorConnection(check).error)
    ensures check.Completed? && !fetch.Completed? ==>
              r == Failure(FetchStageFailedPrefix + FetchHTML(fetch).error)
    ensures check.Completed? && fetch.Completed? && render.Failure? ==>
              r == Failure(ScreenshotStageFailedPrefix + (CaptureFailedPrefix + render.error))
  {
    match VerifyTorConnection(check)
    case Failure(e) => Failure(VerifyStageFailedPrefix + e)
    case Success(ipAddr) =>
      match FetchHTML(fetch)
      case Failure(e) => Failure(FetchStageFailedPrefix + e)
      case Success(page) =>
        match TakeScreenshot(render)
        case Failure(e) => Failure(ScreenshotStageFailedPrefix + e)
        case Success(shot) => Success(ScanResult(shot, page.html, page.statusCode, ipAddr))
  }

  /** A failed verification decides the outcome: what fetch or capture would give is never used. */
  lemma VerifyFailureShortCircuits(check: Exchange<string>, fetch1: Exchange<Bytes>,
                                   fetch2: Exchange<Bytes>, render1: Result<Bytes, string>,
                                   render2: Result<Bytes, string>)
    requires !check.Completed?
    ensures ScanTarget(check, fetch1, render1) == ScanTarget(check, fetch2, render2)
    ensures ScanTarget(check, fetch1, render1).Failure?
  {
  }

  /** A failed fetch decides the outcome: the screenshot is never used. */
  lemma FetchFailureShortCircuits(check: Exchange<string>, fetch: Exchange<Bytes>,
                                  render1: Result<Bytes, string>, render2: Result<Bytes, string>)
    requires !fetch.Completed?
    ensures ScanTarget(check, fetch, render1) == ScanTarget(check, fetch, render2)
    ensures ScanTarget(check, fetch, render1).Failure?
  {
  }

  /**
   * The HTTP status never gates progress: two fetches that differ only in status code both
   * succeed or both fail, and a success records the code as received.
   */
  lemma StatusCodeNeverGates(check: Exchange<string>, code1: int64, code2: int64, html: Bytes,
                             checkCode: int64, render: Result<Bytes, string>)
    ensures ScanTarget(check, Completed(code1, html), render).Success?
        <==> ScanTarget(check, Completed(code2, html), render).Success?
    ensures ScanTarget(check, Completed(code1, html), render).Success? ==>
              ScanTarget(check, Completed(code1, html), render).value.statusCode == code1
    ensures check.Completed? ==>
              VerifyTorConnection(Completed(checkCode, check.body)) == VerifyTorConnection(check)
  {
  }

  /** Every failure names the stage that failed at the start of its text. */
  lemma FailureNamesStage(check: Exchange<string>, fetch: Exchange<Bytes>, render: Result<Bytes, string>)
    ensures var r := ScanTarget(check, fetch, render);
            r.Failure? ==>
              (!check.Completed? && HasPrefix(r.error, VerifyStageFailedPrefix))
              || (check.Completed? && !fetch.Completed? && HasPrefix(r.error, FetchStageFailedPrefix))
              || (check.Completed? && fetch.Completed? && HasPrefix(r.error, ScreenshotStageFailedPrefix))
  {
  }
}
