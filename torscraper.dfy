/**
 * The batch driver of cmd/tor-scraper/main.go: for every target, run the scan, save the
 * artifacts of a success, and add exactly one record to the report. The goroutines, the
 * wait group and the three-slot semaphore are not modelled; targets are handled one after
 * another, in list order.
 */
module TorScraper {
  import opened Wrappers
  import opened GoStrings
  import opened Scanner
  import opened OutputReport

  /** What `SaveScreenshot` or `SaveHTML` returned: a path and an error, as Go's pair. */
  datatype SaveReturn = SaveReturn(path: string, err: Option<string>)

  /** What the collaborators produced while one target was handled. */
  datatype TargetRun = TargetRun(
    check: Exchange<string>,
    fetch: Exchange<Bytes>,
    render: Result<Bytes, string>,
    screenshotSave: SaveReturn,
    htmlSave: SaveReturn,
    now: Time)

  /** A save's path as the record keeps it: blanked when the save reported an error. */
  function RecordedPath(save: SaveReturn): (p: string)
    ensures save.err.Some? ==> p == ""
    ensures save.err.None? ==> p == save.path
  {
    if save.err.Some? then "" else save.path
  }

  function Scan(run: TargetRun): Result<ScanResult, string> {
    ScanTarget(run.check, run.fetch, run.render)
  }

  /** The one record the per-target body adds for `target`. */
  function TargetRecord(target: string, run: TargetRun): (r: ScanRecord)
    ensures r.url == target && r.timestamp == run.now
    ensures r.status == StatusSuccess <==> Scan(run).Success?
    ensures r.status == StatusFailed <==> Scan(run).Failure?
    ensures Scan(run).Failure? ==> r == FailureRecord(target, Scan(run).error, run.now)
    ensures Scan(run).Success? ==>
              && r.statusCode == run.fetch.statusCode
              && r.ipAddress == run.check.body
              && r.screenshotPath == RecordedPath(run.screenshotSave)
              && r.htmlPath == RecordedPath(run.htmlSave)
              && r.error == ""
  {
    match Scan(run)
    case Failure(e) => FailureRecord(target, e, run.now)
    case Success(result) =>
      SuccessRecord(target, result.statusCode, result.ipAddress,
                    RecordedPath(run.screenshotSave), RecordedPath(run.htmlSave), run.now)
  }

  /** Saving is soft: whatever the saves return, the status and error text stay the same. */
  lemma SaveFailureNeverDowngrades(target: string, run: TargetRun, shot: SaveReturn, html: SaveReturn)
    ensures var other := run.(screenshotSave := shot, htmlSave := html);
            TargetRecord(target, other).status == TargetRecord(target, run).status
            && TargetRecord(target, other).error == TargetRecord(target, run).error
            && TargetRecord(target, other).statusCode == TargetRecord(target, run).statusCode
            && TargetRecord(target, other).ipAddress == TargetRecord(target, run).ipAddress
  {
  }

  /** The per-target body of `scanTargets` after the semaphore is taken, minus the logging. */
  method ScanOne(target: string, run: TargetRun, reportWriter: ReportWriter)
    requires reportWriter.Valid()
    modifies reportWriter.report
    ensures reportWriter.Valid()
    ensures reportWriter.report.records == old(reportWriter.report.records) + [TargetRecord(target, run)]
    ensures reportWriter.report.totalTargets == old(reportWriter.report.totalTargets)
    ensures reportWriter.report.startTime == old(reportWriter.report.startTime)
    ensures reportWriter.report.endTime == old(reportWriter.report.endTime)
  {
    var result := Scan(run);
    if result.Failure? {
      reportWriter.AddError(target, result.error, run.now);
      return;
    }

    var screenshotPath, err := run.screenshotSave.path, run.screenshotSave.err;
    if err.Some? {
      screenshotPath := "";
    }

    var htmlPath;
    htmlPath, err := run.htmlSave.path, run.htmlSave.err;
    if err.Some? {
      htmlPath := "";
    }

    reportWriter.AddSuccess(target, result.value.statusCode, result.value.ipAddress,
                            screenshotPath, htmlPath, run.now);
  }

  /** The records the batch adds: one per target, in target order. */
  function BatchRecords(targets: seq<string>, runs: seq<TargetRun>): (rs: seq<ScanRecord>)
    requires |runs| == |targets|
    ensures |rs| == |targets|
    ensures forall k :: 0 <= k < |targets| ==> rs[k] == TargetRecord(targets[k], runs[k])
  {
    seq(|targets|, k requires 0 <= k < |targets| => TargetRecord(targets[k], runs[k]))
  }

  /** `scanTargets`, with the targets handled one at a time. */
  method ScanTargets(targets: seq<string>, runs: seq<TargetRun>, reportWriter: ReportWriter)
    requires |runs| == |targets|
    requires reportWriter.Valid()
    modifies reportWriter.report
    ensures reportWriter.Valid()
    ensures reportWriter.report.records
         == old(reportWriter.report.records) + BatchRecords(targets, runs)
    ensures reportWriter.report.successCount + reportWriter.report.failCount
         == old(reportWriter.report.successCount + reportWriter.report.failCount) + |targets|
    ensures reportWriter.report.totalTargets == old(reportWriter.report.totalTargets)
    ensures reportWriter.report.startTime == old(reportWriter.report.startTime)
    ensures reportWriter.report.endTime == old(reportWriter.report.endTime)
  {
    CountsPartition(reportWriter.report.records);
    for i := 0 to |targets|
      invariant reportWriter.Valid()
      invariant reportWriter.report.records
             == old(reportWriter.report.records) + BatchRecords(targets[..i], runs[..i])
      invariant reportWriter.report.totalTargets == old(reportWriter.report.totalTargets)
      invariant reportWriter.report.startTime == old(reportWriter.report.startTime)
      invariant reportWriter.report.endTime == old(reportWriter.report.endTime)
    {
      ScanOne(targets[i], runs[i], reportWriter);
      assert BatchRecords(targets[..i + 1], runs[..i + 1])
          == BatchRecords(targets[..i], runs[..i]) + [TargetRecord(targets[i], runs[i])];
    }
    assert targets[..|targets|] == targets && runs[..|runs|] == runs;
    CountsPartition(reportWriter.report.records);
  }

  /**
   * `main` after the target list is read: a fresh report for `len(targets)` targets, the
   * batch, then `GetStats`. The two counts are what the final summary line prints.
   */
  method RunScan(targets: seq<string>, runs: seq<TargetRun>, startTime: Time)
    returns (successCount: int, failCount: int)
    requires |runs| == |targets|
    ensures successCount + failCount == |targets|
    ensures successCount == CountStatus(BatchRecords(targets, runs), StatusSuccess)
    ensures failCount == CountStatus(BatchRecords(targets, runs), StatusFailed)
  {
    var reportWriter := new ReportWriter(|targets|, startTime);
    ScanTargets(targets, runs, reportWriter);
    assert reportWriter.report.records == BatchRecords(targets, runs);
    successCount, failCount := reportWriter.GetStats();
  }

  /** The number of runs whose scan succeeded. */
  function ScannedRuns(runs: seq<TargetRun>): (n: nat)
    ensures n <= |runs|
  {
    if runs == [] then 0
    else ScannedRuns(runs[..|runs| - 1]) + (if Scan(runs[|runs| - 1]).Success? then 1 else 0)
  }

  /**
   * The report's counts are decided by the scans alone: successes are the targets whose three
   * stages all completed, failures all the others.
   */
  lemma {:induction false} BatchCounts(targets: seq<string>, runs: seq<TargetRun>)
    requires |runs| == |targets|
    ensures CountStatus(BatchRecords(targets, runs), StatusSuccess) == ScannedRuns(runs)
    ensures CountStatus(BatchRecords(targets, runs), StatusFailed) == |runs| - ScannedRuns(runs)
  {
    if runs != [] {
      var n := |runs| - 1;
      BatchCounts(targets[..n], runs[..n]);
      var rs := BatchRecords(targets, runs);
      assert rs[..n] == BatchRecords(targets[..n], runs[..n]);
    }
  }

  /** When every stage of every target completes, every target is a success. */
  lemma {:induction false} AllStagesPassAllSucceed(targets: seq<string>, runs: seq<TargetRun>)
    requires |runs| == |targets|
    requires forall k :: 0 <= k < |runs| ==>
               runs[k].check.Completed? && runs[k].fetch.Completed? && runs[k].render.Success?
    ensures CountStatus(BatchRecords(targets, runs), StatusSuccess) == |targets|
    ensures CountStatus(BatchRecords(targets, runs), StatusFailed) == 0
  {
    BatchCounts(targets, runs);
    AllScannedCount(runs);
  }

  lemma {:induction false} AllScannedCount(runs: seq<TargetRun>)
    requires forall k :: 0 <= k < |runs| ==> Scan(runs[k]).Success?
    ensures ScannedRuns(runs) == |runs|
  {
    if runs != [] {
      var n := |runs| - 1;
      assert forall k :: 0 <= k < n ==> runs[..n][k] == runs[k];
      AllScannedCount(runs[..n]);
    }
  }

  /**
   * A single target whose Tor check fails gives one failed record whose error names the
   * verification stage, and counts of zero successes and one failure.
   */
  lemma SingleTargetVerifyFails(target: string, run: TargetRun)
    requires !run.check.Completed?
    ensures var rs := BatchRecords([target], [run]);
            && rs == [FailureRecord(target, VerifyStageFailedPrefix + VerifyTorConnection(run.check).error, run.now)]
            && CountStatus(rs, StatusSuccess) == 0 && CountStatus(rs, StatusFailed) == 1
  {
  }
}
