/**
 * The scan report accumulator of internal/output/report.go. `ScanReport` is a struct the
 * writer holds by pointer and updates in place, so both are classes here. Clock readings are
 * passed in as `Time` values.
 */
module OutputReport {
  import opened GoStrings

  /** An instant as read from `time.Now()`; 0 is Go's zero `time.Time`. */
  type Time = nat

  const StatusSuccess: string := "SUCCESS"
  const StatusFailed: string := "FAILED"

  /** One target's line in the report; empty strings and 0 are the fields JSON omits. */
  datatype ScanRecord = ScanRecord(
    url: string,
    status: string,
    statusCode: int64,
    ipAddress: string,
    timestamp: Time,
    screenshotPath: string,
    htmlPath: string,
    error: string)

  /** The record `AddSuccess` appends. */
  function SuccessRecord(url: string, statusCode: int64, ipAddr: string, screenshotPath: string,
                         htmlPath: string, now: Time): (r: ScanRecord)
    ensures r.status == StatusSuccess && r.error == ""
    ensures r.url == url && r.statusCode == statusCode && r.ipAddress == ipAddr
    ensures r.screenshotPath == screenshotPath && r.htmlPath == htmlPath && r.timestamp == now
  {
    ScanRecord(url, StatusSuccess, statusCode, ipAddr, now, screenshotPath, htmlPath, "")
  }

  /** The record `AddError` appends: only url, status, timestamp and error are set. */
  function FailureRecord(url: string, errMsg: string, now: Time): (r: ScanRecord)
    ensures r.status == StatusFailed && r.error == errMsg && r.url == url && r.timestamp == now
    ensures r.statusCode == 0 && r.ipAddress == "" && r.screenshotPath == "" && r.htmlPath == ""
  {
    ScanRecord(url, StatusFailed, 0, "", now, "", "", errMsg)
  }

  /** The number of records whose status is `status`. */
  function CountStatus(records: seq<ScanRecord>, status: string): (n: nat)
    ensures n <= |records|
  {
    if records == [] then 0
    else CountStatus(records[..|records| - 1], status)
         + (if records[|records| - 1].status == status then 1 else 0)
  }

  /** Appending one record adds one to the count of its own status and to no other. */
  lemma CountStatusAppend(records: seq<ScanRecord>, r: ScanRecord, status: string)
    ensures CountStatus(records + [r], status)
         == CountStatus(records, status) + (if r.status == status then 1 else 0)
  {
  }

  /** Every record is a success or a failure. */
  ghost predicate WellFormed(records: seq<ScanRecord>) {
    forall k :: 0 <= k < |records| ==> records[k].status == StatusSuccess || records[k].status == StatusFailed
  }

  /** When every record is a success or a failure, the two counts add up to the record count. */
  lemma {:induction false} CountsPartition(records: seq<ScanRecord>)
    requires WellFormed(records)
    ensures CountStatus(records, StatusSuccess) + CountStatus(records, StatusFailed) == |records|
  {
    if records != [] {
      var init := records[..|records| - 1];
      assert WellFormed(init) by {
        forall k | 0 <= k < |init| ensures init[k].status == StatusSuccess || init[k].status == StatusFailed {
          assert init[k] == records[k];
        }
      }
      CountsPartition(init);
    }
  }

  /**
   * Appending a SUCCESS or FAILED record keeps the records well formed, raises exactly the
   * count of its own status, and keeps the two counts summing to the number of records.
   */
  lemma AppendKeepsCounts(records: seq<ScanRecord>, r: ScanRecord, successes: nat, failures: nat)
    requires WellFormed(records)
    requires r.status == StatusSuccess || r.status == StatusFailed
    requires successes == CountStatus(records, StatusSuccess)
    requires failures == CountStatus(records, StatusFailed)
    ensures WellFormed(records + [r])
    ensures CountStatus(records + [r], StatusSuccess)
         == successes + (if r.status == StatusSuccess then 1 else 0)
    ensures CountStatus(records + [r], StatusFailed)
         == failures + (if r.status == StatusFailed then 1 else 0)
    ensures CountStatus(records + [r], StatusSuccess) + CountStatus(records + [r], StatusFailed)
         == |records| + 1
  {
    CountsPartition(records);
    CountStatusAppend(records, r, StatusSuccess);
    CountStatusAppend(records, r, StatusFailed);
    var extended := records + [r];
    forall k | 0 <= k < |extended|
      ensures extended[k].status == StatusSuccess || extended[k].status == StatusFailed
    {
      if k < |records| {
        assert extended[k] == records[k];
      }
    }
  }

  class ScanReport {
    var startTime: Time
    var endTime: Time
    var totalTargets: int
    var successCount: int
    var failCount: int
    var records: seq<ScanRecord>

    constructor (startTime: Time, totalTargets: int)
      ensures this.startTime == startTime && endTime == 0 && this.totalTargets == totalTargets
      ensures successCount == 0 && failCount == 0 && records == []
    {
      this.startTime := startTime;
      endTime := 0;
      this.totalTargets := totalTargets;
      successCount := 0;
      failCount := 0;
      records := [];
    }
  }

  class ReportWriter {
    const report: ScanReport

    /** Each counter is the number of records of its status, and there are no other statuses. */
    ghost predicate Valid()
      reads this, report
    {
      && WellFormed(report.records)
      && report.successCount == CountStatus(report.records, StatusSuccess)
      && report.failCount == CountStatus(report.records, StatusFailed)
    }

    /** `NewReportWriter(totalTargets)`, started at `now`. */
    constructor (totalTargets: int, now: Time)
      ensures Valid() && fresh(report)
      ensures report.totalTargets == totalTargets && report.startTime == now && report.endTime == 0
      ensures report.successCount == 0 && report.failCount == 0 && report.records == []
    {
      report := new ScanReport(now, totalTargets);
    }

    method AddSuccess(url: string, statusCode: int64, ipAddr: string, screenshotPath: string,
                      htmlPath: string, now: Time)
      requires Valid()
      modifies report
      ensures Valid()
      ensures report.records
           == old(report.records) + [SuccessRecord(url, statusCode, ipAddr, screenshotPath, htmlPath, now)]
      ensures report.successCount == old(report.successCount) + 1
      ensures report.failCount == old(report.failCount)
      ensures report.successCount + report.failCount == |report.records|
      ensures report.totalTargets == old(report.totalTargets)
      ensures report.startTime == old(report.startTime) && report.endTime == old(report.endTime)
    {
      var record := SuccessRecord(url, statusCode, ipAddr, screenshotPath, htmlPath, now);
      AppendKeepsCounts(report.records, record, report.successCount, report.failCount);
      report.records := report.records + [record];
      report.successCount := report.successCount + 1;
    }

    method AddError(url: string, errMsg: string, now: Time)
      requires Valid()
      modifies report
      ensures Valid()
      ensures report.records == old(report.records) + [FailureRecord(url, errMsg, now)]
      ensures report.failCount == old(report.failCount) + 1
      ensures report.successCount == old(report.successCount)
      ensures report.successCount + report.failCount == |report.records|
      ensures report.totalTargets == old(report.totalTargets)
      ensures report.startTime == old(report.startTime) && report.endTime == old(report.endTime)
    {
      var record := FailureRecord(url, errMsg, now);
      AppendKeepsCounts(report.records, record, report.successCount, report.failCount);
      report.records := report.records + [record];
      report.failCount := report.failCount + 1;
    }

    /** `GetStats`: the two counters, read without changing anything. */
    method GetStats() returns (successCount: int, failCount: int)
      requires Valid()
      ensures successCount == report.successCount && failCount == report.failCount
      ensures successCount == CountStatus(report.records, StatusSuccess)
      ensures failCount == CountStatus(report.records, StatusFailed)
      ensures successCount + failCount == |report.records|
    {
      CountsPartition(report.records);
      successCount, failCount := report.successCount, report.failCount;
    }
  }
}
