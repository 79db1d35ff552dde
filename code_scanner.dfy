/**
 * The code scanner (src/components/CodeScanner.tsx over `mockCodeFiles` of
 * src/data/mockData.ts): starting a scan lists every file as pending, and
 * each interval tick moves the scan one file on, until a last tick marks
 * every file complete.
 */
module CodeScanner {
  import Common
  import Decimal

  /** `mockCodeFiles` */
  const MockCodeFiles: seq<string> := [
    "src/pipelines/customer_ingestion.py",
    "src/pipelines/user_transform.py",
    "src/pipelines/transactions_loader.py",
    "src/validators/orders_validator.py",
    "src/validators/product_sync.py",
    "src/validators/streaming_validator.py",
    "src/etl/pricing_etl.py",
    "src/validators/schema_validator.py",
    "src/utils/data_quality.py",
    "src/config/rules_config.yaml"
  ]

  const TotalFiles: nat := |MockCodeFiles|

  datatype ScanStatus = Pending | Scanning | Complete

  datatype ScanResult = ScanResult(file: string, rulesFound: nat, status: ScanStatus)

  /** `Math.floor(Math.random() * 3) + 1`: the number of rules found in a scanned file. */
  function RulesFound(draw: Common.Draw): (n: nat)
    ensures 1 <= n <= 3
  {
    Common.PickIndex(draw, 3) + 1
  }

  /** The status the tick's updater gives entry i when it reads the counter as `seen`. */
  function StatusAt(i: nat, seen: nat): ScanStatus {
    if i == seen then Scanning else if i < seen then Complete else Pending
  }

  /** The results `startScan` sets: one pending entry per file, no rules found. */
  function Started(files: seq<string>): (r: seq<ScanResult>)
    ensures |r| == |files|
    ensures forall i :: 0 <= i < |r| ==> r[i] == ScanResult(files[i], 0, Pending)
  {
    seq(|files|, i requires 0 <= i < |files| => ScanResult(files[i], 0, Pending))
  }

  /**
   * The `prev.map(...)` updater of a tick, run when it reads the interval's
   * counter as `seen`: entry `seen` is scanning, the ones before it are
   * complete with a fresh count of rules found, and the ones after it are
   * pending with none.
   */
  function ScanTick(prev: seq<ScanResult>, seen: nat, draws: seq<Common.Draw>): (r: seq<ScanResult>)
    requires |draws| == |prev|
    ensures |r| == |prev|
    ensures forall i :: 0 <= i < |r| ==> r[i].file == prev[i].file
    ensures forall i :: 0 <= i < |r| ==> (r[i].status == Scanning <==> i == seen)
    ensures forall i :: 0 <= i < |r| ==> (r[i].status == Complete <==> i < seen)
    ensures forall i :: 0 <= i < |r| ==> (r[i].status == Complete <==> 1 <= r[i].rulesFound)
    ensures forall i :: 0 <= i < |r| ==> r[i].rulesFound <= 3
  {
    seq(|prev|, i requires 0 <= i < |prev| =>
      prev[i].(status := StatusAt(i, seen), rulesFound := if i < seen then RulesFound(draws[i]) else 0))
  }

  /** The results of the last tick: every file complete, each with a fresh count of rules found. */
  function Finished(prev: seq<ScanResult>, draws: seq<Common.Draw>): (r: seq<ScanResult>)
    requires |draws| == |prev|
    ensures |r| == |prev|
    ensures forall i :: 0 <= i < |r| ==> r[i].file == prev[i].file && r[i].status == Complete
    ensures forall i :: 0 <= i < |r| ==> 1 <= r[i].rulesFound <= 3
  {
    seq(|prev|, i requires 0 <= i < |prev| => prev[i].(status := Complete, rulesFound := RulesFound(draws[i])))
  }

  /** A tick whose updater reads a counter inside the list leaves exactly one entry scanning: that one. */
  lemma ExactlyOneScanning(prev: seq<ScanResult>, seen: nat, draws: seq<Common.Draw>)
    requires |draws| == |prev| && seen < |prev|
    ensures ScanTick(prev, seen, draws)[seen].status == Scanning
    ensures forall i :: 0 <= i < |prev| && ScanTick(prev, seen, draws)[i].status == Scanning ==> i == seen
  {
  }

  /**
   * The tick on the last file reads the counter already advanced past the
   * list, so it shows no entry scanning: every file is complete with 1 to
   * 3 rules before the final tick runs.
   */
  lemma LastFileTickCompletesAll(prev: seq<ScanResult>, draws: seq<Common.Draw>)
    requires |draws| == |prev|
    ensures forall i :: 0 <= i < |prev| ==>
      ScanTick(prev, |prev|, draws)[i].status == Complete && 1 <= ScanTick(prev, |prev|, draws)[i].rulesFound <= 3
  {
  }

  /** `Math.round(((index + 1) / total) * 100)`: the progress once the tick reaching file index has run. */
  function Progress(index: nat, total: nat): (p: nat)
    requires index < total
    ensures p <= 100
  {
    Decimal.RoundHalfUpMonotone((index + 1) * 100, 100 * total, total);
    Decimal.RoundHalfUpExact(100, total);
    Decimal.RoundHalfUp((index + 1) * 100, total)
  }

  /** Progress never goes back from one file to a later one. */
  lemma ProgressMonotone(i: nat, j: nat, total: nat)
    requires i <= j < total
    ensures Progress(i, total) <= Progress(j, total)
  {
    Decimal.RoundHalfUpMonotone((i + 1) * 100, (j + 1) * 100, total);
  }

  /** Progress reaches 100 on the last file. */
  lemma ProgressComplete(total: nat)
    requires total > 0
    ensures Progress(total - 1, total) == 100
  {
    assert (total - 1 + 1) * 100 == 100 * total;
    Decimal.RoundHalfUpExact(100, total);
  }

  /** Over the ten files, the progress after the first tick is 10, after the fifth is 50. */
  lemma TenFileProgress()
    ensures TotalFiles == 10
    ensures Progress(0, TotalFiles) == 10 && Progress(4, TotalFiles) == 50
  {
    Decimal.RoundHalfUpExact(10, 10);
    Decimal.RoundHalfUpExact(50, 10);
  }

  /** The scanner's state; `currentIndex` is the counter the interval keeps. */
  class Scanner {
    var isScanning: bool
    var scanProgress: nat
    var currentFile: string
    var results: seq<ScanResult>
    var scanComplete: bool
    var currentIndex: nat

    /**
     * Results, once there are any, list the files in order; while a scan
     * runs they have the shape its counter dictates and the progress that
     * goes with it; a finished scan shows every file complete.
     */
    predicate Valid()
      reads this
    {
      (results == [] || (|results| == TotalFiles && forall i :: 0 <= i < |results| ==> results[i].file == MockCodeFiles[i])) &&
      (isScanning ==>
        !scanComplete && |results| == TotalFiles && currentIndex <= TotalFiles &&
        (forall i :: 0 <= i < |results| ==> results[i].status == if currentIndex == 0 then Pending else StatusAt(i, currentIndex)) &&
        (forall i :: 0 <= i < |results| ==> (results[i].status == Complete <==> 1 <= results[i].rulesFound)) &&
        scanProgress == (if currentIndex == 0 then 0 else Progress(currentIndex - 1, TotalFiles)) &&
        (currentIndex > 0 ==> currentFile == MockCodeFiles[currentIndex - 1])) &&
      (scanComplete ==>
        !isScanning && |results| == TotalFiles &&
        forall i :: 0 <= i < |results| ==> results[i].status == Complete && 1 <= results[i].rulesFound <= 3)
    }

    constructor()
      ensures !isScanning && scanProgress == 0 && currentFile == "" && results == [] && !scanComplete
      ensures Valid()
    {
      isScanning, scanProgress, currentFile, results, scanComplete, currentIndex := false, 0, "", [], false, 0;
    }

    /** `startScan`; its button is disabled while a scan runs. A new scan restarts the interval's counter. */
    method StartScan()
      requires !isScanning && Valid()
      modifies this
      ensures isScanning && scanProgress == 0 && !scanComplete && currentIndex == 0
      ensures results == Started(MockCodeFiles) && currentFile == old(currentFile)
      ensures Valid()
    {
      isScanning, scanProgress, scanComplete := true, 0, false;
      results := Started(MockCodeFiles);
      currentIndex := 0;
    }

    /**
     * One interval tick while scanning; draws stand for the `Math.random()`
     * calls, one per entry. The results updater is queued behind
     * `setCurrentFile` and runs at the next render, after `currentIndex++`,
     * so it reads the advanced counter.
     */
    method Step(draws: seq<Common.Draw>)
      requires isScanning && Valid() && |draws| == |results|
      modifies this
      ensures Valid()
      ensures old(currentIndex) < TotalFiles ==>
        isScanning && results == ScanTick(old(results), old(currentIndex) + 1, draws) &&
        currentIndex == old(currentIndex) + 1 && currentFile == MockCodeFiles[old(currentIndex)] &&
        scanProgress == Progress(old(currentIndex), TotalFiles) && old(scanProgress) <= scanProgress
      ensures old(currentIndex) == TotalFiles ==>
        !isScanning && scanComplete && results == Finished(old(results), draws) &&
        currentIndex == old(currentIndex) && currentFile == old(currentFile) && scanProgress == old(scanProgress)
    {
      if currentIndex < TotalFiles {
        if currentIndex > 0 {
          ProgressMonotone(currentIndex - 1, currentIndex, TotalFiles);
        }
        currentFile := MockCodeFiles[currentIndex];
        scanProgress := Progress(currentIndex, TotalFiles);
        currentIndex := currentIndex + 1;
        results := ScanTick(results, currentIndex, draws);
      } else {
        isScanning, scanComplete := false, true;
        results := Finished(results, draws);
      }
    }
  }
}
