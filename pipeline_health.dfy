/**
 * The pipeline health cards (src/components/PipelineHealth.tsx over
 * `mockPipelines` of src/data/mockData.ts): a pass rate is coloured by three
 * bands, once for the figure and once for its progress bar.
 */
module PipelineHealth {

  datatype PipelineStatus = Healthy | Degraded | Critical

  datatype Pipeline = Pipeline(id: string, name: string, status: PipelineStatus, rulesCount: nat, lastRun: string, passRate: real)

  /** `mockPipelines` */
  const MockPipelines: seq<Pipeline> := [
    Pipeline("pipe-001", "Customer Data Pipeline", Healthy, 12, "2 mins ago", 99.2),
    Pipeline("pipe-002", "User Events Pipeline", Critical, 8, "5 mins ago", 94.2),
    Pipeline("pipe-003", "Financial Transactions", Healthy, 15, "1 min ago", 100.0),
    Pipeline("pipe-004", "Orders Pipeline", Degraded, 10, "8 mins ago", 97.5),
    Pipeline("pipe-005", "Real-time Events", Critical, 6, "12 mins ago", 88.3),
    Pipeline("pipe-006", "Product Catalog", Healthy, 9, "3 mins ago", 99.1)
  ]

  /** The three colour bands of a pass rate, from best to worst. */
  datatype Tone = Success | Warning | Destructive

  function ToneName(t: Tone): string {
    match t
    case Success => "success"
    case Warning => "warning"
    case Destructive => "destructive"
  }

  /** The band of a pass rate: at least 99, at least 95, or below. */
  function Band(passRate: real): (t: Tone)
    ensures t == Success <==> passRate >= 99.0
    ensures t == Warning <==> 95.0 <= passRate < 99.0
    ensures t == Destructive <==> passRate < 95.0
  {
    if passRate >= 99.0 then Success else if passRate >= 95.0 then Warning else Destructive
  }

  /** The colour class of the pass-rate figure. */
  function FigureClass(passRate: real): string {
    if passRate >= 99.0 then "text-success" else if passRate >= 95.0 then "text-warning" else "text-destructive"
  }

  /** The colour class of the progress bar, written out separately in the component. */
  function BarClass(passRate: real): string {
    if passRate >= 99.0 then "bg-success" else if passRate >= 95.0 then "bg-warning" else "bg-destructive"
  }

  /** Figure and bar use the same three-band classification. */
  lemma SameClassification(passRate: real)
    ensures FigureClass(passRate) == "text-" + ToneName(Band(passRate))
    ensures BarClass(passRate) == "bg-" + ToneName(Band(passRate))
  {
  }

  /** 0 for the best band, 2 for the worst. */
  function Rank(t: Tone): nat {
    match t
    case Success => 0
    case Warning => 1
    case Destructive => 2
  }

  /** A higher pass rate never lands in a worse band. */
  lemma BandMonotone(p: real, q: real)
    requires p <= q
    ensures Rank(Band(q)) <= Rank(Band(p))
  {
  }

  /** The band edges belong to the better band. */
  lemma BandBoundaries()
    ensures Band(99.0) == Success && Band(95.0) == Warning
    ensures Band(98.9) == Warning && Band(94.9) == Destructive
  {
  }

  /** The band that corresponds to each status of a pipeline. */
  function StatusTone(s: PipelineStatus): (t: Tone) {
    match s
    case Healthy => Success
    case Degraded => Warning
    case Critical => Destructive
  }

  /** In the fixed data every pipeline's status agrees with the band of its pass rate. */
  lemma StatusesMatchBands()
    ensures |MockPipelines| == 6
    ensures forall i :: 0 <= i < |MockPipelines| ==> StatusTone(MockPipelines[i].status) == Band(MockPipelines[i].passRate)
  {
  }
}
