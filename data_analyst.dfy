/** The row-level derivations of the analytics job that builds the carrier and
    customer profile tables: the peak window around the busiest hour, the
    allocatable headroom of a carrier, and the first-match CASE classifiers.
    Aggregation (COUNT, SUM, MODE, ...) happens before these expressions and is
    not modelled; each function takes the aggregated values as arguments. */
module DataAnalyst {
  import opened Wrappers
  import opened DuckDbCasts

  /** Hour assumed as a carrier's peak when it handled no traffic. */
  const DEFAULT_PEAK_HOUR: int := 12

  // ---------------------------------------------------------------------------
  // Peak window

  /** `GREATEST(0, actual_peak_hour - 4)`. */
  function PeakStartTime(peakHour: int): (start: int)
    ensures start >= 0 && start >= peakHour - 4
    ensures start == 0 || start == peakHour - 4
  {
    if peakHour - 4 > 0 then peakHour - 4 else 0
  }

  /** `LEAST(23, actual_peak_hour + 3)`. */
  function PeakEndTime(peakHour: int): (end: int)
    ensures end <= 23 && end <= peakHour + 3
    ensures end == 23 || end == peakHour + 3
  {
    if peakHour + 3 < 23 then peakHour + 3 else 23
  }

  /** For an hour of the day, the window lies within the day, contains the peak
      hour, and spans exactly seven hours except where it is clipped. */
  lemma PeakWindowWithinDay(peakHour: int)
    requires 0 <= peakHour <= 23
    ensures 0 <= PeakStartTime(peakHour) <= peakHour <= PeakEndTime(peakHour) <= 23
    ensures 3 <= PeakEndTime(peakHour) - PeakStartTime(peakHour) <= 7
    ensures PeakEndTime(peakHour) - PeakStartTime(peakHour) == 7 <==> 4 <= peakHour <= 20
  {
  }

  /** `COALESCE(cpd.actual_peak_hour, 12)`: the detected peak hour, or noon. */
  function CarrierPeakHour(detected: Option<int>): (hour: int)
    ensures detected.Some? ==> hour == detected.value
    ensures detected.None? ==> hour == DEFAULT_PEAK_HOUR
    ensures (detected.None? || 0 <= detected.value <= 23) ==> 0 <= hour <= 23
  {
    detected.GetOr(DEFAULT_PEAK_HOUR)
  }

  /** A carrier without traffic gets the window from 8 to 15. */
  lemma NoTrafficPeakWindow()
    ensures PeakStartTime(CarrierPeakHour(None)) == 8
    ensures PeakEndTime(CarrierPeakHour(None)) == 15
  {
  }

  // ---------------------------------------------------------------------------
  // Allocatable headroom

  /** `COALESCE(cat.total_allocated_tps, 0)`: the sum of approved allocations,
      0 when a carrier has none. */
  function TotalAllocatedTps(approved: Option<real>): (total: real)
    ensures approved.None? ==> total == 0.0
    ensures approved.Some? ==> total == approved.value
  {
    approved.GetOr(0.0)
  }

  /** `CAST(GREATEST(0, allowed_tps - avg_tps_actual - COALESCE(total_allocated_tps, 0)) AS INTEGER)`.
      The operand is a DOUBLE (the allocated total sums REAL values), so the
      cast rounds halves to even. */
  function AllocatableTps(allowedTps: int, avgTpsActual: int, approved: Option<real>): (headroom: int)
    ensures headroom >= 0
    ensures avgTpsActual >= 0 && TotalAllocatedTps(approved) >= 0.0 ==>
      headroom <= (if allowedTps > 0 then allowedTps else 0)
    ensures approved.None? ==>
      headroom == (if allowedTps - avgTpsActual > 0 then allowedTps - avgTpsActual else 0)
    ensures var free := allowedTps as real - avgTpsActual as real - TotalAllocatedTps(approved);
      var clamped := if free > 0.0 then free else 0.0;
      && clamped - 0.5 <= headroom as real <= clamped + 0.5
      && (!IsHalf(clamped) ==> clamped - 0.5 < headroom as real < clamped + 0.5)
      && (IsHalf(clamped) ==> headroom % 2 == 0)
    ensures approved.Some? && approved.value == approved.value.Floor as real ==>
      var free := allowedTps - avgTpsActual - approved.value.Floor;
      headroom == (if free > 0 then free else 0)
  {
    var free := allowedTps as real - avgTpsActual as real - TotalAllocatedTps(approved);
    var clamped := if free > 0.0 then free else 0.0;
    CastDoubleToInteger(clamped)
  }

  /** The headroom is the only integer that lies within half a unit of the
      clamped free capacity and, on a tie, is even. */
  lemma AllocatableTpsUnique(allowedTps: int, avgTpsActual: int, approved: Option<real>, n: int)
    requires var free := allowedTps as real - avgTpsActual as real - TotalAllocatedTps(approved);
      var clamped := if free > 0.0 then free else 0.0;
      && clamped - 0.5 <= n as real <= clamped + 0.5
      && (IsHalf(clamped) ==> n % 2 == 0)
    ensures n == AllocatableTps(allowedTps, avgTpsActual, approved)
  {
    var free := allowedTps as real - avgTpsActual as real - TotalAllocatedTps(approved);
    CastDoubleToIntegerUnique(if free > 0.0 then free else 0.0, n);
  }

  /** A headroom of exactly 86.5 is stored as 86, not 87. */
  lemma HalfHeadroomRoundsToEven()
    ensures AllocatableTps(100, 0, Some(13.5)) == 86
  {
    CastsDifferOnHalves();
  }

  // ---------------------------------------------------------------------------
  // First-match classification

  /** The index of the first threshold that `x` exceeds, or `|thresholds|` when
      it exceeds none: the branch a `CASE WHEN x > t0 ... WHEN x > t1 ... ELSE`
      takes. */
  function FirstExceeded(x: real, thresholds: seq<real>): (i: nat)
    ensures i <= |thresholds|
    ensures forall j :: 0 <= j < i ==> x <= thresholds[j]
    ensures i < |thresholds| ==> x > thresholds[i]
  {
    if |thresholds| == 0 then 0
    else if x > thresholds[0] then 0
    else 1 + FirstExceeded(x, thresholds[1..])
  }

  /** A larger value never takes a later branch. */
  lemma FirstExceededMonotone(x: real, y: real, thresholds: seq<real>)
    requires x <= y
    ensures FirstExceeded(y, thresholds) <= FirstExceeded(x, thresholds)
  {
  }

  datatype Compliance = Compliant | PartiallyCompliant | NonCompliant

  /** Percentage of a customer's transactions inside the contracted hours. */
  function InContractPercentage(contractedHourTransactions: nat, totalTransactions: nat): (pct: real)
    requires totalTransactions > 0
    ensures pct >= 0.0
    ensures contractedHourTransactions <= totalTransactions ==> pct <= 100.0
    ensures pct * totalTransactions as real == contractedHourTransactions as real * 100.0
  {
    contractedHourTransactions as real * 100.0 / totalTransactions as real
  }

  /** `contract_compliance`: the in-contract percentage against 80 and 50.
      Every customer row has at least one transaction. */
  function ContractCompliance(contractedHourTransactions: nat, totalTransactions: nat): (c: Compliance)
    requires totalTransactions > 0
    ensures var pct := InContractPercentage(contractedHourTransactions, totalTransactions);
      && (c == Compliant <==> pct > 80.0)
      && (c == PartiallyCompliant <==> 50.0 < pct <= 80.0)
      && (c == NonCompliant <==> pct <= 50.0)
  {
    var thresholds := [80.0, 50.0];
    var branch := FirstExceeded(InContractPercentage(contractedHourTransactions, totalTransactions), thresholds);
    assert thresholds[0] == 80.0 && thresholds[1] == 50.0;
    if branch == 0 then Compliant else if branch == 1 then PartiallyCompliant else NonCompliant
  }

  datatype TpsUtilization = HighTpsUtilization | MediumTpsUtilization | LowTpsUtilization

  /** `tps_utilization_level`: average use against 0.9 and 0.5 of the customer's
      allocated TPS. */
  function TpsUtilizationLevel(avgTpsUsed: real, allocatedTps: real): (u: TpsUtilization)
    ensures u == HighTpsUtilization <==> avgTpsUsed > allocatedTps * 0.9
    ensures u == MediumTpsUtilization <==> allocatedTps * 0.5 < avgTpsUsed <= allocatedTps * 0.9
    ensures u == LowTpsUtilization <==> avgTpsUsed <= allocatedTps * 0.9 && avgTpsUsed <= allocatedTps * 0.5
  {
    var thresholds := [allocatedTps * 0.9, allocatedTps * 0.5];
    var branch := FirstExceeded(avgTpsUsed, thresholds);
    assert thresholds[0] == allocatedTps * 0.9 && thresholds[1] == allocatedTps * 0.5;
    if branch == 0 then HighTpsUtilization else if branch == 1 then MediumTpsUtilization else LowTpsUtilization
  }

  datatype CapacityUtilization = OverCapacity | HighUtilization | MediumUtilization | LowUtilization {
    /** 3 for OVER_CAPACITY down to 0 for LOW_UTILIZATION. */
    function Severity(): nat {
      match this
      case OverCapacity => 3
      case HighUtilization => 2
      case MediumUtilization => 1
      case LowUtilization => 0
    }
  }

  /** `avg_tps_actual + COALESCE(total_allocated_tps, 0)`: observed plus committed load. */
  function CarrierLoad(avgTpsActual: int, approved: Option<real>): real
  {
    avgTpsActual as real + TotalAllocatedTps(approved)
  }

  /** `capacity_utilization_level`: the load against 0.9, 0.7 and 0.3 of the
      carrier's allowed TPS, first match wins. */
  function CapacityUtilizationLevel(avgTpsActual: int, approved: Option<real>, allowedTps: int): (u: CapacityUtilization)
    ensures var load := CarrierLoad(avgTpsActual, approved);
      var a := allowedTps as real;
      && (u == OverCapacity <==> load > a * 0.9)
      && (u == HighUtilization <==> !(load > a * 0.9) && load > a * 0.7)
      && (u == MediumUtilization <==> !(load > a * 0.9) && !(load > a * 0.7) && load > a * 0.3)
      && (u == LowUtilization <==> !(load > a * 0.9) && !(load > a * 0.7) && !(load > a * 0.3))
  {
    var a := allowedTps as real;
    var thresholds := [a * 0.9, a * 0.7, a * 0.3];
    var branch := FirstExceeded(CarrierLoad(avgTpsActual, approved), thresholds);
    assert thresholds[0] == a * 0.9 && thresholds[1] == a * 0.7 && thresholds[2] == a * 0.3;
    if branch == 0 then OverCapacity
    else if branch == 1 then HighUtilization
    else if branch == 2 then MediumUtilization
    else LowUtilization
  }

  /** For the same allowed TPS a larger load never yields a lower level. */
  lemma CapacityUtilizationMonotone(actual1: int, approved1: Option<real>, actual2: int, approved2: Option<real>, allowedTps: int)
    requires CarrierLoad(actual1, approved1) <= CarrierLoad(actual2, approved2)
    ensures CapacityUtilizationLevel(actual1, approved1, allowedTps).Severity()
         <= CapacityUtilizationLevel(actual2, approved2, allowedTps).Severity()
  {
    var a := allowedTps as real;
    FirstExceededMonotone(CarrierLoad(actual1, approved1), CarrierLoad(actual2, approved2), [a * 0.9, a * 0.7, a * 0.3]);
  }

  /** `delivery_success_rate`: percentage of successful deliveries, 0 for a
      carrier that handled nothing. */
  function DeliverySuccessRate(handled: nat, successful: nat): (rate: real)
    ensures handled == 0 ==> rate == 0.0
    ensures successful <= handled ==> 0.0 <= rate <= 100.0
    ensures handled > 0 ==> rate * handled as real == successful as real * 100.0
  {
    if handled == 0 then 0.0 else successful as real * 100.0 / handled as real
  }

  datatype Rating = Excellent | Good | Average | Poor

  /** `performance_rating`: thresholds 95, 90 and 80 on the success rate. */
  function PerformanceRating(rate: real): (r: Rating)
    ensures r == Excellent <==> rate > 95.0
    ensures r == Good <==> 90.0 < rate <= 95.0
    ensures r == Average <==> 80.0 < rate <= 90.0
    ensures r == Poor <==> rate <= 80.0
  {
    var thresholds := [95.0, 90.0, 80.0];
    var branch := FirstExceeded(rate, thresholds);
    assert thresholds[0] == 95.0 && thresholds[1] == 90.0 && thresholds[2] == 80.0;
    if branch == 0 then Excellent else if branch == 1 then Good else if branch == 2 then Average else Poor
  }

  /** A carrier that handled no transaction is rated POOR. */
  lemma IdleCarrierRatedPoor(successful: nat)
    ensures PerformanceRating(DeliverySuccessRate(0, successful)) == Poor
  {
  }

  // ---------------------------------------------------------------------------
  // Busiest period of the day

  datatype PeakPeriod = NoTraffic | Night | Morning | Afternoon | Evening

  /** `GREATEST` of the four bucket counts. */
  function Greatest4(night: nat, morning: nat, afternoon: nat, evening: nat): (g: nat)
    ensures g >= night && g >= morning && g >= afternoon && g >= evening
    ensures g == night || g == morning || g == afternoon || g == evening
  {
    var a := if night >= morning then night else morning;
    var b := if afternoon >= evening then afternoon else evening;
    if a >= b then a else b
  }

  /** The count of the bucket a period names (0 for NO_TRAFFIC). */
  function BucketCount(p: PeakPeriod, night: nat, morning: nat, afternoon: nat, evening: nat): nat
  {
    match p
    case NoTraffic => 0
    case Night => night
    case Morning => morning
    case Afternoon => afternoon
    case Evening => evening
  }

  /** `actual_peak_period` of a customer: the first bucket, in the order night,
      morning, afternoon, evening, whose count equals the greatest count. */
  function PeakPeriodOf(night: nat, morning: nat, afternoon: nat, evening: nat): (p: PeakPeriod)
    ensures p != NoTraffic
    ensures BucketCount(p, night, morning, afternoon, evening) == Greatest4(night, morning, afternoon, evening)
    ensures var g := Greatest4(night, morning, afternoon, evening);
      && (p == Night <==> night == g)
      && (p == Morning <==> night < g && morning == g)
      && (p == Afternoon <==> night < g && morning < g && afternoon == g)
      && (p == Evening <==> night < g && morning < g && afternoon < g)
  {
    var g := Greatest4(night, morning, afternoon, evening);
    if night == g then Night
    else if morning == g then Morning
    else if afternoon == g then Afternoon
    else Evening
  }

  /** `actual_peak_period` of a carrier: NO_TRAFFIC when it handled nothing,
      otherwise the customer rule. */
  function CarrierPeakPeriod(totalHandled: nat, night: nat, morning: nat, afternoon: nat, evening: nat): (p: PeakPeriod)
    ensures p == NoTraffic <==> totalHandled == 0
    ensures totalHandled > 0 ==> p == PeakPeriodOf(night, morning, afternoon, evening)
  {
    if totalHandled == 0 then NoTraffic else PeakPeriodOf(night, morning, afternoon, evening)
  }
}
