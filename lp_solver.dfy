/** The TPS capacity allocation engine: narrow the carrier profile to the
    carriers usable for a request in three stages, formulate a linear program
    over them, hand it to the solver, shape the solver's vector into per-carrier
    allocations and commit them against the carrier profile table. */
module LpSolver {
  import opened Wrappers
  import opened LinearPrograms
  import DataAnalyst
  import opened DuckDbCasts

  // ---------------------------------------------------------------------------
  // Data

  /** A cell of the INTEGER column `allocatable_tps`; `Null` is a missing
      value, which pandas reads as NaN and `int()` cannot convert. */
  datatype Cell = Value(v: int) | Null

  /** One row of `carrier_profile` as the engine reads it. */
  datatype CarrierRow = CarrierRow(
    name: string,
    peakStart: int,
    peakEnd: int,
    allocatable: Cell,
    countries: seq<string>)

  /** An hour window `start-end`. */
  datatype Window = Window(start: int, end: int)

  datatype Request = Request(requestedTps: real, destinations: seq<string>, peakWindow: Option<Window>)

  /** A carrier together with its `max_allocatable_tps` column. */
  datatype Candidate = Candidate(row: CarrierRow, maxAllocatable: int)

  datatype Allocation = Allocation(carrier: string, allocatedTps: real)

  datatype Rejection =
    | NoCarriersForDestinations
    | NoCarriersForTps
    | NoCarriersForPeakTimes
    | CouldNotAllocate

  datatype Response =
    | Allocated(totalRequestedTps: int, totalAllocatedTps: real, allocations: seq<Allocation>)
    | Rejected(reason: Rejection)

  /** The `message` of each error result. */
  function RejectionMessage(reason: Rejection): string
  {
    match reason
    case NoCarriersForDestinations => "No carriers found supporting the requested destinations"
    case NoCarriersForTps => "No carriers found supporting the requested TPS"
    case NoCarriersForPeakTimes => "No carriers found supporting the requested peak times"
    case CouldNotAllocate => "Could not allocate TPS under current constraints"
  }

  /** Each error exit is told apart by its message. */
  lemma RejectionMessageInjective(a: Rejection, b: Rejection)
    requires RejectionMessage(a) == RejectionMessage(b)
    ensures a == b
  {
  }

  /** The window used when a request names none: "0-23". */
  const DEFAULT_REQUEST_WINDOW: Window := Window(0, 23)

  function RowName(r: CarrierRow): string { r.name }
  function CandidateName(c: Candidate): string { c.row.name }
  function AllocationCarrier(a: Allocation): string { a.carrier }

  /** No two elements of `s` share a key. */
  predicate DistinctBy<T, K(==)>(s: seq<T>, key: T -> K)
  {
    forall i, j :: 0 <= i < j < |s| ==> key(s[i]) != key(s[j])
  }

  // ---------------------------------------------------------------------------
  // Python numeric conversions

  /** Python `int()` of a number: truncation toward zero. */
  function Truncate(x: real): (n: int)
    ensures x >= 0.0 ==> n as real <= x < n as real + 1.0
    ensures x < 0.0 ==> n as real - 1.0 < x <= n as real
  {
    if x >= 0.0 then x.Floor else -((-x).Floor)
  }

  /** `round(x, 2)`, to the nearest hundredth with halves rounded up. */
  function Round2(x: real): (r: real)
    ensures x - 0.005 < r <= x + 0.005
    ensures x >= 0.0 ==> r >= 0.0
  {
    ((x * 100.0 + 0.5).Floor as real) / 100.0
  }

  // ---------------------------------------------------------------------------
  // Order-preserving filter (a boolean mask on a DataFrame)

  function Keep<T(!new)>(s: seq<T>, p: T -> bool): (r: seq<T>)
    ensures |r| <= |s|
    ensures forall x :: x in r <==> x in s && p(x)
  {
    if |s| == 0 then []
    else
      assert s == s[..|s| - 1] + [s[|s| - 1]];
      Keep(s[..|s| - 1], p) + (if p(s[|s| - 1]) then [s[|s| - 1]] else [])
  }

  /** Filtering a concatenation filters each part and keeps their order. */
  lemma {:induction false} KeepAppend<T(!new)>(a: seq<T>, b: seq<T>, p: T -> bool)
    ensures Keep(a + b, p) == Keep(a, p) + Keep(b, p)
  {
    if |b| == 0 {
      assert a + b == a;
    } else {
      var b' := b[..|b| - 1];
      assert (a + b)[..|a + b| - 1] == a + b';
      KeepAppend(a, b', p);
    }
  }

  /** Filtering twice with the same predicate changes nothing. */
  lemma {:induction false} KeepIdempotent<T(!new)>(s: seq<T>, p: T -> bool)
    ensures Keep(Keep(s, p), p) == Keep(s, p)
  {
    if |s| > 0 {
      var last := if p(s[|s| - 1]) then [s[|s| - 1]] else [];
      KeepIdempotent(s[..|s| - 1], p);
      KeepAppend(Keep(s[..|s| - 1], p), last, p);
      if p(s[|s| - 1]) {
        assert Keep(last, p) == Keep([], p) + [s[|s| - 1]];
      }
    }
  }

  /** Filtering keeps keys distinct. */
  lemma {:induction false} KeepDistinct<T(!new), K>(s: seq<T>, p: T -> bool, key: T -> K)
    requires DistinctBy(s, key)
    ensures DistinctBy(Keep(s, p), key)
  {
    if |s| > 0 {
      var init := s[..|s| - 1];
      assert DistinctBy(init, key) by {
        forall i, j | 0 <= i < j < |init| ensures key(init[i]) != key(init[j]) {
          assert init[i] == s[i] && init[j] == s[j];
        }
      }
      KeepDistinct(init, p, key);
      var kept := Keep(init, p);
      if p(s[|s| - 1]) {
        var r := kept + [s[|s| - 1]];
        forall i, j | 0 <= i < j < |r| ensures key(r[i]) != key(r[j]) {
          if j == |r| - 1 {
            assert r[i] in init;
            var k :| 0 <= k < |init| && init[k] == r[i];
            assert s[k] == r[i];
          } else {
            assert r[i] == kept[i] && r[j] == kept[j];
          }
        }
      }
    }
  }

  // ---------------------------------------------------------------------------
  // Stage 1: destination coverage

  /** `any(dest in countries for dest in destinations)`. */
  predicate SupportsAny(countries: seq<string>, destinations: seq<string>)
  {
    exists j :: 0 <= j < |destinations| && destinations[j] in countries
  }

  function DestinationFilter(destinations: seq<string>): CarrierRow -> bool
  {
    (r: CarrierRow) => SupportsAny(r.countries, destinations)
  }

  function DestinationStage(rows: seq<CarrierRow>, destinations: seq<string>): seq<CarrierRow>
  {
    Keep(rows, DestinationFilter(destinations))
  }

  /** The stage keeps exactly the carriers sharing a country with the request. */
  lemma DestinationStageMembers(rows: seq<CarrierRow>, destinations: seq<string>)
    ensures forall r :: r in DestinationStage(rows, destinations) <==>
      r in rows && exists j :: 0 <= j < |destinations| && destinations[j] in r.countries
  {
  }

  /** Whenever stage 1 keeps a carrier, the request lists a destination, so the
      per-destination demand `requested_tps / num_dest` is a proper division. */
  lemma DestinationStageNeedsDestinations(rows: seq<CarrierRow>, destinations: seq<string>)
    requires |DestinationStage(rows, destinations)| > 0
    ensures |destinations| > 0
  {
    assert DestinationStage(rows, destinations)[0] in DestinationStage(rows, destinations);
  }

  /** A filter no element passes keeps nothing. */
  lemma {:induction false} KeepNone<T(!new)>(s: seq<T>, p: T -> bool)
    requires forall i :: 0 <= i < |s| ==> !p(s[i])
    ensures Keep(s, p) == []
  {
    if |s| > 0 {
      KeepNone(s[..|s| - 1], p);
    }
  }

  /** A request none of whose destinations any carrier supports is rejected at
      stage 1, whatever the capacities and windows. */
  lemma DisjointDestinationsRejected(rows: seq<CarrierRow>, destinations: seq<string>)
    requires forall i, j :: 0 <= i < |rows| && 0 <= j < |destinations| ==> destinations[j] !in rows[i].countries
    ensures DestinationStage(rows, destinations) == []
  {
    forall i | 0 <= i < |rows| ensures !DestinationFilter(destinations)(rows[i]) {
      forall j | 0 <= j < |destinations| ensures destinations[j] !in rows[i].countries {
      }
    }
    KeepNone(rows, DestinationFilter(destinations));
  }

  // ---------------------------------------------------------------------------
  // Stage 2: allocatable capacity

  /** `compute_allocatable_tps`: `max(0, int(allocatable_tps))`, or 0 when the
      cell does not convert. */
  function MaxAllocatable(cell: Cell): (bound: int)
    ensures bound >= 0
    ensures cell.Null? ==> bound == 0
    ensures cell.Value? && cell.v >= 0 ==> bound == cell.v
    ensures cell.Value? && cell.v < 0 ==> bound == 0
  {
    match cell
    case Null => 0
    case Value(v) => if v > 0 then v else 0
  }

  /** Adds the `max_allocatable_tps` column; removes no row. */
  function CapacityStage(rows: seq<CarrierRow>): seq<Candidate>
  {
    seq(|rows|, i requires 0 <= i < |rows| => Candidate(rows[i], MaxAllocatable(rows[i].allocatable)))
  }

  /** The check after stage 2 looks at as many carriers as stage 1 kept, so the
      "requested TPS" error can never be returned. */
  lemma CapacityStageKeepsEveryCarrier(rows: seq<CarrierRow>)
    ensures |CapacityStage(rows)| == |rows|
    ensures forall i :: 0 <= i < |rows| ==> CapacityStage(rows)[i].row == rows[i]
    ensures forall i :: 0 <= i < |rows| ==> CapacityStage(rows)[i].maxAllocatable >= 0
  {
  }

  lemma CapacityStageDistinct(rows: seq<CarrierRow>)
    requires DistinctBy(rows, RowName)
    ensures DistinctBy(CapacityStage(rows), CandidateName)
  {
    var c := CapacityStage(rows);
    forall i, j | 0 <= i < j < |c| ensures CandidateName(c[i]) != CandidateName(c[j]) {
      assert RowName(rows[i]) != RowName(rows[j]);
    }
  }

  // ---------------------------------------------------------------------------
  // Stage 3: peak-window overlap

  /** `peak_time_overlaps`: the windows overlap unless one ends at or before
      the other starts. */
  predicate PeakOverlaps(carrierStart: int, carrierEnd: int, requestStart: int, requestEnd: int)
  {
    !(carrierEnd <= requestStart || carrierStart >= requestEnd)
  }

  /** `start <= h < end`: hour `h` lies in the half-open range. */
  predicate InHours(h: int, start: int, end: int)
  {
    start <= h < end
  }

  /** For non-empty windows this is overlap of half-open hour ranges: some
      hour lies in both `[carrierStart, carrierEnd)` and `[requestStart, requestEnd)`. */
  lemma PeakOverlapsIsSharedHour(carrierStart: int, carrierEnd: int, requestStart: int, requestEnd: int)
    requires carrierStart < carrierEnd && requestStart < requestEnd
    ensures PeakOverlaps(carrierStart, carrierEnd, requestStart, requestEnd) <==>
      exists h :: InHours(h, carrierStart, carrierEnd) && InHours(h, requestStart, requestEnd)
  {
    if PeakOverlaps(carrierStart, carrierEnd, requestStart, requestEnd) {
      var h := if carrierStart >= requestStart then carrierStart else requestStart;
      assert InHours(h, carrierStart, carrierEnd) && InHours(h, requestStart, requestEnd);
    }
  }

  /** The request's window, "0-23" when the request names none. */
  function RequestWindow(request: Request): (w: Window)
    ensures request.peakWindow.None? ==> w == Window(0, 23)
    ensures request.peakWindow.Some? ==> w == request.peakWindow.value
  {
    request.peakWindow.GetOr(DEFAULT_REQUEST_WINDOW)
  }

  function PeakFilter(w: Window): Candidate -> bool
  {
    (c: Candidate) => PeakOverlaps(c.row.peakStart, c.row.peakEnd, w.start, w.end)
  }

  function PeakStage(candidates: seq<Candidate>, w: Window): seq<Candidate>
  {
    Keep(candidates, PeakFilter(w))
  }

  /** A carrier survives stage 3 iff `carrier_end > req_start && carrier_start < req_end`. */
  lemma PeakStageMembers(candidates: seq<Candidate>, w: Window)
    ensures forall c :: c in PeakStage(candidates, w) <==>
      c in candidates && c.row.peakEnd > w.start && c.row.peakStart < w.end
  {
  }

  /** Every carrier window the analytics job derives from an hour of the day
      overlaps the default request window "0-23". */
  lemma DefaultWindowAdmitsProfiledCarriers(peakHour: int)
    requires 0 <= peakHour <= 23
    ensures PeakOverlaps(DataAnalyst.PeakStartTime(peakHour), DataAnalyst.PeakEndTime(peakHour),
                         DEFAULT_REQUEST_WINDOW.start, DEFAULT_REQUEST_WINDOW.end)
  {
    DataAnalyst.PeakWindowWithinDay(peakHour);
  }

  /** The analytics job's window `[h-4, h+3]` covers eight hours counting both
      ends, but the overlap test treats its end hour as excluded: a request for
      exactly that hour alone does not match the carrier. */
  lemma PeakEndHourNotMatched(peakHour: int)
    requires 4 <= peakHour <= 19
    ensures DataAnalyst.PeakEndTime(peakHour) - DataAnalyst.PeakStartTime(peakHour) + 1 == 8
    ensures !PeakOverlaps(DataAnalyst.PeakStartTime(peakHour), DataAnalyst.PeakEndTime(peakHour),
                          DataAnalyst.PeakEndTime(peakHour), DataAnalyst.PeakEndTime(peakHour) + 1)
  {
  }

  /** The carriers left after the three stages, in table order. */
  function Eligible(rows: seq<CarrierRow>, request: Request): seq<Candidate>
  {
    PeakStage(CapacityStage(DestinationStage(rows, request.destinations)), RequestWindow(request))
  }

  lemma EligibleNeedsDestinations(rows: seq<CarrierRow>, request: Request)
    requires |Eligible(rows, request)| > 0
    ensures |request.destinations| > 0
  {
    var matching := DestinationStage(rows, request.destinations);
    CapacityStageKeepsEveryCarrier(matching);
    DestinationStageNeedsDestinations(rows, request.destinations);
  }

  lemma EligibleDistinct(rows: seq<CarrierRow>, request: Request)
    requires DistinctBy(rows, RowName)
    ensures DistinctBy(Eligible(rows, request), CandidateName)
  {
    var matching := DestinationStage(rows, request.destinations);
    KeepDistinct(rows, DestinationFilter(request.destinations), RowName);
    CapacityStageDistinct(matching);
    KeepDistinct(CapacityStage(matching), PeakFilter(RequestWindow(request)), CandidateName);
  }

  // ---------------------------------------------------------------------------
  // Formulation

  /** The constraint row of destination `d`: -1 for carriers supporting it. */
  function SupportRow(eligible: seq<Candidate>, d: string): seq<real>
  {
    seq(|eligible|, i requires 0 <= i < |eligible| => if d in eligible[i].row.countries then -1.0 else 0.0)
  }

  function Ones(n: nat): seq<real>
  {
    seq(n, _ => 1.0)
  }

  /** The linear program handed to `linprog`. */
  function Formulation(eligible: seq<Candidate>, destinations: seq<string>, requestedTps: real): LinearProgram
    requires |destinations| > 0
  {
    var m := |eligible|;
    var demandPerDest := requestedTps / |destinations| as real;
    LinearProgram(
      Ones(m),
      seq(|destinations|, j requires 0 <= j < |destinations| => SupportRow(eligible, destinations[j])),
      seq(|destinations|, _ => -demandPerDest),
      [Ones(m)],
      [requestedTps],
      seq(m, i requires 0 <= i < m => Bound(0.0, eligible[i].maxAllocatable as real)))
  }

  /** The shape of the program: all-ones objective and equality row, one
      negated coverage row per listed destination (duplicates included) with
      -1 exactly at the carriers supporting it, right-hand sides
      `-requested_tps / k`, and bounds `[0, cap_i]` with `cap_i >= 0`. */
  lemma FormulationShape(eligible: seq<Candidate>, destinations: seq<string>, requestedTps: real)
    requires |destinations| > 0
    ensures var lp := Formulation(eligible, destinations, requestedTps);
      && |lp.c| == |eligible| && (forall i :: 0 <= i < |lp.c| ==> lp.c[i] == 1.0)
      && |lp.aEq| == 1 && |lp.aEq[0]| == |eligible| && (forall i :: 0 <= i < |eligible| ==> lp.aEq[0][i] == 1.0)
      && lp.bEq == [requestedTps]
      && |lp.aUb| == |destinations| == |lp.bUb|
      && (forall j :: 0 <= j < |destinations| ==>
            && |lp.aUb[j]| == |eligible|
            && lp.bUb[j] == -(requestedTps / |destinations| as real)
            && (forall i :: 0 <= i < |eligible| ==>
                  lp.aUb[j][i] == (if destinations[j] in eligible[i].row.countries then -1.0 else 0.0)))
      && |lp.bounds| == |eligible|
      && (forall i :: 0 <= i < |eligible| ==>
            lp.bounds[i] == Bound(0.0, eligible[i].maxAllocatable as real))
  {
  }

  /** The construction of `c`, `A_eq`, `b_eq`, `A_ub`, `b_ub` and `bounds`,
      with the nested loops over destinations and carriers. */
  method FormulateProgram(eligible: seq<Candidate>, destinations: seq<string>, requestedTps: real)
    returns (lp: LinearProgram)
    requires |destinations| > 0
    ensures lp == Formulation(eligible, destinations, requestedTps)
  {
    var m := |eligible|;
    var c := Ones(m);
    var aEq := [Ones(m)];
    var bEq := [requestedTps];
    var demandPerDest := requestedTps / |destinations| as real;
    var aUb: seq<seq<real>> := [];
    var bUb: seq<real> := [];
    for j := 0 to |destinations|
      invariant |aUb| == j && |bUb| == j
      invariant forall k :: 0 <= k < j ==> aUb[k] == SupportRow(eligible, destinations[k])
      invariant forall k :: 0 <= k < j ==> bUb[k] == -demandPerDest
    {
      var d := destinations[j];
      var row: seq<real> := [];
      for i := 0 to m
        invariant |row| == i
        invariant forall k :: 0 <= k < i ==> row[k] == (if d in eligible[k].row.countries then -1.0 else 0.0)
      {
        row := row + [if d in eligible[i].row.countries then -1.0 else 0.0];
      }
      assert row == SupportRow(eligible, d);
      aUb := aUb + [row];
      bUb := bUb + [-demandPerDest];
    }
    var bounds := seq(m, i requires 0 <= i < m => Bound(0.0, eligible[i].maxAllocatable as real));
    lp := LinearProgram(c, aUb, bUb, aEq, bEq, bounds);
    assert aUb == seq(|destinations|, j requires 0 <= j < |destinations| => SupportRow(eligible, destinations[j]));
    assert bUb == seq(|destinations|, _ => -demandPerDest);
  }

  // ---------------------------------------------------------------------------
  // What the formulation means

  /** TPS the carriers supporting `d` contribute under `x`. */
  function Supplied(eligible: seq<Candidate>, d: string, x: seq<real>): real
    requires |eligible| == |x|
  {
    if |x| == 0 then 0.0
    else Supplied(eligible[..|x| - 1], d, x[..|x| - 1]) + (if d in eligible[|x| - 1].row.countries then x[|x| - 1] else 0.0)
  }

  /** The allocation problem in its own terms: `x` gives every carrier between
      0 and its capacity, sums to the request, and every listed destination
      receives its even share from carriers that support it. */
  predicate MeetsRequest(eligible: seq<Candidate>, destinations: seq<string>, requestedTps: real, x: seq<real>)
    requires |destinations| > 0
  {
    && |x| == |eligible|
    && Sum(x) == requestedTps
    && (forall j :: 0 <= j < |destinations| ==> Supplied(eligible, destinations[j], x) >= requestedTps / |destinations| as real)
    && (forall i :: 0 <= i < |x| ==> 0.0 <= x[i] <= eligible[i].maxAllocatable as real)
  }

  lemma {:induction false} DotSupportRow(eligible: seq<Candidate>, d: string, x: seq<real>)
    requires |eligible| == |x|
    ensures Dot(SupportRow(eligible, d), x) == -Supplied(eligible, d, x)
  {
    if |x| > 0 {
      var n := |x| - 1;
      assert SupportRow(eligible, d)[..n] == SupportRow(eligible[..n], d);
      DotSupportRow(eligible[..n], d, x[..n]);
    }
  }

  /** A vector is feasible for the formulated program exactly when it meets the
      request. */
  lemma FormulationFeasibleIff(eligible: seq<Candidate>, destinations: seq<string>, requestedTps: real, x: seq<real>)
    requires |destinations| > 0
    ensures Feasible(Formulation(eligible, destinations, requestedTps), x) <==>
            MeetsRequest(eligible, destinations, requestedTps, x)
  {
    var lp := Formulation(eligible, destinations, requestedTps);
    if |x| == |eligible| {
      DotOnes(lp.aEq[0], x);
      forall j | 0 <= j < |destinations|
        ensures Dot(lp.aUb[j], x) == -Supplied(eligible, destinations[j], x)
      {
        DotSupportRow(eligible, destinations[j], x);
      }
    }
  }

  // ---------------------------------------------------------------------------
  // Result shaping

  /** Indices of the positive entries of `x`, in increasing order. */
  function PositiveIndices(x: seq<real>): (p: seq<nat>)
    ensures forall k :: 0 <= k < |p| ==> p[k] < |x| && x[p[k]] > 0.0
    ensures forall k, l :: 0 <= k < l < |p| ==> p[k] < p[l]
    ensures forall i :: 0 <= i < |x| && x[i] > 0.0 ==> i in p
  {
    if |x| == 0 then []
    else PositiveIndices(x[..|x| - 1]) + (if x[|x| - 1] > 0.0 then [|x| - 1] else [])
  }

  /** The `allocations` list built from `result.x`. */
  function Shaped(eligible: seq<Candidate>, x: seq<real>): seq<Allocation>
    requires |eligible| == |x|
  {
    if |x| == 0 then []
    else
      Shaped(eligible[..|x| - 1], x[..|x| - 1])
      + (if x[|x| - 1] > 0.0 then [Allocation(eligible[|x| - 1].row.name, Round2(x[|x| - 1]))] else [])
  }

  /** The allocations are the carriers with a positive share, in filtered
      order, each with its share rounded to hundredths. */
  lemma {:induction false} ShapedFollowsPositiveIndices(eligible: seq<Candidate>, x: seq<real>)
    requires |eligible| == |x|
    ensures var p := PositiveIndices(x);
      && |Shaped(eligible, x)| == |p|
      && forall k :: 0 <= k < |p| ==>
           Shaped(eligible, x)[k] == Allocation(eligible[p[k]].row.name, Round2(x[p[k]]))
  {
    if |x| > 0 {
      var n := |x| - 1;
      ShapedFollowsPositiveIndices(eligible[..n], x[..n]);
      var p := PositiveIndices(x[..n]);
      forall k | 0 <= k < |p|
        ensures eligible[..n][p[k]] == eligible[p[k]] && x[..n][p[k]] == x[p[k]]
      {
      }
    }
  }

  lemma ShapedDistinct(eligible: seq<Candidate>, x: seq<real>)
    requires |eligible| == |x|
    requires DistinctBy(eligible, CandidateName)
    ensures DistinctBy(Shaped(eligible, x), AllocationCarrier)
  {
    ShapedFollowsPositiveIndices(eligible, x);
    var p := PositiveIndices(x);
    var s := Shaped(eligible, x);
    forall k, l | 0 <= k < l < |s| ensures AllocationCarrier(s[k]) != AllocationCarrier(s[l]) {
      assert CandidateName(eligible[p[k]]) != CandidateName(eligible[p[l]]);
    }
  }

  /** The loop over `enumerate(result.x)` that builds `allocations`. */
  method ShapeAllocations(eligible: seq<Candidate>, x: seq<real>) returns (allocations: seq<Allocation>)
    requires |eligible| == |x|
    ensures allocations == Shaped(eligible, x)
    ensures var p := PositiveIndices(x);
      && |allocations| == |p|
      && forall k :: 0 <= k < |p| ==> allocations[k] == Allocation(eligible[p[k]].row.name, Round2(x[p[k]]))
  {
    allocations := [];
    for idx := 0 to |x|
      invariant allocations == Shaped(eligible[..idx], x[..idx])
    {
      assert eligible[..idx + 1][..idx] == eligible[..idx] && x[..idx + 1][..idx] == x[..idx];
      if x[idx] > 0.0 {
        allocations := allocations + [Allocation(eligible[idx].row.name, Round2(x[idx]))];
      }
    }
    assert eligible[..|x|] == eligible && x[..|x|] == x;
    ShapedFollowsPositiveIndices(eligible, x);
  }

  function AllocatedTotal(allocations: seq<Allocation>): real
  {
    if |allocations| == 0 then 0.0
    else AllocatedTotal(allocations[..|allocations| - 1]) + allocations[|allocations| - 1].allocatedTps
  }

  /** The rounded shares of the carriers supporting `d`. */
  function RoundedSupplied(eligible: seq<Candidate>, d: string, x: seq<real>): real
    requires |eligible| == |x|
  {
    if |x| == 0 then 0.0
    else
      RoundedSupplied(eligible[..|x| - 1], d, x[..|x| - 1])
      + (if x[|x| - 1] > 0.0 && d in eligible[|x| - 1].row.countries then Round2(x[|x| - 1]) else 0.0)
  }

  lemma {:induction false} ShapedTotalNear(eligible: seq<Candidate>, x: seq<real>)
    requires |eligible| == |x|
    requires forall i :: 0 <= i < |x| ==> x[i] >= 0.0
    ensures Sum(x) - |x| as real * 0.005 <= AllocatedTotal(Shaped(eligible, x)) <= Sum(x) + |x| as real * 0.005
  {
    if |x| > 0 {
      var n := |x| - 1;
      ShapedTotalNear(eligible[..n], x[..n]);
      var tail := if x[n] > 0.0 then [Allocation(eligible[n].row.name, Round2(x[n]))] else [];
      var s := Shaped(eligible[..n], x[..n]);
      assert AllocatedTotal(s + tail) == AllocatedTotal(s) + AllocatedTotal(tail) by {
        if tail != [] {
          assert (s + tail)[..|s + tail| - 1] == s;
        } else {
          assert s + tail == s;
        }
      }
    }
  }

  lemma {:induction false} RoundedSuppliedNear(eligible: seq<Candidate>, d: string, x: seq<real>)
    requires |eligible| == |x|
    requires forall i :: 0 <= i < |x| ==> x[i] >= 0.0
    ensures Supplied(eligible, d, x) - |x| as real * 0.005 <= RoundedSupplied(eligible, d, x)
  {
    if |x| > 0 {
      RoundedSuppliedNear(eligible[..|x| - 1], d, x[..|x| - 1]);
    }
  }

  /** Conservation and destination minimum for a solved request: the rounded
      allocations add up to the requested TPS, and every destination receives
      at least its even share from carriers that support it, each up to the
      rounding of one hundredth per carrier; no carrier gets more than its
      capacity plus that rounding. */
  lemma AllocationMeetsRequest(eligible: seq<Candidate>, destinations: seq<string>, requestedTps: real, x: seq<real>)
    requires |destinations| > 0
    requires MeetsRequest(eligible, destinations, requestedTps, x)
    ensures var tolerance := |x| as real * 0.005;
      requestedTps - tolerance <= AllocatedTotal(Shaped(eligible, x)) <= requestedTps + tolerance
    ensures forall j :: 0 <= j < |destinations| ==>
      RoundedSupplied(eligible, destinations[j], x) >= requestedTps / |destinations| as real - |x| as real * 0.005
    ensures forall a :: a in Shaped(eligible, x) ==>
      exists i :: 0 <= i < |eligible| && eligible[i].row.name == a.carrier && a.allocatedTps <= eligible[i].maxAllocatable as real + 0.005
  {
    ShapedTotalNear(eligible, x);
    forall j | 0 <= j < |destinations|
      ensures RoundedSupplied(eligible, destinations[j], x) >= requestedTps / |destinations| as real - |x| as real * 0.005
    {
      RoundedSuppliedNear(eligible, destinations[j], x);
    }
    ShapedFollowsPositiveIndices(eligible, x);
    var p := PositiveIndices(x);
    forall a | a in Shaped(eligible, x)
      ensures exists i :: 0 <= i < |eligible| && eligible[i].row.name == a.carrier && a.allocatedTps <= eligible[i].maxAllocatable as real + 0.005
    {
      var k :| 0 <= k < |Shaped(eligible, x)| && Shaped(eligible, x)[k] == a;
      assert a == Allocation(eligible[p[k]].row.name, Round2(x[p[k]]));
    }
  }

  // ---------------------------------------------------------------------------
  // Commit

  /** `SET allocatable_tps = GREATEST(allocatable_tps - allocated, 0)`. The
      allocated amount is written into the statement as a decimal literal, so
      the new value is a DECIMAL, which the INTEGER column stores rounded with
      halves away from zero. GREATEST skips a NULL operand. */
  function Decremented(cell: Cell, amount: real): (after: Cell)
    ensures after.Value? && after.v >= 0
    ensures cell.Null? ==> after == Value(0)
    ensures cell.Value? && cell.v as real >= amount ==>
      after.v as real - 0.5 <= cell.v as real - amount < after.v as real + 0.5
    ensures cell.Value? && cell.v as real <= amount ==> after.v == 0
    ensures cell.Value? && cell.v >= 0 && amount >= 0.0 ==> after.v <= cell.v
    ensures cell.Value? && cell.v >= 0 && 0.0 <= amount <= 0.5 ==> after == cell
  {
    match cell
    case Null => Value(0)
    case Value(v) =>
      var difference := v as real - amount;
      Value(CastDecimalToInteger(if difference > 0.0 then difference else 0.0))
  }

  /** A headroom of 30 less an allocation of 12.34 is stored as 18, and an
      allocation of 0.4 leaves it at 30. */
  lemma DecrementedRounds()
    ensures Decremented(Value(30), 12.34) == Value(18)
    ensures Decremented(Value(30), 0.4) == Value(30)
  {
    assert (18.16).Floor == 18;
  }

  /** One `UPDATE carrier_profile SET ... WHERE carrier_name = carrier`. */
  function ApplyUpdate(rows: seq<CarrierRow>, carrier: string, amount: real): seq<CarrierRow>
  {
    seq(|rows|, i requires 0 <= i < |rows| =>
      if rows[i].name == carrier then rows[i].(allocatable := Decremented(rows[i].allocatable, amount)) else rows[i])
  }

  /** The table after the updates for `allocations`, issued in order. */
  function Committed(rows: seq<CarrierRow>, allocations: seq<Allocation>): seq<CarrierRow>
  {
    if |allocations| == 0 then rows
    else
      var a := allocations[|allocations| - 1];
      ApplyUpdate(Committed(rows, allocations[..|allocations| - 1]), a.carrier, a.allocatedTps)
  }

  predicate NonNegative(cell: Cell)
  {
    cell.Null? || cell.v >= 0
  }

  predicate SameButCapacity(r: CarrierRow, s: CarrierRow)
  {
    r.name == s.name && r.peakStart == s.peakStart && r.peakEnd == s.peakEnd && r.countries == s.countries
  }

  /** The commit touches only `allocatable_tps`: the rows keep their order,
      names, windows and countries, and every capacity stays non-negative. */
  lemma {:induction false} CommitTouchesOnlyCapacity(rows: seq<CarrierRow>, allocations: seq<Allocation>)
    ensures |Committed(rows, allocations)| == |rows|
    ensures forall i :: 0 <= i < |rows| ==> SameButCapacity(Committed(rows, allocations)[i], rows[i])
    ensures (forall i :: 0 <= i < |rows| ==> NonNegative(rows[i].allocatable)) ==>
      forall i :: 0 <= i < |rows| ==> NonNegative(Committed(rows, allocations)[i].allocatable)
  {
    if |allocations| > 0 {
      CommitTouchesOnlyCapacity(rows, allocations[..|allocations| - 1]);
    }
  }

  /** With each carrier named at most once, a named carrier's capacity becomes
      `max(old - allocated, 0)` and every other carrier is unchanged. */
  lemma {:induction false} CommitPerCarrier(rows: seq<CarrierRow>, allocations: seq<Allocation>)
    requires DistinctBy(allocations, AllocationCarrier)
    ensures |Committed(rows, allocations)| == |rows|
    ensures forall i, j :: 0 <= i < |rows| && 0 <= j < |allocations| && allocations[j].carrier == rows[i].name ==>
      Committed(rows, allocations)[i].allocatable == Decremented(rows[i].allocatable, allocations[j].allocatedTps)
    ensures forall i :: 0 <= i < |rows| && (forall j :: 0 <= j < |allocations| ==> allocations[j].carrier != rows[i].name) ==>
      Committed(rows, allocations)[i] == rows[i]
  {
    CommitTouchesOnlyCapacity(rows, allocations);
    if |allocations| > 0 {
      var n := |allocations| - 1;
      var init := allocations[..n];
      assert DistinctBy(init, AllocationCarrier) by {
        forall k, l | 0 <= k < l < |init| ensures AllocationCarrier(init[k]) != AllocationCarrier(init[l]) {
          assert init[k] == allocations[k] && init[l] == allocations[l];
        }
      }
      CommitPerCarrier(rows, init);
      forall i, j | 0 <= i < |rows| && 0 <= j < |allocations| && allocations[j].carrier == rows[i].name
        ensures Committed(rows, allocations)[i].allocatable == Decremented(rows[i].allocatable, allocations[j].allocatedTps)
      {
        if j == n {
          forall k | 0 <= k < |init| ensures init[k].carrier != rows[i].name {
            assert AllocationCarrier(allocations[k]) != AllocationCarrier(allocations[n]);
          }
        } else {
          assert init[j] == allocations[j];
          assert AllocationCarrier(allocations[j]) != AllocationCarrier(allocations[n]);
        }
      }
      forall i | 0 <= i < |rows| && (forall j :: 0 <= j < |allocations| ==> allocations[j].carrier != rows[i].name)
        ensures Committed(rows, allocations)[i] == rows[i]
      {
        assert allocations[n].carrier != rows[i].name;
        forall k | 0 <= k < |init| ensures init[k].carrier != rows[i].name {
          assert init[k] == allocations[k];
        }
      }
    }
  }

  /** The `carrier_profile` table, mutated in place by the commit. */
  class CarrierProfileTable {
    var rows: seq<CarrierRow>

    /** Carrier names are unique (the profile is grouped by carrier) and no
        capacity is negative. */
    ghost predicate Valid()
      reads this
    {
      && DistinctBy(rows, RowName)
      && forall i :: 0 <= i < |rows| ==> NonNegative(rows[i].allocatable)
    }

    constructor (initial: seq<CarrierRow>)
      requires DistinctBy(initial, RowName)
      requires forall i :: 0 <= i < |initial| ==> NonNegative(initial[i].allocatable)
      ensures Valid()
      ensures rows == initial
    {
      rows := initial;
    }

    /** `update_allocatable_tps`: one keyed update per allocation, in order. */
    method UpdateAllocatableTps(allocations: seq<Allocation>)
      requires Valid()
      modifies this
      ensures Valid()
      ensures rows == Committed(old(rows), allocations)
    {
      ghost var before := rows;
      for k := 0 to |allocations|
        invariant rows == Committed(before, allocations[..k])
      {
        assert allocations[..k + 1][..k] == allocations[..k];
        rows := ApplyUpdate(rows, allocations[k].carrier, allocations[k].allocatedTps);
      }
      assert allocations[..|allocations|] == allocations;
      CommitTouchesOnlyCapacity(before, allocations);
      forall i, j | 0 <= i < j < |rows| ensures RowName(rows[i]) != RowName(rows[j]) {
        assert SameButCapacity(rows[i], before[i]) && SameButCapacity(rows[j], before[j]);
        assert RowName(before[i]) != RowName(before[j]);
      }
    }
  }

  // ---------------------------------------------------------------------------
  // The engine

  /** The program the engine hands to the solver for `request`. */
  function Program(rows: seq<CarrierRow>, request: Request): LinearProgram
    requires |Eligible(rows, request)| > 0
  {
    EligibleNeedsDestinations(rows, request);
    Formulation(Eligible(rows, request), request.destinations, request.requestedTps)
  }

  /** `allocate_customer_capacity`. The solver is an oracle argument. */
  method AllocateCustomerCapacity(table: CarrierProfileTable, request: Request, solve: Solver)
    returns (response: Response)
    requires table.Valid()
    modifies table
    ensures table.Valid()
    ensures response.Rejected? ==> table.rows == old(table.rows)
    ensures response != Rejected(NoCarriersForTps)
    ensures response == Rejected(NoCarriersForDestinations) <==>
      |DestinationStage(old(table.rows), request.destinations)| == 0
    ensures response == Rejected(NoCarriersForPeakTimes) <==>
      |DestinationStage(old(table.rows), request.destinations)| > 0 && |Eligible(old(table.rows), request)| == 0
    ensures response == Rejected(CouldNotAllocate) <==>
      |Eligible(old(table.rows), request)| > 0 && solve(Program(old(table.rows), request)).Failed?
    ensures response.Allocated? ==>
      && |request.destinations| > 0
      && |Eligible(old(table.rows), request)| > 0
      && solve(Program(old(table.rows), request)).Solved?
      && var eligible := Eligible(old(table.rows), request);
         var x := solve(Program(old(table.rows), request)).x;
         && MeetsRequest(eligible, request.destinations, request.requestedTps, x)
         && response.allocations == Shaped(eligible, x)
         && DistinctBy(response.allocations, AllocationCarrier)
         && response.totalRequestedTps == Truncate(request.requestedTps)
         && response.totalAllocatedTps == Round2(request.requestedTps)
         && table.rows == Committed(old(table.rows), response.allocations)
  {
    var snapshot := table.rows;
    var matching := DestinationStage(snapshot, request.destinations);
    if |matching| == 0 {
      return Rejected(NoCarriersForDestinations);
    }
    var candidates := CapacityStage(matching);
    CapacityStageKeepsEveryCarrier(matching);
    if |candidates| == 0 {
      assert false;
    }
    var eligible := PeakStage(candidates, RequestWindow(request));
    if |eligible| == 0 {
      return Rejected(NoCarriersForPeakTimes);
    }
    EligibleNeedsDestinations(snapshot, request);
    var lp := FormulateProgram(eligible, request.destinations, request.requestedTps);
    var outcome := solve(lp);
    if outcome.Failed? {
      return Rejected(CouldNotAllocate);
    }
    FormulationFeasibleIff(eligible, request.destinations, request.requestedTps, outcome.x);
    var allocations := ShapeAllocations(eligible, outcome.x);
    EligibleDistinct(snapshot, request);
    ShapedDistinct(eligible, outcome.x);
    table.UpdateAllocatableTps(allocations);
    response := Allocated(Truncate(request.requestedTps), Round2(Sum(outcome.x)), allocations);
  }
}
