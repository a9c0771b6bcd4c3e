// The optimisation strategies of the realistic two-week location analysis:
// stationary-point filtering, reduced precision, minimal fields and their
// combination, and the table of tracking scenarios.

module LocationAnalysis {
  import opened Common

  // ---------------------------------------------------------------------------
  // The scenario table

  datatype Scenario = Scenario(name: string, hours: nat, frequencyMinutes: nat, dailyPoints: nat, totalPoints: nat)

  const StudyDays: nat := 14
  const MinutesPerDay: nat := 24 * 60

  const Scenarios: seq<Scenario> := [
    Scenario("Conservative Research (30 min intervals)", 14 * 24, 30, 48, 48 * 14),
    Scenario("Standard Research (15 min intervals)", 14 * 24, 15, 96, 96 * 14),
    Scenario("Detailed Research (10 min intervals)", 14 * 24, 10, 144, 144 * 14),
    Scenario("High-Resolution Research (5 min intervals)", 14 * 24, 5, 288, 288 * 14),
    Scenario("Intensive Research (2 min intervals)", 14 * 24, 2, 720, 720 * 14),
    Scenario("Continuous Research (1 min intervals)", 14 * 24, 1, 1440, 1440 * 14)]

  /**
   * Every scenario covers two weeks, samples a whole day exactly at its
   * frequency, and its total is fourteen days of its daily points.
   */
  lemma ScenarioArithmetic()
    ensures forall i :: 0 <= i < |Scenarios| ==>
      var s := Scenarios[i];
      s.hours == StudyDays * 24
      && s.totalPoints == s.dailyPoints * StudyDays
      && s.dailyPoints * s.frequencyMinutes == MinutesPerDay
      && s.totalPoints * s.frequencyMinutes == s.hours * 60
  {
    forall i | 0 <= i < |Scenarios|
      ensures Scenarios[i].dailyPoints * Scenarios[i].frequencyMinutes == MinutesPerDay
    {
      assert MinutesPerDay == 1440;
    }
  }

  // ---------------------------------------------------------------------------
  // Location points

  /** A generated location point; every field the generator writes. */
  datatype Point = Point(
    timestamp: string, latitude: real, longitude: real, accuracy: real,
    altitude: real, speed: real, heading: real, activity: string)

  /** A point of the minimal-field strategies. */
  datatype MinimalPoint = MinimalPoint(timestamp: string, latitude: real, longitude: real, accuracy: real)

  /** Python's `round(x, digits)` on floats, which this model does not compute. */
  datatype Rounding = Rounding(round: (real, nat) -> real)

  const MovementThreshold: real := 0.0001

  function Abs(r: real): real {
    if r < 0.0 then -r else r
  }

  /** A point moved away from a reference when either coordinate changed by more than the threshold. */
  predicate Moved(reference: Point, p: Point) {
    Abs(p.latitude - reference.latitude) > MovementThreshold
    || Abs(p.longitude - reference.longitude) > MovementThreshold
  }

  // ---------------------------------------------------------------------------
  // Stationary filtering

  /** The points of `rest` kept after `reference`, each compared with the last point kept. */
  function Kept(reference: Point, rest: seq<Point>): seq<Point>
    decreases |rest|
  {
    if rest == [] then []
    else if Moved(reference, rest[0]) then [rest[0]] + Kept(rest[0], rest[1..])
    else Kept(reference, rest[1..])
  }

  /** The stationary filter: the first point, then every point that moved away from the last point kept. */
  function Filtered(locations: seq<Point>): (kept: seq<Point>)
    requires locations != []
    ensures kept != [] && kept[0] == locations[0]
  {
    [locations[0]] + Kept(locations[0], locations[1..])
  }

  /** The point the next one is compared with: the last one kept, or the reference when none was. */
  function LastOf(reference: Point, kept: seq<Point>): Point {
    if kept == [] then reference else kept[|kept| - 1]
  }

  /** `xs` is `ys` with some elements left out, the rest in their order. */
  predicate Subsequence<T(==)>(xs: seq<T>, ys: seq<T>)
    decreases |ys|
  {
    if xs == [] then true
    else if ys == [] then false
    else (xs[0] == ys[0] && Subsequence(xs[1..], ys[1..])) || Subsequence(xs, ys[1..])
  }

  /** Each kept point moved away from the one kept before it. */
  predicate ChainMoves(reference: Point, kept: seq<Point>) {
    (kept != [] ==> Moved(reference, kept[0]))
    && forall k :: 0 < k < |kept| ==> Moved(kept[k - 1], kept[k])
  }

  lemma {:induction false} KeptSubsequence(reference: Point, rest: seq<Point>)
    ensures Subsequence(Kept(reference, rest), rest)
    decreases |rest|
  {
    if rest != [] {
      KeptSubsequence(reference, rest[1..]);
      KeptSubsequence(rest[0], rest[1..]);
      var k := Kept(reference, rest);
      if Moved(reference, rest[0]) {
        assert k[0] == rest[0] && k[1..] == Kept(rest[0], rest[1..]);
      } else {
        if k != [] {
          assert Subsequence(k, rest[1..]);
        }
      }
    }
  }

  /** The filter's output is a subsequence of its input that starts with the first point. */
  lemma FilteredSubsequence(locations: seq<Point>)
    requires locations != []
    ensures Subsequence(Filtered(locations), locations) && Filtered(locations)[0] == locations[0]
  {
    var f := Filtered(locations);
    KeptSubsequence(locations[0], locations[1..]);
    assert f[1..] == Kept(locations[0], locations[1..]);
  }

  lemma {:induction false} KeptChainMoves(reference: Point, rest: seq<Point>)
    ensures ChainMoves(reference, Kept(reference, rest))
    decreases |rest|
  {
    if rest != [] {
      KeptChainMoves(reference, rest[1..]);
      KeptChainMoves(rest[0], rest[1..]);
      var k := Kept(reference, rest);
      if Moved(reference, rest[0]) {
        var tail := Kept(rest[0], rest[1..]);
        assert k == [rest[0]] + tail;
        forall j | 0 < j < |k|
          ensures Moved(k[j - 1], k[j])
        {
          if j > 1 {
            assert k[j - 1] == tail[j - 2] && k[j] == tail[j - 1];
          }
        }
      }
    }
  }

  /** Every point the filter keeps after the first moved away from the point kept before it. */
  lemma FilteredMoves(locations: seq<Point>)
    requires locations != []
    ensures forall k :: 0 < k < |Filtered(locations)| ==> Moved(Filtered(locations)[k - 1], Filtered(locations)[k])
  {
    var f := Filtered(locations);
    var tail := Kept(locations[0], locations[1..]);
    KeptChainMoves(locations[0], locations[1..]);
    assert f == [locations[0]] + tail;
    forall k | 0 < k < |f|
      ensures Moved(f[k - 1], f[k])
    {
      if k > 1 {
        assert f[k - 1] == tail[k - 2] && f[k] == tail[k - 1];
      }
    }
  }

  /**
   * Adding one point at the end: it is kept exactly when it moved away from the
   * last point kept so far; a dropped point does not move the reference.
   */
  lemma {:induction false} KeptAppend(reference: Point, rest: seq<Point>, p: Point)
    ensures Kept(reference, rest + [p])
      == Kept(reference, rest) + (if Moved(LastOf(reference, Kept(reference, rest)), p) then [p] else [])
    decreases |rest|
  {
    if rest == [] {
      assert [p][1..] == [];
    } else {
      assert (rest + [p])[0] == rest[0] && (rest + [p])[1..] == rest[1..] + [p];
      if Moved(reference, rest[0]) {
        KeptAppend(rest[0], rest[1..], p);
        var tail := Kept(rest[0], rest[1..]);
        assert LastOf(reference, [rest[0]] + tail) == LastOf(rest[0], tail);
      } else {
        KeptAppend(reference, rest[1..], p);
      }
    }
  }

  /**
   * The filter one point at a time: the next point is appended exactly when it
   * moved away from the last point kept so far.
   */
  lemma FilteredExtend(locations: seq<Point>, p: Point)
    requires locations != []
    ensures Filtered(locations + [p])
      == Filtered(locations) + (if Moved(Filtered(locations)[|Filtered(locations)| - 1], p) then [p] else [])
  {
    var first := locations[0];
    assert (locations + [p])[0] == first && (locations + [p])[1..] == locations[1..] + [p];
    KeptAppend(first, locations[1..], p);
    var tail := Kept(first, locations[1..]);
    assert LastOf(first, tail) == Filtered(locations)[|Filtered(locations)| - 1];
  }

  /**
   * The stationary filter of `analyze_optimization_strategies`; indexing the first
   * point of an empty list raises.
   */
  method FilterStationary(locations: seq<Point>) returns (r: Outcome<seq<Point>>)
    ensures locations == [] <==> r.Err?
    ensures r.Ok? ==> r.value == Filtered(locations)
  {
    if locations == [] {
      return Err("IndexError: list index out of range");
    }
    var filtered := [locations[0]];
    var lastLat := locations[0].latitude;
    var lastLng := locations[0].longitude;
    for i := 1 to |locations|
      invariant filtered == Filtered(locations[..i])
      invariant lastLat == filtered[|filtered| - 1].latitude && lastLng == filtered[|filtered| - 1].longitude
    {
      var loc := locations[i];
      FilteredExtend(locations[..i], loc);
      assert locations[..i + 1] == locations[..i] + [loc];
      if Abs(loc.latitude - lastLat) > MovementThreshold || Abs(loc.longitude - lastLng) > MovementThreshold {
        filtered := filtered + [loc];
        lastLat := loc.latitude;
        lastLng := loc.longitude;
      }
    }
    assert locations[..|locations|] == locations;
    r := Ok(filtered);
  }

  // ---------------------------------------------------------------------------
  // Reduced precision and minimal fields

  /** A point with coordinates to four places and the other measurements rounded, as the reduced-precision strategy writes it. */
  function Reduced(rounding: Rounding, p: Point): Point {
    p.(latitude := rounding.round(p.latitude, 4), longitude := rounding.round(p.longitude, 4),
       accuracy := rounding.round(p.accuracy, 1), altitude := rounding.round(p.altitude, 0),
       speed := rounding.round(p.speed, 1), heading := rounding.round(p.heading, 0))
  }

  /** The minimal record of a point: its time stamp, coordinates to four places and accuracy to one. */
  function Minimal(rounding: Rounding, p: Point): MinimalPoint {
    MinimalPoint(p.timestamp, rounding.round(p.latitude, 4), rounding.round(p.longitude, 4), rounding.round(p.accuracy, 1))
  }

  /** The reduced-precision strategy: one rounded copy per point, in order, keeping time stamp and activity. */
  method ReducePrecision(rounding: Rounding, locations: seq<Point>) returns (reduced: seq<Point>)
    ensures |reduced| == |locations|
    ensures forall k :: 0 <= k < |locations| ==> reduced[k] == Reduced(rounding, locations[k])
  {
    reduced := [];
    for i := 0 to |locations|
      invariant |reduced| == i
      invariant forall k :: 0 <= k < i ==> reduced[k] == Reduced(rounding, locations[k])
    {
      var loc := locations[i];
      reduced := reduced + [loc.(latitude := rounding.round(loc.latitude, 4), longitude := rounding.round(loc.longitude, 4),
                                 accuracy := rounding.round(loc.accuracy, 1), altitude := rounding.round(loc.altitude, 0),
                                 speed := rounding.round(loc.speed, 1), heading := rounding.round(loc.heading, 0))];
    }
  }

  /** The minimal-fields strategy, and the loop of the combined one: one minimal record per point, in order. */
  method MinimalRecords(rounding: Rounding, locations: seq<Point>) returns (minimal: seq<MinimalPoint>)
    ensures |minimal| == |locations|
    ensures forall k :: 0 <= k < |locations| ==> minimal[k] == Minimal(rounding, locations[k])
  {
    minimal := [];
    for i := 0 to |locations|
      invariant |minimal| == i
      invariant forall k :: 0 <= k < i ==> minimal[k] == Minimal(rounding, locations[k])
    {
      var loc := locations[i];
      minimal := minimal + [MinimalPoint(loc.timestamp, rounding.round(loc.latitude, 4),
                                         rounding.round(loc.longitude, 4), rounding.round(loc.accuracy, 1))];
    }
  }

  /** Rounding keeps every time stamp and activity, so the strategies keep the order of the track. */
  lemma RoundingKeepsTimes(rounding: Rounding, p: Point)
    ensures Reduced(rounding, p).timestamp == p.timestamp && Reduced(rounding, p).activity == p.activity
    ensures Minimal(rounding, p).timestamp == p.timestamp
  {
  }

  datatype Strategies = Strategies(
    reducedPrecision: seq<Point>, minimalFields: seq<MinimalPoint>,
    stationaryFiltering: seq<Point>, combinedOptimization: seq<MinimalPoint>)

  /**
   * `analyze_optimization_strategies`: the four strategies of a track. An empty
   * track raises at the stationary filter.
   */
  method AnalyzeOptimizationStrategies(rounding: Rounding, locations: seq<Point>) returns (r: Outcome<Strategies>)
    ensures locations == [] <==> r.Err?
    ensures r.Ok? ==>
      var s := r.value;
      |s.reducedPrecision| == |locations| && |s.minimalFields| == |locations|
      && (forall k :: 0 <= k < |locations| ==>
            s.reducedPrecision[k] == Reduced(rounding, locations[k]) && s.minimalFields[k] == Minimal(rounding, locations[k]))
      && s.stationaryFiltering == Filtered(locations)
      && |s.combinedOptimization| == |s.stationaryFiltering|
      && (forall k :: 0 <= k < |s.stationaryFiltering| ==>
            s.combinedOptimization[k] == Minimal(rounding, s.stationaryFiltering[k]))
  {
    var reduced := ReducePrecision(rounding, locations);
    var minimal := MinimalRecords(rounding, locations);
    var filtered := FilterStationary(locations);
    if filtered.Err? {
      return Err(filtered.msg);
    }
    var combined := MinimalRecords(rounding, filtered.value);
    r := Ok(Strategies(reduced, minimal, filtered.value, combined));
  }

  /** Filtering never adds points, so the combined strategy has at most as many records as the minimal one. */
  lemma {:induction false} SubsequenceShorter<T>(xs: seq<T>, ys: seq<T>)
    requires Subsequence(xs, ys)
    ensures |xs| <= |ys|
    decreases |ys|
  {
    if xs != [] {
      if xs[0] == ys[0] && Subsequence(xs[1..], ys[1..]) {
        SubsequenceShorter(xs[1..], ys[1..]);
      } else {
        SubsequenceShorter(xs, ys[1..]);
      }
    }
  }

  lemma CombinedAtMostMinimal(locations: seq<Point>)
    requires locations != []
    ensures 1 <= |Filtered(locations)| <= |locations|
  {
    FilteredSubsequence(locations);
    SubsequenceShorter(Filtered(locations), locations);
  }
}
