/**
 * The history window behind the charts: the state updater that both
 * dashboards pass to `setHistoricalData` when a sample arrives, and the
 * filter the demo dashboard applies when the operator narrows the view to
 * one sensor.
 */
module History {
  import opened Telemetry

  /** The window keeps at most this many samples. */
  const Capacity: nat := 10

  /** The last `min(n, |s|)` elements of `s`, in their order. */
  function LastN<T>(s: seq<T>, n: nat): (r: seq<T>)
    ensures |r| == if |s| <= n then |s| else n
    ensures r == s[|s| - |r|..]
  {
    if |s| <= n then s else s[|s| - n..]
  }

  /** `[...prev, x]`, cut back with `slice(length - 10)` when it grew past the capacity. */
  function AppendCapped<T>(window: seq<T>, x: T): (r: seq<T>)
    ensures |r| == if |window| < Capacity then |window| + 1 else Capacity
    ensures r[|r| - 1] == x
    ensures r[..|r| - 1] == window[|window| - (|r| - 1)..]
    ensures |window| < Capacity ==> r == window + [x]
  {
    var grown := window + [x];
    if |grown| > Capacity then
      var r := grown[|grown| - Capacity..];
      assert r[..|r| - 1] == window[|window| - (Capacity - 1)..];
      r
    else
      assert grown[..|grown| - 1] == window;
      grown
  }

  /** The window after a run of arrivals, oldest arrival first. */
  function AppendAll<T>(window: seq<T>, xs: seq<T>): seq<T>
    decreases |xs|
  {
    if xs == [] then window else AppendAll(AppendCapped(window, xs[0]), xs[1..])
  }

  lemma LastNOfLastN<T>(a: seq<T>, b: seq<T>, n: nat)
    ensures LastN(LastN(a, n) + b, n) == LastN(a + b, n)
  {
    if |a| > n {
      var ab := a + b;
      var tail := a[|a| - n..] + b;
      assert LastN(a, n) == a[|a| - n..];
      assert |tail| == n + |b| && |ab| == |a| + |b|;
      assert LastN(tail, n) == tail[|b|..];
      assert LastN(ab, n) == ab[|a| - n + |b|..];
      assert tail[|b|..] == ab[|a| - n + |b|..] by {
        forall i | 0 <= i < n
          ensures tail[|b|..][i] == ab[|a| - n + |b|..][i]
        {
          if i + |b| < n {
            assert tail[i + |b|] == a[|a| - n + i + |b|];
          } else {
            assert tail[i + |b|] == b[i + |b| - n];
          }
        }
      }
    }
  }

  /** One arrival keeps the newest `Capacity` of the old window followed by the new sample. */
  lemma AppendCappedIsLastN<T>(window: seq<T>, x: T)
    ensures AppendCapped(window, x) == LastN(window + [x], Capacity)
  {
  }

  /** The first of a run of arrivals lands on the window as `AppendCapped` says. */
  lemma FirstArrival<T>(window: seq<T>, xs: seq<T>)
    requires xs != []
    ensures AppendAll(window, xs) == AppendAll(LastN(window + [xs[0]], Capacity), xs[1..])
  {
    AppendCappedIsLastN(window, xs[0]);
  }

  /** Cutting back after the first arrival does not change the newest `Capacity` of the whole run. */
  lemma CutThenRest<T>(window: seq<T>, xs: seq<T>)
    requires xs != []
    ensures LastN(LastN(window + [xs[0]], Capacity) + xs[1..], Capacity) == LastN(window + xs, Capacity)
  {
    LastNOfLastN(window + [xs[0]], xs[1..], Capacity);
    assert window + [xs[0]] + xs[1..] == window + xs;
  }

  /**
   * However many samples arrive, the window holds exactly the newest
   * `Capacity` of everything it has seen (all of it while that is fewer),
   * newest last: eviction is oldest first.
   */
  lemma {:induction false} AppendAllKeepsNewest<T>(window: seq<T>, xs: seq<T>)
    requires |window| <= Capacity
    ensures AppendAll(window, xs) == LastN(window + xs, Capacity)
    decreases |xs|
  {
    if xs == [] {
      assert window + xs == window;
    } else {
      FirstArrival(window, xs);
      AppendAllKeepsNewest(LastN(window + [xs[0]], Capacity), xs[1..]);
      CutThenRest(window, xs);
    }
  }

  /** Starting from an empty window, a run of arrivals leaves the newest `Capacity` of them. */
  lemma FromEmpty<T>(xs: seq<T>)
    ensures AppendAll([], xs) == LastN(xs, Capacity)
  {
    var empty: seq<T> := [];
    AppendAllKeepsNewest(empty, xs);
    assert empty + xs == xs;
  }

  /** Eleven arrivals into an empty window leave the last ten of them. */
  lemma ElevenArrivals<T>(xs: seq<T>)
    requires |xs| == Capacity + 1
    ensures AppendAll([], xs) == xs[1..]
  {
    FromEmpty(xs);
  }

  /** `prevData.filter((data) => data.sensor_id === sensorId)`. */
  function FilterBySensor(h: seq<Sample>, sensorId: string): (r: seq<Sample>)
    ensures |r| <= |h|
    ensures forall i :: 0 <= i < |r| ==> r[i].sensorId == sensorId
    ensures forall s :: multiset(r)[s] == if s.sensorId == sensorId then multiset(h)[s] else 0
    decreases |h|
  {
    if h == [] then []
    else
      assert h == [h[0]] + h[1..];
      (if h[0].sensorId == sensorId then [h[0]] else []) + FilterBySensor(h[1..], sensorId)
  }

  /** `a` is `b` with some elements left out, the rest in their order. */
  predicate IsSubsequence<T(==)>(a: seq<T>, b: seq<T>)
    decreases |b|
  {
    if a == [] then true
    else if b == [] then false
    else if a[0] == b[0] then IsSubsequence(a[1..], b[1..])
    else IsSubsequence(a, b[1..])
  }

  /** The filter keeps the order of the entries it keeps. */
  lemma {:induction false} FilterIsSubsequence(h: seq<Sample>, sensorId: string)
    ensures IsSubsequence(FilterBySensor(h, sensorId), h)
    decreases |h|
  {
    if h != [] {
      FilterIsSubsequence(h[1..], sensorId);
      var rest := FilterBySensor(h[1..], sensorId);
      if h[0].sensorId == sensorId {
        assert FilterBySensor(h, sensorId) == [h[0]] + rest;
        assert ([h[0]] + rest)[1..] == rest;
      } else {
        assert FilterBySensor(h, sensorId) == rest;
        // A kept entry matches the sensor and h[0] does not, so h[0] is skipped.
        assert rest != [] ==> rest[0] != h[0];
      }
    }
  }

  /** Narrowing to a sensor twice is narrowing once. */
  lemma {:induction false} FilterIdempotent(h: seq<Sample>, sensorId: string)
    ensures FilterBySensor(FilterBySensor(h, sensorId), sensorId) == FilterBySensor(h, sensorId)
    decreases |h|
  {
    if h != [] {
      FilterIdempotent(h[1..], sensorId);
      var rest := FilterBySensor(h[1..], sensorId);
      if h[0].sensorId == sensorId {
        var r := [h[0]] + rest;
        assert FilterBySensor(h, sensorId) == r;
        assert r[0] == h[0] && r[1..] == rest;
        assert FilterBySensor(r, sensorId) == [h[0]] + FilterBySensor(rest, sensorId);
      } else {
        assert FilterBySensor(h, sensorId) == rest;
      }
    }
  }
}
