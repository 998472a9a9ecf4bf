/** Per-route request metrics with a running average that truncates on every update. */
module Metrics {
  import opened Prelude

  datatype RouteMetric = RouteMetric(
    requests: int, errors: int, avgLatencyMs: int, lastStatus: int, lastLatencyMs: int, lastRequestID: string)

  const ZERO := RouteMetric(0, 0, 0, 0, 0, "")

  datatype Sample = Sample(requestID: string, status: int, latencyMs: int)

  /** Go's integer division: it truncates toward zero. */
  function Quot(a: int, b: int): int
    requires b > 0
  {
    if a >= 0 then a / b else -((-a) / b)
  }

  function Recorded(m: RouteMetric, s: Sample): RouteMetric
    requires m.requests >= 0
  {
    var n := m.requests + 1;
    RouteMetric(
      n,
      if s.status >= 400 then m.errors + 1 else m.errors,
      if n == 1 then s.latencyMs else Quot(m.avgLatencyMs * (n - 1) + s.latencyMs, n),
      s.status, s.latencyMs, s.requestID)
  }

  function MetricOf(routes: map<string, RouteMetric>, route: string): RouteMetric {
    if route in routes then routes[route] else ZERO
  }

  class CMSMetrics {
    var routes: map<string, RouteMetric>

    ghost predicate Valid()
      reads this
    {
      forall route :: route in routes ==> routes[route].requests >= 1
    }

    constructor ()
      ensures Valid() && routes == map[]
    {
      routes := map[];
    }

    /** `latency` in nanoseconds. */
    method Record(route: string, requestID: string, status: int, latency: Time)
      requires Valid()
      modifies this
      ensures Valid()
      ensures routes == old(routes)[
                        route := Recorded(MetricOf(old(routes), route), Sample(requestID, status, Quot(latency, 1_000_000)))]
      ensures forall other :: other != route ==> (other in routes <==> other in old(routes))
                                                 && (other in routes ==> routes[other] == old(routes)[other])
      ensures route in routes && routes[route].lastStatus == status && routes[route].lastRequestID == requestID
      ensures latency >= 0 ==> routes[route].lastLatencyMs == latency / 1_000_000
      ensures latency < 0 ==> routes[route].lastLatencyMs == -(-latency / 1_000_000)
    {
      var metric := if route in routes then routes[route] else ZERO;
      metric := metric.(requests := metric.requests + 1);
      if status >= 400 {
        metric := metric.(errors := metric.errors + 1);
      }
      var latencyMs := Quot(latency, 1_000_000);
      metric := metric.(lastStatus := status, lastLatencyMs := latencyMs, lastRequestID := requestID);
      if metric.requests == 1 {
        metric := metric.(avgLatencyMs := latencyMs);
      } else {
        metric := metric.(avgLatencyMs := Quot(metric.avgLatencyMs * (metric.requests - 1) + latencyMs, metric.requests));
      }
      routes := routes[route := metric];
    }

    method Snapshot() returns (out: map<string, RouteMetric>)
      ensures out == routes
    {
      out := map[];
      var todo := routes.Keys;
      while todo != {}
        invariant todo <= routes.Keys && out.Keys == routes.Keys - todo
        invariant forall k :: k in out ==> out[k] == routes[k]
      {
        var k :| k in todo;
        todo := todo - {k};
        out := out[k := routes[k]];
      }
    }
  }

  // ---------------------------------------------------------------- one route, many samples

  /** The metric after recording `samples` in turn. */
  function Replay(samples: seq<Sample>): (m: RouteMetric)
    ensures m.requests == |samples|
  {
    if samples == [] then ZERO else Recorded(Replay(samples[..|samples| - 1]), samples[|samples| - 1])
  }

  function Total(samples: seq<Sample>): int {
    if samples == [] then 0 else Total(samples[..|samples| - 1]) + samples[|samples| - 1].latencyMs
  }

  function ErrorCount(samples: seq<Sample>): nat {
    if samples == [] then 0
    else ErrorCount(samples[..|samples| - 1]) + if samples[|samples| - 1].status >= 400 then 1 else 0
  }

  /** n(n-1)/2. */
  function Triangle(n: nat): nat {
    if n == 0 then 0 else Triangle(n - 1) + n - 1
  }

  lemma {:induction false} TriangleClosed(n: nat)
    ensures 2 * Triangle(n) == n * (n - 1)
  {
    if n > 0 {
      TriangleClosed(n - 1);
      assert n * (n - 1) == (n - 1) * (n - 2) + 2 * (n - 1);
    }
  }

  lemma QuotBounds(a: nat, n: nat)
    requires n > 0
    ensures a - (n - 1) <= n * Quot(a, n) <= a
    ensures Quot(a, n) >= 0
  {
  }

  /** One update: n times the new average is the old total plus the latency, less at most n-1. */
  lemma UpdateLoses(m: RouteMetric, s: Sample)
    requires m.requests >= 0 && m.avgLatencyMs >= 0 && s.latencyMs >= 0
    ensures var (n, sum) := (m.requests + 1, m.requests * m.avgLatencyMs + s.latencyMs);
            && sum - (n - 1) <= n * Recorded(m, s).avgLatencyMs <= sum
            && Recorded(m, s).avgLatencyMs >= 0
  {
    var n := m.requests + 1;
    MulBetween(0, 0, m.requests, m.avgLatencyMs);
    assert m.avgLatencyMs * (n - 1) == m.requests * m.avgLatencyMs;
    QuotBounds(m.requests * m.avgLatencyMs + s.latencyMs, n);
  }

  /**
   The truncation error: after n latencies with sum S, n times the average lies between
   S - n(n-1)/2 and S, and it is never negative. Doubled, to stay with whole numbers.
   */
  lemma {:induction false} AverageDrift(samples: seq<Sample>)
    requires forall i :: 0 <= i < |samples| ==> samples[i].latencyMs >= 0
    ensures var (n, avg) := (|samples|, Replay(samples).avgLatencyMs);
            2 * Total(samples) - n * (n - 1) <= 2 * (n * avg) <= 2 * Total(samples) && avg >= 0
  {
    TriangleClosed(|samples|);
    hide Replay, Total, Triangle;
    DriftInTriangles(samples);
  }

  lemma {:induction false} DriftInTriangles(samples: seq<Sample>)
    requires forall i :: 0 <= i < |samples| ==> samples[i].latencyMs >= 0
    ensures var (n, avg) := (|samples|, Replay(samples).avgLatencyMs);
            Total(samples) - Triangle(n) <= n * avg <= Total(samples) && avg >= 0
    decreases |samples|
  {
    hide Recorded;
    if samples != [] {
      DriftInTriangles(samples[..|samples| - 1]);
      UpdateLoses(Replay(samples[..|samples| - 1]), samples[|samples| - 1]);
    }
  }

  /** The lower bound is met by the latencies 0, 1, 2, ...: their average stays at zero. */
  lemma {:induction false} DriftIsTight(samples: seq<Sample>)
    requires forall i :: 0 <= i < |samples| ==> samples[i].latencyMs == i
    ensures Replay(samples).avgLatencyMs == 0
    ensures 2 * Total(samples) - |samples| * (|samples| - 1) == 2 * (|samples| * Replay(samples).avgLatencyMs)
  {
    TriangleClosed(|samples|);
    hide Replay, Total, Triangle;
    ZeroAverage(samples);
  }

  lemma {:induction false} ZeroAverage(samples: seq<Sample>)
    requires forall i :: 0 <= i < |samples| ==> samples[i].latencyMs == i
    ensures Replay(samples).avgLatencyMs == 0 && Total(samples) == Triangle(|samples|)
    decreases |samples|
  {
    if samples != [] {
      var n := |samples|;
      ZeroAverage(samples[..n - 1]);
      QuotBounds(n - 1, n);
      assert Quot(n - 1, n) == 0 by { SmallQuotient(n - 1, n); }
    }
  }

  lemma SmallQuotient(a: nat, n: nat)
    requires a < n
    ensures a / n == 0
  {
  }

  /** The average never leaves the range of the observed latencies. */
  lemma {:induction false} AverageWithinRange(samples: seq<Sample>, lo: nat, hi: int)
    requires samples != []
    requires forall i :: 0 <= i < |samples| ==> lo <= samples[i].latencyMs <= hi
    ensures lo <= Replay(samples).avgLatencyMs <= hi
    decreases |samples|
  {
    var n := |samples|;
    if n > 1 {
      var front := samples[..n - 1];
      AverageWithinRange(front, lo, hi);
      var avg, last := Replay(front).avgLatencyMs, samples[n - 1].latencyMs;
      WeightedMean(avg, last, n, lo, hi);
    }
  }

  lemma WeightedMean(avg: int, last: int, n: int, lo: nat, hi: int)
    requires n > 1 && lo <= avg <= hi && lo <= last <= hi
    ensures lo <= Quot(avg * (n - 1) + last, n) <= hi
    ensures 0 <= avg * (n - 1) + last <= hi * n
  {
    MulBetween(lo, avg, hi, n - 1);
    var sum := avg * (n - 1) + last;
    assert lo * n == lo * (n - 1) + lo && hi * n == hi * (n - 1) + hi;
    QuotBetween(lo, sum, hi, n);
  }

  lemma MulBetween(lo: nat, x: int, hi: int, n: nat)
    requires lo <= x <= hi
    ensures 0 <= lo * n <= x * n <= hi * n
  {
  }

  lemma QuotBetween(lo: nat, sum: int, hi: int, n: int)
    requires n > 0 && 0 <= lo * n <= sum <= hi * n
    ensures lo <= Quot(sum, n) <= hi
  {
    var q := Quot(sum, n);
    QuotBounds(sum, n);
    if q < lo { MulBetween(0, q + 1, lo, n); }
    if hi < q { MulBetween(0, hi + 1, q, n); }
  }

  /** The intermediate product fits in 64 bits as long as count times largest latency does. */
  lemma NoOverflow(samples: seq<Sample>, next: Sample, hi: int)
    requires samples != []
    requires forall i :: 0 <= i < |samples| ==> 0 <= samples[i].latencyMs <= hi
    requires 0 <= next.latencyMs <= hi && (|samples| + 1) * hi < 0x8000_0000_0000_0000
    ensures 0 <= Replay(samples).avgLatencyMs * |samples| + next.latencyMs < 0x8000_0000_0000_0000
  {
    var n, avg := |samples|, Replay(samples).avgLatencyMs;
    AverageWithinRange(samples, 0, hi);
    hide Replay;
    MulBetween(0, avg, hi, n);
    assert (n + 1) * hi == hi * n + hi;
  }

  /** The counters: every request, every status of 400 or more, and the latest request. */
  lemma {:induction false} CountersAreExact(samples: seq<Sample>)
    ensures Replay(samples).errors == ErrorCount(samples)
    ensures samples != [] ==>
              var (m, last) := (Replay(samples), samples[|samples| - 1]);
              m.lastStatus == last.status && m.lastLatencyMs == last.latencyMs && m.lastRequestID == last.requestID
    decreases |samples|
  {
    if samples != [] { CountersAreExact(samples[..|samples| - 1]); }
  }

  // ---------------------------------------------------------------- many routes

  datatype Call = Call(route: string, sample: Sample)

  function Routes(calls: seq<Call>): (routes: map<string, RouteMetric>)
    ensures forall r :: r in routes ==> routes[r].requests >= 1
  {
    if calls == [] then map[]
    else
      var (before, c) := (Routes(calls[..|calls| - 1]), calls[|calls| - 1]);
      before[c.route := Recorded(MetricOf(before, c.route), c.sample)]
  }

  function SamplesOf(calls: seq<Call>, route: string): seq<Sample> {
    if calls == [] then []
    else
      var (before, c) := (SamplesOf(calls[..|calls| - 1], route), calls[|calls| - 1]);
      if c.route == route then before + [c.sample] else before
  }

  /** Each route's metric depends on its own calls alone. */
  lemma {:induction false} RoutesAreIndependent(calls: seq<Call>, route: string)
    ensures MetricOf(Routes(calls), route) == Replay(SamplesOf(calls, route))
    ensures route in Routes(calls) <==> SamplesOf(calls, route) != []
    decreases |calls|
  {
    if calls != [] {
      var front, c := calls[..|calls| - 1], calls[|calls| - 1];
      RoutesAreIndependent(front, route);
      var before := SamplesOf(front, route);
      assert (before + [c.sample])[..|before|] == before;
    }
  }
}
