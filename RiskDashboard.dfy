/**
  The state and chart data of components/RiskDashboard.tsx: each refresh
  replaces the current metrics with a fresh risk calculation and appends the
  new total to a history that keeps only its last ten points; the bar and
  pie charts show the weighted terms of the risk formula.
  The wall-clock label of each history point (toLocaleTimeString) is the
  `time` parameter of RefreshAnalysis.
*/
module RiskDashboard {
  import opened Wrappers
  import opened RiskMath

  /** One point of the "Risk Over Time" line chart. */
  datatype HistoryPoint = HistoryPoint(time: string, risk: real)

  /** The history keeps this many points. */
  const HistoryLimit: nat := 10

  /**
    `s.slice(-n)` for n > 0: the last n elements, or all of them when there
    are fewer. (JavaScript's slice(-0) would keep everything; the source only
    uses n = 10.)
  */
  function KeepLast<T>(s: seq<T>, n: nat): (r: seq<T>)
    requires n > 0
    ensures |r| == if |s| <= n then |s| else n
    ensures r == s[|s| - |r|..]
  {
    if |s| <= n then s else s[|s| - n..]
  }

  /** The history after one refresh: push the point, keep the last ten. */
  function NextHistory(prev: seq<HistoryPoint>, p: HistoryPoint): (r: seq<HistoryPoint>)
    ensures 1 <= |r| <= HistoryLimit
    ensures r[|r| - 1] == p
  {
    KeepLast(prev + [p], HistoryLimit)
  }

  /**
    One refresh: the history is one longer up to the limit, ends with the new
    point, loses nothing while there is room and exactly its oldest point when
    it is full, keeping the order of the rest.
  */
  lemma NextHistoryShape(prev: seq<HistoryPoint>, p: HistoryPoint)
    requires |prev| <= HistoryLimit
    ensures var h := NextHistory(prev, p);
      && |h| == (if |prev| < HistoryLimit then |prev| + 1 else HistoryLimit)
      && h[|h| - 1] == p
      && (|prev| < HistoryLimit ==> h == prev + [p])
      && (|prev| == HistoryLimit ==> h == prev[1..] + [p])
  {
    var h := NextHistory(prev, p);
    if |prev| == HistoryLimit {
      assert h == (prev + [p])[1..];
      assert (prev + [p])[1..] == prev[1..] + [p];
    }
  }

  /** Keeping the last n after each push is keeping the last n of everything pushed. */
  lemma KeepLastPush<T>(a: seq<T>, x: T, n: nat)
    requires n > 0
    ensures KeepLast(KeepLast(a, n) + [x], n) == KeepLast(a + [x], n)
  {
    var k := KeepLast(a, n);
    var lhs, rhs := KeepLast(k + [x], n), KeepLast(a + [x], n);
    assert |lhs| == |rhs|;
    forall i | 0 <= i < |lhs|
      ensures lhs[i] == rhs[i]
    {
      if i == |lhs| - 1 {
        assert lhs[i] == x;
      } else {
        assert lhs[i] == (k + [x])[|k| + 1 - |lhs| + i];
        assert rhs[i] == (a + [x])[|a| + 1 - |rhs| + i];
      }
    }
  }

  /** The history after refreshing with each of `points` in turn. */
  function Replay(h: seq<HistoryPoint>, points: seq<HistoryPoint>): seq<HistoryPoint>
    decreases |points|
  {
    if points == [] then h else Replay(NextHistory(h, points[0]), points[1..])
  }

  /** After any number of refreshes the history is the last ten points of all it was given. */
  lemma {:induction false} ReplayIsLastTen(h: seq<HistoryPoint>, points: seq<HistoryPoint>)
    requires |h| <= HistoryLimit
    ensures Replay(h, points) == KeepLast(h + points, HistoryLimit)
    decreases |points|
  {
    if points == [] {
      assert h + points == h;
    } else {
      var p, rest := points[0], points[1..];
      var h' := NextHistory(h, p);
      ReplayIsLastTen(h', rest);
      KeepLastSuffix(h + [p], rest, HistoryLimit);
      calc {
        Replay(h, points);
        Replay(h', rest);
        KeepLast(h' + rest, HistoryLimit);
        KeepLast(KeepLast(h + [p], HistoryLimit) + rest, HistoryLimit);
        KeepLast((h + [p]) + rest, HistoryLimit);
        { assert (h + [p]) + rest == h + points; }
        KeepLast(h + points, HistoryLimit);
      }
    }
  }

  /** Taking the last n of a prefix first does not change the last n of the whole. */
  lemma {:induction false} KeepLastSuffix<T>(a: seq<T>, b: seq<T>, n: nat)
    requires n > 0
    ensures KeepLast(KeepLast(a, n) + b, n) == KeepLast(a + b, n)
    decreases |b|
  {
    if b == [] {
      assert KeepLast(a, n) + b == KeepLast(a, n);
      assert a + b == a;
      assert KeepLast(KeepLast(a, n), n) == KeepLast(a, n);
    } else {
      var init, last := b[..|b| - 1], b[|b| - 1];
      assert b == init + [last];
      KeepLastSuffix(a, init, n);
      assert KeepLast(a, n) + b == (KeepLast(a, n) + init) + [last];
      assert a + b == (a + init) + [last];
      KeepLastPush(KeepLast(a, n) + init, last, n);
      KeepLastPush(a + init, last, n);
    }
  }

  /** Starting from the empty history, any run of refreshes keeps at most ten points. */
  lemma HistoryBounded(points: seq<HistoryPoint>)
    ensures |Replay([], points)| == if |points| <= HistoryLimit then |points| else HistoryLimit
  {
    ReplayIsLastTen([], points);
    assert [] + points == points;
  }

  /** The component's state: the latest metrics (null before the first refresh) and the history. */
  class Dashboard {
    var metrics: Option<RiskResult>
    var history: seq<HistoryPoint>

    /** At most ten points, each a risk in [0, 1], the last one the current total. */
    predicate Valid()
      reads this
    {
      && |history| <= HistoryLimit
      && (forall i :: 0 <= i < |history| ==> InUnit(history[i].risk))
      && (metrics.Some? ==> history != [] && history[|history| - 1].risk == metrics.value.totalScore)
    }

    constructor ()
      ensures Valid()
      ensures metrics == None && history == []
    {
      metrics := None;
      history := [];
    }

    /** refreshAnalysis, with the simulated raw readings and the clock label as parameters. */
    method RefreshAnalysis(raw: RawInputs, time: string)
      requires Valid()
      modifies this
      ensures Valid()
      ensures metrics == Some(CalculateRisk(raw))
      ensures history == NextHistory(old(history), HistoryPoint(time, CalculateRisk(raw).totalScore))
    {
      var data := CalculateRisk(raw);
      metrics := Some(data);
      var newPoint := HistoryPoint(time, data.totalScore);
      var newHistory := history + [newPoint];
      history := KeepLast(newHistory, HistoryLimit);
    }
  }

  /** One bar or pie entry; the pie entries carry no fill of their own. */
  datatype Datum = Datum(name: string, value: real, fill: Option<string>)

  /** `contributionData`: each factor's weighted term of R(t). */
  function ContributionData(m: RiskResult): (d: seq<Datum>)
    ensures |d| == 4
    ensures SumValues(d) == Total(m.scores.A, m.scores.CP, m.scores.B, m.scores.S)
    ensures InUnit(m.scores.A) && InUnit(m.scores.CP) && InUnit(m.scores.B) && InUnit(m.scores.S) ==>
      forall i :: 0 <= i < 4 ==> 0.0 <= d[i].value <= ContributionWeights()[i]
  {
    var w := Weights;
    var d := [ Datum("Auth (A)", w.wA * m.scores.A, Some("#3b82f6")),
               Datum("Context (CP)", w.wCP * m.scores.CP, Some("#10b981")),
               Datum("Behavior (B)", w.wB * m.scores.B, Some("#f59e0b")),
               Datum("System (S)", w.wS * m.scores.S, Some("#6366f1")) ];
    SumOfFour(d);
    d
  }

  /** `contextualData`: each sub-factor's weighted term of CP(t). */
  function ContextualData(m: RiskResult): (d: seq<Datum>)
    ensures |d| == 3
    ensures SumValues(d) == Contextual(m.scores.IP, m.scores.GEO, m.scores.BT)
    ensures InUnit(m.scores.IP) && InUnit(m.scores.GEO) && InUnit(m.scores.BT) ==>
      forall i :: 0 <= i < 3 ==> 0.0 <= d[i].value
  {
    var w := Weights;
    var d := [ Datum("IP Risk", w.muIP * m.scores.IP, None),
               Datum("Geo Risk", w.muGeo * m.scores.GEO, None),
               Datum("Trust", w.muBT * m.scores.BT, None) ];
    SumOfThree(d);
    d
  }

  /** The sum of the entries' values. */
  function SumValues(data: seq<Datum>): real
    decreases |data|
  {
    if data == [] then 0.0 else data[0].value + SumValues(data[1..])
  }

  /** The weight each bar of contributionData multiplies. */
  function ContributionWeights(): seq<real> {
    var w := Weights;
    [w.wA, w.wCP, w.wB, w.wS]
  }

  /** The four bars add back up to the total score, each between 0 and its weight. */
  lemma ContributionAddsUp(raw: RawInputs)
    ensures var m := CalculateRisk(raw);
      && |ContributionData(m)| == |ContributionWeights()| == 4
      && SumValues(ContributionData(m)) == m.totalScore
      && forall i :: 0 <= i < 4 ==> 0.0 <= ContributionData(m)[i].value <= ContributionWeights()[i]
  {
  }

  /** The three pie slices add back up to the contextual composite CP. */
  lemma ContextualAddsUp(raw: RawInputs)
    ensures var m := CalculateRisk(raw);
      && |ContextualData(m)| == 3
      && SumValues(ContextualData(m)) == m.scores.CP
      && forall i :: 0 <= i < 3 ==> 0.0 <= ContextualData(m)[i].value
  {
  }

  lemma SumOfThree(d: seq<Datum>)
    requires |d| == 3
    ensures SumValues(d) == d[0].value + d[1].value + d[2].value
  {
    assert SumValues(d[2..]) == d[2].value by {
      assert d[2..][1..] == [];
    }
    assert SumValues(d[1..]) == d[1].value + d[2].value by {
      assert d[1..][1..] == d[2..];
    }
  }

  lemma SumOfFour(d: seq<Datum>)
    requires |d| == 4
    ensures SumValues(d) == d[0].value + d[1].value + d[2].value + d[3].value
  {
    assert d[1..][1..] == d[2..];
    SumOfThree(d[1..]);
  }
}
