/**
  The risk aggregation arithmetic of utils/riskMath.ts: a fixed weight table,
  clamped min-max normalisation, the contextual composite CP, the total risk
  R = w_a*A + w_cp*CP + w_b*B + w_s*S and its three-band presentation.
  The source draws the raw inputs with Math.random(); here they are a
  parameter of CalculateRisk.
*/
module RiskMath {

  /** The `WEIGHTS` table: four top-level weights and three contextual sub-weights. */
  datatype WeightTable = WeightTable(
    wA: real,     // authentication
    wCP: real,    // contextual
    wB: real,     // behavioural (keystroke)
    wS: real,     // system / device
    muIP: real,
    muGeo: real,
    muBT: real)

  const Weights: WeightTable := WeightTable(0.25, 0.30, 0.30, 0.15, 0.4, 0.35, 0.25)

  /** Both groups of weights are convex: non-negative and summing to 1. */
  lemma WeightsConvex()
    ensures Weights.wA + Weights.wCP + Weights.wB + Weights.wS == 1.0
    ensures Weights.muIP + Weights.muGeo + Weights.muBT == 1.0
    ensures 0.0 <= Weights.wA && 0.0 <= Weights.wCP && 0.0 <= Weights.wB && 0.0 <= Weights.wS
    ensures 0.0 <= Weights.muIP && 0.0 <= Weights.muGeo && 0.0 <= Weights.muBT
  {
  }

  function Min(x: real, y: real): real { if x <= y then x else y }
  function Max(x: real, y: real): real { if x >= y then x else y }

  predicate InUnit(x: real) { 0.0 <= x <= 1.0 }

  /**
    `Math.max(0, Math.min(1, (val - min) / (max - min)))`. Every call site in
    the source passes a fixed range with min < max.
  */
  function Normalize(val: real, lo: real, hi: real): (r: real)
    requires lo < hi
    ensures InUnit(r)
    ensures val <= lo ==> r == 0.0
    ensures val >= hi ==> r == 1.0
    ensures lo <= val <= hi ==> r * (hi - lo) == val - lo
  {
    Quotient(val - lo, hi - lo);
    Max(0.0, Min(1.0, (val - lo) / (hi - lo)))
  }

  /** Sign and bound facts about a quotient by a positive real. */
  lemma Quotient(x: real, d: real)
    requires d > 0.0
    ensures (x / d) * d == x
    ensures x <= 0.0 ==> x / d <= 0.0
    ensures x >= d ==> x / d >= 1.0
  {
    var q := x / d;
    assert q * d == x;
    assert q > 0.0 ==> q * d > 0.0;
    assert q < 1.0 ==> q * d < 1.0 * d;
  }

  /** Dividing by a positive real keeps the order. */
  lemma QuotientMonotone(x1: real, x2: real, d: real)
    requires d > 0.0 && x1 <= x2
    ensures x1 / d <= x2 / d
  {
    Quotient(x1, d);
    Quotient(x2, d);
    var q1, q2 := x1 / d, x2 / d;
    assert q1 > q2 ==> q1 * d > q2 * d;
  }

  /** Normalisation never reverses the order of two readings. */
  lemma NormalizeMonotone(v1: real, v2: real, lo: real, hi: real)
    requires lo < hi
    requires v1 <= v2
    ensures Normalize(v1, lo, hi) <= Normalize(v2, lo, hi)
  {
    QuotientMonotone(v1 - lo, v2 - lo, hi - lo);
  }

  /** A value that is already normalised is left alone by normalising it over [0, 1]. */
  lemma NormalizeIdempotent(v: real, lo: real, hi: real)
    requires lo < hi
    ensures Normalize(Normalize(v, lo, hi), 0.0, 1.0) == Normalize(v, lo, hi)
  {
  }

  /** The raw readings that calculateRisk simulates (utils/riskMath.ts:22-29). */
  datatype RawInputs = RawInputs(
    keystrokeAnomaly: real,   // 0-300 ms deviation
    ipRisk: real,             // 0-100
    geoRisk: real,            // 0-100
    browserTrust: real,       // 0-100
    authFailures: int,        // 0-5 failures, an integer (Math.floor)
    deviceRisk: real)         // 0-100

  /** The `scores` object: every normalised factor and the composite CP. */
  datatype Scores = Scores(A: real, CP: real, B: real, S: real, IP: real, GEO: real, BT: real)

  /** The object calculateRisk returns. */
  datatype RiskResult = RiskResult(
    raw: RawInputs,
    scores: Scores,
    totalScore: real,
    riskLabel: string,   // the source's `label` field (`label` is a Dafny keyword)
    color: string,
    bg: string)

  // The normalisation ranges fixed at each call site (utils/riskMath.ts:32-37).
  const KeystrokeMax: real := 300.0
  const PercentMax: real := 100.0
  const AuthFailuresMax: real := 5.0

  /** CP(t) = mu_ip*IP + mu_geo*GEO + mu_bt*BT: a convex combination, so it stays in [0, 1]. */
  function Contextual(ip: real, geo: real, bt: real): (cp: real)
    ensures InUnit(ip) && InUnit(geo) && InUnit(bt) ==> InUnit(cp)
    ensures ip == geo == bt ==> cp == ip
  {
    Weights.muIP * ip + Weights.muGeo * geo + Weights.muBT * bt
  }

  /** R(t) = w_a*A + w_cp*CP + w_b*B + w_s*S: a convex combination, so it stays in [0, 1]. */
  function Total(a: real, cp: real, b: real, s: real): (r: real)
    ensures InUnit(a) && InUnit(cp) && InUnit(b) && InUnit(s) ==> InUnit(r)
    ensures a == cp == b == s ==> r == a
  {
    Weights.wA * a + Weights.wCP * cp + Weights.wB * b + Weights.wS * s
  }

  function NormalizedScores(raw: RawInputs): (sc: Scores)
    ensures InUnit(sc.A) && InUnit(sc.CP) && InUnit(sc.B) && InUnit(sc.S)
    ensures InUnit(sc.IP) && InUnit(sc.GEO) && InUnit(sc.BT)
    ensures sc.CP == Contextual(sc.IP, sc.GEO, sc.BT)
  {
    var B := Normalize(raw.keystrokeAnomaly, 0.0, KeystrokeMax);
    var IP := Normalize(raw.ipRisk, 0.0, PercentMax);
    var GEO := Normalize(raw.geoRisk, 0.0, PercentMax);
    var BT := Normalize(raw.browserTrust, 0.0, PercentMax);
    var A := Normalize(raw.authFailures as real, 0.0, AuthFailuresMax);
    var S := Normalize(raw.deviceRisk, 0.0, PercentMax);
    Scores(A, Contextual(IP, GEO, BT), B, S, IP, GEO, BT)
  }

  // The three presentation fields, each written as its own nested conditional
  // on the total score, as the source writes them (utils/riskMath.ts:55-57).

  function Label(total: real): (s: string)
    ensures s == BandOf(total).LabelText()
  {
    if total < 0.3 then "Low Risk" else if total < 0.6 then "Medium Risk" else "High Risk"
  }

  function Color(total: real): (s: string)
    ensures s == BandOf(total).ColorClass()
  {
    if total < 0.3 then "text-emerald-500" else if total < 0.6 then "text-amber-500" else "text-red-500"
  }

  function Bg(total: real): (s: string)
    ensures s == BandOf(total).BgClass()
  {
    if total < 0.3 then "bg-emerald-50" else if total < 0.6 then "bg-amber-50" else "bg-red-50"
  }

  /** The three risk bands and the presentation each of them stands for. */
  datatype Band = Low | Medium | High {
    function LabelText(): string {
      match this
      case Low => "Low Risk"
      case Medium => "Medium Risk"
      case High => "High Risk"
    }
    function ColorClass(): string {
      match this
      case Low => "text-emerald-500"
      case Medium => "text-amber-500"
      case High => "text-red-500"
    }
    function BgClass(): string {
      match this
      case Low => "bg-emerald-50"
      case Medium => "bg-amber-50"
      case High => "bg-red-50"
    }
  }

  /** The band a total score falls into, by the thresholds 0.3 and 0.6. */
  function BandOf(total: real): (b: Band)
    ensures b == Low <==> total < 0.3
    ensures b == Medium <==> 0.3 <= total < 0.6
    ensures b == High <==> 0.6 <= total
  {
    if total < 0.3 then Low else if total < 0.6 then Medium else High
  }

  /** calculateRisk, with the random draws replaced by the `raw` parameter. */
  function CalculateRisk(raw: RawInputs): (r: RiskResult)
    ensures r.raw == raw
    ensures InUnit(r.totalScore)
    ensures InUnit(r.scores.CP)
    ensures r.scores == NormalizedScores(raw)
    ensures r.totalScore == Total(r.scores.A, r.scores.CP, r.scores.B, r.scores.S)
  {
    var sc := NormalizedScores(raw);
    var total := Total(sc.A, sc.CP, sc.B, sc.S);
    RiskResult(raw, sc, total, Label(total), Color(total), Bg(total))
  }

  /** The label names the band of the score, in both directions. */
  lemma LabelBands(raw: RawInputs)
    ensures var r := CalculateRisk(raw);
      && (r.riskLabel == "Low Risk" <==> r.totalScore < 0.3)
      && (r.riskLabel == "Medium Risk" <==> 0.3 <= r.totalScore < 0.6)
      && (r.riskLabel == "High Risk" <==> 0.6 <= r.totalScore)
  {
  }

  /** Label, colour and background always describe the same band. */
  lemma PresentationAgrees(raw: RawInputs)
    ensures var r := CalculateRisk(raw);
      && r.riskLabel == BandOf(r.totalScore).LabelText()
      && r.color == BandOf(r.totalScore).ColorClass()
      && r.bg == BandOf(r.totalScore).BgClass()
  {
  }

  /** Raw input `r1` is at most `r2` in every factor. */
  predicate Dominated(r1: RawInputs, r2: RawInputs) {
    && r1.keystrokeAnomaly <= r2.keystrokeAnomaly
    && r1.ipRisk <= r2.ipRisk
    && r1.geoRisk <= r2.geoRisk
    && r1.browserTrust <= r2.browserTrust
    && r1.authFailures <= r2.authFailures
    && r1.deviceRisk <= r2.deviceRisk
  }

  /** CP is non-decreasing in each of IP, GEO and BT. */
  lemma ContextualMonotone(ip1: real, geo1: real, bt1: real, ip2: real, geo2: real, bt2: real)
    requires ip1 <= ip2 && geo1 <= geo2 && bt1 <= bt2
    ensures Contextual(ip1, geo1, bt1) <= Contextual(ip2, geo2, bt2)
  {
  }

  /** The total is non-decreasing in each normalised factor. */
  lemma TotalMonotone(a1: real, cp1: real, b1: real, s1: real, a2: real, cp2: real, b2: real, s2: real)
    requires a1 <= a2 && cp1 <= cp2 && b1 <= b2 && s1 <= s2
    ensures Total(a1, cp1, b1, s1) <= Total(a2, cp2, b2, s2)
  {
  }

  /** Raising any raw reading never lowers any factor score nor the total risk. */
  lemma RiskMonotone(r1: RawInputs, r2: RawInputs)
    requires Dominated(r1, r2)
    ensures var s1, s2 := CalculateRisk(r1).scores, CalculateRisk(r2).scores;
      && s1.A <= s2.A && s1.B <= s2.B && s1.S <= s2.S && s1.CP <= s2.CP
      && s1.IP <= s2.IP && s1.GEO <= s2.GEO && s1.BT <= s2.BT
    ensures CalculateRisk(r1).totalScore <= CalculateRisk(r2).totalScore
  {
    var s1, s2 := NormalizedScores(r1), NormalizedScores(r2);
    NormalizeMonotone(r1.keystrokeAnomaly, r2.keystrokeAnomaly, 0.0, KeystrokeMax);
    NormalizeMonotone(r1.ipRisk, r2.ipRisk, 0.0, PercentMax);
    NormalizeMonotone(r1.geoRisk, r2.geoRisk, 0.0, PercentMax);
    NormalizeMonotone(r1.browserTrust, r2.browserTrust, 0.0, PercentMax);
    NormalizeMonotone(r1.authFailures as real, r2.authFailures as real, 0.0, AuthFailuresMax);
    NormalizeMonotone(r1.deviceRisk, r2.deviceRisk, 0.0, PercentMax);
    ContextualMonotone(s1.IP, s1.GEO, s1.BT, s2.IP, s2.GEO, s2.BT);
    TotalMonotone(s1.A, s1.CP, s1.B, s1.S, s2.A, s2.CP, s2.B, s2.S);
  }

  /** Every raw reading at (or below) its range minimum: no risk at all, labelled low. */
  lemma AllAtMinimum(raw: RawInputs)
    requires raw.keystrokeAnomaly <= 0.0 && raw.ipRisk <= 0.0 && raw.geoRisk <= 0.0
    requires raw.browserTrust <= 0.0 && raw.authFailures <= 0 && raw.deviceRisk <= 0.0
    ensures CalculateRisk(raw).totalScore == 0.0
    ensures CalculateRisk(raw).riskLabel == "Low Risk"
  {
  }

  /** Every raw reading at (or above) its range maximum: full risk, labelled high. */
  lemma AllAtMaximum(raw: RawInputs)
    requires raw.keystrokeAnomaly >= KeystrokeMax && raw.ipRisk >= PercentMax && raw.geoRisk >= PercentMax
    requires raw.browserTrust >= PercentMax && raw.authFailures >= 5 && raw.deviceRisk >= PercentMax
    ensures CalculateRisk(raw).totalScore == 1.0
    ensures CalculateRisk(raw).riskLabel == "High Risk"
  {
  }

  /**
    The simulated draws (utils/riskMath.ts:23-28) give at most 4 auth
    failures, so A <= 0.8 and the total never exceeds 0.95: the simulation
    never shows a total score of 1.
  */
  lemma SimulatedRangeCap(raw: RawInputs)
    requires 0 <= raw.authFailures <= 4
    ensures CalculateRisk(raw).scores.A <= 0.8
    ensures CalculateRisk(raw).totalScore <= 0.95
  {
    var sc := NormalizedScores(raw);
    assert sc.A <= 0.8 by {
      NormalizeMonotone(raw.authFailures as real, 4.0, 0.0, AuthFailuresMax);
    }
  }
}
