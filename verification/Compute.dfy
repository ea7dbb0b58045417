/** The risk score and the recovery simulation over real numbers. */
module Compute {
  import opened BotTypes
  import opened DecisionEngine
  import opened Numbers

  function Min(a: real, b: real): real { if a <= b then a else b }

  function Max(a: real, b: real): real { if a >= b then a else b }

  /** Rounding to the nearest integer, ties to even, as Python's `round`. */
  function RoundEven(x: real): int {
    var f := x.Floor;
    var d := x - f as real;
    if d < 0.5 then f else if d > 0.5 then f + 1 else if f % 2 == 0 then f else f + 1
  }

  function Round1(x: real): real { RoundEven(x * 10.0) as real / 10.0 }

  function Round2(x: real): real { RoundEven(x * 100.0) as real / 100.0 }

  lemma RoundEvenMonotone(x: real, y: real)
    requires x <= y
    ensures RoundEven(x) <= RoundEven(y)
  {
    assert x.Floor <= y.Floor;
  }

  lemma RoundKeepsInteger(n: int)
    ensures RoundEven(n as real) == n
  {
  }

  lemma Round1Monotone(x: real, y: real)
    requires x <= y
    ensures Round1(x) <= Round1(y)
  {
    RoundEvenMonotone(x * 10.0, y * 10.0);
  }

  // ---------- reading the context ----------

  /** `int(text)` and `float(text)`; `None` stands for the exception. */
  datatype Parsers = Parsers(parseInt: string -> Option<int>, parseReal: string -> Option<real>)

  function ToInt(j: Json, p: Parsers): Option<int> {
    match j
    case JBool(b) => Some(if b then 1 else 0)
    case JNum(n) => Some(Truncate(n))
    case JStr(s) => p.parseInt(s)
    case _ => None
  }

  function ToReal(j: Json, p: Parsers): Option<real> {
    match j
    case JBool(b) => Some(if b then 1.0 else 0.0)
    case JNum(n) => Some(n)
    case JStr(s) => p.parseReal(s)
    case _ => None
  }

  /** `a or b` on values. */
  function Or(a: Json, b: Json): Json { if a.Truthy() then a else b }

  /** What the score is computed from, after defaults and conversions. */
  datatype RiskInputs = RiskInputs(rank: int, valueMid: real, confidence: real, priorClaims: Option<real>,
                                   unknownAmounts: int, unknownActivity: int, missingRankInfo: bool, priorLiens: int)

  /** Everything but the claims estimate. */
  function ReadScalars(get: string -> Json, p: Parsers): Option<RiskInputs> {
    var rank := ToInt(Or(get("our_rank"), JNum(1.0)), p);
    var mid := ToReal(Or(get("value_mid"), JNum(0.0)), p);
    var confidence := ToReal(Or(get("confidence"), JNum(0.5)), p);
    var amounts := ToInt(Or(get("unknown_amounts_count"), JNum(0.0)), p);
    var activity := ToInt(Or(get("unknown_activity_count"), JNum(0.0)), p);
    var liens := ToInt(Or(get("active_prior_liens_count"), JNum(0.0)), p);
    if rank.None? || mid.None? || confidence.None? || amounts.None? || activity.None? || liens.None? then None
    else Some(RiskInputs(rank.value, mid.value, confidence.value, None, amounts.value, activity.value,
                         get("missing_rank_info").Truthy(), liens.value))
  }

  /** Reads a context dict, given as its `get`; `None` when a conversion raises. The claims
      estimate is converted only against a positive value. */
  function ReadRisk(get: string -> Json, p: Parsers): Option<RiskInputs> {
    var r := ReadScalars(get, p);
    var claims := get("prior_claims_estimate");
    if r.None? || claims.JNull? then r
    else if r.value.valueMid > 0.0 && ToReal(claims, p).None? then None
    else Some(r.value.(priorClaims := ToReal(claims, p)))
  }

  const VALUATION_KEYS := ["value_low", "value_mid", "value_high", "confidence", "liquidation_factor"]

  /** `get` on the dict that `_context_from_db` builds from the stored facts. */
  function ContextGet(c: Context, key: string): Json {
    if key in VALUATION_KEYS then (if c.valuation.None? then JNull else Get(c.valuation.value, key))
    else if key == "our_rank" then
      if c.rank.None? then JNull else Or(Or(Get(c.rank.value, key), Get(c.rank.value, "value")), JNum(1.0))
    else if key == "prior_claims_estimate" then
      if c.priorClaims.None? then JNull
      else if Get(c.priorClaims.value, key).Truthy() then Get(c.priorClaims.value, key) else Get(c.priorClaims.value, "value")
    else if key == "unknown_amounts_count" then CountOf(c.unknownAmounts, key)
    else if key == "unknown_activity_count" then CountOf(c.unknownActivity, key)
    else if key == "active_prior_liens_count" then CountOf(c.priorLiens, key)
    else if key == "estimated_costs" then JNum(0.0)
    else JNull
  }

  function CountOf(v: Option<Json>, key: string): Json {
    if v.None? then JNull else Or(Get(v.value, key), JNum(0.0))
  }

  /** The module raises on any context whose rank fact holds a text that is no number, such
      as "2. sira": the rule engine then stops as in `OrderMatters`. */
  lemma UnreadableRankRaises(c: Context, p: Parsers, text: string)
    requires c.rank.Some? && Get(c.rank.value, "our_rank") == JStr(text) && text != "" && p.parseInt(text).None?
    ensures ReadRisk((key: string) => ContextGet(c, key), p).None?
  {
    assert "our_rank" !in VALUATION_KEYS;
    assert ContextGet(c, "our_rank") == JStr(text);
    hide ContextGet;
  }

  // ---------- risk ----------

  datatype Weights = Weights(rank: real, priorClaims: real, uncertainty: real, valueConfidence: real, lienActivity: real)

  const DEFAULT_WEIGHTS := Weights(0.35, 0.20, 0.20, 0.15, 0.10)

  function RankRisk(c: RiskInputs): real {
    Min(100.0, Max(0.0, (c.rank - 1) as real * 20.0))
  }

  function PriorClaimsRisk(c: RiskInputs): real {
    if c.priorClaims.None? || c.valueMid <= 0.0 then 60.0
    else Min(100.0, c.priorClaims.value / Max(1.0, c.valueMid) * 100.0)
  }

  function UncertaintyRisk(c: RiskInputs): real {
    Min(100.0, (if c.unknownAmounts > 0 then 30.0 else 0.0) + (if c.unknownActivity > 0 then 30.0 else 0.0)
               + (if c.missingRankInfo then 25.0 else 0.0))
  }

  function ConfidenceRisk(c: RiskInputs): real {
    Min(100.0, (1.0 - c.confidence) * 100.0)
  }

  function LienRisk(c: RiskInputs): real {
    if c.priorLiens == 0 then 10.0 else if c.priorLiens <= 2 then 40.0 else 70.0
  }

  function Weighted(w: Weights, rank: real, claims: real, uncertainty: real, confidence: real, liens: real): real {
    w.rank * rank + w.priorClaims * claims + w.uncertainty * uncertainty + w.valueConfidence * confidence + w.lienActivity * liens
  }

  function RawScore(c: RiskInputs, w: Weights): real {
    Weighted(w, RankRisk(c), PriorClaimsRisk(c), UncertaintyRisk(c), ConfidenceRisk(c), LienRisk(c))
  }

  function Score(c: RiskInputs, w: Weights): real {
    Round1(RawScore(c, w))
  }

  /** The confidence is a probability, and known prior claims are not negative. */
  predicate Sane(c: RiskInputs) {
    && 0.0 <= c.confidence <= 1.0
    && (c.priorClaims.Some? ==> c.priorClaims.value >= 0.0)
  }

  lemma RatioNonNegative(x: real, y: real)
    requires x >= 0.0 && y >= 1.0
    ensures x / y >= 0.0
  {
  }

  /** With the default weights no input scores above 94, or above 89 when no rank
      information is missing; sane inputs score at least 1. */
  lemma RiskBounds(c: RiskInputs)
    ensures Score(c, DEFAULT_WEIGHTS) <= 94.0
    ensures !c.missingRankInfo ==> Score(c, DEFAULT_WEIGHTS) <= 89.0
    ensures Sane(c) ==> Score(c, DEFAULT_WEIGHTS) >= 1.0
  {
    if Sane(c) && c.priorClaims.Some? {
      RatioNonNegative(c.priorClaims.value, Max(1.0, c.valueMid));
    }
    var raw := RawScore(c, DEFAULT_WEIGHTS);
    assert raw <= 94.0 && (!c.missingRankInfo ==> raw <= 89.0) && (Sane(c) ==> raw >= 1.0);
    RoundsTo(raw, 1);
    RoundsTo(raw, 94);
    RoundsTo(raw, 89);
  }

  /** Rounding does not cross a whole number. */
  lemma RoundsTo(x: real, n: int)
    ensures x <= n as real ==> Round1(x) <= n as real
    ensures x >= n as real ==> Round1(x) >= n as real
  {
    RoundKeepsInteger(10 * n);
    assert (10 * n) as real == n as real * 10.0;
    if x <= n as real { RoundEvenMonotone(x * 10.0, n as real * 10.0); }
    if x >= n as real { RoundEvenMonotone(n as real * 10.0, x * 10.0); }
  }

  /** All three bounds are attained. */
  lemma RiskBoundsAreSharp()
    ensures Score(RiskInputs(1, 100.0, 1.0, Some(0.0), 0, 0, false, 0), DEFAULT_WEIGHTS) == 1.0
    ensures Score(RiskInputs(6, 100.0, 0.0, Some(100.0), 1, 1, true, 3), DEFAULT_WEIGHTS) == 94.0
    ensures Score(RiskInputs(6, 100.0, 0.0, Some(100.0), 1, 1, false, 3), DEFAULT_WEIGHTS) == 89.0
  {
    var low, high := RiskInputs(1, 100.0, 1.0, Some(0.0), 0, 0, false, 0), RiskInputs(6, 100.0, 0.0, Some(100.0), 1, 1, true, 3);
    hide Score, Weighted;
    SumOfParts(low, 0.0, 0.0, 0.0, 0.0, 10.0);
    SumOfParts(high, 100.0, 100.0, 85.0, 100.0, 70.0);
    SumOfParts(high.(missingRankInfo := false), 100.0, 100.0, 60.0, 100.0, 70.0);
    WholeScore(low, 1);
    WholeScore(high, 94);
    WholeScore(high.(missingRankInfo := false), 89);
    hide RankRisk, PriorClaimsRisk, UncertaintyRisk, ConfidenceRisk, LienRisk, RawScore;
  }

  lemma SumOfParts(c: RiskInputs, rank: real, claims: real, uncertainty: real, confidence: real, liens: real)
    requires RankRisk(c) == rank && UncertaintyRisk(c) == uncertainty && ConfidenceRisk(c) == confidence && LienRisk(c) == liens
    requires PriorClaimsRisk(c) == claims
    ensures RawScore(c, DEFAULT_WEIGHTS) == 0.35 * rank + 0.20 * claims + 0.20 * uncertainty + 0.15 * confidence + 0.10 * liens
  {
    hide RankRisk, PriorClaimsRisk, UncertaintyRisk, ConfidenceRisk, LienRisk;
  }

  lemma WholeScore(c: RiskInputs, n: int)
    ensures RawScore(c, DEFAULT_WEIGHTS) == n as real ==> Score(c, DEFAULT_WEIGHTS) == n as real
  {
    RoundsTo(RawScore(c, DEFAULT_WEIGHTS), n);
    hide RawScore, Round1;
  }

  /** At least as risky in every input: higher rank, more unknowns, more prior liens, higher
      claims against the same positive value, lower confidence. */
  predicate AtLeastAsRisky(a: RiskInputs, b: RiskInputs) {
    && a.rank <= b.rank
    && a.unknownAmounts <= b.unknownAmounts && a.unknownActivity <= b.unknownActivity
    && 0 <= a.priorLiens <= b.priorLiens
    && (a.missingRankInfo ==> b.missingRankInfo)
    && a.valueMid == b.valueMid
    && (a.priorClaims == b.priorClaims
        || (a.valueMid > 0.0 && a.priorClaims.Some? && b.priorClaims.Some?
            && a.priorClaims.value <= b.priorClaims.value))
    && b.confidence <= a.confidence
  }

  predicate NonNegative(w: Weights) {
    w.rank >= 0.0 && w.priorClaims >= 0.0 && w.uncertainty >= 0.0 && w.valueConfidence >= 0.0 && w.lienActivity >= 0.0
  }

  lemma DivMono(x: real, y: real, d: real)
    requires x <= y && d >= 1.0
    ensures x / d <= y / d
  {
    assert (y - x) / d >= 0.0;
    assert y / d == x / d + (y - x) / d;
  }

  lemma ScaleMono(w: real, x: real, y: real)
    requires w >= 0.0 && x <= y
    ensures w * x <= w * y
  {
    assert w * (y - x) >= 0.0;
  }

  lemma ComponentsMonotone(a: RiskInputs, b: RiskInputs)
    requires AtLeastAsRisky(a, b)
    ensures RankRisk(a) <= RankRisk(b) && PriorClaimsRisk(a) <= PriorClaimsRisk(b)
    ensures UncertaintyRisk(a) <= UncertaintyRisk(b) && ConfidenceRisk(a) <= ConfidenceRisk(b) && LienRisk(a) <= LienRisk(b)
  {
    if a.priorClaims.Some? && b.priorClaims.Some? && a.priorClaims.value <= b.priorClaims.value {
      DivMono(a.priorClaims.value, b.priorClaims.value, Max(1.0, a.valueMid));
    }
  }

  lemma WeightedMono(w: Weights, a: (real, real, real, real, real), b: (real, real, real, real, real))
    requires NonNegative(w)
    requires a.0 <= b.0 && a.1 <= b.1 && a.2 <= b.2 && a.3 <= b.3 && a.4 <= b.4
    ensures Weighted(w, a.0, a.1, a.2, a.3, a.4) <= Weighted(w, b.0, b.1, b.2, b.3, b.4)
  {
    hide Weighted, IsProduct;
    var p0, q0 := Scaled(w.rank, a.0, b.0);
    var p1, q1 := Scaled(w.priorClaims, a.1, b.1);
    var p2, q2 := Scaled(w.uncertainty, a.2, b.2);
    var p3, q3 := Scaled(w.valueConfidence, a.3, b.3);
    var p4, q4 := Scaled(w.lienActivity, a.4, b.4);
    WeightedIs(w, a, p0, p1, p2, p3, p4);
    WeightedIs(w, b, q0, q1, q2, q3, q4);
    SumMono((p0, p1, p2, p3, p4), (q0, q1, q2, q3, q4));
  }

  predicate IsProduct(p: real, w: real, x: real) { p == w * x }

  /** Two products of one weight, given a name each. */
  lemma Scaled(w: real, x: real, y: real) returns (p: real, q: real)
    requires w >= 0.0 && x <= y
    ensures IsProduct(p, w, x) && IsProduct(q, w, y) && p <= q
  {
    ScaleMono(w, x, y);
    p, q := w * x, w * y;
  }

  lemma WeightedIs(w: Weights, a: (real, real, real, real, real), p0: real, p1: real, p2: real, p3: real, p4: real)
    requires IsProduct(p0, w.rank, a.0) && IsProduct(p1, w.priorClaims, a.1) && IsProduct(p2, w.uncertainty, a.2)
    requires IsProduct(p3, w.valueConfidence, a.3) && IsProduct(p4, w.lienActivity, a.4)
    ensures Weighted(w, a.0, a.1, a.2, a.3, a.4) == p0 + p1 + p2 + p3 + p4
  {
  }

  lemma SumMono(p: (real, real, real, real, real), q: (real, real, real, real, real))
    requires p.0 <= q.0 && p.1 <= q.1 && p.2 <= q.2 && p.3 <= q.3 && p.4 <= q.4
    ensures p.0 + p.1 + p.2 + p.3 + p.4 <= q.0 + q.1 + q.2 + q.3 + q.4
  {
  }

  /** The rounded score is monotone in all of these at once, for any non-negative weights. */
  lemma RiskMonotone(a: RiskInputs, b: RiskInputs, w: Weights)
    requires AtLeastAsRisky(a, b) && NonNegative(w)
    ensures Score(a, w) <= Score(b, w)
  {
    ComponentsMonotone(a, b);
    hide RankRisk, PriorClaimsRisk, UncertaintyRisk, ConfidenceRisk, LienRisk, Weighted, Round1;
    WeightedMono(w, (RankRisk(a), PriorClaimsRisk(a), UncertaintyRisk(a), ConfidenceRisk(a), LienRisk(a)),
                 (RankRisk(b), PriorClaimsRisk(b), UncertaintyRisk(b), ConfidenceRisk(b), LienRisk(b)));
    Round1Monotone(RawScore(a, w), RawScore(b, w));
  }

  /** Through the rule engine the bound is 89: the context built from the facts never
      holds `missing_rank_info`. */
  lemma EngineRiskBounds(ctx: Context, p: Parsers)
    ensures var c := ReadRisk((key: string) => ContextGet(ctx, key), p);
            c.Some? ==> !c.value.missingRankInfo && Score(c.value, DEFAULT_WEIGHTS) <= 89.0
                        && (Sane(c.value) ==> Score(c.value, DEFAULT_WEIGHTS) >= 1.0)
  {
    var c := ReadRisk((key: string) => ContextGet(ctx, key), p);
    assert ContextGet(ctx, "missing_rank_info") == JNull;
    hide ContextGet, Score;
    if c.Some? {
      RiskBounds(c.value);
    }
  }

  /** The score is antitone in the stated confidence only on (0, 1]: a stated 0 is read as
      0.5, so every stated confidence in (0, 0.49] scores strictly higher than 0 does. */
  lemma ZeroConfidenceIsHalf(get: string -> Json, p: Parsers, low: real)
    requires 0.0 < low <= 0.49
    ensures var zero := ReadRisk(With(get, "confidence", JNum(0.0)), p);
            var half := ReadRisk(With(get, "confidence", JNum(0.5)), p);
            var stated := ReadRisk(With(get, "confidence", JNum(low)), p);
            && zero == half
            && (zero.Some? <==> stated.Some?)
            && (zero.Some? ==> Score(zero.value, DEFAULT_WEIGHTS) < Score(stated.value, DEFAULT_WEIGHTS))
  {
    var stated := ReadRisk(With(get, "confidence", JNum(low)), p);
    hide Score;
    if stated.Some? {
      assert ReadRisk(With(get, "confidence", JNum(0.0)), p) == Some(stated.value.(confidence := 0.5));
      ConfidenceGap(stated.value);
    }
  }

  /** On (0, 1] the score is antitone in the stated confidence, for any non-negative weights. */
  lemma StatedConfidenceAntitone(get: string -> Json, p: Parsers, low: real, high: real, w: Weights)
    requires 0.0 < low <= high <= 1.0 && NonNegative(w)
    ensures var unsure := ReadRisk(With(get, "confidence", JNum(low)), p);
            var sure := ReadRisk(With(get, "confidence", JNum(high)), p);
            && (unsure.Some? <==> sure.Some?)
            && (sure.Some? ==> Score(sure.value, w) <= Score(unsure.value, w))
  {
    var unsure := ReadRisk(With(get, "confidence", JNum(low)), p);
    hide Score;
    if unsure.Some? {
      assert ReadRisk(With(get, "confidence", JNum(high)), p) == Some(unsure.value.(confidence := high));
      LessConfident(unsure.value, high, w);
    }
  }

  lemma LessConfident(c: RiskInputs, high: real, w: Weights)
    requires c.confidence <= high && NonNegative(w)
    ensures Score(c.(confidence := high), w) <= Score(c, w)
  {
    var d := c.(confidence := high);
    assert RankRisk(d) == RankRisk(c) && PriorClaimsRisk(d) == PriorClaimsRisk(c) && UncertaintyRisk(d) == UncertaintyRisk(c)
        && LienRisk(d) == LienRisk(c) && ConfidenceRisk(d) <= ConfidenceRisk(c);
    hide RankRisk, PriorClaimsRisk, UncertaintyRisk, ConfidenceRisk, LienRisk, Weighted, Round1;
    WeightedMono(w, (RankRisk(d), PriorClaimsRisk(d), UncertaintyRisk(d), ConfidenceRisk(d), LienRisk(d)),
                 (RankRisk(c), PriorClaimsRisk(c), UncertaintyRisk(c), ConfidenceRisk(c), LienRisk(c)));
    Round1Monotone(RawScore(d, w), RawScore(c, w));
  }

  /** The dict with one key set. */
  function With(get: string -> Json, key: string, v: Json): string -> Json {
    (k: string) => if k == key then v else get(k)
  }

  lemma ConfidenceGap(c: RiskInputs)
    requires 0.0 < c.confidence <= 0.49
    ensures Score(c.(confidence := 0.5), DEFAULT_WEIGHTS) < Score(c, DEFAULT_WEIGHTS)
  {
    var x, y := RawScore(c.(confidence := 0.5), DEFAULT_WEIGHTS), RawScore(c, DEFAULT_WEIGHTS);
    hide RoundEven;
    ConfidenceShare(c);
    RoundEvenMonotone(x * 10.0 + 1.5, y * 10.0);
    RoundEvenShift(x * 10.0);
  }

  lemma ConfidenceShare(c: RiskInputs)
    requires 0.0 < c.confidence <= 0.49
    ensures RawScore(c.(confidence := 0.5), DEFAULT_WEIGHTS) + 0.15 <= RawScore(c, DEFAULT_WEIGHTS)
  {
    var half := c.(confidence := 0.5);
    assert PriorClaimsRisk(half) == PriorClaimsRisk(c) && RankRisk(half) == RankRisk(c)
        && UncertaintyRisk(half) == UncertaintyRisk(c) && LienRisk(half) == LienRisk(c);
    assert ConfidenceRisk(half) == 50.0 && ConfidenceRisk(c) >= 51.0;
    hide RankRisk, PriorClaimsRisk, UncertaintyRisk, ConfidenceRisk, LienRisk;
  }

  lemma RoundEvenShift(x: real)
    ensures RoundEven(x + 1.5) > RoundEven(x)
  {
    assert RoundEven(x) as real <= x + 0.5;
    assert RoundEven(x + 1.5) as real >= x + 1.0;
  }

  /** A claims estimate of zero stored under its own key is dropped and scored as unknown
      (60); the same zero stored under `value` is scored as no claims (0). */
  lemma ZeroClaimsReadAsUnknown(c: Context, p: Parsers)
    ensures var own := c.(priorClaims := Some(JObj([("prior_claims_estimate", JNum(0.0))])));
            var renamed := c.(priorClaims := Some(JObj([("value", JNum(0.0))])));
            var a, b := ReadRisk((k: string) => ContextGet(own, k), p), ReadRisk((k: string) => ContextGet(renamed, k), p);
            && (a.Some? <==> b.Some?)
            && (a.Some? ==> PriorClaimsRisk(a.value) == 60.0)
            && (b.Some? && b.value.valueMid > 0.0 ==> PriorClaimsRisk(b.value) == 0.0)
  {
    var o, r := JObj([("prior_claims_estimate", JNum(0.0))]), JObj([("value", JNum(0.0))]);
    hide ReadRisk, PriorClaimsRisk;
    assert o.fields[1..] == [] && r.fields[1..] == [];
    assert Get(o, "value") == JNull && Get(r, "value") == JNum(0.0) && Get(r, "prior_claims_estimate") == JNull;
    var own, renamed := c.(priorClaims := Some(o)), c.(priorClaims := Some(r));
    SameElsewhere(own, renamed);
    assert ContextGet(own, "prior_claims_estimate") == JNull && ContextGet(renamed, "prior_claims_estimate") == JNum(0.0);
    hide ContextGet, Get;
    ReadsAlike((k: string) => ContextGet(own, k), (k: string) => ContextGet(renamed, k), p);
  }

  lemma ReadsAlike(g: string -> Json, h: string -> Json, p: Parsers)
    requires forall key: string | key != "prior_claims_estimate" :: g(key) == h(key)
    requires g("prior_claims_estimate") == JNull && h("prior_claims_estimate") == JNum(0.0)
    ensures ReadRisk(g, p).Some? <==> ReadRisk(h, p).Some?
    ensures ReadRisk(g, p).Some? ==> ReadRisk(h, p).value == ReadRisk(g, p).value.(priorClaims := Some(0.0))
                                     && PriorClaimsRisk(ReadRisk(g, p).value) == 60.0
                                     && (ReadRisk(h, p).value.valueMid > 0.0 ==> PriorClaimsRisk(ReadRisk(h, p).value) == 0.0)
  {
    ScalarsAlike(g, h, p);
    hide ReadScalars, PriorClaimsRisk;
    if ReadScalars(g, p).Some? {
      NoClaimsRisk(ReadScalars(g, p).value);
    }
  }

  /** Unknown claims count 60, claims of zero against a positive value count nothing. */
  lemma NoClaimsRisk(c: RiskInputs)
    ensures c.priorClaims.None? ==> PriorClaimsRisk(c) == 60.0
    ensures c.valueMid > 0.0 ==> PriorClaimsRisk(c.(priorClaims := Some(0.0))) == 0.0
  {
    assert 0.0 / Max(1.0, c.valueMid) == 0.0;
  }

  lemma ScalarsAlike(g: string -> Json, h: string -> Json, p: Parsers)
    requires forall key: string | key != "prior_claims_estimate" :: g(key) == h(key)
    ensures ReadScalars(g, p) == ReadScalars(h, p)
    ensures ReadScalars(g, p).Some? ==> ReadScalars(g, p).value.priorClaims.None?
  {
    var keys := ["our_rank", "value_mid", "confidence", "unknown_amounts_count", "unknown_activity_count",
                 "active_prior_liens_count", "missing_rank_info"];
    assert forall i | 0 <= i < |keys| :: keys[i] != "prior_claims_estimate";
    assert g("our_rank") == h("our_rank") && g("value_mid") == h("value_mid") && g("confidence") == h("confidence");
    assert g("missing_rank_info") == h("missing_rank_info");
    hide ToInt, ToReal, Or;
  }

  lemma SameElsewhere(a: Context, b: Context)
    requires b == a.(priorClaims := b.priorClaims)
    ensures forall key: string | key != "prior_claims_estimate" :: ContextGet(a, key) == ContextGet(b, key)
  {
    hide Get, CountOf;
  }

  /** The lower bound really needs non-negative claims: negative ones are not clamped, and
      the score has no lower bound. */
  lemma NegativeClaimsUnbounded(bound: real) returns (c: RiskInputs)
    ensures c.priorClaims.Some? && c.confidence == 1.0
    ensures Score(c, DEFAULT_WEIGHTS) < bound
  {
    var n := if bound < 0.0 then -bound + 2.0 else 2.0;
    c := RiskInputs(1, 1.0, 1.0, Some(-n), 0, 0, false, 0);
    assert PriorClaimsRisk(c) == -n * 100.0;
    var raw := RawScore(c, DEFAULT_WEIGHTS);
    assert raw == -20.0 * n + 1.0;
    RoundNear(raw);
  }

  lemma RoundNear(x: real)
    ensures Round1(x) <= x + 0.1
  {
    assert RoundEven(x * 10.0) as real <= x * 10.0 + 1.0;
  }

  // ---------- recovery ----------

  /** After defaults and conversions. */
  datatype RecoveryInputs = RecoveryInputs(low: real, mid: real, high: real, factor: real, priorClaims: real, costs: real)

  datatype Recovery = Recovery(netLow: real, netMid: real, netHigh: real, okForCost: bool)

  function Net(c: RecoveryInputs, v: real): real {
    Max(0.0, c.factor * v - c.priorClaims - c.costs)
  }

  function Simulate(c: RecoveryInputs, minNet: real): Recovery {
    Recovery(Round2(Net(c, c.low)), Round2(Net(c, c.mid)), Round2(Net(c, c.high)),
             Round2(Net(c, c.mid)) >= minNet)
  }

  lemma Round2Monotone(x: real, y: real)
    requires x <= y
    ensures Round2(x) <= Round2(y)
  {
    RoundEvenMonotone(x * 100.0, y * 100.0);
  }

  /** Nets are never negative, ordered like the estimates when the factor is not negative,
      and raising claims or costs never raises a net nor opens the cost gate. */
  lemma RecoveryOrdered(c: RecoveryInputs, minNet: real, d: RecoveryInputs)
    requires c.factor >= 0.0
    requires c.low <= c.mid <= c.high
    requires d == c.(priorClaims := d.priorClaims, costs := d.costs)
    requires c.priorClaims <= d.priorClaims && c.costs <= d.costs
    ensures var r, s := Simulate(c, minNet), Simulate(d, minNet);
            && 0.0 <= r.netLow <= r.netMid <= r.netHigh
            && s.netLow <= r.netLow && s.netMid <= r.netMid && s.netHigh <= r.netHigh
            && (s.okForCost ==> r.okForCost)
  {
    NetGrows(c, c.low, c.mid);
    NetGrows(c, c.mid, c.high);
    NetShrinks(c, d, c.low);
    NetShrinks(c, d, c.mid);
    NetShrinks(c, d, c.high);
    hide Net, Round2;
    Round2Monotone(0.0, Net(c, c.low));
    Round2Monotone(Net(c, c.low), Net(c, c.mid));
    Round2Monotone(Net(c, c.mid), Net(c, c.high));
    Round2Monotone(Net(d, c.low), Net(c, c.low));
    Round2Monotone(Net(d, c.mid), Net(c, c.mid));
    Round2Monotone(Net(d, c.high), Net(c, c.high));
    RoundZero();
  }

  lemma NetShrinks(c: RecoveryInputs, d: RecoveryInputs, v: real)
    requires d == c.(priorClaims := d.priorClaims, costs := d.costs) && c.priorClaims <= d.priorClaims && c.costs <= d.costs
    ensures 0.0 <= Net(d, v) <= Net(c, v)
  {
  }

  lemma RoundZero()
    ensures Round2(0.0) == 0.0
  {
    RoundKeepsInteger(0);
  }

  lemma NetGrows(c: RecoveryInputs, v: real, w: real)
    requires c.factor >= 0.0 && v <= w
    ensures Net(c, v) <= Net(c, w)
  {
    ScaleMono(c.factor, v, w);
  }
}
