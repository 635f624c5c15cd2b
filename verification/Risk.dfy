/** The risk engine: accumulated weights, multipliers, cap and rounding. Weights and scores
    are real numbers; rounding errors of float64 are not modelled. */
module Risk {
  import opened Text
  import opened Model
  import opened Sorting
  import opened Versions

  datatype Weights = Weights(
    shadowInstanceBase: real, prodAccess: map<string, real>,
    exposurePublic: real, exposureLan: real, exposureLocalhost: real,
    webhookExposed: real, credentialPresent: real,
    nonITOwnerMultiplier: real, outdatedMultiplier: real)

  function DefaultWeights(): Weights {
    Weights(15.0,
            map["payments" := 35.0, "erp_1c" := 30.0, "database" := 28.0, "crm" := 20.0, "cloud" := 15.0,
                "messaging" := 8.0, "other" := 5.0],
            25.0, 12.0, 0.0, 15.0, 10.0, 1.3, 1.25)
  }

  datatype Engine = Engine(w: Weights, vulns: seq<VulnRule>)

  datatype Input = Input(inst: Instance, reach: seq<Reachability>, creds: seq<CredentialRef>, workflows: seq<Workflow>)

  datatype Result = Result(score: real, severity: Severity, factors: seq<RiskFactor>)

  // ----- Numbers -----

  /** Go's conversion of a float to an int truncates toward zero. */
  function Truncate(x: real): int {
    if x >= 0.0 then x.Floor else -((-x).Floor)
  }

  function Round1(v: real): real { Truncate(v * 10.0 + 0.5) as real / 10.0 }

  function Capped(v: real): real { if v > 100.0 then 100.0 else v }

  // ----- Specification -----

  /** A missing key of the weight table reads as 0, and 0 falls back to "other". */
  function Lookup(m: map<string, real>, key: string): real { if key in m then m[key] else 0.0 }

  function CategoryWeight(w: Weights, category: string): real {
    var v := Lookup(w.prodAccess, category);
    if v == 0.0 then Lookup(w.prodAccess, "other") else v
  }

  /** The categories of the edges in order of first occurrence, without those in `seen`. */
  function NewCategories(reach: seq<Reachability>, seen: set<string>): seq<string>
    decreases reach
  {
    if reach == [] then []
    else if reach[0].targetCategory in seen then NewCategories(reach[1..], seen)
    else [reach[0].targetCategory] + NewCategories(reach[1..], seen + {reach[0].targetCategory})
  }

  function CategorySum(w: Weights, categories: seq<string>): real {
    if categories == [] then 0.0 else CategoryWeight(w, categories[0]) + CategorySum(w, categories[1..])
  }

  function ExposureWeight(w: Weights, e: Exposure): real {
    match e
    case Public => w.exposurePublic
    case Lan => w.exposureLan
    case Localhost => w.exposureLocalhost
    case _ => 0.0
  }

  function Webhooks(workflows: seq<Workflow>): nat {
    if workflows == [] then 0 else |workflows[0].webhookTriggers| + Webhooks(workflows[1..])
  }

  function WebhookWeight(w: Weights, in_: Input): real {
    if Webhooks(in_.workflows) > 0 && in_.inst.exposure != Localhost then w.webhookExposed else 0.0
  }

  function CredentialWeight(w: Weights, in_: Input): real {
    if |in_.inst.secretEnvKeys| > 0 || |in_.creds| > 0 then w.credentialPresent else 0.0
  }

  predicate NonITOwner(inst: Instance) {
    !inst.ownerIsIT && inst.owner != "" && inst.owner != "root"
  }

  ghost predicate Outdated(e: Engine, inst: Instance) {
    FirstAdvisory(e.vulns, inst.engine, inst.version) != ""
  }

  /** The sum of the signals before the multipliers. */
  function BaseScore(w: Weights, in_: Input): real {
    w.shadowInstanceBase + CategorySum(w, NewCategories(in_.reach, {})) + ExposureWeight(w, in_.inst.exposure)
    + WebhookWeight(w, in_) + CredentialWeight(w, in_)
  }

  ghost function RawScore(e: Engine, in_: Input): real {
    var base := BaseScore(e.w, in_);
    var owned := if NonITOwner(in_.inst) then base * e.w.nonITOwnerMultiplier else base;
    if Outdated(e, in_.inst) then owned * e.w.outdatedMultiplier else owned
  }

  function FactorSum(factors: seq<RiskFactor>): real {
    if factors == [] then 0.0 else factors[0].weight + FactorSum(factors[1..])
  }

  lemma {:induction false} FactorSumSnoc(factors: seq<RiskFactor>, f: RiskFactor)
    ensures FactorSum(factors + [f]) == FactorSum(factors) + f.weight
  {
    if factors == [] {
      assert [f][1..] == [];
    } else {
      assert (factors + [f])[1..] == factors[1..] + [f];
      FactorSumSnoc(factors[1..], f);
    }
  }

  // ----- The engine -----

  /** The factors in the order in which the engine reports them. */
  function AddFactor(factors: seq<RiskFactor>, key: string, weight: real): seq<RiskFactor> {
    if weight == 0.0 then factors else factors + [RiskFactor(key, weight)]
  }

  function AddCategories(w: Weights, factors: seq<RiskFactor>, categories: seq<string>): seq<RiskFactor>
    decreases categories
  {
    if categories == [] then factors
    else AddCategories(w, AddFactor(factors, "prod_access:" + categories[0], CategoryWeight(w, categories[0])),
                       categories[1..])
  }

  function ExposureKey(e: Exposure): string {
    match e
    case Public => "exposure_public"
    case Lan => "exposure_lan"
    case _ => "exposure_localhost"
  }

  function SignalFactors(w: Weights, in_: Input): seq<RiskFactor> {
    var f1 := AddFactor([], "shadow_instance", w.shadowInstanceBase);
    var f2 := AddCategories(w, f1, NewCategories(in_.reach, {}));
    var f3 := AddFactor(f2, ExposureKey(in_.inst.exposure), ExposureWeight(w, in_.inst.exposure));
    var f4 := AddFactor(f3, "webhook_exposed", WebhookWeight(w, in_));
    AddFactor(f4, "credential_present", CredentialWeight(w, in_))
  }

  /** A multiplier is reported even when it changes nothing. */
  ghost function Factors(e: Engine, in_: Input): seq<RiskFactor> {
    var base := BaseScore(e.w, in_);
    var f1 := SignalFactors(e.w, in_);
    var owned := if NonITOwner(in_.inst) then base * e.w.nonITOwnerMultiplier else base;
    var f2 := if NonITOwner(in_.inst) then f1 + [RiskFactor("non_it_owner", owned - base)] else f1;
    if Outdated(e, in_.inst) then f2 + [RiskFactor("outdated_version", owned * e.w.outdatedMultiplier - owned)] else f2
  }

  ghost function ScoreOf(e: Engine, in_: Input): Result {
    var score := Capped(RawScore(e, in_));
    Result(Round1(score), SeverityFromScore(score), Factors(e, in_))
  }

  method Add(score: real, factors: seq<RiskFactor>, key: string, w: real)
    returns (score': real, factors': seq<RiskFactor>)
    ensures factors' == AddFactor(factors, key, w)
    ensures score' == score + w
    ensures score == FactorSum(factors) ==> score' == FactorSum(factors')
  {
    if w == 0.0 {
      return score, factors;
    }
    FactorSumSnoc(factors, RiskFactor(key, w));
    return score + w, factors + [RiskFactor(key, w)];
  }

  method AddReachability(w: Weights, reach: seq<Reachability>, score0: real, factors0: seq<RiskFactor>)
    returns (score: real, factors: seq<RiskFactor>)
    requires score0 == FactorSum(factors0)
    ensures score == FactorSum(factors)
    ensures score == score0 + CategorySum(w, NewCategories(reach, {}))
    ensures factors == AddCategories(w, factors0, NewCategories(reach, {}))
  {
    score, factors := score0, factors0;
    var seenCat: set<string> := {};
    for k := 0 to |reach|
      invariant score == FactorSum(factors)
      invariant score + CategorySum(w, NewCategories(reach[k..], seenCat))
             == score0 + CategorySum(w, NewCategories(reach, {}))
      invariant AddCategories(w, factors, NewCategories(reach[k..], seenCat))
             == AddCategories(w, factors0, NewCategories(reach, {}))
    {
      var category := reach[k].targetCategory;
      assert reach[k..][1..] == reach[k + 1..];
      if category !in seenCat {
        var rest := NewCategories(reach[k + 1..], seenCat + {category});
        DropFirst([category], rest);
        seenCat := seenCat + {category};
        var v := Lookup(w.prodAccess, category);
        if v == 0.0 {
          v := Lookup(w.prodAccess, "other");
        }
        score, factors := Add(score, factors, "prod_access:" + category, v);
      }
    }
    assert reach[|reach|..] == [];
  }

  method AddSignals(w: Weights, in_: Input) returns (score: real, factors: seq<RiskFactor>)
    ensures score == BaseScore(w, in_) == FactorSum(factors)
    ensures factors == SignalFactors(w, in_)
  {
    var inst := in_.inst;
    score, factors := Add(0.0, [], "shadow_instance", w.shadowInstanceBase);
    score, factors := AddReachability(w, in_.reach, score, factors);
    match inst.exposure {
      case Public => score, factors := Add(score, factors, "exposure_public", w.exposurePublic);
      case Lan => score, factors := Add(score, factors, "exposure_lan", w.exposureLan);
      case Localhost => score, factors := Add(score, factors, "exposure_localhost", w.exposureLocalhost);
      case _ =>
    }
    var webhooks := 0;
    for k := 0 to |in_.workflows|
      invariant webhooks + Webhooks(in_.workflows[k..]) == Webhooks(in_.workflows)
    {
      assert in_.workflows[k..][1..] == in_.workflows[k + 1..];
      webhooks := webhooks + |in_.workflows[k].webhookTriggers|;
    }
    assert in_.workflows[|in_.workflows|..] == [];
    if webhooks > 0 && inst.exposure != Localhost {
      score, factors := Add(score, factors, "webhook_exposed", w.webhookExposed);
    }
    if |inst.secretEnvKeys| > 0 || |in_.creds| > 0 {
      score, factors := Add(score, factors, "credential_present", w.credentialPresent);
    }
  }

  method Multiply(score: real, factors: seq<RiskFactor>, key: string, multiplier: real)
    returns (score': real, factors': seq<RiskFactor>)
    requires score == FactorSum(factors)
    ensures score' == score * multiplier == FactorSum(factors')
    ensures factors' == factors + [RiskFactor(key, score * multiplier - score)]
  {
    score' := score * multiplier;
    factors' := factors + [RiskFactor(key, score' - score)];
    FactorSumSnoc(factors, RiskFactor(key, score' - score));
  }

  /** Score: the reported score is the rounded, capped sum of the reported factors. */
  method Score(e: Engine, in_: Input) returns (r: Result)
    ensures r == ScoreOf(e, in_)
    ensures r.score == Round1(Capped(FactorSum(r.factors)))
    ensures r.severity == SeverityFromScore(Capped(FactorSum(r.factors)))
  {
    hide BaseScore, SignalFactors, FirstAdvisory, FactorSum, Round1, SeverityFromScore;
    var inst := in_.inst;
    var score, factors := AddSignals(e.w, in_);
    if !inst.ownerIsIT && inst.owner != "" && inst.owner != "root" {
      score, factors := Multiply(score, factors, "non_it_owner", e.w.nonITOwnerMultiplier);
    }
    var advisory := MatchVuln(e.vulns, inst.engine, inst.version);
    if advisory != "" {
      score, factors := Multiply(score, factors, "outdated_version", e.w.outdatedMultiplier);
    }
    assert score == RawScore(e, in_);
    assert factors == Factors(e, in_);
    var capped := score;
    if capped > 100.0 {
      capped := 100.0;
    }
    return Result(Round1(capped), SeverityFromScore(capped), factors);
  }

  // ----- Reachability counts as a set of categories -----

  function Categories(reach: seq<Reachability>): set<string> {
    set r | r in reach :: r.targetCategory
  }

  lemma {:induction false} NewCategoriesAre(reach: seq<Reachability>, seen: set<string>)
    ensures Distinct(NewCategories(reach, seen))
    ensures forall c :: c in NewCategories(reach, seen) <==> c in Categories(reach) && c !in seen
    decreases reach
  {
    if reach != [] {
      var c := reach[0].targetCategory;
      assert Categories(reach) == {c} + Categories(reach[1..]) by {
        assert reach == [reach[0]] + reach[1..];
      }
      NewCategoriesAre(reach[1..], seen);
      NewCategoriesAre(reach[1..], seen + {c});
    }
  }

  function Without(s: seq<string>, x: string): seq<string> {
    if s == [] then [] else if s[0] == x then s[1..] else [s[0]] + Without(s[1..], x)
  }

  lemma {:induction false} WithoutIs(w: Weights, s: seq<string>, x: string)
    requires x in s && Distinct(s)
    ensures Distinct(Without(s, x))
    ensures forall y :: y in Without(s, x) <==> y in s && y != x
    ensures CategorySum(w, s) == CategoryWeight(w, x) + CategorySum(w, Without(s, x))
  {
    assert s == [s[0]] + s[1..];
    if s[0] == x {
      assert x !in s[1..];
    } else {
      WithoutIs(w, s[1..], x);
      var t := Without(s[1..], x);
      DropFirst([s[0]], t);
      assert s[0] !in s[1..];
      assert forall j :: 0 <= j < |t| ==> t[j] in t;
    }
  }

  ghost predicate NonNegative(w: Weights) {
    && w.shadowInstanceBase >= 0.0 && w.exposurePublic >= 0.0 && w.exposureLan >= 0.0 && w.exposureLocalhost >= 0.0
    && w.webhookExposed >= 0.0 && w.credentialPresent >= 0.0
    && w.nonITOwnerMultiplier >= 0.0 && w.outdatedMultiplier >= 0.0
    && forall k :: k in w.prodAccess ==> w.prodAccess[k] >= 0.0
  }

  /** More categories never weigh less; with equal sets in both directions, the same. */
  lemma {:induction false} CategorySumMonotone(w: Weights, a: seq<string>, b: seq<string>)
    requires Distinct(a) && Distinct(b)
    requires forall c :: c in a ==> c in b
    ensures NonNegative(w) ==> CategorySum(w, a) <= CategorySum(w, b)
    ensures (forall c :: c in b ==> c in a) ==> CategorySum(w, a) == CategorySum(w, b)
    decreases |b|
  {
    if a == [] {
      if NonNegative(w) { CategorySumNonNegative(w, b); }
      if forall c :: c in b ==> c in a {
        if b != [] { NonemptyHas(b); }
      }
    } else {
      assert a[0] in b;
      WithoutIs(w, b, a[0]);
      var rest := Without(b, a[0]);
      assert |rest| < |b| by { WithoutShorter(b, a[0]); }
      forall c | c in a[1..] ensures c in rest {
        assert c in b;
      }
      assert a == [a[0]] + a[1..];
      CategorySumMonotone(w, a[1..], rest);
    }
  }

  lemma NonemptyHas(s: seq<string>)
    requires s != []
    ensures exists c :: c in s
  {
    assert s[0] in s;
  }

  lemma {:induction false} WithoutShorter(s: seq<string>, x: string)
    requires x in s
    ensures |Without(s, x)| < |s|
  {
    if s[0] != x { WithoutShorter(s[1..], x); }
  }

  lemma {:induction false} CategorySumNonNegative(w: Weights, s: seq<string>)
    requires NonNegative(w)
    ensures CategorySum(w, s) >= 0.0
  {
    if s != [] { CategorySumNonNegative(w, s[1..]); }
  }

  /** The score depends on the edges only through their set of categories. */
  lemma OnlyCategoriesCount(e: Engine, a: Input, b: Input)
    requires b == a.(reach := b.reach) && Categories(a.reach) == Categories(b.reach)
    ensures ScoreOf(e, a).score == ScoreOf(e, b).score && ScoreOf(e, a).severity == ScoreOf(e, b).severity
  {
    NewCategoriesAre(a.reach, {});
    NewCategoriesAre(b.reach, {});
    CategorySumMonotone(e.w, NewCategories(a.reach, {}), NewCategories(b.reach, {}));
    assert BaseScore(e.w, a) == BaseScore(e.w, b);
    hide BaseScore, Outdated, NonITOwner, Round1, SeverityFromScore;
    assert RawScore(e, a) == RawScore(e, b);
  }

  // ----- Bounds and monotonicity -----

  lemma RoundMonotone(x: real, y: real)
    requires 0.0 <= x <= y
    ensures 0.0 <= Round1(x) <= Round1(y)
  {
    var n, m := (x * 10.0 + 0.5).Floor, (y * 10.0 + 0.5).Floor;
    assert 0 <= n <= m;
    TenthsMonotone(n, m);
  }

  lemma TenthsMonotone(n: int, m: int)
    requires 0 <= n <= m
    ensures 0.0 <= n as real / 10.0 <= m as real / 10.0
  {
  }

  /** Rounding gives a multiple of one tenth, at most half a tenth away, and the upper one of two
      that are equally near. */
  lemma RoundsToNearest(v: real)
    requires v >= 0.0
    ensures (Round1(v) * 10.0).Floor as real == Round1(v) * 10.0
    ensures -0.05 <= v - Round1(v) < 0.05
  {
    var n := (v * 10.0 + 0.5).Floor;
    assert Round1(v) == n as real / 10.0;
  }

  lemma BaseNonNegative(w: Weights, in_: Input)
    requires NonNegative(w)
    ensures BaseScore(w, in_) >= 0.0
  {
    CategorySumNonNegative(w, NewCategories(in_.reach, {}));
  }

  lemma ScaleMonotone(x: real, y: real, m: real)
    requires 0.0 <= x <= y && m >= 0.0
    ensures 0.0 <= x * m <= y * m
  {
  }

  lemma RawMonotone(e: Engine, a: Input, b: Input)
    requires NonNegative(e.w)
    requires BaseScore(e.w, a) <= BaseScore(e.w, b)
    requires NonITOwner(a.inst) == NonITOwner(b.inst) && Outdated(e, a.inst) == Outdated(e, b.inst)
    ensures 0.0 <= RawScore(e, a) <= RawScore(e, b)
  {
    hide BaseScore, Outdated, NonITOwner;
    BaseNonNegative(e.w, a);
    var x, y := BaseScore(e.w, a), BaseScore(e.w, b);
    ScaleMonotone(x, y, e.w.nonITOwnerMultiplier);
    ScaleMonotone(x, y, e.w.outdatedMultiplier);
    ScaleMonotone(x * e.w.nonITOwnerMultiplier, y * e.w.nonITOwnerMultiplier, e.w.outdatedMultiplier);
  }

  /** With nonnegative weights and multipliers every score lies between 0 and 100. */
  lemma ScoreRange(e: Engine, in_: Input)
    requires NonNegative(e.w)
    ensures 0.0 <= ScoreOf(e, in_).score <= 100.0
  {
    RawMonotone(e, in_, in_);
    RoundMonotone(Capped(RawScore(e, in_)), 100.0);
    assert Round1(100.0) == 100.0;
  }

  ghost predicate OrderedExposure(w: Weights) {
    w.exposureLocalhost <= w.exposureLan <= w.exposurePublic
  }

  /** `b` sees at least what `a` sees: edges, credentials, webhooks and exposure. */
  ghost predicate Grows(a: Input, b: Input) {
    && b.inst == a.inst.(exposure := b.inst.exposure, secretEnvKeys := b.inst.secretEnvKeys)
    && Categories(a.reach) <= Categories(b.reach)
    && (Webhooks(a.workflows) > 0 ==> Webhooks(b.workflows) > 0)
    && (|a.inst.secretEnvKeys| > 0 || |a.creds| > 0 ==> |b.inst.secretEnvKeys| > 0 || |b.creds| > 0)
    && 1 <= ExposureRank(a.inst.exposure) <= ExposureRank(b.inst.exposure)
  }

  lemma BaseMonotone(w: Weights, a: Input, b: Input)
    requires NonNegative(w) && OrderedExposure(w) && Grows(a, b)
    ensures BaseScore(w, a) <= BaseScore(w, b)
  {
    NewCategoriesAre(a.reach, {});
    NewCategoriesAre(b.reach, {});
    CategorySumMonotone(w, NewCategories(a.reach, {}), NewCategories(b.reach, {}));
    hide NewCategories, CategorySum, Webhooks;
    assert ExposureWeight(w, a.inst.exposure) <= ExposureWeight(w, b.inst.exposure);
    assert WebhookWeight(w, a) <= WebhookWeight(w, b);
    assert CredentialWeight(w, a) <= CredentialWeight(w, b);
  }

  lemma SeverityMonotone(x: real, y: real)
    requires x <= y
    ensures SeverityRank(SeverityFromScore(x)) <= SeverityRank(SeverityFromScore(y))
  {
  }

  /** More evidence never lowers the score or the severity. */
  lemma ScoreMonotone(e: Engine, a: Input, b: Input)
    requires NonNegative(e.w) && OrderedExposure(e.w) && Grows(a, b)
    ensures ScoreOf(e, a).score <= ScoreOf(e, b).score
    ensures SeverityRank(ScoreOf(e, a).severity) <= SeverityRank(ScoreOf(e, b).severity)
  {
    BaseMonotone(e.w, a, b);
    hide BaseScore, Webhooks, NewCategories, RawScore, Round1, SeverityFromScore;
    RawMonotone(e, a, b);
    RoundMonotone(Capped(RawScore(e, a)), Capped(RawScore(e, b)));
    SeverityMonotone(Capped(RawScore(e, a)), Capped(RawScore(e, b)));
  }

  lemma DefaultsQualify()
    ensures NonNegative(DefaultWeights()) && OrderedExposure(DefaultWeights())
  {
  }

  /** The severity is taken before rounding. The rounded score shows a lower severity exactly
      when the score is positive and below 0.05, and never more than one step higher. */
  lemma RoundedSeverity(v: real)
    requires 0.0 <= v <= 100.0
    ensures SeverityRank(SeverityFromScore(Round1(v))) < SeverityRank(SeverityFromScore(v)) <==> 0.0 < v < 0.05
    ensures SeverityRank(SeverityFromScore(Round1(v))) <= SeverityRank(SeverityFromScore(v)) + 1
  {
    var n := (v * 10.0 + 0.5).Floor;
    assert Round1(v) == n as real / 10.0;
    assert n as real <= v * 10.0 + 0.5 < n as real + 1.0;
    assert v >= 80.0 ==> n >= 800;
    assert v >= 60.0 ==> n >= 600;
    assert v >= 35.0 ==> n >= 350;
    assert v >= 0.05 <==> n >= 1;
    assert v < 60.0 ==> n <= 600;
    assert v < 35.0 ==> n <= 350;
    assert v < 80.0 ==> n <= 800;
  }

  /** Whether the score that a finding shows belongs to a lower severity than the one shown. */
  ghost predicate ShowsLower(e: Engine, in_: Input) {
    SeverityRank(SeverityFromScore(ScoreOf(e, in_).score)) < SeverityRank(ScoreOf(e, in_).severity)
  }

  /** With nonnegative weights a finding shows too low a score exactly when its raw score is
      positive and below 0.05, and never one that is more than a step too high. */
  lemma ShownSeverity(e: Engine, in_: Input)
    requires NonNegative(e.w)
    ensures ShowsLower(e, in_) <==> 0.0 < RawScore(e, in_) < 0.05
    ensures SeverityRank(SeverityFromScore(ScoreOf(e, in_).score)) <= SeverityRank(ScoreOf(e, in_).severity) + 1
  {
    RawMonotone(e, in_, in_);
    hide RawScore, Factors, Round1, SeverityFromScore;
    RoundedSeverity(Capped(RawScore(e, in_)));
  }

  /** The default weights never reach that band. */
  lemma DefaultsNeverShowLower(e: Engine, in_: Input)
    requires e.w == DefaultWeights()
    ensures RawScore(e, in_) >= 15.0 && !ShowsLower(e, in_)
  {
    DefaultsQualify();
    CategorySumNonNegative(e.w, NewCategories(in_.reach, {}));
    assert BaseScore(e.w, in_) >= 15.0;
    hide BaseScore, NonITOwner, Outdated;
    ShownSeverity(e, in_);
  }

  /** Configured weights that do: every instance without edges scores 0.04, which is low, and
      shows 0.0, which is info. */
  function TinyWeights(): Weights { Weights(0.04, map[], 0.0, 0.0, 0.0, 0.0, 0.0, 1.0, 1.0) }

  lemma TinyWeightsShowLower(vulns: seq<VulnRule>, in_: Input)
    requires in_.reach == []
    ensures NonNegative(TinyWeights()) && ShowsLower(Engine(TinyWeights(), vulns), in_)
    ensures ScoreOf(Engine(TinyWeights(), vulns), in_).score == 0.0
  {
    var e := Engine(TinyWeights(), vulns);
    assert BaseScore(e.w, in_) == 0.04;
    hide BaseScore, NonITOwner, Outdated;
    assert RawScore(e, in_) == 0.04;
    ShownSeverity(e, in_);
    assert (0.04 * 10.0 + 0.5).Floor == 0;
  }

  // ----- Sorting factors -----

  /** Inserts before the first factor of smaller weight. */
  function InsertFactor(f: RiskFactor, sorted: seq<RiskFactor>): seq<RiskFactor> {
    if sorted == [] || f.weight >= sorted[0].weight then [f] + sorted
    else [sorted[0]] + InsertFactor(f, sorted[1..])
  }

  /** The stable sort by descending weight. */
  function SortFactors(fs: seq<RiskFactor>): seq<RiskFactor> {
    if fs == [] then [] else InsertFactor(fs[0], SortFactors(fs[1..]))
  }

  ghost predicate Descending(fs: seq<RiskFactor>) {
    forall i, j :: 0 <= i < j < |fs| ==> fs[i].weight >= fs[j].weight
  }

  /** The factors of one weight, in order. */
  function OfWeight(fs: seq<RiskFactor>, w: real): seq<RiskFactor> {
    if fs == [] then []
    else if fs[0].weight == w then [fs[0]] + OfWeight(fs[1..], w)
    else OfWeight(fs[1..], w)
  }

  lemma {:induction false} InsertDescending(f: RiskFactor, s: seq<RiskFactor>)
    requires Descending(s)
    ensures Descending(InsertFactor(f, s))
    ensures forall x :: x in InsertFactor(f, s) ==> x == f || x in s
  {
    if s != [] && f.weight < s[0].weight {
      InsertDescending(f, s[1..]);
      var t := InsertFactor(f, s[1..]);
      assert forall i :: 0 <= i < |t| ==> t[i] in t;
      assert s == [s[0]] + s[1..];
    }
  }

  lemma {:induction false} InsertOfWeight(f: RiskFactor, s: seq<RiskFactor>, w: real)
    ensures OfWeight(InsertFactor(f, s), w) == OfWeight([f] + s, w)
  {
    DropFirst([f], s);
    if s != [] && f.weight < s[0].weight {
      InsertOfWeight(f, s[1..], w);
      DropFirst([s[0]], InsertFactor(f, s[1..]));
      DropFirst([f], s[1..]);
    }
  }

  /** The result is in descending order and keeps the factors of every weight in their
      order: a stable permutation. */
  lemma {:induction false} SortFactorsStable(fs: seq<RiskFactor>, w: real)
    ensures Descending(SortFactors(fs))
    ensures OfWeight(SortFactors(fs), w) == OfWeight(fs, w)
  {
    if fs != [] {
      SortFactorsStable(fs[1..], w);
      InsertDescending(fs[0], SortFactors(fs[1..]));
      InsertOfWeight(fs[0], SortFactors(fs[1..]), w);
      DropFirst([fs[0]], SortFactors(fs[1..]));
    }
  }
}
