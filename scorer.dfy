/**
 * The liability scorer: three rule tables turn the context of an upload into per-factor points
 * for the user, the platform and the AI architect, and `compute_liability` turns the three raw
 * scores into whole percentages that add up to 100.
 *
 * Points are whole hundredths (0.35 is 35), so every rule is exact integer arithmetic. Python's
 * `round` is round-half-to-even on the rational `100 * raw / total`.
 */
module Scorer {
  import opened Json
  import Text

  /**
   * The context dict `compute_liability` receives; a missing key is `None` and each rule
   * table reads it with the same default as the source's `ctx.get`.
   */
  datatype Context = Context(
    disclosureStripped: Option<bool>,
    contentDistributed: Option<bool>,
    victimImpersonated: Option<bool>,
    repeatOffender: Option<bool>,
    platformName: Option<string>,
    takedownRequested: Option<bool>,
    responseHours: Option<real>,
    estimatedReach: Option<int>,
    modelName: Option<string>)

  /** One model registry entry; a missing key is `None`. */
  datatype ModelEntry = ModelEntry(
    hasWatermark: Option<bool>,
    hasContentFilter: Option<bool>,
    accessType: Option<string>,
    knownIncidents: Option<int>)

  /** The model registry loaded from `model_registry.json`. */
  type Registry = map<string, ModelEntry>

  const UnknownModel: string := "Unknown Model"

  /** A scored factor: its points, its stated maximum (both in hundredths) and its legal basis. */
  datatype Factor = Factor(name: string, points: nat, max: nat, legalBasis: string)

  /** What each rule table returns: the raw score and the factors in the source's order. */
  datatype Scored = Scored(raw: nat, factors: seq<Factor>)

  function SumPoints(fs: seq<Factor>): nat {
    if |fs| == 0 then 0 else fs[0].points + SumPoints(fs[1..])
  }

  predicate WithinMax(fs: seq<Factor>) {
    forall i :: 0 <= i < |fs| ==> fs[i].points <= fs[i].max
  }

  function Names(fs: seq<Factor>): seq<string> {
    seq(|fs|, i requires 0 <= i < |fs| => fs[i].name)
  }

  function Maxima(fs: seq<Factor>): seq<nat> {
    seq(|fs|, i requires 0 <= i < |fs| => fs[i].max)
  }

  // ----- User -----

  function IntentPoints(disclosureStripped: bool, contentDistributed: bool): nat {
    if disclosureStripped then 35 else if contentDistributed then 20 else 5
  }

  function ActionPoints(contentDistributed: bool, disclosureStripped: bool): nat {
    if contentDistributed && disclosureStripped then 30 else if contentDistributed then 15 else 5
  }

  function ConsentPoints(victimImpersonated: bool): nat {
    if victimImpersonated then 20 else 0
  }

  function PriorPoints(repeatOffender: bool): nat {
    if repeatOffender then 15 else 2
  }

  /** `_score_user`: intent, action, consent and prior offences. */
  function ScoreUser(ctx: Context): (r: Scored)
    ensures Names(r.factors) == ["intent", "action", "consent", "prior_offences"]
    ensures Maxima(r.factors) == [35, 30, 20, 15]
    ensures WithinMax(r.factors)
    ensures r.raw == SumPoints(r.factors)
    ensures 12 <= r.raw <= 100
  {
    var ds := ctx.disclosureStripped.GetOr(false);
    var cd := ctx.contentDistributed.GetOr(false);
    var vi := ctx.victimImpersonated.GetOr(false);
    var ro := ctx.repeatOffender.GetOr(false);
    var intent := IntentPoints(ds, cd);
    var action := ActionPoints(cd, ds);
    var consent := ConsentPoints(vi);
    var prior := PriorPoints(ro);
    var fs := [
      Factor("intent", intent, 35, "IPC \U{00A7}66E / IT Act \U{00A7}72A"),
      Factor("action", action, 30, "IPC \U{00A7}500 / Defamation Act"),
      Factor("consent", consent, 20, "IT Act \U{00A7}43A"),
      Factor("prior_offences", prior, 15, "CrPC \U{00A7}110 / Repeat Offender doctrine")];
    SumFour(fs);
    Scored(intent + action + consent + prior, fs)
  }

  // ----- Platform -----

  const DetectionTable: map<string, nat> :=
    map["YouTube" := 5, "Instagram" := 10, "WhatsApp" := 20, "Telegram" := 25, "X" := 15]

  const HarborTable: map<string, nat> :=
    map["YouTube" := 0, "Instagram" := 0, "WhatsApp" := 7, "Telegram" := 10, "X" := 5]

  function DetectionPoints(platform: string): nat {
    if platform in DetectionTable then DetectionTable[platform] else 25
  }

  function ResponsePoints(takedownRequested: bool, responseHours: real): nat {
    if !takedownRequested then 0
    else if responseHours <= 12.0 then 0
    else if responseHours <= 24.0 then 10
    else if responseHours <= 36.0 then 20
    else 35
  }

  function AmplificationPoints(estimatedReach: int): nat {
    if estimatedReach < 1000 then 5 else if estimatedReach < 100000 then 15 else 25
  }

  function HarborPoints(platform: string): nat {
    if platform in HarborTable then HarborTable[platform] else 15
  }

  /** `_score_platform`: detection capability, response time, amplification, safe-harbour erosion. */
  function ScorePlatform(ctx: Context): (r: Scored)
    ensures Names(r.factors) == ["detection_capability", "response_time", "amplification", "safe_harbor_erosion"]
    ensures Maxima(r.factors) == [25, 35, 25, 15]
    ensures WithinMax(r.factors)
    ensures r.raw == SumPoints(r.factors)
    ensures 10 <= r.raw <= 100
  {
    var platform := ctx.platformName.GetOr("Other");
    var takedown := ctx.takedownRequested.GetOr(false);
    var hours := ctx.responseHours.GetOr(999.0);
    var reach := ctx.estimatedReach.GetOr(0);
    var detection := DetectionPoints(platform);
    var response := ResponsePoints(takedown, hours);
    var amp := AmplificationPoints(reach);
    var harbor := HarborPoints(platform);
    var fs := [
      Factor("detection_capability", detection, 25, "IT Rules 2021 Rule 4(4)"),
      Factor("response_time", response, 35, "IT Rules 2021 Rule 4(1)(d) — 36h takedown"),
      Factor("amplification", amp, 25, "EU DSA Art. 34 — Systemic risk"),
      Factor("safe_harbor_erosion", harbor, 15, "IT Act \U{00A7}79 Safe Harbor conditions")];
    SumFour(fs);
    Scored(detection + response + amp + harbor, fs)
  }

  // ----- Architect -----

  /** `_MODEL_REGISTRY.get(model_name, _MODEL_REGISTRY["Unknown Model"])`. */
  function RegistryEntry(registry: Registry, modelName: string): ModelEntry
    requires UnknownModel in registry
  {
    if modelName in registry then registry[modelName] else registry[UnknownModel]
  }

  function SafeguardPoints(hasWatermark: bool, hasContentFilter: bool): nat {
    if hasWatermark && hasContentFilter then 0 else if hasWatermark then 15 else 40
  }

  const AccessTable: map<string, nat> :=
    map["api_gated_with_identity" := 0, "api_gated_basic" := 10, "open_source" := 30]

  function AccessPoints(accessType: string): nat {
    if accessType in AccessTable then AccessTable[accessType] else 30
  }

  function HistoryPoints(knownIncidents: int): nat {
    if knownIncidents == 0 then 0
    else if knownIncidents <= 10 then 10
    else if knownIncidents <= 50 then 20
    else 30
  }

  /**
   * `_score_architect`: safeguards, access control and incident history of the registry entry
   * of the named model. The source indexes `"Unknown Model"` eagerly, so that key must exist.
   */
  function ScoreArchitect(ctx: Context, registry: Registry): (r: Scored)
    requires UnknownModel in registry
    ensures Names(r.factors) == ["safeguards", "access_control", "incident_history"]
    ensures Maxima(r.factors) == [40, 30, 30]
    ensures WithinMax(r.factors)
    ensures r.raw == SumPoints(r.factors)
    ensures r.raw <= 100
  {
    var entry := RegistryEntry(registry, ctx.modelName.GetOr(UnknownModel));
    var safeguard := SafeguardPoints(entry.hasWatermark.GetOr(false), entry.hasContentFilter.GetOr(false));
    var access := AccessPoints(entry.accessType.GetOr("open_source"));
    var history := HistoryPoints(entry.knownIncidents.GetOr(0));
    var fs := [
      Factor("safeguards", safeguard, 40, "EU AI Act Art. 9 — Risk management"),
      Factor("access_control", access, 30, "EU AI Act Art. 13 — Transparency"),
      Factor("incident_history", history, 30, "Product Liability — negligent design")];
    SumThree(fs);
    Scored(safeguard + access + history, fs)
  }

  /** Sum, names and maxima of a four-element factor list, unfolded. */
  lemma SumFour(fs: seq<Factor>)
    requires |fs| == 4
    ensures SumPoints(fs) == fs[0].points + fs[1].points + fs[2].points + fs[3].points
    ensures Names(fs) == [fs[0].name, fs[1].name, fs[2].name, fs[3].name]
    ensures Maxima(fs) == [fs[0].max, fs[1].max, fs[2].max, fs[3].max]
  {
    assert fs[3..][0] == fs[3] && fs[3..][1..] == [];
    assert fs[2..][0] == fs[2] && fs[2..][1..] == fs[3..];
    assert fs[1..][0] == fs[1] && fs[1..][1..] == fs[2..];
    assert SumPoints(fs[1..]) == fs[1].points + SumPoints(fs[2..]);
    assert SumPoints(fs[2..]) == fs[2].points + SumPoints(fs[3..]);
  }

  /** Sum, names and maxima of a three-element factor list, unfolded. */
  lemma SumThree(fs: seq<Factor>)
    requires |fs| == 3
    ensures SumPoints(fs) == fs[0].points + fs[1].points + fs[2].points
    ensures Names(fs) == [fs[0].name, fs[1].name, fs[2].name]
    ensures Maxima(fs) == [fs[0].max, fs[1].max, fs[2].max]
  {
    assert fs[2..][0] == fs[2] && fs[2..][1..] == [];
    assert fs[1..][0] == fs[1] && fs[1..][1..] == fs[2..];
    assert SumPoints(fs[1..]) == fs[1].points + SumPoints(fs[2..]);
  }

  // ----- Percentages -----

  /**
   * Python's `round(n / d)` for a rational with positive denominator: the nearest integer,
   * and the even one of the two when `n / d` lies exactly half-way.
   */
  function RoundHalfEven(n: int, d: int): (r: int)
    requires d > 0
    ensures 2 * (d * r - n) <= d && 2 * (n - d * r) <= d
    ensures (2 * (d * r - n) == d || 2 * (n - d * r) == d) ==> r % 2 == 0
  {
    var q := n / d;
    var m := n % d;
    assert n == d * q + m;
    if 2 * m < d then q
    else if 2 * m > d then q + 1
    else if q % 2 == 0 then q
    else q + 1
  }

  /** Nearest-integer rounding of `n / d` stays in `[0, 100]` when the fraction does. */
  lemma RoundedShareInRange(n: int, d: int)
    requires d > 0 && 0 <= n <= 100 * d
    ensures 0 <= RoundHalfEven(n, d) <= 100
  {
    var r := RoundHalfEven(n, d);
    NearestWithinBounds(n, d, r, d * r);
  }

  /** An integer within one half of `n / d`, for `n / d` in `[0, 100]`, is in `[0, 100]`. */
  lemma NearestWithinBounds(n: int, d: int, r: int, e: int)
    requires d > 0 && 0 <= n <= 100 * d
    requires e == d * r && 2 * (e - n) <= d && 2 * (n - e) <= d
    ensures 0 <= r <= 100
  {
    ProductOutside(d, r);
  }

  /** Multiplying by a positive `d` keeps an integer outside `[0, 100]` outside `[0, 100 * d]`. */
  lemma ProductOutside(d: int, r: int)
    requires d > 0
    ensures r >= 101 ==> d * r >= 101 * d
    ensures r <= -1 ==> d * r <= -d
  {
    if r >= 101 {
      MulLe(d, 101, r);
    }
    if r <= -1 {
      MulLe(d, r, -1);
    }
  }

  /** Multiplying by a positive factor keeps `<=`. */
  lemma MulLe(t: int, x: int, y: int)
    requires t > 0 && x <= y
    ensures t * x <= t * y
  {
    assert t * y - t * x == t * (y - x);
  }

  /** A positive factor can be cancelled from both sides of `<`. */
  lemma LtFromProduct(t: int, x: int, k: int)
    requires t > 0 && t * x < t * k
    ensures x < k
  {
    assert t * (x - k) == t * x - t * k;
  }

  /** The three percentages; `total` is whole hundredths, so `total == 0` is exact. */
  datatype Shares = Shares(user: int, platform: int, architect: int)

  /**
   * The percentage split of `compute_liability`: the user and platform shares are their rounded
   * shares of the total, and the architect takes whatever makes the three add up to 100.
   */
  function Percentages(u: nat, p: nat, a: nat): (r: Shares)
    ensures r.user + r.platform + r.architect == 100
    ensures u + p + a == 0 ==> r == Shares(33, 33, 34)
    ensures var t := u + p + a;
      t > 0 ==>
        2 * (t * r.user - 100 * u) <= t && 2 * (100 * u - t * r.user) <= t
        && ((2 * (t * r.user - 100 * u) == t || 2 * (100 * u - t * r.user) == t) ==> r.user % 2 == 0)
    ensures var t := u + p + a;
      t > 0 ==>
        2 * (t * r.platform - 100 * p) <= t && 2 * (100 * p - t * r.platform) <= t
        && ((2 * (t * r.platform - 100 * p) == t || 2 * (100 * p - t * r.platform) == t) ==> r.platform % 2 == 0)
    ensures r.architect == 100 - r.user - r.platform
  {
    var total := u + p + a;
    if total == 0 then Shares(33, 33, 34)
    else
      var up := RoundHalfEven(100 * u, total);
      var pp := RoundHalfEven(100 * p, total);
      Shares(up, pp, 100 - up - pp)
  }

  /**
   * With a positive total every percentage lies in `[0, 100]`; in particular the architect's
   * remainder is never negative: the rounded user and platform shares can overshoot only by
   * two exact halves, which round-half-even sends one up and one down.
   */
  lemma {:induction false} PercentagesInRange(u: nat, p: nat, a: nat)
    requires u + p + a > 0
    ensures var s := Percentages(u, p, a);
      0 <= s.user <= 100 && 0 <= s.platform <= 100 && 0 <= s.architect <= 100
  {
    var t := u + p + a;
    var up := RoundHalfEven(100 * u, t);
    var pp := RoundHalfEven(100 * p, t);
    RoundedShareInRange(100 * u, t);
    RoundedShareInRange(100 * p, t);
    RoundedPairAtMost100(t, u, p, a, up, pp, t * up - 100 * u, t * pp - 100 * p);
  }

  /**
   * The arithmetic behind PercentagesInRange: two nearest-integer roundings (ties to even) of
   * shares that add up to at most 100 add up to at most 100.
   */
  lemma RoundedPairAtMost100(t: int, u: nat, p: nat, a: nat, up: int, pp: int, eu: int, ep: int)
    requires t == u + p + a && t > 0
    requires eu == t * up - 100 * u && ep == t * pp - 100 * p
    requires 2 * eu <= t && 2 * ep <= t
    requires 2 * eu == t ==> up % 2 == 0
    requires 2 * ep == t ==> pp % 2 == 0
    ensures up + pp <= 100
  {
    assert t * (up + pp) == t * up + t * pp;
    assert t * (up + pp) == eu + ep + 100 * t - 100 * a;
    if a > 0 {
      assert t * (up + pp) < t * 101;
      LtFromProduct(t, up + pp, 101);
    } else {
      assert t * (up + pp) < t * 102;
      LtFromProduct(t, up + pp, 102);
      // reaching 101 would take two exact halves (eu and ep are the rounding errors), that is
      // two even roundings
      assert up + pp <= 100 || (2 * eu == t && 2 * ep == t);
    }
  }

  // ----- compute_liability -----

  /**
   * The index of the factor Python's `max(factors.items(), key=points)` picks: a factor with the
   * most points, the first such one.
   */
  function TopIndex(fs: seq<Factor>): (k: nat)
    requires |fs| > 0
    ensures k < |fs|
    ensures forall j :: 0 <= j < |fs| ==> fs[j].points <= fs[k].points
    ensures forall j :: 0 <= j < k ==> fs[j].points < fs[k].points
  {
    if |fs| == 1 then 0
    else
      var k := TopIndex(fs[..|fs| - 1]);
      assert forall j :: 0 <= j < |fs| - 1 ==> fs[..|fs| - 1][j] == fs[j];
      if fs[|fs| - 1].points > fs[k].points then |fs| - 1 else k
  }

  /** The data `_explain` renders: party, percentage, raw score and the primary driver. */
  datatype Explanation = Explanation(party: string, percentage: int, raw: nat, driver: Factor)

  /** `_explain`'s sentence. */
  function ExplanationText(e: Explanation): string {
    e.party + " bears " + Text.IntToString(e.percentage) + "% liability (raw score "
    + Text.Hundredths(e.raw, 3) + "). Primary driver: " + e.driver.name + " ("
    + Text.Hundredths(e.driver.points, 2) + "/" + Text.Hundredths(e.driver.max, 2)
    + " pts). Legal basis: " + e.driver.legalBasis + "."
  }

  function Explain(party: string, percentage: int, s: Scored): (e: Explanation)
    requires |s.factors| > 0
    ensures e.driver in s.factors
    ensures forall f :: f in s.factors ==> f.points <= e.driver.points
  {
    Explanation(party, percentage, s.raw, s.factors[TopIndex(s.factors)])
  }

  /**
   * One party's entry; `round(raw, 4)` changes nothing on whole hundredths, so the raw score is
   * the raw sum itself.
   */
  datatype PartyScore = PartyScore(percentage: int, rawScore: nat, factors: seq<Factor>, explanation: Explanation)

  datatype Liability = Liability(user: PartyScore, platform: PartyScore, architect: PartyScore)

  function Party(name: string, percentage: int, s: Scored): PartyScore
    requires |s.factors| > 0
  {
    PartyScore(percentage, s.raw, s.factors, Explain(name, percentage, s))
  }

  /** `compute_liability`. */
  function ComputeLiability(ctx: Context, registry: Registry): (r: Liability)
    requires UnknownModel in registry
    ensures r.user.percentage + r.platform.percentage + r.architect.percentage == 100
    ensures 0 <= r.user.percentage <= 100 && 0 <= r.platform.percentage <= 100
    ensures 0 <= r.architect.percentage <= 100
    ensures r.user.factors == ScoreUser(ctx).factors && r.user.rawScore == SumPoints(r.user.factors)
    ensures r.platform.factors == ScorePlatform(ctx).factors && r.platform.rawScore == SumPoints(r.platform.factors)
    ensures r.architect.factors == ScoreArchitect(ctx, registry).factors
    ensures r.architect.rawScore == SumPoints(r.architect.factors)
    ensures r.user.explanation.percentage == r.user.percentage
    ensures r.platform.explanation.percentage == r.platform.percentage
    ensures r.architect.explanation.percentage == r.architect.percentage
    ensures Percentages(ScoreUser(ctx).raw, ScorePlatform(ctx).raw, ScoreArchitect(ctx, registry).raw)
      == Shares(r.user.percentage, r.platform.percentage, r.architect.percentage)
  {
    var su := ScoreUser(ctx);
    var sp := ScorePlatform(ctx);
    var sa := ScoreArchitect(ctx, registry);
    var shares := Percentages(su.raw, sp.raw, sa.raw);
    PercentagesInRange(su.raw, sp.raw, sa.raw);
    Liability(
      Party("User", shares.user, su),
      Party("Platform", shares.platform, sp),
      Party("AI Architect", shares.architect, sa))
  }

  /** The returned dict as JSON: percentages as integers, points as their decimal values. */
  function FactorJson(f: Factor): Json {
    JObj(map["points" := JNum(f.points as real / 100.0), "max" := JNum(f.max as real / 100.0),
             "legal_basis" := JStr(f.legalBasis)])
  }

  /** `{f["name"]: {...} for f in factors}`: a later factor of the same name replaces an earlier one. */
  function FactorsJson(fs: seq<Factor>): map<string, Json> {
    if |fs| == 0 then map[] else FactorsJson(fs[..|fs| - 1])[fs[|fs| - 1].name := FactorJson(fs[|fs| - 1])]
  }

  /** The keys of the rendered factors are exactly the factors' names. */
  lemma {:induction false} FactorsJsonKeys(fs: seq<Factor>)
    ensures forall n :: n in FactorsJson(fs) <==> n in Names(fs)
    decreases |fs|
  {
    if |fs| > 0 {
      var init := fs[..|fs| - 1];
      FactorsJsonKeys(init);
      assert Names(fs) == Names(init) + [fs[|fs| - 1].name];
    }
  }

  /** When the names are distinct, every factor appears under its own name. */
  lemma {:induction false} FactorsJsonMember(fs: seq<Factor>, i: nat)
    requires i < |fs|
    requires forall j, k :: 0 <= j < k < |fs| ==> fs[j].name != fs[k].name
    ensures fs[i].name in FactorsJson(fs) && FactorsJson(fs)[fs[i].name] == FactorJson(fs[i])
    decreases |fs|
  {
    if i < |fs| - 1 {
      var init := fs[..|fs| - 1];
      FactorsJsonMember(init, i);
    }
  }

  function PartyJson(s: PartyScore): Json {
    JObj(map["percentage" := JNum(s.percentage as real), "raw_score" := JNum(s.rawScore as real / 100.0),
             "factors" := JObj(FactorsJson(s.factors)), "explanation" := JStr(ExplanationText(s.explanation))])
  }

  function LiabilityJson(l: Liability): Json {
    JObj(map["user" := PartyJson(l.user), "platform" := PartyJson(l.platform), "architect" := PartyJson(l.architect)])
  }

  // ----- Properties of the rule tables -----

  /** The user's raw score is at least 0.12, so the total is never 0 and the 33/33/34 split is dead. */
  lemma EqualSplitUnreachable(ctx: Context, registry: Registry)
    requires UnknownModel in registry
    ensures ScoreUser(ctx).raw + ScorePlatform(ctx).raw + ScoreArchitect(ctx, registry).raw >= 22
  {
  }

  /** No takedown request, no response-time points; otherwise later responses never score less. */
  lemma ResponsePointsMonotone(takedownRequested: bool, h1: real, h2: real)
    requires h1 <= h2
    ensures !takedownRequested ==> ResponsePoints(takedownRequested, h1) == 0
    ensures ResponsePoints(takedownRequested, h1) <= ResponsePoints(takedownRequested, h2)
  {
  }

  /** A wider reach never scores less amplification. */
  lemma AmplificationMonotone(r1: int, r2: int)
    requires r1 <= r2
    ensures AmplificationPoints(r1) <= AmplificationPoints(r2)
  {
  }

  /** More known incidents never score less, among non-negative counts. */
  lemma HistoryMonotone(k1: int, k2: int)
    requires 0 <= k1 <= k2
    ensures HistoryPoints(k1) <= HistoryPoints(k2)
  {
  }

  /** A platform missing from the tables gets the maximum detection and safe-harbour points. */
  lemma UnlistedPlatformScoresMaximum(ctx: Context)
    requires ctx.platformName.GetOr("Other") !in DetectionTable
    ensures ScorePlatform(ctx).factors[0].points == 25
    ensures ScorePlatform(ctx).factors[3].points == 15
  {
  }

  /** A model missing from the registry, or no model name at all, is scored as "Unknown Model". */
  lemma UnlistedModelScoresAsUnknown(ctx: Context, registry: Registry)
    requires UnknownModel in registry
    requires ctx.modelName.GetOr(UnknownModel) !in registry || ctx.modelName.None?
    ensures ScoreArchitect(ctx, registry) == ScoreArchitect(ctx.(modelName := Some(UnknownModel)), registry)
  {
  }

  /** Each explanation names as primary driver a factor with at least every other factor's points. */
  lemma PrimaryDriverIsMaximal(ctx: Context, registry: Registry)
    requires UnknownModel in registry
    ensures var l := ComputeLiability(ctx, registry);
      (forall f :: f in l.user.factors ==> f.points <= l.user.explanation.driver.points)
      && (forall f :: f in l.platform.factors ==> f.points <= l.platform.explanation.driver.points)
      && (forall f :: f in l.architect.factors ==> f.points <= l.architect.explanation.driver.points)
      && l.user.explanation.driver in l.user.factors
      && l.platform.explanation.driver in l.platform.factors
      && l.architect.explanation.driver in l.architect.factors
  {
  }
}
