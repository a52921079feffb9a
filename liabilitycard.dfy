/**
 * The liability card: how it normalises a loosely typed liability object into the stacked bar,
 * the legend and the per-party factor panels. Numbers are kept as reals; the text `toFixed`
 * makes of them is not part of the model, but its TypeError on a value that is not a number is.
 */
module LiabilityCard {
  import opened Json
  import Text

  /** The keys of `PARTY_CONFIG`, in display order. */
  const PartyKeys: seq<string> := ["user", "platform", "architect"]

  /** The characters of the regular-expression class `\w`. */
  predicate IsWordChar(c: char) {
    'a' <= c <= 'z' || 'A' <= c <= 'Z' || '0' <= c <= '9' || c == '_'
  }

  /** `key.replace(/_/g, ' ')`. */
  function SpaceUnderscores(key: string): (r: string)
    ensures |r| == |key|
    ensures forall i :: 0 <= i < |key| ==> r[i] == if key[i] == '_' then ' ' else key[i]
  {
    seq(|key|, i requires 0 <= i < |key| => if key[i] == '_' then ' ' else key[i])
  }

  /** Where `\b\w` matches: a word character at the start or right after a non-word character. */
  predicate WordStart(s: string, i: int)
    requires 0 <= i < |s|
  {
    IsWordChar(s[i]) && (i == 0 || !IsWordChar(s[i - 1]))
  }

  /** `s.replace(/\b\w/g, (c) => c.toUpperCase())`. */
  function CapitaliseWords(s: string): (r: string)
    ensures |r| == |s|
    ensures forall i :: 0 <= i < |s| ==> r[i] == if WordStart(s, i) then Text.UpperChar(s[i]) else s[i]
  {
    seq(|s|, i requires 0 <= i < |s| => if WordStart(s, i) then Text.UpperChar(s[i]) else s[i])
  }

  /** `formatFactorName`: underscores become spaces and every word starts with a capital. */
  function FormatFactorName(key: string): string {
    CapitaliseWords(SpaceUnderscores(key))
  }

  /**
   * The character formatFactorName puts at `i`, in terms of the key itself: an underscore becomes
   * a space; a word character other than `_` is upper-cased when it starts the key or follows a
   * character that is not a word character or is an underscore; every other character is kept.
   */
  function NameChar(key: string, i: int): char
    requires 0 <= i < |key|
  {
    if key[i] == '_' then ' '
    else if IsWordChar(key[i]) && (i == 0 || !IsWordChar(key[i - 1]) || key[i - 1] == '_') then Text.UpperChar(key[i])
    else key[i]
  }

  /** The name is as long as the key, has no `_`, and is NameChar at every position. */
  lemma FormatFactorNameSpec(key: string)
    ensures |FormatFactorName(key)| == |key|
    ensures forall i :: 0 <= i < |key| ==> FormatFactorName(key)[i] == NameChar(key, i)
    ensures forall i :: 0 <= i < |key| ==> FormatFactorName(key)[i] != '_'
  {
    var t := SpaceUnderscores(key);
    var r := FormatFactorName(key);
    forall i | 0 <= i < |key| ensures r[i] == NameChar(key, i) && r[i] != '_' {
      assert i > 0 ==> t[i - 1] == if key[i - 1] == '_' then ' ' else key[i - 1];
      assert r[i] == if WordStart(t, i) then Text.UpperChar(t[i]) else t[i];
    }
  }

  /** Formatting a formatted name changes nothing more. */
  lemma FormatFactorNameIdempotent(key: string)
    ensures FormatFactorName(FormatFactorName(key)) == FormatFactorName(key)
  {
    var t := SpaceUnderscores(key);
    var r := CapitaliseWords(t);
    FormatFactorNameSpec(key);
    var t2 := SpaceUnderscores(r);
    assert t2 == r;
    forall i | 0 <= i < |r| ensures IsWordChar(r[i]) == IsWordChar(t[i]) {
    }
    forall i | 0 <= i < |r| ensures WordStart(r, i) == WordStart(t, i) {
    }
    assert CapitaliseWords(r) == r;
  }

  /** A factor key of the scorer read as a title. */
  lemma FactorNameExample()
    ensures FormatFactorName("access_control") == "Access Control"
  {
    FormatFactorNameSpec("access_control");
  }

  /** `getPercentage`: a missing party, or a missing or null `percentage`, counts as 0. */
  function GetPercentage(party: Option<Json>): (v: Json)
    ensures !JsTruthy(party) ==> v == JNum(0.0)
    ensures JsTruthy(party) && !Nullish(Prop(party.value, "percentage")) ==> Some(v) == Prop(party.value, "percentage")
    ensures JsTruthy(party) && Nullish(Prop(party.value, "percentage")) ==> v == JNum(0.0)
  {
    if !JsTruthy(party) then JNum(0.0) else Coalesce(PropOf(party, "percentage"), Some(JNum(0.0))).GetOr(JNum(0.0))
  }

  /** `getRawScore`: a missing party, or a missing or null `raw_score`, counts as 0. */
  function GetRawScore(party: Option<Json>): (v: Json)
    ensures !JsTruthy(party) ==> v == JNum(0.0)
    ensures JsTruthy(party) && !Nullish(Prop(party.value, "raw_score")) ==> Some(v) == Prop(party.value, "raw_score")
    ensures JsTruthy(party) && Nullish(Prop(party.value, "raw_score")) ==> v == JNum(0.0)
  {
    if !JsTruthy(party) then JNum(0.0) else Coalesce(PropOf(party, "raw_score"), Some(JNum(0.0))).GetOr(JNum(0.0))
  }

  /** How one factor value is shown: a number to two decimals, `pts / max`, or `String(value)`. */
  datatype FactorDisplay = Fixed2(x: real) | Ratio(points: real, max: real) | Plain(text: string)

  /**
   * `getFactorDisplay`: None where `toFixed` is called on something that is not a number (a
   * TypeError). Arrays are objects too and, having none of the members read, show `0 / 1`.
   */
  function GetFactorDisplay(value: Json): (r: Option<FactorDisplay>)
    ensures value.JNum? ==> r == Some(Fixed2(value.n))
    ensures value.JNull? ==> r == Some(Plain("null"))
    ensures value.JBool? ==> r == Some(Plain(if value.b then "true" else "false"))
    ensures value.JStr? ==> r == Some(Plain(value.s))
    ensures (value.JObj? || value.JArr?) ==> (r.None? || r.value.Ratio?)
  {
    match value
    case JNum(x) => Some(Fixed2(x))
    case JNull => Some(Plain("null"))
    case JBool(b) => Some(Plain(if b then "true" else "false"))
    case JStr(s) => Some(Plain(s))
    case _ =>
      var pts := Coalesce(Coalesce(Prop(value, "points"), Prop(value, "score")), Some(JNum(0.0))).GetOr(JNum(0.0));
      var max := Coalesce(Prop(value, "max"), Some(JNum(1.0))).GetOr(JNum(1.0));
      if pts.JNum? && max.JNum? then Some(Ratio(pts.n, max.n)) else None
  }

  /**
   * An object factor shows `points`, else `score`, else 0, over `max`, else 1, and breaks the
   * card exactly when one of the two it picks is not a number.
   */
  lemma ObjectFactorDisplay(fields: map<string, Json>)
    ensures var pts := Coalesce(Coalesce(Lookup(fields, "points"), Lookup(fields, "score")), Some(JNum(0.0))).value;
      var max := Coalesce(Lookup(fields, "max"), Some(JNum(1.0))).value;
      (GetFactorDisplay(JObj(fields)).None? <==> !pts.JNum? || !max.JNum?)
      && (pts.JNum? && max.JNum? ==> GetFactorDisplay(JObj(fields)) == Some(Ratio(pts.n, max.n)))
  {
  }

  /** An object with none of `points`, `score` and `max` shows `0.00 / 1.00`. */
  lemma EmptyFactorDisplay()
    ensures GetFactorDisplay(JObj(map[])) == Some(Ratio(0.0, 1.0))
    ensures GetFactorDisplay(JArr([])) == Some(Ratio(0.0, 1.0))
  {
  }

  /** `Object.entries` of an array: its items under the keys "0", "1", ... */
  function ArrayEntries(items: seq<Json>): map<string, Json>
    decreases |items|
  {
    if |items| == 0 then map[]
    else ArrayEntries(items[..|items| - 1])[Text.NatToString(|items| - 1) := items[|items| - 1]]
  }

  /** Every item of the array is an entry, under the decimal rendering of its index. */
  lemma {:induction false} ArrayEntriesHoldItems(items: seq<Json>)
    ensures forall i :: 0 <= i < |items| ==>
      Text.NatToString(i) in ArrayEntries(items) && ArrayEntries(items)[Text.NatToString(i)] == items[i]
    decreases |items|
  {
    if |items| > 0 {
      var n := |items| - 1;
      var init := items[..n];
      ArrayEntriesHoldItems(init);
      forall i | 0 <= i < |items|
        ensures Text.NatToString(i) in ArrayEntries(items) && ArrayEntries(items)[Text.NatToString(i)] == items[i]
      {
        if i < n {
          if Text.NatToString(i) == Text.NatToString(n) {
            Text.NatToStringInjective(i, n);
          }
          assert init[i] == items[i];
        }
      }
    }
  }

  /** The decimal renderings of the indices below `n`. */
  function IndexKeys(n: nat): set<string> {
    if n == 0 then {} else IndexKeys(n - 1) + {Text.NatToString(n - 1)}
  }

  /** The array's entries are keyed by exactly the decimal renderings of its indices. */
  lemma {:induction false} ArrayEntriesKeys(items: seq<Json>)
    ensures ArrayEntries(items).Keys == IndexKeys(|items|)
    decreases |items|
  {
    if |items| > 0 {
      ArrayEntriesKeys(items[..|items| - 1]);
    }
  }

  /**
   * `getFactorEntries`, with the entries keyed by name (the order in which `Object.entries`
   * lists them is not part of the model): nothing for a falsy or non-object value.
   */
  function GetFactorEntries(factors: Option<Json>): (m: map<string, Json>)
    ensures !(JsTruthy(factors) && (factors.value.JObj? || factors.value.JArr?)) ==> m == map[]
    ensures factors.Some? && factors.value.JObj? ==> m == factors.value.fields
  {
    if factors.Some? && factors.value.JObj? then factors.value.fields
    else if factors.Some? && factors.value.JArr? then ArrayEntries(factors.value.items)
    else map[]
  }

  /** A party's panel: its factors (formatted name and display, by key) and its raw score. */
  datatype Panel = Panel(factors: map<string, (string, FactorDisplay)>, rawScore: real)

  /** What the panel of one party renders to: nothing, a TypeError, or a panel. */
  datatype PanelView = NoPanel | Broken | Drawn(panel: Panel)

  /** The panel of one entry of `PARTY_CONFIG`: none for a falsy party. */
  function PartyPanel(party: Option<Json>): (v: PanelView)
    ensures v.NoPanel? <==> !JsTruthy(party)
    ensures v.Drawn? ==> GetRawScore(party) == JNum(v.panel.rawScore)
    ensures v.Drawn? ==> v.panel.factors.Keys == GetFactorEntries(PropOf(party, "factors")).Keys
    ensures JsTruthy(party) && !GetRawScore(party).JNum? ==> v.Broken?
  {
    if !JsTruthy(party) then NoPanel
    else
      var entries := GetFactorEntries(PropOf(party, "factors"));
      var raw := GetRawScore(party);
      if exists k :: k in entries && GetFactorDisplay(entries[k]).None? then Broken
      else if !raw.JNum? then Broken
      else Drawn(Panel(map k | k in entries :: (FormatFactorName(k), GetFactorDisplay(entries[k]).value), raw.n))
  }

  /**
   * The rendered card: hidden for a falsy `scores`; broken by a TypeError when a percentage, a
   * raw score or a factor's points or maximum is not a number; otherwise the legend's percentages,
   * the bar's shares, one panel per party and the explanation when it is truthy.
   */
  datatype CardView =
    | Hidden
    | Throws
    | Shown(percentages: seq<real>, shares: seq<real>, panels: seq<PanelView>, explanation: Option<Json>)

  /** The bar's width for a party: its share of the total, or an equal third when the total is not positive. */
  function Share(p: real, total: real): real {
    if total > 0.0 then p / total * 100.0 else 33.33
  }

  /** `LiabilityCard`. */
  function Card(scores: Option<Json>): (c: CardView)
    ensures c.Hidden? <==> !JsTruthy(scores)
    ensures c.Shown? ==> |c.percentages| == 3 && |c.shares| == 3 && |c.panels| == 3
  {
    if !JsTruthy(scores) then Hidden
    else
      var s := scores.value;
      var ps := seq(3, i requires 0 <= i < 3 => GetPercentage(Prop(s, PartyKeys[i])));
      var panels := seq(3, i requires 0 <= i < 3 => PartyPanel(Prop(s, PartyKeys[i])));
      if !(ps[0].JNum? && ps[1].JNum? && ps[2].JNum?) then Throws
      else if panels[0].Broken? || panels[1].Broken? || panels[2].Broken? then Throws
      else
        var total := ps[0].n + ps[1].n + ps[2].n;
        var explanation := Prop(s, "explanation");
        Shown([ps[0].n, ps[1].n, ps[2].n], [Share(ps[0].n, total), Share(ps[1].n, total), Share(ps[2].n, total)],
              panels, if JsTruthy(explanation) then explanation else None)
  }

  /** The percentage the legend shows for the party at `i`. */
  function PartyPercentage(scores: Json, i: nat): Json
    requires i < 3
  {
    GetPercentage(Prop(scores, PartyKeys[i]))
  }

  /**
   * A shown card's legend carries each party's percentage, and when their total is positive each
   * bar is that percentage's share of the total, the three shares adding up to 100.
   */
  lemma SharesOfPositiveTotal(scores: Json)
    requires Card(Some(scores)).Shown?
    ensures var c := Card(Some(scores));
      var total := c.percentages[0] + c.percentages[1] + c.percentages[2];
      (forall i :: 0 <= i < 3 ==> PartyPercentage(scores, i) == JNum(c.percentages[i]))
      && (total > 0.0 ==>
        (forall i :: 0 <= i < 3 ==> c.shares[i] == c.percentages[i] / total * 100.0)
        && c.shares[0] + c.shares[1] + c.shares[2] == 100.0)
  {
    var c := Card(Some(scores));
    var total := c.percentages[0] + c.percentages[1] + c.percentages[2];
    if total > 0.0 {
      SharesAddUp(c.percentages[0], c.percentages[1], c.percentages[2]);
    }
  }

  /** Three shares of a positive total add up to 100. */
  lemma SharesAddUp(a: real, b: real, c: real)
    requires a + b + c > 0.0
    ensures Share(a, a + b + c) + Share(b, a + b + c) + Share(c, a + b + c) == 100.0
  {
    var t := a + b + c;
    assert a / t + b / t + c / t == (a + b + c) / t;
  }

  /** When the total is not positive every bar is 33.33 wide. */
  lemma EqualSplitOtherwise(scores: Json)
    requires Card(Some(scores)).Shown?
    requires var c := Card(Some(scores)); c.percentages[0] + c.percentages[1] + c.percentages[2] <= 0.0
    ensures Card(Some(scores)).shares == [33.33, 33.33, 33.33]
  {
  }

  /** With every party missing the legend shows 0 for all three, the bars split equally and no panel appears. */
  lemma AllPartiesMissing(scores: map<string, Json>)
    requires "user" !in scores && "platform" !in scores && "architect" !in scores
    requires "explanation" !in scores
    ensures Card(Some(JObj(scores))) == Shown([0.0, 0.0, 0.0], [33.33, 33.33, 33.33], [NoPanel, NoPanel, NoPanel], None)
  {
    var s := JObj(scores);
    assert Prop(s, PartyKeys[0]).None? && Prop(s, PartyKeys[1]).None? && Prop(s, PartyKeys[2]).None?;
  }
}
