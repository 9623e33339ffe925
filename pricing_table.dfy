/**
 * The package comparison table: which feature cells show a value, a check
 * mark or a minus, the check rule over the plan levels
 * "starter" < "pro" < "all", and the selected plan.
 */
module PricingTable {
  import opened Wrappers

  /** A plan level is any string; "starter", "pro" and "all" are the tiers. */
  type PlanLevel = string

  /** A feature row: the level from which it is included (or null) and optional per-level texts. */
  datatype Feature = Feature(name: string, included: Option<PlanLevel>, values: Option<map<string, string>>)

  /** A plan column (its price and description are presentation only). */
  datatype Plan = Plan(name: string, level: PlanLevel)

  /** What one cell of the feature table shows. */
  datatype Cell = ValueText(text: string) | CheckMark | MinusMark

  /** Whether a feature included from `included` gets a check in the column of `level`. */
  predicate ShouldShowCheck(included: Option<PlanLevel>, level: PlanLevel)
    ensures included == Some("all") ==> ShouldShowCheck(included, level)
    ensures ShouldShowCheck(included, level) ==> included.Some? && included.value in {"starter", "pro", "all"}
    ensures ShouldShowCheck(included, level) && included != Some("all") ==> level in {"starter", "pro", "all"}
  {
    if included == Some("all") then true
    else if included == Some("pro") && (level == "pro" || level == "all") then true
    else if included == Some("starter") && (level == "starter" || level == "pro" || level == "all") then true
    else false
  }

  /** Position of a tier in starter < pro < all; None for any other string. */
  function TierRank(level: PlanLevel): (r: Option<nat>)
    ensures r.Some? <==> level in {"starter", "pro", "all"}
    ensures r.Some? ==> r.value <= 2
  {
    if level == "starter" then Some(0)
    else if level == "pro" then Some(1)
    else if level == "all" then Some(2)
    else None
  }

  /**
   * The check rule as a comparison of ranks: "all" marks every column;
   * "starter" or "pro" marks exactly the tier columns at or above it;
   * anything else marks nothing.
   */
  lemma ShowCheckIsRankComparison(included: Option<PlanLevel>, level: PlanLevel)
    ensures ShouldShowCheck(included, level) <==>
              included == Some("all") ||
              (included.Some? && included.value in {"starter", "pro"} && TierRank(level).Some? &&
               TierRank(included.value).value <= TierRank(level).value)
  {
  }

  /** Included in "all": a check in every column. */
  lemma AllShowsEverywhere(level: PlanLevel)
    ensures ShouldShowCheck(Some("all"), level)
  {
  }

  /** Included from "pro": a check exactly in the "pro" and "all" columns. */
  lemma ProShowsProAndAll(level: PlanLevel)
    ensures ShouldShowCheck(Some("pro"), level) <==> level == "pro" || level == "all"
  {
  }

  /** Included from "starter": a check exactly in the three tier columns. */
  lemma StarterShowsEveryTier(level: PlanLevel)
    ensures ShouldShowCheck(Some("starter"), level) <==> level in {"starter", "pro", "all"}
  {
  }

  /** Null or an unknown level: never a check. */
  lemma OtherShowsNothing(included: Option<PlanLevel>, level: PlanLevel)
    requires included.None? || included.value !in {"starter", "pro", "all"}
    ensures !ShouldShowCheck(included, level)
  {
  }

  /** For "starter" and "pro", a check at one tier means a check at every higher tier. */
  lemma ShowCheckIsUpwardClosed(included: PlanLevel, low: PlanLevel, high: PlanLevel)
    requires included in {"starter", "pro"}
    requires TierRank(low).Some? && TierRank(high).Some?
    requires TierRank(low).value <= TierRank(high).value
    requires ShouldShowCheck(Some(included), low)
    ensures ShouldShowCheck(Some(included), high)
  {
    ShowCheckIsRankComparison(Some(included), low);
    ShowCheckIsRankComparison(Some(included), high);
  }

  /** The feature has a text map, it holds a text for the level, and that text is not empty. */
  predicate HasValueText(f: Feature, level: PlanLevel)
    ensures f.values.None? ==> !HasValueText(f, level)
    ensures HasValueText(f, level) ==> level in f.values.value && |f.values.value[level]| > 0
  {
    f.values.Some? && level in f.values.value && f.values.value[level] != ""
  }

  /** The cell of feature `f` in the column of `level`: its text if any, else a check or a minus. */
  function CellContent(f: Feature, level: PlanLevel): (c: Cell)
    ensures c.ValueText? <==> HasValueText(f, level)
    ensures c.ValueText? ==> c.text == f.values.value[level] && c.text != ""
    ensures c == CheckMark <==> !HasValueText(f, level) && ShouldShowCheck(f.included, level)
    ensures c == MinusMark <==> !HasValueText(f, level) && !ShouldShowCheck(f.included, level)
  {
    if f.values.Some? && level in f.values.value && f.values.value[level] != "" then
      ValueText(f.values.value[level])
    else if ShouldShowCheck(f.included, level) then
      CheckMark
    else
      MinusMark
  }

  /** A feature with no texts shows a check in a tier column above a column that has one. */
  lemma CheckCellsAreUpwardClosed(f: Feature, low: PlanLevel, high: PlanLevel)
    requires f.values.None? && f.included.Some? && f.included.value in {"starter", "pro"}
    requires TierRank(low).Some? && TierRank(high).Some?
    requires TierRank(low).value <= TierRank(high).value
    requires CellContent(f, low) == CheckMark
    ensures CellContent(f, high) == CheckMark
  {
    ShowCheckIsUpwardClosed(f.included.value, low, high);
  }

  /** The index of the first plan whose level is `level`, as the array search returns it. */
  function FindPlan(plans: seq<Plan>, level: PlanLevel): (r: Option<nat>)
    ensures r.None? <==> forall j :: 0 <= j < |plans| ==> plans[j].level != level
    ensures r.Some? ==> r.value < |plans| && plans[r.value].level == level &&
                        forall j :: 0 <= j < r.value ==> plans[j].level != level
  {
    if |plans| == 0 then None
    else if plans[0].level == level then Some(0)
    else match FindPlan(plans[1..], level)
         case None => None
         case Some(k) => Some(k + 1)
  }

  /** The selected-plan state of the table. */
  class PlanSelector {
    var selectedPlan: PlanLevel

    /** The selection starts at `defaultPlan`, which itself defaults to "pro". */
    constructor (defaultPlan: Option<PlanLevel>)
      ensures selectedPlan == defaultPlan.GetOr("pro")
    {
      selectedPlan := defaultPlan.GetOr("pro");
    }

    /**
     * Clicking a plan card: the selection becomes `plan`. When the caller
     * passed an `onPlanSelect` callback, it is notified with `plan`.
     */
    method HandlePlanSelect(plan: PlanLevel, hasCallback: bool) returns (notified: Option<PlanLevel>)
      modifies this
      ensures selectedPlan == plan
      ensures notified == if hasCallback then Some(plan) else None
    {
      selectedPlan := plan;
      notified := if hasCallback then Some(plan) else None;
    }

    /** The name on the "select" button: that of the first plan at the selected level, if any. */
    function SelectedPlanName(plans: seq<Plan>): (r: Option<string>)
      reads this
      ensures r.None? <==> forall j :: 0 <= j < |plans| ==> plans[j].level != selectedPlan
      ensures r.Some? ==> FindPlan(plans, selectedPlan).Some? &&
                          r.value == plans[FindPlan(plans, selectedPlan).value].name
      ensures r.Some? ==> exists j :: (0 <= j < |plans| && plans[j].level == selectedPlan && plans[j].name == r.value &&
                                       forall i :: 0 <= i < j ==> plans[i].level != selectedPlan)
    {
      match FindPlan(plans, selectedPlan)
      case None => None
      case Some(k) => Some(plans[k].name)
    }
  }
}
