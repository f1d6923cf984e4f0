/**
 * `map_fuel_to_category` (expert_system.py): the manufacturer's fuel text
 * is classified, case-insensitively and by substring, into one of the four
 * categories of `FUEL_CATEGORIES`. The checks run in a fixed order, so the
 * first category whose marker occurs wins.
 */
module Fuel {
  import opened Wrappers
  import opened Strings

  /** `FUEL_CATEGORIES` */
  const FuelCategories: seq<string> := ["Petrol", "Diesel", "Hybrid", "CNG"]

  predicate MentionsCng(t: string) {
    Contains(t, "cng")
  }

  predicate MentionsDiesel(t: string) {
    Contains(t, "diesel") || Contains(t, "deisel")
  }

  predicate MentionsHybrid(t: string) {
    Contains(t, "hybrid") || Contains(t, "phev") || Contains(t, "plug-in") || Contains(t, "plug in")
    || Contains(t, "mild")
  }

  predicate MentionsPetrol(t: string) {
    Contains(t, "petrol") || Contains(t, "gasoline") || Contains(t, "turbo") || Contains(t, "petrol ")
    || Contains(t, "petrol(")
  }

  /**
   * `map_fuel_to_category(s)`; `None` stands for Python's `None`. The last
   * check (petrol markers) and the fall-through both give "Petrol".
   */
  function MapFuelToCategory(s: Option<string>): (r: string)
    ensures r in FuelCategories
    ensures s.None? ==> r == "Petrol"
  {
    match s
    case None => "Petrol"
    case Some(text) =>
      var t := Lower(text);
      if MentionsCng(t) then "CNG"
      else if MentionsDiesel(t) then "Diesel"
      else if MentionsHybrid(t) then "Hybrid"
      else if MentionsPetrol(t) then "Petrol"
      else "Petrol"
  }

  /**
   * Each category is decided by its own markers and the absence of the
   * markers checked before it; "Petrol" is what remains.
   */
  lemma CategoryOrder(text: string)
    ensures var t := Lower(text);
      && (MapFuelToCategory(Some(text)) == "CNG" <==> MentionsCng(t))
      && (MapFuelToCategory(Some(text)) == "Diesel" <==> !MentionsCng(t) && MentionsDiesel(t))
      && (MapFuelToCategory(Some(text)) == "Hybrid" <==> !MentionsCng(t) && !MentionsDiesel(t) && MentionsHybrid(t))
      && (MapFuelToCategory(Some(text)) == "Petrol" <==> !MentionsCng(t) && !MentionsDiesel(t) && !MentionsHybrid(t))
  {
  }

  lemma PetrolMarkers()
    ensures !MentionsCng("petrol") && !MentionsDiesel("petrol") && !MentionsHybrid("petrol")
  {
    PetrolLacksCngDiesel();
    PetrolLacksHybrid();
  }

  lemma PetrolLacksCngDiesel()
    ensures !MentionsCng("petrol") && !MentionsDiesel("petrol")
  {
    NotContains("petrol", "cng", 0);
    NotContains("petrol", "diesel", 0);
    NotContains("petrol", "deisel", 0);
  }

  lemma PetrolLacksHybrid()
    ensures !MentionsHybrid("petrol")
  {
    NotContains("petrol", "hybrid", 0);
    NotContains("petrol", "phev", 1);
    NotContains("petrol", "plug-in", 2);
    NotContains("petrol", "plug in", 2);
    NotContains("petrol", "mild", 0);
  }

  lemma DieselMarkers()
    ensures !MentionsCng("diesel") && MentionsDiesel("diesel")
  {
    NotContains("diesel", "cng", 0);
    assert "diesel"[..6] == "diesel";
  }

  lemma HybridMarkers()
    ensures !MentionsCng("hybrid") && !MentionsDiesel("hybrid") && MentionsHybrid("hybrid")
  {
    NotContains("hybrid", "cng", 0);
    NotContains("hybrid", "diesel", 2);
    NotContains("hybrid", "deisel", 3);
    assert "hybrid"[..6] == "hybrid";
  }

  lemma CngMarkers()
    ensures MentionsCng("cng")
  {
    assert "cng"[..3] == "cng";
  }

  /** A category name is classified as itself, so classifying twice changes nothing. */
  lemma CategoryIsFixedPoint(c: string)
    requires c in FuelCategories
    ensures MapFuelToCategory(Some(c)) == c
  {
    if c == "Petrol" {
      assert Lower(c) == "petrol";
      PetrolMarkers();
      CategoryOrder(c);
    } else if c == "Diesel" {
      assert Lower(c) == "diesel";
      DieselMarkers();
      CategoryOrder(c);
    } else if c == "Hybrid" {
      assert Lower(c) == "hybrid";
      HybridMarkers();
      CategoryOrder(c);
    } else {
      assert Lower(c) == "cng";
      CngMarkers();
      CategoryOrder(c);
    }
  }

  /** Classification is idempotent. */
  lemma MapFuelIdempotent(s: Option<string>)
    ensures MapFuelToCategory(Some(MapFuelToCategory(s))) == MapFuelToCategory(s)
  {
    CategoryIsFixedPoint(MapFuelToCategory(s));
  }

  /** "CNG+Petrol" is CNG: the CNG check comes first. */
  lemma CngBeforePetrolExample()
    ensures MapFuelToCategory(Some("CNG+Petrol")) == "CNG"
  {
    var t := "cng+petrol";
    assert Lower("CNG+Petrol") == t;
    assert MentionsCng(t) by {
      assert t[..3] == "cng";
    }
    CategoryOrder("CNG+Petrol");
  }

  /** Text without a `c` mentions no CNG. */
  lemma NoCngWithoutC(t: string)
    requires 'c' !in t
    ensures !MentionsCng(t)
  {
    NotContains(t, "cng", 0);
  }

  lemma DieselTurboMarkers()
    ensures !MentionsCng("diesel turbo") && MentionsDiesel("diesel turbo")
  {
    NoCngWithoutC("diesel turbo");
    assert "diesel turbo"[..6] == "diesel";
  }

  /** "Diesel Turbo" is Diesel although "turbo" is a petrol marker. */
  lemma DieselBeforeTurboExample()
    ensures MapFuelToCategory(Some("Diesel Turbo")) == "Diesel"
  {
    assert Lower("Diesel Turbo") == "diesel turbo";
    DieselTurboMarkers();
    CategoryOrder("Diesel Turbo");
  }

  lemma MildHybridMarkers()
    ensures var t := "mild hybrid petrol";
      !MentionsCng(t) && !MentionsDiesel(t) && MentionsHybrid(t)
  {
    NoCngWithoutC("mild hybrid petrol");
    MildHybridLacksDiesel();
    MildHybridHasMild();
  }

  lemma MildHybridLacksDiesel()
    ensures !MentionsDiesel("mild hybrid petrol")
  {
    NotContains("mild hybrid petrol", "diesel", 3);
    NotContains("mild hybrid petrol", "deisel", 3);
  }

  lemma MildHybridHasMild()
    ensures Contains("mild hybrid petrol", "mild")
  {
    assert "mild hybrid petrol"[..4] == "mild";
  }

  lemma MildHybridLowered()
    ensures Lower("Mild Hybrid Petrol") == "mild hybrid petrol"
  {
  }

  /** "Mild Hybrid Petrol" is Hybrid: the hybrid markers come before petrol. */
  lemma MildHybridExample()
    ensures MapFuelToCategory(Some("Mild Hybrid Petrol")) == "Hybrid"
  {
    MildHybridLowered();
    MildHybridMarkers();
    CategoryOrder("Mild Hybrid Petrol");
  }

  lemma ElectricLacksCngDiesel()
    ensures !MentionsCng("electric") && !MentionsDiesel("electric")
  {
    NotContains("electric", "cng", 1);
    NotContains("electric", "diesel", 0);
    NotContains("electric", "deisel", 0);
  }

  lemma ElectricLacksHybrid()
    ensures !MentionsHybrid("electric")
  {
    NotContains("electric", "hybrid", 0);
    NotContains("electric", "phev", 0);
    NotContains("electric", "plug-in", 0);
    NotContains("electric", "plug in", 0);
    NotContains("electric", "mild", 0);
  }

  /** Text with no marker at all falls through to Petrol. */
  lemma UnknownIsPetrolExample()
    ensures MapFuelToCategory(Some("Electric")) == "Petrol"
  {
    assert Lower("Electric") == "electric";
    ElectricLacksCngDiesel();
    ElectricLacksHybrid();
    CategoryOrder("Electric");
  }
}
