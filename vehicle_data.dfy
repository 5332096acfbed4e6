/** The repair-cost tables of the ML service: per-brand model lists and
    damage costs (in rupees), and the default costs used when the brand,
    the model or the damage type is not listed. */
module VehicleData {
  import opened Common

  /** The eight damage classes the classifier can report, in table order. */
  const DamageTypes: seq<string> :=
    ["window_broken", "scratch", "dent", "headlight_broken",
     "flat_tire", "mirror_broken", "bumper_dent", "totaled"]

  const DefaultCosts: map<string, int> := map[
    "window_broken" := 4000,
    "scratch" := 1500,
    "dent" := 3000,
    "headlight_broken" := 2500,
    "flat_tire" := 1200,
    "mirror_broken" := 2500,
    "bumper_dent" := 4500,
    "totaled" := 85000
  ]

  datatype VehicleInfo = VehicleInfo(models: seq<string>, damageCosts: map<string, int>)

  /** The brands, in the order the table lists them. */
  const Brands: seq<string> := ["toyota", "honda", "suzuki", "hyundai", "mahindra"]

  const Vehicles: map<string, VehicleInfo> := map[
    "toyota" := VehicleInfo(
      ["innova", "corolla", "hilux", "rav4", "fortuner"],
      map["window_broken" := 5000, "scratch" := 2000, "dent" := 3500, "headlight_broken" := 3000,
          "flat_tire" := 1500, "mirror_broken" := 2800, "bumper_dent" := 5000, "totaled" := 100000]),
    "honda" := VehicleInfo(
      ["civic", "crv", "city", "wr-v", "accord"],
      map["window_broken" := 4500, "scratch" := 1800, "dent" := 3200, "headlight_broken" := 2900,
          "flat_tire" := 1400, "mirror_broken" := 2600, "bumper_dent" := 4800, "totaled" := 95000]),
    "suzuki" := VehicleInfo(
      ["swift", "cultus", "ertiga", "wagon_r", "ciaz"],
      map["window_broken" := 4200, "scratch" := 1700, "dent" := 3000, "headlight_broken" := 2700,
          "flat_tire" := 1300, "mirror_broken" := 2500, "bumper_dent" := 4600, "totaled" := 90000]),
    "hyundai" := VehicleInfo(
      ["tucson", "elantra", "creta", "sonata", "accent"],
      map["window_broken" := 4700, "scratch" := 1900, "dent" := 3300, "headlight_broken" := 2800,
          "flat_tire" := 1450, "mirror_broken" := 2700, "bumper_dent" := 4700, "totaled" := 97000]),
    "mahindra" := VehicleInfo(
      ["scorpio", "bolero", "xuv500", "thar", "marazzo"],
      map["window_broken" := 4800, "scratch" := 2000, "dent" := 3400, "headlight_broken" := 2900,
          "flat_tire" := 1500, "mirror_broken" := 2750, "bumper_dent" := 4900, "totaled" := 98000])
  ]

  /** The default table is keyed by exactly the eight damage classes. */
  lemma DefaultCostsKeys()
    ensures DefaultCosts.Keys == set d | d in DamageTypes
    ensures |DamageTypes| == 8
  {
  }

  /** Every brand prices exactly the damage classes of the default table, so a
      lookup of a known damage class in a brand's table never falls back. */
  lemma BrandCostsCoverDefaults(brand: string)
    requires brand in Vehicles
    ensures Vehicles[brand].damageCosts.Keys == DefaultCosts.Keys
  {
  }

  /** The brand keys are exactly `Brands`, all lower case, so they can match a
      lower-cased vehicle name. */
  lemma BrandKeys()
    ensures Vehicles.Keys == set b | b in Brands
    ensures forall b :: b in Vehicles ==> IsLowerCase(b)
  {
  }

  /** Every brand lists five distinct model names. */
  lemma BrandModels(brand: string)
    requires brand in Vehicles
    ensures |Vehicles[brand].models| == 5
    ensures forall i, j :: 0 <= i < j < 5 ==> Vehicles[brand].models[i] != Vehicles[brand].models[j]
  {
    var ms := Vehicles[brand].models;
    if brand == "toyota" {
      assert ms == ["innova", "corolla", "hilux", "rav4", "fortuner"];
    } else if brand == "honda" {
      assert ms == ["civic", "crv", "city", "wr-v", "accord"];
    } else if brand == "suzuki" {
      assert ms == ["swift", "cultus", "ertiga", "wagon_r", "ciaz"];
    } else if brand == "hyundai" {
      assert ms == ["tucson", "elantra", "creta", "sonata", "accent"];
    } else {
      assert ms == ["scorpio", "bolero", "xuv500", "thar", "marazzo"];
    }
  }

  /** Every model name is lower case, so it can match a lower-cased model
      name. */
  lemma BrandModelsLowerCase(brand: string)
    requires brand in Vehicles
    ensures forall m :: m in Vehicles[brand].models ==> IsLowerCase(m)
  {
    var ms := Vehicles[brand].models;
    if brand == "toyota" {
      assert ms == ["innova", "corolla", "hilux", "rav4", "fortuner"];
    } else if brand == "honda" {
      assert ms == ["civic", "crv", "city", "wr-v", "accord"];
    } else if brand == "suzuki" {
      assert ms == ["swift", "cultus", "ertiga", "wagon_r", "ciaz"];
    } else if brand == "hyundai" {
      assert ms == ["tucson", "elantra", "creta", "sonata", "accent"];
    } else {
      assert ms == ["scorpio", "bolero", "xuv500", "thar", "marazzo"];
    }
  }

  /** The cheapest repair in either table: a flat tyre at the default price. */
  const MinimumCost: int := 1200

  /** Every cost in both tables is at least the cheapest repair, so every
      price is positive. */
  lemma CostsAtLeastMinimum()
    ensures forall d :: d in DefaultCosts ==> DefaultCosts[d] >= MinimumCost
    ensures forall b, d :: b in Vehicles && d in Vehicles[b].damageCosts ==> Vehicles[b].damageCosts[d] >= MinimumCost
  {
    DefaultCostsAtLeastMinimum();
    BrandCostsAtLeastMinimum();
  }

  lemma DefaultCostsAtLeastMinimum()
    ensures forall d :: d in DefaultCosts ==> DefaultCosts[d] >= MinimumCost
  {
  }

  lemma BrandCostsAtLeastMinimum()
    ensures forall b, d :: b in Vehicles && d in Vehicles[b].damageCosts ==> Vehicles[b].damageCosts[d] >= MinimumCost
  {
  }

  /** No damage class is empty or holds a space: each is words joined by
      '_'. */
  lemma DamageTypesAreWords()
    ensures forall d :: d in DamageTypes ==> d != "" && ' ' !in d
  {
  }
}
