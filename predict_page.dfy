/** The Predict page of the browser client: the capped list of chosen
    images, the brand and model selects with their option tables, and the
    check before the form is posted. */
module PredictPage {
  import opened Common
  import VehicleData
  import Estimator

  /** The most images one request may carry. */
  const MaxImages: nat := 6

  /** A chosen file, known to the page by its name. */
  datatype ImageFile = ImageFile(name: string)

  /** The brands the brand select offers, in display order, after its empty
      placeholder. */
  const BrandOptions: seq<string> := ["toyota", "honda", "suzuki", "hyundai", "mahindra", "unknown"]

  /** The page's own model table: three models per brand. */
  const ModelTable: map<string, seq<string>> := map[
    "toyota" := ["innova", "corolla", "hilux"],
    "honda" := ["civic", "city", "crv"],
    "suzuki" := ["swift", "wagon_r", "ciaz"],
    "hyundai" := ["tucson", "creta", "accent"],
    "mahindra" := ["scorpio", "xuv500", "thar"]
  ]

  /** The models the model select offers for `brand`, after its empty
      placeholder: the brand's table entry followed by "unknown"; only
      "unknown" when no brand or the "unknown" brand is chosen. */
  function ModelOptions(brand: string): (r: seq<string>)
    requires brand == "" || brand in BrandOptions
    ensures |r| >= 1 && r[|r| - 1] == "unknown"
    ensures brand in ModelTable ==> r[..|r| - 1] == ModelTable[brand]
    ensures brand !in ModelTable ==> r == ["unknown"]
  {
    if brand == "" || brand == "unknown" then ["unknown"] else ModelTable[brand] + ["unknown"]
  }

  /** The selectable brands other than "unknown" are exactly the brands of
      the cost tables, in the same order. */
  lemma BrandOptionsMatchCostTables()
    ensures BrandOptions == VehicleData.Brands + ["unknown"]
    ensures forall b :: b in BrandOptions && b != "unknown" <==> b in VehicleData.Vehicles
    ensures ModelTable.Keys == VehicleData.Vehicles.Keys
  {
    VehicleData.BrandKeys();
  }

  /** Every model the page offers for a brand is one the cost tables list for
      that brand, and "unknown" is always offered. */
  lemma OfferedModelsAreKnown(brand: string, m: string)
    requires brand == "" || brand in BrandOptions
    requires m in ModelOptions(brand)
    ensures m == "unknown" || (brand in VehicleData.Vehicles && m in VehicleData.Vehicles[brand].models)
  {
    if m != "unknown" {
      var r := ModelOptions(brand);
      var j :| 0 <= j < |r| && r[j] == m;
      assert brand in ModelTable;
      assert j < |r| - 1;
      assert m in ModelTable[brand] by { assert r[..|r| - 1][j] == m; }
    }
  }

  /** No offered model name is empty or begins or ends with whitespace. */
  lemma ModelNamesUnpadded(brand: string, m: string)
    requires brand in ModelTable && m in ModelTable[brand]
    ensures m != [] && !IsPySpace(m[0]) && !IsPySpace(m[|m| - 1])
  {
  }

  lemma BrandNamesUnpadded(brand: string)
    requires brand in VehicleData.Vehicles
    ensures brand != [] && !IsPySpace(brand[0]) && !IsPySpace(brand[|brand| - 1])
  {
  }

  lemma OfferedModelInTable(brand: string, m: string)
    requires brand in ModelTable && m in ModelOptions(brand) && m != "unknown"
    ensures m in ModelTable[brand]
  {
    var r := ModelOptions(brand);
    var j :| 0 <= j < |r| && r[j] == m;
    assert r[..|r| - 1][j] == m;
  }

  /** Lower-casing and stripping leave a lower-case, unpadded name as it is. */
  lemma NormalisingKeeps(s: string)
    requires IsLowerCase(s) && s != [] && !IsPySpace(s[0]) && !IsPySpace(s[|s| - 1])
    ensures PyStrip(Lower(s)) == s
  {
    LowerOfLowerCase(s);
    StripKeepsInner(s, IsPySpace);
  }

  /** A brand and a model chosen on the page reach the ML service unchanged
      by its lower-casing and stripping, so the estimate is priced from that
      brand's own cost table rather than the default one. */
  lemma PageChoicesPriceFromBrandTable(brand: string, m: string, damage: string)
    requires brand in VehicleData.Vehicles && m in ModelOptions(brand) && m != "unknown"
    requires damage in VehicleData.DefaultCosts
    ensures PyStrip(Lower(brand)) == brand && PyStrip(Lower(m)) == m
    ensures damage in VehicleData.Vehicles[brand].damageCosts
      && Estimator.BaseCost(damage, brand, m) == VehicleData.Vehicles[brand].damageCosts[damage]
  {
    VehicleData.BrandKeys();
    assert brand in BrandOptions;
    OfferedModelsAreKnown(brand, m);
    VehicleData.BrandModels(brand);
    VehicleData.BrandModelsLowerCase(brand);
    BrandNamesUnpadded(brand);
    NormalisingKeeps(brand);
    OfferedModelInTable(brand, m);
    ModelNamesUnpadded(brand, m);
    NormalisingKeeps(m);
    VehicleData.BrandCostsCoverDefaults(brand);
  }

  /** The submit check: a brand, a model and at least one image. */
  predicate CanSubmit(brand: string, model: string, images: seq<ImageFile>) {
    brand != "" && model != "" && |images| > 0
  }

  /** The form fields a submit sends: the brand and model under the ML
      service's field names, then each image in order. */
  datatype PredictRequest = PredictRequest(vehicle_name: string, vehicle_model: string, images: seq<ImageFile>)

  /** The page's form state. `Valid` holds from the start and every handler
      keeps it, so the image list never holds more than six images. */
  class PredictForm {
    var brand: string
    var model: string
    var images: seq<ImageFile>

    ghost predicate Valid()
      reads this
    {
      |images| <= MaxImages && (brand == "" || brand in BrandOptions)
    }

    constructor ()
      ensures Valid() && brand == "" && model == "" && images == []
    {
      brand := "";
      model := "";
      images := [];
    }

    /** A file selection: refused without any change when it would take the
        list past six images, otherwise appended after the images already
        chosen, in order. */
    method ChooseImages(selected: seq<ImageFile>) returns (accepted: bool)
      requires Valid()
      modifies this
      ensures Valid()
      ensures accepted <==> |old(images)| + |selected| <= MaxImages
      ensures images == (if accepted then old(images) + selected else old(images))
      ensures brand == old(brand) && model == old(model)
    {
      if |selected| + |images| > MaxImages {
        return false;
      }
      images := images + selected;
      accepted := true;
    }

    /** Choosing a brand clears the chosen model. */
    method ChooseBrand(b: string)
      requires Valid() && (b == "" || b in BrandOptions)
      modifies this
      ensures Valid() && brand == b && model == "" && images == old(images)
    {
      brand := b;
      model := "";
    }

    /** Choosing one of the offered models. */
    method ChooseModel(m: string)
      requires Valid() && brand != "" && m in ModelOptions(brand)
      modifies this
      ensures Valid() && model == m && brand == old(brand) && images == old(images)
    {
      model := m;
    }

    /** Submitting: None when the check refuses (nothing is sent), otherwise
        the request carrying the chosen brand, model and images. The chosen
        images stay on the form either way. */
    method Submit() returns (request: Option<PredictRequest>)
      requires Valid()
      ensures request.Some? <==> CanSubmit(brand, model, images)
      ensures request.Some? ==>
        request.value == PredictRequest(brand, model, images) && 1 <= |request.value.images| <= MaxImages
    {
      if brand == "" || model == "" || |images| == 0 {
        return None;
      }
      request := Some(PredictRequest(brand, model, images));
    }
  }
}
