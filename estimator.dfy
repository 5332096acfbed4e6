/** The repair-cost estimator of the ML service (`POST /api/predict` and
    `DELETE /api/admin/predictions/<id>`). The damage classifier is not part
    of the model: what it reports for each image is an input. */
module Estimator {
  import opened Common
  import opened Ids
  import opened VehicleData

  const AllowedExtensions: set<string> := {"jpg", "jpeg", "png"}
  const ConfidenceThreshold: real := 0.3
  /** Only the first six uploaded files are examined. */
  const MaxImages: nat := 6

  const DamageSeverity: map<string, string> := map[
    "scratch" := "low",
    "flat_tire" := "low",
    "mirror_broken" := "low",
    "dent" := "medium",
    "window_broken" := "medium",
    "headlight_broken" := "medium",
    "bumper_dent" := "medium",
    "totaled" := "high"
  ]
  const SeverityRanges: map<string, string> := map[
    "low" := "Rs 5,000 \U{2013} 10,000",
    "medium" := "Rs 15,000 \U{2013} 30,000",
    "high" := "Rs 40,000 \U{2013} 80,000"
  ]
  const FallbackSeverity: string := "medium"
  const FallbackRange: string := "Rs 10,000 \U{2013} 20,000"

  const InvalidFormat: string := "Invalid file format."
  const LowConfidence: string := "Low confidence or unknown damage detected."
  const NoCostEstimate: string := "Confidence too low for cost estimation."

  // ---------------------------------------------------------------------------
  // Helpers
  // ---------------------------------------------------------------------------

  /** Position `k` holds the last '.' of `s`. */
  predicate IsLastDot(s: string, k: int)
  {
    0 <= k < |s| && s[k] == '.' && '.' !in s[k + 1..]
  }

  /** `allowed_file`: the name has a '.', and the text after the last '.',
      lower-cased, is jpg, jpeg or png. */
  function AllowedFile(filename: string): (ok: bool)
    ensures ok <==> exists k :: IsLastDot(filename, k) && ExtensionAllowed(filename[k + 1..])
  {
    match LastIndexOf(filename, '.')
    case None => false
    case Some(k) =>
      LastDotDecides(filename, k);
      ExtensionAllowed(filename[k + 1..])
  }

  /** Once the last '.' is found at `k`, the extension test is the test of
      the text after `k`. */
  lemma LastDotDecides(filename: string, k: int)
    requires IsLastDot(filename, k)
    ensures (exists j :: IsLastDot(filename, j) && ExtensionAllowed(filename[j + 1..]))
            <==> ExtensionAllowed(filename[k + 1..])
  {
    LastDotUnique(filename, k);
  }

  /** The extension, lower-cased, is one of jpg, jpeg and png. */
  predicate ExtensionAllowed(ext: string)
  {
    Lower(ext) in AllowedExtensions
  }

  lemma LastDotUnique(s: string, k: int)
    requires IsLastDot(s, k)
    ensures forall j :: IsLastDot(s, j) ==> j == k
  {
    forall j | 0 <= j < k && s[j] == '.' ensures '.' in s[j + 1..] {
      assert s[j + 1..][k - j - 1] == s[k];
    }
    forall j | k < j < |s| ensures s[j] != '.' {
      assert s[j] == s[k + 1..][j - k - 1];
    }
  }

  /** `q` is what Python's `int(a / b)` gives: the quotient truncated toward zero. */
  predicate IsTruncatedQuotient(q: int, a: int, b: int)
    requires b > 0
  {
    (a >= 0 ==> b * q <= a < b * q + b) && (a < 0 ==> b * q - b < a <= b * q)
  }

  function TruncDiv(a: int, b: int): (q: int)
    requires b > 0
    ensures IsTruncatedQuotient(q, a, b)
  {
    if a >= 0 then a / b else -((-a) / b)
  }

  /** `dynamic_cost`: no estimate below 0.6; 20% off below 0.7; the base cost
      up to 0.9; 10% more above 0.9. The products are computed exactly and
      truncated as `int()` truncates. */
  function DynamicCost(base: int, confidence: real): (r: Option<int>)
    ensures r.None? <==> confidence < 0.6
    ensures 0.6 <= confidence < 0.7 ==> r.Some? && IsTruncatedQuotient(r.value, base * 8, 10)
    ensures 0.7 <= confidence <= 0.9 ==> r == Some(base)
    ensures confidence > 0.9 ==> r.Some? && IsTruncatedQuotient(r.value, base * 11, 10)
  {
    if confidence < 0.6 then None
    else if confidence < 0.7 then Some(TruncDiv(base * 8, 10))
    else if confidence > 0.9 then Some(TruncDiv(base * 11, 10))
    else Some(base)
  }

  /** A positive base cost always yields a positive estimate, and the estimate
      stays within 80% .. 110% of the base. */
  lemma DynamicCostBand(base: int, confidence: real)
    requires base >= 10 && confidence >= 0.6
    ensures DynamicCost(base, confidence).Some?
    ensures var c := DynamicCost(base, confidence).value;
      0 < c && 8 * base < 10 * c + 10 && 10 * c <= 11 * base
  {
  }

  /** The base cost of a damage class: the brand's price when the lower-cased
      name is a listed brand and the model is one of its models, and the
      default price otherwise. */
  function BaseCost(damage: string, vehicleName: string, vehicleModel: string): (cost: int)
    requires damage in DefaultCosts
    ensures cost == if vehicleName in Vehicles && vehicleModel in Vehicles[vehicleName].models
                    then Vehicles[vehicleName].damageCosts[damage]
                    else DefaultCosts[damage]
    ensures cost >= MinimumCost
  {
    CostsAtLeastMinimum();
    var cost := DefaultCosts[damage];
    if vehicleName in Vehicles then
      var info := Vehicles[vehicleName];
      BrandCostsCoverDefaults(vehicleName);
      if vehicleModel in info.models then
        (if damage in info.damageCosts then info.damageCosts[damage] else cost)
      else cost
    else cost
  }

  /** `damage_severity.get(damage_type, "medium")`: every answer, the
      fallback included, is a severity with a cost range. */
  function Severity(damage: string): (r: string)
    ensures damage in DamageSeverity ==> r == DamageSeverity[damage]
    ensures damage !in DamageSeverity ==> r == FallbackSeverity
    ensures r in SeverityRanges
  {
    if damage in DamageSeverity then DamageSeverity[damage] else FallbackSeverity
  }

  /** `severity_ranges.get(severity, ...)`: the fallback range is not one of
      the table's ranges, so it shows up only for an unknown severity. */
  function CostRange(severity: string): (r: string)
    ensures r == FallbackRange <==> severity !in SeverityRanges
    ensures severity in SeverityRanges ==> r == SeverityRanges[severity]
  {
    if severity in SeverityRanges then SeverityRanges[severity] else FallbackRange
  }

  /** Every damage class with a default cost has a severity of its own, and
      every severity has a cost range: neither fallback is ever taken for a
      damage class that passes the gate. */
  lemma SeverityCoversDamageTypes(damage: string)
    requires damage in DefaultCosts
    ensures damage in DamageSeverity && Severity(damage) in SeverityRanges
    ensures CostRange(Severity(damage)) != FallbackRange
  {
  }

  // ---------------------------------------------------------------------------
  // One uploaded file
  // ---------------------------------------------------------------------------

  /** What `predict_damage` reports for an image. */
  datatype Classification = Classification(damageType: string, confidence: real)

  /** An uploaded file together with what the parts outside the model produce
      for it: the sanitised name (`secure_filename`), the uuid prefix, the
      classifier's verdict (None when it raises), the annotated image name
      (None when annotating raises), the clock reading taken when its record
      is built (`datetime.now()`) and the id the database assigns. */
  datatype Upload = Upload(
    filename: string,
    safeName: string,
    uuidHex: string,
    classification: Option<Classification>,
    annotated: Option<string>,
    clock: int,
    docId: ObjectId)

  datatype FileResult =
    | FileError(error: string, filename: string)
    | Estimate(damage: string, confidencePercent: real, estimatedCost: int,
               costRange: string, annotatedUrl: string, filename: string)

  /** The document stored in the `predictions` collection. */
  datatype PredictionRecord = PredictionRecord(
    vehicleName: string,
    vehicleModel: string,
    imageName: string,
    annotatedImageName: string,
    damageType: string,
    confidence: real,
    estimatedCost: int,
    severity: string,
    costRange: string,
    timestamp: int,
    userId: Option<ObjectId>)

  datatype Doc = Doc(id: ObjectId, record: PredictionRecord)

  function DocId(d: Doc): ObjectId { d.id }

  /** The request's form fields after normalisation, and the server's host URL. */
  datatype Context = Context(
    vehicleName: string, vehicleModel: string, userId: Option<ObjectId>, hostUrl: string)

  /** One pass of the loop body: the file either raises (the whole request
      then fails) or adds one result and possibly one stored record. */
  datatype Step = Raised | Handled(result: FileResult, inserted: Option<Doc>)

  /** The gates a file must pass for its estimate to be stored, given the
      records already in the collection. */
  ghost predicate Insertable(u: Upload, ctx: Context, stored: seq<Doc>)
  {
    && AllowedFile(u.filename)
    && u.classification.Some?
    && u.classification.value.confidence >= ConfidenceThreshold
    && u.classification.value.damageType in DefaultCosts
    && DynamicCost(BaseCost(u.classification.value.damageType, ctx.vehicleName, ctx.vehicleModel),
                   u.classification.value.confidence).Some?
    && u.annotated.Some?
    && FindFirst(stored, DocId, u.docId).None?
  }

  /** The body of the loop in `predict` for one file, against the records
      already stored: a file with an unreadable name gets the "Invalid file
      format." entry; every file handled without a record gets an error
      entry; a record is stored under the upload's id, which must be new
      (`insert_one` raises on a duplicate `_id`). */
  function ProcessFile(u: Upload, ctx: Context, stored: seq<Doc>): (s: Step)
    ensures !AllowedFile(u.filename) ==> s == Handled(FileError(InvalidFormat, u.filename), None)
    ensures s.Handled? && s.inserted.None? ==> s.result.FileError?
    ensures s.Handled? && s.inserted.Some? ==>
      && s.result.Estimate?
      && s.inserted.value.id == u.docId
      && FindFirst(stored, DocId, u.docId).None?
  {
    if !AllowedFile(u.filename) then
      Handled(FileError(InvalidFormat, u.filename), None)
    else match u.classification
      case None => Raised
      case Some(Classification(damage, confidence)) =>
        if confidence < ConfidenceThreshold || damage !in DefaultCosts then
          Handled(FileError(LowConfidence, u.safeName), None)
        else
          var cost := BaseCost(damage, ctx.vehicleName, ctx.vehicleModel);
          var adjusted := DynamicCost(cost, confidence);
          if adjusted.None? then
            Handled(FileError(NoCostEstimate, u.safeName), None)
          else
            var severity := Severity(damage);
            var range := CostRange(severity);
            match u.annotated
            case None => Raised
            case Some(annotatedName) =>
              if FindFirst(stored, DocId, u.docId).Some? then Raised
              else
                var url := RStripSlash(ctx.hostUrl) + "/api/predicted/" + annotatedName;
                var record := PredictionRecord(
                  ctx.vehicleName, ctx.vehicleModel, u.uuidHex + "_" + u.safeName, annotatedName,
                  damage, confidence, adjusted.value, severity, range, u.clock, ctx.userId);
                Handled(Estimate(damage, confidence * 100.0, adjusted.value, range, url, u.safeName),
                        Some(Doc(u.docId, record)))
  }

  /** A record is stored exactly when the file passes every gate; a stored
      record and the success entry agree on damage type, cost and cost range,
      the cost is positive, neither fallback of the severity tables is used,
      and the record carries the upload's own clock reading. */
  lemma ProcessFileSpec(u: Upload, ctx: Context, stored: seq<Doc>)
    ensures var s := ProcessFile(u, ctx, stored);
      && ((s.Handled? && s.inserted.Some?) <==> Insertable(u, ctx, stored))
      && (s.Handled? && s.inserted.Some? ==>
            var rec := s.inserted.value.record;
            && s.result.damage == rec.damageType == u.classification.value.damageType
            && s.result.estimatedCost == rec.estimatedCost > 0
            && s.result.costRange == rec.costRange != FallbackRange
            && rec.severity in SeverityRanges
            && s.result.filename == u.safeName
            && rec.timestamp == u.clock
            && rec.userId == ctx.userId)
  {
    if AllowedFile(u.filename) && u.classification.Some? {
      var c := u.classification.value;
      if c.confidence >= ConfidenceThreshold && c.damageType in DefaultCosts {
        var cost := BaseCost(c.damageType, ctx.vehicleName, ctx.vehicleModel);
        SeverityCoversDamageTypes(c.damageType);
        if c.confidence >= 0.6 {
          DynamicCostBand(cost, c.confidence);
        }
      }
    }
  }

  // ---------------------------------------------------------------------------
  // The whole request
  // ---------------------------------------------------------------------------

  /** The form fields of the request; None when the field is absent. */
  datatype PredictForm = PredictForm(
    vehicleName: Option<string>, vehicleModel: Option<string>, user: Option<string>)

  datatype PredictResponse =
    | NoImages400
    | Success200(results: seq<FileResult>)
    | Failed500

  /** The fields as `predict` reads them: names default to "unknown" and are
      lower-cased and stripped; the user id is kept only when it is given and
      parses as an ObjectId. */
  function RequestContext(form: PredictForm, hostUrl: string): (ctx: Context)
    ensures ctx.vehicleName == PyStrip(Lower(form.vehicleName.GetOr("unknown")))
    ensures ctx.vehicleModel == PyStrip(Lower(form.vehicleModel.GetOr("unknown")))
    ensures IsLowerCase(ctx.vehicleName) && IsLowerCase(ctx.vehicleModel)
    ensures form.user.Some? && CastObjectId(form.user.value).Some? ==>
      ctx.userId == CastObjectId(form.user.value)
    ensures (form.user.None? || !IsObjectIdText(form.user.value)) ==> ctx.userId.None?
    ensures ctx.hostUrl == hostUrl
  {
    var name := PyStrip(Lower(form.vehicleName.GetOr("unknown")));
    var model := PyStrip(Lower(form.vehicleModel.GetOr("unknown")));
    LowerIsLowerCase(form.vehicleName.GetOr("unknown"));
    LowerIsLowerCase(form.vehicleModel.GetOr("unknown"));
    StripKeepsLowerCase(Lower(form.vehicleName.GetOr("unknown")), IsPySpace);
    StripKeepsLowerCase(Lower(form.vehicleModel.GetOr("unknown")), IsPySpace);
    var userId := if form.user.Some? && form.user.value != "" then CastObjectId(form.user.value) else None;
    Context(name, model, userId, hostUrl)
  }

  /** The results and stored records after the loop has seen `files`, and
      whether some file raised (after which the loop stops). */
  datatype Run = Run(results: seq<FileResult>, inserted: seq<Doc>, raised: bool)

  /** The loop over `files`, starting from the records in `stored`: each file
      is checked against the records stored so far. At most one result per
      file and at most one record per result; without a raise, exactly one
      result per file. */
  function RunFiles(files: seq<Upload>, ctx: Context, stored: seq<Doc>): (run: Run)
    ensures |run.inserted| <= |run.results| <= |files|
    ensures !run.raised ==> |run.results| == |files|
  {
    if files == [] then Run([], [], false)
    else
      var prev := RunFiles(files[..|files| - 1], ctx, stored);
      if prev.raised then prev
      else match ProcessFile(files[|files| - 1], ctx, stored + prev.inserted)
        case Raised => Run(prev.results, prev.inserted, true)
        case Handled(r, ins) =>
          Run(prev.results + [r], prev.inserted + (if ins.Some? then [ins.value] else []), false)
  }

  /** The response to `POST /api/predict` and the records it adds to `stored`
      (records stored before a failing file stay stored): 400 exactly when
      there is no `images` field, and at most six new records. */
  function PredictOutcome(images: Option<seq<Upload>>, form: PredictForm, hostUrl: string, stored: seq<Doc>)
    : (out: (PredictResponse, seq<Doc>))
    ensures out.0.NoImages400? <==> images.None?
    ensures images.None? ==> out.1 == []
  {
    if images.None? then (NoImages400, [])
    else
      var batch := Examined(images.value);
      var run := RunFiles(batch, RequestContext(form, hostUrl), stored);
      (Respond(run), run.inserted)
  }

  /** With an `images` field, the outcome is the run over the first six files. */
  lemma OutcomeOfRun(images: Option<seq<Upload>>, form: PredictForm, hostUrl: string, stored: seq<Doc>)
    requires images.Some?
    ensures var run := RunFiles(Examined(images.value), RequestContext(form, hostUrl), stored);
      PredictOutcome(images, form, hostUrl, stored) == (Respond(run), run.inserted)
  {
  }

  /** A request stores at most six records. */
  lemma PredictStoresAtMostSix(images: Option<seq<Upload>>, form: PredictForm, hostUrl: string, stored: seq<Doc>)
    ensures |PredictOutcome(images, form, hostUrl, stored).1| <= MaxImages
  {
    if images.Some? {
      OutcomeWithinBatch(images, form, hostUrl, stored);
      assert |Examined(images.value)| <= MaxImages;
    }
  }

  /** With an `images` field, no more records are stored than files examined. */
  lemma OutcomeWithinBatch(images: Option<seq<Upload>>, form: PredictForm, hostUrl: string, stored: seq<Doc>)
    requires images.Some?
    ensures |PredictOutcome(images, form, hostUrl, stored).1| <= |Examined(images.value)|
  {
    RunLength(Examined(images.value), RequestContext(form, hostUrl), stored);
    OutcomeOfRun(images, form, hostUrl, stored);
  }

  /** A run over `files` stores at most one record per file. */
  lemma RunLength(files: seq<Upload>, ctx: Context, stored: seq<Doc>)
    ensures |RunFiles(files, ctx, stored).inserted| <= |files|
  {
  }

  /** A request never stores a record under an id that is already taken. */
  lemma PredictKeepsIdsUnique(images: Option<seq<Upload>>, form: PredictForm, hostUrl: string, stored: seq<Doc>)
    requires UniqueKeys(stored, DocId)
    ensures UniqueKeys(stored + PredictOutcome(images, form, hostUrl, stored).1, DocId)
  {
    if images.None? {
      assert stored + [] == stored;
    } else {
      RunKeepsIdsUnique(Examined(images.value), RequestContext(form, hostUrl), stored);
    }
  }

  /** The files the loop looks at: the first six. */
  function Examined(files: seq<Upload>): (batch: seq<Upload>)
    ensures |batch| == Min(|files|, MaxImages) && batch == files[..|batch|]
  {
    files[..Min(|files|, MaxImages)]
  }

  /** The response to a finished run: 500 once a file raised, else the results. */
  function Respond(run: Run): PredictResponse {
    if run.raised then Failed500 else Success200(run.results)
  }

  /** One more file extends the run by that file's step. */
  lemma RunStep(files: seq<Upload>, ctx: Context, stored: seq<Doc>, i: nat, current: seq<Doc>)
    requires i < |files| && !RunFiles(files[..i], ctx, stored).raised
    requires current == stored + RunFiles(files[..i], ctx, stored).inserted
    ensures var prev := RunFiles(files[..i], ctx, stored);
      var step := ProcessFile(files[i], ctx, current);
      RunFiles(files[..i + 1], ctx, stored) ==
        if step.Raised? then Run(prev.results, prev.inserted, true)
        else Run(prev.results + [step.result],
                 prev.inserted + (if step.inserted.Some? then [step.inserted.value] else []), false)
  {
    assert files[..i + 1][..i] == files[..i];
  }

  /** RunStep, told apart by the outcome of the one file. */
  lemma NextRun(files: seq<Upload>, ctx: Context, stored: seq<Doc>, i: nat, current: seq<Doc>, step: Step)
    requires i < |files| && !RunFiles(files[..i], ctx, stored).raised
    requires current == stored + RunFiles(files[..i], ctx, stored).inserted
    requires step == ProcessFile(files[i], ctx, current)
    ensures var prev := RunFiles(files[..i], ctx, stored);
      var run := RunFiles(files[..i + 1], ctx, stored);
      && run.raised == step.Raised?
      && (step.Raised? ==> run.results == prev.results && stored + run.inserted == current)
      && (step.Handled? ==> run.results == prev.results + [step.result])
      && (step.Handled? && step.inserted.None? ==> stored + run.inserted == current)
      && (step.Handled? && step.inserted.Some? ==> stored + run.inserted == current + [step.inserted.value])
  {
    RunStep(files, ctx, stored, i, current);
    var prev := RunFiles(files[..i], ctx, stored);
    if step.Handled? && step.inserted.Some? {
      assert stored + (prev.inserted + [step.inserted.value]) == current + [step.inserted.value];
    } else if step.Handled? {
      assert prev.inserted + [] == prev.inserted;
    }
  }

  /** Once a file raises, later files change nothing. */
  lemma {:induction false} RaisedIsFinal(files: seq<Upload>, ctx: Context, stored: seq<Doc>, k: nat)
    requires k <= |files| && RunFiles(files[..k], ctx, stored).raised
    ensures RunFiles(files, ctx, stored) == RunFiles(files[..k], ctx, stored)
  {
    if k < |files| {
      assert files[..|files| - 1][..k] == files[..k];
      RaisedIsFinal(files[..|files| - 1], ctx, stored, k);
    } else {
      assert files[..k] == files;
    }
  }

  /** A run only adds records under ids the collection does not hold yet, so
      the ids stay unique. */
  lemma {:induction false} RunKeepsIdsUnique(files: seq<Upload>, ctx: Context, stored: seq<Doc>)
    ensures UniqueKeys(stored, DocId) ==> UniqueKeys(stored + RunFiles(files, ctx, stored).inserted, DocId)
  {
    if !UniqueKeys(stored, DocId) {
    } else if files == [] {
      assert stored + [] == stored;
    } else {
      var init := files[..|files| - 1];
      RunKeepsIdsUnique(init, ctx, stored);
      var prev := RunFiles(init, ctx, stored);
      if !prev.raised {
        var current := stored + prev.inserted;
        StepKeepsIdsUnique(files[|files| - 1], ctx, current);
        var step := ProcessFile(files[|files| - 1], ctx, current);
        if step.Handled? && step.inserted.Some? {
          assert stored + (prev.inserted + [step.inserted.value]) == current + [step.inserted.value];
        } else {
          assert RunFiles(files, ctx, stored).inserted == prev.inserted;
        }
      }
    }
  }

  /** A record stored by one file has an id that was free. */
  lemma StepKeepsIdsUnique(u: Upload, ctx: Context, current: seq<Doc>)
    requires UniqueKeys(current, DocId)
    ensures var step := ProcessFile(u, ctx, current);
      step.Handled? && step.inserted.Some? ==> UniqueKeys(current + [step.inserted.value], DocId)
  {
    var step := ProcessFile(u, ctx, current);
    if step.Handled? && step.inserted.Some? {
      AppendFreshKey(current, DocId, step.inserted.value);
    }
  }

  /** The success results of a run, in order. */
  function Estimates(results: seq<FileResult>): (r: seq<FileResult>)
    ensures forall j :: 0 <= j < |r| ==> r[j].Estimate?
  {
    if results == [] then []
    else Estimates(results[..|results| - 1])
         + (if results[|results| - 1].Estimate? then [results[|results| - 1]] else [])
  }

  /** When no file raises, the stored records are exactly the successful
      estimates, in order, with the same damage type and cost. */
  lemma {:induction false} RunAccounting(files: seq<Upload>, ctx: Context, stored: seq<Doc>)
    requires !RunFiles(files, ctx, stored).raised
    ensures var run := RunFiles(files, ctx, stored);
      && |run.inserted| == |Estimates(run.results)|
      && forall j :: 0 <= j < |run.inserted| ==>
           && run.inserted[j].record.damageType == Estimates(run.results)[j].damage
           && run.inserted[j].record.estimatedCost == Estimates(run.results)[j].estimatedCost
  {
    if files != [] {
      var init := files[..|files| - 1];
      RunAccounting(init, ctx, stored);
      var prev := RunFiles(init, ctx, stored);
      var run := RunFiles(files, ctx, stored);
      ProcessFileSpec(files[|files| - 1], ctx, stored + prev.inserted);
      assert run.results[..|run.results| - 1] == prev.results;
    }
  }

  /** Without a failure, the response has one entry per examined file: as
      many as were uploaded, but never more than six. */
  lemma PredictResultCount(images: Option<seq<Upload>>, form: PredictForm, hostUrl: string, stored: seq<Doc>)
    requires PredictOutcome(images, form, hostUrl, stored).0.Success200?
    ensures images.Some?
    ensures |PredictOutcome(images, form, hostUrl, stored).0.results| == Min(|images.value|, MaxImages)
  {
    var batch := Examined(images.value);
    var run := RunFiles(batch, RequestContext(form, hostUrl), stored);
    assert PredictOutcome(images, form, hostUrl, stored).0 == Respond(run);
  }

  /** A missing `images` field is answered 400 and stores nothing. */
  lemma NoImagesStoresNothing(form: PredictForm, hostUrl: string, stored: seq<Doc>)
    ensures PredictOutcome(None, form, hostUrl, stored) == (NoImages400, [])
  {
  }

  /** The `predictions` collection of the ML service. */
  class PredictionCollection {
    var docs: seq<Doc>

    /** No two records share an `_id` (MongoDB's unique index). */
    ghost predicate Valid()
      reads this
    {
      UniqueKeys(docs, DocId)
    }

    constructor ()
      ensures Valid() && docs == []
    {
      docs := [];
    }

    /** `POST /api/predict`: examines at most six files, one at a time, and
        inserts one record for each estimate. */
    method Predict(images: Option<seq<Upload>>, form: PredictForm, hostUrl: string)
      returns (resp: PredictResponse)
      requires Valid()
      modifies this
      ensures Valid()
      ensures resp == PredictOutcome(images, form, hostUrl, old(docs)).0
      ensures docs == old(docs) + PredictOutcome(images, form, hostUrl, old(docs)).1
    {
      PredictKeepsIdsUnique(images, form, hostUrl, docs);
      if images.None? {
        return NoImages400;
      }
      var ctx := RequestContext(form, hostUrl);
      var batch := Examined(images.value);
      OutcomeOfRun(images, form, hostUrl, docs);
      var results, raised := RunBatch(batch, ctx);
      resp := if raised then Failed500 else Success200(results);
    }

    /** The loop of `predict`: each file is examined against the records
        stored so far, and an estimate's record is inserted before the next
        file is looked at; the loop stops at the first file that raises. */
    method RunBatch(batch: seq<Upload>, ctx: Context) returns (results: seq<FileResult>, raised: bool)
      modifies this
      ensures var run := RunFiles(batch, ctx, old(docs));
        && results == run.results && raised == run.raised
        && docs == old(docs) + run.inserted
    {
      ghost var stored := docs;
      results := [];
      var i := 0;
      while i < |batch|
        invariant 0 <= i <= |batch|
        invariant !RunFiles(batch[..i], ctx, stored).raised
        invariant results == RunFiles(batch[..i], ctx, stored).results
        invariant docs == stored + RunFiles(batch[..i], ctx, stored).inserted
      {
        var stop;
        results, stop := ExamineNext(batch, ctx, stored, i, results);
        if stop {
          RaisedIsFinal(batch, ctx, stored, i + 1);
          return results, true;
        }
        i := i + 1;
      }
      assert i == |batch|;
      assert batch[..i] == batch;
      raised := false;
    }

    /** One pass of the loop: examines `batch[i]` against the records stored
        so far and inserts its record, if any. */
    method ExamineNext(batch: seq<Upload>, ctx: Context, ghost stored: seq<Doc>, i: nat,
                       results: seq<FileResult>)
      returns (results': seq<FileResult>, raised: bool)
      requires i < |batch| && !RunFiles(batch[..i], ctx, stored).raised
      requires results == RunFiles(batch[..i], ctx, stored).results
      requires docs == stored + RunFiles(batch[..i], ctx, stored).inserted
      modifies this
      ensures var run := RunFiles(batch[..i + 1], ctx, stored);
        && raised == run.raised && results' == run.results
        && docs == stored + run.inserted
    {
      var step := ProcessFile(batch[i], ctx, docs);
      NextRun(batch, ctx, stored, i, docs, step);
      if step.Raised? {
        return results, true;
      }
      results' := results + [step.result];
      raised := false;
      if step.inserted.Some? {
        docs := docs + [step.inserted.value];
      }
    }

    /** `DELETE /api/admin/predictions/<id>`: an id that does not parse raises
        (500); otherwise the record with that id is removed (200), or none
        matches (404). */
    method DeletePrediction(id: string) returns (status: int)
      requires Valid()
      modifies this
      ensures Valid()
      ensures CastObjectId(id).None? ==> status == 500 && docs == old(docs)
      ensures CastObjectId(id).Some? ==>
        match FindFirst(old(docs), DocId, CastObjectId(id).value)
        case None => status == 404 && docs == old(docs)
        case Some(k) => status == 200 && docs == RemoveAt(old(docs), k)
                        && FindFirst(docs, DocId, CastObjectId(id).value).None?
    {
      var oid := CastObjectId(id);
      if oid.None? {
        return 500;
      }
      match FindFirst(docs, DocId, oid.value)
      case None =>
        status := 404;
      case Some(k) =>
        RemoveUniqueKey(docs, DocId, k);
        docs := RemoveAt(docs, k);
        status := 200;
    }
  }

  // ---------------------------------------------------------------------------
  // convert_objectid_to_str
  // ---------------------------------------------------------------------------

  /** A document as pymongo returns it. */
  datatype Bson =
    | BOid(oid: ObjectId)
    | BList(items: seq<Bson>)
    | BDict(fields: map<string, Bson>)
    | BStr(text: string)
    | BNum(number: real)
    | BDate(millis: int)

  ghost predicate NoObjectIds(v: Bson)
  {
    match v
    case BOid(_) => false
    case BList(items) => forall i :: 0 <= i < |items| ==> NoObjectIds(items[i])
    case BDict(fields) => forall k :: k in fields ==> NoObjectIds(fields[k])
    case _ => true
  }

  /** `r` is `v` with every ObjectId leaf replaced by its text: lists keep
      their length, dicts their keys, and every other leaf is unchanged. */
  ghost predicate OnlyIdsRendered(v: Bson, r: Bson)
  {
    match v
    case BOid(o) => r == BStr(o.hex)
    case BList(items) =>
      r.BList? && |r.items| == |items| && forall i :: 0 <= i < |items| ==> OnlyIdsRendered(items[i], r.items[i])
    case BDict(fields) =>
      r.BDict? && r.fields.Keys == fields.Keys && forall k :: k in fields ==> OnlyIdsRendered(fields[k], r.fields[k])
    case _ => r == v
  }

  /** `convert_objectid_to_str`, applied to each record before it is returned as JSON. */
  function ConvertObjectIdToStr(v: Bson): (r: Bson)
    ensures NoObjectIds(r)
    ensures OnlyIdsRendered(v, r)
  {
    match v
    case BOid(o) => BStr(o.hex)
    case BList(items) => BList(seq(|items|, i requires 0 <= i < |items| => ConvertObjectIdToStr(items[i])))
    case BDict(fields) => BDict(map k | k in fields :: ConvertObjectIdToStr(fields[k]))
    case _ => v
  }

  /** A document without ObjectIds is left as it is; so converting twice is
      the same as converting once. */
  lemma {:induction false} ConvertFixesIdFree(v: Bson)
    requires NoObjectIds(v)
    ensures ConvertObjectIdToStr(v) == v
  {
    match v
    case BList(items) =>
      forall i | 0 <= i < |items| ensures ConvertObjectIdToStr(items[i]) == items[i] {
        ConvertFixesIdFree(items[i]);
      }
      assert ConvertObjectIdToStr(v).items == items;
    case BDict(fields) =>
      forall k | k in fields ensures ConvertObjectIdToStr(fields[k]) == fields[k] {
        ConvertFixesIdFree(fields[k]);
      }
      assert ConvertObjectIdToStr(v).fields == fields;
    case _ =>
  }

  lemma ConvertIdempotent(v: Bson)
    ensures ConvertObjectIdToStr(ConvertObjectIdToStr(v)) == ConvertObjectIdToStr(v)
  {
    ConvertFixesIdFree(ConvertObjectIdToStr(v));
  }
}
