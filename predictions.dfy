/** The API server's view of stored predictions: the Prediction schema as a
    record validator, and the admin controller's listing and deletion. */
module PredictionRecords {
  import opened Common
  import opened Ids

  /** The fields a Prediction document is built from; None is a missing or
      null field. */
  datatype PredictionInput = PredictionInput(
    vehicleName: Option<string>,
    vehicleModel: Option<string>,
    damageType: Option<string>,
    confidence: Option<real>,
    estimatedCost: Option<real>,
    imageName: Option<string>,
    user: Option<ObjectId>)

  datatype Prediction = Prediction(
    id: ObjectId,
    vehicleName: string,
    vehicleModel: string,
    damageType: string,
    confidence: real,
    estimatedCost: real,
    imageName: string,
    user: Option<ObjectId>,
    createdAt: int,
    updatedAt: int)

  function PredictionId(p: Prediction): ObjectId { p.id }

  function CreatedAt(p: Prediction): int { p.createdAt }

  /** The schema: the four strings are required (missing or "" fails), the two
      numbers are required (only a missing value fails, with no range
      constraint), `user` is optional, and both timestamps are the save time. */
  function ValidatePrediction(p: PredictionInput, id: ObjectId, now: int): (r: Option<Prediction>)
    ensures r.Some? <==>
      && Present(p.vehicleName) && Present(p.vehicleModel) && Present(p.damageType)
      && Present(p.imageName) && p.confidence.Some? && p.estimatedCost.Some?
    ensures r.Some? ==>
      && r.value.id == id
      && r.value.vehicleName == p.vehicleName.value && r.value.vehicleModel == p.vehicleModel.value
      && r.value.damageType == p.damageType.value && r.value.imageName == p.imageName.value
      && r.value.confidence == p.confidence.value && r.value.estimatedCost == p.estimatedCost.value
      && r.value.user == p.user
      && r.value.createdAt == now && r.value.updatedAt == now
  {
    if !Present(p.vehicleName) || !Present(p.vehicleModel) || !Present(p.damageType)
       || !Present(p.imageName) || p.confidence.None? || p.estimatedCost.None?
    then None
    else Some(Prediction(id, p.vehicleName.value, p.vehicleModel.value, p.damageType.value,
                         p.confidence.value, p.estimatedCost.value, p.imageName.value, p.user, now, now))
  }

  /** The schema accepts any number: a negative confidence and a negative
      cost pass validation, while an empty required string does not. */
  lemma SchemaHasNoRanges(id: ObjectId, now: int, owner: Option<ObjectId>)
    ensures ValidatePrediction(PredictionInput(Some("toyota"), Some("innova"), Some("dent"),
                                               Some(-1.0), Some(-500.0), Some("a.png"), owner), id, now).Some?
    ensures ValidatePrediction(PredictionInput(Some("toyota"), Some("innova"), Some(""),
                                               Some(0.5), Some(500.0), Some("a.png"), owner), id, now).None?
  {
  }

  // `getAllPredictions` lists every prediction newest first:
  // `SortDesc(docs, CreatedAt)`.

  /** `deletePrediction` in the admin controller: an id that does not cast
      raises (500); an absent prediction is 404; otherwise exactly that record
      is removed (200). */
  function DeletePrediction(docs: seq<Prediction>, id: string): (out: (int, seq<Prediction>))
    ensures out.0 == 500 <==> !IsObjectIdText(id)
    ensures out.0 == 404 <==> IsObjectIdText(id) && FindFirst(docs, PredictionId, CastObjectId(id).value).None?
    ensures out.0 != 200 ==> out.1 == docs
    ensures out.0 == 200 ==>
      var k := FindFirst(docs, PredictionId, CastObjectId(id).value).value;
      out.1 == RemoveAt(docs, k) && docs[k].id == CastObjectId(id).value
  {
    match CastObjectId(id)
    case None => (500, docs)
    case Some(oid) =>
      match FindFirst(docs, PredictionId, oid)
      case None => (404, docs)
      case Some(k) => (200, RemoveAt(docs, k))
  }

  /** With unique ids, a deleted prediction is gone: deleting it again is 404,
      and the collection shrinks by exactly that one record. */
  lemma DeletePredictionIsFinal(docs: seq<Prediction>, id: string)
    requires UniqueKeys(docs, PredictionId) && DeletePrediction(docs, id).0 == 200
    ensures var after := DeletePrediction(docs, id).1;
      && DeletePrediction(after, id).0 == 404
      && UniqueKeys(after, PredictionId)
      && |after| == |docs| - 1
  {
    var k := FindFirst(docs, PredictionId, CastObjectId(id).value).value;
    RemoveUniqueKey(docs, PredictionId, k);
  }

  /** The `predictions` collection as the API server sees it. */
  class PredictionStore {
    var docs: seq<Prediction>

    /** No two predictions share an `_id` (MongoDB's unique index). */
    ghost predicate Valid()
      reads this
    {
      UniqueKeys(docs, PredictionId)
    }

    constructor ()
      ensures Valid() && docs == []
    {
      docs := [];
    }

    /** `DELETE /api/admin/predictions/:id` in the admin controller: looks the
        prediction up, then deletes it. */
    method Delete(id: string) returns (status: int)
      requires Valid()
      modifies this
      ensures Valid()
      ensures (status, docs) == DeletePrediction(old(docs), id)
    {
      var oid := CastObjectId(id);
      if oid.None? {
        return 500;
      }
      var k := FindFirst(docs, PredictionId, oid.value);
      if k.None? {
        return 404;
      }
      RemoveUniqueKey(docs, PredictionId, k.value);
      docs := RemoveAt(docs, k.value);
      status := 200;
    }
  }
}
