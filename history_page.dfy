/** The History page of the browser client: how the fetched prediction list
    becomes an error message, an empty notice or one row per prediction, and
    the fallbacks each row uses for fields the two servers name differently. */
module HistoryPage {
  import opened Common
  import opened PredictionDisplay

  /** One element of the prediction list, with the fields the page reads.
      The ML service writes snake_case names; the API server's records use
      camelCase, so the page tries both. None is a missing or null field. */
  datatype HistoryItem = HistoryItem(
    damage_type: Option<JsValue>,
    damageType: Option<JsValue>,
    confidence: Option<JsValue>,
    annotated_image_url: Option<string>,
    annotated_image_name: Option<string>,
    estimated_cost: Option<real>,
    estimatedCost: Option<real>,
    timestamp: Option<string>,
    createdAt: Option<string>)

  datatype CostCell = Amount(value: real) | CostNotAvailable

  /** A number field is truthy iff it is present and not 0. */
  predicate NonZero(v: Option<real>) { v.Some? && v.value != 0.0 }

  /** `estimated_cost || estimatedCost || 'N/A'`. */
  function CostCellOf(estimated_cost: Option<real>, estimatedCost: Option<real>): (c: CostCell)
    ensures c == CostNotAvailable <==> !NonZero(estimated_cost) && !NonZero(estimatedCost)
    ensures c.Amount? ==> c.value != 0.0
    ensures NonZero(estimated_cost) ==> c == Amount(estimated_cost.value)
    ensures !NonZero(estimated_cost) && NonZero(estimatedCost) ==> c == Amount(estimatedCost.value)
  {
    if NonZero(estimated_cost) then Amount(estimated_cost.value)
    else if NonZero(estimatedCost) then Amount(estimatedCost.value)
    else CostNotAvailable
  }

  /** A recorded cost of 0 is indistinguishable from a missing one: both read
      "N/A", and a zero snake_case cost gives way to the camelCase one. */
  lemma ZeroCostShowsNotAvailable(other: Option<real>)
    ensures CostCellOf(Some(0.0), None) == CostNotAvailable
    ensures CostCellOf(None, Some(0.0)) == CostNotAvailable
    ensures NonZero(other) ==> CostCellOf(Some(0.0), other) == Amount(other.value)
  {
  }

  /** The date is formatted from `timestamp`, else from `createdAt`; the
      formatting itself is left to the browser's locale. */
  datatype DateCell = DateOf(stamp: string) | DateNotAvailable

  function DateCellOf(timestamp: Option<string>, createdAt: Option<string>): (d: DateCell)
    ensures d == DateNotAvailable <==> !Present(timestamp) && !Present(createdAt)
    ensures Present(timestamp) ==> d == DateOf(timestamp.value)
    ensures !Present(timestamp) && Present(createdAt) ==> d == DateOf(createdAt.value)
  {
    if Present(timestamp) then DateOf(timestamp.value)
    else if Present(createdAt) then DateOf(createdAt.value)
    else DateNotAvailable
  }

  /** What one list entry shows. `damage` is None when the label cannot be
      built (see `DamageLabel`). */
  datatype Row = Row(damage: Option<string>, confidence: real, badge: Badge,
                     cost: CostCell, date: DateCell, image: Option<string>)

  /** One list entry of History.jsx: the badge matches the confidence shown,
      a missing or unreadable confidence shows as 0 with the Low badge, and
      the cost and date read "N/A" only when neither field name carries a
      value. */
  function RowOf(item: HistoryItem, parse: string -> Option<real>): (r: Row)
    ensures r.badge == ConfidenceBadge(r.confidence)
    ensures !Truthy(item.confidence) ==> r.confidence == 0.0 && r.badge == Low
    ensures r.cost == CostNotAvailable <==> !NonZero(item.estimated_cost) && !NonZero(item.estimatedCost)
    ensures r.date == DateNotAvailable <==> !Present(item.timestamp) && !Present(item.createdAt)
  {
    var confidence := NumberOrZero(item.confidence, parse);
    Row(DamageLabel(item.damage_type, item.damageType), confidence, ConfidenceBadge(confidence),
        CostCellOf(item.estimated_cost, item.estimatedCost),
        DateCellOf(item.timestamp, item.createdAt),
        ImageUrl(item.annotated_image_url, item.annotated_image_name))
  }

  /** The response body: a JSON array of items, any other JSON value, or text
      that `res.json()` cannot parse (with the parser's error message). */
  datatype Body = ArrayBody(items: seq<HistoryItem>) | OtherBody | Unparsable(error: string)

  /** What `fetch` gives: a response, or a rejection (a network failure) with
      its error message. */
  datatype Response = Response(ok: bool, status: nat, body: Body) | FetchFailed(error: string)

  /** What the page ends up showing once the fetch has settled. `Crashed` is
      the render error of an entry whose damage label cannot be built, which
      takes the whole page down. */
  datatype Screen = ErrorScreen(message: string) | EmptyScreen | ListScreen(rows: seq<Row>) | Crashed

  ghost predicate LabelsBuild(items: seq<HistoryItem>) {
    forall i :: 0 <= i < |items| ==> DamageLabel(items[i].damage_type, items[i].damageType).Some?
  }

  const FetchFallback: string := "Failed to fetch history"

  /** `err.message || 'Failed to fetch history'`. */
  function ErrorText(message: string): (t: string)
    ensures t != ""
    ensures message != "" ==> t == message
  {
    if message != "" then message else FetchFallback
  }

  /** Every path into the page's `catch`: a rejected fetch, a non-OK status
      (checked before the body is read), a body that does not parse, and a
      body that is not an array. */
  predicate Fails(resp: Response)
  {
    resp.FetchFailed? || !resp.ok || !resp.body.ArrayBody?
  }

  /** The page after loading: a rejected fetch, a non-OK status, an
      unparsable body and a body that is not an array are errors; an empty
      array is the "no history" notice; otherwise one row per item, in the
      order received. */
  function Show(resp: Response, parse: string -> Option<real>): (s: Screen)
    ensures s.ErrorScreen? <==> Fails(resp)
    ensures resp.FetchFailed? ==> s == ErrorScreen(ErrorText(resp.error))
    ensures resp.Response? && !resp.ok ==> s == ErrorScreen("HTTP error! status: " + NatToString(resp.status))
    ensures resp.Response? && resp.ok && resp.body.Unparsable? ==> s == ErrorScreen(ErrorText(resp.body.error))
    ensures resp.Response? && resp.ok && resp.body.OtherBody? ==> s == ErrorScreen("Unexpected data format")
    ensures s.EmptyScreen? <==> resp.Response? && resp.ok && resp.body == ArrayBody([])
    ensures s.Crashed? <==> !Fails(resp) && !LabelsBuild(resp.body.items)
    ensures s.ListScreen? ==>
      && !Fails(resp)
      && |s.rows| == |resp.body.items| > 0
      && forall i :: 0 <= i < |s.rows| ==>
           && s.rows[i] == RowOf(resp.body.items[i], parse)
           && s.rows[i].damage.Some?
  {
    match resp
    case FetchFailed(e) => ErrorScreen(ErrorText(e))
    case Response(ok, status, body) =>
      if !ok then ErrorScreen("HTTP error! status: " + NatToString(status))
      else match body
        case Unparsable(e) => ErrorScreen(ErrorText(e))
        case OtherBody => ErrorScreen("Unexpected data format")
        case ArrayBody(items) =>
          if items == [] then EmptyScreen
          else if exists i :: 0 <= i < |items| && DamageLabel(items[i].damage_type, items[i].damageType).None?
          then Crashed
          else ListScreen(seq(|items|, i requires 0 <= i < |items| => RowOf(items[i], parse)))
  }

  /** The fallback message shows only when the thrown error has no message:
      the page's own errors always carry one. */
  lemma FallbackOnlyForSilentErrors(resp: Response, parse: string -> Option<real>)
    requires Show(resp, parse) == ErrorScreen(FetchFallback)
    ensures resp.FetchFailed? ==> resp.error in {"", FetchFallback}
    ensures resp.Response? ==> resp.ok && resp.body.Unparsable? && resp.body.error in {"", FetchFallback}
  {
    if resp.Response? {
      HttpErrorIsNotFallback(NatToString(resp.status));
    }
  }

  lemma HttpErrorIsNotFallback(digits: string)
    ensures "HTTP error! status: " + digits != FetchFallback
  {
    assert ("HTTP error! status: " + digits)[0] != FetchFallback[0];
  }
}
