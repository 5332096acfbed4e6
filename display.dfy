/** How the browser client turns a stored prediction into display values:
    the confidence badge, the damage label and the annotated-image address.
    The Home page's "Past Predicted" strip and the History page compute these
    with the same expressions. */
module PredictionDisplay {
  import opened Common
  import VehicleData

  /** A JSON value as the browser receives it. A missing field (undefined) is
      None where a field is `Option<JsValue>`. Arrays and objects are one case. */
  datatype JsValue = JsNull | JsBool(b: bool) | JsNumber(n: real) | JsString(s: string) | JsObject

  /** JavaScript truthiness of a field; a missing field is falsy. */
  predicate Truthy(v: Option<JsValue>) {
    v.Some? &&
    match v.value
    case JsNull => false
    case JsBool(b) => b
    case JsNumber(n) => n != 0.0
    case JsString(s) => s != ""
    case JsObject => true
  }

  /** `Number(v) || 0`: `parse` is the language's string-to-number grammar
      (None for a non-empty string that is not a number, i.e. NaN). NaN and
      every falsy value, the empty string included, become 0. */
  function NumberOrZero(v: Option<JsValue>, parse: string -> Option<real>): (r: real)
    ensures !Truthy(v) ==> r == 0.0
    ensures v.Some? && v.value.JsNumber? ==> r == v.value.n
    ensures Truthy(v) && v.value.JsString? ==> r == parse(v.value.s).GetOr(0.0)
  {
    match v
    case None => 0.0
    case Some(JsNull) => 0.0
    case Some(JsBool(b)) => if b then 1.0 else 0.0
    case Some(JsNumber(n)) => n
    case Some(JsString(s)) => if s == "" then 0.0 else parse(s).GetOr(0.0)
    case Some(JsObject) => 0.0
  }

  datatype Badge = Low | Moderate | High

  function Rank(b: Badge): nat {
    match b
    case Low => 0
    case Moderate => 1
    case High => 2
  }

  const HighThreshold: real := 0.9
  const ModerateThreshold: real := 0.6

  /** `ConfidenceBadge` (Home) and `getConfidenceBadge` (History): High from
      0.9 up, Moderate from 0.6 up, Low below. */
  function ConfidenceBadge(confidence: real): (b: Badge)
    ensures b == High <==> confidence >= HighThreshold
    ensures b == Moderate <==> ModerateThreshold <= confidence < HighThreshold
    ensures b == Low <==> confidence < ModerateThreshold
  {
    if confidence >= HighThreshold then High
    else if confidence >= ModerateThreshold then Moderate
    else Low
  }

  /** A higher confidence never earns a lower badge. */
  lemma BadgeMonotone(c1: real, c2: real)
    requires c1 <= c2
    ensures Rank(ConfidenceBadge(c1)) <= Rank(ConfidenceBadge(c2))
  {
  }

  /** A missing, null or non-numeric confidence is shown as 0 with the Low
      badge. */
  lemma UnreadableConfidenceIsLow(v: Option<JsValue>, parse: string -> Option<real>)
    requires v.None? || v.value.JsNull? || v.value.JsObject?
             || (v.value.JsString? && parse(v.value.s).None?)
    ensures NumberOrZero(v, parse) == 0.0
    ensures ConfidenceBadge(NumberOrZero(v, parse)) == Low
  {
  }

  /** The damage label: the first truthy of `damage_type` and `damageType`,
      else "", with every '_' replaced by a space. None is the render error a
      truthy non-string value raises (it has no `replace`). */
  function DamageLabel(damage_type: Option<JsValue>, damageType: Option<JsValue>): (r: Option<string>)
    ensures r.None? <==>
      if Truthy(damage_type) then !damage_type.value.JsString?
      else Truthy(damageType) && !damageType.value.JsString?
    ensures r.Some? ==> '_' !in r.value
    ensures Truthy(damage_type) && damage_type.value.JsString? ==>
      r == Some(ReplaceChar(damage_type.value.s, '_', ' '))
    ensures !Truthy(damage_type) && !Truthy(damageType) ==> r == Some("")
  {
    var chosen := if Truthy(damage_type) then damage_type.value
                  else if Truthy(damageType) then damageType.value
                  else JsString("");
    if chosen.JsString? then Some(ReplaceChar(chosen.s, '_', ' ')) else None
  }

  /** Every damage class the classifier reports is shown with its words
      separated by spaces and keeps its length; nothing else in the label
      changes. */
  lemma DamageClassLabels(d: string, other: Option<JsValue>)
    requires d in VehicleData.DamageTypes
    ensures var r := DamageLabel(Some(JsString(d)), other);
      && r.Some? && |r.value| == |d|
      && forall i :: 0 <= i < |d| ==> (r.value[i] == ' ' <==> d[i] == '_')
  {
    VehicleData.DamageTypesAreWords();
    var r := DamageLabel(Some(JsString(d)), other);
    assert Truthy(Some(JsString(d)));
    assert r == Some(ReplaceChar(d, '_', ' '));
    forall i | 0 <= i < |d| ensures r.value[i] == ' ' <==> d[i] == '_' {
      assert d[i] in d;
    }
  }

  /** Where the ML service serves annotated images. */
  const PredictedBase: string := "http://localhost:5000/api/predicted/"

  /** The annotated image: `annotated_image_url` when set, else an address
      built from `annotated_image_name`, else no image. */
  function ImageUrl(annotated_image_url: Option<string>, annotated_image_name: Option<string>)
    : (r: Option<string>)
    ensures r.None? <==> !Present(annotated_image_url) && !Present(annotated_image_name)
    ensures Present(annotated_image_url) ==> r == annotated_image_url
    ensures !Present(annotated_image_url) && Present(annotated_image_name) ==>
      r.Some? && IsPrefix(PredictedBase, r.value)
      && r.value[|PredictedBase|..] == annotated_image_name.value
  {
    if Present(annotated_image_url) then annotated_image_url
    else if Present(annotated_image_name) then Some(PredictedBase + annotated_image_name.value)
    else None
  }
}
