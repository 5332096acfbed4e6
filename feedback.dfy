/** Customer feedback on the API server: the Feedback schema (trimmed fields,
    minimum lengths, a default city, timestamps), the route's own check on
    POST, and the "latest ten" listing. */
module FeedbackBoard {
  import opened Common
  import opened Ids

  datatype Feedback = Feedback(
    id: ObjectId, name: string, city: string, review: string, createdAt: int, updatedAt: int)

  function CreatedAt(f: Feedback): int { f.createdAt }

  function FeedbackId(f: Feedback): ObjectId { f.id }

  const NameMinLength: nat := 2
  const ReviewMinLength: nat := 5
  const ListLimit: nat := 10

  /** The schema applied to a body that passed the route's check: every field
      is trimmed; name needs 2 and review 5 characters after trimming; a
      missing city becomes ""; both timestamps are the save time. None is a
      validation error. */
  function ValidateFeedback(name: string, city: Option<string>, review: string, id: ObjectId, now: int)
    : (r: Option<Feedback>)
    ensures r.Some? <==> |JsTrim(name)| >= NameMinLength && |JsTrim(review)| >= ReviewMinLength
    ensures r.Some? ==>
      && r.value.id == id
      && r.value.name == JsTrim(name) && r.value.review == JsTrim(review)
      && r.value.city == (if city.Some? then JsTrim(city.value) else "")
      && r.value.createdAt == now && r.value.updatedAt == now
  {
    var n := JsTrim(name);
    var v := JsTrim(review);
    if |n| < NameMinLength || |v| < ReviewMinLength then None
    else Some(Feedback(id, n, if city.Some? then JsTrim(city.value) else "", v, now, now))
  }

  /** A stored text field: not empty, at least `min` characters, with no whitespace at
      either end. */
  predicate Trimmed(t: string, min: nat) {
    |t| >= min && t != [] && !IsJsSpace(t[0]) && !IsJsSpace(t[|t| - 1])
  }

  /** A stored name and review never begin or end with whitespace and are at
      least 2 and 5 characters long. */
  lemma ValidatedFieldsAreTrimmed(name: string, city: Option<string>, review: string, id: ObjectId, now: int)
    requires ValidateFeedback(name, city, review, id, now).Some?
    ensures var f := ValidateFeedback(name, city, review, id, now).value;
      Trimmed(f.name, 2) && Trimmed(f.review, 5)
  {
  }

  /** `POST /api/feedbacks`: 400 when name or review is missing or empty; 500
      when the schema refuses the record; otherwise 201 with the saved record. */
  function PostFeedback(name: Option<string>, city: Option<string>, review: Option<string>, id: ObjectId, now: int)
    : (out: (int, Option<Feedback>))
    ensures out.0 in {201, 400, 500}
    ensures out.0 == 400 <==> !Present(name) || !Present(review)
    ensures out.0 == 500 <==>
      Present(name) && Present(review)
      && (|JsTrim(name.value)| < NameMinLength || |JsTrim(review.value)| < ReviewMinLength)
    ensures out.1.Some? <==> out.0 == 201
    ensures out.0 == 201 ==> out.1 == ValidateFeedback(name.value, city, review.value, id, now)
  {
    if !Present(name) || !Present(review) then (400, None)
    else
      var saved := ValidateFeedback(name.value, city, review.value, id, now);
      if saved.None? then (500, None) else (201, saved)
  }

  /** Passing the route's check is not enough: a one-letter name is refused
      by the schema with 500, while two letters are accepted (with a review
      that already has at least 5 characters and no surrounding spaces). */
  lemma ShortNameRefusedBySchema(c: char, d: char, review: string, id: ObjectId, now: int)
    requires !IsJsSpace(c) && !IsJsSpace(d)
    requires |review| >= ReviewMinLength && !IsJsSpace(review[0]) && !IsJsSpace(review[|review| - 1])
    ensures PostFeedback(Some([c]), None, Some(review), id, now).0 == 500
    ensures PostFeedback(Some([c, d]), None, Some(review), id, now).0 == 201
  {
    StripKeepsInner(review, IsJsSpace);
    StripKeepsInner([c], IsJsSpace);
    StripKeepsInner([c, d], IsJsSpace);
  }

  /** A name of spaces only passes the route's check and is refused by the
      schema with 500. */
  lemma BlankNameRefusedBySchema(id: ObjectId, now: int)
    ensures PostFeedback(Some("   "), None, Some("Great service"), id, now).0 == 500
  {
    StripOfAllSpace("   ", IsJsSpace);
  }

  /** The first `n` elements of `s`, or all of them (`.limit(n)`). */
  function Take<T>(s: seq<T>, n: nat): (r: seq<T>)
    ensures |r| == Min(|s|, n) && r == s[..|r|]
  {
    if |s| <= n then s else s[..n]
  }

  /** `GET /api/feedbacks`: the newest ten records, newest first. */
  function Latest(items: seq<Feedback>): (r: seq<Feedback>)
    ensures |r| == Min(|items|, ListLimit)
    ensures SortedDesc(r, CreatedAt)
    ensures multiset(r) <= multiset(items)
  {
    var sorted := SortDesc(items, CreatedAt);
    var r := Take(sorted, ListLimit);
    assert sorted == r + sorted[|r|..];
    assert multiset(sorted) == multiset(r) + multiset(sorted[|r|..]);
    r
  }

  /** Every record left out of the listing is no newer than every record in it. */
  lemma LatestAreMostRecent(items: seq<Feedback>, x: Feedback)
    requires x in items && x !in Latest(items)
    ensures forall f :: f in Latest(items) ==> f.createdAt >= x.createdAt
  {
    var sorted := SortDesc(items, CreatedAt);
    SortDescMembers(items, CreatedAt, x);
    var j :| 0 <= j < |sorted| && sorted[j] == x;
    assert j >= ListLimit;
    forall f | f in Latest(items) ensures f.createdAt >= x.createdAt {
      var i :| 0 <= i < |Latest(items)| && Latest(items)[i] == f;
      assert sorted[i] == f;
    }
  }

  /** The `feedbacks` collection, in insertion order. */
  class FeedbackStore {
    var items: seq<Feedback>

    /** No two records share an `_id` (MongoDB's unique index). */
    ghost predicate Valid()
      reads this
    {
      UniqueKeys(items, FeedbackId)
    }

    constructor ()
      ensures Valid() && items == []
    {
      items := [];
    }

    /** `POST /api/feedbacks`: stores exactly one record on 201 and nothing
        otherwise; a record whose `_id` is already stored fails to save (500). */
    method Post(name: Option<string>, city: Option<string>, review: Option<string>, id: ObjectId, now: int)
      returns (status: int, saved: Option<Feedback>)
      requires Valid()
      modifies this
      ensures Valid()
      ensures var (s, f) := PostFeedback(name, city, review, id, now);
        if s == 201 && FindFirst(old(items), FeedbackId, id).Some?
        then status == 500 && saved.None? && items == old(items)
        else (status, saved) == (s, f)
             && (s == 201 ==> items == old(items) + [f.value])
             && (s != 201 ==> items == old(items))
    {
      if !Present(name) || !Present(review) {
        return 400, None;
      }
      saved := ValidateFeedback(name.value, city, review.value, id, now);
      if saved.None? || FindFirst(items, FeedbackId, id).Some? {
        return 500, None;
      }
      AppendFreshKey(items, FeedbackId, saved.value);
      items := items + [saved.value];
      status := 201;
    }
  }
}
