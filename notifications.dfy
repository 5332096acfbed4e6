/** The notification store of the API server: the Notification schema, the
    admin notification router (list, create, mark-read with an ownership
    rule), the per-user listing, and the two notification handlers of the
    admin controller that answer the same paths. */
module Notifications {
  import opened Common
  import opened Ids

  /** A stored notification. `target` None is the schema's `userId: null`,
      meaning "every user"; `isRead` is one flag shared by every viewer. */
  datatype Notification = Notification(
    id: ObjectId,
    title: string,
    message: string,
    target: Option<ObjectId>,
    isRead: bool,
    createdAt: int)

  function NotificationId(n: Notification): ObjectId { n.id }

  function CreatedAt(n: Notification): int { n.createdAt }

  // ---------------------------------------------------------------------------
  // Creating
  // ---------------------------------------------------------------------------

  /** `new Notification({ title, message, userId: userId || null }).save()` in
      the admin router. Saving fails (500) when the title or the message is
      missing or empty, or when a non-empty `userId` is not an ObjectId; a
      saved notification is unread, stamped `now`, and targets the given user,
      or everyone when `userId` was empty or missing. */
  function RouterCreate(title: Option<string>, message: Option<string>, userId: Option<string>,
                        id: ObjectId, now: int): (r: Option<Notification>)
    ensures r.Some? <==> Present(title) && Present(message) && (Present(userId) ==> IsObjectIdText(userId.value))
    ensures r.Some? ==>
      && r.value.id == id && r.value.title == title.value && r.value.message == message.value
      && !r.value.isRead && r.value.createdAt == now
      && (r.value.target.None? <==> !Present(userId))
      && (Present(userId) ==> r.value.target == CastObjectId(userId.value))
  {
    if !Present(title) || !Present(message) then None
    else if !Present(userId) then Some(Notification(id, title.value, message.value, None, false, now))
    else match CastObjectId(userId.value)
      case None => None
      case Some(target) => Some(Notification(id, title.value, message.value, Some(target), false, now))
  }

  /** `createNotification` in the admin controller passes the target as `user`,
      a path the schema does not declare, so mongoose drops it: the saved
      notification is a broadcast whatever `userId` was, and a malformed
      `userId` cannot make the save fail. */
  function ControllerCreate(title: Option<string>, message: Option<string>, userId: Option<string>,
                            id: ObjectId, now: int): (r: Option<Notification>)
    ensures r.Some? <==> Present(title) && Present(message)
    ensures r.Some? ==> r.value.target.None? && !r.value.isRead
  {
    RouterCreate(title, message, None, id, now)
  }

  /** Both handlers build the same notification when no target is given; with
      a target, only the router keeps it. */
  lemma CreateHandlersAgreeOnBroadcast(title: Option<string>, message: Option<string>, userId: Option<string>,
                                       id: ObjectId, now: int)
    requires !Present(userId)
    ensures ControllerCreate(title, message, userId, id, now) == RouterCreate(title, message, userId, id, now)
  {
  }

  // ---------------------------------------------------------------------------
  // Marking as read
  // ---------------------------------------------------------------------------

  /** The ownership rule of the router: a broadcast may be marked by anyone,
      a targeted notification by its target and by admins. */
  predicate MayMarkRead(n: Notification, requester: Requester): (ok: bool)
    ensures n.target.None? ==> ok
    ensures n.target == Some(requester.id) ==> ok
    ensures IsAdmin(requester) ==> ok
    ensures !ok ==> n.target.Some? && n.target.value != requester.id && requester.role != "admin"
  {
    n.target.None? || n.target.value == requester.id || IsAdmin(requester)
  }

  /** The store after the notification at `k` is marked read. */
  function SetRead(items: seq<Notification>, k: nat): seq<Notification>
    requires k < |items|
  {
    items[k := items[k].(isRead := true)]
  }

  /** `PUT /notifications/:id/read` in the admin router: an id that does not
      cast raises (500); an unknown id is 404; a notification the requester
      may not mark is 403; otherwise the flag of the first notification with
      that id is set (200) and nothing else changes. Only 200 changes the
      store. */
  function RouterMarkRead(items: seq<Notification>, id: string, requester: Requester)
    : (out: (int, seq<Notification>))
    ensures out.0 == 500 <==> !IsObjectIdText(id)
    ensures out.0 == 404 <==>
      IsObjectIdText(id) && FindFirst(items, NotificationId, CastObjectId(id).value).None?
    ensures out.0 == 403 <==>
      && IsObjectIdText(id) && FindFirst(items, NotificationId, CastObjectId(id).value).Some?
      && !MayMarkRead(items[FindFirst(items, NotificationId, CastObjectId(id).value).value], requester)
    ensures out.0 in {200, 403, 404, 500}
    ensures out.0 != 200 ==> out.1 == items
    ensures out.0 == 200 ==>
      var k := FindFirst(items, NotificationId, CastObjectId(id).value).value;
      && |out.1| == |items|
      && out.1[k] == items[k].(isRead := true)
      && forall j :: 0 <= j < |items| && j != k ==> out.1[j] == items[j]
  {
    match CastObjectId(id)
    case None => (500, items)
    case Some(oid) =>
      match FindFirst(items, NotificationId, oid)
      case None => (404, items)
      case Some(k) =>
        if !MayMarkRead(items[k], requester) then (403, items)
        else (200, SetRead(items, k))
  }

  /** `markNotificationRead` in the admin controller: the same, with no
      ownership rule. */
  function ControllerMarkRead(items: seq<Notification>, id: string): (out: (int, seq<Notification>))
    ensures out.0 == 500 <==> !IsObjectIdText(id)
    ensures out.0 == 404 <==>
      IsObjectIdText(id) && FindFirst(items, NotificationId, CastObjectId(id).value).None?
    ensures out.0 in {200, 404, 500}
    ensures out.0 != 200 ==> out.1 == items
    ensures out.0 == 200 ==>
      var k := FindFirst(items, NotificationId, CastObjectId(id).value).value;
      && |out.1| == |items|
      && out.1[k] == items[k].(isRead := true)
      && forall j :: 0 <= j < |items| && j != k ==> out.1[j] == items[j]
  {
    match CastObjectId(id)
    case None => (500, items)
    case Some(oid) =>
      match FindFirst(items, NotificationId, oid)
      case None => (404, items)
      case Some(k) => (200, SetRead(items, k))
  }

  /** Marking twice is the same as marking once: the second call answers 200
      again and leaves the store as the first call left it. */
  lemma RouterMarkReadIdempotent(items: seq<Notification>, id: string, requester: Requester)
    requires RouterMarkRead(items, id, requester).0 == 200
    ensures var after := RouterMarkRead(items, id, requester).1;
      RouterMarkRead(after, id, requester) == (200, after)
  {
    var oid := CastObjectId(id).value;
    var k := FindFirst(items, NotificationId, oid).value;
    var after := SetRead(items, k);
    SetReadKeepsLookup(items, k, oid);
    assert after[k := after[k].(isRead := true)] == after;
  }

  /** Setting a flag changes no id, so a lookup by id finds the same position. */
  lemma SetReadKeepsLookup(items: seq<Notification>, k: nat, oid: ObjectId)
    requires k < |items|
    ensures FindFirst(SetRead(items, k), NotificationId, oid) == FindFirst(items, NotificationId, oid)
  {
    var after := SetRead(items, k);
    assert forall j :: 0 <= j < |items| ==> NotificationId(after[j]) == NotificationId(items[j]);
    FindFirstSameKeys(items, after, oid);
  }

  lemma {:induction false} FindFirstSameKeys(a: seq<Notification>, b: seq<Notification>, oid: ObjectId)
    requires |a| == |b| && forall j :: 0 <= j < |a| ==> NotificationId(a[j]) == NotificationId(b[j])
    ensures FindFirst(a, NotificationId, oid) == FindFirst(b, NotificationId, oid)
  {
    if a != [] {
      FindFirstSameKeys(a[1..], b[1..], oid);
    }
  }

  /** For an admin, the router's ownership rule never refuses, so both
      mark-read handlers give the same answer and the same store. */
  lemma MarkReadHandlersAgreeForAdmins(items: seq<Notification>, id: string, requester: Requester)
    requires IsAdmin(requester)
    ensures RouterMarkRead(items, id, requester) == ControllerMarkRead(items, id)
  {
  }

  /** Any signed-in user may mark a broadcast read, and the one shared flag
      then reads true in every user's listing. */
  lemma BroadcastReadForEveryone(items: seq<Notification>, id: string, requester: Requester, user: ObjectId)
    requires IsObjectIdText(id)
    requires FindFirst(items, NotificationId, CastObjectId(id).value).Some?
    requires items[FindFirst(items, NotificationId, CastObjectId(id).value).value].target.None?
    ensures var (status, after) := RouterMarkRead(items, id, requester);
      var k := FindFirst(items, NotificationId, CastObjectId(id).value).value;
      && status == 200
      && after[k] in UserList(after, user)
      && after[k].isRead
  {
    var k := FindFirst(items, NotificationId, CastObjectId(id).value).value;
    var after := SetRead(items, k);
    assert after[k] in after;
  }

  // ---------------------------------------------------------------------------
  // Listing
  // ---------------------------------------------------------------------------

  /** `GET /api/admin/notifications`. The admin controller's router is
      mounted first, so `getAllNotifications` answers this path, and the
      admin notification router's own listing is never reached. Its
      `.populate('user', 'name email')` names a path the schema does not
      declare: with `strictPopulate` (the default from mongoose 6 on) the
      query throws and the handler answers 500; without it the path is
      ignored and the answer is 200 with every notification, each once,
      newest first. */
  function AdminListing(items: seq<Notification>, strictPopulate: bool): (r: (int, seq<Notification>))
    ensures r.0 == 200 || r.0 == 500
    ensures r.0 == 500 <==> strictPopulate
    ensures r.0 == 500 ==> r.1 == []
    ensures r.0 == 200 ==> multiset(r.1) == multiset(items) && SortedDesc(r.1, CreatedAt)
  {
    if strictPopulate then (500, []) else (200, SortDesc(items, CreatedAt))
  }

  /** The `$or` filter of the per-user listing: the requester's own
      notifications and the broadcasts. */
  predicate VisibleTo(n: Notification, user: ObjectId)
  {
    n.target == Some(user) || n.target.None?
  }

  /** The filter keeps each matching document as often as it is stored and
      drops every other one. */
  function Visible(items: seq<Notification>, user: ObjectId): (r: seq<Notification>)
    ensures multiset(r) <= multiset(items)
    ensures forall n :: multiset(r)[n] == if VisibleTo(n, user) then multiset(items)[n] else 0
  {
    if items == [] then []
    else
      assert items == [items[0]] + items[1..];
      (if VisibleTo(items[0], user) then [items[0]] else []) + Visible(items[1..], user)
  }

  lemma {:induction false} VisibleMembers(items: seq<Notification>, user: ObjectId, n: Notification)
    ensures n in Visible(items, user) <==> n in items && VisibleTo(n, user)
  {
    if items != [] {
      VisibleMembers(items[1..], user, n);
      assert items == [items[0]] + items[1..];
    }
  }

  /** `GET /api/notifications/user`: a notification is listed exactly when it
      targets the user or everyone, as often as it is stored, and the listing
      is newest first. */
  function UserList(items: seq<Notification>, user: ObjectId): (r: seq<Notification>)
    ensures forall n :: n in r <==> n in items && VisibleTo(n, user)
    ensures multiset(r) == multiset(Visible(items, user)) && multiset(r) <= multiset(items)
    ensures forall n :: multiset(r)[n] == if VisibleTo(n, user) then multiset(items)[n] else 0
    ensures SortedDesc(r, CreatedAt)
  {
    var r := SortDesc(Visible(items, user), CreatedAt);
    assert forall n :: n in r <==> n in items && VisibleTo(n, user) by {
      forall n ensures n in r <==> n in items && VisibleTo(n, user) {
        VisibleMembers(items, user, n);
        SortDescMembers(Visible(items, user), CreatedAt, n);
      }
    }
    r
  }

  /** Every broadcast is listed for every user. */
  lemma BroadcastListedForAll(items: seq<Notification>, n: Notification, user: ObjectId)
    requires n in items && n.target.None?
    ensures n in UserList(items, user)
  {
  }

  // ---------------------------------------------------------------------------
  // The store
  // ---------------------------------------------------------------------------

  /** Setting a flag keeps the ids unique. */
  lemma SetReadKeepsUnique(items: seq<Notification>, k: nat)
    requires k < |items| && UniqueKeys(items, NotificationId)
    ensures UniqueKeys(SetRead(items, k), NotificationId)
  {
    assert forall j :: 0 <= j < |items| ==> NotificationId(SetRead(items, k)[j]) == NotificationId(items[j]);
  }

  /** The `notifications` collection, in insertion order. */
  class NotificationStore {
    var items: seq<Notification>

    /** No two notifications share an `_id` (MongoDB's unique index). */
    ghost predicate Valid()
      reads this
    {
      UniqueKeys(items, NotificationId)
    }

    constructor ()
      ensures Valid() && items == []
    {
      items := [];
    }

    /** Saves a built notification: 201, or 500 and no change when its `_id`
        is already stored (a duplicate-key error). */
    method Insert(built: Option<Notification>) returns (status: int, saved: Option<Notification>)
      requires Valid()
      modifies this
      ensures Valid()
      ensures built.Some? && FindFirst(old(items), NotificationId, built.value.id).None? ==>
        status == 201 && saved == built && items == old(items) + [built.value]
      ensures built.None? || FindFirst(old(items), NotificationId, built.value.id).Some? ==>
        status == 500 && saved.None? && items == old(items)
    {
      if built.None? || FindFirst(items, NotificationId, built.value.id).Some? {
        return 500, None;
      }
      AppendFreshKey(items, NotificationId, built.value);
      items := items + [built.value];
      status, saved := 201, built;
    }

    /** `POST /notifications` in the admin router: 201 with the new
        notification; 500 and no change when it cannot be built or its id is
        taken. */
    method Create(title: Option<string>, message: Option<string>, userId: Option<string>,
                  id: ObjectId, now: int)
      returns (status: int, saved: Option<Notification>)
      requires Valid()
      modifies this
      ensures Valid()
      ensures var built := RouterCreate(title, message, userId, id, now);
        if built.Some? && FindFirst(old(items), NotificationId, id).None?
        then status == 201 && saved == built && items == old(items) + [built.value]
        else status == 500 && saved.None? && items == old(items)
    {
      status, saved := Insert(RouterCreate(title, message, userId, id, now));
    }

    /** `createNotification` in the admin controller. */
    method CreateAsAdmin(title: Option<string>, message: Option<string>, userId: Option<string>,
                         id: ObjectId, now: int)
      returns (status: int, saved: Option<Notification>)
      requires Valid()
      modifies this
      ensures Valid()
      ensures var built := ControllerCreate(title, message, userId, id, now);
        if built.Some? && FindFirst(old(items), NotificationId, id).None?
        then status == 201 && saved == built && items == old(items) + [built.value]
        else status == 500 && saved.None? && items == old(items)
    {
      status, saved := Insert(ControllerCreate(title, message, userId, id, now));
    }

    /** `PUT /notifications/:id/read` in the admin router: loads the
        notification, checks the ownership rule and sets its flag. */
    method MarkRead(id: string, requester: Requester) returns (status: int)
      requires Valid()
      modifies this
      ensures Valid()
      ensures (status, items) == RouterMarkRead(old(items), id, requester)
    {
      var oid := CastObjectId(id);
      if oid.None? {
        return 500;
      }
      var k := FindFirst(items, NotificationId, oid.value);
      if k.None? {
        return 404;
      }
      var n := items[k.value];
      if n.target.Some? && n.target.value != requester.id && requester.role != "admin" {
        return 403;
      }
      SetReadKeepsUnique(items, k.value);
      items := items[k.value := n.(isRead := true)];
      status := 200;
    }

    /** `markNotificationRead` in the admin controller. */
    method MarkReadAsAdmin(id: string) returns (status: int)
      requires Valid()
      modifies this
      ensures Valid()
      ensures (status, items) == ControllerMarkRead(old(items), id)
    {
      var oid := CastObjectId(id);
      if oid.None? {
        return 500;
      }
      var k := FindFirst(items, NotificationId, oid.value);
      if k.None? {
        return 404;
      }
      SetReadKeepsUnique(items, k.value);
      items := items[k.value := items[k.value].(isRead := true)];
      status := 200;
    }
  }
}
