/** The user accounts of the API server as the admin controller and the user
    controller change them: role changes and deletion by an admin, and the
    signed-in user's own profile, password and account. The User model itself
    is not part of this model: the stored password is whatever the model's
    hook makes of the plain text (`hash`), and `matchPassword` is `matches`. */
module Users {
  import opened Common
  import opened Ids

  datatype User = User(name: string, email: string, password: string, role: string, profileImage: string)

  datatype Account = Account(id: ObjectId, user: User)

  /** A user as `.select('-password')` returns it. */
  datatype PublicUser = PublicUser(id: ObjectId, name: string, email: string, role: string, profileImage: string)

  /** The body of the `updateProfile` response. */
  datatype ProfileView = ProfileView(id: ObjectId, name: string, email: string, profileImage: string)

  function PublicView(a: Account): PublicUser
  {
    PublicUser(a.id, a.user.name, a.user.email, a.user.role, a.user.profileImage)
  }

  function AccountId(a: Account): ObjectId { a.id }

  function AccountEmail(a: Account): string { a.user.email }

  predicate ValidRole(role: string)
  {
    role == "user" || role == "admin"
  }

  /** What every operation keeps: ids and emails are unique and every role is
      "user" or "admin". */
  ghost predicate Consistent(accounts: seq<Account>)
  {
    && UniqueKeys(accounts, AccountId)
    && UniqueKeys(accounts, AccountEmail)
    && (forall i :: 0 <= i < |accounts| ==> ValidRole(accounts[i].user.role))
  }

  /** Dropping an account keeps the store consistent, and the dropped id is
      then unknown. */
  lemma RemoveKeepsConsistent(accounts: seq<Account>, k: nat)
    requires k < |accounts| && Consistent(accounts)
    ensures Consistent(RemoveAt(accounts, k))
    ensures FindFirst(RemoveAt(accounts, k), AccountId, accounts[k].id).None?
  {
    RemoveUniqueKey(accounts, AccountId, k);
    RemoveUniqueKey(accounts, AccountEmail, k);
  }

  // ---------------------------------------------------------------------------
  // Admin controller
  // ---------------------------------------------------------------------------

  /** `getAllUsers`: every user, in store order, without the password. */
  function AllUsers(accounts: seq<Account>): (r: seq<PublicUser>)
    ensures |r| == |accounts|
    ensures forall i :: 0 <= i < |r| ==>
      && r[i].id == accounts[i].id && r[i].email == accounts[i].user.email
      && r[i].name == accounts[i].user.name && r[i].role == accounts[i].user.role
      && r[i].profileImage == accounts[i].user.profileImage
  {
    seq(|accounts|, i requires 0 <= i < |accounts| => PublicView(accounts[i]))
  }

  /** `updateUserRole`: an id that does not cast raises (500); an unknown id is
      404, before the role is looked at; a role other than "user" and "admin"
      is 400; otherwise the role is set (200). Only 200 changes the store, and
      only the role of that one user. */
  function UpdateRole(accounts: seq<Account>, id: string, role: Option<string>): (out: (int, seq<Account>))
    ensures out.0 == 500 <==> !IsObjectIdText(id)
    ensures out.0 == 404 <==> IsObjectIdText(id) && FindFirst(accounts, AccountId, CastObjectId(id).value).None?
    ensures out.0 == 400 <==>
      IsObjectIdText(id) && FindFirst(accounts, AccountId, CastObjectId(id).value).Some?
      && !(role.Some? && ValidRole(role.value))
    ensures out.0 != 200 ==> out.1 == accounts
    ensures out.0 == 200 ==>
      var k := FindFirst(accounts, AccountId, CastObjectId(id).value).value;
      && |out.1| == |accounts|
      && out.1[k] == accounts[k].(user := accounts[k].user.(role := role.value))
      && forall j :: 0 <= j < |accounts| && j != k ==> out.1[j] == accounts[j]
  {
    match CastObjectId(id)
    case None => (500, accounts)
    case Some(oid) =>
      match FindFirst(accounts, AccountId, oid)
      case None => (404, accounts)
      case Some(k) =>
        if role.None? || !ValidRole(role.value) then (400, accounts)
        else (200, accounts[k := accounts[k].(user := accounts[k].user.(role := role.value))])
  }

  lemma UpdateRoleKeepsConsistent(accounts: seq<Account>, id: string, role: Option<string>)
    requires Consistent(accounts)
    ensures Consistent(UpdateRole(accounts, id, role).1)
  {
    var out := UpdateRole(accounts, id, role);
    if out.0 == 200 {
      var k := FindFirst(accounts, AccountId, CastObjectId(id).value).value;
      assert forall j :: 0 <= j < |accounts| ==> out.1[j].id == accounts[j].id;
      assert forall j :: 0 <= j < |accounts| ==> out.1[j].user.email == accounts[j].user.email;
    }
  }

  /** `deleteUser`: an id that does not cast raises (500); an unknown id is
      404; otherwise exactly that user is removed (200). Notifications and
      predictions are not touched: they are not part of this store. */
  function DeleteUser(accounts: seq<Account>, id: string): (out: (int, seq<Account>))
    ensures out.0 == 500 <==> !IsObjectIdText(id)
    ensures out.0 == 404 <==> IsObjectIdText(id) && FindFirst(accounts, AccountId, CastObjectId(id).value).None?
    ensures out.0 != 200 ==> out.1 == accounts
    ensures out.0 == 200 ==>
      var k := FindFirst(accounts, AccountId, CastObjectId(id).value).value;
      out.1 == RemoveAt(accounts, k)
  {
    match CastObjectId(id)
    case None => (500, accounts)
    case Some(oid) =>
      match FindFirst(accounts, AccountId, oid)
      case None => (404, accounts)
      case Some(k) => (200, RemoveAt(accounts, k))
  }

  /** After a successful delete the store is still consistent and the id is
      unknown: a second delete answers 404. */
  lemma DeleteUserIsFinal(accounts: seq<Account>, id: string)
    requires Consistent(accounts) && DeleteUser(accounts, id).0 == 200
    ensures Consistent(DeleteUser(accounts, id).1)
    ensures DeleteUser(DeleteUser(accounts, id).1, id).0 == 404
  {
    var k := FindFirst(accounts, AccountId, CastObjectId(id).value).value;
    RemoveKeepsConsistent(accounts, k);
  }

  // ---------------------------------------------------------------------------
  // User controller
  // ---------------------------------------------------------------------------

  /** `getProfile`: the caller's record without the password, or None (404). */
  function GetProfile(accounts: seq<Account>, uid: ObjectId): (r: Option<PublicUser>)
    ensures r.None? <==> forall j :: 0 <= j < |accounts| ==> accounts[j].id != uid
    ensures r.Some? ==> r.value.id == uid && exists j :: 0 <= j < |accounts| && r.value == PublicView(accounts[j])
  {
    match FindFirst(accounts, AccountId, uid)
    case None => None
    case Some(k) => Some(PublicView(accounts[k]))
  }

  /** The fields of an `updateProfile` request: the body's name, email and
      password, and the stored name of an uploaded image. */
  datatype ProfileUpdate = ProfileUpdate(
    name: Option<string>, email: Option<string>, password: Option<string>, file: Option<string>)

  /** Whether some account already uses `email` (`User.findOne({ email })`). */
  predicate EmailTaken(accounts: seq<Account>, email: string)
  {
    FindFirst(accounts, AccountEmail, email).Some?
  }

  /** The user after the supplied fields are applied: an email only when it is
      given and differs, a name and a password only when non-empty, an image
      only when a file was uploaded. */
  function ApplyUpdate(u: User, body: ProfileUpdate, hash: string -> string): (r: User)
    ensures r.role == u.role
    ensures r.email == (if Present(body.email) then body.email.value else u.email)
    ensures r.name == (if Present(body.name) then body.name.value else u.name)
    ensures r.password == (if Present(body.password) then hash(body.password.value) else u.password)
    ensures r.profileImage == (if body.file.Some? then body.file.value else u.profileImage)
  {
    u.(email := if Present(body.email) && body.email.value != u.email then body.email.value else u.email,
       name := if Present(body.name) then body.name.value else u.name,
       profileImage := if body.file.Some? then body.file.value else u.profileImage,
       password := if Present(body.password) then hash(body.password.value) else u.password)
  }

  /** `updateProfile`: 404 for an unknown caller; 400 "Email already in use"
      when the new, different email belongs to someone, with nothing saved;
      otherwise the supplied fields are saved (200) and the response shows the
      id, name, email and image, never the password. */
  function UpdateProfile(accounts: seq<Account>, uid: ObjectId, body: ProfileUpdate, hash: string -> string)
    : (out: (int, seq<Account>, Option<ProfileView>))
    ensures out.0 in {200, 400, 404}
    ensures out.0 != 200 ==> out.1 == accounts && out.2.None?
    ensures out.0 == 404 <==> FindFirst(accounts, AccountId, uid).None?
    ensures out.0 == 400 <==>
      && FindFirst(accounts, AccountId, uid).Some?
      && Present(body.email)
      && body.email.value != accounts[FindFirst(accounts, AccountId, uid).value].user.email
      && EmailTaken(accounts, body.email.value)
    ensures out.0 == 200 ==> |out.1| == |accounts|
    ensures out.0 == 200 ==>
      var k := FindFirst(accounts, AccountId, uid).value;
      var u := out.1[k].user;
      && out.1[k].id == uid
      && (forall j :: 0 <= j < |accounts| && j != k ==> out.1[j] == accounts[j])
      && u.role == accounts[k].user.role
      && (Present(body.name) ==> u.name == body.name.value)
      && (!Present(body.name) ==> u.name == accounts[k].user.name)
      && (Present(body.email) ==> u.email == body.email.value)
      && (!Present(body.email) ==> u.email == accounts[k].user.email)
      && (Present(body.password) ==> u.password == hash(body.password.value))
      && (!Present(body.password) ==> u.password == accounts[k].user.password)
      && (body.file.Some? ==> u.profileImage == body.file.value)
      && (body.file.None? ==> u.profileImage == accounts[k].user.profileImage)
      && out.2 == Some(ProfileView(uid, u.name, u.email, u.profileImage))
  {
    match FindFirst(accounts, AccountId, uid)
    case None => (404, accounts, None)
    case Some(k) =>
      var u := accounts[k].user;
      if Present(body.email) && body.email.value != u.email && EmailTaken(accounts, body.email.value) then
        (400, accounts, None)
      else
        var u' := ApplyUpdate(u, body, hash);
        (200, accounts[k := Account(uid, u')], Some(ProfileView(uid, u'.name, u'.email, u'.profileImage)))
  }

  /** `updateProfile` keeps every email unique (and ids and roles as they were). */
  lemma UpdateProfileKeepsConsistent(accounts: seq<Account>, uid: ObjectId, body: ProfileUpdate, hash: string -> string)
    requires Consistent(accounts)
    ensures Consistent(UpdateProfile(accounts, uid, body, hash).1)
  {
    var out := UpdateProfile(accounts, uid, body, hash);
    if out.0 == 200 {
      var k := FindFirst(accounts, AccountId, uid).value;
      var after := out.1;
      var e := after[k].user.email;
      if e != accounts[k].user.email {
        assert Present(body.email) && e == body.email.value;
        assert !EmailTaken(accounts, e);
        forall j | 0 <= j < |accounts| && j != k ensures after[j].user.email != e {
          assert AccountEmail(accounts[j]) != e;
        }
      }
      assert forall j :: 0 <= j < |accounts| ==> after[j].id == accounts[j].id;
    }
  }

  /** `changePassword`: 400 when either password is missing or empty (checked
      before the lookup); 404 for an unknown caller; 400 when the old password
      does not match, with the password unchanged; otherwise the password is
      replaced (200) and nothing else changes. */
  function ChangePassword(accounts: seq<Account>, uid: ObjectId, oldPassword: Option<string>,
                          newPassword: Option<string>, hash: string -> string,
                          matches: (string, string) -> bool): (out: (int, seq<Account>))
    ensures out.0 in {200, 400, 404}
    ensures out.0 != 200 ==> out.1 == accounts
    ensures !Present(oldPassword) || !Present(newPassword) ==> out.0 == 400
    ensures out.0 == 404 <==>
      Present(oldPassword) && Present(newPassword) && FindFirst(accounts, AccountId, uid).None?
    ensures out.0 == 200 <==>
      && Present(oldPassword) && Present(newPassword) && FindFirst(accounts, AccountId, uid).Some?
      && matches(oldPassword.value, accounts[FindFirst(accounts, AccountId, uid).value].user.password)
    ensures out.0 == 200 ==>
      var k := FindFirst(accounts, AccountId, uid).value;
      && |out.1| == |accounts|
      && out.1[k] == accounts[k].(user := accounts[k].user.(password := hash(newPassword.value)))
      && forall j :: 0 <= j < |accounts| && j != k ==> out.1[j] == accounts[j]
  {
    if !Present(oldPassword) || !Present(newPassword) then (400, accounts)
    else match FindFirst(accounts, AccountId, uid)
      case None => (404, accounts)
      case Some(k) =>
        if !matches(oldPassword.value, accounts[k].user.password) then (400, accounts)
        else (200, accounts[k := accounts[k].(user := accounts[k].user.(password := hash(newPassword.value)))])
  }

  lemma ChangePasswordKeepsConsistent(accounts: seq<Account>, uid: ObjectId, oldPassword: Option<string>,
                                      newPassword: Option<string>, hash: string -> string,
                                      matches: (string, string) -> bool)
    requires Consistent(accounts)
    ensures Consistent(ChangePassword(accounts, uid, oldPassword, newPassword, hash, matches).1)
  {
    var out := ChangePassword(accounts, uid, oldPassword, newPassword, hash, matches);
    if out.0 == 200 {
      assert forall j :: 0 <= j < |accounts| ==> out.1[j].id == accounts[j].id;
      assert forall j :: 0 <= j < |accounts| ==> out.1[j].user.email == accounts[j].user.email;
      assert forall j :: 0 <= j < |accounts| ==> out.1[j].user.role == accounts[j].user.role;
    }
  }

  /** `deleteUserAccount`: removes the caller's record (200), or 404 when it
      is already gone. */
  function DeleteAccount(accounts: seq<Account>, uid: ObjectId): (out: (int, seq<Account>))
    ensures out.0 == 404 <==> FindFirst(accounts, AccountId, uid).None?
    ensures out.0 != 200 ==> out.1 == accounts
    ensures out.0 == 200 ==> out.1 == RemoveAt(accounts, FindFirst(accounts, AccountId, uid).value)
  {
    match FindFirst(accounts, AccountId, uid)
    case None => (404, accounts)
    case Some(k) => (200, RemoveAt(accounts, k))
  }

  /** Once the account is deleted, the caller's profile answers 404. */
  lemma DeleteAccountThenProfileMissing(accounts: seq<Account>, uid: ObjectId)
    requires Consistent(accounts) && DeleteAccount(accounts, uid).0 == 200
    ensures Consistent(DeleteAccount(accounts, uid).1)
    ensures GetProfile(DeleteAccount(accounts, uid).1, uid).None?
  {
    RemoveKeepsConsistent(accounts, FindFirst(accounts, AccountId, uid).value);
  }

  // ---------------------------------------------------------------------------
  // The store
  // ---------------------------------------------------------------------------

  /** The `users` collection, in insertion order. */
  class UserStore {
    var accounts: seq<Account>

    ghost predicate Valid()
      reads this
    {
      Consistent(accounts)
    }

    constructor ()
      ensures Valid() && accounts == []
    {
      accounts := [];
    }

    /** `PUT /api/admin/users/:id/role`. */
    method UpdateUserRole(id: string, role: Option<string>) returns (status: int)
      requires Valid()
      modifies this
      ensures Valid()
      ensures (status, accounts) == UpdateRole(old(accounts), id, role)
    {
      UpdateRoleKeepsConsistent(accounts, id, role);
      var oid := CastObjectId(id);
      if oid.None? {
        return 500;
      }
      var k := FindFirst(accounts, AccountId, oid.value);
      if k.None? {
        return 404;
      }
      if role.None? || !(role.value in ["user", "admin"]) {
        return 400;
      }
      var a := accounts[k.value];
      accounts := accounts[k.value := a.(user := a.user.(role := role.value))];
      status := 200;
    }

    /** `DELETE /api/admin/users/:id`. */
    method DeleteUserById(id: string) returns (status: int)
      requires Valid()
      modifies this
      ensures Valid()
      ensures (status, accounts) == DeleteUser(old(accounts), id)
    {
      var oid := CastObjectId(id);
      if oid.None? {
        return 500;
      }
      var k := FindFirst(accounts, AccountId, oid.value);
      if k.None? {
        return 404;
      }
      RemoveKeepsConsistent(accounts, k.value);
      accounts := RemoveAt(accounts, k.value);
      status := 200;
    }

    /** `PUT /api/users/profile`: loads the caller, checks a changed email
        against the other users, then assigns the supplied fields one by one
        and saves. */
    method UpdateOwnProfile(uid: ObjectId, body: ProfileUpdate, hash: string -> string)
      returns (status: int, view: Option<ProfileView>)
      requires Valid()
      modifies this
      ensures Valid()
      ensures (status, accounts, view) == UpdateProfile(old(accounts), uid, body, hash)
    {
      UpdateProfileKeepsConsistent(accounts, uid, body, hash);
      var k := FindFirst(accounts, AccountId, uid);
      if k.None? {
        return 404, None;
      }
      var u := accounts[k.value].user;
      if Present(body.email) && body.email.value != u.email {
        if FindFirst(accounts, AccountEmail, body.email.value).Some? {
          return 400, None;
        }
        u := u.(email := body.email.value);
      }
      if Present(body.name) {
        u := u.(name := body.name.value);
      }
      if body.file.Some? {
        u := u.(profileImage := body.file.value);
      }
      if Present(body.password) {
        u := u.(password := hash(body.password.value));
      }
      accounts := accounts[k.value := Account(uid, u)];
      status, view := 200, Some(ProfileView(uid, u.name, u.email, u.profileImage));
    }

    /** `PUT /api/users/change-password`. */
    method ChangeOwnPassword(uid: ObjectId, oldPassword: Option<string>, newPassword: Option<string>,
                             hash: string -> string, matches: (string, string) -> bool)
      returns (status: int)
      requires Valid()
      modifies this
      ensures Valid()
      ensures (status, accounts) == ChangePassword(old(accounts), uid, oldPassword, newPassword, hash, matches)
    {
      ChangePasswordKeepsConsistent(accounts, uid, oldPassword, newPassword, hash, matches);
      if !Present(oldPassword) || !Present(newPassword) {
        return 400;
      }
      var k := FindFirst(accounts, AccountId, uid);
      if k.None? {
        return 404;
      }
      var a := accounts[k.value];
      if !matches(oldPassword.value, a.user.password) {
        return 400;
      }
      accounts := accounts[k.value := a.(user := a.user.(password := hash(newPassword.value)))];
      status := 200;
    }

    /** `DELETE /api/users/delete`. */
    method DeleteOwnAccount(uid: ObjectId) returns (status: int)
      requires Valid()
      modifies this
      ensures Valid()
      ensures (status, accounts) == DeleteAccount(old(accounts), uid)
    {
      var k := FindFirst(accounts, AccountId, uid);
      if k.None? {
        return 404;
      }
      RemoveKeepsConsistent(accounts, k.value);
      accounts := RemoveAt(accounts, k.value);
      status := 200;
    }
  }
}
