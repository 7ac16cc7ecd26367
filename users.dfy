/** The `users` collection: lookup by phone, updates, and the two
    find-or-create operations (src/services/users.ts). */
module Users {
  import opened Common

  datatype User = User(id: Id, phone: string, name: string)

  /** `Partial<User>` without the id. */
  datatype UserPatch = UserPatch(phone: Option<string>, name: Option<string>)

  function NamePatch(name: string): UserPatch {
    UserPatch(None, Some(name))
  }

  predicate HasPhone(us: seq<User>, phone: string) {
    exists i | 0 <= i < |us| :: us[i].phone == phone
  }

  predicate HasUserId(us: seq<User>, id: Id) {
    exists i | 0 <= i < |us| :: us[i].id == id
  }

  /** The store keeps document ids distinct. */
  predicate UniqueUserIds(us: seq<User>) {
    forall i, j | 0 <= i < j < |us| :: us[i].id != us[j].id
  }

  /** No two users share a phone. */
  predicate UniquePhones(us: seq<User>) {
    forall i, j | 0 <= i < j < |us| :: us[i].phone != us[j].phone
  }

  /** Position `i` holds the first user with this phone. */
  predicate FirstWithPhone(us: seq<User>, phone: string, i: nat) {
    i < |us| && us[i].phone == phone &&
    forall j | 0 <= j < i :: us[j].phone != phone
  }

  /** The position of the first user with this phone. */
  function PhoneIndex(us: seq<User>, phone: string): (r: Option<nat>)
    ensures r.None? <==> !HasPhone(us, phone)
    ensures r.Some? ==> FirstWithPhone(us, phone, r.value)
  {
    if |us| == 0 then None
    else if us[0].phone == phone then Some(0)
    else match PhoneIndex(us[1..], phone)
      case None => None
      case Some(k) => Some(k + 1)
  }

  /** `getUser(phone)` (a query with `limit(1)`): null iff no user has the
      phone, otherwise the first one that does. */
  function GetUser(us: seq<User>, phone: string): (r: Option<User>)
    ensures r.None? <==> !HasPhone(us, phone)
    ensures r.Some? ==> exists i: nat :: FirstWithPhone(us, phone, i) && us[i] == r.value
  {
    match PhoneIndex(us, phone)
    case None => None
    case Some(i) => Some(us[i])
  }

  function ApplyUserPatch(u: User, patch: UserPatch): (r: User)
    ensures r.id == u.id
    ensures r.phone == patch.phone.GetOr(u.phone) && r.name == patch.name.GetOr(u.name)
  {
    User(u.id, patch.phone.GetOr(u.phone), patch.name.GetOr(u.name))
  }

  /** `updateUser(id, data)`: fails (None) when no document has the id,
      otherwise patches that document and leaves the others alone. */
  function UpdatedUsers(us: seq<User>, id: Id, patch: UserPatch): (r: Option<seq<User>>)
    ensures r.None? <==> !HasUserId(us, id)
    ensures r.Some? ==> |r.value| == |us|
    ensures r.Some? ==> forall i | 0 <= i < |us| ::
      r.value[i] == if us[i].id == id then ApplyUserPatch(us[i], patch) else us[i]
  {
    if !HasUserId(us, id) then None
    else Some(seq(|us|, i requires 0 <= i < |us| =>
                if us[i].id == id then ApplyUserPatch(us[i], patch) else us[i]))
  }

  /** With distinct ids, renaming the user at `k` by its id renames that one
      user and nothing else. */
  lemma RenameById(us: seq<User>, k: nat, name: string)
    requires UniqueUserIds(us) && k < |us|
    ensures UpdatedUsers(us, us[k].id, NamePatch(name)) == Some(us[k := us[k].(name := name)])
  {
    var r := UpdatedUsers(us, us[k].id, NamePatch(name)).value;
    assert forall i | 0 <= i < |us| && i != k :: us[i].id != us[k].id;
    assert r == us[k := us[k].(name := name)];
  }

  /** `addUser({phone, name})` with `newId` the id the store would generate:
      the user it returns and the collection afterwards. On a known phone
      with another name it renames the stored user but returns the record as
      it was before the rename. */
  function AddUser(us: seq<User>, phone: string, name: string, newId: Id): (r: (User, seq<User>))
    requires UniqueUserIds(us)
    ensures HasPhone(us, phone) ==> |r.1| == |us|
    ensures HasPhone(us, phone) ==> forall i | 0 <= i < |us| :: r.1[i].phone == us[i].phone && r.1[i].id == us[i].id
    ensures HasPhone(us, phone) ==> r.0 == GetUser(us, phone).value
    ensures HasPhone(us, phone) ==>
      var k := PhoneIndex(us, phone).value;
      r.1 == us[k := us[k].(name := name)]
    ensures !HasPhone(us, phone) ==> r.0 == User(newId, phone, name) && r.1 == us + [r.0]
  {
    match PhoneIndex(us, phone)
    case Some(k) =>
      if us[k].name != name then
        RenameById(us, k, name);
        (us[k], UpdatedUsers(us, us[k].id, NamePatch(name)).value)
      else
        assert us[k].(name := name) == us[k];
        assert us[k := us[k]] == us;
        (us[k], us)
    case None =>
      (User(newId, phone, name), us + [User(newId, phone, name)])
  }

  /** `findOrCreateUser(phone, name)`: like `addUser`, but after a rename it
      returns the user with the new name. */
  function FindOrCreateUser(us: seq<User>, phone: string, name: string, newId: Id): (r: (User, seq<User>))
    requires UniqueUserIds(us)
    ensures HasPhone(us, phone) ==> r.0 == GetUser(us, phone).value.(name := name)
    ensures !HasPhone(us, phone) ==> r == AddUser(us, phone, name, newId)
  {
    match PhoneIndex(us, phone)
    case Some(k) =>
      if us[k].name != name then
        RenameById(us, k, name);
        (us[k].(name := name), UpdatedUsers(us, us[k].id, NamePatch(name)).value)
      else (us[k], us)
    case None =>
      AddUser(us, phone, name, newId)
  }

  /** Known phone, same name: no write, the stored user is returned. */
  lemma FindSameNameWritesNothing(us: seq<User>, phone: string, name: string, newId: Id)
    requires UniqueUserIds(us)
    requires HasPhone(us, phone) && GetUser(us, phone).value.name == name
    ensures FindOrCreateUser(us, phone, name, newId) == (GetUser(us, phone).value, us)
  {
  }

  /** Known phone, other name: only that user's name changes, and the user
      returned carries the new name. */
  lemma FindOtherNameRenamesOnly(us: seq<User>, phone: string, name: string, newId: Id)
    requires UniqueUserIds(us)
    requires HasPhone(us, phone)
    ensures var k := PhoneIndex(us, phone).value;
            FindOrCreateUser(us, phone, name, newId) == (us[k].(name := name), us[k := us[k].(name := name)])
  {
    var k := PhoneIndex(us, phone).value;
    if us[k].name != name {
      RenameById(us, k, name);
    } else {
      assert us[k].(name := name) == us[k];
      assert us[k := us[k]] == us;
    }
  }

  /** Unknown phone: exactly one user is created, with that phone and name. */
  lemma FindUnknownCreatesOne(us: seq<User>, phone: string, name: string, newId: Id)
    requires UniqueUserIds(us) && !HasPhone(us, phone)
    ensures FindOrCreateUser(us, phone, name, newId) == (User(newId, phone, name), us + [User(newId, phone, name)])
  {
  }

  /** `addUser` on a known phone with another name: the store holds the new
      name while the returned record still has the old one. */
  lemma AddUserReturnsStaleName(us: seq<User>, phone: string, name: string, newId: Id)
    requires UniqueUserIds(us)
    requires HasPhone(us, phone) && GetUser(us, phone).value.name != name
    ensures var k := PhoneIndex(us, phone).value;
            var r := AddUser(us, phone, name, newId);
            r.1[k].name == name && r.0.name != name && r.0.id == r.1[k].id
  {
    var k := PhoneIndex(us, phone).value;
    RenameById(us, k, name);
  }

  /** Neither operation ever gives a phone a second user. */
  lemma FindOrCreateKeepsPhonesUnique(us: seq<User>, phone: string, name: string, newId: Id)
    requires UniqueUserIds(us) && UniquePhones(us)
    ensures UniquePhones(FindOrCreateUser(us, phone, name, newId).1)
    ensures UniquePhones(AddUser(us, phone, name, newId).1)
  {
    match PhoneIndex(us, phone)
    case Some(k) => RenameById(us, k, name);
    case None =>
      var r := us + [User(newId, phone, name)];
      forall i, j | 0 <= i < j < |r| ensures r[i].phone != r[j].phone {
        if j == |us| {
          assert r[i] == us[i];
        }
      }
  }

  /** The stored collection keeps its distinct ids when `newId` is fresh. */
  lemma FindOrCreateKeepsIdsUnique(us: seq<User>, phone: string, name: string, newId: Id)
    requires UniqueUserIds(us) && !HasUserId(us, newId)
    ensures UniqueUserIds(FindOrCreateUser(us, phone, name, newId).1)
    ensures UniqueUserIds(AddUser(us, phone, name, newId).1)
  {
    match PhoneIndex(us, phone)
    case Some(k) => RenameById(us, k, name);
    case None =>
      var r := us + [User(newId, phone, name)];
      forall i, j | 0 <= i < j < |r| ensures r[i].id != r[j].id {
        if j == |us| {
          assert r[i] == us[i];
        }
      }
  }

  /** Calling `findOrCreateUser(phone, name)` twice leaves the collection the
      first call left: the second call finds the user with that name. */
  lemma FindOrCreateIdempotent(us: seq<User>, phone: string, name: string, id1: Id, id2: Id)
    requires UniqueUserIds(us) && !HasUserId(us, id1)
    ensures var once := FindOrCreateUser(us, phone, name, id1);
            UniqueUserIds(once.1) &&
            FindOrCreateUser(once.1, phone, name, id2) == (once.0, once.1)
  {
    FindOrCreateKeepsIdsUnique(us, phone, name, id1);
    var once := FindOrCreateUser(us, phone, name, id1);
    match PhoneIndex(us, phone)
    case Some(k) =>
      RenameById(us, k, name);
      assert once.1 == us[k := us[k].(name := name)];
      assert once.1[k].phone == phone;
      assert PhoneIndex(once.1, phone).value == k;
    case None =>
      assert once.1 == us + [User(id1, phone, name)];
      assert once.1[|us|].phone == phone;
      assert PhoneIndex(once.1, phone).value == |us|;
  }

  /** The `users` collection in store order. */
  class UserStore {
    var users: seq<User>

    ghost predicate Valid()
      reads this
    {
      UniqueUserIds(users)
    }

    constructor ()
      ensures Valid() && users == []
    {
      users := [];
    }

    /** `updateUser`. */
    method UpdateUser(id: Id, patch: UserPatch) returns (ok: bool)
      requires Valid()
      modifies this
      ensures Valid()
      ensures ok == HasUserId(old(users), id)
      ensures ok ==> users == UpdatedUsers(old(users), id, patch).value
      ensures !ok ==> users == old(users)
    {
      ok := HasUserId(users, id);
      if ok {
        users := UpdatedUsers(users, id, patch).value;
        assert forall i | 0 <= i < |users| :: users[i].id == old(users)[i].id;
      }
    }

    /** `addUser`; `newId` is the id the store generates if it creates one. */
    method AddUserTo(phone: string, name: string, newId: Id) returns (user: User)
      requires Valid() && !HasUserId(users, newId)
      modifies this
      ensures Valid()
      ensures (user, users) == AddUser(old(users), phone, name, newId)
    {
      var existing := GetUser(users, phone);
      if existing.Some? {
        var k := PhoneIndex(users, phone).value;
        if existing.value.name != name {
          RenameById(users, k, name);
          var _ := UpdateUser(existing.value.id, NamePatch(name));
        }
        user := existing.value;
        return;
      }
      user := User(newId, phone, name);
      users := users + [user];
      FindOrCreateKeepsIdsUnique(old(users), phone, name, newId);
    }

    /** `findOrCreateUser`. */
    method FindOrCreate(phone: string, name: string, newId: Id) returns (user: User)
      requires Valid() && !HasUserId(users, newId)
      modifies this
      ensures Valid()
      ensures (user, users) == FindOrCreateUser(old(users), phone, name, newId)
    {
      var existing := GetUser(users, phone);
      if existing.Some? {
        var k := PhoneIndex(users, phone).value;
        if existing.value.name != name {
          RenameById(users, k, name);
          var _ := UpdateUser(existing.value.id, NamePatch(name));
          user := existing.value.(name := name);
          return;
        }
        user := existing.value;
        return;
      }
      user := AddUserTo(phone, name, newId);
    }
  }
}
