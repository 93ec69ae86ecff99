/**
 * `user.model.js`: the `User` class over the `user` collection and the shared
 * `blacklist` collection.
 */
module UserModel {
  import opened Wrappers
  import opened Bcrypt
  import opened Jwt
  import opened Store
  import Revocation

  /** The fields `createUser` destructures; `None` is a field left `undefined`. */
  datatype NewUser = NewUser(email: string, location: Option<string>, info: Option<Info>,
                             password: string, role: Option<string>, vehicles: Option<seq<string>>)

  /** The `updates` object of `updateUser`; `None` is a key that is not present. */
  datatype UserUpdate = UserUpdate(password: Option<string>, location: Option<string>,
                                   info: Option<Info>, role: Option<string>)

  /** The document `createUser` inserts: the hash, never the plaintext, and the three defaults. */
  function NewUserDoc(fields: NewUser, id: string, salt: nat): Doc {
    UserDoc(fields.email, id, fields.location, fields.info.GetOr(map[]), Hash(fields.password, salt),
            fields.role.GetOr("client"), fields.vehicles.GetOr([]))
  }

  /**
   * The record after `$set` of the non-password fields and, when the supplied
   * password is truthy, of its fresh hash.
   */
  function ApplyUserUpdate(d: Doc, u: UserUpdate, salt: nat): (r: Doc)
    requires d.UserDoc?
    ensures r.UserDoc? && r.id == d.id && r.email == d.email && r.vehicles == d.vehicles
    ensures r.location == (if u.location.Some? then u.location else d.location)
    ensures r.info == u.info.GetOr(d.info) && r.role == u.role.GetOr(d.role)
    ensures u.password.Some? && u.password.value != "" ==>
      forall p :: Compare(p, r.password) <==> Significant(p) == Significant(u.password.value)
    ensures !(u.password.Some? && u.password.value != "") ==> r.password == d.password
  {
    var password := if u.password.Some? && u.password.value != "" then Hash(u.password.value, salt) else d.password;
    d.(location := if u.location.Some? then u.location else d.location,
       info := u.info.GetOr(d.info), role := u.role.GetOr(d.role), password := password)
  }

  /** `$addToSet`: the element is appended only when absent. */
  function AddToSet(s: seq<string>, x: string): (r: seq<string>)
    ensures forall y :: y in r <==> y in s || y == x
    ensures x in s <==> r == s
    ensures x !in s ==> |r| == |s| + 1 && r[..|s|] == s
  {
    if x in s then s else s + [x]
  }

  /** `$pull`: every occurrence of the element is removed, the rest keep their order. */
  function Pull(s: seq<string>, x: string): (r: seq<string>)
    ensures forall y :: y in r <==> y in s && y != x
    ensures |r| <= |s|
    ensures x !in s <==> r == s
    ensures multiset(r) == multiset(s)[x := 0]
  {
    if s == [] then []
    else
      assert s == [s[0]] + s[1..];
      if s[0] == x then Pull(s[1..], x)
      else [s[0]] + Pull(s[1..], x)
  }

  /** `$pull` treats each element on its own: `Pull` of a single element. */
  lemma PullSingle(y: string, x: string)
    ensures Pull([y], x) == if y == x then [] else [y]
  {
    assert [y][1..] == [];
  }

  /** `$pull` keeps the order of what remains: it distributes over concatenation. */
  lemma {:induction false} PullConcat(s: seq<string>, t: seq<string>, x: string)
    ensures Pull(s + t, x) == Pull(s, x) + Pull(t, x)
    decreases |s|
  {
    if s == [] {
      assert s + t == t;
    } else {
      assert (s + t)[0] == s[0];
      assert (s + t)[1..] == s[1..] + t;
      PullConcat(s[1..], t, x);
    }
  }

  lemma {:induction false} PullAppendPulled(s: seq<string>, x: string)
    ensures Pull(s + [x], x) == Pull(s, x)
    decreases |s|
  {
    if s == [] {
      assert Pull([x], x) == Pull([], x);
    } else {
      assert (s + [x])[1..] == s[1..] + [x];
      PullAppendPulled(s[1..], x);
    }
  }

  /** Removing a vehicle just added restores the previous list. */
  lemma AddThenRemove(s: seq<string>, x: string)
    requires x !in s
    ensures Pull(AddToSet(s, x), x) == s
  {
    PullAppendPulled(s, x);
  }

  class User {
    const collection: PrincipalCollection
    const blacklistCollection: BlacklistCollection

    ghost predicate Valid()
      reads collection
    {
      collection.Valid() && collection.kind == UserKind
    }

    constructor(db: Database)
      ensures collection == db.users && blacklistCollection == db.blacklist
    {
      collection := db.users;
      blacklistCollection := db.blacklist;
    }

    /**
     * `createUser(fields)` with `freshId` as the uuid and `salt` as bcrypt's
     * randomness: the record without its password, or "User already exists"
     * when the email or the id is taken.
     */
    method CreateUser(fields: NewUser, freshId: string, salt: nat) returns (r: Result<View, string>)
      requires Valid()
      modifies collection
      ensures Valid()
      ensures var d := NewUserDoc(fields, freshId, salt);
        && (r.Success? <==> fields.email !in old(collection.idByEmail) && freshId !in old(collection.docs))
        && (r.Success? ==> r.value == WithoutPassword(d) && collection.docs == old(collection.docs)[freshId := d])
        && (r.Failure? ==>
              r.error == "User already exists" && collection.docs == old(collection.docs)
              && collection.idByEmail == old(collection.idByEmail))
    {
      var d := NewUserDoc(fields, freshId, salt);
      var ok := collection.InsertOne(d);
      if !ok {
        return Failure("User already exists");
      }
      return Success(WithoutPassword(d));
    }

    /** `findUserByEmail(user_email)`: the user record with that email, if any. */
    function FindUserByEmail(email: string): (r: Option<Doc>)
      reads collection
      requires Valid()
      ensures r.Some? <==> email in collection.idByEmail
      ensures r.Some? ==> r.value.UserDoc? && r.value.email == email
      ensures r.Some? ==> r.value.id in collection.docs && collection.docs[r.value.id] == r.value
    {
      collection.FindByEmail(email)
    }

    /** `findUserById(user_id)`: the user record with that id, if any. */
    function FindUserById(id: string): (r: Option<Doc>)
      reads collection
      requires Valid()
      ensures r.Some? <==> id in collection.docs
      ensures r.Some? ==> r.value.UserDoc? && r.value.id == id
      ensures r.Some? ==> r.value == collection.docs[id]
    {
      collection.FindById(id)
    }

    /** `addVehicle`: true exactly when the vehicle was not yet in the user's list. */
    method AddVehicle(id: string, vehicleId: string) returns (modified: bool)
      requires Valid()
      modifies collection
      ensures Valid()
      ensures modified <==> id in old(collection.docs) && vehicleId !in old(collection.docs)[id].vehicles
      ensures collection.docs == if modified
        then old(collection.docs)[id := old(collection.docs)[id].(vehicles := AddToSet(old(collection.docs)[id].vehicles, vehicleId))]
        else old(collection.docs)
    {
      var record := collection.FindById(id);
      if record.None? {
        return false;
      }
      modified := collection.UpdateOne(id, record.value.(vehicles := AddToSet(record.value.vehicles, vehicleId)));
    }

    /** `removeVehicle`: true exactly when the vehicle was in the user's list. */
    method RemoveVehicle(id: string, vehicleId: string) returns (modified: bool)
      requires Valid()
      modifies collection
      ensures Valid()
      ensures modified <==> id in old(collection.docs) && vehicleId in old(collection.docs)[id].vehicles
      ensures collection.docs == if modified
        then old(collection.docs)[id := old(collection.docs)[id].(vehicles := Pull(old(collection.docs)[id].vehicles, vehicleId))]
        else old(collection.docs)
    {
      var record := collection.FindById(id);
      if record.None? {
        return false;
      }
      modified := collection.UpdateOne(id, record.value.(vehicles := Pull(record.value.vehicles, vehicleId)));
    }

    /** `updateUser(user_id, updates)`: success exactly when the stored record changed. */
    method UpdateUser(id: string, updates: UserUpdate, salt: nat) returns (success: bool)
      requires Valid()
      modifies collection
      ensures Valid()
      ensures success <==>
        id in old(collection.docs) && ApplyUserUpdate(old(collection.docs)[id], updates, salt) != old(collection.docs)[id]
      ensures collection.docs == if success
        then old(collection.docs)[id := ApplyUserUpdate(old(collection.docs)[id], updates, salt)]
        else old(collection.docs)
    {
      var record := collection.FindById(id);
      if record.None? {
        return false;
      }
      success := collection.UpdateOne(id, ApplyUserUpdate(record.value, updates, salt));
    }

    /** `blacklistToken(token)`. */
    method BlacklistToken(token: Option<string>) returns (ok: bool)
      modifies blacklistCollection
      ensures ok <==> Revocation.EntryExpiry(token).Some? && token.value !in old(blacklistCollection.entries)
      ensures blacklistCollection.entries == if Revocation.EntryExpiry(token).Some?
        then Inserted(old(blacklistCollection.entries), token.value, Revocation.EntryExpiry(token).value)
        else old(blacklistCollection.entries)
    {
      ok := Revocation.BlacklistToken(blacklistCollection, token);
    }

    /** `isTokenBlacklisted(token)`. */
    function IsTokenBlacklisted(token: Option<string>): (b: bool)
      reads blacklistCollection
      ensures b <==> token.Some? && token.value in blacklistCollection.entries
    {
      blacklistCollection.Has(token)
    }

    /** `blacklistAllTokens(user_id)` at second `now`, signing with `key`. */
    method BlacklistAllTokens(id: string, key: string, now: int) returns (ok: bool)
      requires Valid()
      modifies blacklistCollection
      ensures id !in collection.docs ==> !ok && blacklistCollection.entries == old(blacklistCollection.entries)
      ensures id in collection.docs ==>
        && (ok <==> Revocation.SurrogateToken(id, collection.docs[id].Role(), key, now) !in old(blacklistCollection.entries))
        && blacklistCollection.entries == Revocation.WithSurrogate(old(blacklistCollection.entries), id, collection.docs[id].Role(), key, now)
    {
      ok := Revocation.BlacklistAllTokens(collection, blacklistCollection, id, key, now);
    }
  }
}
