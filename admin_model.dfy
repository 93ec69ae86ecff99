/**
 * `Admin.model.js`: the `Admin` class over the `admin` collection and the
 * shared `blacklist` collection.
 */
module AdminModel {
  import opened Wrappers
  import opened Bcrypt
  import opened Store
  import Revocation

  /** The document `createAdmin` inserts: email, fresh id and hash, nothing else. */
  function NewAdminDoc(email: string, password: string, id: string, salt: nat): Doc {
    AdminDoc(email, id, Hash(password, salt))
  }

  /** The record after `updateAdmin({password})`: a truthy password replaced by its hash. */
  function ApplyAdminUpdate(d: Doc, password: Option<string>, salt: nat): (r: Doc)
    requires d.AdminDoc?
    ensures r.AdminDoc? && r.id == d.id && r.email == d.email && r.Role().None?
    ensures password.Some? && password.value != "" ==>
      forall p :: Compare(p, r.password) <==> Significant(p) == Significant(password.value)
    ensures !(password.Some? && password.value != "") ==> r == d
  {
    if password.Some? && password.value != "" then AdminDoc(d.email, d.id, Hash(password.value, salt)) else d
  }

  class Admin {
    const collection: PrincipalCollection
    const blacklistCollection: BlacklistCollection

    ghost predicate Valid()
      reads collection
    {
      collection.Valid() && collection.kind == AdminKind
    }

    constructor(db: Database)
      ensures collection == db.admins && blacklistCollection == db.blacklist
    {
      collection := db.admins;
      blacklistCollection := db.blacklist;
    }

    /**
     * `createAdmin({admin_email, password})` with `freshId` as the uuid: the
     * record without its password, or "Admin already exists".
     */
    method CreateAdmin(email: string, password: string, freshId: string, salt: nat) returns (r: Result<View, string>)
      requires Valid()
      modifies collection
      ensures Valid()
      ensures var d := NewAdminDoc(email, password, freshId, salt);
        && (r.Success? <==> email !in old(collection.idByEmail) && freshId !in old(collection.docs))
        && (r.Success? ==> r.value == AdminView(email, freshId) && collection.docs == old(collection.docs)[freshId := d])
        && (r.Failure? ==>
              r.error == "Admin already exists" && collection.docs == old(collection.docs)
              && collection.idByEmail == old(collection.idByEmail))
    {
      var d := NewAdminDoc(email, password, freshId, salt);
      var ok := collection.InsertOne(d);
      if !ok {
        return Failure("Admin already exists");
      }
      return Success(WithoutPassword(d));
    }

    /** `findAdminById(admin_id)`. */
    function FindAdminById(id: string): (r: Option<Doc>)
      reads collection
      requires Valid()
      ensures r.Some? <==> id in collection.docs
      ensures r.Some? ==> r.value.AdminDoc? && r.value.id == id
      ensures r.Some? ==> r.value == collection.docs[id]
    {
      collection.FindById(id)
    }

    /** `findAdminByEmail(admin_email)`. */
    function FindAdminByEmail(email: string): (r: Option<Doc>)
      reads collection
      requires Valid()
      ensures r.Some? <==> email in collection.idByEmail
      ensures r.Some? ==> r.value.AdminDoc? && r.value.email == email
      ensures r.Some? ==> r.value.id in collection.docs && collection.docs[r.value.id] == r.value
    {
      collection.FindByEmail(email)
    }

    /** `updateAdmin(admin_id, {password})`: success exactly when the record changed. */
    method UpdateAdmin(id: string, password: Option<string>, salt: nat) returns (success: bool)
      requires Valid()
      modifies collection
      ensures Valid()
      ensures success <==>
        id in old(collection.docs) && ApplyAdminUpdate(old(collection.docs)[id], password, salt) != old(collection.docs)[id]
      ensures collection.docs == if success
        then old(collection.docs)[id := ApplyAdminUpdate(old(collection.docs)[id], password, salt)]
        else old(collection.docs)
    {
      var record := collection.FindById(id);
      if record.None? {
        return false;
      }
      success := collection.UpdateOne(id, ApplyAdminUpdate(record.value, password, salt));
    }

    /** `blackListToken(token)`. */
    method BlackListToken(token: Option<string>) returns (ok: bool)
      modifies blacklistCollection
      ensures ok <==> Revocation.EntryExpiry(token).Some? && token.value !in old(blacklistCollection.entries)
      ensures blacklistCollection.entries == if Revocation.EntryExpiry(token).Some?
        then Inserted(old(blacklistCollection.entries), token.value, Revocation.EntryExpiry(token).value)
        else old(blacklistCollection.entries)
    {
      ok := Revocation.BlacklistToken(blacklistCollection, token);
    }

    /** `isTokenBlacklisted(token)`. */
    function IsTokenBlacklisted(token: Option<string>): (b: bool)
      reads blacklistCollection
      ensures b <==> token.Some? && token.value in blacklistCollection.entries
    {
      blacklistCollection.Has(token)
    }

    /** `blacklistAllTokens(admin_id)`: the surrogate carries no role, since none is stored. */
    method BlacklistAllTokens(id: string, key: string, now: int) returns (ok: bool)
      requires Valid()
      modifies blacklistCollection
      ensures id !in collection.docs ==> !ok && blacklistCollection.entries == old(blacklistCollection.entries)
      ensures id in collection.docs ==>
        && (ok <==> Revocation.SurrogateToken(id, None, key, now) !in old(blacklistCollection.entries))
        && blacklistCollection.entries == Revocation.WithSurrogate(old(blacklistCollection.entries), id, None, key, now)
    {
      ok := Revocation.BlacklistAllTokens(collection, blacklistCollection, id, key, now);
    }
  }
}
