/**
 * `Dealership.model.js`: the `DealerShip` class over the `dealership`
 * collection, the car model and the shared `blacklist` collection.
 */
module DealershipModel {
  import opened Wrappers
  import opened Bcrypt
  import opened Store
  import opened Cars
  import Revocation

  /**
   * The fields `createDealership` destructures. A `role` or `dealership_id`
   * the caller passes is not among them.
   */
  datatype NewDealership = NewDealership(email: string, name: Option<string>, location: Option<string>,
                                         password: string, info: Option<Info>, cars: Option<seq<Option<Car>>>,
                                         deals: Option<seq<string>>, soldVehicles: Option<seq<string>>)

  /** The `updates` object of `updateDealership`; `None` is a key that is not present. */
  datatype DealershipUpdate = DealershipUpdate(password: Option<string>, name: Option<string>,
                                               location: Option<string>, info: Option<Info>)

  /** The document `createDealership` inserts: hashed password, `{}` info, and no role. */
  function NewDealershipDoc(fields: NewDealership, id: string, salt: nat): Doc {
    DealershipDoc(fields.email, id, fields.name, fields.location, Hash(fields.password, salt),
                  fields.info.GetOr(map[]), fields.cars, fields.deals, fields.soldVehicles)
  }

  /** The record after `$set` of the given fields, a truthy password replaced by its hash. */
  function ApplyDealershipUpdate(d: Doc, u: DealershipUpdate, salt: nat): (r: Doc)
    requires d.DealershipDoc?
    ensures r.DealershipDoc? && r.id == d.id && r.email == d.email && r.Role().None?
    ensures r.cars == d.cars && r.deals == d.deals && r.soldVehicles == d.soldVehicles
    ensures r.name == (if u.name.Some? then u.name else d.name)
    ensures r.location == (if u.location.Some? then u.location else d.location)
    ensures r.info == u.info.GetOr(d.info)
    ensures u.password.Some? && u.password.value != "" ==>
      forall p :: Compare(p, r.password) <==> Significant(p) == Significant(u.password.value)
    ensures !(u.password.Some? && u.password.value != "") ==> r.password == d.password
  {
    var password := if u.password.Some? && u.password.value != "" then Hash(u.password.value, salt) else d.password;
    d.(name := if u.name.Some? then u.name else d.name,
       location := if u.location.Some? then u.location else d.location,
       info := u.info.GetOr(d.info), password := password)
  }

  /** The error the server raises for a `$push` onto a `cars` field that holds `null`. */
  const CARS_NOT_AN_ARRAY := "The field 'cars' must be an array but is of type null"

  class Dealership {
    const collection: PrincipalCollection
    const carModel: CarModel
    const blacklistCollection: BlacklistCollection

    ghost predicate Valid()
      reads collection, carModel, carModel.collection
    {
      collection.Valid() && collection.kind == DealershipKind && carModel.collection.Valid()
    }

    constructor(db: Database)
      ensures collection == db.dealerships && carModel.collection == db.cars && blacklistCollection == db.blacklist
      ensures fresh(carModel)
    {
      collection := db.dealerships;
      carModel := new CarModel(db);
      blacklistCollection := db.blacklist;
    }

    /**
     * `createDealership(fields)` with `freshId` as the uuid: the record
     * without its password, or "Dealership already exists".
     */
    method CreateDealership(fields: NewDealership, freshId: string, salt: nat) returns (r: Result<View, string>)
      requires Valid()
      modifies collection
      ensures Valid()
      ensures var d := NewDealershipDoc(fields, freshId, salt);
        && (r.Success? <==> fields.email !in old(collection.idByEmail) && freshId !in old(collection.docs))
        && (r.Success? ==> r.value == WithoutPassword(d) && collection.docs == old(collection.docs)[freshId := d])
        && (r.Failure? ==>
              r.error == "Dealership already exists" && collection.docs == old(collection.docs)
              && collection.idByEmail == old(collection.idByEmail))
    {
      var d := NewDealershipDoc(fields, freshId, salt);
      var ok := collection.InsertOne(d);
      if !ok {
        return Failure("Dealership already exists");
      }
      return Success(WithoutPassword(d));
    }

    /** `findDealershipByEmail(dealership_email)`. */
    function FindDealershipByEmail(email: string): (r: Option<Doc>)
      reads collection, carModel, carModel.collection
      requires Valid()
      ensures r.Some? <==> email in collection.idByEmail
      ensures r.Some? ==> r.value.DealershipDoc? && r.value.email == email
      ensures r.Some? ==> r.value.id in collection.docs && collection.docs[r.value.id] == r.value
    {
      collection.FindByEmail(email)
    }

    /** `findDealershipById(dealership_id)`. */
    function FindDealershipById(id: string): (r: Option<Doc>)
      reads collection, carModel, carModel.collection
      requires Valid()
      ensures r.Some? <==> id in collection.docs
      ensures r.Some? ==> r.value.DealershipDoc? && r.value.id == id
      ensures r.Some? ==> r.value == collection.docs[id]
    {
      collection.FindById(id)
    }

    /** `updateDealership(dealership_id, updates)`: success exactly when the record changed. */
    method UpdateDealership(id: string, updates: DealershipUpdate, salt: nat) returns (success: bool)
      requires Valid()
      modifies collection
      ensures Valid()
      ensures success <==>
        id in old(collection.docs) && ApplyDealershipUpdate(old(collection.docs)[id], updates, salt) != old(collection.docs)[id]
      ensures collection.docs == if success
        then old(collection.docs)[id := ApplyDealershipUpdate(old(collection.docs)[id], updates, salt)]
        else old(collection.docs)
    {
      var record := collection.FindById(id);
      if record.None? {
        return false;
      }
      success := collection.UpdateOne(id, ApplyDealershipUpdate(record.value, updates, salt));
    }

    /**
     * `updateDealershipCars(dealership_id, newCars)`: pushes the car whose id
     * is `newCars[0]` (or `null` when there is none) onto that dealership's
     * `cars`, and no other record changes.
     */
    method UpdateDealershipCars(id: string, newCars: seq<string>) returns (r: Result<bool, string>)
      requires Valid()
      modifies collection
      ensures Valid()
      ensures id !in old(collection.docs) ==> r == Failure("Dealership not found") && collection.docs == old(collection.docs)
      ensures id in old(collection.docs) && old(collection.docs)[id].cars.None? ==>
        r == Failure(CARS_NOT_AN_ARRAY) && collection.docs == old(collection.docs)
      ensures id in old(collection.docs) && old(collection.docs)[id].cars.Some? ==>
        var entry := carModel.FindCarById(if |newCars| > 0 then Some(newCars[0]) else None);
        var d := old(collection.docs)[id];
        && r == Success(true)
        && collection.docs == old(collection.docs)[id := d.(cars := Some(d.cars.value + [entry]))]
    {
      var dealership := collection.FindById(id);
      if dealership.None? {
        return Failure("Dealership not found");
      }
      var entry := carModel.FindCarById(if |newCars| > 0 then Some(newCars[0]) else None);
      var d := dealership.value;
      if d.cars.None? {
        return Failure(CARS_NOT_AN_ARRAY);
      }
      assert d.(cars := Some(d.cars.value + [entry])).cars != d.cars;
      var modified := collection.UpdateOne(id, d.(cars := Some(d.cars.value + [entry])));
      return Success(modified);
    }

    /** `blackListToken(token)`. */
    method BlackListToken(token: Option<string>) returns (ok: bool)
      modifies blacklistCollection
      ensures ok <==> Revocation.EntryExpiry(token).Some? && token.value !in old(blacklistCollection.entries)
      ensures blacklistCollection.entries == if Revocation.EntryExpiry(token).Some?
        then Inserted(old(blacklistCollection.entries), token.value, Revocation.EntryExpiry(token).value)
        else old(blacklistCollection.entries)
    {
      ok := Revocation.BlacklistToken(blacklistCollection, token);
    }

    /** `isTokenBlacklisted(token)`. */
    function IsTokenBlacklisted(token: Option<string>): (b: bool)
      reads blacklistCollection
      ensures b <==> token.Some? && token.value in blacklistCollection.entries
    {
      blacklistCollection.Has(token)
    }

    /** `blacklistAllTokens(dealership_id)`: the surrogate carries no role, since none is stored. */
    method BlacklistAllTokens(id: string, key: string, now: int) returns (ok: bool)
      requires Valid()
      modifies blacklistCollection
      ensures id !in collection.docs ==> !ok && blacklistCollection.entries == old(blacklistCollection.entries)
      ensures id in collection.docs ==>
        && (ok <==> Revocation.SurrogateToken(id, None, key, now) !in old(blacklistCollection.entries))
        && blacklistCollection.entries == Revocation.WithSurrogate(old(blacklistCollection.entries), id, None, key, now)
    {
      ok := Revocation.BlacklistAllTokens(collection, blacklistCollection, id, key, now);
    }
  }
}
