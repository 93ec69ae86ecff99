/**
 * The MongoDB collections the core touches, with the unique indexes that
 * each model's `init` creates: `user`, `dealership` and `admin` are unique on
 * id and on email, `car` on id and on name, `blacklist` on the token. The
 * `blacklist` collection has one TTL index on `expiresAt`.
 */
module Store {
  import opened Wrappers
  import opened Bcrypt

  /** A free-form sub-document such as `user_info`, defaulted to `{}`. */
  type Info = map<string, string>

  /** A car document as `createCar` writes it. */
  datatype Car = Car(id: string, carType: Option<string>, name: string, model: Option<string>, info: Option<string>)

  datatype Kind = UserKind | DealershipKind | AdminKind

  /** A stored principal record. Only user records have a `role` field. */
  datatype Doc =
    | UserDoc(email: string, id: string, location: Option<string>, info: Info,
              password: Digest, role: string, vehicles: seq<string>)
    | DealershipDoc(email: string, id: string, name: Option<string>, location: Option<string>,
                    password: Digest, info: Info, cars: Option<seq<Option<Car>>>,
                    deals: Option<seq<string>>, soldVehicles: Option<seq<string>>)
    | AdminDoc(email: string, id: string, password: Digest)
  {
    function KindOf(): Kind {
      match this
      case UserDoc(_, _, _, _, _, _, _) => UserKind
      case DealershipDoc(_, _, _, _, _, _, _, _, _) => DealershipKind
      case AdminDoc(_, _, _) => AdminKind
    }

    /** `record.role`: absent on dealership and admin records, which never store one. */
    function Role(): Option<string> {
      if UserDoc? then Some(role) else None
    }
  }

  /** A record as the `createX` methods return it: every field but the password. */
  datatype View =
    | UserView(email: string, id: string, location: Option<string>, info: Info, role: string, vehicles: seq<string>)
    | DealershipView(email: string, id: string, name: Option<string>, location: Option<string>, info: Info,
                     cars: Option<seq<Option<Car>>>, deals: Option<seq<string>>, soldVehicles: Option<seq<string>>)
    | AdminView(email: string, id: string)
  {
    /** `record.role` of a returned record. */
    function Role(): Option<string> {
      if UserView? then Some(role) else None
    }
  }

  /** `const { password, ...rest } = record`: every field but the password. */
  function WithoutPassword(d: Doc): (v: View)
    ensures v.email == d.email && v.id == d.id
    ensures v.UserView? <==> d.UserDoc?
    ensures v.DealershipView? <==> d.DealershipDoc?
    ensures v.AdminView? <==> d.AdminDoc?
    ensures v.Role() == d.Role()
    ensures WithPassword(v, d.password) == d
  {
    match d
    case UserDoc(e, i, l, inf, _, r, vs) => UserView(e, i, l, inf, r, vs)
    case DealershipDoc(e, i, n, l, _, inf, c, ds, sv) => DealershipView(e, i, n, l, inf, c, ds, sv)
    case AdminDoc(e, i, _) => AdminView(e, i)
  }

  /** A returned record with a password put back: the inverse of `WithoutPassword`. */
  function WithPassword(v: View, password: Digest): Doc {
    match v
    case UserView(e, i, l, inf, r, vs) => UserDoc(e, i, l, inf, password, r, vs)
    case DealershipView(e, i, n, l, inf, c, ds, sv) => DealershipDoc(e, i, n, l, password, inf, c, ds, sv)
    case AdminView(e, i) => AdminDoc(e, i, password)
  }

  /** One principal collection: documents by id, and the unique email index. */
  class PrincipalCollection {
    const kind: Kind
    var docs: map<string, Doc>
    var idByEmail: map<string, string>

    /** Both unique indexes hold and every document is of this collection's kind. */
    ghost predicate Valid()
      reads this
    {
      && (forall id | id in docs ::
            docs[id].id == id && docs[id].KindOf() == kind
            && docs[id].email in idByEmail && idByEmail[docs[id].email] == id)
      && (forall e | e in idByEmail :: idByEmail[e] in docs && docs[idByEmail[e]].email == e)
    }

    constructor(kind: Kind)
      ensures Valid() && this.kind == kind && docs == map[] && idByEmail == map[]
    {
      this.kind := kind;
      docs, idByEmail := map[], map[];
    }

    /** `findOne({email})`. */
    function FindByEmail(email: string): (r: Option<Doc>)
      reads this
      requires Valid()
      ensures r.Some? <==> email in idByEmail
      ensures r.Some? ==> r.value.email == email && r.value.id in docs && docs[r.value.id] == r.value
    {
      if email in idByEmail then Some(docs[idByEmail[email]]) else None
    }

    /** `findOne({id})`. */
    function FindById(id: string): (r: Option<Doc>)
      reads this
      requires Valid()
      ensures r.Some? <==> id in docs
      ensures r.Some? ==> r.value.id == id && r.value == docs[id]
    {
      if id in docs then Some(docs[id]) else None
    }

    /** `insertOne(doc)`: refused, with nothing written, when either unique index already holds the key. */
    method InsertOne(d: Doc) returns (ok: bool)
      requires Valid() && d.KindOf() == kind
      modifies this
      ensures Valid()
      ensures ok <==> d.email !in old(idByEmail) && d.id !in old(docs)
      ensures ok ==> docs == old(docs)[d.id := d] && idByEmail == old(idByEmail)[d.email := d.id]
      ensures !ok ==> docs == old(docs) && idByEmail == old(idByEmail)
    {
      ok := d.email !in idByEmail && d.id !in docs;
      if ok {
        docs := docs[d.id := d];
        idByEmail := idByEmail[d.email := d.id];
      }
    }

    /**
     * `updateOne({id}, update)` where `d` is the document the update produces
     * (its id and email unchanged); the result is `modifiedCount > 0`.
     */
    method UpdateOne(id: string, d: Doc) returns (modified: bool)
      requires Valid()
      requires id in docs ==> d.id == id && d.email == docs[id].email && d.KindOf() == kind
      modifies this
      ensures Valid()
      ensures modified <==> id in old(docs) && old(docs)[id] != d
      ensures docs == (if modified then old(docs)[id := d] else old(docs))
      ensures idByEmail == old(idByEmail)
    {
      modified := id in docs && docs[id] != d;
      if modified {
        docs := docs[id := d];
      }
    }
  }

  /** The `car` collection: documents by id, and the unique name index. */
  class CarCollection {
    var docs: map<string, Car>
    var idByName: map<string, string>

    ghost predicate Valid()
      reads this
    {
      && (forall id | id in docs :: docs[id].id == id && docs[id].name in idByName && idByName[docs[id].name] == id)
      && (forall n | n in idByName :: idByName[n] in docs && docs[idByName[n]].name == n)
    }

    constructor()
      ensures Valid() && docs == map[] && idByName == map[]
    {
      docs, idByName := map[], map[];
    }

    /** `findCarByName(name)`. */
    function FindByName(name: string): (r: Option<Car>)
      reads this
      requires Valid()
      ensures r.Some? <==> name in idByName
      ensures r.Some? ==> r.value.name == name && r.value.id in docs && docs[r.value.id] == r.value
    {
      if name in idByName then Some(docs[idByName[name]]) else None
    }

    /** `findCarById({car_id})`; an `undefined` id matches nothing. */
    function FindById(id: Option<string>): (r: Option<Car>)
      reads this
      requires Valid()
      ensures r.Some? <==> id.Some? && id.value in docs
      ensures r.Some? ==> r.value == docs[id.value]
    {
      if id.Some? && id.value in docs then Some(docs[id.value]) else None
    }

    /** `insertOne(car)`: refused when the id or the name is taken. */
    method InsertOne(c: Car) returns (ok: bool)
      requires Valid()
      modifies this
      ensures Valid()
      ensures ok <==> c.name !in old(idByName) && c.id !in old(docs)
      ensures ok ==> docs == old(docs)[c.id := c] && idByName == old(idByName)[c.name := c.id]
      ensures !ok ==> docs == old(docs) && idByName == old(idByName)
    {
      ok := c.name !in idByName && c.id !in docs;
      if ok {
        docs := docs[c.id := c];
        idByName := idByName[c.name := c.id];
      }
    }
  }

  /** A stored `expiresAt`: milliseconds, or the `Invalid Date` that `new Date(NaN)` gives. */
  datatype Expiry = At(ms: int) | InvalidDate

  /**
   * The milliseconds the BSON encoder writes for a date: `getTime()`, which
   * is `NaN` for an Invalid Date and is then written as 0.
   */
  function StoredMs(e: Expiry): int {
    if e.At? then e.ms else 0
  }

  /**
   * The blacklist after inserting `token` unless it is already a key: the
   * unique token index as a definition. The facts built on it are proved in
   * `Revocation` (`WithSurrogate`, `AllTokensKeepsSessions`).
   */
  function Inserted(entries: map<string, Expiry>, token: string, expiresAt: Expiry): (r: map<string, Expiry>)
    ensures token in r && r.Keys == entries.Keys + {token}
    ensures token !in entries ==> r[token] == expiresAt
    ensures forall t | t in entries :: r[t] == entries[t]
  {
    if token in entries then entries else entries[token := expiresAt]
  }

  /**
   * The entries the TTL monitor keeps at `nowMs`: those whose stored date has
   * not passed. An Invalid Date is stored as 0, so it goes on the first pass
   * after the epoch.
   */
  function Unexpired(entries: map<string, Expiry>, nowMs: int): (r: map<string, Expiry>)
    ensures forall t :: t in r <==> t in entries && StoredMs(entries[t]) >= nowMs
    ensures forall t | t in r :: r[t] == entries[t]
  {
    map t | t in entries && StoredMs(entries[t]) >= nowMs :: entries[t]
  }

  /** A second pass at the same instant removes nothing more. */
  lemma UnexpiredIdempotent(entries: map<string, Expiry>, nowMs: int)
    ensures Unexpired(Unexpired(entries, nowMs), nowMs) == Unexpired(entries, nowMs)
  {
  }

  /** The single `blacklist` collection that all three models share. */
  class BlacklistCollection {
    var entries: map<string, Expiry>

    constructor()
      ensures entries == map[]
    {
      entries := map[];
    }

    /** `!!findOne({token})`; an `undefined` token matches nothing. */
    predicate Has(token: Option<string>)
      reads this
    {
      token.Some? && token.value in entries
    }

    /** `insertOne({token, expiresAt})`: refused by the unique index when the token is present. */
    method InsertOne(token: string, expiresAt: Expiry) returns (ok: bool)
      modifies this
      ensures ok <==> token !in old(entries)
      ensures entries == Inserted(old(entries), token, expiresAt)
    {
      ok := token !in entries;
      entries := Inserted(entries, token, expiresAt);
    }

    /** One pass of the TTL monitor at `nowMs`. */
    method RemoveExpired(nowMs: int)
      modifies this
      ensures entries == Unexpired(old(entries), nowMs)
    {
      entries := Unexpired(entries, nowMs);
    }
  }

  /** The database `connectDB` returns: the five collections, each a distinct object. */
  class Database {
    const users: PrincipalCollection
    const dealerships: PrincipalCollection
    const admins: PrincipalCollection
    const cars: CarCollection
    const blacklist: BlacklistCollection

    ghost predicate Valid()
      reads users, dealerships, admins, cars
    {
      && users != dealerships && users != admins && dealerships != admins
      && users.kind == UserKind && dealerships.kind == DealershipKind && admins.kind == AdminKind
      && users.Valid() && dealerships.Valid() && admins.Valid() && cars.Valid()
    }

    constructor()
      ensures Valid()
      ensures fresh(users) && fresh(dealerships) && fresh(admins) && fresh(cars) && fresh(blacklist)
      ensures users.docs == map[] && dealerships.docs == map[] && admins.docs == map[]
      ensures cars.docs == map[] && blacklist.entries == map[]
    {
      users := new PrincipalCollection(UserKind);
      dealerships := new PrincipalCollection(DealershipKind);
      admins := new PrincipalCollection(AdminKind);
      cars := new CarCollection();
      blacklist := new BlacklistCollection();
    }
  }
}
