/**
 * The `/register`, `/login`, `/change-password`, `/logout` and `/add-cars`
 * handlers of `dealership.routes.js`.
 */
module DealershipRoutes {
  import opened Wrappers
  import opened Bcrypt
  import opened Jwt
  import opened Http
  import opened Middleware
  import opened Store
  import opened Cars
  import opened DealershipModel
  import Revocation

  /**
   * The request body of `/register`. The handler also passes `role` and
   * `dealership_id` on, but `createDealership` ignores both.
   */
  datatype RegisterBody = RegisterBody(email: Option<string>, password: Option<string>, id: Option<string>,
                                       name: Option<string>, location: Option<string>, info: Option<Info>,
                                       cars: Option<seq<Option<Car>>>, deals: Option<seq<string>>,
                                       soldVehicles: Option<seq<string>>)

  datatype LoginBody = LoginBody(email: Option<string>, password: Option<string>)

  datatype PasswordChange = PasswordChange(currentPassword: Option<string>, newPassword: Option<string>)

  /** The request body of `/add-cars`. */
  datatype CarBody = CarBody(carType: Option<string>, carName: Option<string>, model: Option<string>, info: Option<string>)

  const DEALERSHIP_EXISTS := Reply(400, "Dealership already exists", None)
  const NO_DEALERSHIP := Reply(400, "No Dealership Found", None)
  const DEALERSHIP_NOT_FOUND := Reply(400, "Dealership not found", None)
  const ID_REQUIRED := Reply(400, "Dealership id is required", None)
  const CAR_NAME_REQUIRED := Reply(400, "Car name is required", None)
  const CAR_EXISTS := Reply(400, "car already exists", None)
  const CAR_ADDED := Reply(200, "Car added successfully", None)

  function NewDealershipOf(body: RegisterBody): NewDealership
    requires body.email.Some? && body.password.Some?
  {
    NewDealership(body.email.value, body.name, body.location, body.password.value, body.info,
                  body.cars, body.deals, body.soldVehicles)
  }

  /**
   * `POST /register`. The stored id is `freshId` whatever `body.id` says, and
   * the token's subject has no role, since the returned record has none.
   */
  method Register(db: Database, body: RegisterBody, freshId: string, salt: nat, key: string, now: int) returns (reply: Reply)
    requires db.Valid()
    modifies db.dealerships
    ensures db.Valid()
    ensures !Truthy(body.email) || !Truthy(body.password) ==>
      reply == MISSING_CREDENTIALS && db.dealerships.docs == old(db.dealerships.docs)
    ensures Truthy(body.email) && Truthy(body.password) ==>
      if body.email.value in old(db.dealerships.idByEmail) || freshId in old(db.dealerships.docs) then
        reply == DEALERSHIP_EXISTS && db.dealerships.docs == old(db.dealerships.docs)
      else
        && reply == Reply(201, "Dealership Registered successfully", Some(GenerateToken(Subject(freshId, None), key, now)))
        && db.dealerships.docs == old(db.dealerships.docs)[freshId := NewDealershipDoc(NewDealershipOf(body), freshId, salt)]
  {
    var dealershipModel := new Dealership(db);
    if !Truthy(body.email) || !Truthy(body.password) {
      return MISSING_CREDENTIALS;
    }
    var existing := dealershipModel.FindDealershipByEmail(body.email.value);
    if existing.Some? {
      return DEALERSHIP_EXISTS;
    }
    var created := dealershipModel.CreateDealership(NewDealershipOf(body), freshId, salt);
    if created.Failure? {
      // The `catch` passes "Dealership already exists" on with status 400.
      return Reply(400, created.error, None);
    }
    var token := GenerateToken(Subject(created.value.id, created.value.Role()), key, now);
    return Reply(201, "Dealership Registered successfully", Some(token));
  }

  /** `POST /login`: reads the store and changes nothing. */
  method Login(db: Database, body: LoginBody, key: string, now: int) returns (reply: Reply)
    requires db.Valid()
    ensures !Truthy(body.email) || !Truthy(body.password) ==> reply == MISSING_CREDENTIALS
    ensures Truthy(body.email) && Truthy(body.password) && body.email.value !in db.dealerships.idByEmail ==>
      reply == NO_DEALERSHIP
    ensures Truthy(body.email) && Truthy(body.password) && body.email.value in db.dealerships.idByEmail ==>
      var d := db.dealerships.docs[db.dealerships.idByEmail[body.email.value]];
      reply == if Compare(body.password.value, d.password)
        then Reply(200, "Logged in successfully", Some(GenerateToken(Subject(d.id, None), key, now)))
        else INVALID_CREDENTIALS
  {
    if !Truthy(body.email) || !Truthy(body.password) {
      return MISSING_CREDENTIALS;
    }
    var dealershipModel := new Dealership(db);
    var dealership := dealershipModel.FindDealershipByEmail(body.email.value);
    if dealership.None? {
      return NO_DEALERSHIP;
    }
    if !Compare(body.password.value, dealership.value.password) {
      return INVALID_CREDENTIALS;
    }
    var token := GenerateToken(Subject(dealership.value.id, dealership.value.Role()), key, now);
    return Reply(200, "Logged in successfully", Some(token));
  }

  /**
   * The tail of `/change-password` once the current password matched: the
   * update, then `blacklistAllTokens` when the update changed the record.
   */
  method StoreNewPassword(db: Database, id: string, newPassword: Option<string>, salt: nat, key: string, now: int)
    returns (updated: bool)
    requires db.Valid() && id in db.dealerships.docs
    modifies db.dealerships, db.blacklist
    ensures db.Valid()
    ensures var d := old(db.dealerships.docs)[id];
      var u := ApplyDealershipUpdate(d, DealershipUpdate(newPassword, None, None, None), salt);
      && (updated <==> u != d)
      && (updated ==>
            db.dealerships.docs == old(db.dealerships.docs)[id := u]
            && db.blacklist.entries == Revocation.WithSurrogate(old(db.blacklist.entries), id, None, key, now))
      && (!updated ==> db.dealerships.docs == old(db.dealerships.docs) && db.blacklist.entries == old(db.blacklist.entries))
  {
    var dealershipModel := new Dealership(db);
    updated := dealershipModel.UpdateDealership(id, DealershipUpdate(newPassword, None, None, None), salt);
    if updated {
      var _ := dealershipModel.BlacklistAllTokens(id, key, now);
    }
  }

  /**
   * `PUT /change-password` for the caller named by `req.dealership`. The
   * result of `blacklistAllTokens` is ignored, and the reply carries a new token.
   */
  method ChangePassword(db: Database, req: Request, body: PasswordChange, salt: nat, key: string, now: int)
    returns (reply: Reply)
    requires db.Valid()
    modifies db.dealerships, db.blacklist
    ensures db.Valid()
    ensures req.dealership.None? ==> reply == INTERNAL_ERROR
    ensures req.dealership.Some? && (!Truthy(body.currentPassword) || !Truthy(body.newPassword)) ==>
      reply == MISSING_PASSWORDS
    ensures req.dealership.Some? && Truthy(body.currentPassword) && Truthy(body.newPassword) ==>
      var id := req.dealership.value.id;
      if id !in old(db.dealerships.docs) then reply == DEALERSHIP_NOT_FOUND
      else
        var d := old(db.dealerships.docs)[id];
        var updated := ApplyDealershipUpdate(d, DealershipUpdate(body.newPassword, None, None, None), salt);
        reply == if !Compare(body.currentPassword.value, d.password) then INVALID_CREDENTIALS
                 else if updated == d then UPDATE_FAILED
                 else Reply(200, "Password Changed Successfully", Some(GenerateToken(Subject(id, None), key, now)))
    ensures reply.status == 200 ==>
      var id := req.dealership.value.id;
      var d := old(db.dealerships.docs)[id];
      && db.dealerships.docs == old(db.dealerships.docs)[id := ApplyDealershipUpdate(d, DealershipUpdate(body.newPassword, None, None, None), salt)]
      && db.blacklist.entries == Revocation.WithSurrogate(old(db.blacklist.entries), id, None, key, now)
    ensures reply.status != 200 ==>
      db.dealerships.docs == old(db.dealerships.docs) && db.blacklist.entries == old(db.blacklist.entries)
  {
    var dealershipModel := new Dealership(db);
    if req.dealership.None? {
      // `req.dealership.id` throws a TypeError; the `catch` answers 500.
      return INTERNAL_ERROR;
    }
    var dealershipId := req.dealership.value.id;
    if !Truthy(body.currentPassword) || !Truthy(body.newPassword) {
      return MISSING_PASSWORDS;
    }
    var dealership := dealershipModel.FindDealershipById(dealershipId);
    if dealership.None? {
      return DEALERSHIP_NOT_FOUND;
    }
    if !Compare(body.currentPassword.value, dealership.value.password) {
      return INVALID_CREDENTIALS;
    }
    var updated := StoreNewPassword(db, dealershipId, body.newPassword, salt, key, now);
    if !updated {
      return UPDATE_FAILED;
    }
    var token := GenerateToken(Subject(dealershipId, dealership.value.Role()), key, now);
    return Reply(200, "Password Changed Successfully", Some(token));
  }

  /**
   * `POST /logout`: a token already in the blacklist gets 400; otherwise it
   * is inserted with its own expiry.
   */
  method Logout(db: Database, req: Request) returns (reply: Reply)
    modifies db.blacklist
    ensures req.authorization.None? ==> reply == INTERNAL_ERROR && db.blacklist.entries == old(db.blacklist.entries)
    ensures req.authorization.Some? ==>
      var token := TokenOf(req.authorization.value);
      var expiresAt := Revocation.EntryExpiry(token);
      if token.Some? && token.value in old(db.blacklist.entries) then
        reply == ALREADY_BLACKLISTED && db.blacklist.entries == old(db.blacklist.entries)
      else if expiresAt.Some? then
        reply == LOGGED_OUT && db.blacklist.entries == old(db.blacklist.entries)[token.value := expiresAt.value]
      else
        reply == BLACKLIST_FAILED && db.blacklist.entries == old(db.blacklist.entries)
  {
    var dealershipModel := new Dealership(db);
    if req.authorization.None? {
      // `req.headers.authorization.split` throws a TypeError; the `catch` answers 500.
      return INTERNAL_ERROR;
    }
    var token := TokenOf(req.authorization.value);
    var isBlackListed := dealershipModel.IsTokenBlacklisted(token);
    if isBlackListed {
      return ALREADY_BLACKLISTED;
    }
    var result := dealershipModel.BlackListToken(token);
    if !result {
      return BLACKLIST_FAILED;
    }
    return LOGGED_OUT;
  }

  /**
   * `PUT /add-cars` for the caller named by `req.dealership`, with `freshId`
   * as the car's uuid. Once the car is created it stays, even when the push
   * onto the dealership then fails.
   */
  method AddCars(db: Database, req: Request, body: CarBody, freshId: string) returns (reply: Reply, car: Option<Car>)
    requires db.Valid()
    modifies db.cars, db.dealerships
    ensures db.Valid()
    ensures req.dealership.None? ==> reply == INTERNAL_ERROR && car.None? && db.cars.docs == old(db.cars.docs)
    ensures req.dealership.Some? && req.dealership.value.id == "" ==> reply == ID_REQUIRED && car.None?
    ensures req.dealership.Some? && req.dealership.value.id != "" && !Truthy(body.carName) ==>
      reply == CAR_NAME_REQUIRED && car.None?
    ensures req.dealership.Some? && req.dealership.value.id != "" && Truthy(body.carName) ==>
      var id := req.dealership.value.id;
      var name := body.carName.value;
      var created := Car(freshId, body.carType, name, body.model, body.info);
      if name in old(db.cars.idByName) then reply == CAR_EXISTS && car.None?
      else if freshId in old(db.cars.docs) then reply == INTERNAL_ERROR && car.None? && db.cars.docs == old(db.cars.docs)
      else
        && db.cars.docs == old(db.cars.docs)[freshId := created]
        && if id in old(db.dealerships.docs) && old(db.dealerships.docs)[id].cars.Some? then
             var d := old(db.dealerships.docs)[id];
             && reply == CAR_ADDED && car == Some(created)
             && db.dealerships.docs == old(db.dealerships.docs)[id := d.(cars := Some(d.cars.value + [Some(created)]))]
           else reply == INTERNAL_ERROR && car.None?
    ensures reply != CAR_ADDED ==> db.dealerships.docs == old(db.dealerships.docs)
    ensures reply != CAR_ADDED && reply != INTERNAL_ERROR ==> db.cars.docs == old(db.cars.docs)
  {
    var carModel := new CarModel(db);
    var dealershipModel := new Dealership(db);
    if req.dealership.None? {
      // `req.dealership.id` throws a TypeError; the `catch` answers 500.
      return INTERNAL_ERROR, None;
    }
    var dealershipId := req.dealership.value.id;
    if dealershipId == "" {
      return ID_REQUIRED, None;
    }
    if !Truthy(body.carName) {
      return CAR_NAME_REQUIRED, None;
    }
    var existingCar := carModel.FindCarByName(body.carName.value);
    if existingCar.Some? {
      return CAR_EXISTS, None;
    }
    var newCar := carModel.CreateCar(CarFields(body.carType, body.carName.value, body.model, body.info), freshId);
    if newCar.Failure? {
      // "Car already exists" from `createCar` reaches the route's `catch`: 500.
      return INTERNAL_ERROR, None;
    }
    var updateDealer := dealershipModel.UpdateDealershipCars(dealershipId, [newCar.value.id]);
    if updateDealer.Failure? {
      return INTERNAL_ERROR, None;
    }
    // `updateDealer.value` is always true here: a `$push` always modifies the
    // record, so the "Error updating dealership with new cars" reply cannot occur.
    return CAR_ADDED, Some(newCar.value);
  }
}
