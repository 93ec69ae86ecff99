/**
 * Request sequences against any consistent database, each combining the
 * middleware with the handlers the way the routers chain them. They pin
 * down the interplay the single handlers leave open: a blacklisted token
 * keeps passing the middleware until it expires.
 */
module Scenarios {
  import opened Wrappers
  import opened Bcrypt
  import opened Jwt
  import opened Http
  import opened Middleware
  import opened Store
  import Revocation
  import UserRoutes
  import DealershipRoutes
  import AdminRoutes
  import UserModel
  import AdminModel

  const BEARER := "Bearer"

  /** `Authorization: Bearer <token>`. */
  function BearerHeader(token: string): Option<string> {
    Some(BEARER + " " + token)
  }

  /**
   * What the middleware concludes, at second `now`, of a header carrying a
   * session token issued at `issuedAt`: it passes while unexpired, whatever
   * the blacklist holds, and carries the issued subject.
   */
  lemma SessionHeaderAccepted(who: Subject, key: string, issuedAt: int, now: int)
    requires now < issuedAt + TOKEN_LIFETIME
    ensures var token := GenerateToken(who, key, issuedAt);
      && TokenOf(BearerHeader(token).value) == Some(token)
      && var g := Authenticate(BearerHeader(token), key, now);
      && g.flow == Next && g.sent == []
      && g.claims.value.user == Some(who) && g.claims.value.dealership == Some(who) && g.claims.value.admin == Some(who)
  {
    var token := GenerateToken(who, key, issuedAt);
    TokenAfterScheme(BEARER, token);
    IssuedTokenAccepted(BEARER, who, key, issuedAt, now);
  }

  /**
   * A request carrying a session token issued at `issuedAt`, run through the
   * middleware at second `now`.
   */
  method SignIn(who: Subject, key: string, issuedAt: int, now: int) returns (req: Request, flow: Flow)
    requires now < issuedAt + TOKEN_LIFETIME
    ensures fresh(req)
    ensures req.authorization == BearerHeader(GenerateToken(who, key, issuedAt))
    ensures TokenOf(req.authorization.value) == Some(GenerateToken(who, key, issuedAt))
    ensures flow == Next && req.user == Some(who) && req.dealership == Some(who) && req.admin == Some(who)
  {
    req := new Request(BearerHeader(GenerateToken(who, key, issuedAt)));
    var res := new ServerResponse();
    SessionHeaderAccepted(who, key, issuedAt, now);
    flow := JwtAuthMiddleware(req, res, key, now);
  }

  /**
   * A user registers and then logs in with the same email and password: both
   * replies carry a token for the new id and its role, and the login token
   * verifies with that subject.
   */
  method UserRegisterThenLogin(db: Database, body: UserRoutes.RegisterBody, freshId: string, salt: nat,
                               key: string, now: int, later: int)
    returns (registered: Reply, loggedIn: Reply)
    requires db.Valid() && Truthy(body.email) && Truthy(body.password)
    requires body.email.value !in db.users.idByEmail && freshId !in db.users.docs
    modifies db.users
    ensures var who := Subject(freshId, Some(UserRoutes.RoleOf(body)));
      && registered == Reply(201, "User Registered successfully", Some(GenerateToken(who, key, now)))
      && loggedIn == Reply(200, "Logged in successfully", Some(GenerateToken(who, key, later)))
      && Verify(GenerateToken(who, key, later), key, later) == Success(SessionPayload(who, later))
  {
    registered := UserRoutes.Register(db, body, freshId, salt, key, now);
    assert db.users.docs[freshId].email == body.email.value;
    loggedIn := UserRoutes.Login(db, UserRoutes.LoginBody(body.email, body.password), key, later);
    VerifySigned(SessionPayload(Subject(freshId, Some(UserRoutes.RoleOf(body))), later), key, key, later);
  }

  /** The same for a dealership: both tokens name the fresh id, with no role. */
  method DealershipRegisterThenLogin(db: Database, body: DealershipRoutes.RegisterBody, freshId: string, salt: nat,
                                     key: string, now: int, later: int)
    returns (registered: Reply, loggedIn: Reply)
    requires db.Valid() && Truthy(body.email) && Truthy(body.password)
    requires body.email.value !in db.dealerships.idByEmail && freshId !in db.dealerships.docs
    modifies db.dealerships
    ensures var who := Subject(freshId, None);
      && registered == Reply(201, "Dealership Registered successfully", Some(GenerateToken(who, key, now)))
      && loggedIn == Reply(200, "Logged in successfully", Some(GenerateToken(who, key, later)))
  {
    registered := DealershipRoutes.Register(db, body, freshId, salt, key, now);
    assert db.dealerships.docs[freshId].email == body.email.value;
    loggedIn := DealershipRoutes.Login(db, DealershipRoutes.LoginBody(body.email, body.password), key, later);
  }

  /** The same for an admin: both tokens name the generated id, with no role. */
  method AdminRegisterThenLogin(db: Database, body: AdminRoutes.RegisterBody, freshId: string, salt: nat,
                                key: string, now: int, later: int)
    returns (registered: Reply, loggedIn: Reply)
    requires db.Valid() && Truthy(body.email) && Truthy(body.password)
    requires body.email.value !in db.admins.idByEmail && freshId !in db.admins.docs
    modifies db.admins
    ensures var who := Subject(freshId, None);
      && registered == Reply(201, "Admin Registered successfully", Some(GenerateToken(who, key, now)))
      && loggedIn == Reply(200, "Logged in successfully", Some(GenerateToken(who, key, later)))
  {
    registered := AdminRoutes.Register(db, body, freshId, salt, key, now);
    assert db.admins.docs[freshId].email == body.email.value;
    loggedIn := AdminRoutes.Login(db, AdminRoutes.LoginBody(body.email, body.password), key, later);
  }

  /**
   * A dealership logs out and presents the same unexpired token again: the
   * middleware lets it through both times, and only the handler's own
   * `isTokenBlacklisted` check refuses the second logout.
   */
  method DealershipDoubleLogout(db: Database, who: Subject, key: string, issuedAt: int, now: int)
    returns (firstFlow: Flow, first: Reply, secondFlow: Flow, second: Reply)
    requires GenerateToken(who, key, issuedAt) !in db.blacklist.entries
    requires now < issuedAt + TOKEN_LIFETIME
    modifies db.blacklist
    ensures firstFlow == Next && first == LOGGED_OUT
    ensures secondFlow == Next && second == ALREADY_BLACKLISTED
    ensures db.blacklist.entries ==
      old(db.blacklist.entries)[GenerateToken(who, key, issuedAt) := At((issuedAt + TOKEN_LIFETIME) * 1000)]
  {
    Revocation.SessionTokenExpiry(who, key, issuedAt);
    var req, again;
    req, firstFlow := SignIn(who, key, issuedAt, now);
    first := DealershipRoutes.Logout(db, req);
    again, secondFlow := SignIn(who, key, issuedAt, now);
    second := DealershipRoutes.Logout(db, again);
  }

  /**
   * A user logs out twice with the same token: the user handler does not
   * ask the blacklist first, so the second insert fails on the unique index
   * and the entry keeps its first expiry.
   */
  method UserDoubleLogout(db: Database, who: Subject, key: string, issuedAt: int, now: int)
    returns (firstFlow: Flow, first: Reply, secondFlow: Flow, second: Reply)
    requires GenerateToken(who, key, issuedAt) !in db.blacklist.entries
    requires now < issuedAt + TOKEN_LIFETIME
    modifies db.blacklist
    ensures firstFlow == Next && first == LOGGED_OUT
    ensures secondFlow == Next && second == BLACKLIST_FAILED
    ensures db.blacklist.entries ==
      old(db.blacklist.entries)[GenerateToken(who, key, issuedAt) := At((issuedAt + TOKEN_LIFETIME) * 1000)]
  {
    Revocation.SessionTokenExpiry(who, key, issuedAt);
    var req, again;
    req, firstFlow := SignIn(who, key, issuedAt, now);
    first := UserRoutes.Logout(db, req);
    again, secondFlow := SignIn(who, key, issuedAt, now);
    second := UserRoutes.Logout(db, again);
  }

  /**
   * `PUT /change-password` by the user `d` with its current password: the
   * one step of the exchange below, stated on its own.
   */
  method ChangeUserPassword(db: Database, req: Request, d: Doc, oldPassword: string, newPassword: string,
                            salt: nat, key: string, now: int) returns (changed: Reply)
    requires db.Valid() && d.UserDoc? && d.id in db.users.docs && db.users.docs[d.id] == d
    requires req.user == Some(Subject(d.id, Some(d.role)))
    requires Compare(oldPassword, d.password) && oldPassword != "" && newPassword != "" && Significant(oldPassword) != Significant(newPassword)
    modifies db.users, db.blacklist
    ensures db.Valid() && changed == UserRoutes.PASSWORD_CHANGED
    ensures d.id in db.users.docs && db.users.docs[d.id].UserDoc?
    ensures db.users.docs[d.id].id == d.id && db.users.docs[d.id].email == d.email && db.users.docs[d.id].role == d.role
    ensures !Compare(oldPassword, db.users.docs[d.id].password) && Compare(newPassword, db.users.docs[d.id].password)
  {
    var updated := UserModel.ApplyUserUpdate(d, UserModel.UserUpdate(Some(newPassword), None, None, None), salt);
    assert !Compare(oldPassword, updated.password);
    changed := UserRoutes.ChangePassword(db, req, UserRoutes.PasswordChange(Some(oldPassword), Some(newPassword)), salt, key, now);
  }

  /**
   * A user changes password with a session token: the reply carries no
   * token, the token used for the change is still accepted afterwards, and
   * only the new password logs in.
   */
  method UserPasswordChange(db: Database, email: string, oldPassword: string, newPassword: string,
                            salt: nat, key: string, issuedAt: int, now: int)
    returns (changed: Reply, afterFlow: Flow, withOld: Reply, withNew: Reply)
    requires db.Valid() && email != "" && email in db.users.idByEmail
    requires Compare(oldPassword, db.users.docs[db.users.idByEmail[email]].password)
    requires oldPassword != "" && newPassword != "" && Significant(oldPassword) != Significant(newPassword)
    requires now < issuedAt + TOKEN_LIFETIME
    modifies db.users, db.blacklist
    ensures changed == UserRoutes.PASSWORD_CHANGED
    ensures afterFlow == Next
    ensures withOld == INVALID_CREDENTIALS
    ensures var d := old(db.users.docs[db.users.idByEmail[email]]);
      withNew == Reply(200, "Logged in successfully", Some(GenerateToken(Subject(d.id, Some(d.role)), key, now)))
  {
    var d := db.users.docs[db.users.idByEmail[email]];
    assert d.id == db.users.idByEmail[email] && d.UserDoc?;
    var req, _ := SignIn(Subject(d.id, Some(d.role)), key, issuedAt, now);
    changed := ChangeUserPassword(db, req, d, oldPassword, newPassword, salt, key, now);
    var _, after := SignIn(Subject(d.id, Some(d.role)), key, issuedAt, now);
    afterFlow := after;
    assert db.users.idByEmail[email] == d.id;
    withOld := UserRoutes.Login(db, UserRoutes.LoginBody(Some(email), Some(oldPassword)), key, now);
    withNew := UserRoutes.Login(db, UserRoutes.LoginBody(Some(email), Some(newPassword)), key, now);
  }

  /**
   * `PUT /change-password` by the admin `id` with its current password: the
   * one step of the exchange below, stated on its own.
   */
  method ChangeAdminPassword(db: Database, req: Request, id: string, oldPassword: string, newPassword: string,
                             salt: nat, key: string, now: int) returns (changed: Reply)
    requires db.Valid() && id in db.admins.docs && req.admin == Some(Subject(id, None))
    requires Compare(oldPassword, db.admins.docs[id].password)
    requires oldPassword != "" && newPassword != "" && Significant(oldPassword) != Significant(newPassword)
    modifies db.admins, db.blacklist
    ensures changed == Reply(200, "Password Changed Successfully", Some(GenerateToken(Subject(id, None), key, now)))
    ensures db.blacklist.entries.Keys == old(db.blacklist.entries.Keys) + {Revocation.SurrogateToken(id, None, key, now)}
  {
    var updated := AdminModel.ApplyAdminUpdate(db.admins.docs[id], Some(newPassword), salt);
    assert !Compare(oldPassword, updated.password);
    changed := AdminRoutes.ChangePassword(db, req, AdminRoutes.PasswordChange(Some(oldPassword), Some(newPassword)), salt, key, now);
  }

  /**
   * An admin changes password: the surrogate entry is the only new blacklist
   * key, and both the old token and the returned one pass the middleware.
   */
  method AdminPasswordChange(db: Database, id: string, oldPassword: string, newPassword: string,
                             salt: nat, key: string, issuedAt: int, now: int)
    returns (changed: Reply, oldFlow: Flow, newFlow: Flow)
    requires db.Valid() && id in db.admins.docs
    requires Compare(oldPassword, db.admins.docs[id].password)
    requires oldPassword != "" && newPassword != "" && Significant(oldPassword) != Significant(newPassword)
    requires now < issuedAt + TOKEN_LIFETIME
    modifies db.admins, db.blacklist
    ensures changed == Reply(200, "Password Changed Successfully", Some(GenerateToken(Subject(id, None), key, now)))
    ensures db.blacklist.entries.Keys == old(db.blacklist.entries.Keys) + {Revocation.SurrogateToken(id, None, key, now)}
    ensures oldFlow == Next && newFlow == Next
  {
    var req, _ := SignIn(Subject(id, None), key, issuedAt, now);
    changed := ChangeAdminPassword(db, req, id, oldPassword, newPassword, salt, key, now);
    var _, after := SignIn(Subject(id, None), key, issuedAt, now);
    var _, issued := SignIn(Subject(id, None), key, now, now);
    oldFlow, newFlow := after, issued;
  }

  /**
   * `/add-cars` from a dealership registered without a `cars` array: the car
   * is created but the push onto `null` fails, so the reply is 500 and the
   * car's name is taken from then on.
   */
  method AddCarWithoutCarsArray(db: Database, dealershipId: string, carId: string, carName: string)
    returns (reply: Reply, retry: Reply)
    requires db.Valid() && dealershipId in db.dealerships.docs && db.dealerships.docs[dealershipId].cars.None?
    requires dealershipId != "" && carName != "" && carName !in db.cars.idByName && carId !in db.cars.docs
    modifies db.cars, db.dealerships
    ensures reply == INTERNAL_ERROR
    ensures retry == DealershipRoutes.CAR_EXISTS
    ensures db.dealerships.docs == old(db.dealerships.docs)
    ensures db.cars.docs == old(db.cars.docs)[carId := Car(carId, None, carName, None, None)]
  {
    var req := new Request(None);
    req.dealership := Some(Subject(dealershipId, None));
    var carBody := DealershipRoutes.CarBody(None, Some(carName), None, None);
    var car;
    reply, car := DealershipRoutes.AddCars(db, req, carBody, carId);
    assert db.cars.docs[carId].name == carName;
    retry, car := DealershipRoutes.AddCars(db, req, carBody, carId);
  }

  /** With a `cars` array stored at registration, `/add-cars` appends the new car to it. */
  method AddCarWithCarsArray(db: Database, dealershipId: string, carId: string, carName: string)
    returns (reply: Reply, car: Option<Car>)
    requires db.Valid() && dealershipId in db.dealerships.docs && db.dealerships.docs[dealershipId].cars.Some?
    requires dealershipId != "" && carName != "" && carName !in db.cars.idByName && carId !in db.cars.docs
    modifies db.cars, db.dealerships
    ensures reply == DealershipRoutes.CAR_ADDED
    ensures car == Some(Car(carId, None, carName, None, None))
    ensures dealershipId in db.dealerships.docs && db.dealerships.docs[dealershipId].DealershipDoc?
    ensures db.dealerships.docs[dealershipId].cars == Some(old(db.dealerships.docs[dealershipId].cars.value) + [car])
  {
    var req := new Request(None);
    req.dealership := Some(Subject(dealershipId, None));
    reply, car := DealershipRoutes.AddCars(db, req, DealershipRoutes.CarBody(None, Some(carName), None, None), carId);
  }
}
