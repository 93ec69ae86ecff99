/**
 * The `/register`, `/login`, `/change-password` and `/logout` handlers of
 * `user.routes.js`. Each runs as one atomic step against the database; the
 * protected ones see `req` as `jwtAuthMiddleware` left it.
 */
module UserRoutes {
  import opened Wrappers
  import opened Bcrypt
  import opened Jwt
  import opened Http
  import opened Middleware
  import opened Store
  import opened UserModel
  import Revocation

  datatype RegisterBody = RegisterBody(email: Option<string>, password: Option<string>, location: Option<string>,
                                       info: Option<Info>, role: Option<string>)

  datatype LoginBody = LoginBody(email: Option<string>, password: Option<string>)

  datatype PasswordChange = PasswordChange(currentPassword: Option<string>, newPassword: Option<string>)

  const USER_EXISTS := Reply(400, "User already exists", None)
  const NO_USER := Reply(400, "No User Found", None)
  const USER_NOT_FOUND := Reply(400, "User not found", None)
  /** The user handler's success reply carries no token. */
  const PASSWORD_CHANGED := Reply(200, "Password Changed Successfully", None)

  /** `data.role || "client"`. */
  function RoleOf(body: RegisterBody): string {
    if Truthy(body.role) then body.role.value else "client"
  }

  /** The fields `register` hands to `createUser`; `vehicle_info` is never passed. */
  function NewUserOf(body: RegisterBody): NewUser
    requires body.email.Some? && body.password.Some?
  {
    NewUser(body.email.value, body.location, body.info, body.password.value, Some(RoleOf(body)), None)
  }

  /** `POST /register` with `freshId` as the uuid, `salt` as bcrypt's randomness and `now` as the clock. */
  method Register(db: Database, body: RegisterBody, freshId: string, salt: nat, key: string, now: int) returns (reply: Reply)
    requires db.Valid()
    modifies db.users
    ensures db.Valid()
    ensures !Truthy(body.email) || !Truthy(body.password) ==>
      reply == MISSING_CREDENTIALS && db.users.docs == old(db.users.docs)
    ensures Truthy(body.email) && Truthy(body.password) ==>
      if body.email.value in old(db.users.idByEmail) || freshId in old(db.users.docs) then
        reply == USER_EXISTS && db.users.docs == old(db.users.docs)
      else
        && reply == Reply(201, "User Registered successfully", Some(GenerateToken(Subject(freshId, Some(RoleOf(body))), key, now)))
        && db.users.docs == old(db.users.docs)[freshId := NewUserDoc(NewUserOf(body), freshId, salt)]
  {
    var userModel := new User(db);
    if !Truthy(body.email) || !Truthy(body.password) {
      return MISSING_CREDENTIALS;
    }
    var existing := userModel.FindUserByEmail(body.email.value);
    if existing.Some? {
      return USER_EXISTS;
    }
    var created := userModel.CreateUser(NewUserOf(body), freshId, salt);
    if created.Failure? {
      // The `catch` passes "User already exists" on with status 400.
      return Reply(400, created.error, None);
    }
    var token := GenerateToken(Subject(created.value.id, created.value.Role()), key, now);
    return Reply(201, "User Registered successfully", Some(token));
  }

  /** `POST /login`: reads the store and changes nothing. */
  method Login(db: Database, body: LoginBody, key: string, now: int) returns (reply: Reply)
    requires db.Valid()
    ensures !Truthy(body.email) || !Truthy(body.password) ==> reply == MISSING_CREDENTIALS
    ensures Truthy(body.email) && Truthy(body.password) && body.email.value !in db.users.idByEmail ==> reply == NO_USER
    ensures Truthy(body.email) && Truthy(body.password) && body.email.value in db.users.idByEmail ==>
      var d := db.users.docs[db.users.idByEmail[body.email.value]];
      reply == if Compare(body.password.value, d.password)
        then Reply(200, "Logged in successfully", Some(GenerateToken(Subject(d.id, Some(d.role)), key, now)))
        else INVALID_CREDENTIALS
  {
    if !Truthy(body.email) || !Truthy(body.password) {
      return MISSING_CREDENTIALS;
    }
    var userModel := new User(db);
    var user := userModel.FindUserByEmail(body.email.value);
    if user.None? {
      return NO_USER;
    }
    if !Compare(body.password.value, user.value.password) {
      return INVALID_CREDENTIALS;
    }
    var token := GenerateToken(Subject(user.value.id, user.value.Role()), key, now);
    return Reply(200, "Logged in successfully", Some(token));
  }

  /**
   * The tail of `/change-password` once the current password matched: the
   * update, then `blacklistAllTokens` when the update changed the record.
   */
  method StoreNewPassword(db: Database, id: string, newPassword: Option<string>, salt: nat, key: string, now: int)
    returns (updated: bool)
    requires db.Valid() && id in db.users.docs
    modifies db.users, db.blacklist
    ensures db.Valid()
    ensures var d := old(db.users.docs)[id];
      var u := ApplyUserUpdate(d, UserUpdate(newPassword, None, None, None), salt);
      && (updated <==> u != d)
      && (updated ==>
            db.users.docs == old(db.users.docs)[id := u]
            && db.blacklist.entries == Revocation.WithSurrogate(old(db.blacklist.entries), id, Some(d.role), key, now))
      && (!updated ==> db.users.docs == old(db.users.docs) && db.blacklist.entries == old(db.blacklist.entries))
  {
    var userModel := new User(db);
    updated := userModel.UpdateUser(id, UserUpdate(newPassword, None, None, None), salt);
    if updated {
      var _ := userModel.BlacklistAllTokens(id, key, now);
    }
  }

  /**
   * `PUT /change-password` for the caller named by `req.user`. On success the
   * new hash is stored and one surrogate entry is blacklisted; the new token
   * is computed and dropped.
   */
  method ChangePassword(db: Database, req: Request, body: PasswordChange, salt: nat, key: string, now: int)
    returns (reply: Reply)
    requires db.Valid()
    modifies db.users, db.blacklist
    ensures db.Valid()
    ensures req.user.None? ==> reply == INTERNAL_ERROR
    ensures req.user.Some? && (!Truthy(body.currentPassword) || !Truthy(body.newPassword)) ==> reply == MISSING_PASSWORDS
    ensures req.user.Some? && Truthy(body.currentPassword) && Truthy(body.newPassword) ==>
      var id := req.user.value.id;
      if id !in old(db.users.docs) then reply == USER_NOT_FOUND
      else
        var d := old(db.users.docs)[id];
        var updated := ApplyUserUpdate(d, UserUpdate(body.newPassword, None, None, None), salt);
        reply == if !Compare(body.currentPassword.value, d.password) then INVALID_CREDENTIALS
                 else if updated == d then UPDATE_FAILED
                 else PASSWORD_CHANGED
    ensures reply == PASSWORD_CHANGED ==>
      var id := req.user.value.id;
      var d := old(db.users.docs)[id];
      && db.users.docs == old(db.users.docs)[id := ApplyUserUpdate(d, UserUpdate(body.newPassword, None, None, None), salt)]
      && db.blacklist.entries == Revocation.WithSurrogate(old(db.blacklist.entries), id, Some(d.role), key, now)
    ensures reply != PASSWORD_CHANGED ==>
      db.users.docs == old(db.users.docs) && db.blacklist.entries == old(db.blacklist.entries)
  {
    var userModel := new User(db);
    if req.user.None? {
      // `req.user.id` throws a TypeError; the `catch` answers 500.
      return INTERNAL_ERROR;
    }
    var userId := req.user.value.id;
    if !Truthy(body.currentPassword) || !Truthy(body.newPassword) {
      return MISSING_PASSWORDS;
    }
    var user := userModel.FindUserById(userId);
    if user.None? {
      return USER_NOT_FOUND;
    }
    if !Compare(body.currentPassword.value, user.value.password) {
      return INVALID_CREDENTIALS;
    }
    var updated := StoreNewPassword(db, userId, body.newPassword, salt, key, now);
    if !updated {
      return UPDATE_FAILED;
    }
    return PASSWORD_CHANGED;
  }

  /**
   * `POST /logout`: blacklists the header's token without asking whether it
   * is already there, so a repeated logout fails on the unique index.
   */
  method Logout(db: Database, req: Request) returns (reply: Reply)
    modifies db.blacklist
    ensures req.authorization.None? ==> reply == INTERNAL_ERROR && db.blacklist.entries == old(db.blacklist.entries)
    ensures req.authorization.Some? ==>
      var token := TokenOf(req.authorization.value);
      var expiresAt := Revocation.EntryExpiry(token);
      && reply == (if expiresAt.Some? && token.value !in old(db.blacklist.entries) then LOGGED_OUT else BLACKLIST_FAILED)
      && db.blacklist.entries == if expiresAt.Some?
           then Inserted(old(db.blacklist.entries), token.value, expiresAt.value)
           else old(db.blacklist.entries)
  {
    var userModel := new User(db);
    if req.authorization.None? {
      // `req.headers.authorization.split` throws a TypeError; the `catch` answers 500.
      return INTERNAL_ERROR;
    }
    var token := TokenOf(req.authorization.value);
    var result := userModel.BlacklistToken(token);
    if !result {
      return BLACKLIST_FAILED;
    }
    return LOGGED_OUT;
  }
}
