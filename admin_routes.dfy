/** The `/register`, `/login`, `/change-password` and `/logout` handlers of `admin.routes.js`. */
module AdminRoutes {
  import opened Wrappers
  import opened Bcrypt
  import opened Jwt
  import opened Http
  import opened Middleware
  import opened Store
  import opened AdminModel
  import Revocation

  /** The request body of `/register`; `admin_id` is passed on but `createAdmin` ignores it. */
  datatype RegisterBody = RegisterBody(email: Option<string>, password: Option<string>, id: Option<string>)

  datatype LoginBody = LoginBody(email: Option<string>, password: Option<string>)

  datatype PasswordChange = PasswordChange(currentPassword: Option<string>, newPassword: Option<string>)

  const ADMIN_EXISTS := Reply(400, "Admin already exists", None)
  const NO_ADMIN := Reply(400, "No admin Found", None)
  const ADMIN_NOT_FOUND := Reply(400, "Admin not found", None)

  /** `POST /register`: the token's subject is the generated id, with no role. */
  method Register(db: Database, body: RegisterBody, freshId: string, salt: nat, key: string, now: int) returns (reply: Reply)
    requires db.Valid()
    modifies db.admins
    ensures db.Valid()
    ensures !Truthy(body.email) || !Truthy(body.password) ==>
      reply == MISSING_CREDENTIALS && db.admins.docs == old(db.admins.docs)
    ensures Truthy(body.email) && Truthy(body.password) ==>
      if body.email.value in old(db.admins.idByEmail) || freshId in old(db.admins.docs) then
        reply == ADMIN_EXISTS && db.admins.docs == old(db.admins.docs)
      else
        && reply == Reply(201, "Admin Registered successfully", Some(GenerateToken(Subject(freshId, None), key, now)))
        && db.admins.docs == old(db.admins.docs)[freshId := NewAdminDoc(body.email.value, body.password.value, freshId, salt)]
  {
    var adminModel := new Admin(db);
    if !Truthy(body.email) || !Truthy(body.password) {
      return MISSING_CREDENTIALS;
    }
    var existing := adminModel.FindAdminByEmail(body.email.value);
    if existing.Some? {
      return ADMIN_EXISTS;
    }
    var created := adminModel.CreateAdmin(body.email.value, body.password.value, freshId, salt);
    if created.Failure? {
      // The `catch` passes "Admin already exists" on with status 400.
      return Reply(400, created.error, None);
    }
    var token := GenerateToken(Subject(created.value.id, created.value.Role()), key, now);
    return Reply(201, "Admin Registered successfully", Some(token));
  }

  /** `POST /login`: reads the store and changes nothing. */
  method Login(db: Database, body: LoginBody, key: string, now: int) returns (reply: Reply)
    requires db.Valid()
    ensures !Truthy(body.email) || !Truthy(body.password) ==> reply == MISSING_CREDENTIALS
    ensures Truthy(body.email) && Truthy(body.password) && body.email.value !in db.admins.idByEmail ==> reply == NO_ADMIN
    ensures Truthy(body.email) && Truthy(body.password) && body.email.value in db.admins.idByEmail ==>
      var d := db.admins.docs[db.admins.idByEmail[body.email.value]];
      reply == if Compare(body.password.value, d.password)
        then Reply(200, "Logged in successfully", Some(GenerateToken(Subject(d.id, None), key, now)))
        else INVALID_CREDENTIALS
  {
    if !Truthy(body.email) || !Truthy(body.password) {
      return MISSING_CREDENTIALS;
    }
    var adminModel := new Admin(db);
    var admin := adminModel.FindAdminByEmail(body.email.value);
    if admin.None? {
      return NO_ADMIN;
    }
    if !Compare(body.password.value, admin.value.password) {
      return INVALID_CREDENTIALS;
    }
    var token := GenerateToken(Subject(admin.value.id, admin.value.Role()), key, now);
    return Reply(200, "Logged in successfully", Some(token));
  }

  /**
   * The tail of `/change-password` once the current password matched: the
   * update, then `blacklistAllTokens` when the update changed the record.
   */
  method StoreNewPassword(db: Database, id: string, newPassword: Option<string>, salt: nat, key: string, now: int)
    returns (updated: bool)
    requires db.Valid() && id in db.admins.docs
    modifies db.admins, db.blacklist
    ensures db.Valid()
    ensures var d := old(db.admins.docs)[id];
      var u := ApplyAdminUpdate(d, newPassword, salt);
      && (updated <==> u != d)
      && (updated ==>
            db.admins.docs == old(db.admins.docs)[id := u]
            && db.blacklist.entries == Revocation.WithSurrogate(old(db.blacklist.entries), id, None, key, now))
      && (!updated ==> db.admins.docs == old(db.admins.docs) && db.blacklist.entries == old(db.blacklist.entries))
  {
    var adminModel := new Admin(db);
    updated := adminModel.UpdateAdmin(id, newPassword, salt);
    if updated {
      var _ := adminModel.BlacklistAllTokens(id, key, now);
    }
  }

  /** `PUT /change-password` for the caller named by `req.admin`; the reply carries a new token. */
  method ChangePassword(db: Database, req: Request, body: PasswordChange, salt: nat, key: string, now: int)
    returns (reply: Reply)
    requires db.Valid()
    modifies db.admins, db.blacklist
    ensures db.Valid()
    ensures req.admin.None? ==> reply == INTERNAL_ERROR
    ensures req.admin.Some? && (!Truthy(body.currentPassword) || !Truthy(body.newPassword)) ==> reply == MISSING_PASSWORDS
    ensures req.admin.Some? && Truthy(body.currentPassword) && Truthy(body.newPassword) ==>
      var id := req.admin.value.id;
      if id !in old(db.admins.docs) then reply == ADMIN_NOT_FOUND
      else
        var d := old(db.admins.docs)[id];
        reply == if !Compare(body.currentPassword.value, d.password) then INVALID_CREDENTIALS
                 else if ApplyAdminUpdate(d, body.newPassword, salt) == d then UPDATE_FAILED
                 else Reply(200, "Password Changed Successfully", Some(GenerateToken(Subject(id, None), key, now)))
    ensures reply.status == 200 ==>
      var id := req.admin.value.id;
      && db.admins.docs == old(db.admins.docs)[id := ApplyAdminUpdate(old(db.admins.docs)[id], body.newPassword, salt)]
      && db.blacklist.entries == Revocation.WithSurrogate(old(db.blacklist.entries), id, None, key, now)
    ensures reply.status != 200 ==>
      db.admins.docs == old(db.admins.docs) && db.blacklist.entries == old(db.blacklist.entries)
  {
    var adminModel := new Admin(db);
    if req.admin.None? {
      // `req.admin.id` throws a TypeError; the `catch` answers 500.
      return INTERNAL_ERROR;
    }
    var adminId := req.admin.value.id;
    if !Truthy(body.currentPassword) || !Truthy(body.newPassword) {
      return MISSING_PASSWORDS;
    }
    var admin := adminModel.FindAdminById(adminId);
    if admin.None? {
      return ADMIN_NOT_FOUND;
    }
    if !Compare(body.currentPassword.value, admin.value.password) {
      return INVALID_CREDENTIALS;
    }
    var updated := StoreNewPassword(db, adminId, body.newPassword, salt, key, now);
    if !updated {
      return UPDATE_FAILED;
    }
    var token := GenerateToken(Subject(adminId, admin.value.Role()), key, now);
    return Reply(200, "Password Changed Successfully", Some(token));
  }

  /** `POST /logout`: a token already in the blacklist gets 400; otherwise it is inserted. */
  method Logout(db: Database, req: Request) returns (reply: Reply)
    modifies db.blacklist
    ensures req.authorization.None? ==> reply == INTERNAL_ERROR && db.blacklist.entries == old(db.blacklist.entries)
    ensures req.authorization.Some? ==>
      var token := TokenOf(req.authorization.value);
      var expiresAt := Revocation.EntryExpiry(token);
      if token.Some? && token.value in old(db.blacklist.entries) then
        reply == ALREADY_BLACKLISTED && db.blacklist.entries == old(db.blacklist.entries)
      else if expiresAt.Some? then
        reply == LOGGED_OUT && db.blacklist.entries == old(db.blacklist.entries)[token.value := expiresAt.value]
      else
        reply == BLACKLIST_FAILED && db.blacklist.entries == old(db.blacklist.entries)
  {
    var adminModel := new Admin(db);
    if req.authorization.None? {
      // `req.headers.authorization.split` throws a TypeError; the `catch` answers 500.
      return INTERNAL_ERROR;
    }
    var token := TokenOf(req.authorization.value);
    var isBlackListed := adminModel.IsTokenBlacklisted(token);
    if isBlackListed {
      return ALREADY_BLACKLISTED;
    }
    var result := adminModel.BlackListToken(token);
    if !result {
      return BLACKLIST_FAILED;
    }
    return LOGGED_OUT;
  }
}
