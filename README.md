# Authentication and token blacklist of the car-dealership backend

This project models the part of the Express/MongoDB backend that authenticates
users, dealerships and admins and keeps the shared token blacklist:

- the three credential models (`User`, `DealerShip`, `Admin`) over their
  collections, with the unique email and id indexes;
- the `blacklist` collection they share, keyed uniquely by token, with an
  `expiresAt` per entry;
- the `/register`, `/login`, `/change-password` and `/logout` handlers of the
  three routers, and dealership `/add-cars` with the car collection it needs;
- `generateToken` and `jwtAuthMiddleware`.

Each collection is a class whose methods change its maps in place. The model
classes hold references to those collections, as the JavaScript classes hold
`db.collection(...)`, and their methods delegate to them. Each route handler
is a method over the `Database` object that runs to completion as one step.
What a handler answers is a `Reply(status, message, token)`. The middleware
appends what it writes to `res.sent` and says whether it called `next()`,
returned, or threw.

Tokens are strings. `jwt.sign` writes a payload and the name of the signing
secret in a space-free, canonical text layout. `Jwt.ParseEncode` and
`Jwt.EncodeParse` prove that layout round-trips in both directions. So
splitting the `Authorization` header, using tokens as blacklist keys and
comparing tokens are all operations on text. HMAC and bcrypt are symbolic: a
signature names the secret that made it, and a digest records the salt and
the first 72 characters of the password it was computed from.

The uuid generator, bcrypt's random salt, the clock (`Date.now()` in seconds)
and `process.env.JWT_SECRET` are parameters: `freshId`, `salt`, `now` and
`key`.

## Behaviour of the code worth knowing

- The middleware never reads the blacklist. A logged-out or otherwise
  blacklisted token keeps passing it until it expires
  (`Scenarios.DealershipDoubleLogout`, `Scenarios.UserPasswordChange`).
- `blacklistAllTokens` is not a watermark. It signs one new surrogate token,
  `{id, role, iat: now - 1}` without `exp`, and inserts that token. No token
  issued earlier is added (`Revocation.AllTokensKeepsSessions`), so every old
  session token still passes after a password change.
- Every token carries three identical `{id, role}` objects, under `user`,
  `dealership` and `admin`. A token issued to any kind of principal is
  accepted by every router's middleware.
- Dealership and admin records never store `role`, so their tokens carry no
  role.
- The user `/change-password` reply carries no token. The dealership and
  admin replies do.
- User `/logout` does not ask whether the token is already blacklisted. A
  second logout fails on the unique index with 500 "Failed to blackList
  token". Dealership and admin logouts answer 400 "Token already blacklisted".
- Login answers "No User Found" and "Invalid Credentials" separately.
- A missing `Authorization` header gets the 403 reply written, with no
  `return`. The `split` on `undefined` then throws. An empty header also gets
  the 403; the 401 that follows throws, because Express refuses a second
  reply once the headers are sent. Either way the client sees only the 403.
- Blacklisting a token without `exp` stores `new Date(NaN)`, which is in the
  model as `Expiry.InvalidDate`. The BSON encoder writes its `getTime()`,
  `NaN`, as 0, so the TTL monitor treats the entry as dated at the epoch.
- bcrypt reads only the first 72 characters of a password, so two passwords
  that agree there match the same digest (`Bcrypt.LongPasswordsCollide`).
- A dealership registered without a `cars` array stores `cars: null`.
  `/add-cars` then creates the car, but the `$push` fails: the reply is 500
  and the car name stays taken (`Scenarios.AddCarWithoutCarsArray`).

## Model

| member | source | states |
|---|---|---|
| Text.Split | backend/middleware/middleware.js:12 | `split(" ")` keeps empty pieces: at least one piece, none contains the separator, and joining them back gives the input |
| Text.SplitWithoutSeparator | backend/middleware/middleware.js:12 | a string without the separator splits into itself alone |
| Text.SplitAtFirstSeparator | backend/middleware/middleware.js:12 | the text before the first separator is the first piece, and the rest splits on its own |
| Bcrypt.Significant | backend/models/user.model.js:33 | the part of a password bcrypt hashes: exactly its first 72 characters when it is longer, the whole of a shorter one |
| Bcrypt.Hash | backend/models/user.model.js:33 | `bcrypt.compare` accepts exactly the passwords that agree with the hashed one in their first 72 characters |
| Bcrypt.LongPasswordsCollide | backend/models/user.model.js:33 | two passwords sharing their first 72 characters match each other's digest |
| Jwt.Encode | backend/middleware/middleware.js:57 | a signed token is never empty and never contains a space |
| Jwt.TakePutString | backend/middleware/middleware.js:57 | an escaped field reads back as the same string, with what follows it left over |
| Jwt.PutTakeString | backend/middleware/middleware.js:57 | a field that reads is exactly the escaping of what it reads to |
| Jwt.ParseDecimalOfDecimal | backend/middleware/middleware.js:57 | the decimal digits of a natural number read back as that number |
| Jwt.ParseIntOfIntText | backend/middleware/middleware.js:57 | a signed `iat` or `exp` written in decimal reads back as the same integer |
| Jwt.TakePutFields | backend/middleware/middleware.js:57 | a run of fields reads back field for field |
| Jwt.PutTakeFields | backend/middleware/middleware.js:57 | text that reads as a run of fields is exactly their rendering |
| Jwt.FromFieldsOf | backend/middleware/middleware.js:42-57 | the fields of a signed payload give back the payload and signer |
| Jwt.FieldsOfFrom | backend/middleware/middleware.js:42-57 | fields that form a payload are exactly that payload's fields |
| Jwt.ParseEncode | backend/middleware/middleware.js:57 | every token parses back to the payload and signer it was written from |
| Jwt.EncodeParse | backend/middleware/middleware.js:21 | the layout is canonical: text that parses is the encoding of its parse |
| Jwt.EncodeInjective | backend/middleware/middleware.js:57 | distinct signed payloads give distinct token strings, so distinct blacklist keys |
| Jwt.DecodeSigned | backend/models/user.model.js:154 | `jwt.decode` of a signed token gives its payload, whatever secret signed it |
| Jwt.Verify | backend/middleware/middleware.js:21 | a token `jwt.verify` accepts is the one the process key signs for the payload, and it is unexpired |
| Jwt.VerifySigned | backend/middleware/middleware.js:20-38 | a token signed with another secret fails `InvalidSignature` and never `Malformed`; with the right secret it fails `Expired` exactly when `now >= exp`, otherwise it gives its payload |
| Middleware.GeneratedTokenClaims | backend/middleware/middleware.js:41-58 | `generateToken` puts the same `{id, role}` under `user`, `dealership` and `admin`, with `exp` 300000 seconds after `iat`; the token verifies under the key exactly until then |
| Middleware.Authenticate | backend/middleware/middleware.js:3-39 | `next()` is reached iff the header is present, its second piece is non-empty, verifies, and has all three role objects; it then writes nothing and the token is the one signed for those claims; a missing or empty header writes only the 403 and throws; any other header writes at most one reply; one without a second piece gets 401 "Unauthorized", one whose token fails `jwt.verify` (malformed, wrong secret or expired) gets 401 "Invalid Token", and a verified payload missing a role object gets 401 "Invalid token" |
| Middleware.TokenAfterScheme | backend/middleware/middleware.js:12 | in `scheme token` the token is the second piece, whatever the scheme word is |
| Middleware.IssuedTokenAccepted | backend/middleware/middleware.js:3-58 | a header carrying a `generateToken` token passes the middleware iff `now < iat + 300000`; it then exposes the same subject three times, and otherwise gets 401 "Invalid Token" |
| Middleware.ForeignTokenRejected | backend/middleware/middleware.js:33-38 | a token signed with another secret gets 401 "Invalid Token" from the `catch` |
| Middleware.MissingClaimRejected | backend/middleware/middleware.js:23-27 | a valid, unexpired token lacking any of `user`, `dealership`, `admin` gets 401 "Invalid token" |
| Middleware.JwtAuthMiddleware | backend/middleware/middleware.js:3-39 | appends exactly the replies `Authenticate` decides to `res`; on `next()` it sets `req.user`, `req.dealership`, `req.admin` to the decoded objects; otherwise it leaves them alone |
| Store.WithoutPassword | backend/models/user.model.js:47-48 | the returned record has the same kind, email, id and role, and putting the password back gives the stored record |
| Store.PrincipalCollection.FindByEmail | backend/models/user.model.js:59-66 | finds a record iff the email is indexed, and it is the stored record with that email |
| Store.PrincipalCollection.FindById | backend/models/user.model.js:68-75 | finds a record iff the id is stored, and it is the stored record |
| Store.PrincipalCollection.InsertOne | backend/models/user.model.js:13-15 | the unique indexes refuse a taken email or id and write nothing; otherwise both indexes gain the record |
| Store.PrincipalCollection.UpdateOne | backend/models/user.model.js:113-114 | `modifiedCount > 0` iff the record exists and changes; only that record changes |
| Store.CarCollection.FindByName | backend/models/Car.model.js:49-56 | finds a car iff the name is indexed |
| Store.CarCollection.FindById | backend/models/Car.model.js:40-47 | finds a car iff the id is given and stored |
| Store.CarCollection.InsertOne | backend/models/Car.model.js:10-13 | the unique id and name indexes refuse a taken key and write nothing |
| Store.Inserted | backend/models/user.model.js:16 | the unique token index: a present token keeps its entry, a new one is added, every other entry is kept |
| Store.Unexpired | backend/models/user.model.js:17-20 | the TTL index keeps exactly the entries whose stored date (0 for an Invalid Date) has not passed, unchanged |
| Store.UnexpiredIdempotent | backend/models/user.model.js:17-20 | a second pass of the TTL monitor at the same instant removes nothing more |
| Store.BlacklistCollection.InsertOne | backend/models/user.model.js:157 | the insert succeeds iff the token was absent, and the entries become `Inserted` |
| Store.BlacklistCollection.RemoveExpired | backend/models/user.model.js:17-20 | one pass of the TTL monitor leaves exactly the unexpired entries |
| Cars.CarModel.CreateCar | backend/models/Car.model.js:17-38 | stores the car under the fresh id iff the id and name are free; otherwise "Car already exists" and no change |
| Cars.CarModel.FindCarById | backend/models/Car.model.js:40-47 | finds a car iff the id is given and stored, and it is the stored car |
| Cars.CarModel.FindCarByName | backend/models/Car.model.js:49-56 | finds a car iff the name is taken, and it is the stored car of that name |
| UserModel.ApplyUserUpdate | backend/models/user.model.js:104-110 | `$set` of the given fields; a truthy password is replaced by a hash that matches exactly the passwords agreeing with it in the first 72 characters; id, email and vehicles keep their values |
| UserModel.AddToSet | backend/models/user.model.js:78-89 | `$addToSet` appends the id iff it is absent, and the list is unchanged iff it was present |
| UserModel.Pull | backend/models/user.model.js:91-102 | `$pull` removes every occurrence of that id and keeps every other one: the multiset loses exactly that id, and the list is unchanged iff it was absent |
| UserModel.PullSingle | backend/models/user.model.js:91-102 | on a single element, `$pull` drops it iff it is the id |
| UserModel.PullConcat | backend/models/user.model.js:91-102 | `$pull` distributes over concatenation, so the remaining ids keep their order |
| UserModel.AddThenRemove | backend/models/user.model.js:78-102 | removing a vehicle just added restores the list |
| UserModel.User.CreateUser | backend/models/user.model.js:24-57 | stores the hash, never the plaintext, with role "client", `vehicle_info` [] and `user_info` {} as defaults, and returns the record without password; a taken email or id gives "User already exists" and no change |
| UserModel.User.FindUserByEmail | backend/models/user.model.js:59-66 | found iff the email is registered |
| UserModel.User.FindUserById | backend/models/user.model.js:68-75 | found iff the id is registered, and it is the stored user record |
| UserModel.User.AddVehicle | backend/models/user.model.js:78-89 | true iff the user exists and lacks the vehicle; only that user's list changes |
| UserModel.User.RemoveVehicle | backend/models/user.model.js:91-102 | true iff the user exists and has the vehicle; only that user's list changes |
| UserModel.User.UpdateUser | backend/models/user.model.js:104-119 | success iff the stored record changed; the store then holds the updated record |
| UserModel.User.BlacklistToken | backend/models/user.model.js:152-163 | true iff the token decodes and was not yet blacklisted; a decodable token's entry is then `token ↦ exp*1000` |
| UserModel.User.IsTokenBlacklisted | backend/models/user.model.js:165-175 | true iff the token is a key of the shared blacklist |
| UserModel.User.BlacklistAllTokens | backend/models/user.model.js:177-198 | false with no change for an unknown user; otherwise the blacklist gains exactly the surrogate token |
| DealershipModel.ApplyDealershipUpdate | backend/models/Dealership.model.js:161-170 | `$set` of the given fields; a truthy password by a hash matching exactly the passwords agreeing with it in the first 72 characters; never a role; cars, deals, sold vehicles unchanged |
| DealershipModel.Dealership.CreateDealership | backend/models/Dealership.model.js:30-66 | stores the hash and `{}` info, no role, under the fresh id; returns the record without password; a taken email or id gives "Dealership already exists" |
| DealershipModel.Dealership.FindDealershipByEmail | backend/models/Dealership.model.js:68-75 | found iff the email is registered |
| DealershipModel.Dealership.FindDealershipById | backend/models/Dealership.model.js:77-84 | found iff the id is registered, and it is the stored dealership record |
| DealershipModel.Dealership.UpdateDealership | backend/models/Dealership.model.js:161-179 | success iff the stored record changed |
| DealershipModel.Dealership.UpdateDealershipCars | backend/models/Dealership.model.js:181-203 | "Dealership not found" for an unknown id; a `null` `cars` fails the push; otherwise one car entry is appended to that dealership only |
| DealershipModel.Dealership.BlackListToken | backend/models/Dealership.model.js:261-272 | as for users, on the same blacklist |
| DealershipModel.Dealership.IsTokenBlacklisted | backend/models/Dealership.model.js:274-284 | true iff the token is a key of the shared blacklist |
| DealershipModel.Dealership.BlacklistAllTokens | backend/models/Dealership.model.js:286-307 | false for an unknown id; otherwise exactly one roleless surrogate is added |
| AdminModel.ApplyAdminUpdate | backend/models/Admin.model.js:62-70 | a truthy password is replaced by a hash matching exactly the passwords agreeing with it in the first 72 characters; email and id stay, no role |
| AdminModel.Admin.CreateAdmin | backend/models/Admin.model.js:22-42 | stores only email, fresh id and hash, returns `{admin_email, admin_id}`; a taken email or id gives "Admin already exists" |
| AdminModel.Admin.FindAdminById | backend/models/Admin.model.js:44-51 | found iff the id is registered, and it is the stored admin record |
| AdminModel.Admin.FindAdminByEmail | backend/models/Admin.model.js:53-60 | found iff the email is registered |
| AdminModel.Admin.UpdateAdmin | backend/models/Admin.model.js:62-76 | success iff the stored record changed |
| AdminModel.Admin.BlackListToken | backend/models/Admin.model.js:78-89 | as for users, on the same blacklist |
| AdminModel.Admin.IsTokenBlacklisted | backend/models/Admin.model.js:91-101 | true iff the token is a key of the shared blacklist |
| AdminModel.Admin.BlacklistAllTokens | backend/models/Admin.model.js:103-124 | false for an unknown id; otherwise exactly one roleless surrogate is added |
| Revocation.EntryExpiry | backend/models/user.model.js:154-155 | an entry exists iff `jwt.decode` gives a payload; its date is `exp * 1000`, or Invalid Date without `exp` |
| Revocation.SessionTokenExpiry | backend/models/user.model.js:154-155 | a `generateToken` token is blacklisted until `(iat + 300000) * 1000` |
| Revocation.SurrogateToken | backend/models/user.model.js:182-186 | the surrogate decodes to `{id, role, iat: now - 1}`, with no role objects and no `exp` |
| Revocation.SurrogateIsNotASessionToken | backend/models/user.model.js:183-186 | the surrogate never equals any token `generateToken` issues |
| Revocation.SurrogateRejected | backend/models/user.model.js:183-186 | presented to the middleware, the surrogate gets 401 "Invalid token" |
| Revocation.WithSurrogate | backend/models/user.model.js:188-191 | the blacklist gains the surrogate key, expiring `(now + 604800) * 1000` when new, and keeps every other entry |
| Revocation.BlacklistToken | backend/models/user.model.js:152-163 | true iff a new entry was inserted; an undecodable token changes nothing |
| Revocation.BlacklistAllTokens | backend/models/user.model.js:177-198 | false with no change for an unknown id; otherwise exactly the surrogate with the record's role is added |
| Revocation.AllTokensKeepsSessions | backend/models/user.model.js:177-198 | no session token is blacklisted by `blacklistAllTokens`: each is blacklisted after iff it was before |
| UserRoutes.Register | backend/routes/user.routes.js:15-57 | missing fields give 400 and no change; a taken email gives "User already exists"; otherwise 201 with a token for the new id and role (default "client") |
| UserRoutes.Login | backend/routes/user.routes.js:59-93 | "No User Found", "Invalid Credentials", or 200 with a token for the stored id and role; no store changes |
| UserRoutes.StoreNewPassword | backend/routes/user.routes.js:118-125 | the update, and the surrogate insert iff the update changed the record |
| UserRoutes.ChangePassword | backend/routes/user.routes.js:95-137 | 500 when the middleware set no user; 400 on missing fields, an unknown user or a wrong password; 500 when the update fails; on success the new hash is stored, the surrogate added, and the 200 reply has no token |
| UserRoutes.Logout | backend/routes/user.routes.js:139-156 | no blacklist check: 200 iff the token decodes and is new, otherwise 500 "Failed to blackList token"; the entry is `Inserted` |
| DealershipRoutes.Register | backend/routes/dealership.routes.js:15-67 | 400 on missing fields or a taken email; otherwise 201 with a roleless token for the fresh id |
| DealershipRoutes.Login | backend/routes/dealership.routes.js:69-106 | "No Dealership Found", "Invalid Credentials", or 200 with a roleless token; no store changes |
| DealershipRoutes.StoreNewPassword | backend/routes/dealership.routes.js:131-138 | the update, and the surrogate insert iff the update changed the record |
| DealershipRoutes.ChangePassword | backend/routes/dealership.routes.js:108-150 | rejections as for users; on success the new hash and the surrogate are stored and the 200 reply carries a new token |
| DealershipRoutes.Logout | backend/routes/dealership.routes.js:152-174 | a blacklisted token gets 400 "Token already blacklisted" and no change; otherwise it is inserted with its own expiry and gets 200 |
| DealershipRoutes.AddCars | backend/routes/dealership.routes.js:176-224 | 400 without id or name, or for a taken name; otherwise the car is created and pushed onto the caller's `cars`; a `null` `cars` gives 500 with the car kept |
| AdminRoutes.Register | backend/routes/admin.routes.js:13-59 | 400 on missing fields or a taken email; otherwise 201 with a token for the generated admin id |
| AdminRoutes.Login | backend/routes/admin.routes.js:61-96 | "No admin Found", "Invalid Credentials", or 200 with a token; no store changes |
| AdminRoutes.StoreNewPassword | backend/routes/admin.routes.js:121-128 | the update, and the surrogate insert iff the update changed the record |
| AdminRoutes.ChangePassword | backend/routes/admin.routes.js:98-140 | rejections on missing fields, unknown admin or wrong password; on success the new hash and the surrogate are stored and the 200 reply carries a new token |
| AdminRoutes.Logout | backend/routes/admin.routes.js:142-165 | 400 for a blacklisted token; otherwise inserted and 200; an undecodable token gives 500 |
| Scenarios.SessionHeaderAccepted | backend/middleware/middleware.js:3-39 | a `Bearer` header with an unexpired session token passes with the subject three times, whatever the blacklist holds |
| Scenarios.SignIn | backend/middleware/middleware.js:3-39 | a request carrying an unexpired session token leaves the middleware with `next()` and the subject in all three `req` fields |
| Scenarios.UserRegisterThenLogin | backend/routes/user.routes.js:15-93 | after a 201 from `/register`, `/login` with the same email and password gives 200 with a token for the same id and role, and that token verifies with that subject |
| Scenarios.DealershipRegisterThenLogin | backend/routes/dealership.routes.js:15-106 | after a 201 from `/register`, `/login` with the same credentials gives 200 with a token for the same roleless subject |
| Scenarios.AdminRegisterThenLogin | backend/routes/admin.routes.js:13-96 | after a 201 from `/register`, `/login` with the same credentials gives 200 with a token for the same roleless subject |
| Scenarios.DealershipDoubleLogout | backend/routes/dealership.routes.js:152-174 | two logouts with one token: both pass the middleware, the first gives 200 and blacklists the token until its expiry, the second gives 400 |
| Scenarios.UserDoubleLogout | backend/routes/user.routes.js:139-156 | two logouts with one token: both pass the middleware, 200, then 500 from the unique index, and the entry keeps its first expiry |
| Scenarios.ChangeUserPassword | backend/routes/user.routes.js:95-137 | after a change with the right password, the stored hash matches the new password and not the old one |
| Scenarios.UserPasswordChange | backend/routes/user.routes.js:95-137 | after a change to a password that differs in its first 72 characters, the old token still passes the middleware, the old password gets "Invalid Credentials" and the new one logs in |
| Scenarios.ChangeAdminPassword | backend/routes/admin.routes.js:98-140 | the reply carries a new token and the surrogate is the only new blacklist key |
| Scenarios.AdminPasswordChange | backend/routes/admin.routes.js:98-140 | after a change both the old token and the returned one pass the middleware |
| Scenarios.AddCarWithoutCarsArray | backend/routes/dealership.routes.js:176-224 | with `cars: null` the first add gives 500 but stores the car, and a retry gives "car already exists" |
| Scenarios.AddCarWithCarsArray | backend/routes/dealership.routes.js:176-224 | with a `cars` array the car is appended to it and the reply is 200 |

## Left out

- `backend/db.js` and `backend/index.js`: the connection cache and the Express wiring are I/O. `Database` stands for the connected database.
- `Deal.model.js`, `SoldVehicle.model.js` and `common.routes.js` pass request data straight to the driver. What those queries mean is decided by MongoDB, not by the code.
- The view endpoints (`/view-sold`, `/car/:car_id`, `/deals/:car_id`, `/view-vehicles`) and `/add-deals` are plain lookups or deal bookkeeping outside authentication.
- `deleteUser`, `getAllUsers` and `findUserVehicle` of `user.model.js` have no caller in the modelled handlers.
- Not modelled from `Dealership.model.js`: `findDealershipCars`, `findDealershipWithCar`, `findDealsWithCar`, `findDealershipDeals` and `findSoldVehicles`. Also left out are `addCarsToDealership`, `updateDealershipDeals`, `updateDealershipSoldVehicles` and `updateSoldVehicles`. They serve the left-out endpoints.
- `getAllCars` of `Car.model.js` serves a left-out endpoint.
- Transient store failures are left out: a failed connection or a failed write that is not a unique-index refusal. Every store call here either succeeds or is refused by an index.
- The TTL monitor runs in the background in MongoDB. Here it is the explicit step `BlacklistCollection.RemoveExpired`, which no handler calls.
- `async`/`await` interleavings: each handler is one atomic step.
- Logging, the `_id`/`insertedId` field, and the JSON shaping of replies are left out.
- HMAC-SHA256, base64url and JSON are not modelled. The token text is a canonical stand-in with the properties the code relies on, and signatures are symbolic.
- bcrypt's cost factor and hashing time are not modelled.
- Request bodies are strings or absent. Non-string JSON values, and the JavaScript truthiness of non-strings, are not modelled.
- The "Error updating dealership with new cars" reply of `/add-cars` is unreachable, because a successful `$push` always modifies the record. The model has no such branch.
- Of `updateUser`, `updateDealership` and `updateAdmin`, only the fields the handlers pass are modelled. Arbitrary other keys are not.
- `Store.Unexpired`: an Invalid Date counts as millisecond 0, as the BSON encoder writes it. How the server would compare such dates otherwise is not modelled.
- `Bcrypt.Significant`: the 72-byte limit is counted in characters, which agrees with bytes only for ASCII passwords; UTF-8 encoding is not modelled.
- `Middleware.JwtAuthMiddleware`: Express's error handler, which the throw reaches, is not modelled; `res.sent` holds only the replies that were sent.
