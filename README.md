# Campaign API core, modelled in Dafny

This project models the core of a small Go HTTP service. Users register and sign in, and an
authenticated user keeps a private list of marketing campaigns. The model covers:

- **The JWT guard** (`internal/utils/jwt/jwt.go`, module `Jwt`). It covers five pieces:
  - bearer extraction from the `Authorization` header;
  - the `Authenticator` middleware, with its list of token finders;
  - token issuance, an HS256 token over `sub`, `name`, `issuer = "campaign"` and a
    30-day `exp`;
  - verification, where only the HMAC family is given the secret;
  - `newContext` / `GetAuthContext`.
- **The campaign service** (`internal/services/campaign/campaign.go`, module `CampaignService`).
  It covers create, list, get, update and delete. Each resolves the caller from the request
  context first, then stamps `created_by` (create) or filters on it (the rest).
- **The auth service** (`internal/services/auth/auth.go`, module `AuthService`): Login and
  Register over the users collection and its unique `email` index.
- **The campaign handlers** (`internal/handlers/campaign/campaign.go`, module
  `CampaignHandler`): `validateCampaign` with its ordered messages, and the status each
  outcome is given.
- **The auth handlers** (`internal/handlers/auth/auth.go`, module `AuthHandler`): the
  validation chains of Signin and Signup, and their status mapping.

Supporting modules:

- `Models` holds the records.
- `Database` holds the two collections. Each is a class whose `rows` map the stores update
  in place, with the operations of the `Database` interface the core uses.
- `Http` holds a response writer, a class whose status and body the handlers update.

Every service and handler method that changes state is proved equal to a pure function of
the old state. (The store's UpdateOne and DeleteOne pick the matching record
nondeterministically and are specified by what they may change.) The
properties (ownership isolation, issue-then-verify, uniform failures, the validation order)
are proved as lemmas about those functions.

Environment inputs become parameters:

- `JWT_SECRET` becomes `secret`.
- `time.Now()` becomes `now`.
- A driver or network fault becomes `fails`.
- The ObjectID the driver generates becomes `newId`.
- The JWS library becomes a `Jose` value with `sign` and `parse`. It is assumed `Sound`,
  meaning that what it signs, it parses back to the same token.
- `mail.ParseAddress` becomes an `isAddress` predicate.
- A decoded JSON body becomes `Option`, with `None` standing for a decoding error.

Where the code behaves differently from what its design promises, the model follows the code:

- `newContext` refuses only a `sub` claim that is present and empty. A verified token with
  no `sub` passes the guard, and `GetAuthContext` refuses it later
  (`Jwt.MissingSubjectStoppedDownstream`).
- Login never compares the password. Its outcome depends only on the email lookup and on
  signing (`AuthService.LoginOutcome` has no password parameter). Register stores the
  password exactly as given.
- Update and delete of an id the caller does not own, or that does not exist, answer
  success with no change. The driver reports no error when nothing matches
  (`CampaignService.ForeignRecordLooksAbsent`).
- On a signing failure, Login returns the found user with an empty token, together with the
  error.
- The validator accepts a campaign that ends when it starts. `Before` is strict
  (`CampaignHandler.SameDayCampaignAccepted`).

## Model

| member | source | states |
|---|---|---|
| Jwt.GetTokenFromHeader | internal/utils/jwt/jwt.go:121-130 | A token comes back iff the header is longer than 7 bytes and opens with "bearer" in any letter case. The token is then everything after byte 7. Otherwise it is "". |
| Jwt.ToUpper | internal/utils/jwt/jwt.go:124 | Same length, each byte mapped by ASCII upper-casing. |
| Jwt.UpperIsBearer | internal/utils/jwt/jwt.go:124 | `ToUpper(s) == "BEARER"` iff each of the six bytes is the letter of "bearer" in either case. |
| Jwt.SchemeSeparatorUnchecked | internal/utils/jwt/jwt.go:124-126 | The seventh byte is never inspected: the scheme name in any case, then any byte at all, then a token, yields the token. |
| Jwt.FindToken | internal/utils/jwt/jwt.go:53-64 | The loop over the token finders yields "" iff every finder yields "". Otherwise it yields the answer of the first finder that gives a non-empty one. |
| Jwt.NatDecimal | internal/utils/jwt/jwt.go:142 | The decimal text of a Unix time is non-empty and made only of digits. |
| Jwt.NatDecimalRoundTrip | internal/utils/jwt/jwt.go:142 | Reading back the decimal text of n gives n (proof by induction). |
| Jwt.IntDecimalRoundTrip | internal/utils/jwt/jwt.go:142 | The same round trip for signed integers, with a leading '-'. |
| Jwt.IdentityClaims | internal/utils/jwt/jwt.go:138-143 | The signed claim set has exactly the keys sub, name, issuer and exp. sub and name come from the identity; issuer is "campaign". The identity's own Issuer is ignored. |
| Jwt.GenereteJWT | internal/utils/jwt/jwt.go:135-154 | Fails (SigningFailed) iff the library cannot sign the HS256 token over the identity claims with the secret. Otherwise it returns exactly that signed string. |
| Jwt.ParseToken | internal/utils/jwt/jwt.go:157-181 | Claims come back iff the token parses, its method is in the HMAC family and its signature was made with the secret. Any other method gets AlgoInvalid before the signature is looked at. |
| Jwt.NewContext | internal/utils/jwt/jwt.go:183-192 | Refuses (Unauthorized) iff a `sub` claim is present and empty. Otherwise it stores the claims unchanged. |
| Jwt.GetAuthContext | internal/utils/jwt/jwt.go:195-231 | An identity comes back iff claims are stored and `sub` is present and non-empty. Missing issuer and name read as "". Every failure is NoTokenFound. |
| Jwt.Authenticate | internal/utils/jwt/jwt.go:50-119 | What the guard decides. It succeeds iff the bearer token is non-empty, parses, names an HMAC method, was signed with the secret and has no empty `sub`. On success the context carries exactly that token's claims. |
| Jwt.Authenticator | internal/utils/jwt/jwt.go:50-119 | Forwards the request with the verified claims in its context, writing nothing, iff `Authenticate` succeeds. Otherwise it writes exactly 401 "Unauthorized" with no data. |
| Jwt.NoBearerNoTokenService | internal/utils/jwt/jwt.go:66-80 | Without a bearer header the answer is Unauthorized whatever the token library and the secret. |
| Jwt.AlgorithmSubstitutionRefused | internal/utils/jwt/jwt.go:158-164 | A token naming a non-HMAC method is refused with AlgoInvalid, even when it was signed with the secret. |
| Jwt.MissingSubjectStoppedDownstream | internal/utils/jwt/jwt.go:183-231 | A verified token without `sub` passes the guard, but `GetAuthContext` then yields NoTokenFound. |
| Jwt.IssuedTokenAuthenticates | internal/utils/jwt/jwt.go:121-231 | Issue then verify. A token issued for an identity with a subject, sent as "Bearer " + token, passes the guard with exactly the issued claims. It reads back as (sub, "campaign", name), and its `exp` denotes issuance plus 30 days in Unix seconds. |
| Http.ResponseWriter.WriteHeader | internal/handlers/campaign/campaign.go:69 | Only the first status written takes effect. The body is unchanged. |
| Http.ResponseWriter.Write | internal/handlers/campaign/campaign.go:70 | Appends one envelope. It implies status 200 when no status was written. |
| Http.Respond | internal/handlers/campaign/campaign.go:68-70 | On a fresh writer, WriteHeader then Write leaves exactly the given status and one envelope. |
| Database.ObjectIdFromHex | internal/services/campaign/campaign.go:104-111 | Accepts exactly 24 hexadecimal digits of either case. The result is the canonical lower-case ObjectID. |
| Database.ObjectIdHexRoundTrip | internal/services/campaign/campaign.go:104 | Decoding the hex text of an ObjectID gives it back. |
| Database.Apply | internal/services/campaign/campaign.go:146-153 | An update document overwrites each field it lists (name, description, both dates, banner url, updated_at) with its value. `_id`, `created_by` and `created_at` keep their values. |
| Database.CampaignStore.InsertOne | internal/database/database.go:122-127 | Refused on a fault or a duplicate `_id`. Otherwise exactly one record is added under its id. |
| Database.CampaignStore.FindOne | internal/database/database.go:135-140 | Yields a stored record that the filter matches. It yields none iff there is a fault or no record matches. |
| Database.CampaignStore.FindMany | internal/database/database.go:142-153 | Each matching record exactly once, and only matching stored records. An error comes only from a fault. |
| Database.CampaignStore.UpdateOne | internal/database/database.go:155-160 | Either changes exactly one matching record with the update, or changes nothing (then there is a fault or no match). A missing match is not an error. |
| Database.CampaignStore.DeleteOne | internal/database/database.go:162-167 | Either removes exactly one matching record, or removes nothing (then there is a fault or no match). A missing match is not an error. |
| Database.LookupEmail | internal/database/database.go:57-72 | Some user with the email iff one is stored. The user found has that email and is stored. |
| Database.LookupEmailUnique | internal/database/database.go:57-72 | Under the unique email index, any record with the email is the one the lookup finds. |
| Database.UserStore.InsertOne | internal/database/database.go:57-72 | Refused on a fault, a duplicate id or a taken email (the unique index). Otherwise exactly one record is added. Emails stay unique. |
| Database.UserStore.FindOne | internal/database/database.go:135-140 | No user on a fault. Otherwise the one user filed under the email, if any. |
| CampaignService.Create | internal/services/campaign/campaign.go:34-65 | No identity, a fault or an id clash gives "error creating campaign" and no change. Otherwise exactly one new record: the caller as `created_by`, the body's fields, both timestamps now. Nothing else changes. |
| CampaignService.GetById | internal/services/campaign/campaign.go:91-124 | A record comes back iff there is an identity, the id is valid hex, there is no fault, and the record exists and is the caller's. The errors are "error getting campaign", "invalid campaign id: ID" or "no campaigns with id: ID found", with the zero campaign. |
| CampaignService.Update | internal/services/campaign/campaign.go:126-162 | Keys, ids, owners and creation times never change. Only the caller's record with that id can change. Errors leave the table unchanged. The error follows identity, then id syntax, then fault. Without an error, the caller's own record with that id becomes exactly the update applied to it. A foreign or absent id is success with no change. |
| CampaignService.Delete | internal/services/campaign/campaign.go:164-193 | Only the caller's record with that id can disappear, and every other record stays the same. Errors leave the table unchanged and follow the same order as update. Without an error, the caller's own record with that id is removed and nothing else. A foreign or absent id is success with no change. |
| CampaignService.NoIdentityNoAccess | internal/services/campaign/campaign.go:36-42 | Without an identity, create, get, update and delete each give their fixed error and change nothing. |
| CampaignService.ForeignRecordLooksAbsent | internal/services/campaign/campaign.go:113-121 | Another owner's record answers exactly as if it were absent for get, update and delete, and it stays in place. |
| CampaignService.CrossOwnerIsolation | internal/services/campaign/campaign.go:34-193 | What caller A creates, a different caller B can neither read (not found), change nor remove. |
| CampaignService.Service.constructor | internal/services/campaign/campaign.go:30-32 | The service holds the request context and the collection it was given. |
| CampaignService.Service.CreateCampaign | internal/services/campaign/campaign.go:34-65 | Error and new table are exactly `Create` of the old table. |
| CampaignService.Service.GetCampaigns | internal/services/campaign/campaign.go:67-89 | Success iff there is an identity and no fault. Then the answer is each of the caller's records once and nothing else. Otherwise "error getting campaigns" and an empty list. |
| CampaignService.Service.GetCampaignByID | internal/services/campaign/campaign.go:91-124 | The answer is exactly `GetById` of the table. |
| CampaignService.Service.UpdateCampaign | internal/services/campaign/campaign.go:126-162 | Error and new table are exactly `Update` of the old table. |
| CampaignService.Service.DeleteCampaign | internal/services/campaign/campaign.go:164-193 | Error and new table are exactly `Delete` of the old table. |
| AuthService.LoginOutcome | internal/services/auth/auth.go:31-67 | "invalid email or password" with the zero result iff there is a fault, the email is empty or no user has it. Otherwise the stored user with that email, and a token exactly as issued for {Sub: id, Name: name}. On a signing failure: "error generating token", the user kept, the token empty. |
| AuthService.RegisterOutcome | internal/services/auth/auth.go:69-79 | Success iff there is no fault, the id is fresh and the email is free. Then exactly one new user holding name, email, msisdn and the password as given. Otherwise "error creating user. email already exists" and no change. |
| AuthService.UniformLoginFailure | internal/services/auth/auth.go:37-49 | An unregistered email, a store fault and the empty email answer identically. |
| AuthService.RegisterKeepsEmailsUnique | internal/database/database.go:57-72 | Registration keeps at most one user per email. |
| AuthService.DuplicateEmailRefused | internal/services/auth/auth.go:72-78 | A second registration with an email already on file is refused and changes nothing. |
| AuthService.RegisteredUserCanAuthenticate | internal/services/auth/auth.go:31-79 | Register then Login. The user found is the new record, and the token passes the guard as (new id, "campaign", name). |
| AuthService.Service.constructor | internal/services/auth/auth.go:22-24 | The service holds the collection it was given. |
| AuthService.Service.Login | internal/services/auth/auth.go:31-67 | The answer is exactly `LoginOutcome` of the users table. The password argument is not used. |
| AuthService.Service.Register | internal/services/auth/auth.go:69-79 | Error and new table are exactly `RegisterOutcome` of the old table. The email index stays unique. |
| CampaignHandler.ValidateCampaign | internal/handlers/campaign/campaign.go:32-59 | Valid iff name, description and banner url are non-empty, both dates are set and the end is not before the start. Each message is returned iff its check is the first to fail, in source order. |
| CampaignHandler.SameDayCampaignAccepted | internal/handlers/campaign/campaign.go:49-52 | A campaign that ends when it starts passes validation. |
| CampaignHandler.WriteReply | internal/handlers/campaign/campaign.go:61-101 | 400 iff the body failed to decode or validate, carrying the decode or validation message. 500 iff the service failed, carrying its message. Otherwise the success status and message. |
| CampaignHandler.ReadReply | internal/handlers/campaign/campaign.go:103-143 | 404 iff the service failed, carrying its message. Otherwise 200 with the data. |
| CampaignHandler.DeleteReply | internal/handlers/campaign/campaign.go:187-207 | 500 iff the service failed, carrying its message. Otherwise 200 "campaign deleted successfully". |
| CampaignHandler.CreateCampaignHandler | internal/handlers/campaign/campaign.go:61-101 | A rejected body leaves the table unchanged and gets its 400. Otherwise the table is `Create`'s, and the reply maps its error to 500 or gives 201 "campaign created successfully". |
| CampaignHandler.GetCampaignsHandler | internal/handlers/campaign/campaign.go:103-121 | Without an identity, or on a fault: 404 "error getting campaigns". Otherwise 200 "campaigns retrieved successfully" with each of the caller's records once. |
| CampaignHandler.GetCampaignByIDHandler | internal/handlers/campaign/campaign.go:123-143 | The reply is `ReadReply` of `GetById`. |
| CampaignHandler.UpdateCampaignHandler | internal/handlers/campaign/campaign.go:145-185 | A rejected body leaves the table unchanged and gets its 400. Otherwise the table is `Update`'s, and the reply maps its error to 500 or gives 200 "campaign updated successfully". |
| CampaignHandler.DeleteCampaignHandler | internal/handlers/campaign/campaign.go:187-207 | The table is `Delete`'s, and the reply is `DeleteReply` of its error. |
| CampaignHandler.ProtectedGetCampaignByID | internal/server/routes.go:42-47 | A campaign route behind the guard. A request that fails authentication gets exactly the guard's 401. A 200 carries only a record whose owner is the authenticated subject, the `sub` of the verified token. |
| AuthHandler.ValidateSignin | internal/handlers/auth/auth.go:64-70 | Passes iff email and password are both non-empty. Otherwise "email and password are required". |
| AuthHandler.ValidateSignup | internal/handlers/auth/auth.go:114-155 | Passes iff all four fields are present, password ≥ 6 bytes, msisdn ≥ 10 bytes, a parsable email and name ≥ 3 bytes. Each message is returned iff its check is the first to fail, in source order. |
| AuthHandler.NameCheckedLast | internal/handlers/auth/auth.go:114-155 | With the rest valid: an empty name gets the generic missing-fields message, a one- or two-byte name the name message, and a longer one passes. |
| Bson.DeclaredTagsLoseFields | internal/models/models.go:21-31 | As the struct is tagged, a stored campaign decodes back with an empty owner, zero dates and an empty banner url. Only id, name and description survive. |
| Bson.DeclaredTagsDropOwner | internal/services/campaign/campaign.go:46-55 | A concrete campaign written with owner "u1" decodes back with owner "". |
| Bson.SnakeCaseTagsRoundTrip | internal/services/campaign/campaign.go:46-55 | With tags matching the written keys, the stored document decodes back to exactly the record written. |
| AuthHandler.SigninReply | internal/handlers/auth/auth.go:50-91 | 400 iff decoding or the presence check failed. Then 401 carrying the service's error, or 200 "login successful" with the result. |
| AuthHandler.SignupReply | internal/handlers/auth/auth.go:100-175 | 400 iff decoding or a check failed, carrying that message. Then 401 carrying the service's error, or 200 "account created successfully". Never any data. |
| AuthHandler.Signin | internal/handlers/auth/auth.go:50-91 | A rejected body gets its 400. Otherwise the reply is `SigninReply` of `LoginOutcome`. |
| AuthHandler.Signup | internal/handlers/auth/auth.go:100-175 | A rejected body leaves the users table unchanged and gets its 400. Otherwise the table is `RegisterOutcome`'s and the reply maps its error to 401. |
| AuthHandler.SigninIgnoresPassword | internal/handlers/auth/auth.go:64-91 | Two sign-ins that differ only in their non-empty password get the same reply. |
| AuthHandler.SecondSignupRefused | internal/handlers/auth/auth.go:157-169 | A second valid signup with an email already on file leaves the table as it was. It gets 401 "error creating user. email already exists". |

## Left out

- JSON encoding and decoding: request bodies arrive decoded (or as a decoding error) and replies are envelopes, not bytes; `json.Marshal` failures in `WrapInResponse` are not modelled.
- The BSON mapping: apart from `Bson`, the model treats the document a service writes and the record a read decodes as the same value. It therefore does not capture these gaps in the code:
  - `models.Campaign` tags only `ID`. `StartDate`, `EndDate`, `BannerURL`, `CreatedBy`, `CreatedAt` and `UpdatedAt` are read from `startdate`, `enddate`, `bannerurl`, `createdby`, `createdat` and `updatedat`. CreateCampaign writes `start_date`, `end_date`, `banner_url`, `created_by`, `created_at` and `updated_at`. So every campaign GetCampaigns or GetCampaignByID returns has an empty `CreatedBy`, zero dates and an empty banner url. The store's filter is still scoped to the owner.
  - Consequently three contracts hold of the stored record, not of the struct the program returns: `CampaignService.GetById` (`createdBy == sub`), `CampaignService.IsOwnedListing` (`createdBy == owner`) and `CampaignHandler.ProtectedGetCampaignByID` (the owner in a 200 body). See the Findings below.
  - `models.User` is also untagged. Register writes `msisdn` where the record reads `phone`, so a registered user comes back with an empty phone.
- The date encodings are also not modelled: Create stores `time.Time` values, while Update stores `Unix()` integers.
- Database.CampaignStore.UpdateOne: the update document is applied as a field replacement. The model does not capture that the driver refuses an update document without `$set`.
- Database.CampaignStore.FindMany: the order of the answer (Mongo's natural order) is not stated, only its contents.
- `Database.SetCollection` and the collection names: each store is its own typed table.
- `InsertMany`, `AggregateMany` and `Health` of the database layer are not used by the core.
- Jwt.ParseToken: the library's own checks of registered claims are not modelled: `exp` against the clock (`ErrExpired`), `nbf` and `iat`. The `ErrNBFInvalid` branch after a failed `MapClaims` assertion cannot be reached with `jwt.Parse` and is left out.
- Jwt.GetAuthContext: claims are text. The panic Go raises on a non-string `sub`, `issuer` or `name` claim is not modelled.
- Jwt.Authenticate: the token library is abstract (`Jose`). HS256 and base64url are not modelled. The only assumption is `Sound`: what is signed parses back to the same token.
- Time is whole seconds. `Local()` conversion and sub-second precision are not modelled.
- `log/slog` logging, the chi router, CORS and the content-type middleware, the health and hello handlers, and server start-up are not modelled.
- Concurrency between requests and context cancellation are not modelled.
- The secret from the `JWT_SECRET` environment variable, the clock, ObjectID generation and `mail.ParseAddress` come in as parameters.
- AuthHandler.ValidateSignup: `isAddress` is not constrained. The RFC 5322 grammar of `mail.ParseAddress` is not modelled.

## Findings

| source | as written | input that shows it | evidently intended | confidence | as-written member | corrected member |
|---|---|---|---|---|---|---|
| internal/models/models.go:21-31 | Only `ID` has a `bson` tag. The other fields decode from lower-cased names that CreateCampaign (internal/services/campaign/campaign.go:46-55) never writes. | A campaign created with owner "u1", start 1, end 2 and banner "b.png" reads back with owner "", both dates zero and banner "". | `bson` tags equal to the snake_case keys written, so a stored campaign reads back as written. | not executed | Bson.DeclaredTagsLoseFields, Bson.DeclaredTagsDropOwner | Bson.SnakeCaseTagsRoundTrip |

The rest of the model uses the corrected reading: a record read from the store is the record written.
