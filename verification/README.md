# safe-edu authentication core, modelled in Dafny

This project models the authentication service of safe-edu and its role
guard.

`AuthService` signs principals in and up against three account stores
(students, citizens and administrators). It issues an access token and a
refresh token, and it keeps the refresh token in the account's
`current_refresh_token` field. `RolesGuard.canActivate` lets a request through
or throws `UnauthorizedException`. The decision depends on the roles a route
declares and on the user an earlier step attached to the request.

The model follows the code as written, defects included:

- `signIn` looks the id up in the student store first. For a citizen it issues
  tokens with role `Citizen`, but it writes the hash through the student store.
  That write finds no student and changes nothing.
- `signUpWithCitizen` stores the refresh token raw. `signUpWithStudent` stores
  its bcrypt hash.
- `signInAdmin` gives the access token the role `Admin` and the refresh token
  the role `admin`. It stores nothing.
- A sign-up whose refresh-token write fails throws a generic `Error`. The
  account row it created stays in the store.
- A route that declares an empty role list denies everyone, because `[]` is
  truthy and `includes` is then always false.
- bcrypt reads only the first 72 bytes of the refresh token. For a 24-character
  ObjectId those bytes hold the fixed JWT header and the start of the user id.
  Every token of one user therefore matches every stored hash of that user, so
  storing a new refresh token revokes none of the earlier ones.

Further points of the code that the model keeps:

- The two lookups of each flow are awaited one after the other inside
  `Promise.all`, so they do not run concurrently.
- An unknown id and a phone number already in use both raise
  `BadRequestException`, with the `USER_NOT_FOUND` and
  `CITIZEN_PHONE_NUMBER_EXISTS` messages.

Modules:

- `Tokens`: tokens are values `Token(kind, userId, role)`. `kind` says which
  private key signed the token. `Verify` is the reference reading of a token
  under one key.
- `Accounts`: records, the `Db` snapshot of the three stores, and the
  `AccountStores` class that the service writes through.
  - `HashInput` is the part of a token that bcrypt reads: the first 72 bytes
    of the JWT. `Hashed(input)` is a bcrypt hash with the salt abstracted.
    `bcrypt.compare` is `Matches`, which compares those inputs.
  - `create` picks any id the store does not hold yet.
- `Session`: each flow as a function from a `Db` snapshot to the snapshot after
  the call and the value returned or the error thrown. The properties of the
  flows are stated on these functions.
- `Auth`: the `AuthService` class. Its methods perform the same flows step by
  step on `AccountStores`. Each is proved to end in the state and outcome that
  the matching `Session` function gives.
- `SessionProperties`: facts that relate several calls, or a flow and the guard.
- `RolesGuard`: `canActivate` as a function.

Injected environment:

- A `fails` flag stands for a failing bcrypt hash or store write. In the
  sign-up flows it covers the refresh-token write that follows `create`.
- The id `create` assigns is chosen by the store. In `Session` it is the
  parameter `newId`, required to be absent from the store.

## Model

| member | source | states |
|---|---|---|
| Tokens.GenerateAccessToken | src/modules/auth/auth.service.ts:47-55 | the token verifies under the access key with exactly the given payload, and never under the refresh key |
| Tokens.GenerateRefreshToken | src/modules/auth/auth.service.ts:57-65 | the token verifies under the refresh key with exactly the given payload, and never under the access key |
| Tokens.AccessNeverRefresh | src/modules/auth/auth.service.ts:47-65 | no access token equals a refresh token, whatever the two payloads |
| Tokens.ClaimsPrefix | src/modules/auth/auth.service.ts:119-126 | the serialised claims start with the user id at byte 11, and their length is fixed by the id and the role |
| Accounts.HashInputIgnoresKind | src/modules/auth/auth.service.ts:94 | the signing key never reaches bcrypt: an access token and a refresh token with the same claims hash the same |
| Accounts.HashInputOfLongId | src/modules/auth/auth.service.ts:94 | for an id of 16 characters or more, bcrypt reads only the id's first 15 characters and two bits of the 16th, and nothing of the role or the key |
| Accounts.SetCredential | src/modules/auth/auth.service.ts:95 | `setCurrentRefreshToken` overwrites the field of the one record with that id, keeps every other record and the set of ids, and changes nothing for an absent id |
| Accounts.UnusedIdExists | src/modules/auth/auth.service.ts:181-186 | a store can always hand out an id it does not hold |
| Accounts.AccountStores.CreateStudent | src/modules/auth/auth.service.ts:181-186 | adds exactly one student under a fresh id, with the given fields and no refresh token; other stores unchanged |
| Accounts.AccountStores.CreateCitizen | src/modules/auth/auth.service.ts:240-244 | adds exactly one citizen under a fresh id, with no organization and no refresh token; other stores unchanged |
| Accounts.AccountStores.SetStudentRefreshToken | src/modules/auth/auth.service.ts:95 | the student store becomes `SetCredential` of the old one; other stores unchanged |
| Accounts.AccountStores.SetCitizenRefreshToken | src/modules/auth/auth.service.ts:251 | the citizen store becomes `SetCredential` of the old one; other stores unchanged |
| Session.IssuePair | src/modules/auth/auth.service.ts:119-126 | both tokens verify, each under its own key, with the same subject id and role |
| Session.StoreRefreshTokenForStudent | src/modules/auth/auth.service.ts:92-99 | success iff no injected failure; on success the student's field is overwritten with the bcrypt hash of the token, which matches the token; no other record changes; on failure `WriteFailed` and no change |
| Session.StoreRefreshTokenDigestForStudent | src/modules/auth/auth.service.ts:92-99 | the intended vault: the same frame and failure behaviour, and the stored hash matches exactly the stored token |
| Session.StoreRefreshTokenForCitizen | src/modules/auth/auth.service.ts:101-108 | the same vault over the citizen store |
| Session.SignIn | src/modules/auth/auth.service.ts:110-155 | succeeds iff the id is in one of the two stores and the write does not fail; a student id gets `Student` tokens and its hash stored; a citizen-only id gets `Citizen` tokens and leaves every store unchanged; an unknown id gets BadRequest `USER_NOT_FOUND`; every error leaves the stores unchanged |
| Session.SignUpWithStudent | src/modules/auth/auth.service.ts:157-213 | BadRequest `CITIZEN_PHONE_NUMBER_EXISTS` iff the phone number is in either store, and then no change; otherwise exactly one new student row and no other record changed; on success `Student` tokens for the new id and the hash stored; on a failed write a generic Error with the row left behind, without a token |
| Session.SignUpWithCitizen | src/modules/auth/auth.service.ts:215-272 | the same conflict rule; otherwise exactly one new citizen row; on success `Citizen` tokens for the new id and the RAW refresh token stored; on a failed write a generic Error with the row left behind |
| Session.VerifyOtp | src/modules/auth/auth.service.ts:274-289 | succeeds iff the code is "000000", returning `success: true` with "OTP Verified Successfully"; otherwise a BAD_REQUEST HttpException "Invalid OTP" |
| Session.SignInAdmin | src/modules/auth/auth.service.ts:321-340 | a pair iff the id is an admin; the access token carries role `Admin`, the refresh token role `admin` |
| Auth.AuthService.StoreRefreshTokenForStudent | src/modules/auth/auth.service.ts:92-99 | hashes, then writes through the student store, ending as `Session.StoreRefreshTokenForStudent` says |
| Auth.AuthService.StoreRefreshTokenForCitizen | src/modules/auth/auth.service.ts:101-108 | hashes, then writes through the citizen store, ending as `Session.StoreRefreshTokenForCitizen` says |
| Auth.AuthService.SignIn | src/modules/auth/auth.service.ts:110-155 | probes both stores, then issues and stores through the student vault; ends as `Session.SignIn` says |
| Auth.AuthService.SignUpWithStudent | src/modules/auth/auth.service.ts:157-213 | probes, creates, issues and stores step by step; ends as `Session.SignUpWithStudent` says for the id the store assigned |
| Auth.AuthService.SignUpWithCitizen | src/modules/auth/auth.service.ts:215-272 | probes, creates and writes the raw token; ends as `Session.SignUpWithCitizen` says for the id the store assigned |
| Auth.AuthService.AuthInWithGoogle | src/modules/auth/auth.service.ts:301-319 | no value iff no admin has the email; otherwise `signInAdmin`'s pair for an admin with that email; writes nothing |
| SessionProperties.SignInPrefersStudents | src/modules/auth/auth.service.ts:117-131 | for an id in the student store, the tokens and the student records after `signIn` are the same whatever the citizen store holds |
| SessionProperties.RotationKeepsSameHashInput | src/modules/auth/auth.service.ts:92-99 | after two stores the latest token matches, and the earlier one matches exactly when bcrypt reads the same input from both |
| SessionProperties.EarlierTokensOfSameUserStillMatch | src/modules/auth/auth.service.ts:92-99 | for an id of at least 16 characters, every earlier token of the same user still matches after a new one is stored |
| SessionProperties.EarlierRefreshTokenStillMatchesExample | src/modules/auth/auth.service.ts:92-99 | for a concrete ObjectId, a refresh token with role `Citizen` still matches after a different one with role `Student` replaced it |
| SessionProperties.DigestRotationRevokesPrevious | src/modules/auth/auth.service.ts:92-99 | with the intended digest vault, after two stores the earlier token matches only if it is the same token |
| SessionProperties.StudentSignUpThenSignIn | src/modules/auth/auth.service.ts:110-213 | a signed-up student signs in with the returned id and gets tokens with the same claims; the stored hash then matches the sign-in's refresh token |
| SessionProperties.CitizenRefreshTokenNeverVerifies | src/modules/auth/auth.service.ts:132-145 | a citizen's refresh token matches neither after sign-up (stored raw) nor after sign-in (hash written to the student store), and that sign-in changes no store |
| SessionProperties.AdminRefreshRoleIsRejected | src/modules/auth/auth.service.ts:326-333 | the admin refresh token's role `admin` is none of the declared roles, and a route restricted to `Admin` rejects it while admitting the access token's role |
| SessionProperties.SignUpWithStudentKeepsPhonesUnique | src/modules/auth/auth.service.ts:162-186 | phone numbers unique within and across the student and citizen stores stay unique after a student sign-up |
| SessionProperties.SignUpWithCitizenKeepsPhonesUnique | src/modules/auth/auth.service.ts:219-244 | the same after a citizen sign-up |
| SessionProperties.SignInKeepsPhonesUnique | src/modules/auth/auth.service.ts:110-155 | the same after a sign-in |
| RolesGuard.CanActivate | src/modules/auth/guards/roles.guard.ts:15-36 | never returns false; returns iff no roles are declared or a user with a listed role is present; declared roles without a user throw "No user provided"; a role not listed throws "Insufficient role" |
| RolesGuard.EmptyRoleListDeniesEveryone | src/modules/auth/guards/roles.guard.ts:21-33 | a declared empty list throws for every request, with or without a user |
| RolesGuard.MoreRolesAdmitMore | src/modules/auth/guards/roles.guard.ts:31-35 | extending a route's role list never rejects a caller it admitted |

## Left out

- RS256 signing, the private keys and the expiration times. A token is its claims and the key kind, without `iat`/`exp`.
  - Two tokens for the same subject and role are therefore equal. A repeated sign-in returns an equal pair in the model, while the code signs a token with new `iat`/`exp`. That new token is identical to the old one only within the same second. Facts about two issuances are stated on the claims only. The stored hash does not depend on `iat`/`exp`: bcrypt never reads that far.
- The bcrypt work factor and salt. A hash is what bcrypt read of the token.
- Accounts.HashInput and Tokens.ClaimsPrefix: ids and roles are taken to be ASCII characters that JSON does not escape. A claim set shorter than 27 bytes would let `iat` into the hash input; no token issued here is that short.
- Failures of `findOneByCondition` and of `create`. The model treats them as not happening. In the code each is rethrown before anything is written.
- Failures of token signing. The model treats them as not happening. In the code their outcome depends on where they occur:
  - in `signIn` and `signInAdmin`, the error is rethrown before anything is written;
  - in both sign-ups, `generateRefreshToken` runs after `create`; its error is rethrown unchanged and the new row stays;
  - in both sign-ups, `generateAccessToken` runs after the refresh token is written; its error becomes the generic Error, and the row and its stored token stay.
- `sendMail`: fire-and-forget mail I/O.
- `console.log`/`console.error` calls.
- The commented-out `getUserIfRefreshTokenMatched`: it is not live code.
- The verification of a presented refresh token against the stored one. It lives outside this service; `Matches` stands for it.
- The store services (`StudentsService`, `CitizensService`, `AdminService`) are not part of this model.
  - An id absent from a store is taken to match no document in `setCurrentRefreshToken`.
  - An id that is not a valid ObjectId is treated like an absent one.
  - Ids are taken in their canonical `_id.toString()` form and matched as exact strings. The code looks an id up through Mongoose's ObjectId cast and puts `_id.toString()` into the tokens. So an input that casts to a stored ObjectId without being its canonical string, such as the upper-case hex of a stored id, is found by the code. The model does not capture this: it returns `USER_NOT_FOUND` for such an id.
- `Auth.AuthService.AuthInWithGoogle`: when several admins share an email, it may pick any of them. The database's choice of the first match is not modelled.
- The Reflector metadata lookup and the `ExecutionContext` plumbing of the guard. The declared roles and the user are parameters.
- A user object without a `role` property. `RequestUser` always has one.
- Interleaving of concurrent requests. Each flow runs as one uninterrupted step, so two racing sign-ups with one phone number are not modelled.
- The binary-cloud service, controller and module: object-storage I/O and dependency-injection wiring.

## Findings

| source | as written | input that shows it | evidently intended | confidence | as-written member | corrected member |
|---|---|---|---|---|---|---|
| src/modules/auth/auth.service.ts:92-99 | `bcrypt.hash` of the whole JWT; bcrypt reads only its first 72 bytes, which are the header and the start of the user id | two sign-ins of student `65f1c0ffee0123456789abcd` a second apart: the refresh tokens differ only in `iat`/`exp`, and the first still matches the second's hash. The model leaves out `iat`, so its example varies the role instead | storing a new refresh token revokes every other token, e.g. by hashing a digest of the whole token | not executed; high | SessionProperties.EarlierRefreshTokenStillMatchesExample | Session.StoreRefreshTokenDigestForStudent |

The flows keep the vault as written, because the model describes the code.
`SessionProperties.DigestRotationRevokesPrevious` proves the intended property
of the corrected vault.
