# Account provisioning and credential checks, modelled in Dafny

This project models the authentication core of a workspace-collaboration backend.

- **Provisioning.** `loginOrCreateAccountService` and `registerUserService` turn an identity into one user, one credential account, one default workspace and one OWNER membership. The user's current-workspace pointer is then set to that workspace. All of it happens inside one database transaction.
  - `loginOrCreateAccountService` is an upsert keyed on the email: a user already holding the email is returned, and nothing is written.
  - `registerUserService` is a strict create: an email already in use is a BadRequest.
- **Credential check.** `verifyUserService` finds the account for (provider, email), loads its user, compares the password, and returns the user without its password.
- **Configuration lookup.** `getEnv` reads a key from the process environment, with an optional default.

Structure:

- `wrappers.dfy` (`Wrappers`): `Option` stands for `null`/`undefined`, and `Result` stands for a value or a thrown error.
- `env.dfy` (`Env`): `getEnv` as a total function over the environment map.
- `records.dfy` (`Records`): the five record kinds and the store as a value `Db` (five tables in insertion order plus an identifier counter). Also `WellFormed`, which says every stored identifier was handed out before the counter's value, the query filters, `omitPassword` and `comparePassword`.
- `lookup.dfy` (`Lookup`): `findOne` as "first match in insertion order", and counting.
- `auth_spec.dfy` (`AuthSpec`): what each service does to the store, as a function of the store before the call. A creating call that fails returns the store unchanged.
- `store.dfy` (`AuthService`): a `Store` class whose tables are fields.
  - Each `save` of the source is a method that changes those fields.
  - The services run the same steps in the same order as the source: user, account, workspace, owner-role lookup, member, then the user saved again.
  - A parameter `fault` names the save the database rejects, if any. The rejection reaches the caller as `SaveRejected(step)`.
  - A failure, whether a missing owner role or a rejected save, restores the snapshot taken when the transaction began.
  - Each service method is proved to leave the store, and to return, exactly what its `AuthSpec` function says.
  - `VerifyUser` has no `modifies` clause, so it cannot write.
- `auth_props.dfy` (`AuthProperties`): the properties, as lemmas about `AuthSpec`.

Parameters in place of the environment:
- the clock (`joinedAt: new Date()`) is the `now` parameter;
- MongoDB ObjectIds come from the store's counter. A creating call takes the user, account, workspace and member identifiers in that order.

The model follows the code as written on these points:
- A duplicate registration is a `BadRequest` (the code's `BadRequestException`), not a separate validation error kind.
- A dangling account-to-user reference is `NotFound("User not found for the given account")`.
- The two services write different workspace texts, and both are kept as written: "My workspace" / "workspace created for …" on the OAuth path, and "My Workspace" / "Workspace created for …" on the registration path.
- `picture || null` stores an empty-string picture as null too, not only a missing one.

## Model

| member | source | states |
|---|---|---|
| Env.GetEnv | backend/src/utils/get-env.ts:2-12 | a set key yields its value; an unset key succeeds exactly when the default is non-empty; the error carries "Environment variable of KEY not set" |
| Env.SetButEmptyIsReturned | backend/src/utils/get-env.ts:3-11 | a key set to the empty string yields the empty string whatever the default (the test is for undefined, not falsiness) |
| Env.OmittedDefaultIsNoDefault | backend/src/utils/get-env.ts:2-8 | omitting the default equals passing the empty string, and then the call fails exactly when the key is unset |
| Env.ResultIsStoredOrDefault | backend/src/utils/get-env.ts:4-11 | a successful result is the stored value or the default, never another string |
| Env.FailsExactlyWhenUnsetWithoutDefault | backend/src/utils/get-env.ts:4-8 | getEnv fails if and only if the key is unset and the default is empty |
| Lookup.FindFirst | backend/src/services/auth.service.ts:27 | findOne: the returned index matches, no earlier element matches, and None exactly when nothing matches |
| AuthSpec.PictureOrNull | backend/src/services/auth.service.ts:35 | the stored picture is null exactly when the picture is missing or empty, and otherwise is the picture given |
| AuthService.Store.InsertUser | backend/src/services/auth.service.ts:32-38 | appends one user under a fresh identifier with no current workspace; the other tables are unchanged and the store stays well formed |
| AuthService.Store.InsertAccount | backend/src/services/auth.service.ts:44-50 | appends one account for the given provider, provider id and user under a fresh identifier; nothing else changes |
| AuthService.Store.InsertWorkspace | backend/src/services/auth.service.ts:56-62 | appends one workspace with the given owner under a fresh identifier; nothing else changes |
| AuthService.Store.InsertMember | backend/src/services/auth.service.ts:76-83 | appends one (user, workspace, role, joinedAt) membership under a fresh identifier; nothing else changes |
| AuthService.Store.SaveUser | backend/src/services/auth.service.ts:88-90 | saving a user again replaces the first user with its identifier; nothing else changes |
| AuthService.Store.Restore | backend/src/services/auth.service.ts:101-104 | an abort puts every table and the counter back to the snapshot |
| AuthService.Store.SaveIdentity | backend/src/services/auth.service.ts:32-62 | the user, account and workspace saves in order; it stops at a rejected save with exactly the earlier saves made, and otherwise returns the saved user and workspace |
| AuthService.Store.Provision | backend/src/services/auth.service.ts:32-90 | the store holds exactly the saves made before the call stopped: at the rejected save, after the third save when no owner role exists, or after all five. The result is the specification's: the new user and workspace, NotFound("Owner role not found") or the rejected save's error |
| AuthService.Store.LoginOrCreateAccount | backend/src/services/auth.service.ts:11-108 | for every rejected save or none, the new store and the result are exactly those of the LoginOrCreate specification, with the abort's restore on error, and the store stays well formed |
| AuthService.Store.RegisterUser | backend/src/services/auth.service.ts:111-184 | for every rejected save or none, the new store and the result are exactly those of the Register specification, with the abort's restore on error, and the store stays well formed |
| AuthService.Store.VerifyUser | backend/src/services/auth.service.ts:187-213 | the result is that of the Verify specification; the method writes nothing (it has no modifies clause) |
| AuthProperties.LoginOrCreateExistingEmail | backend/src/services/auth.service.ts:27-29 | when a user holds the email, the first user holding it is returned and the store is unchanged, whatever save the database would reject |
| AuthProperties.LoginOrCreateNewEmail | backend/src/services/auth.service.ts:32-90 | for a new email with an OWNER role: exactly one user (name = displayName, picture or null), one account (provider, providerId, new user), one workspace owned by the new user and one (user, workspace, OWNER) membership are added; roles are unchanged; the email is then held by exactly one user |
| AuthProperties.LoginOrCreatePicture | backend/src/services/auth.service.ts:35 | the created user's profilePicture is the picture when given and non-empty, else null |
| AuthProperties.LoginOrCreateIdempotent | backend/src/services/auth.service.ts:27-99 | for every store and profile, a second call with the same email has the same outcome as the first, on the store the first call left: the same user, and no further writes |
| AuthProperties.ProvisionedOwnership | backend/src/services/auth.service.ts:56-90 | over a well-formed store: the new user is found by its id and points at the new workspace; the workspace is new, is found by its id and is owned by the user; exactly one membership binds them with the owner role, and it is the only membership of the workspace; the store stays well formed |
| AuthProperties.ProvisionedKeepsOwnersMembers | backend/src/services/auth.service.ts:56-90 | provisioning preserves the store invariant that every workspace's owner has exactly one owner-role membership for it |
| AuthProperties.CreatingKeepsOwnersMembers | backend/src/services/auth.service.ts:11-184 | both creating services preserve that invariant and the owner role, whatever save the database rejects |
| AuthProperties.LoginOrCreateOwnsWorkspace | backend/src/services/auth.service.ts:56-90 | a user created by loginOrCreateAccountService has currentWorkspace = the workspace created in the same call and owns it; exactly one (user, workspace, OWNER) membership binds them, and it is the workspace's only membership |
| AuthProperties.OwnerRoleMissingAborts | backend/src/services/auth.service.ts:66-72 | without an OWNER role, both creating services fail with NotFound("Owner role not found") and the store equals its pre-call state |
| AuthProperties.RegisterExistingEmail | backend/src/services/auth.service.ts:122-125 | registerUserService fails with BadRequest("Email already exists") if and only if the email is in use, and then changes nothing |
| AuthProperties.CreatingFailuresChangeNothing | backend/src/services/auth.service.ts:101-104 | every failing call of either creating service, whatever save the database rejects, leaves the store as it was |
| AuthProperties.SaveRejectedAborts | backend/src/services/auth.service.ts:32-104 | for a new email, a rejected save at any of the five steps makes both services fail with that save's error (or NotFound when the missing owner role stops them first), and the store equals its pre-call state |
| AuthProperties.RegisterCreates | backend/src/services/auth.service.ts:127-177 | on success it returns {userId, workspaceId} of the new records; the account is (EMAIL, email, userId); the workspace is owned by userId; the user points at it; exactly one OWNER membership binds them, and it is the workspace's only membership |
| AuthProperties.RegisterTwice | backend/src/services/auth.service.ts:122-125 | registering the same email again fails with BadRequest and leaves the store as the first call left it |
| AuthProperties.VerifyOutcomes | backend/src/services/auth.service.ts:196-212 | NotFound("Invalid email or password") if and only if no account matches (provider, email). Otherwise: NotFound for a missing user if and only if the first matching account's user is absent; Unauthorized if and only if that user's password does not match; success with the user minus its password if and only if it does |
| AuthProperties.RegisterThenVerify | backend/src/services/auth.service.ts:127-212 | after a registration (no earlier EMAIL account for that email), verifying with the same email and password returns the new user without a password, and any other password is Unauthorized |
| AuthProperties.VerifyUnknownEmail | backend/src/services/auth.service.ts:196-199 | an email with no account for the provider is NotFound with the same message as a wrong password |

## Left out

- Sessions and transactions (`startSession`, `commitTransaction`, `abortTransaction`, `endSession`): a transaction is a snapshot taken at the start and restored on abort. The restore also resets the identifier counter, so the store equals its pre-call state exactly.
- ObjectId generation: replaced by a counter.
- Unique indexes: the indexes on the user email and on (provider, providerId) live in the model schemas, which are not part of this model.
  - Every lookup returns the first match in insertion order.
  - A duplicate-key rejection is not derived from the data. It is one of the save rejections the `fault` parameter can name.
- Failures other than a rejected save: a lookup, the commit or the session end that throws is not modelled. At most one save is rejected per call, since the first rejection ends the call.
  - Concurrent calls for the same email are not modelled either.
- A missing OAuth email: the email is a required string. How `findOne({email: undefined})` behaves depends on the driver and is not modelled.
- Password hashing: the user model's pre-save hashing, `comparePassword` and `omitPassword` are not part of this model.
  - The stored password stands for its hash, and `comparePassword` is equality, which stands for a hash compare without collisions.
  - Comparing against a user without a password is a mismatch (Unauthorized). What the real hashing library does in that case is not modelled.
- Schema defaults: fields the user and workspace schemas fill by default are not modelled. The registration path stores a null profile picture.
- Provider and role names: these are strings. The constants "EMAIL" and "OWNER" stand for `ProviderEnum.EMAIL` and `Roles.OWNER`, whose definitions are not part of this model.
- Logging: the `console.log` calls are diagnostic output only.
- The OAuth and local strategy wiring, session serialisation, the role seeder, the route tables and the async handler middleware are framework glue outside this core.
- RegisterThenVerify: it requires that no EMAIL account for the email existed before the registration. Otherwise verification would find the earlier account first, because registration checks only the users' emails.
