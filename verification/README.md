# Local signup-or-login resolver, modelled in Dafny

This project models the service that handles the single username/password
form: `src/services/form/signUpOrLoginFromLocal.js`. The caller passes a
username, a password and an optional email. The service looks up the
`local` verification for that username and decides by itself whether the
request is a registration (`signup`) or an authentication (`login`). It then
runs a fixed chain of steps, each guarded by that `process` tag, and returns
the user.

The promise chain over a mutable `this` becomes a pipeline of pure functions
over an explicit `Context` and an immutable `Store`. The store holds the
`users` rows (with the auto-increment counter), the `verifications` keyed by
`(provider_name, provider_id)`, the `feedables` entries and the emails the
mail transport accepted. A step that rejects stops the chain. Writes made by
earlier steps stay in the store, because the source does no rollback.

Files:
- `common.dfy`: `Option`, `Result` and sub-sequence occurrence.
- `hashing.dfy`: bcrypt's `genSalt`/`hash`/`compare` as an ideal salted digest.
- `store.dfy`: the rows, the store invariant `Valid`, the single-row operations, and a count of new-user feed entries.
- `resolver.dfy`: the context, one function per step of the chain, and `Execute`.
- `properties.dfy`: whole-call properties of `Execute`.

Parameters that stand for the outside world:
- The clock (`new Date()`) is `Env.now`.
- The random part of the salt is `Env.saltNonce`.
- Whether the SMTP transport accepts the welcome email is `Env.mailAccepted`.
- The `SignupFields` validator is a function parameter. It returns the list of violated rules, and an empty list means the fields are accepted.

Behaviours of the code that a reader might not expect, modelled as written:
- A second signup with a username that is already bound gets no separate conflict outcome. The lookup finds the verification, so the call takes the login path (`SecondSignupLogsIn`, `AliceScenario`).
- A refused welcome email is not caught. The email is incidental to registration, yet its refusal rejects the whole call, although the user, the verification and the feed entry are already saved (`SignupCreatesAccount`, `WelcomeEmailSentIff`).
- A verification whose user row is missing is not reported before the password check. Such a request still takes the login path, because the related model is an empty but truthy object. A wrong password gives `BadPasswordError`. With a right password the model assumes the `last_logged_in` patch on that empty model fails, and reports `MissingUserError` with the store unchanged (see "## Left out").
- The new user's `email` is stored exactly as submitted, absent or empty included. The welcome email is sent only when the email is truthy, which means present and non-empty.

## Model

| member | source | states |
|---|---|---|
| Hashing.GenerateSalt | src/services/form/signUpOrLoginFromLocal.js:109-111 | the salt is generated with cost factor 10 |
| Hashing.Hash | src/services/form/signUpOrLoginFromLocal.js:113-115 | the digest records its salt, and the compare primitive accepts exactly the hashed password against it (idealised: no other password is accepted) |
| Persistence.FindVerification | src/services/form/signUpOrLoginFromLocal.js:45-52 | the fetch finds a verification exactly when one is stored under (provider_name, provider_id), and then it is the row stored under that key, which in a valid store carries that provider name and id |
| Persistence.InsertUser | src/services/form/signUpOrLoginFromLocal.js:95-103 | saving a new user adds one row under a fresh id with the given name, email and login time, leaves everything else alone, and keeps the store valid |
| Persistence.InsertVerification | src/services/form/signUpOrLoginFromLocal.js:117-126 | saving a verification stores it under its own key, keeps every other key and leaves the other tables alone |
| Persistence.PatchLastLoggedIn | src/services/form/signUpOrLoginFromLocal.js:191-193 | the patch succeeds exactly when the user row exists, and then changes only that row's last_logged_in |
| Persistence.AppendFeed | src/services/form/signUpOrLoginFromLocal.js:131-143 | saving a feed entry appends it and changes nothing else |
| Persistence.Deliver | src/services/form/signUpOrLoginFromLocal.js:162-167 | an accepted email is appended to the sent log and nothing else changes |
| Persistence.UserFeedCountAppend | src/services/form/signUpOrLoginFromLocal.js:129-145 | appending a feed entry raises the new-user count of exactly the user it announces, by one |
| SignUpOrLoginFromLocal.Initial | src/services/form/signUpOrLoginFromLocal.js:18-26 | the constructor copies the fields and leaves process, verification and user unset |
| SignUpOrLoginFromLocal.RelatedUser | src/services/form/signUpOrLoginFromLocal.js:56-61 | the related user is the loaded row when the bound id is stored, and otherwise only the id |
| SignUpOrLoginFromLocal.CheckForLogin | src/services/form/signUpOrLoginFromLocal.js:44-62 | verification and user are set exactly when the (username, 'local') lookup succeeds, and the user is the one the verification relates to |
| SignUpOrLoginFromLocal.SetProcessType | src/services/form/signUpOrLoginFromLocal.js:65-71 | process becomes login exactly when a user was found and signup otherwise; nothing else in the context changes |
| SignUpOrLoginFromLocal.VerifyForSignup | src/services/form/signUpOrLoginFromLocal.js:73-82 | the chain stops with the validator's violations exactly on signup with a rejected username or password, and the store is untouched |
| SignUpOrLoginFromLocal.DoRegistrationIfSigningUp | src/services/form/signUpOrLoginFromLocal.js:84-127 | on signup: one new user (name, email, now) under a fresh id, set as the context's user, and one local verification binding the username to that id with the salted hash; on login: no change |
| SignUpOrLoginFromLocal.CreateFeedIfNewUser | src/services/form/signUpOrLoginFromLocal.js:129-145 | on signup exactly one 'users' entry naming the new user is appended; on login the store is unchanged |
| SignUpOrLoginFromLocal.WelcomeText | src/services/form/signUpOrLoginFromLocal.js:171-186 | the email body contains the submitted username and plaintext password verbatim, at fixed positions |
| SignUpOrLoginFromLocal.WelcomeEmail | src/services/form/signUpOrLoginFromLocal.js:162-167 | the welcome email goes from noreply@soapee.com to the submitted address, with the registration subject, and repeats the username and password |
| SignUpOrLoginFromLocal.SendWelcomeEmailIfPasswordSupplied | src/services/form/signUpOrLoginFromLocal.js:147-169 | an email is attempted only on signup with a truthy email; an accepted one is logged, and a refused one rejects the chain with the store as it stands |
| SignUpOrLoginFromLocal.VerifyPasswordIfLoggingIn | src/services/form/signUpOrLoginFromLocal.js:189-205 | on login a non-matching password rejects with BadPasswordError and no change; a matching one patches only the bound user's last_logged_in; a failed step never changes the store |
| SignUpOrLoginFromLocal.ReturnUser | src/services/form/signUpOrLoginFromLocal.js:207-209 | the call resolves with the context's user |
| SignUpOrLoginFromLocal.Execute | src/services/form/signUpOrLoginFromLocal.js:28-38 | the chain keeps the store valid; a success returns a stored user that the username's local verification binds and whose hash the password matches; a success on an existing binding carries the current login time |
| ResolverProperties.ProcessIsLoginIffBound | src/services/form/signUpOrLoginFromLocal.js:44-71 | the process is login exactly when the (username, 'local') verification exists, with its related user, and signup otherwise |
| ResolverProperties.RejectedSignupWritesNothing | src/services/form/signUpOrLoginFromLocal.js:28-37 | a signup the validator rejects fails with its violations and the store is exactly as before: no user, verification, feed entry or email |
| ResolverProperties.RejectedSignupIsRepeatable | src/services/form/signUpOrLoginFromLocal.js:73-92 | repeating a rejected signup gives the same rejection on the same, unchanged store |
| ResolverProperties.SignupCreatesAccount | src/services/form/signUpOrLoginFromLocal.js:84-145 | an accepted signup adds exactly one user (name = username, email, last_logged_in = now) and one verification (that user's id, username, 'local', hash of the password), appends one 'users' feed entry for it, and returns that user unless the welcome email is refused |
| ResolverProperties.SignupAnnouncesUserOnce | src/services/form/signUpOrLoginFromLocal.js:129-145 | an accepted signup leaves the new user announced in the feed exactly once, where no entry announced it before |
| ResolverProperties.WelcomeEmailSentIff | src/services/form/signUpOrLoginFromLocal.js:147-186 | an email is logged exactly on an accepted signup with a truthy email that the transport accepts, addressed to it and carrying username and password verbatim; MailRejected happens exactly when that send is refused |
| ResolverProperties.WrongPasswordChangesNothing | src/services/form/signUpOrLoginFromLocal.js:195-203 | a login whose password the stored hash does not verify fails with BadPasswordError and leaves the whole store, last_logged_in included, unchanged |
| ResolverProperties.RightPasswordPatchesLastLogin | src/services/form/signUpOrLoginFromLocal.js:189-209 | a login with a matching password returns the bound user with last_logged_in = now and changes nothing but that field; when the bound user row is missing it fails and changes nothing |
| ResolverProperties.LoginCreatesNothing | src/services/form/signUpOrLoginFromLocal.js:86-151 | on the login path no user, verification, feed entry or email is ever created |
| ResolverProperties.SecondSignupLogsIn | src/services/form/signUpOrLoginFromLocal.js:44-53 | after an accepted signup of (u, p), a second call with (u, p) takes the login path and succeeds with the same user, creating nothing, even when the first call's email was refused |
| ResolverProperties.AliceScenario | src/services/form/signUpOrLoginFromLocal.js:28-38 | on an empty store "alice"/"Secret123" registers one user, the same pair then logs in with no second user, and "alice"/"wrong" is refused with the store unchanged |

## Left out

- Hashing.Hash: bcrypt is idealised as a digest that verifies exactly its own secret. Real bcrypt reads only the first 72 bytes of a password, so longer passwords that share those bytes also match. Its cost-dependent work and constant-time compare are not modelled either.
- The mail transport's configuration (host, port, TLS, debug) and delivery are not modelled. Only whether the transport accepts the message is modelled, as an input.
- Failures of the database itself are not modelled: the lookup, the user insert, the verification insert and the feed insert always succeed. Failures of bcrypt are not modelled either. Each would reject the chain like the refused email does.
- Absent `userDetails.username` or `userDetails.password` fields are not modelled. The model takes both as strings. The source passes `undefined` straight to the ORM and the validator.
- The rules of `SignupFields` live in `services/validate/signupFields`, which is not part of this model. They are an input function. The model assumes its `execute()` rejects when any rule is violated, and resolves otherwise.
- Concurrent resolutions and database uniqueness constraints are not modelled. The code has no handling for either, and the store is one value changed by one call at a time.
- The feed entry's `image_url` is not modelled, because this code never sets it on a new user.
- The Bookshelf ORM (`forge`, `fetch`, `withRelated`, `save`) and Bluebird's promise binding are replaced by pure map and sequence updates and a sequential pipeline.
- MissingUserError on a verification whose user row is missing is a modelling assumption. The source leaves it to the ORM's `save({ last_logged_in }, { patch: true })` on an id-less related model. Depending on the ORM version, that call could reject or attempt an insert. The model assumes it rejects and writes nothing.
- One `Env.now` serves both `new Date()` calls, because only one of them runs in any single call.
