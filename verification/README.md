# Notebook backend: authorisation and note ownership

A Dafny model of the request-authorisation core of a small Express/Mongoose
note-taking backend. Users register and log in. Every note route, and the
get-user route, sits behind the `fetchUser` gate. The gate turns the
`auth-token` header into a caller id. The note routes then check the id
format, existence and ownership of a note, in that order, before they
change it.

Modules, one per source file plus two shared ones:

- `Common` (common.dfy): optional body fields, JavaScript truthiness (`Truthy`:
  absent and `""` are falsy), and the string a validator sees (`Text`: absent
  reads as `""`). Also the validation error entries.
- `Externals` (externals.dfy): the libraries, as an `Env` record of opaque
  functions. These are `ObjectId.isValid`, the cast of an id string to an ObjectId, `isEmail`, `normalizeEmail`,
  bcrypt `hash`/`compare`, and jsonwebtoken `sign`/`verify`. `HashSound` and
  `TokensSound` state what bcrypt and jsonwebtoken guarantee. They appear only as
  hypotheses of the round-trip lemmas.
- `Gate` (gate.dfy): `fetchUser`, from backend/middleware/fetchUser.js.
- `NoteService` (notes.dfy): backend/routes/notes.js. Each route is a pure
  function `…Result` returning the reply and the new table. The class `NoteStore`
  holds the collection as a `map` field. Its methods perform the route step by
  step and are proved equal to those functions.
- `AccountService` (auth.dfy): backend/routes/auth.js, in the same form. The class
  `UserStore` has the invariant `Valid()`: no two users share an e-mail address.
  The register route maintains this invariant, and login's `findOne` by e-mail
  depends on it.
- `Server` (server.dfy): the routes as mounted. `Step` serves one request against
  both collections, and `Run` serves a sequence of requests. Class `Api` dispatches
  a request through the gate to the store methods, and is proved equal to `Step`.

Things the environment supplies become request parameters. These are the
store-assigned id of a new user or note, and bcrypt's random salt. If the
supplied id is already in the table, the result is the store's duplicate-key
failure: the route's catch-all 500, and nothing changes.

## Model

| member | source | states |
|---|---|---|
| `Gate.FetchUser` | backend/middleware/fetchUser.js:3-20 | A missing or empty token gives 401 "Please authenticate". A token that fails verification gives 401 "Invalid token". The request proceeds if and only if the token is present and verifies, and the caller attached is then the verified `userId` claim. |
| `Gate.MissingTokenSkipsVerify` | backend/middleware/fetchUser.js:7-9 | Without a token, the result is the same for every verifier: verification is never consulted. |
| `NoteService.OwnedBy` | backend/routes/notes.js:11 | The listing holds exactly the notes whose owner is the caller, with their stored contents, and no others. |
| `NoteService.NoteStore.FetchAllNotes` | backend/routes/notes.js:9-17 | Returns 200 with exactly the caller's notes. It has no `modifies` clause, so it changes nothing. |
| `NoteService.AddErrors` | backend/routes/notes.js:20-22 | The title error is present if and only if the title is shorter than 3. The description error is present if and only if the description is shorter than 5. No other errors appear. There is at most one error per field, in the chain's order (title, then description). |
| `NoteService.NewNote` | backend/routes/notes.js:31-38 | The new note is owned by the caller and carries the given title and description. Its tag is the given tag when truthy, else "General". |
| `NoteService.AddNoteResult` | backend/routes/notes.js:20-45 | Failed validation returns 400 with the error list and an unchanged table. Otherwise exactly one note is inserted under the new id and returned. An id already in use is the 500 store failure, with no change. |
| `NoteService.NoteStore.AddNote` | backend/routes/notes.js:20-46 | The reply and the new table are those of `AddNoteResult` on the old table. |
| `NoteService.UpdateFields` | backend/routes/notes.js:59-63 | `updateFields` holds a field if and only if the body gave that field a truthy value, and then holds exactly the submitted value. |
| `NoteService.SetUpdateFields` | backend/routes/notes.js:59-80 | An update replaces exactly the title, description and tag that were supplied truthy. The owner is kept. |
| `NoteService.UpdateNoteResult` | backend/routes/notes.js:49-87 | A bad id format gives 400 before any lookup. The id is then cast to the store's key (`castId`, as `findById` casts to an ObjectId). A missing note gives 404, and a note owned by someone else gives 403. Each failure leaves the table unchanged. It succeeds exactly for the owner, changes only the note under the cast key, keeps its owner, and returns the updated record. |
| `NoteService.NoteStore.UpdateNote` | backend/routes/notes.js:49-87 | The reply and the new table are those of `UpdateNoteResult` on the old table. |
| `NoteService.DeleteNoteResult` | backend/routes/notes.js:90-120 | Uses the same 400/404/403 checks in the same order and the same cast key, each failure leaving the table unchanged. It succeeds exactly for the owner, removes only the note under the cast key, and returns it as `deletedNote`. |
| `NoteService.NoteStore.DeleteNote` | backend/routes/notes.js:90-120 | The reply and the new table are those of `DeleteNoteResult` on the old table. |
| `NoteService.MutationsRespectOwnership` | backend/routes/notes.js:66-73 | Add, update and delete never change or remove a note the caller does not own, and never change a note's owner. A note that appears is owned by the caller. |
| `NoteService.FailedChecksChangeNothing` | backend/routes/notes.js:25-28 | Every add, update or delete reply with status 400 or more leaves the table as it was. |
| `NoteService.AddThenList` | backend/routes/notes.js:9-41 | After a successful add, the caller's listing is the old listing plus the new note. That note has the submitted title and description, and the tag defaults to "General". |
| `NoteService.UpdateSkipsLengthChecks` | backend/routes/notes.js:59-63 | The update route stores a title shorter than 3 characters. The add route's length checks are not applied on update. |
| `AccountService.SendError` | backend/routes/auth.js:12-14 | Builds a failure reply with the given status and message. |
| `AccountService.FindByEmail` | backend/routes/auth.js:33 | On a table with unique e-mails, it finds a user exactly when one has that address, and the user it returns has it. |
| `AccountService.CreateUserErrors` | backend/routes/auth.js:17-20 | There is one error each for: name shorter than 3, e-mail failing `isEmail`, password shorter than 5. Each appears if and only if its check fails, and no other error appears. There is at most one error per field, in the chain's order (name, e-mail, password). |
| `AccountService.CreateUserResult` | backend/routes/auth.js:17-66 | Validation errors give 400 with the list. A taken normalised e-mail gives 400 "Email already exists". Both leave the table unchanged. Success inserts exactly one user with the normalised e-mail and the bcrypt digest of the password. It returns 201, a token signed over the new id with no expiry, and only id, name and e-mail. E-mail uniqueness is preserved. |
| `AccountService.UserStore.CreateUser` | backend/routes/auth.js:17-66 | Keeps `Valid()`. The reply and the new table are those of `CreateUserResult` on the old table. |
| `AccountService.LoginErrors` | backend/routes/auth.js:70-72 | The e-mail error is present if and only if `isEmail` fails. The password error is present if and only if the password is absent. No other errors appear. There is at most one error per field, e-mail before password. |
| `AccountService.LoginResult` | backend/routes/auth.js:70-137 | Validation errors give 400 with the list. An unknown normalised e-mail gives 400 "Invalid credentials". Login succeeds if and only if some user has that e-mail, has a stored digest, and bcrypt accepts the password. On success the returned user is a stored user whose e-mail is the normalised submitted address and whose stored digest bcrypt accepted for the submitted password. The reply is 200, that user's projection, and a token over its id that expires in 3600 s. |
| `AccountService.UserStore.Login` | backend/routes/auth.js:70-137 | Returns `LoginResult` on the current table. It has no `modifies` clause, so the table is not changed. |
| `AccountService.GetUserResult` | backend/routes/auth.js:140-147 | An absent id gives 404 "User not found". Otherwise it returns the caller's id, name and e-mail. The password is not part of the reply type. |
| `AccountService.UserStore.GetUser` | backend/routes/auth.js:140-152 | Returns `GetUserResult` on the current table, and changes nothing. |
| `AccountService.UnknownEmailLooksLikeWrongPassword` | backend/routes/auth.js:87-111 | An unknown e-mail and a wrong password for a known e-mail produce the identical 400 "Invalid credentials" reply. |
| `AccountService.MissingDigestBeforeCompare` | backend/routes/auth.js:95-105 | A stored user without a password gives 500 "Account configuration error" whatever bcrypt's `compare` does, so the check comes before any comparison. |
| `AccountService.RegisterThenLogin` | backend/routes/auth.js:39-124 | Assume bcrypt and jsonwebtoken are sound. Then after a successful register, login with the same credentials succeeds for the new user. Both tokens are non-empty and verify to the new id. |
| `AccountService.RegisterTwice` | backend/routes/auth.js:32-36 | Registering again under an address with the same normalised form gives 400 "Email already exists" and leaves the table unchanged. |
| `Server.Step` | backend/index.js:13-15 | A protected request whose token the gate refuses gives 401 and changes nothing. Protected routes never touch the user table. Register and login never touch the notes. E-mail uniqueness is preserved. |
| `Server.RefusedRequestChangesNothing` | backend/routes/notes.js:54-73 | For every request, a response with status 400 or more leaves both collections unchanged. |
| `Server.StepRespectsOwnership` | backend/middleware/fetchUser.js:12-15 | A note changes or disappears only through a request whose token verifies to the note's owner. No note changes owner. A new note belongs to the caller the gate verified. |
| `Server.Run` | backend/routes/auth.js:32-36 | Any sequence of requests keeps e-mails unique. |
| `Server.OthersCannotTouchNote` | backend/routes/notes.js:71-73 | Across any sequence of requests, a note stays present and unchanged when no request carries a token verifying to its owner. |
| `Server.NoteSession` | backend/routes/notes.js:20-120 | With a token for Alice and no notes, adding a note gives it the default tag, a tag-only update keeps title and description, and Bob's delete gets 403 and changes nothing. |
| `Server.AliceAndBob` | backend/routes/notes.js:49-120 | Start from an empty store, with sound bcrypt and jsonwebtoken. Register gives 201 and login gives 200, and both tokens verify to the new user. The added note gets tag "General". Retagging it to "Work" keeps title and description. Another user's delete gets 403 and changes nothing. |
| `Server.Api.Handle` | backend/index.js:13-15 | Runs the gate and then the route's store method, and its reply and resulting collections are those of `Step`. |

## Left out

- The Express app wiring, CORS, JSON body parsing, `listen`, and the MongoDB connection (backend/index.js, backend/db.js). These are transport and start-up, with no logic.
- The internals of the libraries. These are `ObjectId.isValid`, the cast of an id string to an ObjectId, `isEmail`, `normalizeEmail`, bcrypt's salting, hashing and comparison, and JWT signing and verification. Verification includes the clock-based expiry check. All of them are opaque functions in `Env`, so token expiry is decided inside `verify`, and the model has no clock.
- The Mongoose models (models/User, models/Notes) are not part of this model. Schema defaults and extra fields such as a creation date are not modelled. A user's public projection is id, name and e-mail.
- Store exceptions and the catch-all 500 replies are modelled only where the model itself produces them: a store-assigned id that is already taken. Other store exceptions are not modelled. One example is the cast error that `findById` raises on a verified `userId` that is not an ObjectId. Another is login's "Authentication service unavailable".
- A verified token without a `userId` claim is not modelled. `verify` yields the claim directly, and every token this server signs carries one.
- `NoteService.OwnedBy`: the listing is a map from id to note, so the store's return order is not captured.
- `NoteService.AddErrors`, `AccountService.CreateUserErrors`: length is the number of Unicode scalar values, which agrees with the validator on surrogate pairs. The validator's `isLength` also leaves the variation selectors U+FE0E and U+FE0F out of the count; the model counts them.
- Body fields are modelled as strings or absent. JSON numbers, booleans, `null`, arrays and objects in a field are not modelled. For them the validators see a converted string, the update route's truthiness test differs (`tag: 0` reads as absent, so the default applies on add), and bcrypt throws on a non-string password (for example `password: null`, which passes `exists()`), ending in the route's 500.
- `AccountService.FindByEmail`: `findOne` is modelled on a table whose e-mails are unique. Every route preserves this invariant. Duplicates written by another path are out of scope.
- Concurrency: the find-then-update and find-then-delete steps are not atomic in the store. The model serves requests one at a time.
- Console logging and the hard-coded signing secret.

Where the routes promise less than a reader of the data model might expect, the model follows the code:
- A note's title of at least 3 characters and description of at least 5 are checked only on add. Update stores shorter values (`NoteService.UpdateSkipsLengthChecks`).
- Login only requires the password field to exist (`exists()`). An empty password passes validation and then fails the bcrypt comparison.
- Registration tokens carry no expiry, while login tokens expire after one hour. The model keeps this asymmetry as written.
