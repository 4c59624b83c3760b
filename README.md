# files_manager: a Dafny model of the session and file-access core

This project models the decision logic of the files manager backend (an
Express server over MongoDB, Redis, the local filesystem and Bull queues):

- how a request's `X-Token` is resolved to a user;
- logging in with `Authorization: Basic base64(email:password)` and logging out;
- registration and `GET /users/me`;
- uploading, showing, listing, publishing and downloading files.

It then proves properties of that model. Each handler is modelled with the
same order of checks, the same status codes and the same messages as the
JavaScript.

Modules, one per source file, plus three shared ones:

| module | models |
|---|---|
| `Values` (values.dfy) | JavaScript values of request bodies, the foreign library calls, HTTP responses |
| `Stores` (stores.dfy) | the Mongo `users`/`files` collections, the Redis token store, the disk, the job queues |
| `Text` (text.dfy) | `startsWith` and `split` on one character, with `join` as its inverse |
| `UserUtils` (user_utils.dfy) | utils/user.js |
| `FileUtils` (file_utils.dfy) | utils/file.js |
| `AuthController` (auth_controller.dfy) | controllers/AuthController.js |
| `UsersController` (users_controller.dfy) | controllers/UsersController.js |
| `FilesController` (files_controller.dfy) | controllers/FilesController.js |

Modelling choices:

- **Document ids.** An id is a natural number. A collection is a sequence
  indexed by id. Nothing in the core deletes documents, so insertion order is
  id order, and `insertOne` appends.
- **Mutable state.** Each store the handlers change is a class:
  - `DocumentStore` holds `users` and `files`;
  - `TokenStore` holds the `auth_<token>` entries and their expiry;
  - `Disk` maps paths to bytes;
  - `JobQueue` holds the jobs added so far.

  Handlers that change a store are methods. Their `ensures` give the whole
  new state in terms of the old one. `DocumentStore.Valid` is preserved:
  emails are unique, and a record has a blob path exactly when it is not a
  folder.
- **Read-only handlers.** `getShow`, `getFile` and `getMe` are functions
  over the store contents. `getIndex` builds its list in a loop, so it is a
  method that changes nothing.
- **Library calls.** The calls the server makes but does not define are
  fields of the `Foreign` value passed to every operation, and are left
  uninterpreted:
  - `validate.isId` and `ObjectId`, except that `ObjectId` of null,
    undefined or a number generates a new id, which names no stored
    document (`GeneratesId`);
  - `sha1`;
  - base64 decoding;
  - `Number`;
  - `mime.contentType`.
- **Other inputs.** The generated uuid, a failing disk write and failing
  store calls are parameters.
- **Token resolution.** `getUserIdAndKey` calls `verifyUser` without
  `await`, so its guard tests a pending promise and never fires. The
  resolved user id therefore depends on the token store alone.
  `Authenticate` models the prologue every authenticated handler runs: that
  resolution followed by the user lookup. A missing token is read as the key
  `auth_undefined`. A null user id passes `isId`, because `ObjectId(null)`
  makes a fresh id, and then matches no user, so the two 401 checks of a
  handler end alike. Between them `postUpload` enqueues an empty job for an
  image body (`EnqueuesBeforeLookup`), which the model keeps.

## Model

| member | source | states |
|---|---|---|
| Stores.FindUser | utils/user.js:33-36 | `findOne` on users returns the first document matching the filter, and None only when no document matches |
| Stores.FindUserAfterInsert | controllers/UsersController.js:27-34 | a document appended when no earlier one matched the filter is the one `findOne` then returns |
| Stores.FindUserById | utils/user.js:50-51 | the lookup by `_id` finds a user exactly when the id belongs to a stored user; a null id finds none |
| Stores.FindFile | utils/file.js:80-83 | `getFile({ _id })` finds the document exactly when the id is stored |
| Stores.FindOwnedFile | utils/file.js:185-190 | `getFile({ _id, userId })` finds the document exactly when it exists and the given user owns it |
| Stores.ChildrenSound | controllers/FilesController.js:145-146 | every document `$match: { parentId }` yields is stored under its own id with exactly that parent, and ids come in increasing order |
| Stores.ChildrenComplete | controllers/FilesController.js:145-146 | `$match` misses no stored document with the requested parent |
| Stores.Aggregate | controllers/FilesController.js:145-153 | `$skip` then `$limit` returns at most `limit` documents: all that remain after the skip, capped at the limit |
| Stores.DocumentStore.constructor | utils/db.js:18-20 | the model's starting point, an empty database, satisfies the store invariant |
| Stores.DocumentStore.InsertUser | controllers/UsersController.js:31-34 | the user is appended under the next id and the files are untouched |
| Stores.DocumentStore.InsertFile | utils/file.js:137 | the file is appended under the next id and the users are untouched |
| Stores.DocumentStore.SetPublic | utils/file.js:155-162 | `findOneAndUpdate` scoped to id and owner changes only `isPublic` of that one document and returns it updated, or changes nothing when the owner does not match |
| Stores.TokenStore.Set | controllers/AuthController.js:43 | the key is bound to the user id with the given expiry; other keys are untouched |
| Stores.TokenStore.Del | controllers/AuthController.js:59 | exactly that key is removed |
| Stores.Disk.WriteFile | utils/file.js:130-131 | the path holds the written bytes; other paths are untouched |
| Stores.JobQueue.Add | controllers/FilesController.js:67-72 | the job is appended to the queue |
| Text.Split | controllers/AuthController.js:23-26 | `split` yields at least one part and no part contains the separator |
| Text.JoinSplit | controllers/AuthController.js:23-26 | joining the parts of a split gives the original string back |
| Text.SplitWord | controllers/AuthController.js:23-26 | a string without the separator splits into itself |
| Text.SplitAfterWord | controllers/AuthController.js:23-26 | a separator-free word followed by the separator is the first part, and the rest splits independently |
| Text.SplitJoin | controllers/AuthController.js:23-26 | splitting a join of separator-free parts gives the parts back |
| UserUtils.GetUserIdAndKey | utils/user.js:15-25 | the key is always `auth_` followed by the token (`auth_undefined` without one); the user id is the token store's value under it, or null when absent, whether or not that user exists |
| UserUtils.VerifyUser | utils/user.js:43-56 | a user is returned exactly when the token is present and non-empty, no lookup fails, and the stored id names an existing user, whose document is returned |
| UserUtils.Authenticate | controllers/FilesController.js:25-40 | the handlers' prologue yields the id of an existing user bound to the token's key, and nothing otherwise |
| UserUtils.TokenKeyInjective | utils/user.js:22-23 | different tokens have different Redis keys |
| UserUtils.MissingTokenActsAsUndefined | utils/user.js:16-23 | a request without `X-Token` resolves exactly like the token "undefined" |
| UserUtils.VerifyUserAgreesWithAuthenticate | utils/user.js:43-56 | `verifyUser` accepts a token exactly when it is non-empty, no lookup fails and the handlers' prologue accepts it, and both designate the same user |
| UserUtils.StaleTokenStillResolves | utils/user.js:17-24 | a token whose user is gone still yields a user id, but neither `verifyUser` nor the prologue accepts it |
| FileUtils.NormalizeParent | utils/file.js:25-31 | an absent `parentId` or the string "0" becomes 0; any other value is kept |
| FileUtils.ParentError | utils/file.js:40-57 | a falsy parent is never an error; a truthy one gives "Parent not found" exactly when it is not a valid id, is a number (whose `ObjectId` is freshly generated) or is not stored, and "Parent is not a folder" exactly when it is stored but not a folder |
| FileUtils.NumericParentIsNotFound | utils/file.js:44-54 | a non-zero numeric parent is always "Parent not found", whatever is stored |
| FileUtils.ValidateBody | utils/file.js:18-73 | errors come in the fixed order name, type (one of file/image/folder), data (unless folder), parent; each message is reported exactly when its check is the first to fail; the parameters carry the normalised parent and `isPublic` defaulting to false |
| FileUtils.FalsyParentNeedsNoLookup | utils/file.js:40 | with a falsy normalised parent, validation does not depend on the stored files |
| FileUtils.RootUploadIsValid | utils/file.js:25-40 | a body with a name, an allowed type, its data and parent absent, "0" or 0 is valid and lands at the root |
| FileUtils.StoredParent | utils/file.js:107-109 | the stored parent is the root exactly when the parameter is 0; null or a number gives a freshly generated id that names no document; any other value gives `ObjectId(parentId)` |
| FileUtils.NullParentIsFresh | utils/file.js:107-109 | a complete body with a null parent validates without a lookup and is stored under a fresh id, not under any stored folder |
| FileUtils.NewRecord | utils/file.js:104-127 | the record belongs to the caller, keeps name, type, `isPublic` and parent, and has a blob path `<folder>/<uuid>` exactly when it is not a folder |
| FileUtils.ValidParentIsStoredFolder | utils/file.js:40-57 | an upload that validates with a truthy parent is stored under an existing folder |
| FileUtils.ProcessFileDropsOnlyLocalPath | utils/file.js:226-235 | the projection keeps the id and every field but `localPath`; view and path together give the document back |
| FileUtils.SaveFile | utils/file.js:103-147 | a folder is inserted with no disk write; any other type has its decoded data written to `<folder>/<uuid>` and is inserted only after the write succeeds; a failed write gives 400 with its message and changes nothing; undecodable data throws and changes nothing |
| FileUtils.IsOwnerAndPublic | utils/file.js:244-251 | reading is allowed exactly when the file is public or the caller is its owner |
| FileUtils.VariantPathsAreDistinct | utils/file.js:259-263 | without a size the blob path itself is read; a size variant never reads the original, and different sizes read different paths |
| FileUtils.GetFileData | utils/file.js:259-272 | data is returned exactly when the (size-variant) path exists on disk, and it is that path's content; any failed read is 404 "Not found" |
| FileUtils.PublishOutcome | utils/file.js:170-218 | 401 for an invalid file id or a token without a live user; 404 unless the caller owns the file; otherwise 200 with the file as it is after `isPublic := setPublish` |
| FileUtils.PublishIsIdempotent | utils/file.js:192-198 | repeating a publication on the updated collection gives the same answer and changes nothing further |
| FileUtils.PublishSeesOnlyOwnFiles | utils/file.js:185-190 | the answer depends only on the caller's own files: other users' files, existing or not, cannot be told apart |
| FileUtils.PublishUnpublish | utils/file.js:170-218 | the method answers `PublishOutcome`; only `isPublic` of the owned file changes, and only on success |
| AuthController.Credentials | controllers/AuthController.js:19-28 | credentials exist only for a header starting with "Basic "; email and password are non-empty and contain no ':' |
| AuthController.CredentialsRoundTrip | controllers/AuthController.js:23-28 | a header `Basic <field>` whose field decodes to `email:password`, optionally followed by `:`-led text, yields exactly that email and password |
| AuthController.CredentialsFromHeader | controllers/AuthController.js:23-28 | for every header, credentials come from it: its second space-separated field decodes to the email, ':', the password, and possibly more text starting with ':' |
| AuthController.GetConnect | controllers/AuthController.js:17-46 | a bad header or no user with the email and sha1 of the password gives 401 and no change; otherwise token `uuid` is returned and `auth_<uuid>` is bound to the user for 86400 seconds, with nothing else changed |
| AuthController.IssuedTokenResolves | controllers/AuthController.js:39-43 | after a login the new token resolves to the user, and every other token resolves as before |
| AuthController.GetDisconnect | controllers/AuthController.js:54-62 | a token with no stored user id gives 401 and no change; otherwise exactly its key is deleted and 204 is returned |
| AuthController.RevokedTokenIsGone | controllers/AuthController.js:54-62 | after a logout the token no longer resolves, and every other token resolves as before |
| UsersController.ResultProperty | controllers/UsersController.js:31-36 | on an `insertOne` result, `insertedId` reads the new id and `_id` reads `undefined` |
| UsersController.PostNewAsWritten | controllers/UsersController.js:20-42 | as written, a valid fresh registration stores the user and takes the email, yet answers 500 and enqueues an empty job |
| UsersController.PostNew | controllers/UsersController.js:20-42 | "Missing email" before "Missing password" (400); a taken email gives 400 "Already exist" with no insert; a failed store call gives 500 with an empty job; otherwise the user is stored with the sha1 of the password, its id is enqueued and 201 `{email, id}` is returned; emails stay unique |
| UsersController.RegisteredUserCanLogIn | controllers/UsersController.js:31-34 | after registering a fresh email, the login lookup by email and sha1 of the password finds exactly the new user |
| UsersController.GetMe | controllers/UsersController.js:51-60 | 200 with the email and id of the user the token resolves to exactly when no lookup fails and that user exists; 401 when it does not; 500 "Server Error" on a failed lookup |
| FilesController.FolderPath | controllers/FilesController.js:8 | the configured folder when set and non-empty, else `/tmp/files_manager` |
| FilesController.PostUpload | controllers/FilesController.js:23-75 | 401 before any validation or store or disk write, though a token resolving to no user id with an image body first enqueues an empty job; then the validation message (400); an invalid non-zero parent id (400 "Parent not found"); then `saveFile`'s failure code with its message, or, for an empty message, 201 with no body (no answer for an image); on success 201 with the projected new record, the blob written for a non-folder, and a `{fileId, userId}` job only for an image; no record or blob is written on any failure |
| FilesController.GetShow | controllers/FilesController.js:83-110 | 401 without a live user; 200 with the projection exactly when the id is valid and names a file the caller owns; 404 otherwise |
| FilesController.ShowSeesOnlyOwnFiles | controllers/FilesController.js:96-104 | another user's file and a missing one are indistinguishable: the answer depends only on the caller's own files |
| FilesController.IndexParent | controllers/FilesController.js:127-129 | a missing, empty or "0" parent is 0; anything else is kept as given |
| FilesController.PageNumber | controllers/FilesController.js:131-133 | a missing or non-numeric page is 0; otherwise its numeric value |
| FilesController.GetIndex | controllers/FilesController.js:118-162 | 401 without a live user or for an invalid non-zero parent id; 200 `[]` when that parent is not an existing folder; no answer for a negative page; otherwise 200 with the projections of page `page` (skip `20*page`, at most 20) of the files under the parent, of any owner |
| FilesController.ListingIsOnePageOfChildren | controllers/FilesController.js:145-161 | a listed page holds at most 20 entries, each the projection of a stored file with exactly the requested parent, in increasing id order |
| FilesController.PagesCoverChildren | controllers/FilesController.js:145-151 | the first n pages together are exactly the first 20·n matching files: pagination loses and repeats nothing |
| FilesController.SizeParam | controllers/FilesController.js:207 | a missing or empty size reads the original blob; any other size is passed on |
| FilesController.GetFile | controllers/FilesController.js:204-233 | 404 for an invalid id, a missing file or a denied read; 400 "A folder doesn't have content" exactly for a readable folder; 200 exactly for a readable non-folder whose blob exists, with its bytes and content type; 404 otherwise |
| FilesController.PublicContentIgnoresCaller | controllers/FilesController.js:216 | the answer for a public file is the same for every caller and token store |
| FilesController.UploadedContentReadsBack | controllers/FilesController.js:224-232 | after an upload of a non-folder, its owner reading it without a size gets back exactly the bytes that were written |
| FilesController.PublicationResponse | controllers/FilesController.js:170-196 | the status is `publishUnpublish`'s code, and the body is its file on success or `{ error }` otherwise |
| FilesController.PutPublish | controllers/FilesController.js:170-179 | forwards `publishUnpublish` with `true` unchanged: same outcome, same store update |
| FilesController.PutUnpublish | controllers/FilesController.js:187-196 | forwards `publishUnpublish` with `false` unchanged: same outcome, same store update |

## Left out

- Connections and clients. utils/db.js and utils/redis.js are not part of
  this model: the stores are replaced by the classes of `Stores`.
  - Failures of Mongo and Redis calls are modelled only where a handler
    catches them: `postNew`, `getMe` and `verifyUser`.
  - Elsewhere a rejected call rejects the handler's promise, and no failure
    parameter is provided.
  - An `insertOne` failure inside `saveFile` is not modelled.
- Token expiry. The TTL value is recorded, but the passage of time and
  expiry are not modelled.
- `isId`, `ObjectId`, `sha1`, base64 decoding, `Number`, `mime.contentType`
  and `uuidv4` are uninterpreted: see `Foreign` and the uuid parameters.
  `toNumber` yields integers only, so fractional page numbers are not
  modelled.
- FilesController.GetIndex: a page so large that `page * 20` does not fit
  Mongo's 64-bit `$skip` (`"Infinity"`, for instance) makes the aggregate
  reject, so no answer is sent; the model treats every integer page as
  valid and answers 200.
- Filesystem details are not modelled:
  - `mkdir` and `writeFile` are one write, whose failure is a parameter;
  - permissions and partial writes are not modelled;
  - `readFile` failures other than a missing path are not modelled.
- Bull queues are append-only logs. Queue failures and the workers that
  consume the jobs are not modelled.
- At controllers/FilesController.js:62, reading `response.body.type` is not
  modelled. A failed save returns `saveFile`'s code and message.
- Query values are modelled as optional strings. Array-valued query
  parameters and object-valued (query-operator) emails are not modelled.
- Concurrent requests are not modelled. The check of a parent and the
  insert of its child, and the email check and the insert of a user, are
  not atomic in the source.
- controllers/AppController.js (status and counts) and routes/index.js are
  not part of this model.
- Two behaviours a client might expect that the code does not have; the
  model follows the code:
  - Logging out twice is not harmless: the code answers 401 to a token
    that is unknown or already revoked (`GetDisconnect`).
  - Files do not always sit under an existing folder. A truthy parent must
    be an existing folder (`ValidParentIsStoredFolder`). But a `null`
    `parentId` passes validation with no lookup (`NullParentIsFresh`).
    When `isId(null)` holds, as it does for bson, the file is stored under
    `ObjectId(null)`, a freshly generated id that names no folder. The
    model stores it under `Fresh`, so no tree invariant is claimed for
    such files.

## Findings

| source | as written | input that shows it | evidently intended | confidence | as-written member | corrected member |
|---|---|---|---|---|---|---|
| controllers/UsersController.js:35-36 | the new id is read as `newUser._id`, but the `insertOne` result carries it as `insertedId`; `toString()` on `undefined` throws after the user is inserted, so the catch block enqueues `{}` and answers 500 | `POST /users` with a fresh email and a password | answer 201 `{ email, id }` with the inserted id, and enqueue `{ userId }` | high for the MongoDB 3.x driver this client is written for; not executed | UsersController.PostNewAsWritten | UsersController.PostNew |
