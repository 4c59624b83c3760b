/**
 * utils/file.js: validation of an upload, creation of the file record and
 * its blob, the client projection, the read permission, blob paths of size
 * variants, and publishing.
 */
module FileUtils {
  import opened Values
  import opened Stores
  import opened UserUtils

  const MissingName := "Missing name"
  const MissingType := "Missing type"
  const MissingData := "Missing data"
  const ParentNotFound := "Parent not found"
  const ParentNotFolder := "Parent is not a folder"

  const AllowedTypes: set<Value> := {Str("file"), Str("image"), Folder}

  /** The fields of a `POST /files` body that the server reads. */
  datatype UploadBody = UploadBody(name: Value, kind: Value, parentId: Value, isPublic: Value, data: Value)

  /** `fileParams`: the body after defaults and normalisation. */
  datatype FileParams = FileParams(name: Value, kind: Value, parentId: Value, isPublic: Value, data: Value)

  /** What `validateBody` returns: the first error message (or null) and the parameters. */
  datatype Validation = Validation(error: Option<string>, params: FileParams)

  /** `parentId` defaults to 0 when absent, and the string "0" becomes 0. */
  function NormalizeParent(raw: Value): (p: Value)
    ensures p == Num(0) <==> raw == Undefined || raw == Str("0") || raw == Num(0)
    ensures p != Num(0) ==> p == raw
  {
    if raw == Undefined || raw == Str("0") then Num(0) else raw
  }

  /**
   * The last check of `validateBody`: a truthy `parentId` must be an id of
   * an existing folder. A falsy one is not looked up at all, and a number
   * is looked up under a freshly generated id, which finds nothing.
   */
  function ParentError(files: seq<FileDoc>, parentId: Value, env: Foreign): (e: Option<string>)
    ensures e.Some? ==> Truthy(parentId) && (e.value == ParentNotFound || e.value == ParentNotFolder)
    ensures e == Some(ParentNotFound) <==>
      Truthy(parentId) && (!env.isId(parentId) || GeneratesId(parentId) || env.objectId(parentId) >= |files|)
    ensures e == Some(ParentNotFolder) <==>
      && Truthy(parentId) && env.isId(parentId) && !GeneratesId(parentId)
      && env.objectId(parentId) < |files| && files[env.objectId(parentId)].kind != Folder
  {
    if !Truthy(parentId) then None
    else
      var parent :=
        if env.isId(parentId) && !GeneratesId(parentId) then FindFile(files, env.objectId(parentId)) else None;
      if parent.None? then Some(ParentNotFound)
      else if parent.value.kind != Folder then Some(ParentNotFolder)
      else None
  }

  /**
   * `validateBody`: the checks run in a fixed order and the first one that
   * fails decides the message.
   */
  function ValidateBody(body: UploadBody, files: seq<FileDoc>, env: Foreign): (v: Validation)
    ensures v.params == FileParams(
      body.name, body.kind, NormalizeParent(body.parentId),
      if body.isPublic == Undefined then Bool(false) else body.isPublic, body.data)
    ensures v.error == Some(MissingName) <==> !Truthy(body.name)
    ensures v.error == Some(MissingType) <==> Truthy(body.name) && body.kind !in AllowedTypes
    ensures v.error == Some(MissingData) <==>
      Truthy(body.name) && body.kind in AllowedTypes && body.kind != Folder && !Truthy(body.data)
    ensures Truthy(body.name) && body.kind in AllowedTypes && (body.kind == Folder || Truthy(body.data)) ==>
      v.error == ParentError(files, v.params.parentId, env)
    ensures v.error.None? ==>
      Truthy(body.name) && body.kind in AllowedTypes && (body.kind == Folder || Truthy(body.data))
  {
    var parentId := NormalizeParent(body.parentId);
    var isPublic := if body.isPublic == Undefined then Bool(false) else body.isPublic;
    var error :=
      if !Truthy(body.name) then Some(MissingName)
      else if !Truthy(body.kind) || body.kind !in AllowedTypes then Some(MissingType)
      else if !Truthy(body.data) && body.kind != Folder then Some(MissingData)
      else ParentError(files, parentId, env);
    Validation(error, FileParams(body.name, body.kind, parentId, isPublic, body.data))
  }

  /** A `parentId` that is falsy after normalisation causes no lookup: the store plays no part. */
  lemma FalsyParentNeedsNoLookup(body: UploadBody, files: seq<FileDoc>, others: seq<FileDoc>, env: Foreign)
    requires !Truthy(NormalizeParent(body.parentId))
    ensures ValidateBody(body, files, env) == ValidateBody(body, others, env)
  {
  }

  /** With `parentId` absent, "0" or 0, a body with a name, a known type and its data is valid. */
  lemma RootUploadIsValid(body: UploadBody, files: seq<FileDoc>, env: Foreign)
    requires body.parentId == Undefined || body.parentId == Str("0") || body.parentId == Num(0)
    requires Truthy(body.name) && body.kind in AllowedTypes && (body.kind == Folder || Truthy(body.data))
    ensures ValidateBody(body, files, env).error.None?
    ensures ValidateBody(body, files, env).params.parentId == Num(0)
  {
  }

  /**
   * The stored `parentId`: 0 stays 0, anything else becomes
   * `ObjectId(parentId)`, which for null is a freshly generated id.
   */
  function StoredParent(parentId: Value, env: Foreign): (p: Parent)
    ensures p.Root? <==> parentId == Num(0)
    ensures p.Fresh? <==> parentId != Num(0) && GeneratesId(parentId)
    ensures p.Under? ==> p == Under(env.objectId(parentId))
  {
    if parentId == Num(0) then Root
    else if GeneratesId(parentId) then Fresh
    else Under(env.objectId(parentId))
  }

  /** A truthy numeric parent is never found, whatever the stored files. */
  lemma NumericParentIsNotFound(files: seq<FileDoc>, n: int, env: Foreign)
    requires n != 0
    ensures ParentError(files, Num(n), env) == Some(ParentNotFound)
  {
  }

  /**
   * A null parent passes validation without a lookup and the record is
   * stored under a fresh id, which is no stored folder.
   */
  lemma NullParentIsFresh(body: UploadBody, files: seq<FileDoc>, userId: Id, folder: string,
                          uuid: string, env: Foreign)
    requires body.parentId == Null
    requires Truthy(body.name) && body.kind in AllowedTypes && (body.kind == Folder || Truthy(body.data))
    ensures ValidateBody(body, files, env).error.None?
    ensures NewRecord(userId, ValidateBody(body, files, env).params, folder, uuid, env).parentId == Fresh
  {
  }

  /** Where a blob is written: `${FOLDER_PATH}/${uuid}`. */
  function BlobPath(folder: string, uuid: string): string
  {
    folder + "/" + uuid
  }

  /** The document `saveFile` inserts for `userId`; `uuid` is the freshly generated blob name. */
  function NewRecord(userId: Id, params: FileParams, folder: string, uuid: string, env: Foreign): (d: FileDoc)
    ensures BlobInvariant(d)
    ensures d.userId == userId && d.kind == params.kind && d.parentId == StoredParent(params.parentId, env)
    ensures d.name == params.name && d.isPublic == params.isPublic
    ensures d.localPath.Some? ==> d.localPath.value == BlobPath(folder, uuid)
  {
    FileDoc(
      userId, params.name, params.kind, params.isPublic, StoredParent(params.parentId, env),
      if params.kind == Folder then None else Some(BlobPath(folder, uuid)))
  }

  /**
   * A validated upload with a truthy parent is stored under an existing
   * folder. (A falsy parent other than 0, such as null, is not looked up;
   * see `StoredParent`.)
   */
  lemma ValidParentIsStoredFolder(body: UploadBody, files: seq<FileDoc>, userId: Id, folder: string,
                                  uuid: string, env: Foreign)
    requires ValidateBody(body, files, env).error.None?
    requires Truthy(ValidateBody(body, files, env).params.parentId)
    ensures
      var d := NewRecord(userId, ValidateBody(body, files, env).params, folder, uuid, env);
      d.parentId.Under? && d.parentId.folder < |files| && files[d.parentId.folder].kind == Folder
  {
  }

  /** `processFile`: the client's view of a stored document. */
  function ProcessFile(id: Id, d: FileDoc): (v: FileView)
  {
    FileView(id, d.userId, d.name, d.kind, d.isPublic, d.parentId)
  }

  /** Rebuilds a stored document from its view and its blob path. */
  function Unprocess(v: FileView, localPath: Option<string>): FileDoc
  {
    FileDoc(v.userId, v.name, v.kind, v.isPublic, v.parentId, localPath)
  }

  /**
   * `processFile` keeps the id and every field but `localPath`: the view and
   * the blob path together give back the document, and two documents have
   * the same view exactly when they differ at most in `localPath`.
   */
  lemma ProcessFileDropsOnlyLocalPath(id: Id, d: FileDoc, id': Id, d': FileDoc)
    ensures ProcessFile(id, d).id == id
    ensures Unprocess(ProcessFile(id, d), d.localPath) == d
    ensures ProcessFile(id, d) == ProcessFile(id', d') <==>
      id == id' && d.(localPath := None) == d'.(localPath := None)
  {
  }

  /** What `saveFile` returns. `SaveThrew` is `Buffer.from` throwing outside the try block. */
  datatype SaveResult = Saved(file: FileView) | SaveFailed(error: string, code: int) | SaveThrew

  /**
   * `saveFile`: a folder is inserted as it is; any other type first has its
   * decoded data written to a fresh path, and is inserted only when the
   * write succeeded. `ioError` is the message of a failing `mkdir` or
   * `writeFile`.
   */
  method SaveFile(db: DocumentStore, disk: Disk, userId: Id, params: FileParams, folder: string,
                  uuid: string, ioError: Option<string>, env: Foreign) returns (r: SaveResult)
    requires db.Valid()
    modifies db, disk
    ensures db.Valid() && db.users == old(db.users)
    ensures r.SaveThrew? <==> params.kind != Folder && env.base64Bytes(params.data).None?
    ensures r.SaveFailed? <==> params.kind != Folder && env.base64Bytes(params.data).Some? && ioError.Some?
    ensures r.SaveFailed? ==> r == SaveFailed(ioError.value, 400)
    ensures !r.Saved? ==> db.files == old(db.files) && disk.blobs == old(disk.blobs)
    ensures r.Saved? ==>
      var d := NewRecord(userId, params, folder, uuid, env);
      && db.files == old(db.files) + [d]
      && r.file == ProcessFile(|old(db.files)|, d)
    ensures r.Saved? && params.kind == Folder ==> disk.blobs == old(disk.blobs)
    ensures r.Saved? && params.kind != Folder ==>
      disk.blobs == old(disk.blobs)[BlobPath(folder, uuid) := env.base64Bytes(params.data).value]
  {
    var d := NewRecord(userId, params, folder, uuid, env);
    if params.kind != Folder {
      var decoded := env.base64Bytes(params.data);
      if decoded.None? {
        return SaveThrew;
      }
      if ioError.Some? {
        return SaveFailed(ioError.value, 400);
      }
      disk.WriteFile(BlobPath(folder, uuid), decoded.value);
    }
    var id := db.InsertFile(d);
    r := Saved(ProcessFile(id, d));
  }

  /**
   * `isOwnerAndPublic`, the read permission: denied exactly when the file
   * is private and the caller is absent or not its owner.
   */
  function IsOwnerAndPublic(file: FileDoc, userId: Option<Id>): (ok: bool)
    ensures ok <==> Truthy(file.isPublic) || userId == Some(file.userId)
  {
    !((!Truthy(file.isPublic) && userId.None?)
      || (userId.Some? && file.userId != userId.value && !Truthy(file.isPublic)))
  }

  /**
   * The path `getFileData` reads: `localPath`, or `${localPath}_${size}`
   * when `size` is given. None is `readFile(undefined)`, which rejects.
   */
  function ReadPath(localPath: Option<string>, size: Option<string>): Option<string>
  {
    match size
    case None => localPath
    case Some(s) => Some((if localPath.Some? then localPath.value else "undefined") + "_" + s)
  }

  /** A size variant never reads the original blob, and different sizes read different paths. */
  lemma VariantPathsAreDistinct(localPath: string, s: string, s': string)
    ensures ReadPath(Some(localPath), None) == Some(localPath)
    ensures ReadPath(Some(localPath), Some(s)) != Some(localPath)
    ensures ReadPath(Some(localPath), Some(s)) == ReadPath(Some(localPath), Some(s')) ==> s == s'
  {
    var p, p' := localPath + "_" + s, localPath + "_" + s';
    assert |p| > |localPath|;
    if p == p' {
      assert s == p[|localPath| + 1..];
      assert s' == p'[|localPath| + 1..];
    }
  }

  datatype FileData = Data(bytes: Bytes) | DataError(error: string, code: int)

  /** `getFileData`: the blob at the (size-variant) path; any failed read is 404. */
  function GetFileData(disk: map<string, Bytes>, localPath: Option<string>, size: Option<string>): (r: FileData)
    ensures r.Data? <==> ReadPath(localPath, size).Some? && ReadPath(localPath, size).value in disk
    ensures r.Data? ==> r.bytes == disk[ReadPath(localPath, size).value]
    ensures r.DataError? ==> r == DataError("Not found", 404)
  {
    var path := ReadPath(localPath, size);
    if path.Some? && path.value in disk then Data(disk[path.value]) else DataError("Not found", 404)
  }

  /** What `publishUnpublish` returns: the code, and the updated file or the error. */
  datatype Publication = Published(code: int, file: FileView) | Refused(code: int, error: string)

  /**
   * The decision `publishUnpublish` takes: 401 for an invalid file id or a
   * token without a live user, 404 unless the caller owns the file (a file
   * of another user is indistinguishable from a missing one), otherwise 200
   * with the file as it is after `isPublic := setPublish`.
   */
  function PublishOutcome(users: seq<User>, files: seq<FileDoc>, tokens: map<string, Id>, fileId: string,
                          token: Option<string>, setPublish: bool, env: Foreign): (r: Publication)
    ensures !env.isId(Str(fileId)) ==> r == Refused(401, "Unauthorized")
    ensures Authenticate(users, tokens, token).None? ==> r == Refused(401, "Unauthorized")
    ensures
      var id, uid := env.objectId(Str(fileId)), Authenticate(users, tokens, token);
      env.isId(Str(fileId)) && uid.Some? ==>
        if id < |files| && files[id].userId == uid.value then
          r == Published(200, ProcessFile(id, files[id].(isPublic := Bool(setPublish))))
        else
          r == Refused(404, "Not found")
  {
    if !env.isId(Str(fileId)) then Refused(401, "Unauthorized")
    else
      // A null user id passes `isId` (ObjectId(null) makes a fresh id) and then
      // matches no user, so both of the source's checks end in this one.
      var uid := Authenticate(users, tokens, token);
      if uid.None? then Refused(401, "Unauthorized")
      else
        var id := env.objectId(Str(fileId));
        match FindOwnedFile(files, id, uid.value)
        case None => Refused(404, "Not found")
        case Some(d) => Published(200, ProcessFile(id, d.(isPublic := Bool(setPublish))))
  }

  /** The files collection after a publication: only `isPublic` of that one file changes. */
  function AfterPublication(files: seq<FileDoc>, fileId: string, setPublish: bool, r: Publication, env: Foreign): seq<FileDoc>
  {
    var id := env.objectId(Str(fileId));
    if r.Published? && id < |files| then files[id := files[id].(isPublic := Bool(setPublish))] else files
  }

  /**
   * Publishing is idempotent: repeated on the updated collection it gives
   * the same answer and changes nothing more.
   */
  lemma PublishIsIdempotent(users: seq<User>, files: seq<FileDoc>, tokens: map<string, Id>, fileId: string,
                            token: Option<string>, setPublish: bool, env: Foreign)
    ensures
      var r := PublishOutcome(users, files, tokens, fileId, token, setPublish, env);
      var files' := AfterPublication(files, fileId, setPublish, r, env);
      && PublishOutcome(users, files', tokens, fileId, token, setPublish, env) == r
      && AfterPublication(files', fileId, setPublish, r, env) == files'
  {
  }

  /**
   * The answer to a caller depends only on the caller's own files: two
   * collections that agree on them are indistinguishable.
   */
  lemma PublishSeesOnlyOwnFiles(users: seq<User>, files: seq<FileDoc>, files': seq<FileDoc>, tokens: map<string, Id>,
                                fileId: string, token: Option<string>, setPublish: bool, env: Foreign)
    requires Authenticate(users, tokens, token).Some?
    requires var owner := Authenticate(users, tokens, token).value;
      forall id: Id :: FindOwnedFile(files, id, owner) == FindOwnedFile(files', id, owner)
    ensures PublishOutcome(users, files, tokens, fileId, token, setPublish, env)
         == PublishOutcome(users, files', tokens, fileId, token, setPublish, env)
  {
  }

  /**
   * `publishUnpublish`, performing `PublishOutcome` on the store: on success
   * it runs `findOneAndUpdate` scoped to the owner, and changes nothing else.
   */
  method PublishUnpublish(db: DocumentStore, tokens: map<string, Id>, fileId: string, token: Option<string>,
                          setPublish: bool, env: Foreign) returns (r: Publication)
    requires db.Valid()
    modifies db
    ensures db.Valid() && db.users == old(db.users)
    ensures r == PublishOutcome(old(db.users), old(db.files), tokens, fileId, token, setPublish, env)
    ensures db.files == AfterPublication(old(db.files), fileId, setPublish, r, env)
  {
    if !env.isId(Str(fileId)) {
      return Refused(401, "Unauthorized");
    }
    var uid := Authenticate(db.users, tokens, token);
    if uid.None? {
      return Refused(401, "Unauthorized");
    }
    var id := env.objectId(Str(fileId));
    if FindOwnedFile(db.files, id, uid.value).None? {
      return Refused(404, "Not found");
    }
    var updated := db.SetPublic(id, uid.value, setPublish);
    r := Published(200, ProcessFile(id, updated.value));
  }
}
