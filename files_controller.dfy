/**
 * controllers/FilesController.js: uploading (`POST /files`), showing one
 * file (`GET /files/:id`), listing a folder (`GET /files`), publishing and
 * unpublishing, and reading a file's content.
 */
module FilesController {
  import opened Values
  import opened Stores
  import opened UserUtils
  import opened FileUtils

  const DefaultFolderPath := "/tmp/files_manager"
  const PageSize := 20
  const ImageType := Str("image")
  const FolderHasNoContent := "A folder doesn't have content"

  /** `FOLDER_PATH`: the configured directory, or the default when unset or empty. */
  function FolderPath(setting: Option<string>): (path: string)
    ensures setting.Some? && setting.value != "" ==> path == setting.value
    ensures setting.None? || setting.value == "" ==> path == DefaultFolderPath
  {
    if setting.Some? && setting.value != "" then setting.value else DefaultFolderPath
  }

  /**
   * The enqueue `postUpload` makes before looking the user up: a token that
   * resolves to no user id yields null, which passes `isId`, and an image
   * body then adds an empty job although the request is refused.
   */
  predicate EnqueuesBeforeLookup(tokens: map<string, Id>, token: Option<string>, body: UploadBody, env: Foreign)
  {
    GetUserIdAndKey(tokens, token).userId.None? && env.isId(Null) && body.kind == ImageType
  }

  /**
   * `postUpload`: 401 before any validation or write, then the validation
   * message, then `saveFile`. Only a successful image upload enqueues a
   * thumbnail job. `uuid` is the generated blob name and `ioError` a failing
   * write; an empty message is falsy, so the handler carries on as after a
   * success with `newFile` undefined.
   */
  method PostUpload(db: DocumentStore, disk: Disk, fileQueue: JobQueue, tokens: map<string, Id>,
                    token: Option<string>, body: UploadBody, folderSetting: Option<string>,
                    uuid: string, ioError: Option<string>, env: Foreign) returns (r: Response)
    requires db.Valid()
    modifies db, disk, fileQueue
    ensures db.Valid() && db.users == old(db.users)
    ensures Authenticate(old(db.users), tokens, token).None? ==>
      && r == Unauthorized
      && fileQueue.jobs == old(fileQueue.jobs) + if EnqueuesBeforeLookup(tokens, token, body, env) then [EmptyJob] else []
    ensures
      var uid, v := Authenticate(old(db.users), tokens, token), ValidateBody(body, old(db.files), env);
      uid.Some? ==>
        if v.error.Some? then
          r == Response(400, ErrorBody(v.error.value))
        else if v.params.parentId != Num(0) && !env.isId(v.params.parentId) then
          r == Response(400, ErrorBody(ParentNotFound))
        else if body.kind != Folder && env.base64Bytes(body.data).None? then
          r == NoResponse
        else if body.kind != Folder && ioError.Some? && ioError.value != "" then
          r == Response(400, TextBody(ioError.value))
        else if body.kind != Folder && ioError == Some("") then
          r == if body.kind == ImageType then NoResponse else Response(201, NoBody)
        else
          var folder := FolderPath(folderSetting);
          var d, id := NewRecord(uid.value, v.params, folder, uuid, env), |old(db.files)|;
          && r == Response(201, FileBody(ProcessFile(id, d)))
          && db.files == old(db.files) + [d]
          && disk.blobs == (if body.kind == Folder then old(disk.blobs)
                            else old(disk.blobs)[BlobPath(folder, uuid) := env.base64Bytes(body.data).value])
          && fileQueue.jobs == old(fileQueue.jobs) + if body.kind == ImageType then [FileJob(id, uid.value)] else []
    ensures !(r.Response? && r.body.FileBody?) ==> db.files == old(db.files) && disk.blobs == old(disk.blobs)
    ensures Authenticate(old(db.users), tokens, token).Some? && !(r.Response? && r.body.FileBody?) ==>
      fileQueue.jobs == old(fileQueue.jobs)
  {
    var userId := GetUserIdAndKey(tokens, token).userId;
    if userId.None? && !env.isId(Null) {
      return Unauthorized;
    }
    if userId.None? && body.kind == ImageType {
      fileQueue.Add(EmptyJob);
    }
    // `ObjectId(null)` makes a fresh id, which matches no user.
    var uid := Authenticate(db.users, tokens, token);
    if uid.None? {
      return Unauthorized;
    }
    var v := ValidateBody(body, db.files, env);
    if v.error.Some? {
      return Response(400, ErrorBody(v.error.value));
    }
    if v.params.parentId != Num(0) && !env.isId(v.params.parentId) {
      return Response(400, ErrorBody(ParentNotFound));
    }
    var saved := SaveFile(db, disk, uid.value, v.params, FolderPath(folderSetting), uuid, ioError, env);
    match saved
    case SaveThrew =>
      r := NoResponse;
    case SaveFailed(error, code) =>
      if error != "" {
        r := Response(code, TextBody(error));
      } else if v.params.kind == ImageType {
        // `newFile.id` on undefined throws.
        r := NoResponse;
      } else {
        r := Response(201, NoBody);
      }
    case Saved(file) =>
      if v.params.kind == ImageType {
        fileQueue.Add(FileJob(file.id, file.userId));
      }
      r := Response(201, FileBody(file));
  }

  /**
   * `getShow`: the file is looked up by id and owner together, so another
   * user's file and a missing one both give 404.
   */
  function GetShow(users: seq<User>, files: seq<FileDoc>, tokens: map<string, Id>, token: Option<string>,
                   fileId: string, env: Foreign): (r: Response)
    ensures Authenticate(users, tokens, token).None? ==> r == Unauthorized
    ensures
      var uid, id := Authenticate(users, tokens, token), env.objectId(Str(fileId));
      uid.Some? ==>
        if env.isId(Str(fileId)) && id < |files| && files[id].userId == uid.value then
          r == Response(200, FileBody(ProcessFile(id, files[id])))
        else
          r == NotFound
  {
    var uid := Authenticate(users, tokens, token);
    if uid.None? then Unauthorized
    // `isId(userId)` holds here: the id is that of an existing user.
    else if !env.isId(Str(fileId)) then NotFound
    else
      var id := env.objectId(Str(fileId));
      match FindOwnedFile(files, id, uid.value)
      case None => NotFound
      case Some(d) => Response(200, FileBody(ProcessFile(id, d)))
  }

  /**
   * What `getShow` answers depends only on the caller's own files: other
   * users' files, existing or not, cannot be told apart.
   */
  lemma ShowSeesOnlyOwnFiles(users: seq<User>, files: seq<FileDoc>, files': seq<FileDoc>, tokens: map<string, Id>,
                             token: Option<string>, fileId: string, env: Foreign)
    requires Authenticate(users, tokens, token).Some?
    requires var owner := Authenticate(users, tokens, token).value;
      forall id: Id :: FindOwnedFile(files, id, owner) == FindOwnedFile(files', id, owner)
    ensures GetShow(users, files, tokens, token, fileId, env) == GetShow(users, files', tokens, token, fileId, env)
  {
  }

  /** `request.query.parentId || '0'`, with "0" becoming 0. */
  function IndexParent(query: Option<string>): (p: Value)
    ensures p == Num(0) <==> query.None? || query.value == "" || query.value == "0"
    ensures p != Num(0) ==> p == Str(query.value)
  {
    if query.None? || query.value == "" || query.value == "0" then Num(0) else Str(query.value)
  }

  /** `Number(request.query.page) || 0`: NaN and a missing page are 0. */
  function PageNumber(query: Option<string>, env: Foreign): (page: int)
    ensures query.None? ==> page == 0
    ensures query.Some? && env.toNumber(query.value).None? ==> page == 0
    ensures query.Some? && env.toNumber(query.value).Some? ==> page == env.toNumber(query.value).value
  {
    match query
    case None => 0
    case Some(s) => match env.toNumber(s) case None => 0 case Some(n) => n
  }

  /** The projection of every document of a cursor. */
  function Views(cursor: seq<Stored>): seq<FileView>
  {
    seq(|cursor|, k requires 0 <= k < |cursor| => ProcessFile(cursor[k].id, cursor[k].doc))
  }

  /**
   * `getIndex`: the page `page` (20 per page) of the documents whose
   * `parentId` is the requested one, of any owner, each through
   * `processFile`. A non-zero parent that is not an existing folder gives
   * an empty list; a negative page makes Mongo reject the `$skip`, and no
   * response is sent.
   */
  method GetIndex(db: DocumentStore, tokens: map<string, Id>, token: Option<string>,
                  parentQuery: Option<string>, pageQuery: Option<string>, env: Foreign) returns (r: Response)
    ensures Authenticate(db.users, tokens, token).None? ==> r == Unauthorized
    ensures
      var p, page := IndexParent(parentQuery), PageNumber(pageQuery, env);
      Authenticate(db.users, tokens, token).Some? ==>
        if p != Num(0) && !env.isId(p) then
          r == Unauthorized
        else if p != Num(0) && !(env.objectId(p) < |db.files| && db.files[env.objectId(p)].kind == Folder) then
          r == Response(200, ListBody([]))
        else if page < 0 then
          r == NoResponse
        else
          r == Response(200, ListBody(Views(Aggregate(db.files, StoredParent(p, env), page * PageSize, PageSize))))
  {
    var uid := Authenticate(db.users, tokens, token);
    if uid.None? {
      return Unauthorized;
    }
    var p := IndexParent(parentQuery);
    var page := PageNumber(pageQuery, env);
    if p != Num(0) {
      if !env.isId(p) {
        return Unauthorized;
      }
      var folder := FindFile(db.files, env.objectId(p));
      if folder.None? || folder.value.kind != Folder {
        return Response(200, ListBody([]));
      }
    }
    if page < 0 {
      return NoResponse;
    }
    var cursor := Aggregate(db.files, StoredParent(p, env), page * PageSize, PageSize);
    var list: seq<FileView> := [];
    var i := 0;
    while i < |cursor|
      invariant 0 <= i <= |cursor|
      invariant |list| == i
      invariant forall k :: 0 <= k < i ==> list[k] == ProcessFile(cursor[k].id, cursor[k].doc)
    {
      list := list + [ProcessFile(cursor[i].id, cursor[i].doc)];
      i := i + 1;
    }
    assert list == Views(cursor);
    r := Response(200, ListBody(list));
  }

  /**
   * A listed page holds at most 20 files, each the projection of a stored
   * document under the requested parent, in increasing id order.
   */
  lemma ListingIsOnePageOfChildren(files: seq<FileDoc>, parent: Parent, page: nat)
    ensures var list := Views(Aggregate(files, parent, page * PageSize, PageSize));
      && |list| <= PageSize
      && (forall k :: 0 <= k < |list| ==>
            list[k].id < |files| && list[k] == ProcessFile(list[k].id, files[list[k].id]) && list[k].parentId == parent)
      && (forall k, l :: 0 <= k < l < |list| ==> list[k].id < list[l].id)
  {
    ChildrenSound(files, parent);
    var c := Children(files, parent);
    var cursor := Aggregate(files, parent, page * PageSize, PageSize);
    forall k | 0 <= k < |cursor|
      ensures cursor[k] == c[page * PageSize + k]
    {
    }
  }

  /** The first `n` pages, one after the other. */
  function Pages(files: seq<FileDoc>, parent: Parent, n: nat): seq<Stored>
  {
    if n == 0 then [] else Pages(files, parent, n - 1) + Aggregate(files, parent, (n - 1) * PageSize, PageSize)
  }

  /**
   * Pagination loses and repeats nothing: the first `n` pages together are
   * the first `20 * n` children (all of them once `n` is large enough).
   */
  lemma {:induction false} PagesCoverChildren(files: seq<FileDoc>, parent: Parent, n: nat)
    ensures var c := Children(files, parent);
      Pages(files, parent, n) == c[..if n * PageSize < |c| then n * PageSize else |c|]
  {
    if n > 0 {
      PagesCoverChildren(files, parent, n - 1);
      var c := Children(files, parent);
      var lo := if (n - 1) * PageSize < |c| then (n - 1) * PageSize else |c|;
      var hi := if n * PageSize < |c| then n * PageSize else |c|;
      assert n * PageSize == (n - 1) * PageSize + PageSize;
      if (n - 1) * PageSize >= |c| {
        assert lo == hi == |c|;
      } else if |c| - (n - 1) * PageSize < PageSize {
        assert hi == |c|;
      } else {
        assert hi == (n - 1) * PageSize + PageSize;
      }
      assert Aggregate(files, parent, (n - 1) * PageSize, PageSize) == c[lo..hi];
      assert c[..lo] + c[lo..hi] == c[..hi];
    }
  }

  /** `request.query.size || 0`: an empty or missing size reads the original blob. */
  function SizeParam(query: Option<string>): (size: Option<string>)
    ensures size.Some? <==> query.Some? && query.value != ""
    ensures size.Some? ==> size == query
  {
    if query.Some? && query.value != "" then query else None
  }

  /**
   * `getFile`: the file is looked up by id alone and then checked with
   * `isOwnerAndPublic`; a failed check is 404, like a missing file. The
   * caller's user is not required to exist.
   */
  function GetFile(files: seq<FileDoc>, disk: map<string, Bytes>, tokens: map<string, Id>, token: Option<string>,
                   fileId: string, sizeQuery: Option<string>, env: Foreign): (r: Response)
    ensures r.Response?
    ensures
      var uid, id := GetUserIdAndKey(tokens, token).userId, env.objectId(Str(fileId));
      var readable := env.isId(Str(fileId)) && id < |files| && IsOwnerAndPublic(files[id], uid);
      && (!readable ==> r == NotFound)
      && (r.status == 400 <==> readable && files[id].kind == Folder)
      && (r.status == 400 ==> r.body == ErrorBody(FolderHasNoContent))
      && (r.status == 200 <==>
            && readable && files[id].kind != Folder
            && GetFileData(disk, files[id].localPath, SizeParam(sizeQuery)).Data?)
      && (r.status == 200 ==>
            r.body == ContentBody(env.contentType(files[id].name),
                                  GetFileData(disk, files[id].localPath, SizeParam(sizeQuery)).bytes))
      && (r.status != 200 && r.status != 400 ==> r == NotFound)
  {
    var uid := GetUserIdAndKey(tokens, token).userId;
    if !env.isId(Str(fileId)) then NotFound
    else
      var id := env.objectId(Str(fileId));
      var file := FindFile(files, id);
      if file.None? || !IsOwnerAndPublic(file.value, uid) then NotFound
      else if file.value.kind == Folder then Response(400, ErrorBody(FolderHasNoContent))
      else match GetFileData(disk, file.value.localPath, SizeParam(sizeQuery))
        case DataError(error, code) => Response(code, ErrorBody(error))
        case Data(bytes) => Response(200, ContentBody(env.contentType(file.value.name), bytes))
  }

  /** The content of a public file is the same for every caller, with or without a token. */
  lemma PublicContentIgnoresCaller(files: seq<FileDoc>, disk: map<string, Bytes>, tokens: map<string, Id>,
                                   token: Option<string>, tokens': map<string, Id>, token': Option<string>,
                                   fileId: string, sizeQuery: Option<string>, env: Foreign)
    requires env.objectId(Str(fileId)) < |files| && Truthy(files[env.objectId(Str(fileId))].isPublic)
    ensures GetFile(files, disk, tokens, token, fileId, sizeQuery, env)
         == GetFile(files, disk, tokens', token', fileId, sizeQuery, env)
  {
  }

  /**
   * Upload then download: after a successful upload of a non-folder, its
   * owner reading the returned id without a size gets exactly the decoded
   * data back.
   */
  lemma UploadedContentReadsBack(files: seq<FileDoc>, disk: map<string, Bytes>, tokens: map<string, Id>,
                                 token: Option<string>, params: FileParams, folder: string, uuid: string,
                                 data: Bytes, fileId: string, env: Foreign)
    requires params.kind != Folder
    requires GetUserIdAndKey(tokens, token).userId.Some?
    requires env.isId(Str(fileId)) && env.objectId(Str(fileId)) == |files|
    ensures
      var owner := GetUserIdAndKey(tokens, token).userId.value;
      var d := NewRecord(owner, params, folder, uuid, env);
      GetFile(files + [d], disk[BlobPath(folder, uuid) := data], tokens, token, fileId, None, env)
        == Response(200, ContentBody(env.contentType(params.name), data))
  {
  }

  /** `putPublish` and `putUnpublish` answer with the code and the file or error of `publishUnpublish`. */
  function PublicationResponse(p: Publication): (r: Response)
    ensures r.Response? && r.status == p.code
    ensures r.body.FileBody? <==> p.Published?
    ensures p.Published? ==> r.body == FileBody(p.file)
    ensures p.Refused? ==> r.body == ErrorBody(p.error)
  {
    match p
    case Published(code, file) => Response(code, FileBody(file))
    case Refused(code, error) => Response(code, ErrorBody(error))
  }

  /** `putPublish`: `publishUnpublish` with `true`, forwarded unchanged. */
  method PutPublish(db: DocumentStore, tokens: map<string, Id>, token: Option<string>, fileId: string,
                    env: Foreign) returns (r: Response)
    requires db.Valid()
    modifies db
    ensures db.Valid() && db.users == old(db.users)
    ensures
      var p := PublishOutcome(old(db.users), old(db.files), tokens, fileId, token, true, env);
      r == PublicationResponse(p) && db.files == AfterPublication(old(db.files), fileId, true, p, env)
  {
    var p := PublishUnpublish(db, tokens, fileId, token, true, env);
    r := PublicationResponse(p);
  }

  /** `putUnpublish`: `publishUnpublish` with `false`, forwarded unchanged. */
  method PutUnpublish(db: DocumentStore, tokens: map<string, Id>, token: Option<string>, fileId: string,
                      env: Foreign) returns (r: Response)
    requires db.Valid()
    modifies db
    ensures db.Valid() && db.users == old(db.users)
    ensures
      var p := PublishOutcome(old(db.users), old(db.files), tokens, fileId, token, false, env);
      r == PublicationResponse(p) && db.files == AfterPublication(old(db.files), fileId, false, p, env)
  {
    var p := PublishUnpublish(db, tokens, fileId, token, false, env);
    r := PublicationResponse(p);
  }
}
