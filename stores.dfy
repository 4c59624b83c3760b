/**
 * The external stores the server talks to, reduced to what the core uses:
 * the Mongo `users` and `files` collections (exact-match find, insert,
 * find-and-update), the Redis token store (get, set with expiry, delete),
 * the filesystem (a map from path to bytes) and the Bull job queues (an
 * append-only log). Connections, failures of these clients and time are
 * not modelled here.
 */
module Stores {
  import opened Values

  /** A user document: the password is stored as its sha1 hash. */
  datatype User = User(email: Value, password: string)

  /** A file document; `localPath` is the blob location of a non-folder. */
  datatype FileDoc = FileDoc(
    userId: Id,
    name: Value,
    kind: Value,
    isPublic: Value,
    parentId: Parent,
    localPath: Option<string>)

  /** A job handed to a Bull queue. */
  datatype Job = FileJob(fileId: Id, userId: Id) | UserJob(userId: Id) | EmptyJob

  const Folder: Value := Str("folder")

  /** A folder has no blob; every other record has one. */
  predicate BlobInvariant(d: FileDoc)
  {
    d.localPath.None? <==> d.kind == Folder
  }

  /** No two users share an email. */
  predicate UniqueEmails(users: seq<User>)
  {
    forall i, j :: 0 <= i < j < |users| ==> users[i].email != users[j].email
  }

  /** An exact-match filter on the `users` collection. */
  datatype UserQuery = ByEmail(email: Value) | ByCredentials(email: Value, password: string)

  predicate Matches(u: User, q: UserQuery)
  {
    match q
    case ByEmail(e) => u.email == e
    case ByCredentials(e, p) => u.email == e && u.password == p
  }

  /** `users.findOne(query)`: the first matching document in store order, from `from` on. */
  function FindUser(users: seq<User>, q: UserQuery, from: nat): (r: Option<Id>)
    decreases |users| - from
    ensures r.Some? ==> from <= r.value < |users| && Matches(users[r.value], q)
    ensures r.Some? ==> forall j :: from <= j < r.value ==> !Matches(users[j], q)
    ensures r.None? ==> forall j :: from <= j < |users| ==> !Matches(users[j], q)
  {
    if from >= |users| then None
    else if Matches(users[from], q) then Some(from)
    else FindUser(users, q, from + 1)
  }

  /** A document appended after no earlier match is the one `findOne` returns. */
  lemma {:induction false} FindUserAfterInsert(users: seq<User>, u: User, q: UserQuery, from: nat)
    requires from <= |users|
    requires forall j :: from <= j < |users| ==> !Matches(users[j], q)
    requires Matches(u, q)
    ensures FindUser(users + [u], q, from) == Some(|users|)
    decreases |users| - from
  {
    if from < |users| {
      FindUserAfterInsert(users, u, q, from + 1);
    }
  }

  /**
   * `users.findOne({ _id: ObjectId(userId) })`. A null `userId` makes
   * `ObjectId` generate a fresh id, which matches no document.
   */
  function FindUserById(users: seq<User>, userId: Option<Id>): (r: Option<User>)
    ensures r.Some? <==> userId.Some? && userId.value < |users|
    ensures r.Some? ==> r.value == users[userId.value]
  {
    match userId
    case None => None
    case Some(id) => if id < |users| then Some(users[id]) else None
  }

  /** `files.findOne({ _id })`. */
  function FindFile(files: seq<FileDoc>, id: Id): (r: Option<FileDoc>)
    ensures r.Some? <==> id < |files|
    ensures r.Some? ==> r.value == files[id]
  {
    if id < |files| then Some(files[id]) else None
  }

  /** `files.findOne({ _id, userId })`: the file only when `owner` owns it. */
  function FindOwnedFile(files: seq<FileDoc>, id: Id, owner: Id): (r: Option<FileDoc>)
    ensures r.Some? <==> id < |files| && files[id].userId == owner
    ensures r.Some? ==> r.value == files[id]
  {
    if id < |files| && files[id].userId == owner then Some(files[id]) else None
  }

  /** A document of a cursor, with its id. */
  datatype Stored = Stored(id: Id, doc: FileDoc)

  /** `$match: { parentId }`: the documents under `parent`, in store order. */
  function Children(files: seq<FileDoc>, parent: Parent): seq<Stored>
    decreases |files|
  {
    if |files| == 0 then []
    else
      var n := |files| - 1;
      Children(files[..n], parent) + if files[n].parentId == parent then [Stored(n, files[n])] else []
  }

  /** `s` is the document with id `s.id`, and it is under `parent`. */
  predicate MatchedAt(files: seq<FileDoc>, parent: Parent, s: Stored)
  {
    s.id < |files| && files[s.id] == s.doc && s.doc.parentId == parent
  }

  /** Every matched document is under `parent`, carries its own id, and ids increase. */
  lemma {:induction false} ChildrenSound(files: seq<FileDoc>, parent: Parent)
    ensures forall k :: 0 <= k < |Children(files, parent)| ==> MatchedAt(files, parent, Children(files, parent)[k])
    ensures forall k, l :: 0 <= k < l < |Children(files, parent)| ==>
      Children(files, parent)[k].id < Children(files, parent)[l].id
    decreases |files|
  {
    if |files| > 0 {
      var n := |files| - 1;
      var front := files[..n];
      ChildrenSound(front, parent);
      var c, c' := Children(files, parent), Children(front, parent);
      assert c == c' + if files[n].parentId == parent then [Stored(n, files[n])] else [];
      forall k | 0 <= k < |c'|
        ensures c[k].id < n && MatchedAt(files, parent, c[k])
      {
        assert c[k] == c'[k];
        assert MatchedAt(front, parent, c'[k]);
        assert front[c'[k].id] == files[c'[k].id];
      }
    }
  }

  /** No document under `parent` is missed. */
  lemma {:induction false} ChildrenComplete(files: seq<FileDoc>, parent: Parent, i: nat)
    requires i < |files| && files[i].parentId == parent
    ensures exists k :: 0 <= k < |Children(files, parent)| && Children(files, parent)[k].id == i
    decreases |files|
  {
    var n := |files| - 1;
    var front := files[..n];
    var c, c' := Children(files, parent), Children(front, parent);
    assert c == c' + if files[n].parentId == parent then [Stored(n, files[n])] else [];
    if i < n {
      assert front[i] == files[i];
      ChildrenComplete(front, parent, i);
      var k :| 0 <= k < |c'| && c'[k].id == i;
      assert c[k] == c'[k];
    } else {
      assert c[|c| - 1].id == i;
    }
  }

  /** `[{ $match: { parentId } }, { $skip: skip }, { $limit: limit }]`. */
  function Aggregate(files: seq<FileDoc>, parent: Parent, skip: nat, limit: nat): (r: seq<Stored>)
    ensures |r| <= limit
    ensures var c := Children(files, parent);
      |r| == if skip >= |c| then 0 else if |c| - skip < limit then |c| - skip else limit
  {
    var c := Children(files, parent);
    if skip >= |c| then []
    else if |c| - skip < limit then c[skip..]
    else c[skip..skip + limit]
  }

  /** The Mongo database: the `users` and `files` collections. */
  class DocumentStore {
    var users: seq<User>
    var files: seq<FileDoc>

    ghost predicate Valid()
      reads this
    {
      UniqueEmails(users) && forall i :: 0 <= i < |files| ==> BlobInvariant(files[i])
    }

    /** An empty database. */
    constructor ()
      ensures Valid() && users == [] && files == []
    {
      users := [];
      files := [];
    }

    /** `users.insertOne(u)`; the new document gets the next id. */
    method InsertUser(u: User) returns (id: Id)
      modifies this
      ensures id == |old(users)| && users == old(users) + [u] && files == old(files)
    {
      id := |users|;
      users := users + [u];
    }

    /** `files.insertOne(d)`; the new document gets the next id. */
    method InsertFile(d: FileDoc) returns (id: Id)
      modifies this
      ensures id == |old(files)| && files == old(files) + [d] && users == old(users)
    {
      id := |files|;
      files := files + [d];
    }

    /**
     * `files.findOneAndUpdate({ _id, userId }, { $set: { isPublic } },
     * { returnOriginal: false })`: the updated document, if one matched.
     */
    method SetPublic(id: Id, owner: Id, isPublic: bool) returns (updated: Option<FileDoc>)
      modifies this
      ensures users == old(users)
      ensures updated.Some? <==> id < |old(files)| && old(files)[id].userId == owner
      ensures updated.Some? ==>
        && updated.value == old(files)[id].(isPublic := Bool(isPublic))
        && files == old(files)[id := updated.value]
      ensures updated.None? ==> files == old(files)
    {
      if id < |files| && files[id].userId == owner {
        var d := files[id].(isPublic := Bool(isPublic));
        files := files[id := d];
        updated := Some(d);
      } else {
        updated := None;
      }
    }
  }

  /** The Redis client: `auth_<token>` keys mapped to user ids, with their expiry. */
  class TokenStore {
    var entries: map<string, Id>
    var ttl: map<string, int>

    /** `SETEX key seconds value`. */
    method Set(key: string, value: Id, seconds: int)
      modifies this
      ensures entries == old(entries)[key := value] && ttl == old(ttl)[key := seconds]
    {
      entries := entries[key := value];
      ttl := ttl[key := seconds];
    }

    /** `DEL key`. */
    method Del(key: string)
      modifies this
      ensures entries == old(entries) - {key} && ttl == old(ttl) - {key}
    {
      entries := entries - {key};
      ttl := ttl - {key};
    }
  }

  /** The filesystem, as a map from path to content. */
  class Disk {
    var blobs: map<string, Bytes>

    /** `fsPromises.writeFile(path, data)` after a successful `mkdir`. */
    method WriteFile(path: string, data: Bytes)
      modifies this
      ensures blobs == old(blobs)[path := data]
    {
      blobs := blobs[path := data];
    }
  }

  /** A Bull queue, seen from the producer side: the jobs added so far. */
  class JobQueue {
    var jobs: seq<Job>

    method Add(job: Job)
      modifies this
      ensures jobs == old(jobs) + [job]
    {
      jobs := jobs + [job];
    }
  }
}
