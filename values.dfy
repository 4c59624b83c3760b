/**
 * Values shared by every part of the files manager: the JavaScript values
 * that arrive in request bodies and are stored in documents, the foreign
 * functions the server calls but does not define, and HTTP responses.
 */
module Values {

  datatype Option<+T> = None | Some(value: T)

  /** Identity of a stored document. A collection is a sequence indexed by id. */
  type Id = nat

  type Bytes = seq<bv8>

  /**
   * A JavaScript value as parsed from a JSON request body. `Composite`
   * stands for any object or array; `Undefined` is an absent field.
   */
  datatype Value =
    | Undefined
    | Null
    | Bool(b: bool)
    | Num(n: int)
    | Str(s: string)
    | Composite

  /** JavaScript truthiness (`if (v)`). */
  predicate Truthy(v: Value)
  {
    match v
    case Undefined => false
    case Null => false
    case Bool(b) => b
    case Num(n) => n != 0
    case Str(s) => s != ""
    case Composite => true
  }

  /**
   * The library calls the server relies on, left uninterpreted:
   *   isId        -- `validate.isId`: `ObjectId(v)` does not throw
   *   objectId    -- `ObjectId(v)` for a value accepted by isId that names an
   *                  id rather than generating one (see GeneratesId)
   *   sha1        -- the `sha1` package
   *   base64Text  -- `Buffer.from(s, 'base64').toString('utf-8')`
   *   base64Bytes -- `Buffer.from(v, 'base64')`, None when it throws
   *   toNumber    -- `Number(s)`, None for NaN
   *   contentType -- `mime.contentType(name)`
   */
  datatype Foreign = Foreign(
    isId: Value -> bool,
    objectId: Value -> Id,
    sha1: Value -> string,
    base64Text: string -> string,
    base64Bytes: Value -> Option<Bytes>,
    toNumber: string -> Option<int>,
    contentType: Value -> string)

  /**
   * `ObjectId(v)` for null, undefined or a number generates a new id on
   * every call (from the time or the number, and a counter), so such an id
   * names no stored document.
   */
  predicate GeneratesId(v: Value)
  {
    v.Undefined? || v.Null? || v.Num?
  }

  /**
   * Where a file sits: `parentId` 0 (the root), the id of a document, or a
   * freshly generated id, which names no document and no request can name.
   */
  datatype Parent = Root | Under(folder: Id) | Fresh

  /** A file document as the client sees it: `_id` renamed to `id`, no `localPath`. */
  datatype FileView = FileView(id: Id, userId: Id, name: Value, kind: Value, isPublic: Value, parentId: Parent)

  datatype Body =
    | ErrorBody(error: string)        // `{ error }`
    | TextBody(text: string)          // a bare string
    | FileBody(file: FileView)
    | ListBody(files: seq<FileView>)
    | UserBody(email: Value, id: Id)  // `{ email, id }`
    | TokenBody(token: string)        // `{ token }`
    | ContentBody(contentType: string, data: Bytes)
    | NoBody

  /**
   * What a request handler sends. `NoResponse` is a handler whose promise
   * rejects before it sends anything.
   */
  datatype Response = Response(status: int, body: Body) | NoResponse

  const Unauthorized := Response(401, ErrorBody("Unauthorized"))
  const NotFound := Response(404, ErrorBody("Not found"))
}
