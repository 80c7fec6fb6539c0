/**
 * The parsed Postman collection, as the converter reads it. Every field the
 * converter looks up with `get` is an `Option`: `None` is an absent key.
 */
module Postman {
  import opened Wrappers

  /** A JSON value as `json.loads` returns it; a number keeps its source text. */
  datatype Json =
    | JNull
    | JBool(b: bool)
    | JNumber(text: string)
    | JString(s: string)
    | JArray(elems: seq<Json>)
    | JObject(members: seq<(string, Json)>)

  /** One `{key, value}` pair of the collection's `variable` list. */
  datatype Variable = Variable(key: Option<string>, value: Option<string>)

  /** The collection's `info` object; only its `name` is read. */
  datatype Info = Info(name: Option<string>)

  /** A request's `url`: an object with a `path` segment list, or a plain string. */
  datatype Url = UrlObject(path: Option<seq<string>>) | UrlString(raw: string)

  /** A request's `body`; only its `raw` text is read. */
  datatype Body = Body(raw: Option<string>)

  datatype Request = Request(httpMethod: Option<string>, url: Option<Url>, body: Option<Body>)

  /**
   * A node of the collection tree. A top-level node is read as a folder
   * (`name`, `item`); a node inside a folder is read as a request
   * (`name`, `description`, `request`).
   */
  datatype Item = Item(
    name: Option<string>,
    description: Option<string>,
    request: Option<Request>,
    item: Option<seq<Item>>)

  /** The whole collection document. */
  datatype Collection = Collection(
    info: Option<Info>,
    description: Option<string>,
    variable: Option<seq<Variable>>,
    item: Option<seq<Item>>)

  /**
   * The points at which the converter raises and the run stops: a missing
   * object whose `get` is called, a string where an object is expected, a
   * `None` concatenated to text or iterated over, or a body that is not JSON.
   */
  datatype Error =
    | NoRequest        // `request.get` on a missing request
    | NoUrl            // `url.get` on a missing url
    | UrlIsString      // `url.get` on a url given as a plain string
    | NoBody           // `body.get` on a POST/PUT without body
    | NoRawBody        // `json.loads(None)` on a body without raw text
    | InvalidJsonBody  // `json.loads` rejects the raw text
    | DomainIsNone     // `'HOST: ' + None`
    | NameIsNone       // `'# ' + None`
    | FoldersIsNone    // `for folder in None`
}
