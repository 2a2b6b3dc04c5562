/** The two request handlers as functions of the store's key/value table:
    `POST /` validates the body's `url`, inserts `id -> url` and answers with
    the short URL; `GET /:shortId` looks the id up and redirects or answers
    404. The lemmas state the round trip, the error paths and the frame. */
module Handlers {
  import opened Wrappers
  import opened JsValues
  import opened ShortIds

  /** The `error` field of the 400 answer to a create request. */
  const InvalidUrlError: string := "Invalid URL format"

  /** The `error` field of the 404 answer to a resolve request. */
  const NotFoundError: string := "URL not found"

  /** What `POST /` answers. `Created` is `200 {"shortUrl": ...}`,
      `BadRequest` is `400 {"error": ...}`; `Threw` is the handler throwing a
      TypeError while reading `url` off an undefined or null body, which
      Express's default error handler turns into a 500. */
  datatype CreateResponse =
    | Created(shortUrl: string)
    | BadRequest(error: string)
    | Threw

  /** What `GET /:shortId` answers: a 302 redirect to the stored value, or
      `404 {"error": ...}`. */
  datatype ResolveResponse =
    | Redirect(target: JsValue)
    | NotFound(error: string)

  /** The answer to a create request together with the table afterwards. */
  datatype CreateOutcome = CreateOutcome(response: CreateResponse, entries: map<string, JsValue>)

  /** `req.body.url`: reading a property off `undefined` or `null` throws
      (None); an object yields its own `url` (no built-in prototype has a `url`
      member); any other value yields `undefined`. */
  function BodyUrl(body: JsValue): (url: Option<JsValue>)
    ensures url.None? <==> body.Undefined? || body.Null?
    ensures body.Obj? && "url" in body.fields ==> url == Some(body.fields["url"])
    ensures url.Some? && !(body.Obj? && "url" in body.fields) ==> url.value == Undefined
  {
    match body
    case Undefined => None
    case Null => None
    case Obj(fields) => Some(if "url" in fields then fields["url"] else Undefined)
    case _ => Some(Undefined)
  }

  /** The create handler's guard: a value passes unless it is falsy or its
      `typeof` is not "string". Exactly the non-empty strings pass. */
  function ValidUrl(v: JsValue): (ok: bool)
    ensures ok <==> v.Str? && v.s != ""
  {
    Truthy(v) && TypeOf(v) == "string"
  }

  /** `POST /` against the table `entries`, with `id` the identifier the
      generator returns for this request and `port` the advertised port. */
  function HandleCreate(entries: map<string, JsValue>, port: string, body: JsValue, id: string): (o: CreateOutcome)
    requires ValidId(id)
    ensures o.response.Threw? <==> body.Undefined? || body.Null?
    ensures o.response.BadRequest? ==> o.response.error == InvalidUrlError
    ensures o.response.Created? ==>
      LastSegment(o.response.shortUrl) == id && id in o.entries &&
      o.entries[id].Str? && o.entries[id].s != "" &&
      BodyUrl(body) == Some(o.entries[id]) && o.entries == entries[id := o.entries[id]]
    ensures !o.response.Created? ==> o.entries == entries
  {
    match BodyUrl(body)
    case None => CreateOutcome(Threw, entries)
    case Some(url) =>
      if !ValidUrl(url) then CreateOutcome(BadRequest(InvalidUrlError), entries)
      else CreateOutcome(Created(ShortUrl(port, id)), entries[id := url])
  }

  /** Reading `key` off the store object as the resolve handler does: an own
      property wins, otherwise a member inherited from `Object.prototype` is
      found, otherwise `undefined`. */
  function PropertyAsWritten(entries: map<string, JsValue>, key: string): (v: JsValue)
    ensures key in entries ==> v == entries[key]
    ensures key !in entries ==> (Truthy(v) <==> key in ObjectPrototypeMembers)
  {
    if key in entries then entries[key]
    else if key in ObjectPrototypeMembers then Inherited(key)
    else Undefined
  }

  /** `GET /:shortId` as written: any truthy value found under the id,
      inherited ones included, is redirected to. */
  function HandleResolveAsWritten(entries: map<string, JsValue>, id: string): (r: ResolveResponse)
    ensures r.Redirect? <==> (id in entries && Truthy(entries[id])) || (id !in entries && id in ObjectPrototypeMembers)
    ensures r.Redirect? && id in entries ==> r.target == entries[id]
    ensures r.NotFound? ==> r.error == NotFoundError
  {
    var url := PropertyAsWritten(entries, id);
    if Truthy(url) then Redirect(url) else NotFound(NotFoundError)
  }

  /** `GET /:shortId` reading own entries only: it redirects exactly when the
      table holds a truthy value under the id, and then to that value. */
  function HandleResolve(entries: map<string, JsValue>, id: string): (r: ResolveResponse)
    ensures r.Redirect? <==> id in entries && Truthy(entries[id])
    ensures r.Redirect? ==> r.target == entries[id]
    ensures r.NotFound? ==> r.error == NotFoundError
  {
    var url := if id in entries then entries[id] else Undefined;
    if Truthy(url) then Redirect(url) else NotFound(NotFoundError)
  }

  /** A create request succeeds exactly when the body's `url` is a non-empty
      string; otherwise it answers 400 (or throws, for a missing body) and the
      table is left as it was. */
  lemma CreateAcceptsExactlyNonEmptyStrings(entries: map<string, JsValue>, port: string, body: JsValue, id: string)
    requires ValidId(id)
    ensures var o := HandleCreate(entries, port, body, id);
      o.response.Created? <==> BodyUrl(body).Some? && BodyUrl(body).value.Str? && BodyUrl(body).value.s != ""
    ensures var o := HandleCreate(entries, port, body, id);
      !o.response.Created? ==> o.entries == entries
  {
  }

  /** A body whose `url` is missing, empty or not a string gets
      `400 {"error": "Invalid URL format"}` and the table is unchanged. */
  lemma CreateRejectsInvalidUrl(entries: map<string, JsValue>, port: string, body: JsValue, id: string)
    requires ValidId(id)
    requires BodyUrl(body).Some? && !(BodyUrl(body).value.Str? && BodyUrl(body).value.s != "")
    ensures HandleCreate(entries, port, body, id) == CreateOutcome(BadRequest("Invalid URL format"), entries)
  {
  }

  /** An undefined or null body makes the handler throw before it touches
      the table. */
  lemma CreateThrowsWithoutBody(entries: map<string, JsValue>, port: string, body: JsValue, id: string)
    requires ValidId(id)
    requires body.Undefined? || body.Null?
    ensures HandleCreate(entries, port, body, id) == CreateOutcome(Threw, entries)
  {
  }

  /** Round trip: creating with a non-empty string `u` answers
      `http://localhost:<port>/<id>`, and resolving the trailing segment of
      that URL redirects to exactly `u`. */
  lemma CreateThenResolve(entries: map<string, JsValue>, port: string, body: JsValue, id: string, u: string)
    requires ValidId(id)
    requires BodyUrl(body) == Some(Str(u)) && u != ""
    ensures var o := HandleCreate(entries, port, body, id);
      o.response == Created("http://localhost:" + port + "/" + id) &&
      HandleResolve(o.entries, LastSegment(o.response.shortUrl)) == Redirect(Str(u))
  {
  }

  /** A create changes the entry for the generated id and nothing else:
      every other key keeps its presence and its value. */
  lemma CreateOnlyTouchesId(entries: map<string, JsValue>, port: string, body: JsValue, id: string)
    requires ValidId(id)
    ensures var o := HandleCreate(entries, port, body, id);
      o.entries.Keys <= entries.Keys + {id} &&
      forall k :: k != id ==> (k in o.entries <==> k in entries) && (k in entries ==> o.entries[k] == entries[k])
  {
  }

  /** There is no uniqueness check: a second create that draws an id already
      in the table overwrites it, and the last write wins. */
  lemma CreateLastWriteWins(entries: map<string, JsValue>, port: string, first: JsValue, second: JsValue,
                            id: string, u1: string, u2: string)
    requires ValidId(id)
    requires BodyUrl(first) == Some(Str(u1)) && u1 != ""
    requires BodyUrl(second) == Some(Str(u2)) && u2 != ""
    ensures var o1 := HandleCreate(entries, port, first, id);
      var o2 := HandleCreate(o1.entries, port, second, id);
      o2.response == o1.response &&
      o2.entries == entries[id := Str(u2)] &&
      HandleResolve(o2.entries, id) == Redirect(Str(u2))
  {
  }

  /** As written, the resolve handler redirects a request for any member
      name of `Object.prototype` that the table does not hold, where a 404 is
      meant. */
  lemma InheritedNameRedirects(entries: map<string, JsValue>, name: string)
    requires name in ObjectPrototypeMembers && name !in entries
    ensures HandleResolveAsWritten(entries, name) == Redirect(Inherited(name))
    ensures HandleResolve(entries, name) == NotFound(NotFoundError)
  {
  }

  /** The concrete instance: on an empty store `GET /toString` redirects. */
  lemma ToStringRedirectsOnEmptyStore()
    ensures HandleResolveAsWritten(map[], "toString").Redirect?
    ensures HandleResolve(map[], "toString") == NotFound("URL not found")
  {
  }

  /** Everywhere else the two readings agree: the only difference is the
      inherited member names absent from the table. */
  lemma ResolveAsWrittenAgreesElsewhere(entries: map<string, JsValue>, id: string)
    requires id in entries || id !in ObjectPrototypeMembers
    ensures HandleResolveAsWritten(entries, id) == HandleResolve(entries, id)
  {
  }
}
