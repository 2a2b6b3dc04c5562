# URL shortener: store and request handlers

A model of the core of a minimal URL-shortening HTTP service (`index.js`).
The service keeps one key/value table, the *store*, that maps an 8-character
short id to the URL it stands for. It has two routes:

- `POST /` reads `url` from the JSON body. The value must be truthy and a
  string. The handler draws an id of 8 symbols over a 62-symbol alphabet,
  stores `id -> url` and answers `{"shortUrl": "http://localhost:<PORT>/<id>"}`.
  Any other readable `url` gets `400 {"error": "Invalid URL format"}`; a
  missing (undefined or null) body makes the handler throw, which Express
  answers with a 500.
- `GET /:shortId` looks the id up. A truthy value gets a redirect to it;
  anything else gets `404 {"error": "URL not found"}`.

At startup the store is replaced wholesale by the parsed contents of the
backing file. A read or parse failure is logged and leaves the store as it was.

Modules:

- `Wrappers`: `Option`.
- `JsValues`: the JavaScript values a parsed body or a loaded store can hold,
  truthiness, `typeof`, and the names every plain object inherits from
  `Object.prototype`.
- `ShortIds`: the id alphabet and length, the id shape `ValidId`, the
  `PORT || 3000` fallback, the short-URL template and its trailing path segment.
- `Handlers`: both handlers as pure functions of the table (`HandleCreate`,
  `HandleResolve`), plus the lemmas about them.
- `Store`: the class `UrlStore`. Its `entries` map field is the store object.
  `Load` reassigns it and `Create` updates it in place. `Resolve` only reads
  it. `Create` and `Resolve` are each tied to the handler function that
  specifies them; `Load` states its replace-or-keep rule directly. The
  module ends with four client methods that combine the methods.

The generated id is a parameter of `Create`, with the precondition `ValidId`.
The outcome of reading and parsing the backing file is a parameter of `Load`
(`None` when either failed). The value of the `PORT` environment variable is a
parameter of `Port`.

The guard `!url || typeof url !== "string"` rejects the empty string as well
as every non-string. Resolve redirects only on a *truthy* stored value, so a
loaded entry of `""`, `0`, `false` or `null` answers 404.

## Model

| member | source | states |
|---|---|---|
| `JsValues.Truthy` | index.js:55 | the falsy values are exactly `undefined`, `null`, `false`, `0` and `""` (the `!originalUrl` test here and the `if (originalUrl)` test at line 72) |
| `JsValues.TypeOf` | index.js:55 | `typeof` yields "string" exactly for strings and "undefined" exactly for `undefined` |
| `ShortIds.ValidId` | index.js:9-12 | the shape of every id the generator can return: 8 characters of its alphabet, so exactly 8 characters long and never containing a `/` |
| `ShortIds.AlphabetIsAlphanumeric` | index.js:9-12 | the generator's alphabet has 62 symbols, and a character is in it iff it is in `[0-9a-zA-Z]` |
| `ShortIds.ValidIdIsAlphanumeric` | index.js:9-12 | an id has the generator's shape iff it is 8 characters long and every character is in `[0-9a-zA-Z]` (both directions) |
| `ShortIds.Port` | index.js:7 | the port is never empty; it is the `PORT` variable when that is set and non-empty, and 3000 otherwise |
| `ShortIds.LastSegmentAfterSlash` | index.js:60 | appending a slash-free segment to a prefix ending in `/` makes that segment the URL's trailing path segment |
| `ShortIds.ShortUrl` | index.js:60 | the short URL starts with `http://localhost:`, has a `/` just before the 8-character id, and its trailing path segment is the id |
| `Handlers.BodyUrl` | index.js:53 | `req.body.url` throws exactly for an undefined or null body, yields the object's own `url` when there is one, and `undefined` otherwise |
| `Handlers.ValidUrl` | index.js:55 | the create guard admits a value iff it is a non-empty string (both directions) |
| `Handlers.HandleCreate` | index.js:52-66 | the create handler: it throws exactly for an undefined or null body; a 400 carries "Invalid URL format"; a success stores the body's non-empty string `url` under `id`, changes no other key, and returns a URL whose trailing segment is `id`; any other outcome leaves the table unchanged |
| `Handlers.PropertyAsWritten` | index.js:70 | `urlStore[shortId]` yields the own entry when there is one; otherwise it is truthy exactly for the names inherited from `Object.prototype` |
| `Handlers.HandleResolveAsWritten` | index.js:70-76 | resolve as written redirects iff the id holds a truthy own entry or is an inherited member name the table lacks; an own entry redirects to its value; otherwise 404 "URL not found" |
| `Handlers.HandleResolve` | index.js:68-77 | resolve (own entries only; the lookup as written is `HandleResolveAsWritten`, see Findings) redirects iff the table holds a truthy value under the id, and then to that value; otherwise it answers 404 with "URL not found" |
| `Handlers.CreateAcceptsExactlyNonEmptyStrings` | index.js:52-66 | a create succeeds iff the body's `url` is a non-empty string; a create that does not succeed leaves the table unchanged |
| `Handlers.CreateRejectsInvalidUrl` | index.js:55-57 | a missing, empty or non-string `url` gets a 400 with "Invalid URL format" and leaves the table unchanged |
| `Handlers.CreateThrowsWithoutBody` | index.js:53 | an undefined or null body makes the handler throw before the table is touched |
| `Handlers.CreateThenResolve` | index.js:59-73 | a create with non-empty string `u` answers `"http://localhost:" + port + "/" + id`, and resolving that URL's trailing segment redirects to exactly `u` |
| `Handlers.CreateOnlyTouchesId` | index.js:62 | a create adds at most the generated id as a key; every other key keeps its presence and its value |
| `Handlers.CreateLastWriteWins` | index.js:59-62 | two creates that draw the same id leave only the second url under it, and resolve redirects to that url |
| `Handlers.InheritedNameRedirects` | index.js:70-73 | as written, resolving an `Object.prototype` member name the table lacks redirects to the inherited member; the own-entry reading answers 404 |
| `Handlers.ToStringRedirectsOnEmptyStore` | index.js:68-76 | on an empty store, `GET /toString` redirects as written, where the own-entry reading answers 404 "URL not found" |
| `Handlers.ResolveAsWrittenAgreesElsewhere` | index.js:70-76 | as-written and own-entry resolve agree on every id that is in the table or is not an inherited member name |
| `Store.UrlStore.constructor` | index.js:31 | the store starts empty |
| `Store.UrlStore.Load` | index.js:33-40 | a successful load replaces the whole table with the parsed object; a failed read or parse leaves the previous table |
| `Store.UrlStore.Create` | index.js:52-66 | the answer and the new table are those of `HandleCreate` on the old table; a success sets `id -> url`, anything else changes nothing |
| `Store.UrlStore.Resolve` | index.js:68-77 | the answer is `HandleResolve` of the current table (redirect iff a truthy entry exists); the method changes nothing |
| `Store.ResolveTwice` | index.js:68-77 | two resolves of the same id with no create in between give the same answer |
| `Store.CreateThenResolveSession` | index.js:52-77 | on a fresh store on port 3000, a create answers `http://localhost:3000/<id>`, and resolving its trailing segment, then the id again, redirects to the submitted url both times |
| `Store.RestartAfterSave` | index.js:33-40 | from any prior store: after a create with non-empty string `u` and a completed save, a fresh store on the same port that loads the saved table holds exactly that table and resolves the created id to `u` |
| `Store.LoadAfterCreate` | index.js:33-40 | create, then load, on one store: a failed load keeps the created link resolvable; a successful load answers from the loaded table alone |

## Findings

| source | as written | input that shows it | evidently intended | confidence | as-written member | corrected member |
|---|---|---|---|---|---|---|
| index.js:70-73 | `urlStore[shortId]` also finds members inherited from `Object.prototype`, and these are truthy | `GET /toString` (or `/constructor`, `/__proto__`, ...) on a store without that own key: redirects to the built-in member | 404 `{"error": "URL not found"}` for every id that was never stored | medium, not executed | `Handlers.HandleResolveAsWritten` (shown by `Handlers.ToStringRedirectsOnEmptyStore`, `Handlers.InheritedNameRedirects`) | `Handlers.HandleResolve` (used by `Store.UrlStore.Resolve`) |

## Left out

- Store.UrlStore.Resolve: models the own-entry lookup of `Handlers.HandleResolve`, not the inherited-member lookup as written (see Findings).
- Express routing, middleware and response mechanics: answers are the `CreateResponse` and `ResolveResponse` datatypes. Status codes are in their comments. Path matching and percent-decoding of `:shortId` are not modelled, so `Resolve` accepts any string.
- The body parser (`express.json()`): `Create` receives the parsed body as a `JsValue`. The 500 page Express sends after the handler throws is not modelled beyond `Threw`.
- How Express turns a non-string redirect target into a `Location` header: `Redirect` carries the stored value as it is.
- The nanoid generator: its output is random, so the id is a parameter constrained by `ValidId`. Uniformity and collision probability are not modelled.
- `ensureDataFile`, `readFile` and `writeFile`: file I/O.
- `saveUrlStore`: it is not awaited, and its interleaving with other saves is concurrency. The save-then-restart round trip is modelled by `Store.RestartAfterSave`, from any prior store. It assumes the saved file parses back to the table the create left, as it does after a completed save.
- The startup race, where the load runs after the listener already accepts requests: this is concurrency.
- `JSON.parse` and `JSON.stringify`: `Load` takes the parse result as an optional table. A file that parses to a non-object (an array, a number, `null`) is not modelled.
- Reading `PORT` from the environment: `Port` takes the variable's value as a parameter.
- Numbers: they are modelled as reals. JSON cannot produce NaN, but the JSON text `-0` parses to the number -0 and `1e400` to an infinity, in a body as in the backing file. `-0` is folded into `Num(0.0)`, which is falsy like it; infinities are not represented, and are truthy like every non-zero real. Only truthiness matters here.
- Console logging of load and save errors.
