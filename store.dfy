/** The service's module-level store object as an explicit object: a
    key/value table that loading replaces wholesale and a create request
    updates in place, with the two routes as methods over it. */
module Store {
  import opened Wrappers
  import opened JsValues
  import opened ShortIds
  import opened Handlers

  class UrlStore {
    /** The own properties of the store object: short id to stored value. */
    var entries: map<string, JsValue>
    /** The port the service advertises in every short URL. */
    const port: string

    /** The store as it is when the process starts: empty. */
    constructor (port: string)
      ensures entries == map[] && this.port == port
    {
      this.entries := map[];
      this.port := port;
    }

    /** Loading the backing file: `parsed` is the object it parsed to, or None
        when reading or parsing failed. Success replaces the whole table;
        failure is swallowed and leaves the table as it was. */
    method Load(parsed: Option<map<string, JsValue>>)
      modifies this
      ensures parsed.Some? ==> entries == parsed.value
      ensures parsed.None? ==> entries == old(entries)
    {
      if parsed.Some? {
        entries := parsed.value;
      }
    }

    /** `POST /` with the parsed request `body`, where `id` is what the id
        generator returns for this request. */
    method Create(body: JsValue, id: string) returns (response: CreateResponse)
      requires ValidId(id)
      modifies this
      ensures CreateOutcome(response, entries) == HandleCreate(old(entries), port, body, id)
      ensures response.Created? ==> entries == old(entries)[id := BodyUrl(body).value]
      ensures !response.Created? ==> entries == old(entries)
    {
      var url := BodyUrl(body);
      if url.None? {
        response := Threw;
      } else if !ValidUrl(url.value) {
        response := BadRequest(InvalidUrlError);
      } else {
        entries := entries[id := url.value];
        response := Created(ShortUrl(port, id));
      }
    }

    /** `GET /:shortId`. It reads the table and changes nothing. */
    method Resolve(id: string) returns (response: ResolveResponse)
      ensures response == HandleResolve(entries, id)
      ensures response.Redirect? <==> id in entries && Truthy(entries[id])
    {
      if id in entries && Truthy(entries[id]) {
        response := Redirect(entries[id]);
      } else {
        response := NotFound(NotFoundError);
      }
    }
  }

  /** With no create in between, resolving the same id twice gives the same
      answer, the one the current table determines. */
  method ResolveTwice(store: UrlStore, id: string) returns (first: ResolveResponse, second: ResolveResponse)
    ensures first == second
    ensures first == HandleResolve(store.entries, id)
  {
    first := store.Resolve(id);
    second := store.Resolve(id);
  }

  /** A fresh service on port 3000: a create followed by a resolve of the
      returned link's trailing segment redirects to the submitted URL, and a
      second resolve answers the same. */
  method CreateThenResolveSession(id: string, u: string)
    returns (created: CreateResponse, first: ResolveResponse, second: ResolveResponse)
    requires ValidId(id) && u != ""
    ensures created == Created("http://localhost:3000/" + id)
    ensures first == Redirect(Str(u)) && second == first
  {
    var store := new UrlStore(Port(None));
    var body := Obj(map["url" := Str(u)]);
    CreateThenResolve(store.entries, store.port, body, id, u);
    created := store.Create(body, id);
    assert "http://localhost:" + "3000" + "/" == "http://localhost:3000/";
    first := store.Resolve(LastSegment(created.shortUrl));
    second := store.Resolve(id);
  }

  /** Restart after a completed save: whatever `before` already held, a
      create with a non-empty string `u`, a save of the resulting table and a
      fresh process on the same port that loads it give a store holding that
      same table, and it resolves the created id to `u`. */
  method RestartAfterSave(before: UrlStore, body: JsValue, id: string, u: string)
    returns (after: UrlStore, answer: ResolveResponse)
    requires ValidId(id) && BodyUrl(body) == Some(Str(u)) && u != ""
    modifies before
    ensures fresh(after) && after.port == before.port
    ensures after.entries == before.entries == old(before.entries)[id := Str(u)]
    ensures answer == Redirect(Str(u))
  {
    var _ := before.Create(body, id);
    var saved := before.entries;
    after := new UrlStore(before.port);
    after.Load(Some(saved));
    answer := after.Resolve(id);
  }

  /** Create, then load, on one store: a load that fails keeps what was
      created before it; a load that succeeds answers from the loaded table
      alone. */
  method LoadAfterCreate(id: string, u: string, parsed: Option<map<string, JsValue>>)
    returns (answer: ResolveResponse)
    requires ValidId(id) && u != ""
    ensures parsed.None? ==> answer == Redirect(Str(u))
    ensures parsed.Some? ==> answer == HandleResolve(parsed.value, id)
  {
    var store := new UrlStore(DefaultPort);
    var _ := store.Create(Obj(map["url" := Str(u)]), id);
    store.Load(parsed);
    answer := store.Resolve(id);
  }
}
