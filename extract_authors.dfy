// migration/extract/authors.py: the author uuid -> author id table of the
// source workspace, read page by page from the raw `/author` endpoint. Any
// failure or unexpected answer ends the loop and keeps what was recorded.

module ExtractAuthors {
  import opened Py

  const Limit: nat := 100

  /** One GET of the author listing: the URL, the `Token` header and the paging parameters. */
  datatype AuthorRequest = AuthorRequest(url: string, token: Json, limit: nat, offset: nat)

  /** An HTTP response: its status code, and what `response.json()` returns or raises. */
  datatype RawResponse = RawResponse(statusCode: int, body: Reply<Json>)

  /** The `entities` of one answer and its `total` (the number of entities when absent). */
  datatype Listing = Listing(items: seq<Json>, total: Json)

  /** `api_key.get('TokenAuth') or api_key.get('Token') or api_key.get('token')`, when the api key is a dict. */
  function ApiToken(apiKey: Json): (r: Json)
    ensures !apiKey.JObject? ==> r == JNull
    ensures JTruthy(r) ==> r in [Field(apiKey, "TokenAuth"), Field(apiKey, "Token"), Field(apiKey, "token")]
  {
    if apiKey.JObject? then JOr(JOr(Field(apiKey, "TokenAuth"), Field(apiKey, "Token")), Field(apiKey, "token"))
    else JNull
  }

  /** The host without trailing slashes, with `/v1` appended unless it already ends in it. */
  function ApiBase(host: string): (r: string)
    ensures EndsWith(r, "/v1")
    ensures StartsWith(r, RStrip(host, '/'))
    ensures EndsWith(RStrip(host, '/'), "/v1") ==> r == RStrip(host, '/')
    ensures !EndsWith(RStrip(host, '/'), "/v1") ==> r == RStrip(host, '/') + "/v1"
  {
    var base := RStrip(host, '/');
    if EndsWith(base, "/v1") then base else base + "/v1"
  }

  function AuthorsUrl(host: string): string
  {
    ApiBase(host) + "/author"
  }

  /**
   * The entities of one answer, or `None` when the loop stops before reading
   * any: an exception, a status other than 200, a body that is not a dict with
   * a truthy `status` and a truthy dict `result` (a list `result` makes
   * `result.get` raise), or falsy or non-iterable `entities`.
   */
  function Listed(response: Reply<RawResponse>): (r: Option<Listing>)
    ensures r.Some? ==> response.Ok? && response.value.statusCode == 200 && response.value.body.Ok?
  {
    match response
    case Raised(_) => None
    case Ok(raw) =>
      if raw.statusCode != 200 || raw.body.Raised? then None
      else
        var data := raw.body.value;
        if !data.JObject? || !JTruthy(Field(data, "status")) || !JTruthy(Field(data, "result")) then None
        else
          var result := Field(data, "result");
          if !result.JObject? then None
          else
            var entities := match Get(result, "entities") case Some(e) => e case None => JList([]);
            if !JTruthy(entities) then None
            else match Iter(entities)
              case None => None
              case Some(items) =>
                Some(Listing(items, match Get(result, "total") case Some(t) => t case None => JInt(|items|)))
  }

  /**
   * The entry one author adds: `(uuid, int(id))` when both are truthy,
   * nothing otherwise; the loop stops (`Raised`) at an author that is not a
   * dict, an id `int()` rejects, or a uuid that cannot be a dict key.
   */
  function AuthorEntry(author: Json): (r: Reply<Option<(Json, int)>>)
    ensures r.Ok? && r.value.Some? ==>
      && author.JObject?
      && r.value.value.0 == Field(author, "uuid") && JTruthy(Field(author, "uuid")) && JTruthy(Field(author, "id"))
      && IntOf(ToValue(Field(author, "id"))) == Ok(r.value.value.1)
    ensures r == Ok(None) <==> author.JObject? && !(JTruthy(Field(author, "uuid")) && JTruthy(Field(author, "id")))
  {
    if !author.JObject? then Raised(AttributeError)
    else
      var uuid := Field(author, "uuid");
      var id := Field(author, "id");
      if !(JTruthy(uuid) && JTruthy(id)) then Ok(None)
      else match IntOf(ToValue(id))
        case Raised(e) => Raised(e)
        case Ok(k) => if uuid.JList? || uuid.JObject? then Raised(TypeError("unhashable type")) else Ok(Some((uuid, k)))
  }

  /**
   * The table after the authors of one page, and whether every author was
   * read without raising (the loop stops at the first that raises, keeping
   * the entries made before it).
   */
  function Record(authors: map<Json, int>, items: seq<Json>): (r: (map<Json, int>, bool))
    ensures r.1 <==> forall i :: 0 <= i < |items| ==> AuthorEntry(items[i]).Ok?
  {
    if items == [] then (authors, true)
    else
      var n := |items| - 1;
      var (m, ok) := Record(authors, items[..n]);
      assert forall i :: 0 <= i < n ==> items[..n][i] == items[i];
      if !ok then (m, false)
      else match AuthorEntry(items[n])
        case Raised(_) => (m, false)
        case Ok(None) => (m, true)
        case Ok(Some(e)) => (m[e.0 := e.1], true)
  }

  /** A recorded uuid was there before, or an author of the page has it and the recorded id is that author's. */
  lemma {:induction false} RecordContents(authors: map<Json, int>, items: seq<Json>, uuid: Json)
    ensures uuid in Record(authors, items).0 ==>
      || (uuid in authors && Record(authors, items).0[uuid] == authors[uuid])
      || exists i :: 0 <= i < |items| && AuthorEntry(items[i]) == Ok(Some((uuid, Record(authors, items).0[uuid])))
    ensures uuid in authors ==> uuid in Record(authors, items).0
  {
    if items != [] {
      var n := |items| - 1;
      var init := items[..n];
      RecordContents(authors, init, uuid);
      var m := Record(authors, init).0;
      if uuid in m && Record(authors, items).0[uuid] == m[uuid] {
        if exists i :: 0 <= i < |init| && AuthorEntry(init[i]) == Ok(Some((uuid, m[uuid]))) {
          var i :| 0 <= i < |init| && AuthorEntry(init[i]) == Ok(Some((uuid, m[uuid])));
          assert items[i] == init[i];
        }
      }
    }
  }

  /** `total` compared with the number of entities read so far; a total that is not a number raises, which stops the loop. */
  predicate BelowTotal(read: int, total: Json)
  {
    match total
    case JInt(t) => read < t
    case JBool(b) => read < (if b then 1 else 0)
    case _ => false
  }

  /** The loop goes on after a page: a full page, every author read, and fewer entities so far than `total`. */
  predicate MorePages(listing: Listing, offset: nat)
  {
    && (forall i :: 0 <= i < |listing.items| ==> AuthorEntry(listing.items[i]).Ok?)
    && |listing.items| >= Limit
    && BelowTotal(offset + |listing.items|, listing.total)
  }

  /** The listing ends: from offset `bound` on no answer makes the loop go on. */
  ghost predicate AuthorsEnd(get: AuthorRequest -> Reply<RawResponse>, url: string, token: Json, bound: nat)
  {
    PagesEnd(Pages(get, url, token), bound)
  }

  ghost predicate PagesEnd(pages: nat -> Option<Listing>, bound: nat)
  {
    forall off: nat :: off >= bound ==> !(pages(off).Some? && MorePages(pages(off).value, off))
  }

  /** The table the loop ends with, from `offset` on and starting from `authors`. */
  function AuthorsFrom(get: AuthorRequest -> Reply<RawResponse>, url: string, token: Json, offset: nat, bound: nat,
                       authors: map<Json, int>): map<Json, int>
    requires AuthorsEnd(get, url, token, bound)
  {
    ListingsFrom(Pages(get, url, token), offset, bound, authors)
  }

  /** The page the listing answers at each offset, when it can be read. */
  function Pages(get: AuthorRequest -> Reply<RawResponse>, url: string, token: Json): nat -> Option<Listing>
  {
    (off: nat) => Listed(get(AuthorRequest(url, token, Limit, off)))
  }

  /** The loop over the pages `pages` answers, from `offset` on. */
  function ListingsFrom(pages: nat -> Option<Listing>, offset: nat, bound: nat, authors: map<Json, int>): map<Json, int>
    requires PagesEnd(pages, bound)
    decreases if offset <= bound then bound - offset + 1 else 0
  {
    match pages(offset)
    case None => authors
    case Some(listing) =>
      var m := Record(authors, listing.items).0;
      if MorePages(listing, offset) then ListingsFrom(pages, offset + Limit, bound, m) else m
  }

  /** One turn of the loop. */
  lemma AuthorsStep(get: AuthorRequest -> Reply<RawResponse>, url: string, token: Json, offset: nat, bound: nat,
                    authors: map<Json, int>)
    requires AuthorsEnd(get, url, token, bound)
    ensures var listing := Listed(get(AuthorRequest(url, token, Limit, offset)));
      && (listing.None? ==> AuthorsFrom(get, url, token, offset, bound, authors) == authors)
      && (listing.Some? && !MorePages(listing.value, offset) ==>
            AuthorsFrom(get, url, token, offset, bound, authors) == Record(authors, listing.value.items).0)
      && (listing.Some? && MorePages(listing.value, offset) ==>
            && offset < bound
            && AuthorsFrom(get, url, token, offset, bound, authors)
               == AuthorsFrom(get, url, token, offset + Limit, bound, Record(authors, listing.value.items).0))
  {
    assert Pages(get, url, token)(offset) == Listed(get(AuthorRequest(url, token, Limit, offset)));
  }

  /**
   * `extract_authors`. `host` is the client's configured host ("" when
   * unset), `apiKey` its `api_key` setting, and `get` the HTTP GET.
   */
  method ExtractAuthors(host: string, apiKey: Json, get: AuthorRequest -> Reply<RawResponse>, ghost bound: nat)
    returns (authorUuidToId: map<Json, int>)
    requires AuthorsEnd(get, AuthorsUrl(host), ApiToken(apiKey), bound)
    ensures !JTruthy(ApiToken(apiKey)) || host == "" ==> authorUuidToId == map[]
    ensures JTruthy(ApiToken(apiKey)) && host != "" ==>
      authorUuidToId == AuthorsFrom(get, AuthorsUrl(host), ApiToken(apiKey), 0, bound, map[])
  {
    authorUuidToId := map[];
    var token := ApiToken(apiKey);
    if !JTruthy(token) || host == "" {
      return;
    }
    var url := ApiBase(host) + "/author";
    authorUuidToId := ReadAuthors(get, url, token, bound);
  }

  /** The paging loop of `extract_authors`. */
  method ReadAuthors(get: AuthorRequest -> Reply<RawResponse>, url: string, token: Json, ghost bound: nat)
    returns (authorUuidToId: map<Json, int>)
    requires AuthorsEnd(get, url, token, bound)
    ensures authorUuidToId == AuthorsFrom(get, url, token, 0, bound, map[])
  {
    authorUuidToId := map[];
    var offset: nat := 0;
    while true
      invariant AuthorsFrom(get, url, token, 0, bound, map[]) == AuthorsFrom(get, url, token, offset, bound, authorUuidToId)
      decreases if offset <= bound then bound - offset + 1 else 0
    {
      var more;
      authorUuidToId, more := AuthorsPage(get, url, token, offset, bound, authorUuidToId);
      if !more {
        return;
      }
      offset := offset + Limit;
    }
  }

  /** One turn of the loop: read the page at `offset`, record its authors, and decide whether to go on. */
  method AuthorsPage(get: AuthorRequest -> Reply<RawResponse>, url: string, token: Json, offset: nat, ghost bound: nat,
                     authors: map<Json, int>)
    returns (m: map<Json, int>, more: bool)
    requires AuthorsEnd(get, url, token, bound)
    ensures !more ==> AuthorsFrom(get, url, token, offset, bound, authors) == m
    ensures more ==> offset < bound && AuthorsFrom(get, url, token, offset, bound, authors)
                                    == AuthorsFrom(get, url, token, offset + Limit, bound, m)
  {
    var response := get(AuthorRequest(url, token, Limit, offset));
    var listing := Listed(response);
    AuthorsStep(get, url, token, offset, bound, authors);
    if listing.None? {
      return authors, false;
    }
    var ok;
    m, ok := RecordAuthors(authors, listing.value.items);
    more := ok && |listing.value.items| >= Limit && BelowTotal(offset + |listing.value.items|, listing.value.total);
  }

  /** The loop over the authors of one page. */
  method RecordAuthors(authors: map<Json, int>, items: seq<Json>) returns (m: map<Json, int>, ok: bool)
    ensures (m, ok) == Record(authors, items)
  {
    m := authors;
    for j := 0 to |items|
      invariant (m, true) == Record(authors, items[..j])
    {
      assert items[..j + 1][..j] == items[..j];
      var author := items[j];
      var entry := AuthorEntry(author);
      if entry.Raised? {
        StopsRecording(authors, items, j + 1);
        return m, false;
      }
      if entry.value.Some? {
        m := m[entry.value.value.0 := entry.value.value.1];
      }
    }
    assert items[..|items|] == items;
    return m, true;
  }

  /** After an author that raises, the rest of the page adds nothing. */
  lemma {:induction false} StopsRecording(authors: map<Json, int>, items: seq<Json>, k: nat)
    requires 0 < k <= |items| && !Record(authors, items[..k]).1
    ensures Record(authors, items) == Record(authors, items[..k])
    decreases |items| - k
  {
    if k < |items| {
      assert items[..k + 1][..k] == items[..k];
      StopsRecording(authors, items, k + 1);
    } else {
      assert items[..k] == items;
    }
  }

  /** A failed request, a non-200 status or an unexpected answer ends the loop with the table as it is. */
  lemma StopsOnUnexpected(get: AuthorRequest -> Reply<RawResponse>, url: string, token: Json, offset: nat, bound: nat,
                          authors: map<Json, int>)
    requires AuthorsEnd(get, url, token, bound)
    requires var response := get(AuthorRequest(url, token, Limit, offset));
      || response.Raised?
      || response.value.statusCode != 200
      || response.value.body.Raised?
      || (response.value.body.Ok? && !response.value.body.value.JObject?)
    ensures AuthorsFrom(get, url, token, offset, bound, authors) == authors
  {
  }

  /**
   * A page shorter than the limit, or one that brings the count read to
   * `total`, is the last: the table is the one after its authors.
   */
  lemma StopsOnShortPageOrTotal(get: AuthorRequest -> Reply<RawResponse>, url: string, token: Json, offset: nat,
                                bound: nat, authors: map<Json, int>)
    requires AuthorsEnd(get, url, token, bound)
    requires Listed(get(AuthorRequest(url, token, Limit, offset))).Some?
    requires var listing := Listed(get(AuthorRequest(url, token, Limit, offset))).value;
      || |listing.items| < Limit
      || (listing.total.JInt? && offset + |listing.items| >= listing.total.i)
    ensures AuthorsFrom(get, url, token, offset, bound, authors)
         == Record(authors, Listed(get(AuthorRequest(url, token, Limit, offset))).value.items).0
  {
  }
}
