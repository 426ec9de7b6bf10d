// migration/utils/scim_client.py: the SCIM client of the target workspace,
// used to list, create and fill users and groups. HTTP requests are an oracle
// `send(request, attempt)` giving what the `attempt`-th try of a request
// does: answer with a status and a JSON body, or raise.

module Scim {
  import opened Py
  import Utils

  /** An HTTP answer: its status and its body, already parsed. */
  datatype Response = Response(status: int, body: Json)

  /** What is sent: the verb, the full URL, the query and the JSON payload (null when none). */
  datatype HttpRequest = HttpRequest(verb: string, url: string, params: Json, payload: Json)

  /** The SCIM base URL: scheme, host, then `/scim/v2`. */
  function BaseUrl(host: string, ssl: bool): (r: string)
    ensures ssl ==> r == "https://" + host + "/scim/v2"
    ensures !ssl ==> r == "http://" + host + "/scim/v2"
  {
    (if ssl then "https://" else "http://") + host + "/scim/v2"
  }

  /** Different hosts or schemes give different base URLs: the host and the scheme can be read back. */
  lemma BaseUrlInjective(host: string, ssl: bool, host2: string, ssl2: bool)
    requires BaseUrl(host, ssl) == BaseUrl(host2, ssl2)
    ensures host == host2 && ssl == ssl2
  {
    var u := BaseUrl(host, ssl);
    var p := if ssl then "https://" else "http://";
    var p2 := if ssl2 then "https://" else "http://";
    assert u[4] == (if ssl then 's' else ':');
    assert BaseUrl(host2, ssl2)[4] == (if ssl2 then 's' else ':');
    assert ssl == ssl2;
    assert u[|p|..|u| - 8] == host;
    assert BaseUrl(host2, ssl2)[|p2|..|u| - 8] == host2;
  }

  // ---------------------------------------------------------- _request_with_retry

  /** The outcome of a request and how many tries it took. */
  datatype RequestRun = RequestRun(result: Reply<Response>, calls: nat)

  /** What counts as rate limiting: only 429 is retried; every other status is returned as it is. */
  predicate RateLimited(r: Response)
  {
    r.status == 429
  }

  /** The tries from `attempt` on, of `maxRetries + 1` in all. */
  function RetryFrom(call: nat -> Utils.Attempt<Response>, maxRetries: nat, attempt: nat): (run: RequestRun)
    requires attempt <= maxRetries
    ensures attempt < run.calls <= maxRetries + 1
    decreases maxRetries - attempt
  {
    match call(attempt)
    case Returns(resp) =>
      if !RateLimited(resp) || attempt == maxRetries then RequestRun(Ok(resp), attempt + 1)
      else RetryFrom(call, maxRetries, attempt + 1)
    case Throws(e) =>
      if attempt == maxRetries then RequestRun(Raised(e), attempt + 1)
      else RetryFrom(call, maxRetries, attempt + 1)
  }

  /** `_request_with_retry`: no try at all for a negative `max_retries`, which then raises. */
  function Retry(call: nat -> Utils.Attempt<Response>, maxRetries: int): RequestRun
  {
    if maxRetries < 0 then RequestRun(Raised(OtherException("Exception")), 0)
    else RetryFrom(call, maxRetries, 0)
  }

  /** A try that is retried when it is not the last: a 429 or an exception. */
  predicate Retried(a: Utils.Attempt<Response>)
  {
    a.Throws? || RateLimited(a.result)
  }

  /**
   * The first answer that is not a 429 ends the tries and is returned,
   * whatever its status (a 5xx included).
   */
  lemma {:induction false} RetryReturnsFirstAnswer(call: nat -> Utils.Attempt<Response>, maxRetries: nat, attempt: nat, k: nat)
    requires attempt <= k <= maxRetries
    requires forall i: nat :: attempt <= i < k ==> Retried(call(i))
    requires call(k).Returns? && !RateLimited(call(k).result)
    ensures RetryFrom(call, maxRetries, attempt) == RequestRun(Ok(call(k).result), k + 1)
    decreases k - attempt
  {
    if attempt < k {
      assert Retried(call(attempt));
      RetryReturnsFirstAnswer(call, maxRetries, attempt + 1, k);
    }
  }

  /**
   * When every try is retried, all `maxRetries + 1` tries are made and the
   * last one decides: its 429 answer is returned, or its exception raised.
   */
  lemma {:induction false} RetryExhausts(call: nat -> Utils.Attempt<Response>, maxRetries: nat, attempt: nat)
    requires attempt <= maxRetries
    requires forall i: nat :: attempt <= i <= maxRetries ==> Retried(call(i))
    ensures RetryFrom(call, maxRetries, attempt).calls == maxRetries + 1
    ensures call(maxRetries).Returns? ==> RetryFrom(call, maxRetries, attempt).result == Ok(call(maxRetries).result)
    ensures call(maxRetries).Throws? ==> RetryFrom(call, maxRetries, attempt).result == Raised(call(maxRetries).exc)
    decreases maxRetries - attempt
  {
    assert Retried(call(attempt));
    if attempt < maxRetries {
      RetryExhausts(call, maxRetries, attempt + 1);
    }
  }

  /** The tries of one request. */
  function Tries(send: (HttpRequest, nat) -> Utils.Attempt<Response>, req: HttpRequest): nat -> Utils.Attempt<Response>
  {
    (i: nat) => send(req, i)
  }

  /** The default number of retries. */
  const MaxRetries: int := 3

  /** The default page size of the listings. */
  const PageSize: nat := 100

  /** The query of one page: SCIM counts from 1. */
  function PageParams(limit: nat, offset: nat): Json
  {
    JObject([("count", JInt(limit)), ("startIndex", JInt(offset + 1))])
  }

  /** What a listing page reads as: the body of a 200, anything else an empty page. */
  function PageData(r: Response): Json
  {
    if r.status == 200 then r.body else JObject([("Resources", JList([])), ("totalResults", JInt(0))])
  }

  /** `len(collected) >= total`, where `total` comes from the response and may not be a number. */
  function AtLeast(n: int, total: Json): Reply<bool>
  {
    match total
    case JInt(i) => Ok(n >= i)
    case JBool(b) => Ok(n >= if b then 1 else 0)
    case _ => Raised(TypeError("'>=' not supported"))
  }

  /** The resources and the total a page reads as; a body that is not a dict has no `get`. */
  function PageItems(page: Reply<Response>): Reply<(seq<Json>, Json)>
  {
    match page
    case Raised(e) => Raised(e)
    case Ok(resp) =>
      var data := PageData(resp);
      if !data.JObject? then Raised(AttributeError)
      else match Iter(GetOr(data, "Resources", JList([])))
        case None => Raised(NotIterable)
        case Some(items) => Ok((items, GetOr(data, "totalResults", JInt(0))))
  }

  /** A page after which the listing reads another: it has at least `limit` resources. */
  predicate FullPage(page: Reply<Response>, limit: nat)
  {
    PageItems(page).Ok? && |PageItems(page).value.0| >= limit
  }

  /** The environment assumption that ends a listing: no page from `bound` on is full. */
  ghost predicate Ends(pages: nat -> Reply<Response>, limit: nat, bound: nat)
  {
    forall off: nat :: off >= bound ==> !FullPage(pages(off), limit)
  }

  /** What the page at each offset reads as. */
  function Reader(pages: nat -> Reply<Response>): nat -> Reply<(seq<Json>, Json)>
  {
    (offset: nat) => PageItems(pages(offset))
  }

  /** No page read from `bound` on holds `limit` resources or more. */
  ghost predicate EndsOver(read: nat -> Reply<(seq<Json>, Json)>, limit: nat, bound: nat)
  {
    forall off: nat :: off >= bound ==> !(read(off).Ok? && |read(off).value.0| >= limit)
  }

  lemma EndsRead(pages: nat -> Reply<Response>, limit: nat, bound: nat)
    requires Ends(pages, limit, bound)
    ensures EndsOver(Reader(pages), limit, bound)
  {
    forall off: nat | off >= bound ensures !(Reader(pages)(off).Ok? && |Reader(pages)(off).value.0| >= limit) {
      assert !FullPage(pages(off), limit);
    }
  }

  /**
   * `get_all_users` / `get_all_groups` from `offset` on, after `collected`:
   * a page is added in full, then the listing stops once the count reaches
   * `totalResults` or the page is short. An exception escapes and what was
   * collected is lost.
   */
  function ListFrom(pages: nat -> Reply<Response>, limit: nat, offset: nat, bound: nat, collected: seq<Json>): Reply<seq<Json>>
    requires limit > 0 && Ends(pages, limit, bound)
  {
    EndsRead(pages, limit, bound);
    ListOver(Reader(pages), limit, offset, bound, collected)
  }

  /** The listing over the pages `read` gives, each a list of resources and the total it announces. */
  function ListOver(read: nat -> Reply<(seq<Json>, Json)>, limit: nat, offset: nat, bound: nat, collected: seq<Json>): Reply<seq<Json>>
    requires limit > 0 && EndsOver(read, limit, bound)
    decreases if offset <= bound then bound - offset + 1 else 0
  {
    match read(offset)
    case Raised(e) => Raised(e)
    case Ok(p) =>
      var all := collected + p.0;
      match AtLeast(|all|, p.1)
      case Raised(e) => Raised(e)
      case Ok(reached) =>
        if reached || |p.0| < limit then Ok(all)
        else ListOver(read, limit, offset + limit, bound, all)
  }

  /** The listing keeps every resource of every page it reads, in order, after what was collected before. */
  lemma ListFromExtends(pages: nat -> Reply<Response>, limit: nat, offset: nat, bound: nat, collected: seq<Json>)
    requires limit > 0 && Ends(pages, limit, bound)
    requires ListFrom(pages, limit, offset, bound, collected).Ok?
    ensures |ListFrom(pages, limit, offset, bound, collected).value| >= |collected|
    ensures ListFrom(pages, limit, offset, bound, collected).value[..|collected|] == collected
    ensures PageItems(pages(offset)).Ok?
    ensures var first := PageItems(pages(offset)).value.0;
      |ListFrom(pages, limit, offset, bound, collected).value| >= |collected| + |first|
      && ListFrom(pages, limit, offset, bound, collected).value[..|collected| + |first|] == collected + first
  {
    EndsRead(pages, limit, bound);
    ListOverKeeps(Reader(pages), limit, offset, bound, collected);
    var all := collected + PageItems(pages(offset)).value.0;
    var r := ListFrom(pages, limit, offset, bound, collected).value;
    assert r[..|all|][..|collected|] == r[..|collected|];
    assert all[..|collected|] == collected;
  }

  /** One page of the listing: an exception, the end, or the next offset. */
  lemma ListOverStep(read: nat -> Reply<(seq<Json>, Json)>, limit: nat, offset: nat, bound: nat, collected: seq<Json>)
    requires limit > 0 && EndsOver(read, limit, bound)
    ensures read(offset).Raised? ==> ListOver(read, limit, offset, bound, collected) == Raised(read(offset).exc)
    ensures read(offset).Ok? ==>
      var all := collected + read(offset).value.0;
      var reached := AtLeast(|all|, read(offset).value.1);
      && (reached.Raised? ==> ListOver(read, limit, offset, bound, collected) == Raised(reached.exc))
      && (reached.Ok? && (reached.value || |read(offset).value.0| < limit) ==> ListOver(read, limit, offset, bound, collected) == Ok(all))
      && (reached.Ok? && !(reached.value || |read(offset).value.0| < limit) ==>
            offset < bound && ListOver(read, limit, offset, bound, collected) == ListOver(read, limit, offset + limit, bound, all))
  {
  }

  lemma {:induction false} ListOverKeeps(read: nat -> Reply<(seq<Json>, Json)>, limit: nat, offset: nat, bound: nat, collected: seq<Json>)
    requires limit > 0 && EndsOver(read, limit, bound)
    requires ListOver(read, limit, offset, bound, collected).Ok?
    ensures read(offset).Ok?
    ensures var all := collected + read(offset).value.0;
      |ListOver(read, limit, offset, bound, collected).value| >= |all|
      && ListOver(read, limit, offset, bound, collected).value[..|all|] == all
    decreases if offset <= bound then bound - offset + 1 else 0
  {
    var p := read(offset).value;
    var all := collected + p.0;
    var reached := AtLeast(|all|, p.1).value;
    if !(reached || |p.0| < limit) {
      ListOverKeeps(read, limit, offset + limit, bound, all);
      var rest := ListOver(read, limit, offset + limit, bound, all).value;
      var next := all + read(offset + limit).value.0;
      assert rest[..|next|][..|all|] == rest[..|all|];
      assert next[..|all|] == all;
    }
  }

  /** A listing whose first page is short, or already holds `totalResults` resources, is that page. */
  lemma ListOnePage(pages: nat -> Reply<Response>, limit: nat, bound: nat)
    requires limit > 0 && Ends(pages, limit, bound)
    requires PageItems(pages(0)).Ok?
    requires var p := PageItems(pages(0)).value;
      AtLeast(|p.0|, p.1).Ok? && (AtLeast(|p.0|, p.1).value || |p.0| < limit)
    ensures ListFrom(pages, limit, 0, bound, []) == Ok(PageItems(pages(0)).value.0)
  {
    assert [] + PageItems(pages(0)).value.0 == PageItems(pages(0)).value.0;
  }

  /** The resource is a dict whose `key`, a string, equals `name` case-insensitively. */
  predicate NameMatches(item: Json, key: string, name: string)
  {
    item.JObject? && GetOr(item, key, JStr("")).JStr? && Lower(GetOr(item, key, JStr("")).s) == Lower(name)
  }

  /** The resource can be asked for its name: a dict whose `key` is a string (or absent). */
  predicate Readable(item: Json, key: string)
  {
    item.JObject? && GetOr(item, key, JStr("")).JStr?
  }

  /** The first resource, in order, whose `key` text matches `name` case-insensitively: its id, or None. */
  function FindByName(items: seq<Json>, key: string, name: string): Reply<Json>
  {
    FirstOf(items, ReadableBy(key), MatchesName(key, name), IdField)
  }

  function ReadableBy(key: string): Json -> bool
  {
    item => Readable(item, key)
  }

  function MatchesName(key: string, name: string): Json -> bool
  {
    item => NameMatches(item, key, name)
  }

  const IdField: Json -> Json := item => Field(item, "id")

  /**
   * A search in order: the first item that cannot be read raises, the first
   * that matches answers its `id`, and a search that reads every item
   * without a match answers None.
   */
  function FirstOf(items: seq<Json>, readable: Json -> bool, matches: Json -> bool, id: Json -> Json): Reply<Json>
  {
    if items == [] then Ok(JNull)
    else if !readable(items[0]) then Raised(AttributeError)
    else if matches(items[0]) then Ok(id(items[0]))
    else FirstOf(items[1..], readable, matches, id)
  }

  lemma {:induction false} FirstOfOk(items: seq<Json>, readable: Json -> bool, matches: Json -> bool, id: Json -> Json)
    ensures FirstOf(items, readable, matches, id).Ok? <==>
      forall i :: 0 <= i < |items| && (forall j :: 0 <= j < i ==> !matches(items[j])) ==> readable(items[i])
  {
    if items != [] {
      FirstOfOk(items[1..], readable, matches, id);
      assert forall i :: 1 <= i < |items| ==> items[1..][i - 1] == items[i];
      if readable(items[0]) && !matches(items[0]) && !FirstOf(items, readable, matches, id).Ok? {
        var k :| 0 <= k < |items[1..]| && (forall j :: 0 <= j < k ==> !matches(items[1..][j])) && !readable(items[1..][k]);
        assert !readable(items[k + 1]);
      }
    }
  }

  lemma {:induction false} FirstOfFound(items: seq<Json>, readable: Json -> bool, matches: Json -> bool, id: Json -> Json)
    requires FirstOf(items, readable, matches, id).Ok? && exists i :: 0 <= i < |items| && matches(items[i])
    ensures exists i :: && 0 <= i < |items| && matches(items[i]) && FirstOf(items, readable, matches, id) == Ok(id(items[i]))
                        && forall j :: 0 <= j < i ==> !matches(items[j])
  {
    if !matches(items[0]) {
      var k0 :| 0 <= k0 < |items| && matches(items[k0]);
      assert matches(items[1..][k0 - 1]);
      FirstOfFound(items[1..], readable, matches, id);
      var k :| 0 <= k < |items[1..]| && matches(items[1..][k]) && FirstOf(items[1..], readable, matches, id) == Ok(id(items[1..][k]))
        && forall j :: 0 <= j < k ==> !matches(items[1..][j]);
      assert matches(items[k + 1]);
      assert forall j :: 1 <= j < k + 1 ==> items[1..][j - 1] == items[j];
    }
  }

  lemma {:induction false} FirstOfNone(items: seq<Json>, readable: Json -> bool, matches: Json -> bool, id: Json -> Json)
    requires forall i :: 0 <= i < |items| ==> readable(items[i]) && !matches(items[i])
    ensures FirstOf(items, readable, matches, id) == Ok(JNull)
  {
    if items != [] {
      assert forall i :: 0 <= i < |items[1..]| ==> items[1..][i] == items[i + 1];
      FirstOfNone(items[1..], readable, matches, id);
    }
  }

  /**
   * The search answers the id of the first matching resource, after
   * readable non-matching ones; it answers None only when every resource is
   * readable and none matches.
   */
  lemma FindByNameFirst(items: seq<Json>, key: string, name: string)
    ensures FindByName(items, key, name).Ok? <==>
      forall i :: 0 <= i < |items| && (forall j :: 0 <= j < i ==> !NameMatches(items[j], key, name)) ==> Readable(items[i], key)
    ensures FindByName(items, key, name).Ok? && (exists i :: 0 <= i < |items| && NameMatches(items[i], key, name)) ==>
      exists i :: 0 <= i < |items| && NameMatches(items[i], key, name) && FindByName(items, key, name) == Ok(Field(items[i], "id"))
        && forall j :: 0 <= j < i ==> !NameMatches(items[j], key, name)
    ensures (forall i :: 0 <= i < |items| ==> Readable(items[i], key) && !NameMatches(items[i], key, name)) ==>
      FindByName(items, key, name) == Ok(JNull)
  {
    FindByNameOk(items, key, name);
    if FindByName(items, key, name).Ok? && exists i :: 0 <= i < |items| && NameMatches(items[i], key, name) {
      FindByNameFound(items, key, name);
    }
    if forall i :: 0 <= i < |items| ==> Readable(items[i], key) && !NameMatches(items[i], key, name) {
      FindByNameNone(items, key, name);
    }
  }

  lemma FindByNameOk(items: seq<Json>, key: string, name: string)
    ensures FindByName(items, key, name).Ok? <==>
      forall i :: 0 <= i < |items| && (forall j :: 0 <= j < i ==> !NameMatches(items[j], key, name)) ==> Readable(items[i], key)
  {
    var readable, matches := ReadableBy(key), MatchesName(key, name);
    assert forall x :: readable(x) == Readable(x, key);
    assert forall x :: matches(x) == NameMatches(x, key, name);
    FirstOfOk(items, readable, matches, IdField);
  }

  lemma FindByNameFound(items: seq<Json>, key: string, name: string)
    requires FindByName(items, key, name).Ok? && exists i :: 0 <= i < |items| && NameMatches(items[i], key, name)
    ensures exists i :: && 0 <= i < |items| && NameMatches(items[i], key, name) && FindByName(items, key, name) == Ok(Field(items[i], "id"))
                        && forall j :: 0 <= j < i ==> !NameMatches(items[j], key, name)
  {
    var readable, matches := ReadableBy(key), MatchesName(key, name);
    var k0 :| 0 <= k0 < |items| && NameMatches(items[k0], key, name);
    assert matches(items[k0]);
    FirstOfFound(items, readable, matches, IdField);
    var k :| 0 <= k < |items| && matches(items[k]) && FirstOf(items, readable, matches, IdField) == Ok(IdField(items[k]))
      && forall j :: 0 <= j < k ==> !matches(items[j]);
    assert forall j :: 0 <= j < k ==> !NameMatches(items[j], key, name) by {
      forall j | 0 <= j < k ensures !NameMatches(items[j], key, name) {
        assert !matches(items[j]);
      }
    }
    assert NameMatches(items[k], key, name) && FindByName(items, key, name) == Ok(Field(items[k], "id"));
  }

  lemma FindByNameNone(items: seq<Json>, key: string, name: string)
    requires forall i :: 0 <= i < |items| ==> Readable(items[i], key) && !NameMatches(items[i], key, name)
    ensures FindByName(items, key, name) == Ok(JNull)
  {
    var readable, matches := ReadableBy(key), MatchesName(key, name);
    assert forall i :: 0 <= i < |items| ==> readable(items[i]) && !matches(items[i]) by {
      forall i | 0 <= i < |items| ensures readable(items[i]) && !matches(items[i]) {
        assert Readable(items[i], key) && !NameMatches(items[i], key, name);
      }
    }
    FirstOfNone(items, readable, matches, IdField);
  }

  /**
   * A create's answer: the id of a 200 or 201 (None when it has none); for
   * a 409 the id of the existing resource found by name in the listing,
   * or None; any other status gives None.
   */
  function CreateOutcome(resp: Response, listing: Reply<seq<Json>>, key: string, name: string): Reply<Json>
  {
    if resp.status == 200 || resp.status == 201 then
      if !resp.body.JObject? then Raised(AttributeError)
      else Ok(if JTruthy(Field(resp.body, "id")) then Field(resp.body, "id") else JNull)
    else if resp.status == 409 then
      match listing
      case Raised(e) => Raised(e)
      case Ok(items) => FindByName(items, key, name)
    else Ok(JNull)
  }

  /** The PATCH that adds members to a group. */
  function MembersPayload(userIds: seq<Json>): Json
  {
    JObject([
      ("schemas", JList([JStr("urn:ietf:params:scim:api:messages:2.0:PatchOp")])),
      ("Operations", JList([JObject([
        ("op", JStr("Add")), ("path", JStr("members")),
        ("value", JList(seq(|userIds|, i requires 0 <= i < |userIds| => JObject([("value", userIds[i])]))))])]))])
  }

  /** The payload of a user create. */
  function UserPayload(email: string, firstName: string, lastName: string, roleTitle: string, isActive: bool): Json
  {
    JObject([
      ("schemas", JList([JStr("urn:ietf:params:scim:schemas:core:2.0:User")])),
      ("userName", JStr(email)),
      ("name", JObject([("familyName", JStr(lastName)), ("givenName", JStr(firstName))])),
      ("active", JBool(isActive)),
      ("roleTitle", JStr(roleTitle))])
  }

  /** The payload of a group create. */
  function GroupPayload(groupName: string): Json
  {
    JObject([
      ("schemas", JList([JStr("urn:ietf:params:scim:schemas:core:2.0:Group")])),
      ("displayName", JStr(groupName))])
  }

  /** `QaseScimClient`: the token, host and scheme it was made with, and the base URL built from them. */
  class Client {
    const token: string
    const host: string
    const ssl: bool
    const baseUrl: string

    constructor(token: string, host: string, ssl: bool)
      ensures this.token == token && this.host == host && this.ssl == ssl
      ensures baseUrl == BaseUrl(host, ssl)
    {
      this.token := token;
      this.host := host;
      this.ssl := ssl;
      baseUrl := (if ssl then "https://" else "http://") + host + "/scim/v2";
    }

    /** The request for `endpoint`, below the base URL. */
    function At(verb: string, endpoint: string, params: Json, payload: Json): HttpRequest
    {
      HttpRequest(verb, baseUrl + "/" + endpoint, params, payload)
    }

    /** The retried request of one listing page. */
    function Page(send: (HttpRequest, nat) -> Utils.Attempt<Response>, endpoint: string, limit: nat): nat -> Reply<Response>
    {
      (offset: nat) => Retry(Tries(send, At("GET", endpoint, PageParams(limit, offset), JNull)), MaxRetries).result
    }

    /**
     * `_request_with_retry`. Before try `i + 1` it sleeps
     * `backoff_factor * 2^i`; `backoffs` lists those exponents in order.
     */
    method RequestWithRetry(send: (HttpRequest, nat) -> Utils.Attempt<Response>, req: HttpRequest, maxRetries: int)
      returns (r: Reply<Response>, calls: nat, backoffs: seq<nat>)
      ensures RequestRun(r, calls) == Retry(Tries(send, req), maxRetries)
      ensures |backoffs| == (if calls == 0 then 0 else calls - 1)
      ensures forall i :: 0 <= i < |backoffs| ==> backoffs[i] == i
    {
      backoffs := [];
      if maxRetries < 0 {
        return Raised(OtherException("Exception")), 0, backoffs;
      }
      var attempt: nat := 0;
      while true
        invariant attempt <= maxRetries
        invariant Retry(Tries(send, req), maxRetries) == RetryFrom(Tries(send, req), maxRetries, attempt)
        invariant |backoffs| == attempt
        invariant forall i :: 0 <= i < |backoffs| ==> backoffs[i] == i
        decreases maxRetries - attempt
      {
        var a := send(req, attempt);
        assert a == Tries(send, req)(attempt);
        if a.Returns? {
          if a.result.status != 429 || attempt == maxRetries {
            return Ok(a.result), attempt + 1, backoffs;
          }
        } else if attempt == maxRetries {
          return Raised(a.exc), attempt + 1, backoffs;
        }
        backoffs := backoffs + [attempt];
        attempt := attempt + 1;
      }
    }

    /** `get_users` / `get_groups`: one page of `endpoint`. */
    method GetPage(send: (HttpRequest, nat) -> Utils.Attempt<Response>, endpoint: string, limit: nat, offset: nat)
      returns (r: Reply<Json>)
      ensures Page(send, endpoint, limit)(offset).Raised? ==> r == Raised(Page(send, endpoint, limit)(offset).exc)
      ensures Page(send, endpoint, limit)(offset).Ok? ==> r == Ok(PageData(Page(send, endpoint, limit)(offset).value))
    {
      var response, _, _ := RequestWithRetry(send, At("GET", endpoint, PageParams(limit, offset), JNull), MaxRetries);
      if response.Raised? {
        return Raised(response.exc);
      }
      if response.value.status == 200 {
        return Ok(response.value.body);
      }
      return Ok(JObject([("Resources", JList([])), ("totalResults", JInt(0))]));
    }

    /** `get_all_users` / `get_all_groups`: the listing of `endpoint`, page by page. */
    method GetAll(send: (HttpRequest, nat) -> Utils.Attempt<Response>, endpoint: string, limit: nat, ghost bound: nat)
      returns (r: Reply<seq<Json>>)
      requires limit > 0 && Ends(Page(send, endpoint, limit), limit, bound)
      ensures r == ListFrom(Page(send, endpoint, limit), limit, 0, bound, [])
    {
      ghost var read := Reader(Page(send, endpoint, limit));
      EndsRead(Page(send, endpoint, limit), limit, bound);
      assert ListFrom(Page(send, endpoint, limit), limit, 0, bound, []) == ListOver(read, limit, 0, bound, []);
      var all: seq<Json> := [];
      var offset: nat := 0;
      while true
        invariant ListOver(read, limit, 0, bound, []) == ListOver(read, limit, offset, bound, all)
        decreases if offset <= bound then bound - offset + 1 else 0
      {
        var page := ReadPage(send, endpoint, limit, offset);
        assert page == read(offset);
        ListOverStep(read, limit, offset, bound, all);
        if page.Raised? {
          return Raised(page.exc);
        }
        var users := page.value.0;
        all := all + users;
        var reached := AtLeast(|all|, page.value.1);
        if reached.Raised? {
          return Raised(reached.exc);
        }
        if reached.value || |users| < limit {
          return Ok(all);
        }
        offset := offset + limit;
      }
    }

    /** One page of the listing: its resources and its `totalResults`. */
    method ReadPage(send: (HttpRequest, nat) -> Utils.Attempt<Response>, endpoint: string, limit: nat, offset: nat)
      returns (r: Reply<(seq<Json>, Json)>)
      ensures r == PageItems(Page(send, endpoint, limit)(offset))
    {
      var data := GetPage(send, endpoint, limit, offset);
      if data.Raised? {
        return Raised(data.exc);
      }
      if !data.value.JObject? {
        return Raised(AttributeError);
      }
      var it := Iter(GetOr(data.value, "Resources", JList([])));
      if it.None? {
        return Raised(NotIterable);
      }
      return Ok((it.value, GetOr(data.value, "totalResults", JInt(0))));
    }

    /** The create answer for a request whose 409 is resolved by the listing of `endpoint` with the default page size. */
    function Created(send: (HttpRequest, nat) -> Utils.Attempt<Response>, endpoint: string, payload: Json,
                     key: string, name: string, bound: nat): Reply<Json>
      requires Ends(Page(send, endpoint, PageSize), PageSize, bound)
    {
      match Retry(Tries(send, At("POST", endpoint, JNull, payload)), MaxRetries).result
      case Raised(e) => Raised(e)
      case Ok(resp) => CreateOutcome(resp, ListFrom(Page(send, endpoint, PageSize), PageSize, 0, bound, []), key, name)
    }

    /** A 409 answer is resolved by name among the existing resources, and a create that was refused otherwise yields None. */
    lemma CreatedCases(send: (HttpRequest, nat) -> Utils.Attempt<Response>, endpoint: string, payload: Json,
                       key: string, name: string, bound: nat)
      requires Ends(Page(send, endpoint, PageSize), PageSize, bound)
      ensures var sent := Retry(Tries(send, At("POST", endpoint, JNull, payload)), MaxRetries).result;
        && (sent.Ok? && sent.value.status == 409 && ListFrom(Page(send, endpoint, PageSize), PageSize, 0, bound, []).Ok? ==>
              Created(send, endpoint, payload, key, name, bound) ==
                FindByName(ListFrom(Page(send, endpoint, PageSize), PageSize, 0, bound, []).value, key, name))
        && (sent.Ok? && sent.value.status !in {200, 201, 409} ==> Created(send, endpoint, payload, key, name, bound) == Ok(JNull))
        && (sent.Ok? && sent.value.status in {200, 201} && sent.value.body.JObject? ==>
              Created(send, endpoint, payload, key, name, bound) ==
                Ok(if JTruthy(Field(sent.value.body, "id")) then Field(sent.value.body, "id") else JNull))
        && (sent.Raised? ==> Created(send, endpoint, payload, key, name, bound) == Raised(sent.exc))
    {
    }

    /** Create one resource of `endpoint`, resolving a 409 by the listing. */
    method Create(send: (HttpRequest, nat) -> Utils.Attempt<Response>, endpoint: string, payload: Json,
                  key: string, name: string, ghost bound: nat)
      returns (r: Reply<Json>)
      requires Ends(Page(send, endpoint, PageSize), PageSize, bound)
      ensures r == Created(send, endpoint, payload, key, name, bound)
    {
      var response, _, _ := RequestWithRetry(send, At("POST", endpoint, JNull, payload), MaxRetries);
      if response.Raised? {
        return Raised(response.exc);
      }
      var resp := response.value;
      if resp.status == 200 || resp.status == 201 {
        if !resp.body.JObject? {
          return Raised(AttributeError);
        }
        var id := Field(resp.body, "id");
        return Ok(if JTruthy(id) then id else JNull);
      } else if resp.status == 409 {
        var existing := GetAll(send, endpoint, PageSize, bound);
        if existing.Raised? {
          return Raised(existing.exc);
        }
        r := FindFirst(existing.value, key, name);
      } else {
        return Ok(JNull);
      }
    }

    /** `create_user`: the id of the created user, or of the existing one with that user name. */
    method CreateUser(send: (HttpRequest, nat) -> Utils.Attempt<Response>, email: string, firstName: string,
                      lastName: string, roleTitle: string, isActive: bool, ghost bound: nat)
      returns (r: Reply<Json>)
      requires Ends(Page(send, "Users", PageSize), PageSize, bound)
      ensures r == Created(send, "Users", UserPayload(email, firstName, lastName, roleTitle, isActive), "userName", email, bound)
    {
      r := Create(send, "Users", UserPayload(email, firstName, lastName, roleTitle, isActive), "userName", email, bound);
    }

    /** `create_group`: the id of the created group, or of the existing one with that display name. */
    method CreateGroup(send: (HttpRequest, nat) -> Utils.Attempt<Response>, groupName: string, ghost bound: nat)
      returns (r: Reply<Json>)
      requires Ends(Page(send, "Groups", PageSize), PageSize, bound)
      ensures r == Created(send, "Groups", GroupPayload(groupName), "displayName", groupName, bound)
    {
      r := Create(send, "Groups", GroupPayload(groupName), "displayName", groupName, bound);
    }

    /**
     * `add_users_to_group`: an empty list succeeds with no request;
     * otherwise one PATCH, which succeeds on 200 or 204.
     */
    method AddUsersToGroup(send: (HttpRequest, nat) -> Utils.Attempt<Response>, groupId: string, userIds: seq<Json>)
      returns (r: Reply<bool>, requests: nat)
      ensures userIds == [] ==> r == Ok(true) && requests == 0
      ensures userIds != [] ==>
        var sent := Retry(Tries(send, At("PATCH", "Groups/" + groupId, JNull, MembersPayload(userIds))), MaxRetries);
        && requests == sent.calls
        && (sent.result.Raised? ==> r == Raised(sent.result.exc))
        && (sent.result.Ok? ==> r == Ok(sent.result.value.status == 200 || sent.result.value.status == 204))
    {
      if userIds == [] {
        return Ok(true), 0;
      }
      var response, calls, _ := RequestWithRetry(send, At("PATCH", "Groups/" + groupId, JNull, MembersPayload(userIds)), MaxRetries);
      requests := calls;
      if response.Raised? {
        return Raised(response.exc), requests;
      }
      return Ok(response.value.status == 200 || response.value.status == 204), requests;
    }
  }

  /** The loop that looks for the existing resource by name. */
  method FindFirst(items: seq<Json>, key: string, name: string) returns (r: Reply<Json>)
    ensures r == FindByName(items, key, name)
  {
    for i := 0 to |items|
      invariant FindByName(items, key, name) == FindByName(items[i..], key, name)
    {
      assert items[i..][1..] == items[i + 1..];
      var item := items[i];
      if !item.JObject? {
        return Raised(AttributeError);
      }
      var n := GetOr(item, key, JStr(""));
      if !n.JStr? {
        return Raised(AttributeError);
      }
      assert Readable(item, key);
      if Lower(n.s) == Lower(name) {
        return Ok(Field(item, "id"));
      }
    }
    return Ok(JNull);
  }
}
