// migration/transform/attachments.py: finding attachment hashes and URLs in
// markdown text, and rewriting them through the source-to-target hash table.
//
// The regular expressions are matched with IGNORECASE. Every pattern here has
// one way to match at a given position, which the functions below compute:
// `[a-f0-9]{32,64}` followed by `/` matches exactly the maximal run of hex
// digits, when that run is 32 to 64 long and a `/` follows it. A scan
// (`findall`, `search`, `sub`) tries each position from left to right and
// resumes after the end of every match.

module AttachmentText {
  import opened Py
  import opened Dicts

  predicate IsHex(c: char)
  {
    ('0' <= c <= '9') || ('a' <= c <= 'f') || ('A' <= c <= 'F')
  }

  predicate AllHex(s: string)
  {
    forall i :: 0 <= i < |s| ==> IsHex(s[i])
  }

  /** Length of the run of hex digits starting at `p`. */
  function HexRun(t: string, p: nat): (k: nat)
    ensures p + k <= |t| || (p >= |t| && k == 0)
    ensures forall j :: p <= j < p + k ==> IsHex(t[j])
    ensures p + k < |t| ==> !IsHex(t[p + k])
    decreases |t| - p
  {
    if p < |t| && IsHex(t[p]) then 1 + HexRun(t, p + 1) else 0
  }

  /** `lit` (written in lower case) occurs at `p`, ignoring case. */
  predicate CiAt(t: string, p: nat, lit: string)
  {
    p + |lit| <= |t| && Lower(t[p..p + |lit|]) == lit
  }

  /**
   * `lit` followed by `([a-f0-9]{32,64})/` matches at `p`; the result is the
   * length of the captured hash.
   */
  function SegmentAt(t: string, p: nat, lit: string): (r: Option<nat>)
    ensures r.Some? ==> CiAt(t, p, lit) && 32 <= r.value <= 64 && p + |lit| + r.value < |t|
    ensures r.Some? ==> AllHex(t[p + |lit|..p + |lit| + r.value]) && t[p + |lit| + r.value] == '/'
  {
    if CiAt(t, p, lit) then
      var k := HexRun(t, p + |lit|);
      if 32 <= k <= 64 && p + |lit| + k < |t| && t[p + |lit| + k] == '/' then Some(k) else None
    else None
  }

  /** The hash part of a match of `SegmentAt`. */
  function SegmentHash(t: string, p: nat, lit: string): string
    requires SegmentAt(t, p, lit).Some?
  {
    t[p + |lit|..p + |lit| + SegmentAt(t, p, lit).value]
  }

  /** `lit` + `/` + 32..64 hex + `/` occurs in `t` with hash `h`, ignoring case in `lit` and `h`. */
  ghost predicate OccursAsSegment(t: string, lit: string, h: string)
  {
    exists p: nat :: SegmentAt(t, p, lit).Some? && Lower(SegmentHash(t, p, lit)) == Lower(h)
  }

  /** `re.findall(lit + '([a-f0-9]{32,64})/', t[i..], re.IGNORECASE)`: the captured hashes, as written. */
  function FindAll(t: string, lit: string, i: nat): (r: seq<string>)
    requires |lit| > 0
    ensures forall x :: x in r ==> 32 <= |x| <= 64 && AllHex(x)
    ensures forall x :: x in r ==> exists p: nat :: i <= p && SegmentAt(t, p, lit).Some? && SegmentHash(t, p, lit) == x
    decreases |t| - i
  {
    if i >= |t| then []
    else match SegmentAt(t, i, lit)
      case Some(k) =>
        var rest := FindAll(t, lit, i + |lit| + k + 1);
        [t[i + |lit|..i + |lit| + k]] + rest
      case None => FindAll(t, lit, i + 1)
  }

  /** `re.search(lit + '([a-f0-9]{32,64})/', t, re.IGNORECASE).group(1)`: the leftmost match. */
  function Search(t: string, lit: string): (r: Option<string>)
    requires |lit| > 0
    ensures r.Some? ==> 32 <= |r.value| <= 64 && AllHex(r.value)
    ensures r.Some? ==> exists p: nat :: SegmentAt(t, p, lit).Some? && SegmentHash(t, p, lit) == r.value
  {
    var all := FindAll(t, lit, 0);
    if all == [] then None else assert all[0] in all; Some(all[0])
  }

  const Segment: string := "/attachment/"

  /** The set of the lowercased strings of `xs`. */
  function LoweredSet(xs: seq<string>): set<string>
  {
    if xs == [] then {} else LoweredSet(xs[..|xs| - 1]) + {Lower(xs[|xs| - 1])}
  }

  lemma {:induction false} LoweredSetMembers(xs: seq<string>, h: string)
    ensures h in LoweredSet(xs) <==> exists x :: x in xs && Lower(x) == h
  {
    if xs != [] {
      var init := xs[..|xs| - 1];
      LoweredSetMembers(init, h);
      assert xs == init + [xs[|xs| - 1]];
      if h in LoweredSet(init) {
        var x :| x in init && Lower(x) == h;
        assert x in xs;
      }
    }
  }

  /** The hashes `extract_attachment_hashes_from_text` collects, lowercased. */
  function TextHashes(t: string): set<string>
  {
    LoweredSet(FindAll(t, Segment, 0))
  }

  /** Every collected hash is lower-case hex of length 32 to 64 that occurs in the text as a segment. */
  lemma TextHashFacts(t: string, h: string)
    requires h in TextHashes(t)
    ensures h == Lower(h) && 32 <= |h| <= 64 && AllHex(h)
    ensures OccursAsSegment(t, Segment, h)
  {
    var all := FindAll(t, Segment, 0);
    LoweredSetMembers(all, h);
    var x :| x in all && Lower(x) == h;
    LowerIdempotent(x);
    assert 32 <= |x| <= 64 && AllHex(x);
    LowerKeepsHex(x);
    var p: nat :| SegmentAt(t, p, Segment).Some? && SegmentHash(t, p, Segment) == x;
    assert Lower(SegmentHash(t, p, Segment)) == Lower(h);
  }

  lemma LowerKeepsHex(x: string)
    requires AllHex(x)
    ensures AllHex(Lower(x))
  {
    forall j | 0 <= j < |x| ensures IsHex(Lower(x)[j]) {
      assert Lower(x)[j] == LowerChar(x[j]);
    }
  }

  /** The empty text holds no hash. */
  lemma TextHashesEmpty()
    ensures TextHashes("") == {}
  {
  }

  /**
   * `extract_attachment_hashes_from_text`: non-strings and the empty string
   * give the empty set; otherwise every `/attachment/<hash>/` match is added
   * lowercased.
   */
  method ExtractHashesFromText(text: Value) returns (hashes: set<string>)
    ensures !text.StrV? || text.s == "" ==> hashes == {}
    ensures text.StrV? ==> hashes == TextHashes(text.s)
    ensures forall h :: h in hashes ==> h == Lower(h) && 32 <= |h| <= 64 && AllHex(h)
    ensures text.StrV? ==> forall h :: h in hashes ==> OccursAsSegment(text.s, Segment, h)
  {
    hashes := {};
    if !text.StrV? || text.s == "" {
      return;
    }
    var matches := FindAll(text.s, Segment, 0);
    hashes := LowerAll(matches);
    forall h | h in hashes
      ensures h == Lower(h) && 32 <= |h| <= 64 && AllHex(h) && OccursAsSegment(text.s, Segment, h)
    {
      TextHashFacts(text.s, h);
    }
  }

  /** The set of the lowercased `xs`, built one match at a time. */
  method LowerAll(xs: seq<string>) returns (lowered: set<string>)
    ensures lowered == LoweredSet(xs)
  {
    lowered := {};
    var i := 0;
    while i < |xs|
      invariant 0 <= i <= |xs|
      invariant lowered == LoweredSet(xs[..i])
    {
      assert xs[..i + 1][..i] == xs[..i];
      lowered := lowered + {Lower(xs[i])};
      i := i + 1;
    }
    assert xs[..i] == xs;
  }

  // ------------------------------------------------------- markdown image URLs

  /** First index `>= i` holding `c`. */
  function IndexOf(t: string, c: char, i: nat): (r: Option<nat>)
    ensures r.Some? ==> i <= r.value < |t| && t[r.value] == c
    ensures r.Some? ==> forall j :: i <= j < r.value ==> t[j] != c
    ensures r.None? ==> forall j :: i <= j < |t| ==> t[j] != c
    decreases |t| - i
  {
    if i >= |t| then None else if t[i] == c then Some(i) else IndexOf(t, c, i + 1)
  }

  /**
   * Inside a URL ending before `close`, a position where `/attachment/<hash>/`
   * matches and at least one character follows before `close`.
   */
  predicate UrlSegmentAt(t: string, s: nat, close: nat)
  {
    SegmentAt(t, s, Segment).Some? && s + |Segment| + SegmentAt(t, s, Segment).value + 1 < close
  }

  /** The last such position in `[lo, hi)`: the greedy `[^)]+` before `/attachment/` takes the longest prefix. */
  function LastUrlSegment(t: string, lo: nat, hi: nat, close: nat): (r: Option<nat>)
    ensures r.Some? ==> lo <= r.value < hi && UrlSegmentAt(t, r.value, close)
    ensures r.Some? ==> forall s :: r.value < s < hi ==> !UrlSegmentAt(t, s, close)
    ensures r.None? ==> forall s :: lo <= s < hi ==> !UrlSegmentAt(t, s, close)
  {
    assert forall s: nat :: UrlSegments(t, close)(s) == UrlSegmentAt(t, s, close);
    LastWhere(UrlSegments(t, close), lo, hi)
  }

  function UrlSegments(t: string, close: nat): nat -> bool
  {
    (s: nat) => UrlSegmentAt(t, s, close)
  }

  /** The last position in `[lo, hi)` where `p` holds. */
  function LastWhere(p: nat -> bool, lo: nat, hi: nat): (r: Option<nat>)
    ensures r.Some? ==> lo <= r.value < hi && p(r.value)
    ensures r.Some? ==> forall s :: r.value < s < hi ==> !p(s)
    ensures r.None? ==> forall s :: lo <= s < hi ==> !p(s)
    decreases hi
  {
    if hi <= lo then None
    else if p(hi - 1) then Some(hi - 1)
    else LastWhere(p, lo, hi - 1)
  }

  /** A match of `!\[[^\]]*\]\((https://[^\)]+/attachment/([a-f0-9]{32,64})/[^\)]+)\)`. */
  datatype ImageLink = ImageLink(url: string, hash: string, end: nat)

  function ImageLinkAt(t: string, p: nat): (r: Option<ImageLink>)
    ensures r.Some? ==> p < r.value.end <= |t|
  {
    if p + 2 <= |t| && t[p..p + 2] == "![" then
      match IndexOf(t, ']', p + 2)
      case None => None
      case Some(q) =>
        if q + 1 < |t| && t[q + 1] == '(' then
          var u := q + 2;
          match IndexOf(t, ')', u)
          case None => None
          case Some(c) =>
            if CiAt(t, u, "https://") then
              match LastUrlSegment(t, u + 9, c, c)
              case None => None
              case Some(s) =>
                var k := SegmentAt(t, s, Segment).value;
                Some(ImageLink(t[u..c], t[s + |Segment|..s + |Segment| + k], c + 1))
            else None
        else None
    else None
  }

  /** `re.findall` of the image-link pattern from `i`: (url, hash) pairs in text order. */
  function FindImageLinks(t: string, i: nat): (r: seq<(string, string)>)
    ensures forall m :: m in r ==> CiAt(m.0, 0, "https://") && 32 <= |m.1| <= 64 && AllHex(m.1)
    ensures forall m :: m in r ==> ')' !in m.0
    decreases |t| - i
  {
    if i >= |t| then []
    else match ImageLinkAt(t, i)
      case Some(link) => ImageLinkFacts(t, i); [(link.url, link.hash)] + FindImageLinks(t, link.end)
      case None => FindImageLinks(t, i + 1)
  }

  lemma ImageLinkFacts(t: string, p: nat)
    requires ImageLinkAt(t, p).Some?
    ensures CiAt(ImageLinkAt(t, p).value.url, 0, "https://")
    ensures 32 <= |ImageLinkAt(t, p).value.hash| <= 64 && AllHex(ImageLinkAt(t, p).value.hash)
    ensures ')' !in ImageLinkAt(t, p).value.url
  {
    var q := IndexOf(t, ']', p + 2).value;
    var u := q + 2;
    var c := IndexOf(t, ')', u).value;
    var url := t[u..c];
    assert url[0..8] == t[u..u + 8];
    assert forall j :: 0 <= j < |url| ==> url[j] == t[u + j];
  }

  /** Hash to URL over `links` in order, a later link with the same hash replacing an earlier one. */
  function UrlMap(links: seq<(string, string)>): map<string, string>
  {
    if links == [] then map[]
    else
      var last := links[|links| - 1];
      UrlMap(links[..|links| - 1])[last.1 := last.0]
  }

  /** The keys are the hashes of the links, each holding the URL of the last link with that hash. */
  lemma UrlMapLastWins(links: seq<(string, string)>, h: string)
    ensures h in UrlMap(links) <==> exists i :: 0 <= i < |links| && links[i].1 == h
    ensures h in UrlMap(links) ==>
      exists i :: 0 <= i < |links| && links[i] == (UrlMap(links)[h], h) && forall j :: i < j < |links| ==> links[j].1 != h
  {
    UrlMapKeys(links, h);
    if h in UrlMap(links) {
      UrlMapLast(links, h);
    }
  }

  lemma {:induction false} UrlMapKeys(links: seq<(string, string)>, h: string)
    ensures h in UrlMap(links) <==> exists i :: 0 <= i < |links| && links[i].1 == h
  {
    if links != [] {
      var n := |links| - 1;
      var init := links[..n];
      UrlMapKeys(init, h);
      if links[n].1 != h {
        assert h in UrlMap(links) <==> h in UrlMap(init);
        if h in UrlMap(init) {
          var i :| 0 <= i < |init| && init[i].1 == h;
          assert links[i].1 == h;
        } else {
          forall i | 0 <= i < |links| ensures links[i].1 != h {
            if i < n { assert init[i] == links[i]; }
          }
        }
      }
    }
  }

  lemma {:induction false} UrlMapLast(links: seq<(string, string)>, h: string)
    requires h in UrlMap(links)
    ensures exists i :: 0 <= i < |links| && links[i] == (UrlMap(links)[h], h) && forall j :: i < j < |links| ==> links[j].1 != h
  {
    assert links != [];
    var n := |links| - 1;
    var init := links[..n];
    if links[n].1 == h {
      assert links[n] == (UrlMap(links)[h], h);
    } else {
      assert h in UrlMap(init) && UrlMap(links)[h] == UrlMap(init)[h];
      UrlMapLast(init, h);
      var i :| 0 <= i < |init| && init[i] == (UrlMap(init)[h], h) && forall j :: i < j < |init| ==> init[j].1 != h;
      forall j | i < j < |links| ensures links[j].1 != h {
        if j < n { assert init[j] == links[j]; }
      }
      assert links[i] == (UrlMap(links)[h], h);
    }
  }

  /**
   * `extract_attachment_urls_from_text`: hash (as written, not lowercased) to
   * URL, for every https image link; a later link with the same hash wins.
   */
  method ExtractUrlsFromText(text: Value) returns (urls: map<string, string>)
    ensures !text.StrV? || text.s == "" ==> urls == map[]
    ensures text.StrV? && text.s != "" ==> urls == UrlMap(FindImageLinks(text.s, 0))
    ensures forall h :: h in urls ==> CiAt(urls[h], 0, "https://") && 32 <= |h| <= 64 && AllHex(h)
  {
    urls := map[];
    if !text.StrV? || text.s == "" {
      return;
    }
    var links := FindImageLinks(text.s, 0);
    var i := 0;
    while i < |links|
      invariant 0 <= i <= |links|
      invariant urls == UrlMap(links[..i])
    {
      assert links[..i + 1][..i] == links[..i];
      urls := urls[links[i].1 := links[i].0];
      i := i + 1;
    }
    assert links[..i] == links;
    forall h | h in urls ensures CiAt(urls[h], 0, "https://") && 32 <= |h| <= 64 && AllHex(h) {
      UrlMapLastWins(links, h);
      var n :| 0 <= n < |links| && links[n] == (urls[h], h) && forall j :: n < j < |links| ==> links[j].1 != h;
      assert links[n] in links;
    }
  }

  // --------------------------------------------------------- dict fields

  /** The texts `extract_attachment_hashes_from_dict` scans in one field value. */
  function FieldTexts(v: Json): seq<Value>
  {
    if !JTruthy(v) then []
    else match v
      case JStr(s) => [StrV(s)]
      case JList(items) => ItemTexts(items)
      case JObject(es) =>
        (match JGet(es, "value") case Some(JStr(s)) => [StrV(s)] case _ => [])
      case _ => []
  }

  /** From a list: strings, and the string value of dicts that have a 'value' key. */
  function ItemTexts(items: seq<Json>): seq<Value>
  {
    if items == [] then []
    else
      var head := match items[0]
        case JStr(s) => [StrV(s)]
        case JObject(es) => (match JGet(es, "value") case Some(JStr(s)) => [StrV(s)] case _ => [])
        case _ => [];
      head + ItemTexts(items[1..])
  }

  /** The text hashes of every string among `texts`. */
  function TextsHashes(texts: seq<Value>): set<string>
  {
    if texts == [] then {}
    else
      var last := texts[|texts| - 1];
      TextsHashes(texts[..|texts| - 1]) + (if last.StrV? then TextHashes(last.s) else {})
  }

  /** The hashes of the listed fields of `data`, over every text they hold. */
  function FieldsHashes(data: Json, fields: seq<string>): set<string>
  {
    UnionOf(fields, f => FieldHashes(data, f))
  }

  /** The hashes of the texts one field of `data` holds. */
  function FieldHashes(data: Json, f: string): set<string>
  {
    TextsHashes(FieldTexts(Field(data, f)))
  }

  /** The union of `g` over `xs`, taken left to right. */
  function UnionOf<T>(xs: seq<T>, g: T -> set<string>): set<string>
  {
    if xs == [] then {} else UnionOf(xs[..|xs| - 1], g) + g(xs[|xs| - 1])
  }

  lemma {:induction false} UnionOfMembers<T>(xs: seq<T>, g: T -> set<string>, h: string)
    ensures h in UnionOf(xs, g) <==> exists i :: 0 <= i < |xs| && h in g(xs[i])
  {
    if xs != [] {
      var n := |xs| - 1;
      var init := xs[..n];
      UnionOfMembers(init, g, h);
      if h in UnionOf(init, g) {
        var i :| 0 <= i < n && h in g(init[i]);
        assert xs[i] == init[i];
      }
      if i :| 0 <= i < |xs| && h in g(xs[i]) {
        if i < n {
          assert init[i] == xs[i];
        }
      }
    }
  }

  lemma {:induction false} TextsHashesMembers(texts: seq<Value>, h: string)
    ensures h in TextsHashes(texts) <==> exists t :: t in texts && t.StrV? && h in TextHashes(t.s)
  {
    if texts != [] {
      var init := texts[..|texts| - 1];
      TextsHashesMembers(init, h);
      assert texts == init + [texts[|texts| - 1]];
      if h in TextsHashes(init) {
        var t :| t in init && t.StrV? && h in TextHashes(t.s);
        assert t in texts;
      }
    }
  }

  /** A hash comes from a listed field of `data`, and from nowhere else. */
  lemma FieldsHashesMembers(data: Json, fields: seq<string>, h: string)
    ensures h in FieldsHashes(data, fields) <==>
      exists i :: 0 <= i < |fields| && h in FieldHashes(data, fields[i])
  {
    UnionOfMembers(fields, f => FieldHashes(data, f), h);
  }

  /** The hashes of one field's texts, text by text. */
  method ExtractHashesFromTexts(texts: seq<Value>) returns (all: set<string>)
    ensures all == TextsHashes(texts)
  {
    all := {};
    var j := 0;
    while j < |texts|
      invariant 0 <= j <= |texts|
      invariant all == TextsHashes(texts[..j])
    {
      var hs := ExtractHashesFromText(texts[j]);
      assert texts[..j + 1][..j] == texts[..j];
      all := all + hs;
      j := j + 1;
    }
    assert texts[..j] == texts;
  }

  /**
   * `extract_attachment_hashes_from_dict`: the union of the text hashes of the
   * listed fields only, reading strings, list items (strings or dicts with a
   * 'value') and dicts with a 'value'.
   */
  method ExtractHashesFromDict(data: Json, fields: seq<string>) returns (all: set<string>)
    ensures all == FieldsHashes(data, fields)
    ensures forall h :: h in all ==> h == Lower(h) && 32 <= |h| <= 64 && AllHex(h)
  {
    all := {};
    var i := 0;
    while i < |fields|
      invariant 0 <= i <= |fields|
      invariant all == FieldsHashes(data, fields[..i])
    {
      var f := fields[i];
      assert fields[..i + 1][..i] == fields[..i];
      var hs := ExtractHashesFromTexts(FieldTexts(Field(data, f)));
      all := all + hs;
      i := i + 1;
    }
    assert fields[..i] == fields;
    forall h | h in all ensures h == Lower(h) && 32 <= |h| <= 64 && AllHex(h) {
      FieldHashFacts(data, fields, h);
    }
  }

  lemma FieldHashFacts(data: Json, fields: seq<string>, h: string)
    requires h in FieldsHashes(data, fields)
    ensures h == Lower(h) && 32 <= |h| <= 64 && AllHex(h)
  {
    FieldsHashesMembers(data, fields, h);
    var i :| 0 <= i < |fields| && h in FieldHashes(data, fields[i]);
    var f := fields[i];
    TextsHashesMembers(FieldTexts(Field(data, f)), h);
    var t :| t in FieldTexts(Field(data, f)) && t.StrV? && h in TextHashes(t.s);
    TextHashFacts(t.s, h);
  }

  /** The image-link URLs of every string among `texts`; a later text's URL for a hash wins. */
  function TextsUrls(texts: seq<Value>): map<string, string>
  {
    if texts == [] then map[]
    else
      var last := texts[|texts| - 1];
      TextsUrls(texts[..|texts| - 1]) + (if last.StrV? then UrlMap(FindImageLinks(last.s, 0)) else map[])
  }

  /** `extract_attachment_urls_from_dict`: the same fields and texts as for hashes, merged in order. */
  function FieldsUrls(data: Json, fields: seq<string>): map<string, string>
  {
    if fields == [] then map[]
    else
      var f := fields[|fields| - 1];
      FieldsUrls(data, fields[..|fields| - 1]) + TextsUrls(FieldTexts(Field(data, f)))
  }

  /** Every URL comes from an https image link in one of the listed fields, with that hash. */
  lemma {:induction false} FieldsUrlsFrom(data: Json, fields: seq<string>, h: string)
    requires h in FieldsUrls(data, fields)
    ensures exists f, t ::
      && f in fields && t in FieldTexts(Field(data, f)) && t.StrV?
      && h in UrlMap(FindImageLinks(t.s, 0)) && FieldsUrls(data, fields)[h] == UrlMap(FindImageLinks(t.s, 0))[h]
  {
    var init := fields[..|fields| - 1];
    var f := fields[|fields| - 1];
    var texts := FieldTexts(Field(data, f));
    if h in TextsUrls(texts) {
      TextsUrlsFrom(texts, h);
      var t :| t in texts && t.StrV? && h in UrlMap(FindImageLinks(t.s, 0))
        && TextsUrls(texts)[h] == UrlMap(FindImageLinks(t.s, 0))[h];
      assert f in fields;
    } else {
      FieldsUrlsFrom(data, init, h);
      var g, t :| g in init && t in FieldTexts(Field(data, g)) && t.StrV?
        && h in UrlMap(FindImageLinks(t.s, 0)) && FieldsUrls(data, init)[h] == UrlMap(FindImageLinks(t.s, 0))[h];
      assert g in fields;
    }
  }

  lemma {:induction false} TextsUrlsFrom(texts: seq<Value>, h: string)
    requires h in TextsUrls(texts)
    ensures exists t ::
      && t in texts && t.StrV? && h in UrlMap(FindImageLinks(t.s, 0))
      && TextsUrls(texts)[h] == UrlMap(FindImageLinks(t.s, 0))[h]
  {
    var init := texts[..|texts| - 1];
    var last := texts[|texts| - 1];
    if last.StrV? && h in UrlMap(FindImageLinks(last.s, 0)) {
      assert last in texts;
    } else {
      TextsUrlsFrom(init, h);
      var t :| t in init && t.StrV? && h in UrlMap(FindImageLinks(t.s, 0))
        && TextsUrls(init)[h] == UrlMap(FindImageLinks(t.s, 0))[h];
      assert t in texts;
    }
  }

  // ------------------------------------------------------------ rewriting

  /** No key of the mapping equals `h` once lowercased. */
  predicate NoCiKey(mapping: ODict<string, string>, h: string)
  {
    forall k :: k in mapping.entries ==> Lower(k) != h
  }

  /**
   * The target hash for a lowercased source hash: the mapping's value for it if
   * truthy, else the value of the first key that lowercases to it; empty
   * results count as unmapped.
   */
  function LookupHash(mapping: ODict<string, string>, h: string): (r: Option<string>)
    ensures r.Some? ==> r.value != ""
    ensures h in mapping.entries && mapping.entries[h] != "" ==> r == Some(mapping.entries[h])
    ensures r.Some? && !(h in mapping.entries && mapping.entries[h] != "") ==>
      exists k :: k in mapping.entries && Lower(k) == h && mapping.entries[k] == r.value
  {
    var direct := if h in mapping.entries then mapping.entries[h] else "";
    var v := if direct != "" then direct
      else match FirstKey(mapping, k => Lower(k) == h)
        case Some(k) => mapping.entries[k]
        case None => "";
    if v != "" then Some(v) else None
  }

  lemma LookupHashNoCiKey(mapping: ODict<string, string>, x: string)
    requires NoCiKey(mapping, Lower(x))
    ensures LookupHash(mapping, Lower(x)).None?
  {
    LowerIdempotent(x);
  }

  /**
   * A match of `(https://[^/]+/public/team/)([a-f0-9]{32,64})(/attachment/)([a-f0-9]{32,64})(/[^\)]+)`,
   * by the positions where its groups start: the prefix at `start`, then the
   * workspace hash, the `/attachment/` literal, the attachment hash and the
   * suffix, which ends at `end`.
   */
  datatype TeamUrl = TeamUrl(start: nat, workspace: nat, segment: nat, hash: nat, suffix: nat, end: nat)

  predicate TeamUrlIn(t: string, u: TeamUrl)
  {
    u.start < u.workspace <= u.segment && u.segment + |Segment| == u.hash && u.hash < u.suffix < u.end <= |t|
  }

  /** Length of the run of characters other than `c` starting at `p`. */
  function RunWithout(t: string, p: nat, c: char): (k: nat)
    ensures p + k <= |t| || (p >= |t| && k == 0)
    ensures forall j :: p <= j < p + k ==> t[j] != c
    ensures p + k < |t| ==> t[p + k] == c
    decreases |t| - p
  {
    if p < |t| && t[p] != c then 1 + RunWithout(t, p + 1, c) else 0
  }

  function TeamUrlAt(t: string, p: nat): (r: Option<TeamUrl>)
    ensures r.Some? ==> TeamUrlIn(t, r.value) && r.value.start == p
    ensures r.Some? ==> 32 <= r.value.suffix - r.value.hash <= 64 && AllHex(t[r.value.hash..r.value.suffix])
    ensures r.Some? ==> Lower(t[r.value.segment..r.value.hash]) == Segment && t[r.value.suffix] == '/'
  {
    if !CiAt(t, p, "https://") then None
    else TeamUrlAfterScheme(t, p, RunWithout(t, p + 8, '/'))
  }

  /** The rest of a team URL after `https://` and a host of length `h`. */
  function TeamUrlAfterScheme(t: string, p: nat, h: nat): (r: Option<TeamUrl>)
    ensures r.Some? ==> TeamUrlIn(t, r.value) && r.value.start == p
    ensures r.Some? ==> 32 <= r.value.suffix - r.value.hash <= 64 && AllHex(t[r.value.hash..r.value.suffix])
    ensures r.Some? ==> Lower(t[r.value.segment..r.value.hash]) == Segment && t[r.value.suffix] == '/'
  {
    if h == 0 || !CiAt(t, p + 8 + h, "/public/team/") then None
    else
      var w := p + 8 + h + 13;
      TeamUrlAfterTeam(t, p, w, HexRun(t, w))
  }

  /** The rest of a team URL after a workspace hash of length `k` starting at `w`. */
  function TeamUrlAfterTeam(t: string, p: nat, w: nat, k: nat): (r: Option<TeamUrl>)
    requires p < w
    ensures r.Some? ==> TeamUrlIn(t, r.value) && r.value.start == p
    ensures r.Some? ==> 32 <= r.value.suffix - r.value.hash <= 64 && AllHex(t[r.value.hash..r.value.suffix])
    ensures r.Some? ==> Lower(t[r.value.segment..r.value.hash]) == Segment && t[r.value.suffix] == '/'
  {
    if !(32 <= k <= 64) then None
    else match SegmentAt(t, w + k, Segment)
      case None => None
      case Some(k2) =>
        var a := w + k + |Segment|;
        var s := RunWithout(t, a + k2 + 1, ')');
        if s == 0 then None
        else Some(TeamUrl(p, w, w + k, a, a + k2, a + k2 + 1 + s))
  }

  /** The replacement `replace_full_url` returns for one match. */
  function RewriteTeamUrl(t: string, u: TeamUrl, mapping: ODict<string, string>, targetWorkspace: Option<string>): string
    requires TeamUrlIn(t, u)
  {
    match LookupHash(mapping, Lower(t[u.hash..u.suffix]))
    case None => t[u.start..u.end]
    case Some(v) =>
      var ws := if targetWorkspace.Some? && targetWorkspace.value != "" then targetWorkspace.value else t[u.workspace..u.segment];
      t[u.start..u.workspace] + ws + t[u.segment..u.hash] + v + t[u.suffix..u.end]
  }

  /** First pass: `re.sub(full_url_pattern, replace_full_url, t[i..])`. */
  function SubTeamUrls(t: string, mapping: ODict<string, string>, targetWorkspace: Option<string>, i: nat): string
    decreases |t| - i
  {
    if i >= |t| then []
    else match TeamUrlAt(t, i)
      case Some(u) => RewriteTeamUrl(t, u, mapping, targetWorkspace) + SubTeamUrls(t, mapping, targetWorkspace, u.end)
      case None => [t[i]] + SubTeamUrls(t, mapping, targetWorkspace, i + 1)
  }

  /** Second pass: `re.sub('(/attachment/)([a-f0-9]{32,64})(/)', replace_hash, t[i..])`. */
  function SubSegments(t: string, mapping: ODict<string, string>, i: nat): string
    decreases |t| - i
  {
    if i >= |t| then []
    else match SegmentAt(t, i, Segment)
      case Some(k) =>
        var end := i + |Segment| + k + 1;
        var replaced := match LookupHash(mapping, Lower(t[i + |Segment|..i + |Segment| + k]))
          case Some(v) => t[i..i + |Segment|] + v + "/"
          case None => t[i..end];
        replaced + SubSegments(t, mapping, end)
      case None => [t[i]] + SubSegments(t, mapping, i + 1)
  }

  /**
   * `replace_attachment_hashes_in_text`: non-strings, the empty string and an
   * empty mapping leave the text as it is; otherwise the team-URL pass, then
   * the segment pass over its output.
   */
  function ReplaceHashes(text: Value, mapping: ODict<string, string>, targetWorkspace: Option<string>): (r: Value)
    ensures !text.StrV? || text.s == "" || mapping.entries == map[] ==> r == text
    ensures text.StrV? ==> r.StrV?
  {
    if !text.StrV? || text.s == "" || mapping.entries == map[] then text
    else StrV(SubSegments(SubTeamUrls(text.s, mapping, targetWorkspace, 0), mapping, 0))
  }

  /** Every team URL matched at or after `i` has a hash with no case-insensitive key. */
  predicate TeamUrlsUnmapped(t: string, mapping: ODict<string, string>, i: nat)
  {
    forall p: nat :: i <= p < |t| && TeamUrlAt(t, p).Some? ==>
      NoCiKey(mapping, Lower(t[TeamUrlAt(t, p).value.hash..TeamUrlAt(t, p).value.suffix]))
  }

  predicate SegmentsUnmapped(t: string, mapping: ODict<string, string>, i: nat)
  {
    forall p: nat :: i <= p < |t| && SegmentAt(t, p, Segment).Some? ==> NoCiKey(mapping, Lower(SegmentHash(t, p, Segment)))
  }

  lemma {:induction false} SubTeamUrlsUnmapped(t: string, mapping: ODict<string, string>, ws: Option<string>, i: nat)
    requires i <= |t| && TeamUrlsUnmapped(t, mapping, i)
    ensures SubTeamUrls(t, mapping, ws, i) == t[i..]
    decreases |t| - i
  {
    if i < |t| {
      var e := TeamUrlEnd(t, i);
      SubTeamUrlsStep(t, mapping, ws, i);
      SubTeamUrlsUnmapped(t, mapping, ws, e);
      SliceSplit(t, i, e);
    }
  }

  /** Where the team-URL pass goes on after position `i`. */
  function TeamUrlEnd(t: string, i: nat): (e: nat)
    requires i < |t|
    ensures i < e <= |t|
  {
    match TeamUrlAt(t, i)
    case Some(u) => u.end
    case None => i + 1
  }

  /** With no mapped hash at `i`, the team-URL pass copies `t[i..TeamUrlEnd(t, i)]`. */
  lemma SubTeamUrlsStep(t: string, mapping: ODict<string, string>, ws: Option<string>, i: nat)
    requires i < |t| && TeamUrlsUnmapped(t, mapping, i)
    ensures SubTeamUrls(t, mapping, ws, i) == t[i..TeamUrlEnd(t, i)] + SubTeamUrls(t, mapping, ws, TeamUrlEnd(t, i))
  {
    match TeamUrlAt(t, i)
    case Some(u) =>
      LookupHashNoCiKey(mapping, t[u.hash..u.suffix]);
    case None =>
      assert t[i..i + 1] == [t[i]];
  }

  lemma {:induction false} SubSegmentsUnmapped(t: string, mapping: ODict<string, string>, i: nat)
    requires i <= |t| && SegmentsUnmapped(t, mapping, i)
    ensures SubSegments(t, mapping, i) == t[i..]
    decreases |t| - i
  {
    if i < |t| {
      var e := SegmentEnd(t, i);
      SubSegmentsStep(t, mapping, i);
      SubSegmentsUnmapped(t, mapping, e);
      SliceSplit(t, i, e);
    }
  }

  /** Where the segment pass goes on after position `i`. */
  function SegmentEnd(t: string, i: nat): (e: nat)
    requires i < |t|
    ensures i < e <= |t|
  {
    match SegmentAt(t, i, Segment)
    case Some(k) => i + |Segment| + k + 1
    case None => i + 1
  }

  /** With no mapped hash at `i`, the segment pass copies `t[i..SegmentEnd(t, i)]`. */
  lemma SubSegmentsStep(t: string, mapping: ODict<string, string>, i: nat)
    requires i < |t| && SegmentsUnmapped(t, mapping, i)
    ensures SubSegments(t, mapping, i) == t[i..SegmentEnd(t, i)] + SubSegments(t, mapping, SegmentEnd(t, i))
  {
    if SegmentAt(t, i, Segment).Some? {
      SubSegmentsKept(t, mapping, i);
    } else {
      assert t[i..i + 1] == [t[i]];
    }
  }

  /** An unmapped segment is copied as it is. */
  lemma SubSegmentsKept(t: string, mapping: ODict<string, string>, i: nat)
    requires i < |t| && SegmentAt(t, i, Segment).Some?
    requires NoCiKey(mapping, Lower(SegmentHash(t, i, Segment)))
    ensures var e := i + |Segment| + SegmentAt(t, i, Segment).value + 1;
      SubSegments(t, mapping, i) == t[i..e] + SubSegments(t, mapping, e)
  {
    LookupHashNoCiKey(mapping, SegmentHash(t, i, Segment));
  }

  lemma SliceSplit(t: string, a: nat, b: nat)
    requires a <= b <= |t|
    ensures t[a..] == t[a..b] + t[b..]
  {
  }

  /** A text none of whose matched hashes has a case-insensitive key comes back byte for byte. */
  lemma ReplaceUnmappedUnchanged(t: string, mapping: ODict<string, string>, ws: Option<string>)
    requires TeamUrlsUnmapped(t, mapping, 0) && SegmentsUnmapped(t, mapping, 0)
    ensures ReplaceHashes(StrV(t), mapping, ws) == StrV(t)
  {
    if t != "" && mapping.entries != map[] {
      SubTeamUrlsUnmapped(t, mapping, ws, 0);
      SubSegmentsUnmapped(t, mapping, 0);
    }
  }
}

module AttachmentTextShapes {
  import opened Py
  import opened Dicts
  import opened AttachmentText

  lemma {:induction false} HexRunExact(t: string, p: nat, n: nat)
    requires p + n < |t| && !IsHex(t[p + n])
    requires forall j :: p <= j < p + n ==> IsHex(t[j])
    ensures HexRun(t, p) == n
    decreases n
  {
    if n > 0 {
      HexRunExact(t, p + 1, n - 1);
    }
  }

  lemma {:induction false} RunWithoutExact(t: string, p: nat, c: char, n: nat)
    requires p + n <= |t| && (p + n < |t| ==> t[p + n] == c)
    requires forall j :: p <= j < p + n ==> t[j] != c
    ensures RunWithout(t, p, c) == n
    decreases n
  {
    if n > 0 {
      RunWithoutExact(t, p + 1, c, n - 1);
    }
  }

  lemma LowerSegment()
    ensures Lower(Segment) == Segment
  {
    assert forall i :: 0 <= i < |Segment| ==> LowerChar(Segment[i]) == Segment[i];
  }

  /** A text with no ':' holds no team URL. */
  lemma NoColonNoTeamUrl(t: string, mapping: ODict<string, string>)
    requires ':' !in t
    ensures TeamUrlsUnmapped(t, mapping, 0)
  {
    forall p: nat | p < |t| ensures TeamUrlAt(t, p).None? {
      if p + 8 <= |t| {
        assert t[p + 5] in t;
        assert Lower(t[p..p + 8])[5] == LowerChar(t[p + 5]) != ':';
      }
    }
  }

  /** The segment matches at the start of `/attachment/<h>/`, capturing `h`. */
  lemma LoneSegmentMatches(h: string)
    requires 32 <= |h| <= 64 && AllHex(h)
    ensures var t := Segment + h + "/";
      SegmentAt(t, 0, Segment) == Some(|h|) && SegmentHash(t, 0, Segment) == h && ':' !in t
  {
    var t := Segment + h + "/";
    forall j | 0 <= j < |t| ensures t[j] != ':' {
      if j < |Segment| { assert t[j] == Segment[j]; }
      else if j < |Segment| + |h| { assert t[j] == h[j - |Segment|]; }
    }
    assert t[..|Segment|] == Segment;
    LowerSegment();
    forall j | |Segment| <= j < |Segment| + |h| ensures IsHex(t[j]) {
      assert t[j] == h[j - |Segment|];
    }
    HexRunExact(t, |Segment|, |h|);
    assert t[|Segment|..|Segment| + |h|] == h;
  }

  /**
   * A lone `/attachment/<hash>/` segment whose hash maps to `v` becomes
   * `/attachment/<v>/`.
   */
  lemma ReplaceLoneSegment(h: string, v: string, mapping: ODict<string, string>, ws: Option<string>)
    requires 32 <= |h| <= 64 && AllHex(h)
    requires LookupHash(mapping, Lower(h)) == Some(v)
    ensures ReplaceHashes(StrV(Segment + h + "/"), mapping, ws) == StrV(Segment + v + "/")
  {
    var t := Segment + h + "/";
    assert mapping.entries != map[];
    LoneSegmentMatches(h);
    NoColonNoTeamUrl(t, mapping);
    SubTeamUrlsUnmapped(t, mapping, ws, 0);
    assert t[0..] == t;
    LoneSegmentRewritten(h, v, mapping);
  }

  lemma LoneSegmentRewritten(h: string, v: string, mapping: ODict<string, string>)
    requires SegmentAt(Segment + h + "/", 0, Segment) == Some(|h|) && SegmentHash(Segment + h + "/", 0, Segment) == h
    requires LookupHash(mapping, Lower(h)) == Some(v)
    ensures SubSegments(Segment + h + "/", mapping, 0) == Segment + v + "/"
  {
    var t := Segment + h + "/";
    assert t[0..|Segment|] == Segment;
    var e := |Segment| + |h| + 1;
    assert SubSegments(t, mapping, e) == [];
  }

  lemma LowerLiteral(lit: string)
    requires forall i :: 0 <= i < |lit| ==> !('A' <= lit[i] <= 'Z')
    ensures Lower(lit) == lit
  {
  }

  /** The matching steps of a team URL at 0 with a host, workspace hash and attachment hash of the given lengths. */
  predicate TeamUrlLayout(t: string, hostLen: nat, wLen: nat, hLen: nat)
  {
    var ws := 8 + hostLen + 13;
    var slash := ws + wLen + |Segment| + hLen;
    && slash + 1 < |t|
    && CiAt(t, 0, "https://") && RunWithout(t, 8, '/') == hostLen
    && CiAt(t, 8 + hostLen, "/public/team/")
    && HexRun(t, ws) == wLen
    && SegmentAt(t, ws + wLen, Segment) == Some(hLen)
    && RunWithout(t, slash + 1, ')') == |t| - (slash + 1)
  }

  lemma TeamUrlParses(t: string, hostLen: nat, wLen: nat, hLen: nat)
    requires hostLen > 0 && 32 <= wLen <= 64 && 32 <= hLen <= 64
    requires TeamUrlLayout(t, hostLen, wLen, hLen)
    ensures TeamUrlAt(t, 0) == Some(LaidOut(hostLen, wLen, hLen, |t|))
  {
    AfterTeamParses(t, hostLen, wLen, hLen);
    StagesParse(t, hostLen, wLen, LaidOut(hostLen, wLen, hLen, |t|));
  }

  /** Where the parts of a team URL at 0 start, given the lengths of the host, the workspace and the attachment hash. */
  function LaidOut(hostLen: nat, wLen: nat, hLen: nat, len: nat): TeamUrl
  {
    var ws := 8 + hostLen + 13;
    TeamUrl(0, ws, ws + wLen, ws + wLen + |Segment|, ws + wLen + |Segment| + hLen, len)
  }

  lemma StagesParse(t: string, hostLen: nat, k: nat, u: TeamUrl)
    requires hostLen > 0 && u.workspace == 8 + hostLen + 13
    requires CiAt(t, 0, "https://") && RunWithout(t, 8, '/') == hostLen
    requires CiAt(t, 8 + hostLen, "/public/team/")
    requires HexRun(t, u.workspace) == k && TeamUrlAfterTeam(t, 0, u.workspace, k) == Some(u)
    ensures TeamUrlAt(t, 0) == Some(u)
  {
    assert TeamUrlAfterScheme(t, 0, hostLen) == Some(u);
  }

  lemma AfterTeamParses(t: string, hostLen: nat, wLen: nat, hLen: nat)
    requires 32 <= wLen <= 64
    requires var ws := 8 + hostLen + 13;
      && SegmentAt(t, ws + wLen, Segment) == Some(hLen)
      && ws + wLen + |Segment| + hLen + 1 < |t|
      && RunWithout(t, ws + wLen + |Segment| + hLen + 1, ')') == |t| - (ws + wLen + |Segment| + hLen + 1)
    ensures TeamUrlAfterTeam(t, 0, 8 + hostLen + 13, wLen) == Some(LaidOut(hostLen, wLen, hLen, |t|))
  {
  }

  /** `https://<host>/public/team/<w>/attachment/<h>/<rest>`. */
  function TeamUrlText(host: string, w: string, h: string, rest: string): string
  {
    "https://" + (host + ("/public/team/" + (w + (Segment + (h + ("/" + rest))))))
  }

  predicate HostPart(host: string)
  {
    host != [] && forall j :: 0 <= j < |host| ==> host[j] != '/'
  }

  predicate HashPart(h: string)
  {
    32 <= |h| <= 64 && AllHex(h)
  }

  predicate SuffixPart(rest: string)
  {
    rest != [] && forall j :: 0 <= j < |rest| ==> rest[j] != ')'
  }

  lemma CiAtLiteral(t: string, p: nat, lit: string)
    requires p + |lit| <= |t| && t[p..p + |lit|] == lit && Lower(lit) == lit
    ensures CiAt(t, p, lit)
  {
  }

  lemma LiteralsLower()
    ensures Lower("https://") == "https://" && Lower("/public/team/") == "/public/team/" && Lower(Segment) == Segment
  {
    LowerLiteral("https://");
    LowerLiteral("/public/team/");
    LowerSegment();
  }

  /** Each part of `TeamUrlText` at its offset. */
  lemma TeamUrlTextIndex(host: string, w: string, h: string, rest: string)
    ensures var t := TeamUrlText(host, w, h, rest);
      var ws := 8 + |host| + 13;
      var seg := ws + |w|;
      var hash := seg + |Segment|;
      var slash := hash + |h|;
      && |t| == slash + 1 + |rest|
      && t[0..8] == "https://"
      && (forall j :: 8 <= j < 8 + |host| ==> t[j] == host[j - 8])
      && t[8 + |host|..ws] == "/public/team/"
      && (forall j :: ws <= j < seg ==> t[j] == w[j - ws])
      && t[seg..hash] == Segment
      && (forall j :: hash <= j < slash ==> t[j] == h[j - hash])
      && t[slash] == '/'
      && (forall j :: slash + 1 <= j < |t| ==> t[j] == rest[j - slash - 1])
  {
    var t := TeamUrlText(host, w, h, rest);
    var t1 := host + ("/public/team/" + (w + (Segment + (h + ("/" + rest)))));
    var t2 := "/public/team/" + (w + (Segment + (h + ("/" + rest))));
    var t3 := w + (Segment + (h + ("/" + rest)));
    var t4 := Segment + (h + ("/" + rest));
    assert t == "https://" + t1 && t1 == host + t2 && t2 == "/public/team/" + t3;
    assert t3 == w + t4 && t4 == Segment + (h + ("/" + rest));
  }

  lemma SegmentAtExact(t: string, p: nat, k: nat)
    requires CiAt(t, p, Segment) && HexRun(t, p + |Segment|) == k && 32 <= k <= 64
    requires p + |Segment| + k < |t| && t[p + |Segment| + k] == '/'
    ensures SegmentAt(t, p, Segment) == Some(k)
  {
  }

  lemma TeamUrlTextLayout(host: string, w: string, h: string, rest: string)
    requires HostPart(host) && HashPart(w) && HashPart(h) && SuffixPart(rest)
    ensures TeamUrlLayout(TeamUrlText(host, w, h, rest), |host|, |w|, |h|)
  {
    TeamUrlTextScheme(host, w, h, rest);
    TeamUrlTextWorkspace(host, w, h, rest);
    TeamUrlTextSegment(host, w, h, rest);
    TeamUrlTextSuffix(host, w, h, rest);
  }

  lemma TeamUrlTextScheme(host: string, w: string, h: string, rest: string)
    requires HostPart(host)
    ensures var t := TeamUrlText(host, w, h, rest);
      CiAt(t, 0, "https://") && RunWithout(t, 8, '/') == |host| && CiAt(t, 8 + |host|, "/public/team/")
  {
    var t := TeamUrlText(host, w, h, rest);
    TeamUrlTextIndex(host, w, h, rest);
    LiteralsLower();
    CiAtLiteral(t, 0, "https://");
    assert t[8 + |host|] == t[8 + |host|..8 + |host| + 13][0];
    RunWithoutExact(t, 8, '/', |host|);
    CiAtLiteral(t, 8 + |host|, "/public/team/");
  }

  lemma TeamUrlTextWorkspace(host: string, w: string, h: string, rest: string)
    requires HashPart(w)
    ensures var t := TeamUrlText(host, w, h, rest);
      HexRun(t, 8 + |host| + 13) == |w|
  {
    var t := TeamUrlText(host, w, h, rest);
    TeamUrlTextWorkspaceHex(host, w, h, rest);
    HexRunExact(t, 8 + |host| + 13, |w|);
  }

  lemma TeamUrlTextWorkspaceHex(host: string, w: string, h: string, rest: string)
    requires HashPart(w)
    ensures var t := TeamUrlText(host, w, h, rest);
      var ws := 8 + |host| + 13;
      ws + |w| < |t| && !IsHex(t[ws + |w|]) && forall j :: ws <= j < ws + |w| ==> IsHex(t[j])
  {
    var t := TeamUrlText(host, w, h, rest);
    var ws := 8 + |host| + 13;
    var seg := ws + |w|;
    TeamUrlTextIndex(host, w, h, rest);
    assert Segment[0] == '/';
    assert t[seg] == t[seg..seg + |Segment|][0];
    forall j | ws <= j < seg ensures IsHex(t[j]) {
      assert t[j] == w[j - ws];
    }
  }

  lemma TeamUrlTextSegment(host: string, w: string, h: string, rest: string)
    requires HashPart(h)
    ensures var t := TeamUrlText(host, w, h, rest);
      SegmentAt(t, 8 + |host| + 13 + |w|, Segment) == Some(|h|)
  {
    var x := "https://" + host + "/public/team/" + w;
    assert TeamUrlText(host, w, h, rest) == x + (Segment + (h + ("/" + rest)));
    SegmentAfter(x, h, rest);
  }

  /** `/attachment/<h>/` after any prefix is a segment match capturing `h`. */
  lemma SegmentAfter(x: string, h: string, rest: string)
    requires HashPart(h)
    ensures SegmentAt(x + (Segment + (h + ("/" + rest))), |x|, Segment) == Some(|h|)
  {
    var t := x + (Segment + (h + ("/" + rest)));
    var hash := |x| + |Segment|;
    assert t[|x|..hash] == Segment;
    assert t[hash + |h|] == '/';
    forall j | hash <= j < hash + |h| ensures t[j] == h[j - hash] { }
    SegmentAtParts(t, |x|, hash, h);
  }

  /** `/attachment/`, then the hash `h`, then `/`, written out at `seg`, is a segment match capturing `h`. */
  lemma SegmentAtParts(t: string, seg: nat, hash: nat, h: string)
    requires HashPart(h) && hash == seg + |Segment| && hash + |h| < |t|
    requires t[seg..hash] == Segment && t[hash + |h|] == '/'
    requires forall j :: hash <= j < hash + |h| ==> t[j] == h[j - hash]
    ensures SegmentAt(t, seg, Segment) == Some(|h|)
  {
    LowerSegment();
    CiAtLiteral(t, seg, Segment);
    forall j | hash <= j < hash + |h| ensures IsHex(t[j]) {
      assert t[j] == h[j - hash];
    }
    HexRunExact(t, hash, |h|);
    SegmentAtExact(t, seg, |h|);
  }

  lemma TeamUrlTextSuffix(host: string, w: string, h: string, rest: string)
    requires SuffixPart(rest)
    ensures var t := TeamUrlText(host, w, h, rest);
      var slash := 8 + |host| + 13 + |w| + |Segment| + |h|;
      slash + 1 < |t| && RunWithout(t, slash + 1, ')') == |t| - (slash + 1)
  {
    var t := TeamUrlText(host, w, h, rest);
    var slash := 8 + |host| + 13 + |w| + |Segment| + |h|;
    TeamUrlTextIndex(host, w, h, rest);
    RunWithoutExact(t, slash + 1, ')', |t| - (slash + 1));
  }

  /**
   * The team-URL pass on one URL: the prefix, the case of `/attachment/` and
   * the suffix are kept; a mapped hash is replaced by its target, and then the
   * workspace hash by the target workspace when that is set.
   */
  lemma SubTeamUrlText(host: string, w: string, h: string, rest: string, mapping: ODict<string, string>, ws: Option<string>)
    requires HostPart(host) && HashPart(w) && HashPart(h) && SuffixPart(rest)
    ensures var t := TeamUrlText(host, w, h, rest);
      SubTeamUrls(t, mapping, ws, 0) ==
        match LookupHash(mapping, Lower(h))
        case None => t
        case Some(v) => TeamUrlText(host, if ws.Some? && ws.value != "" then ws.value else w, v, rest)
  {
    var t := TeamUrlText(host, w, h, rest);
    var u := LaidOut(|host|, |w|, |h|, |t|);
    TeamUrlTextParses(host, w, h, rest);
    SubTeamUrlWhole(t, mapping, ws, u);
    RewriteTeamUrlText(host, w, h, rest, u, mapping, ws);
  }

  /** The text of a team URL parses, from its start, as that URL. */
  lemma TeamUrlTextParses(host: string, w: string, h: string, rest: string)
    requires HostPart(host) && HashPart(w) && HashPart(h) && SuffixPart(rest)
    ensures TeamUrlAt(TeamUrlText(host, w, h, rest), 0) == Some(LaidOut(|host|, |w|, |h|, |TeamUrlText(host, w, h, rest)|))
  {
    TeamUrlTextLayout(host, w, h, rest);
    TeamUrlParses(TeamUrlText(host, w, h, rest), |host|, |w|, |h|);
  }

  /** A text that is one team URL from start to end is rewritten as that URL. */
  lemma SubTeamUrlWhole(t: string, mapping: ODict<string, string>, ws: Option<string>, u: TeamUrl)
    requires TeamUrlAt(t, 0) == Some(u) && u.end == |t|
    ensures SubTeamUrls(t, mapping, ws, 0) == RewriteTeamUrl(t, u, mapping, ws)
  {
    assert SubTeamUrls(t, mapping, ws, u.end) == [];
    assert |t| > 0;
  }

  /** How the rewrite of a team URL text reads, in terms of its parts. */
  lemma RewriteTeamUrlText(host: string, w: string, h: string, rest: string, u: TeamUrl, mapping: ODict<string, string>, ws: Option<string>)
    requires u == LaidOut(|host|, |w|, |h|, |TeamUrlText(host, w, h, rest)|)
    requires TeamUrlIn(TeamUrlText(host, w, h, rest), u)
    ensures RewriteTeamUrl(TeamUrlText(host, w, h, rest), u, mapping, ws) ==
        match LookupHash(mapping, Lower(h))
        case None => TeamUrlText(host, w, h, rest)
        case Some(v) => TeamUrlText(host, if ws.Some? && ws.value != "" then ws.value else w, v, rest)
  {
    TeamUrlTextParts(host, w, h, rest, u);
    match LookupHash(mapping, Lower(h))
    case None =>
    case Some(v) =>
      var w' := if ws.Some? && ws.value != "" then ws.value else w;
      TeamUrlTextJoin(host, w', v, rest);
  }

  lemma TeamUrlTextJoin(host: string, w: string, h: string, rest: string)
    ensures TeamUrlText(host, w, h, rest) == ("https://" + host + "/public/team/") + w + Segment + h + ("/" + rest)
  {
  }

  lemma TeamUrlTextParts(host: string, w: string, h: string, rest: string, u: TeamUrl)
    requires u == LaidOut(|host|, |w|, |h|, |TeamUrlText(host, w, h, rest)|)
    ensures var t := TeamUrlText(host, w, h, rest);
      && t[u.start..u.workspace] == "https://" + host + "/public/team/"
      && t[u.workspace..u.segment] == w && t[u.segment..u.hash] == Segment
      && t[u.hash..u.suffix] == h && t[u.suffix..u.end] == "/" + rest
      && t[u.start..u.end] == t
  {
    var pre := "https://" + host + "/public/team/";
    assert TeamUrlText(host, w, h, rest) == pre + (w + (Segment + (h + ("/" + rest))));
    FiveParts(pre, w, Segment, h, "/" + rest);
  }

  /** Each of five concatenated parts, sliced back out. */
  lemma FiveParts(a: string, b: string, c: string, d: string, e: string)
    ensures var t := a + (b + (c + (d + e)));
      var i, j, k := |a| + |b|, |a| + |b| + |c|, |a| + |b| + |c| + |d|;
      && t[0..|a|] == a && t[|a|..i] == b && t[i..j] == c && t[j..k] == d && t[k..|t|] == e
  {
    var t := a + (b + (c + (d + e)));
    assert t == a + b + (c + (d + e));
    Middle(a, b, c + (d + e));
    assert t == (a + b) + c + (d + e);
    Middle(a + b, c, d + e);
    assert t == (a + b + c) + d + e;
    Middle(a + b + c, d, e);
  }

  /** The middle part of a concatenation of three, and what is on either side of it. */
  lemma Middle(a: string, b: string, c: string)
    ensures (a + b + c)[|a|..|a| + |b|] == b && (a + b + c)[..|a|] == a && (a + b + c)[|a| + |b|..] == c
  {
  }
}
