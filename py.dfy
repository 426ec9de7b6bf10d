// Python-level vocabulary shared by every module of the model: optional values,
// the exceptions the migration code raises or catches, dynamically typed
// values for the places where the code dispatches on `isinstance`, and the
// string operations it uses (lower-casing, stripping, `int()` parsing).

module Py {

  datatype Option<+T> = None | Some(value: T)

  /**
   * The exceptions that matter to the control flow of the migration. An API
   * exception carries its status, its body and what `json.loads` makes of the
   * body (`None` when that raises).
   */
  datatype Exc =
    | ApiException(status: int, body: string, loaded: Option<Json>)
    | KeyError
    | ValueError
    | TypeError(message: string)
    | AttributeError
    | RecursionError
    | OtherException(name: string)

  /** A call that returns a value or raises. */
  datatype Reply<+T> = Ok(value: T) | Raised(exc: Exc)

  /** A value of unknown Python type, as read from an API response dict. */
  datatype Value = NoneV | BoolV(b: bool) | IntV(i: int) | StrV(s: string) | OtherV

  /** Python truthiness (`OtherV` stands for non-empty containers and objects). */
  predicate Truthy(v: Value)
  {
    match v
    case NoneV => false
    case BoolV(b) => b
    case IntV(i) => i != 0
    case StrV(s) => s != ""
    case OtherV => true
  }

  /** Python `a or b`: the first operand when it is truthy, else the second. */
  function Or(a: Value, b: Value): (r: Value)
    ensures Truthy(r) <==> Truthy(a) || Truthy(b)
    ensures Truthy(a) ==> r == a
  {
    if Truthy(a) then a else b
  }

  /** JSON-like payload values. `JUuid` is a `uuid.UUID` object, held by its canonical text. */
  datatype Json =
    | JNull
    | JBool(b: bool)
    | JInt(i: int)
    | JStr(s: string)
    | JUuid(text: string)
    | JList(items: seq<Json>)
    | JObject(entries: seq<(string, Json)>)

  predicate JTruthy(j: Json)
  {
    match j
    case JNull => false
    case JBool(b) => b
    case JInt(i) => i != 0
    case JStr(s) => s != ""
    case JUuid(_) => true
    case JList(items) => items != []
    case JObject(entries) => entries != []
  }

  /** A value that can be a dict key or a set member: lists and dicts cannot. */
  predicate Hashable(j: Json)
  {
    !j.JList? && !j.JObject?
  }

  /** `d.get(key)` on a dict's entries: the value of the first entry with that key. */
  function JGet(entries: seq<(string, Json)>, key: string): (r: Option<Json>)
    ensures r.Some? <==> exists i :: 0 <= i < |entries| && entries[i].0 == key
    ensures r.Some? ==> exists i :: 0 <= i < |entries| && entries[i] == (key, r.value)
  {
    if entries == [] then None
    else if entries[0].0 == key then Some(entries[0].1)
    else
      var r := JGet(entries[1..], key);
      assert forall i :: 0 <= i < |entries[1..]| ==> entries[1..][i] == entries[i + 1];
      r
  }

  /** The first entry with the key is the one found. */
  lemma {:induction false} JGetFirst(entries: seq<(string, Json)>, key: string, i: nat)
    requires i < |entries| && entries[i].0 == key
    requires forall j :: 0 <= j < i ==> entries[j].0 != key
    ensures JGet(entries, key) == Some(entries[i].1)
    decreases i
  {
    if i > 0 {
      assert forall j :: 0 <= j < i - 1 ==> entries[1..][j] == entries[j + 1];
      JGetFirst(entries[1..], key, i - 1);
    }
  }

  /** `d.get(key)` on any value: `None` when `d` is not a dict or lacks the key. */
  function Get(d: Json, key: string): Option<Json>
  {
    if d.JObject? then JGet(d.entries, key) else None
  }

  /** `d.get(key)` with Python's default: a missing key reads as null. */
  function Field(d: Json, key: string): Json
  {
    match Get(d, key) case Some(v) => v case None => JNull
  }

  /** `d.get(key, default)`. */
  function GetOr(d: Json, key: string, default: Json): (r: Json)
    ensures Get(d, key).None? ==> r == default
    ensures Get(d, key).Some? ==> r == Get(d, key).value
  {
    match Get(d, key) case Some(v) => v case None => default
  }

  /** `mapping.get(k)`: null when absent. */
  function Lookup(mapping: map<Json, Json>, k: Json): Json
  {
    if k in mapping then mapping[k] else JNull
  }

  /** `to_dict(obj)` on a JSON value: a dict as it is, anything else as the empty dict. */
  function ToDict(j: Json): (r: Json)
    ensures r.JObject?
    ensures j.JObject? ==> r == j
    ensures !j.JObject? ==> forall key :: Get(r, key).None?
  {
    if j.JObject? then j else JObject([])
  }

  /** Python `a or b` on JSON values. */
  function JOr(a: Json, b: Json): (r: Json)
    ensures JTruthy(r) <==> JTruthy(a) || JTruthy(b)
    ensures JTruthy(a) ==> r == a
  {
    if JTruthy(a) then a else b
  }

  /**
   * What a `for` loop over a value visits: a list's items, a string's
   * characters, a dict's keys; `None` when the value is not iterable (the
   * loop raises TypeError).
   */
  function Iter(j: Json): (r: Option<seq<Json>>)
    ensures j.JList? ==> r == Some(j.items)
    ensures r.None? <==> !(j.JList? || j.JStr? || j.JObject?)
  {
    match j
    case JList(items) => Some(items)
    case JStr(s) => Some(seq(|s|, i requires 0 <= i < |s| => JStr([s[i]])))
    case JObject(es) => Some(seq(|es|, i requires 0 <= i < |es| => JStr(es[i].0)))
    case _ => None
  }

  /** `str(v)`: a string or a UUID is its own text, any other value its `repr`. */
  function StrOf(j: Json): string
  {
    match j
    case JStr(s) => s
    case JUuid(t) => t
    case _ => Repr(j)
  }

  /** `repr(v)`: strings are quoted and escaped, and UUIDs spelled as constructor calls. */
  function Repr(j: Json): string
  {
    match j
    case JNull => "None"
    case JBool(b) => if b then "True" else "False"
    case JInt(i) => IntToString(i)
    case JStr(s) => StrRepr(s)
    case JUuid(t) => "UUID(" + StrRepr(t) + ")"
    case JList(items) => "[" + Join(seq(|items|, i requires 0 <= i < |items| => Repr(items[i]))) + "]"
    case JObject(es) =>
      "{" + Join(seq(|es|, i requires 0 <= i < |es| => StrRepr(es[i].0) + ": " + Repr(es[i].1))) + "}"
  }

  /** `repr(s)` for a string: single quotes unless `s` holds a single quote and no double quote. */
  function StrRepr(s: string): (r: string)
    ensures |r| >= 2 && r[0] == r[|r| - 1] == QuoteFor(s)
  {
    var q := QuoteFor(s);
    [q] + Escaped(s, q) + [q]
  }

  function QuoteFor(s: string): char
  {
    if '\'' in s && '"' !in s then '"' else '\''
  }

  /**
   * The characters of a string inside its quotes `q`: the backslash and `q`
   * are escaped, tab, newline and carriage return get their letter, and the
   * other control characters of Latin-1 (the C0 and C1 ranges, delete,
   * no-break space and soft hyphen) are written `\xhh`.
   */
  function Escaped(s: string, q: char): string
  {
    if s == [] then []
    else
      var c := s[0];
      var e :=
        if c == q || c == '\\' then ['\\', c]
        else if c == '\t' then "\\t"
        else if c == '\n' then "\\n"
        else if c == '\r' then "\\r"
        else if c < ' ' || '\U{7F}' <= c <= '\U{A0}' || c == '\U{AD}' then "\\x" + [HexChar(c as int / 16), HexChar(c as int % 16)]
        else [c];
      e + Escaped(s[1..], q)
  }

  function HexChar(d: nat): char
    requires d < 16
  {
    "0123456789abcdef"[d]
  }

  /** `", ".join(parts)`. */
  function Join(parts: seq<string>): string
  {
    if parts == [] then ""
    else if |parts| == 1 then parts[0]
    else parts[0] + ", " + Join(parts[1..])
  }

  /** The scalar view of a JSON value; lists, dicts and UUIDs are `OtherV`. */
  function ToValue(j: Json): Value
  {
    match j
    case JNull => NoneV
    case JBool(b) => BoolV(b)
    case JInt(i) => IntV(i)
    case JStr(s) => StrV(s)
    case _ => OtherV
  }

  // ---------------------------------------------------------------- strings

  function LowerChar(c: char): char
  {
    if 'A' <= c <= 'Z' then (c as int + 32) as char else c
  }

  function UpperChar(c: char): char
  {
    if 'a' <= c <= 'z' then (c as int - 32) as char else c
  }

  /** `str.lower()` on ASCII letters; every other character is kept. */
  function Lower(s: string): (r: string)
    ensures |r| == |s|
    ensures forall i :: 0 <= i < |s| ==> r[i] == LowerChar(s[i])
  {
    seq(|s|, i requires 0 <= i < |s| => LowerChar(s[i]))
  }

  function Upper(s: string): (r: string)
    ensures |r| == |s|
    ensures forall i :: 0 <= i < |s| ==> r[i] == UpperChar(s[i])
  {
    seq(|s|, i requires 0 <= i < |s| => UpperChar(s[i]))
  }

  lemma LowerIdempotent(s: string)
    ensures Lower(Lower(s)) == Lower(s)
  {
    assert forall i :: 0 <= i < |s| ==> LowerChar(LowerChar(s[i])) == LowerChar(s[i]);
  }

  /**
   * `str.isspace()` on one character: tab through carriage return, the four
   * information separators, space, next line, no-break space and the other
   * Unicode space separators and line and paragraph separators.
   */
  predicate IsSpace(c: char)
  {
    || '\t' <= c <= '\r'
    || '\U{1C}' <= c <= ' '
    || c == '\U{85}' || c == '\U{A0}' || c == '\U{1680}'
    || '\U{2000}' <= c <= '\U{200A}'
    || c == '\U{2028}' || c == '\U{2029}' || c == '\U{202F}' || c == '\U{205F}' || c == '\U{3000}'
  }

  function StripLeft(s: string): (r: string)
    ensures |r| <= |s| && r == s[|s| - |r|..]
    ensures r != [] ==> !IsSpace(r[0])
    ensures forall i :: 0 <= i < |s| - |r| ==> IsSpace(s[i])
  {
    if s != [] && IsSpace(s[0]) then StripLeft(s[1..]) else s
  }

  function StripRight(s: string): (r: string)
    ensures |r| <= |s| && r == s[..|r|]
    ensures r != [] ==> !IsSpace(r[|r| - 1])
    ensures forall i :: |r| <= i < |s| ==> IsSpace(s[i])
  {
    if s != [] && IsSpace(s[|s| - 1]) then StripRight(s[..|s| - 1]) else s
  }

  /** `str.strip()`: whitespace removed at both ends. */
  function Strip(s: string): string
  {
    StripRight(StripLeft(s))
  }

  /** `s.rstrip(c)`: every trailing `c` removed. */
  function RStrip(s: string, c: char): (r: string)
    ensures |r| <= |s| && r == s[..|r|]
    ensures r != [] ==> r[|r| - 1] != c
    ensures forall i :: |r| <= i < |s| ==> s[i] == c
  {
    if s != [] && s[|s| - 1] == c then RStrip(s[..|s| - 1], c) else s
  }

  predicate StartsWith(s: string, p: string)
  {
    |p| <= |s| && s[..|p|] == p
  }

  predicate EndsWith(s: string, p: string)
  {
    |p| <= |s| && s[|s| - |p|..] == p
  }

  /** Python `sub in s`. */
  predicate Contains(s: string, sub: string)
    decreases |s|
  {
    StartsWith(s, sub) || (s != [] && Contains(s[1..], sub))
  }

  /** `sub` occurs in `s` when it occurs at some position. */
  lemma {:induction false} ContainsAt(s: string, sub: string, i: nat)
    requires i + |sub| <= |s| && s[i..i + |sub|] == sub
    ensures Contains(s, sub)
    decreases i
  {
    if i > 0 {
      assert s[1..][i - 1..i - 1 + |sub|] == s[i..i + |sub|];
      ContainsAt(s[1..], sub, i - 1);
    }
  }

  function DigitChar(d: nat): char
    requires d < 10
  {
    "0123456789"[d]
  }

  /** `str(n)` for a natural number: its decimal digits. */
  function NatToString(n: nat): (r: string)
    ensures |r| >= 1
    ensures forall i :: 0 <= i < |r| ==> IsDigit(r[i])
  {
    if n < 10 then [DigitChar(n)] else NatToString(n / 10) + [DigitChar(n % 10)]
  }

  /** `str(i)` for an integer. */
  function IntToString(i: int): string
  {
    if i < 0 then "-" + NatToString(-i) else NatToString(i)
  }

  predicate IsDigit(c: char)
  {
    '0' as int <= c as int <= '9' as int
  }

  /** Decimal value of a run of ASCII digits and underscores; the underscores are skipped. */
  function DigitsValue(s: string): (n: nat)
    requires forall i :: 0 <= i < |s| ==> IsDigit(s[i]) || s[i] == '_'
  {
    if s == [] then 0
    else if s[|s| - 1] == '_' then DigitsValue(s[..|s| - 1])
    else
      assert IsDigit(s[|s| - 1]);
      DigitsValue(s[..|s| - 1]) * 10 + (s[|s| - 1] as int - '0' as int)
  }

  /**
   * A decimal literal as `int()` reads it: ASCII digits, where single
   * underscores may separate two digits.
   */
  predicate DecimalLiteral(s: string)
  {
    && s != [] && IsDigit(s[0]) && IsDigit(s[|s| - 1])
    && (forall i :: 0 <= i < |s| ==> IsDigit(s[i]) || s[i] == '_')
    && (forall i :: 0 <= i < |s| - 1 ==> !(s[i] == '_' && s[i + 1] == '_'))
  }

  lemma {:induction false} DigitsValueOfNatToString(n: nat)
    ensures DigitsValue(NatToString(n)) == n
  {
    var r := NatToString(n);
    if n < 10 {
      assert r[..0] == [];
    } else {
      var q := NatToString(n / 10);
      assert r[..|r| - 1] == q;
      DigitsValueOfNatToString(n / 10);
    }
  }

  /**
   * Python `int(s)` on a string: surrounding whitespace is ignored, an optional
   * sign precedes a decimal literal; anything else raises ValueError.
   */
  function ParseInt(s: string): (r: Option<int>)
    ensures r.Some? ==> Strip(s) != ""
    ensures r.Some? ==> DecimalLiteral(if Strip(s)[0] in "+-" then Strip(s)[1..] else Strip(s))
  {
    var t := Strip(s);
    if t == [] then None
    else
      var neg := t[0] == '-';
      var body := if t[0] == '-' || t[0] == '+' then t[1..] else t;
      if DecimalLiteral(body) then
        var magnitude: int := DigitsValue(body);
        Some(if neg then -magnitude else magnitude)
      else None
  }

  /** A string without whitespace at its ends is its own `strip()`. */
  lemma StripKeeps(s: string)
    requires s != [] ==> !IsSpace(s[0]) && !IsSpace(s[|s| - 1])
    ensures Strip(s) == s
  {
    assert StripLeft(s) == s;
  }

  /** A non-empty run of digits is a decimal literal. */
  lemma DigitsLiteral(s: string)
    requires s != [] && forall i :: 0 <= i < |s| ==> IsDigit(s[i])
    ensures DecimalLiteral(s)
  {
    assert forall i :: 0 <= i < |s| - 1 ==> IsDigit(s[i]);
  }

  lemma ParseIntOfNatToString(n: nat)
    ensures ParseInt(NatToString(n)) == Some(n)
  {
    var r := NatToString(n);
    StripKeeps(r);
    assert r[0] !in "+-";
    DigitsLiteral(r);
    DigitsValueOfNatToString(n);
  }

  /** An underscore may separate two digits. */
  lemma ParseIntUnderscore(d: char, e: char)
    requires IsDigit(d) && IsDigit(e)
    ensures ParseInt([d, '_', e]) == Some((d as int - '0' as int) * 10 + (e as int - '0' as int))
  {
    var t := [d, '_', e];
    StripKeeps(t);
    assert t[0] != '-' && t[0] != '+';
    assert DecimalLiteral(t);
    assert t[..2] == [d, '_'] && [d, '_'][..1] == [d] && [d][..0] == [];
    assert DigitsValue([d]) == d as int - '0' as int;
    assert DigitsValue(t) == DigitsValue([d]) * 10 + (e as int - '0' as int);
  }

  /** An underscore may not lead, trail or repeat. */
  lemma ParseIntMisplacedUnderscore(d: char, e: char)
    requires IsDigit(d) && IsDigit(e)
    ensures ParseInt(['_', d]) == None && ParseInt([d, '_']) == None && ParseInt([d, '_', '_', e]) == None
  {
    StripKeeps(['_', d]);
    StripKeeps([d, '_']);
    StripKeeps([d, '_', '_', e]);
    assert [d, '_', '_', e][1] == '_' && [d, '_', '_', e][2] == '_';
  }

  /** `strip()` removes Unicode spaces too, such as the no-break and the ideographic space. */
  lemma StripUnicodeSpaces()
    ensures Strip("\U{A0}x\U{3000}") == "x"
  {
    assert StripLeft("\U{A0}x\U{3000}") == "x\U{3000}" by {
      assert "\U{A0}x\U{3000}"[1..] == "x\U{3000}";
    }
    assert StripRight("x\U{3000}") == "x" by {
      assert "x\U{3000}"[..1] == "x";
    }
  }

  /** The TypeError a `for` loop over a value that is not iterable raises. */
  const NotIterable := TypeError("object is not iterable")

  /** The TypeError `int()` raises for an argument that is neither a number nor a string. */
  const IntArgumentError := TypeError("int() argument must be a string, a bytes-like object or a real number")

  /**
   * Python `int(v)`: integers pass, booleans give 0 or 1, strings are parsed,
   * None and other objects raise TypeError.
   */
  function IntOf(v: Value): (r: Reply<int>)
    ensures v.IntV? ==> r == Ok(v.i)
    ensures v.NoneV? || v.OtherV? ==> r == Raised(IntArgumentError)
    ensures v.StrV? ==> (r.Ok? <==> ParseInt(v.s).Some?)
    ensures r.Raised? ==> r.exc == IntArgumentError || r.exc == ValueError
  {
    match v
    case NoneV => Raised(IntArgumentError)
    case BoolV(b) => Ok(if b then 1 else 0)
    case IntV(i) => Ok(i)
    case StrV(s) => (match ParseInt(s) case Some(n) => Ok(n) case None => Raised(ValueError))
    case OtherV => Raised(IntArgumentError)
  }
}
