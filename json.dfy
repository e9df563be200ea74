/**
 * The Python values `json.loads` produces, with the Python operations the
 * response parser applies to them: dictionary lookup (`key in d`, `d[key]`,
 * `d.get(key)`), truthiness and `a or b`, `type(x).__name__`, `str(x)` and
 * `json.dumps(x)`. Floating-point numbers are not part of this model.
 */
module Json {
  import opened Wrappers
  import opened Strings

  /** A Python value built from JSON; an object is a dict in insertion order. */
  datatype Json =
    | Null
    | Bool(b: bool)
    | Int(n: int)
    | Str(s: string)
    | Arr(items: seq<Json>)
    | Obj(fields: seq<Field>)

  datatype Field = Field(key: string, value: Json)

  /**
   * `d[key]` when `key in d`, and `None` otherwise. The dicts `json.loads`
   * builds hold each key once, so taking the first entry with the key is
   * taking the entry.
   */
  function Lookup(fields: seq<Field>, key: string): (r: Option<Json>)
    ensures r.Some? <==> exists k :: 0 <= k < |fields| && fields[k].key == key
    ensures r.Some? ==> exists k :: 0 <= k < |fields| && fields[k] == Field(key, r.value)
  {
    if |fields| == 0 then None
    else if fields[0].key == key then Some(fields[0].value)
    else Lookup(fields[1..], key)
  }

  /** `key in d`. */
  predicate Has(fields: seq<Field>, key: string) {
    Lookup(fields, key).Some?
  }

  /** `d.get(key)`: the value, or `None` when the key is missing. */
  function Get(fields: seq<Field>, key: string): Json {
    Lookup(fields, key).GetOr(Null)
  }

  /** Python truthiness: `None`, `False`, `0` and empty strings, lists and dicts are false. */
  predicate Truthy(j: Json) {
    match j
    case Null => false
    case Bool(b) => b
    case Int(n) => n != 0
    case Str(s) => |s| > 0
    case Arr(items) => |items| > 0
    case Obj(fields) => |fields| > 0
  }

  /** `a or b`: `a` when it is truthy, `b` otherwise. */
  function Or(a: Json, b: Json): (r: Json)
    ensures r == a || r == b
    ensures Truthy(r) <==> Truthy(a) || Truthy(b)
  {
    if Truthy(a) then a else b
  }

  /** `type(x).__name__`. */
  function TypeName(j: Json): string {
    match j
    case Null => "NoneType"
    case Bool(_) => "bool"
    case Int(_) => "int"
    case Str(_) => "str"
    case Arr(_) => "list"
    case Obj(_) => "dict"
  }

  /** The quote `repr` puts around `s`: double quotes only when `s` has a single quote and no double quote. */
  function ReprQuote(s: string): char {
    if '\'' in s && '"' !in s then '"' else '\''
  }

  /** One character of `repr(s)` between the quotes `q`. */
  function ReprChar(c: char, q: char): string {
    if c == '\\' then "\\\\"
    else if c == q then ['\\', q]
    else if c == '\t' then "\\t"
    else if c == '\n' then "\\n"
    else if c == '\r' then "\\r"
    else if c as int < 32 || c as int == 127 then "\\x" + [HexDigit(c as int / 16), HexDigit(c as int % 16)]
    else [c]
  }

  function ReprBody(s: string, q: char): string {
    if |s| == 0 then [] else ReprChar(s[0], q) + ReprBody(s[1..], q)
  }

  /** `repr(s)` for a string. */
  function ReprString(s: string): string {
    var q := ReprQuote(s);
    [q] + ReprBody(s, q) + [q]
  }

  /**
   * `repr(x)`, which is how `str` shows the items of a list or dict. Its first
   * character tells a dict, a list and a string apart from each other and from
   * the other values.
   */
  function Repr(j: Json): (r: string)
    ensures |r| > 0
    ensures j.Obj? <==> r[0] == '{'
    ensures j.Arr? <==> r[0] == '['
    ensures j.Str? <==> r[0] == '\'' || r[0] == '"'
    ensures j.Obj? ==> r[|r| - 1] == '}'
    ensures j.Arr? ==> r[|r| - 1] == ']'
  {
    match j
    case Null => "None"
    case Bool(b) => if b then "True" else "False"
    case Int(n) => IntToString(n)
    case Str(s) => ReprString(s)
    case Arr(items) =>
      "[" + Join(", ", seq(|items|, i requires 0 <= i < |items| => Repr(items[i]))) + "]"
    case Obj(fields) =>
      "{" + Join(", ", seq(|fields|, i requires 0 <= i < |fields| =>
                          ReprString(fields[i].key) + ": " + Repr(fields[i].value))) + "}"
  }

  /** `str(x)`: a string is itself, anything else its non-empty `repr`. */
  function PyStr(j: Json): (r: string)
    ensures j.Str? ==> r == j.s
    ensures !j.Str? ==> |r| > 0 && (j.Obj? <==> r[0] == '{')
  {
    if j.Str? then j.s else Repr(j)
  }

  /** The characters `repr` shows as they are between single quotes. */
  predicate IsPlainChar(c: char) { IsPrintableAscii(c) && c != '\'' && c != '\\' }

  lemma {:induction false} ReprBodyPlain(s: string)
    requires forall i :: 0 <= i < |s| ==> IsPlainChar(s[i])
    ensures ReprBody(s, '\'') == s
  {
    if |s| > 0 {
      ReprBodyPlain(s[1..]);
      assert s == [s[0]] + s[1..];
    }
  }

  /**
   * `repr` of a string of printable ASCII characters other than the single
   * quote and the backslash is that string between single quotes.
   */
  lemma ReprPlain(s: string)
    requires forall i :: 0 <= i < |s| ==> IsPlainChar(s[i])
    ensures ReprString(s) == "'" + s + "'"
  {
    assert '\'' !in s;
    ReprBodyPlain(s);
  }

  /**
   * `str` of a one-entry dict whose key and string value are plain:
   * `str({"content": "ans"})` is `{'content': 'ans'}`, as line 159 shows a
   * message dict without a truthy "content" or "text".
   */
  lemma StrOfOneEntryDict(key: string, text: string)
    requires forall i :: 0 <= i < |key| ==> IsPlainChar(key[i])
    requires forall i :: 0 <= i < |text| ==> IsPlainChar(text[i])
    ensures PyStr(Obj([Field(key, Str(text))])) == "{'" + key + "': '" + text + "'}"
  {
    var j := Obj([Field(key, Str(text))]);
    assert PyStr(j) == Repr(j);
    OneEntryRepr(key, Str(text));
    assert Repr(Str(text)) == ReprString(text);
    ReprPlain(key);
    ReprPlain(text);
    QuotedEntry(key, text);
  }

  lemma QuotedEntry(key: string, text: string)
    ensures "{" + ("'" + key + "'") + ": " + ("'" + text + "'") + "}" == "{'" + key + "': '" + text + "'}"
  {
  }

  /** `repr` of a one-entry dict is its key's `repr`, a colon, its value's `repr`, in braces. */
  lemma OneEntryRepr(key: string, v: Json)
    ensures Repr(Obj([Field(key, v)])) == "{" + ReprString(key) + ": " + Repr(v) + "}"
  {
    var fields := [Field(key, v)];
    var parts := seq(|fields|, i requires 0 <= i < |fields| =>
                       ReprString(fields[i].key) + ": " + Repr(fields[i].value));
    assert Repr(Obj(fields)) == "{" + Join(", ", parts) + "}";
    assert |parts| == 1 && Join(", ", parts) == parts[0];
  }

  /** One character of a JSON string as `json.dumps` writes it with `ensure_ascii`. */
  function DumpsChar(c: char): (r: string)
    ensures |r| > 0 && AllPrintableAscii(r)
  {
    if c == '"' then "\\\""
    else if c == '\\' then "\\\\"
    else if c == '\n' then "\\n"
    else if c == '\r' then "\\r"
    else if c == '\t' then "\\t"
    else if c as int == 8 then "\\b"
    else if c as int == 12 then "\\f"
    else if 32 <= c as int <= 126 then [c]
    else if c as int < 0x1_0000 then "\\u" + Hex4(c as int)
    else
      var n := c as int - 0x1_0000;
      "\\u" + Hex4(0xD800 + n / 0x400) + "\\u" + Hex4(0xDC00 + n % 0x400)
  }

  function DumpsBody(s: string): (r: string)
    ensures AllPrintableAscii(r)
  {
    if |s| == 0 then [] else DumpsChar(s[0]) + DumpsBody(s[1..])
  }

  /** A string as `json.dumps` writes it: escaped and between double quotes. */
  function DumpsString(s: string): (r: string)
    ensures |r| >= 2 && r[0] == '"' && r[|r| - 1] == '"'
    ensures AllPrintableAscii(r)
  {
    "\"" + DumpsBody(s) + "\""
  }

  /**
   * `json.dumps(x)` with its default separators `", "` and `": "`. The text is
   * never empty, and its first character tells an object, an array and a
   * string apart from each other and from the other values.
   */
  function Dumps(j: Json): (r: string)
    ensures |r| > 0
    ensures j.Obj? <==> r[0] == '{'
    ensures j.Arr? <==> r[0] == '['
    ensures j.Str? <==> r[0] == '"'
    ensures j.Obj? ==> r[|r| - 1] == '}'
    ensures j.Arr? ==> r[|r| - 1] == ']'
  {
    match j
    case Null => "null"
    case Bool(b) => if b then "true" else "false"
    case Int(n) => IntToString(n)
    case Str(s) => DumpsString(s)
    case Arr(items) =>
      "[" + Join(", ", seq(|items|, i requires 0 <= i < |items| => Dumps(items[i]))) + "]"
    case Obj(fields) =>
      "{" + Join(", ", seq(|fields|, i requires 0 <= i < |fields| =>
                          DumpsString(fields[i].key) + ": " + Dumps(fields[i].value))) + "}"
  }

  /** With `ensure_ascii`, everything `json.dumps` writes is printable ASCII. */
  lemma {:induction false} DumpsAscii(j: Json)
    ensures AllPrintableAscii(Dumps(j))
    decreases j
  {
    match j
    case Null =>
    case Bool(b) =>
    case Int(n) => IntToStringAscii(n);
    case Str(s) =>
    case Arr(items) =>
      var parts := seq(|items|, i requires 0 <= i < |items| => Dumps(items[i]));
      forall k | 0 <= k < |parts| ensures AllPrintableAscii(parts[k]) {
        DumpsAscii(items[k]);
      }
      JoinPrintable(", ", parts);
    case Obj(fields) =>
      var parts := seq(|fields|, i requires 0 <= i < |fields| =>
                         DumpsString(fields[i].key) + ": " + Dumps(fields[i].value));
      forall k | 0 <= k < |parts| ensures AllPrintableAscii(parts[k]) {
        DumpsAscii(fields[k].value);
      }
      JoinPrintable(", ", parts);
  }

  lemma IntToStringAscii(n: int)
    ensures AllPrintableAscii(IntToString(n))
  {
  }
}
