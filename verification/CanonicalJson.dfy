/** The canonical JSON form that both sides sign: the Go writer
    (`protocol.CanonicalJSON`), the Python one (`security.canonical_payload`),
    and a parser that inverts them.  The form is the subset of RFC 8259,
    sections 4 to 7, with sorted keys and no insignificant white space. */
module CanonicalJson {
  import opened Prelude

  /** A decoded document.  Numbers are integers. */
  datatype Json =
    | Null
    | Bool(b: bool)
    | Int(n: int)
    | Str(s: string)
    | Arr(items: seq<Json>)
    | Obj(fields: map<string, Json>)

  /** Which library escapes the strings. */
  datatype Dialect = Go | Python

  // ---------------------------------------------------------------- scalars

  function DigitChar(n: nat): (c: char)
    requires n < 10
    ensures IsDigit(c) && DigitValue(c) == n
  {
    ('0' as int + n) as char
  }

  predicate IsDigit(c: char) { '0' <= c <= '9' }

  function DigitValue(c: char): nat
    requires IsDigit(c)
  {
    c as int - '0' as int
  }

  /** Decimal digits without leading zeros, as both languages print integers. */
  function Digits(n: nat): (r: string)
    ensures r != []
    ensures forall i :: 0 <= i < |r| ==> IsDigit(r[i])
  {
    if n < 10 then [DigitChar(n)] else Digits(n / 10) + [DigitChar(n % 10)]
  }

  function Decimal(n: int): string {
    if n < 0 then "-" + Digits(-n) else Digits(n)
  }

  function HexChar(n: nat): char
    requires n < 16
  {
    if n < 10 then ('0' as int + n) as char else ('a' as int + n - 10) as char
  }

  /** The `\u00XX` and `\u20XX` forms used for the characters that have no short escape. */
  function UnicodeEscape(c: char): string
    requires (c as int) < 0x10000
  {
    var n := c as int;
    ['\\', 'u', HexChar(n / 4096), HexChar(n / 256 % 16), HexChar(n / 16 % 16), HexChar(n % 16)]
  }

  /** Characters that only Go's encoder escapes. */
  predicate GoOnlyEscape(c: char) {
    c == '<' || c == '>' || c == '&' || c as int == 0x2028 || c as int == 0x2029
  }

  function EscapeChar(d: Dialect, c: char): string {
    if c == '"' then "\\\""
    else if c == '\\' then "\\\\"
    else if c as int == 8 then "\\b"
    else if c as int == 12 then "\\f"
    else if c == '\n' then "\\n"
    else if c == '\r' then "\\r"
    else if c == '\t' then "\\t"
    else if (c as int) < 0x20 then UnicodeEscape(c)
    else if d == Go && GoOnlyEscape(c) then UnicodeEscape(c)
    else [c]
  }

  function Escape(d: Dialect, s: string): string {
    if s == [] then [] else EscapeChar(d, s[0]) + Escape(d, s[1..])
  }

  function Quote(d: Dialect, s: string): string {
    "\"" + Escape(d, s) + "\""
  }

  // ---------------------------------------------------------------- writer

  /** The canonical text of a document. */
  ghost function Encode(d: Dialect, v: Json): string
    decreases v, 1, 0
  {
    match v
    case Null => "null"
    case Bool(b) => if b then "true" else "false"
    case Int(n) => Decimal(n)
    case Str(s) => Quote(d, s)
    case Arr(_) => "[" + Items(d, v, 0) + "]"
    case Obj(fields) => "{" + Members(d, v, Sorted(fields.Keys), true) + "}"
  }

  /** What the array loop writes from position `i` on. */
  ghost function Items(d: Dialect, v: Json, i: nat): string
    requires v.Arr? && i <= |v.items|
    decreases v, 0, |v.items| - i
  {
    if i == |v.items| then [] else
      (if i > 0 then "," else "") + Encode(d, v.items[i]) + Items(d, v, i + 1)
  }

  /** What the object loop writes for the remaining `keys`. */
  ghost function Members(d: Dialect, v: Json, keys: seq<string>, first: bool): string
    requires v.Obj? && forall k :: k in keys ==> k in v.fields
    decreases v, 0, |keys| + 1
  {
    if keys == [] then [] else Member(d, v, keys[0], first) + Members(d, v, keys[1..], false)
  }

  ghost function Member(d: Dialect, v: Json, key: string, first: bool): string
    requires v.Obj? && key in v.fields
    decreases v, 0, 0
  {
    (if first then "" else ",") + (Quote(d, key) + ":" + Encode(d, v.fields[key]))
  }

  /** Go decodes numbers into float64 before writing them; up to this magnitude that is exact.  Python keeps
      integers as they are. */
  const MAX_EXACT: int := 0x20_0000_0000_0000

  predicate ExactNumber(n: int) { -MAX_EXACT <= n <= MAX_EXACT }

  predicate Exact(v: Json)
    decreases v
  {
    match v
    case Int(n) => ExactNumber(n)
    case Arr(items) => forall i :: 0 <= i < |items| ==> Exact(items[i])
    case Obj(fields) => forall k :: k in fields ==> Exact(fields[k])
    case _ => true
  }

  /** `Encode(d, v)` is what that library writes. */
  predicate Writes(d: Dialect, v: Json) { d == Go ==> Exact(v) }

  class Buffer {
    const dialect: Dialect
    var data: string

    constructor (dialect: Dialect)
      ensures this.dialect == dialect && data == []
    {
      this.dialect := dialect;
      data := [];
    }

    method Write(s: string)
      modifies this`data
      ensures data == old(data) + s
    {
      data := data + s;
    }
  }

  /** `writeCanonical`: appends the canonical text.  `json.dumps` with sorted keys writes the same
      structure in its own dialect of string escapes. */
  method WriteCanonical(out: Buffer, v: Json)
    modifies out`data
    ensures out.data == old(out.data) + Encode(out.dialect, v)
    decreases v, 1
  {
    match v
    case Null => out.Write("null");
    case Bool(b) => if b { out.Write("true"); } else { out.Write("false"); }
    case Int(n) => out.Write(Decimal(n));
    case Str(s) => out.Write(Quote(out.dialect, s));
    case Arr(_) => WriteArray(out, v);
    case Obj(_) => WriteObject(out, v);
  }

  method WriteArray(out: Buffer, v: Json)
    requires v.Arr?
    modifies out`data
    ensures out.data == old(out.data) + Encode(out.dialect, v)
    decreases v, 0
  {
    out.Write("[");
    for i := 0 to |v.items|
      invariant out.data + Items(out.dialect, v, i) == old(out.data) + "[" + Items(out.dialect, v, 0)
    {
      ghost var before, comma, item := out.data, if i > 0 then "," else "", Encode(out.dialect, v.items[i]);
      if i > 0 { out.Write(","); }
      WriteCanonical(out, v.items[i]);
      assert out.data == before + comma + item;
      Append4(before, comma, item, Items(out.dialect, v, i + 1));
    }
    out.Write("]");
    assert old(out.data) + "[" + Items(out.dialect, v, 0) + "]"
      == old(out.data) + ("[" + Items(out.dialect, v, 0) + "]");
  }

  method WriteObject(out: Buffer, v: Json)
    requires v.Obj?
    modifies out`data
    ensures out.data == old(out.data) + Encode(out.dialect, v)
    decreases v, 0
  {
    var keys := KeysInOrder(v.fields);
    out.Write("{");
    WriteMembers(out, v, keys);
    out.Write("}");
    Append4(old(out.data), "{", Members(out.dialect, v, keys, true), "}");
  }

  /** The keys of a map arrive in an arbitrary order and are then sorted. */
  method KeysInOrder(fields: map<string, Json>) returns (keys: seq<string>)
    ensures keys == Sorted(fields.Keys) && forall k :: k in keys <==> k in fields
    ensures forall i, j :: 0 <= i < j < |keys| ==> ComesBefore(keys[i], keys[j])
  {
    keys := Shuffle(fields);
    keys := SortStrings(keys);
    AscendingUnique(keys, Sorted(fields.Keys));
  }

  method WriteMembers(out: Buffer, v: Json, keys: seq<string>)
    requires v.Obj? && forall k :: k in keys ==> k in v.fields
    modifies out`data
    ensures out.data == old(out.data) + Members(out.dialect, v, keys, true)
    decreases v, 0, 1
  {
    assert keys[0..] == keys;
    for i := 0 to |keys|
      invariant out.data + Members(out.dialect, v, keys[i..], i == 0)
        == old(out.data) + Members(out.dialect, v, keys, true)
    {
      assert keys[i..][1..] == keys[i + 1..];
      ghost var before, rest := out.data, Members(out.dialect, v, keys[i + 1..], false);
      JoinNext(old(out.data), before, Member(out.dialect, v, keys[i], i == 0), rest,
               Members(out.dialect, v, keys, true));
      WriteMember(out, v, keys[i], i == 0);
    }
  }

  method WriteMember(out: Buffer, v: Json, key: string, first: bool)
    requires v.Obj? && key in v.fields
    modifies out`data
    ensures out.data == old(out.data) + Member(out.dialect, v, key, first)
    decreases v, 0, 0
  {
    if !first { out.Write(","); }
    out.Write(Quote(out.dialect, key));
    out.Write(":");
    WriteCanonical(out, v.fields[key]);
    JoinMember(old(out.data), if first then "" else ",", Quote(out.dialect, key), Encode(out.dialect, v.fields[key]));
  }

  lemma JoinMember(start: string, comma: string, key: string, value: string)
    ensures start + comma + key + ":" + value == start + (comma + (key + ":" + value))
  {
  }

  lemma JoinNext(start: string, done: string, now: string, rest: string, whole: string)
    requires done + (now + rest) == start + whole
    ensures done + now + rest == start + whole
  {
  }

  lemma Append4(a: string, b: string, c: string, e: string)
    ensures a + (b + c + e) == a + b + c + e
  {
  }

  // ---------------------------------------------------------------- parser

  function DigitRun(s: string): (n: nat)
    ensures n <= |s|
    ensures forall i :: 0 <= i < n ==> IsDigit(s[i])
  {
    if s != [] && IsDigit(s[0]) then 1 + DigitRun(s[1..]) else 0
  }

  function NatValue(s: string): nat
    requires forall i :: 0 <= i < |s| ==> IsDigit(s[i])
  {
    if s == [] then 0 else 10 * NatValue(s[..|s| - 1]) + DigitValue(s[|s| - 1])
  }

  function HexValue(c: char): Option<nat> {
    if IsDigit(c) then Some(c as int - '0' as int)
    else if 'a' <= c <= 'f' then Some(c as int - 'a' as int + 10)
    else None
  }

  /** One escape sequence, after its backslash. */
  function ParseEscape(s: string): (r: Option<(char, string)>)
    ensures r.Some? ==> |r.value.1| < |s|
  {
    if s == [] then None
    else if s[0] == '"' then Some(('"', s[1..]))
    else if s[0] == '\\' then Some(('\\', s[1..]))
    else if s[0] == 'b' then Some((8 as char, s[1..]))
    else if s[0] == 'f' then Some((12 as char, s[1..]))
    else if s[0] == 'n' then Some(('\n', s[1..]))
    else if s[0] == 'r' then Some(('\r', s[1..]))
    else if s[0] == 't' then Some(('\t', s[1..]))
    else if s[0] == 'u' && |s| >= 5 then
      match (HexValue(s[1]), HexValue(s[2]), HexValue(s[3]), HexValue(s[4]))
      case (Some(a), Some(b), Some(c), Some(e)) =>
        var n := 4096 * a + 256 * b + 16 * c + e;
        if n < 0xD800 then Some((n as char, s[5..])) else None
      case _ => None
    else None
  }

  /** The characters of a string literal, after its opening quote.  Control characters have to be escaped. */
  function ParseChars(s: string): (r: Option<(string, string)>)
    ensures r.Some? ==> |r.value.1| < |s|
    decreases |s|
  {
    if s == [] then None
    else if s[0] == '"' then Some(([], s[1..]))
    else if s[0] == '\\' then
      match ParseEscape(s[1..])
      case None => None
      case Some((c, rest)) =>
        (match ParseChars(rest)
         case None => None
         case Some((cs, after)) => Some(([c] + cs, after)))
    else if s[0] < ' ' then None
    else
      match ParseChars(s[1..])
      case None => None
      case Some((cs, after)) => Some(([s[0]] + cs, after))
  }

  function ParseNat(s: string): (r: Option<(nat, string)>)
    ensures r.Some? ==> |r.value.1| < |s|
  {
    var n := DigitRun(s);
    if n == 0 then None else Some((NatValue(s[..n]), s[n..]))
  }

  function ParseValue(s: string): (r: Option<(Json, string)>)
    ensures r.Some? ==> |r.value.1| < |s|
    decreases |s|, 0
  {
    if s == [] then None
    else if s[0] == '"' then
      (match ParseChars(s[1..]) case None => None case Some((cs, rest)) => Some((Str(cs), rest)))
    else if s[0] == '[' then
      (match ParseItems(s[1..], true) case None => None case Some((vs, rest)) => Some((Arr(vs), rest)))
    else if s[0] == '{' then
      (match ParseMembers(s[1..], true) case None => None case Some((m, rest)) => Some((Obj(m), rest)))
    else if s[0] == '-' then
      (match ParseNat(s[1..]) case None => None case Some((n, rest)) => Some((Int(0 - n), rest)))
    else if IsDigit(s[0]) then
      (match ParseNat(s) case None => None case Some((n, rest)) => Some((Int(n), rest)))
    else if "null" <= s then Some((Null, s[4..]))
    else if "true" <= s then Some((Bool(true), s[4..]))
    else if "false" <= s then Some((Bool(false), s[5..]))
    else None
  }

  function ParseItems(s: string, first: bool): (r: Option<(seq<Json>, string)>)
    ensures r.Some? ==> |r.value.1| < |s|
    decreases |s|, 1
  {
    if s == [] then None
    else if s[0] == ']' then Some(([], s[1..]))
    else if !first && s[0] != ',' then None
    else
      match ParseValue(if first then s else s[1..])
      case None => None
      case Some((v, rest)) =>
        (match ParseItems(rest, false)
         case None => None
         case Some((vs, after)) => Some(([v] + vs, after)))
  }

  function ParseMembers(s: string, first: bool): (r: Option<(map<string, Json>, string)>)
    ensures r.Some? ==> |r.value.1| < |s|
    decreases |s|, 1
  {
    if s == [] then None
    else if s[0] == '}' then Some((map[], s[1..]))
    else if !first && s[0] != ',' then None
    else
      var t := if first then s else s[1..];
      if t == [] || t[0] != '"' then None else
        match ParseChars(t[1..])
        case None => None
        case Some((key, u)) =>
          if u == [] || u[0] != ':' then None else
            (match ParseValue(u[1..])
             case None => None
             case Some((v, rest)) =>
               (match ParseMembers(rest, false)
                case None => None
                case Some((m, after)) => Some((m[key := v], after))))
  }

  /** A whole document: one value and nothing after it. */
  function Parse(s: string): Option<Json> {
    match ParseValue(s)
    case Some((v, rest)) => if rest == [] then Some(v) else None
    case None => None
  }
}
