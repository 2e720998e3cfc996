/** Why the canonical form can be signed: it is unambiguous, and the two
    encoders write the same text wherever the agent's reports live. */
module CanonicalTheorems {
  import opened Prelude
  import opened CanonicalJson

  // ------------------------------------------------------------ integers

  lemma {:induction false} DigitsValue(n: nat)
    ensures NatValue(Digits(n)) == n
  {
    if n < 10 {
      assert NatValue([DigitChar(n)]) == 10 * NatValue([]) + n;
    } else {
      DigitsValue(n / 10);
      var r := Digits(n);
      assert r[..|r| - 1] == Digits(n / 10);
    }
  }

  lemma {:induction false} DigitRunStops(ds: string, rest: string)
    requires forall i :: 0 <= i < |ds| ==> IsDigit(ds[i])
    requires rest == [] || !IsDigit(rest[0])
    ensures DigitRun(ds + rest) == |ds|
  {
    if ds == [] {
      assert ds + rest == rest;
    } else {
      assert (ds + rest)[1..] == ds[1..] + rest;
      DigitRunStops(ds[1..], rest);
    }
  }

  lemma ParseNatDigits(n: nat, rest: string)
    requires rest == [] || !IsDigit(rest[0])
    ensures ParseNat(Digits(n) + rest) == Some((n, rest))
  {
    var ds := Digits(n);
    DigitRunStops(ds, rest);
    DigitsValue(n);
    assert (ds + rest)[..|ds|] == ds && (ds + rest)[|ds|..] == rest;
  }

  // ------------------------------------------------------------ strings

  /** Four hexadecimal digits read back. */
  lemma UnescapeUnicode(s: string, a: nat, b: nat, c: nat, e: nat, n: nat, rest: string)
    requires |s| >= 5 && s[0] == 'u' && s[5..] == rest && n == 4096 * a + 256 * b + 16 * c + e && n < 0xD800
    requires HexValue(s[1]) == Some(a) && HexValue(s[2]) == Some(b)
    requires HexValue(s[3]) == Some(c) && HexValue(s[4]) == Some(e)
    ensures ParseEscape(s) == Some((n as char, rest))
  {
  }

  lemma UnescapeLong(c: char, rest: string)
    requires c as int < 0xD800
    ensures ParseEscape(UnicodeEscape(c)[1..] + rest) == Some((c, rest))
  {
    var n, s := c as int, UnicodeEscape(c)[1..] + rest;
    HexDigits(n);
    assert s[5..] == rest;
    UnescapeUnicode(s, n / 4096, n / 256 % 16, n / 16 % 16, n % 16, n, rest);
  }

  lemma UnescapeShort(e: string, c: char, rest: string)
    requires |e| == 2 && ParseEscape(e[1..]) == Some((c, "")) && e[1] != 'u'
    ensures ParseEscape(e[1..] + rest) == Some((c, rest))
  {
    assert (e[1..] + rest)[1..] == rest;
  }

  lemma UnescapeOne(d: Dialect, c: char, rest: string)
    requires EscapeChar(d, c) != [c]
    ensures EscapeChar(d, c)[0] == '\\'
    ensures ParseEscape(EscapeChar(d, c)[1..] + rest) == Some((c, rest))
  {
    if |EscapeChar(d, c)| == 6 { UnescapeLong(c, rest); } else { UnescapeShort(EscapeChar(d, c), c, rest); }
  }

  lemma HexDigits(n: nat)
    requires n < 0x10000
    ensures HexValue(HexChar(n / 4096)) == Some(n / 4096)
    ensures HexValue(HexChar(n / 256 % 16)) == Some(n / 256 % 16)
    ensures HexValue(HexChar(n / 16 % 16)) == Some(n / 16 % 16)
    ensures HexValue(HexChar(n % 16)) == Some(n % 16)
    ensures 4096 * (n / 4096) + 256 * (n / 256 % 16) + 16 * (n / 16 % 16) + n % 16 == n
  {
    assert n / 4096 == n / 256 / 16 && n / 256 == n / 16 / 16;
  }

  lemma ParsePlainChar(c: char, tail: string, cs: string, rest: string)
    requires c != '"' && c != '\\' && c >= ' ' && ParseChars(tail) == Some((cs, rest))
    ensures ParseChars([c] + tail) == Some(([c] + cs, rest))
  {
    assert ([c] + tail)[1..] == tail;
  }

  lemma ParseEscapedChar(e: string, c: char, tail: string, cs: string, rest: string)
    requires e != [] && e[0] == '\\' && ParseEscape(e[1..] + tail) == Some((c, tail))
    requires ParseChars(tail) == Some((cs, rest))
    ensures ParseChars(e + tail) == Some(([c] + cs, rest))
  {
    assert (e + tail)[1..] == e[1..] + tail;
  }

  lemma {:induction false} ParseEscaped(d: Dialect, s: string, rest: string)
    ensures ParseChars(Escape(d, s) + "\"" + rest) == Some((s, rest))
  {
    if s == [] {
      assert Escape(d, s) + "\"" + rest == "\"" + rest;
    } else {
      var c, e, escaped := s[0], EscapeChar(d, s[0]), Escape(d, s[1..]);
      var tail := escaped + "\"" + rest;
      ParseEscaped(d, s[1..], rest);
      RegroupText(e, escaped, "\"", rest);
      if e == [c] {
        ParsePlainChar(c, tail, s[1..], rest);
      } else {
        UnescapeOne(d, c, tail);
        ParseEscapedChar(e, c, tail, s[1..], rest);
      }
      assert [c] + s[1..] == s;
    }
  }

  // ------------------------------------------------------------ documents

  predicate StartsValue(c: char) {
    c == '"' || c == '[' || c == '{' || c == '-' || IsDigit(c) || c == 'n' || c == 't' || c == 'f'
  }

  lemma EncodeStarts(d: Dialect, v: Json)
    ensures Encode(d, v) != [] && StartsValue(Encode(d, v)[0])
  {
  }

  lemma ParseKeyword(v: Json, rest: string)
    requires v.Null? || v.Bool?
    ensures ParseValue(Encode(Go, v) + rest) == Some((v, rest))
  {
    assert (Encode(Go, v) + rest)[|Encode(Go, v)|..] == rest;
  }

  lemma ParseDecimal(n: int, rest: string)
    requires rest == [] || !IsDigit(rest[0])
    ensures ParseValue(Decimal(n) + rest) == Some((Int(n), rest))
  {
    if n < 0 {
      ParseNatDigits(-n, rest);
      ParseNegative(Digits(-n) + rest, -n, rest);
      JoinThree("-", Digits(-n), rest);
    } else {
      ParseNatDigits(n, rest);
      ParseNonNegative(Digits(n) + rest, n, rest);
    }
  }

  lemma JoinThree(a: string, b: string, c: string)
    ensures a + b + c == a + (b + c)
  {
  }

  lemma ParseNegative(t: string, n: nat, rest: string)
    requires ParseNat(t) == Some((n, rest))
    ensures ParseValue("-" + t) == Some((Int(0 - n), rest))
  {
    assert ("-" + t)[1..] == t;
  }

  lemma ParseNonNegative(t: string, n: nat, rest: string)
    requires ParseNat(t) == Some((n, rest)) && IsDigit(t[0])
    ensures ParseValue(t) == Some((Int(n), rest))
  {
  }

  lemma ParseQuoted(d: Dialect, cs: string, rest: string)
    ensures ParseValue(Quote(d, cs) + rest) == Some((Str(cs), rest))
  {
    ParseEscaped(d, cs, rest);
    assert (Quote(d, cs) + rest)[1..] == Escape(d, cs) + "\"" + rest;
  }

  lemma ParseArrayBody(t: string, vs: seq<Json>, rest: string)
    requires ParseItems(t + "]" + rest, true) == Some((vs, rest))
    ensures ParseValue("[" + t + "]" + rest) == Some((Arr(vs), rest))
  {
    assert "[" + t + "]" + rest == "[" + (t + "]" + rest);
    ParseArray("[" + t + "]" + rest, t + "]" + rest, vs, rest);
  }

  lemma ParseArray(s: string, body: string, vs: seq<Json>, rest: string)
    requires s == "[" + body && ParseItems(body, true) == Some((vs, rest))
    ensures ParseValue(s) == Some((Arr(vs), rest))
  {
    assert s[1..] == body;
  }

  lemma ParseObjectBody(t: string, m: map<string, Json>, rest: string)
    requires ParseMembers(t + "}" + rest, true) == Some((m, rest))
    ensures ParseValue("{" + t + "}" + rest) == Some((Obj(m), rest))
  {
    assert "{" + t + "}" + rest == "{" + (t + "}" + rest);
    ParseObject("{" + t + "}" + rest, t + "}" + rest, m, rest);
  }

  lemma ParseObject(s: string, body: string, m: map<string, Json>, rest: string)
    requires s == "{" + body && ParseMembers(body, true) == Some((m, rest))
    ensures ParseValue(s) == Some((Obj(m), rest))
  {
    assert s[1..] == body;
  }

  /** One turn of the item loop. */
  lemma ParseOneItem(comma: string, item: string, more: string, v: Json, vs: seq<Json>, rest: string)
    requires comma == "" || comma == ","
    requires item != [] && StartsValue(item[0])
    requires ParseValue(item + more) == Some((v, more))
    requires ParseItems(more, false) == Some((vs, rest))
    ensures ParseItems(comma + item + more, comma == "") == Some(([v] + vs, rest))
  {
    ItemText(comma, item, more);
    ItemStep(comma + item + more, comma == "", item + more, v, more, vs, rest);
  }

  lemma ItemText(comma: string, item: string, more: string)
    requires (comma == "" || comma == ",") && item != []
    ensures var s := comma + item + more;
            && item + more == (if comma == "" then s else s[1..])
            && s[0] == (if comma == "" then item[0] else ',')
  {
    if comma == "" { assert comma + item + more == item + more; }
  }

  lemma ItemStep(s: string, first: bool, t: string, v: Json, more: string, vs: seq<Json>, rest: string)
    requires s != [] && t != [] && (if first then StartsValue(s[0]) else s[0] == ',')
    requires t == (if first then s else s[1..])
    requires ParseValue(t) == Some((v, more)) && ParseItems(more, false) == Some((vs, rest))
    ensures ParseItems(s, first) == Some(([v] + vs, rest))
  {
  }

  /** One turn of the member loop. */
  lemma ParseOneMember(d: Dialect, comma: string, key: string, value: string, more: string,
                       v: Json, m: map<string, Json>, rest: string)
    requires comma == "" || comma == ","
    requires ParseValue(value + more) == Some((v, more))
    requires ParseMembers(more, false) == Some((m, rest))
    ensures ParseMembers(comma + (Quote(d, key) + ":" + value) + more, comma == "") == Some((m[key := v], rest))
  {
    var u := ":" + (value + more);
    var t := "\"" + (Escape(d, key) + "\"" + u);
    MemberText(comma, Escape(d, key), value, more);
    ParseEscaped(d, key, u);
    MemberStep(comma + t, comma == "", t, key, u, v, more, m, rest);
  }

  lemma MemberText(comma: string, escaped: string, value: string, more: string)
    requires comma == "" || comma == ","
    ensures var u := ":" + (value + more);
            var t := "\"" + (escaped + "\"" + u);
            && comma + ("\"" + escaped + "\"" + ":" + value) + more == comma + t
            && t == (if comma == "" then comma + t else (comma + t)[1..])
            && t[1..] == escaped + "\"" + u
            && u[1..] == value + more
  {
    var u := ":" + (value + more);
    var t := "\"" + (escaped + "\"" + u);
    MemberRegroup(comma, "\"", escaped, ":", value, more);
    AfterFirst("\"", escaped + "\"" + u);
    AfterFirst(":", value + more);
    if comma == "" { assert comma + t == t; } else { AfterFirst(comma, t); }
  }

  lemma MemberRegroup(comma: string, quote: string, escaped: string, colon: string, value: string, more: string)
    ensures comma + (quote + escaped + quote + colon + value) + more
         == comma + (quote + (escaped + quote + (colon + (value + more))))
  {
    RegroupText(quote + escaped, quote, colon + value, more);
    RegroupText(quote, escaped, quote, colon + (value + more));
  }

  lemma AfterFirst(one: string, rest: string)
    requires |one| == 1
    ensures (one + rest)[1..] == rest
  {
  }

  lemma MemberStep(s: string, first: bool, t: string, key: string, u: string,
                   v: Json, more: string, m: map<string, Json>, rest: string)
    requires s != [] && s[0] == if first then '"' else ','
    requires t == (if first then s else s[1..]) && t != [] && t[0] == '"'
    requires ParseChars(t[1..]) == Some((key, u)) && u != [] && u[0] == ':'
    requires ParseValue(u[1..]) == Some((v, more))
    requires ParseMembers(more, false) == Some((m, rest))
    ensures ParseMembers(s, first) == Some((m[key := v], rest))
  {
  }

  /** An object is written with its keys in the order of a dictionary, whatever lists them. */
  lemma ObjectInOrder(d: Dialect, fields: map<string, Json>, keys: seq<string>)
    requires forall k :: k in keys <==> k in fields
    requires forall i, j :: 0 <= i < j < |keys| ==> ComesBefore(keys[i], keys[j])
    ensures Encode(d, Obj(fields)) == "{" + Members(d, Obj(fields), keys, true) + "}"
  {
    forall i, j | 0 <= i < j < |keys| ensures LexLess(keys[i], keys[j]) {
      LexExactly(keys[i], keys[j]);
    }
    AscendingUnique(keys, Sorted(fields.Keys));
  }

  /** The parser reads back exactly what was written and leaves the rest. */
  lemma {:induction false} ParseInverts(d: Dialect, v: Json, rest: string)
    requires rest == [] || !IsDigit(rest[0])
    ensures ParseValue(Encode(d, v) + rest) == Some((v, rest))
    decreases v, 1, 0
  {
    match v
    case Int(n) => ParseDecimal(n, rest);
    case Str(cs) => ParseQuoted(d, cs, rest);
    case Arr(vs) =>
      ItemsInvert(d, v, 0, rest);
      ArrayRead(d, v, rest);
    case Obj(m) =>
      MembersInvert(d, v, Sorted(m.Keys), true, rest);
      ObjectRead(d, v, Sorted(m.Keys), rest);
    case _ => ParseKeyword(v, rest);
  }

  lemma ArrayRead(d: Dialect, v: Json, rest: string)
    requires v.Arr? && ParseItems(Items(d, v, 0) + "]" + rest, true) == Some((v.items[0..], rest))
    ensures ParseValue(Encode(d, v) + rest) == Some((v, rest))
  {
    assert v.items[0..] == v.items;
    ParseArrayBody(Items(d, v, 0), v.items, rest);
  }

  lemma ObjectRead(d: Dialect, v: Json, keys: seq<string>, rest: string)
    requires v.Obj? && keys == Sorted(v.fields.Keys)
    requires ParseMembers(Members(d, v, keys, true) + "}" + rest, true) == Some((FieldsOf(v, keys), rest))
    ensures ParseValue(Encode(d, v) + rest) == Some((v, rest))
  {
    AllFields(v, keys);
    ParseObjectBody(Members(d, v, keys, true), v.fields, rest);
  }

  lemma AllFields(v: Json, keys: seq<string>)
    requires v.Obj? && forall k :: k in keys <==> k in v.fields
    ensures FieldsOf(v, keys) == v.fields
  {
  }

  ghost function FieldsOf(v: Json, keys: seq<string>): map<string, Json>
    requires v.Obj? && forall k :: k in keys ==> k in v.fields
  {
    map k | k in keys :: v.fields[k]
  }

  lemma {:induction false} ItemsInvert(d: Dialect, v: Json, i: nat, rest: string)
    requires v.Arr? && i <= |v.items|
    ensures ParseItems(Items(d, v, i) + "]" + rest, i == 0) == Some((v.items[i..], rest))
    decreases v, 0, |v.items| - i
  {
    if i == |v.items| {
      assert Items(d, v, i) + "]" + rest == "]" + rest;
      assert v.items[i..] == [];
    } else {
      var comma, item, tail := if i > 0 then "," else "", Encode(d, v.items[i]), Items(d, v, i + 1);
      var more := tail + "]" + rest;
      ItemsTail(d, v, i, rest);
      EncodeStarts(d, v.items[i]);
      ParseInverts(d, v.items[i], more);
      ItemsInvert(d, v, i + 1, rest);
      ParseOneItem(comma, item, more, v.items[i], v.items[i + 1..], rest);
      FromPosition(v.items, i);
    }
  }

  lemma FromPosition<T>(a: seq<T>, i: nat)
    requires i < |a|
    ensures [a[i]] + a[i + 1..] == a[i..]
  {
  }

  /** The text from item `i` on: a comma unless it is the first, the item, and a text that begins with no digit. */
  lemma ItemsTail(d: Dialect, v: Json, i: nat, rest: string)
    requires v.Arr? && i < |v.items|
    ensures var more := Items(d, v, i + 1) + "]" + rest;
            && Items(d, v, i) + "]" + rest == (if i > 0 then "," else "") + Encode(d, v.items[i]) + more
            && more != [] && !IsDigit(more[0])
  {
    var tail := Items(d, v, i + 1);
    RegroupText((if i > 0 then "," else "") + Encode(d, v.items[i]), tail, "]", rest);
    assert (tail + "]" + rest)[0] == if i + 1 == |v.items| then ']' else ',';
  }

  lemma RegroupText(a: string, b: string, c: string, e: string)
    ensures a + b + c + e == a + (b + c + e)
  {
  }

  lemma {:induction false} MembersInvert(d: Dialect, v: Json, keys: seq<string>, first: bool, rest: string)
    requires v.Obj? && (forall k :: k in keys ==> k in v.fields) && Ascending(keys)
    ensures ParseMembers(Members(d, v, keys, first) + "}" + rest, first) == Some((FieldsOf(v, keys), rest))
    decreases v, 0, |keys|
  {
    if keys == [] {
      assert Members(d, v, keys, first) + "}" + rest == "}" + rest;
    } else {
      var comma, key, tail := if first then "" else ",", keys[0], Members(d, v, keys[1..], false);
      var value, more := Encode(d, v.fields[key]), tail + "}" + rest;
      MembersTail(d, v, keys, first, rest);
      ParseInverts(d, v.fields[key], more);
      MembersInvert(d, v, keys[1..], false, rest);
      ParseOneMember(d, comma, key, value, more, v.fields[key], FieldsOf(v, keys[1..]), rest);
      assert FieldsOf(v, keys[1..])[key := v.fields[key]] == FieldsOf(v, keys);
    }
  }

  /** The text of the members `keys`: the first of them and a text that begins with no digit. */
  lemma MembersTail(d: Dialect, v: Json, keys: seq<string>, first: bool, rest: string)
    requires v.Obj? && keys != [] && forall k :: k in keys ==> k in v.fields
    ensures var comma := if first then "" else ",";
            var more := Members(d, v, keys[1..], false) + "}" + rest;
            && Members(d, v, keys, first) + "}" + rest
               == comma + (Quote(d, keys[0]) + ":" + Encode(d, v.fields[keys[0]])) + more
            && !IsDigit(more[0])
  {
    RegroupText(Member(d, v, keys[0], first), Members(d, v, keys[1..], false), "}", rest);
  }

  /** Decoding undoes encoding, for both encoders and every document they write faithfully. */
  lemma RoundTrip(d: Dialect, v: Json)
    requires Writes(d, v)
    ensures Parse(Encode(d, v)) == Some(v)
  {
    ParseInverts(d, v, []);
    assert Encode(d, v) + [] == Encode(d, v);
  }

  /** Two documents, even written by different encoders, never share a text. */
  lemma EncodingInjective(d: Dialect, v: Json, e: Dialect, w: Json)
    requires Writes(d, v) && Writes(e, w) && Encode(d, v) == Encode(e, w)
    ensures v == w
  {
    RoundTrip(d, v);
    RoundTrip(e, w);
  }

  // ------------------------------------------------------------ agreement

  /** The text holds none of the five characters that only Go escapes. */
  predicate PlainText(s: string) {
    forall c :: c in s ==> c !in {'<', '>', '&', 0x2028 as char, 0x2029 as char}
  }

  predicate Plain(v: Json)
    decreases v
  {
    match v
    case Str(s) => PlainText(s)
    case Arr(items) => forall i :: 0 <= i < |items| ==> Plain(items[i])
    case Obj(fields) => forall k :: k in fields ==> PlainText(k) && Plain(fields[k])
    case _ => true
  }

  lemma PlainConcat(a: string, b: string)
    ensures PlainText(a + b) <==> PlainText(a) && PlainText(b)
  {
    assert forall c :: c in a + b <==> c in a || c in b;
  }

  lemma EscapedChar(c: char)
    ensures PlainText(EscapeChar(Go, c))
    ensures PlainText(EscapeChar(Python, c)) <==> !GoOnlyEscape(c)
    ensures !GoOnlyEscape(c) ==> EscapeChar(Go, c) == EscapeChar(Python, c)
  {
    if GoOnlyEscape(c) { assert c in EscapeChar(Python, c); }
  }

  lemma {:induction false} EscapedText(s: string)
    ensures PlainText(Escape(Go, s))
    ensures PlainText(Escape(Python, s)) <==> PlainText(s)
    ensures PlainText(s) ==> Escape(Go, s) == Escape(Python, s)
  {
    if s != [] {
      EscapedText(s[1..]);
      EscapedChar(s[0]);
      PlainConcat(EscapeChar(Go, s[0]), Escape(Go, s[1..]));
      PlainConcat(EscapeChar(Python, s[0]), Escape(Python, s[1..]));
      PlainConcat([s[0]], s[1..]);
      assert s == [s[0]] + s[1..];
    }
  }

  lemma QuotedText(s: string)
    ensures PlainText(Quote(Go, s))
    ensures PlainText(Quote(Python, s)) <==> PlainText(s)
    ensures PlainText(s) ==> Quote(Go, s) == Quote(Python, s)
  {
    EscapedText(s);
    forall d: Dialect ensures PlainText(Quote(d, s)) <==> PlainText(Escape(d, s)) {
      PlainConcat("\"" + Escape(d, s), "\"");
      PlainConcat("\"", Escape(d, s));
    }
  }

  lemma {:induction false} DigitsPlain(n: nat)
    ensures PlainText(Digits(n))
  {
  }

  /** Go's text never holds one of those characters, Python's holds one exactly
      when the document does, and otherwise the texts are equal. */
  lemma {:induction false} TextsCompared(v: Json)
    ensures PlainText(Encode(Go, v))
    ensures PlainText(Encode(Python, v)) <==> Plain(v)
    ensures Plain(v) ==> Encode(Go, v) == Encode(Python, v)
    decreases v, 1, 0
  {
    match v
    case Int(n) => DigitsPlain(if n < 0 then -n else n);
    case Str(s) => QuotedText(s);
    case Arr(_) =>
      ItemsCompared(v, 0);
      forall d: Dialect ensures PlainText(Encode(d, v)) <==> PlainText(Items(d, v, 0)) {
        PlainConcat("[" + Items(d, v, 0), "]");
        PlainConcat("[", Items(d, v, 0));
      }
    case Obj(m) =>
      var keys := Sorted(m.Keys);
      MembersCompared(v, keys, true);
      forall d: Dialect ensures PlainText(Encode(d, v)) <==> PlainText(Members(d, v, keys, true)) {
        PlainConcat("{" + Members(d, v, keys, true), "}");
        PlainConcat("{", Members(d, v, keys, true));
      }
    case _ =>
  }

  lemma {:induction false} ItemsCompared(v: Json, i: nat)
    requires v.Arr? && i <= |v.items|
    ensures PlainText(Items(Go, v, i))
    ensures PlainText(Items(Python, v, i)) <==> forall j :: i <= j < |v.items| ==> Plain(v.items[j])
    ensures PlainText(Items(Python, v, i)) ==> Items(Go, v, i) == Items(Python, v, i)
    decreases v, 0, |v.items| - i
  {
    if i < |v.items| {
      TextsCompared(v.items[i]);
      ItemsCompared(v, i + 1);
      var comma := if i > 0 then "," else "";
      forall d: Dialect
        ensures PlainText(Items(d, v, i)) <==> PlainText(Encode(d, v.items[i])) && PlainText(Items(d, v, i + 1))
      {
        PlainConcat(comma, Encode(d, v.items[i]));
        PlainConcat(comma + Encode(d, v.items[i]), Items(d, v, i + 1));
      }
    }
  }

  lemma {:induction false} MembersCompared(v: Json, keys: seq<string>, first: bool)
    requires v.Obj? && forall k :: k in keys ==> k in v.fields
    ensures PlainText(Members(Go, v, keys, first))
    ensures PlainText(Members(Python, v, keys, first))
      <==> forall k :: k in keys ==> PlainText(k) && Plain(v.fields[k])
    ensures PlainText(Members(Python, v, keys, first))
      ==> Members(Go, v, keys, first) == Members(Python, v, keys, first)
    decreases v, 0, |keys| + 1
  {
    if keys != [] {
      MemberCompared(v, keys[0], first);
      MembersCompared(v, keys[1..], false);
      forall d: Dialect
        ensures PlainText(Members(d, v, keys, first))
          <==> PlainText(Member(d, v, keys[0], first)) && PlainText(Members(d, v, keys[1..], false))
      {
        PlainConcat(Member(d, v, keys[0], first), Members(d, v, keys[1..], false));
      }
      assert forall k :: k in keys <==> k == keys[0] || k in keys[1..];
    }
  }

  lemma MemberCompared(v: Json, key: string, first: bool)
    requires v.Obj? && key in v.fields
    ensures PlainText(Member(Go, v, key, first))
    ensures PlainText(Member(Python, v, key, first)) <==> PlainText(key) && Plain(v.fields[key])
    ensures PlainText(Member(Python, v, key, first)) ==> Member(Go, v, key, first) == Member(Python, v, key, first)
    decreases v, 0, 0
  {
    QuotedText(key);
    TextsCompared(v.fields[key]);
    var comma := if first then "" else ",";
    forall d: Dialect
      ensures PlainText(Member(d, v, key, first))
        <==> PlainText(Quote(d, key)) && PlainText(Encode(d, v.fields[key]))
    {
      PlainConcat(Quote(d, key), ":");
      PlainConcat(Quote(d, key) + ":", Encode(d, v.fields[key]));
      PlainConcat(comma, Quote(d, key) + ":" + Encode(d, v.fields[key]));
    }
  }

  /** Among documents with exact numbers, the two encoders agree on exactly those
      that are free of the five characters. */
  lemma EncodersAgree(v: Json)
    requires Exact(v)
    ensures Encode(Go, v) == Encode(Python, v) <==> Plain(v)
  {
    TextsCompared(v);
  }
}
