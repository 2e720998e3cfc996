/** When rewriting a rewritten config changes nothing. */
module TelemetryTheorems {
  import opened Prelude
  import opened Telemetry

  // ------------------------------------------------------------ splitting and joining

  lemma {:induction false} SplitAt(a: string, b: string)
    ensures Lines(a + "\n" + b) == Lines(a) + Lines(b)
  {
    if a == "" {
      assert a + "\n" + b == "\n" + b && ("\n" + b)[1..] == b;
    } else {
      assert (a + "\n" + b)[1..] == a[1..] + "\n" + b && (a + "\n" + b)[0] == a[0];
      SplitAt(a[1..], b);
    }
  }

  lemma {:induction false} SingleLine(s: string)
    requires OneLine(s)
    ensures Lines(s) == [s]
  {
    if s != "" {
      assert OneLine(s[1..]);
      SingleLine(s[1..]);
      assert [s[0]] + s[1..] == s;
    }
  }

  lemma {:induction false} SplitJoin(lines: seq<string>)
    requires lines != [] && forall l :: l in lines ==> OneLine(l)
    ensures Lines(Join(lines)) == lines
  {
    SingleLine(lines[0]);
    if |lines| > 1 {
      SplitJoin(lines[1..]);
      SplitAt(lines[0], Join(lines[1..]));
    }
  }

  lemma JoinBreak(rest: seq<string>)
    requires rest != []
    ensures Join([""] + rest) == "\n" + Join(rest)
  {
    assert ([""] + rest)[1..] == rest;
    assert "" + "\n" + Join(rest) == "\n" + Join(rest);
  }

  lemma JoinChar(c: char, rest: seq<string>)
    requires rest != []
    ensures Join([[c] + rest[0]] + rest[1..]) == [c] + Join(rest)
  {
    var lines := [[c] + rest[0]] + rest[1..];
    assert lines[1..] == rest[1..];
    if |rest| > 1 {
      assert [c] + rest[0] + "\n" + Join(rest[1..]) == [c] + (rest[0] + "\n" + Join(rest[1..]));
    }
  }

  lemma {:induction false} JoinSplit(s: string)
    ensures Join(Lines(s)) == s
  {
    if s != "" {
      JoinSplit(s[1..]);
      JoinBreak(Lines(s[1..]));
      JoinChar(s[0], Lines(s[1..]));
      assert s == [s[0]] + s[1..];
    }
  }

  lemma {:induction false} KeptAppend(a: seq<string>, b: seq<string>, before: bool)
    ensures Kept(a + b, before) == Kept(a, before) + Kept(b, InOtel(a, before))
    ensures InOtel(a + b, before) == InOtel(b, InOtel(a, before))
  {
    if a == [] {
      assert a + b == b;
    } else {
      var now := Switch(a[0], before);
      assert (a + b)[0] == a[0] && (a + b)[1..] == a[1..] + b;
      KeptAppend(a[1..], b, now);
      Regroup(if now then [] else [a[0]], Kept(a[1..], now), Kept(b, InOtel(a, before)));
    }
  }

  // ------------------------------------------------------------ trimming

  predicate Trimmed(s: string) { s == "" || (!IsSpace(s[0]) && !IsSpace(s[|s| - 1])) }

  lemma {:induction false} TrimLeftStarts(s: string)
    ensures TrimLeft(s) == "" || !IsSpace(TrimLeft(s)[0])
  {
    if s != "" && IsSpace(s[0]) { TrimLeftStarts(s[1..]); }
  }

  lemma {:induction false} TrimRightEnds(s: string)
    ensures TrimRight(s) <= s && (TrimRight(s) == "" || !IsSpace(TrimRight(s)[|TrimRight(s)| - 1]))
  {
    if s != "" && IsSpace(s[|s| - 1]) { TrimRightEnds(s[..|s| - 1]); }
  }

  lemma TrimTrims(s: string)
    ensures Trimmed(Trim(s))
  {
    TrimLeftStarts(s);
    TrimRightEnds(TrimLeft(s));
  }

  lemma TrimAgain(s: string)
    requires Trimmed(s)
    ensures Trim(s) == s && Trim(s + "\n") == s
  {
    if s == "" {
      assert "\n"[1..] == "";
    } else {
      assert (s + "\n")[0] == s[0] && (s + "\n")[|s|] == '\n' && (s + "\n")[..|s|] == s;
      assert TrimLeft(s + "\n") == s + "\n";
    }
  }

  // ------------------------------------------------------------ the block

  lemma Joined(a: string, b: string)
    requires OneLine(a) && OneLine(b)
    ensures OneLine(a + b)
  {
  }

  lemma NotHeader(s: string)
    requires s != "" && !IsBlank(s[0]) && s[0] != '['
    ensures !IsHeader(s)
  {
  }

  lemma EndpointLine()
    ensures OneLine(Endpoint())
  {
    assert OneLine("endpoint = ") && OneLine("\"http://127.0.0.1:") && OneLine("9464/v1/logs\", ");
    Joined("\"http://127.0.0.1:", "9464/v1/logs\", ");
    Joined("endpoint = ", "\"http://127.0.0.1:" + "9464/v1/logs\", ");
  }

  lemma HeadersLine()
    ensures OneLine(Headers())
  {
    assert OneLine("protocol = ") && OneLine("\"json\", ") && OneLine("headers = { ") && OneLine("Authorization = ");
    Joined("headers = { ", "Authorization = ");
    Joined("\"json\", ", "headers = { " + "Authorization = ");
    Joined("protocol = ", "\"json\", " + ("headers = { " + "Authorization = "));
  }

  lemma Surround(a: string, b: string, c: string, d: string, e: string, f: string)
    requires OneLine(a) && OneLine(b) && OneLine(c) && OneLine(d) && OneLine(e) && OneLine(f)
    ensures OneLine(a + (b + (c + (d + (e + f)))))
  {
    Joined(e, f);
    Joined(d, e + f);
    Joined(c, d + (e + f));
    Joined(b, c + (d + (e + f)));
    Joined(a, b + (c + (d + (e + f))));
  }

  lemma ExporterLine(auth: string)
    requires OneLine(auth)
    ensures OneLine(Exporter(auth)) && !IsHeader(Exporter(auth))
  {
    EndpointLine();
    HeadersLine();
    assert OneLine("exporter = { ") && OneLine("otlp-http = { ") && OneLine(" } } }");
    Surround("exporter = { ", "otlp-http = { ", Endpoint(), Headers(), auth, " } } }");
    StartsWith("exporter = { ", "otlp-http = { " + (Endpoint() + (Headers() + (auth + " } } }"))));
    NotHeader(Exporter(auth));
  }

  lemma StartsWith(a: string, b: string)
    requires a != ""
    ensures (a + b)[0] == a[0]
  {
  }

  lemma FixedLines()
    ensures OneLine("[otel]") && OneLine(Environment()) && OneLine(Prompt())
    ensures !IsHeader(Environment()) && !IsHeader(Prompt()) && !IsHeader("")
  {
    assert OneLine("environment = ") && OneLine("\"classroom\"") && OneLine("log_user_prompt") && OneLine(" = false");
    Joined("environment = ", "\"classroom\"");
    Joined("log_user_prompt", " = false");
    StartsWith("environment = ", "\"classroom\"");
    StartsWith("log_user_prompt", " = false");
    NotHeader(Environment());
    NotHeader(Prompt());
  }

  // ------------------------------------------------------------ headers

  predicate AllBlank(s: string) { forall i :: 0 <= i < |s| ==> s[i] in {' ', '\t', '\n', '\r', 12 as char} }

  /** The line is white space, a name in brackets, white space and perhaps a comment. */
  ghost predicate Heads(line: string, a: string, name: string, b: string, comment: string) {
    && line == a + "[" + name + "]" + b + comment && AllBlank(a) && AllBlank(b)
    && name != "" && ']' !in name && (comment == "" || comment[0] == '#')
  }

  lemma {:induction false} SkipsBlanks(a: string, rest: string)
    requires AllBlank(a) && (rest == "" || !IsBlank(rest[0]))
    ensures SkipBlanks(a + rest) == rest
  {
    if a == "" {
      assert a + rest == rest;
    } else {
      assert IsBlank(a[0]) && (a + rest)[1..] == a[1..] + rest;
      SkipsBlanks(a[1..], rest);
    }
  }

  lemma {:induction false} BlanksSkipped(s: string) returns (a: string)
    ensures s == a + SkipBlanks(s) && AllBlank(a)
    ensures SkipBlanks(s) == "" || !IsBlank(SkipBlanks(s)[0])
  {
    if s != "" && IsBlank(s[0]) {
      var tail := BlanksSkipped(s[1..]);
      a := [s[0]] + tail;
      assert s == [s[0]] + s[1..];
    } else {
      a := "";
    }
  }

  lemma {:induction false} ClosesAfter(name: string, rest: string)
    requires ']' !in name
    ensures Close(name + "]" + rest) == |name|
  {
    if name != "" {
      assert (name + "]" + rest)[1..] == name[1..] + "]" + rest;
      ClosesAfter(name[1..], rest);
    } else {
      assert name + "]" + rest == "]" + rest;
    }
  }

  lemma NameRead(line: string, rest: string, name: string, tail: string)
    requires SkipBlanks(line) == rest && rest == "[" + (name + "]" + tail)
    requires name != "" && ']' !in name && EndsHeader(tail)
    ensures HeaderName(line) == Some(name)
  {
    assert rest[1..] == name + "]" + tail;
    ClosesAfter(name, tail);
    assert rest[|name| + 2..] == tail && rest[1..|name| + 1] == name;
  }

  lemma HeadsNamed(line: string, a: string, name: string, b: string, comment: string)
    requires Heads(line, a, name, b, comment)
    ensures HeaderName(line) == Some(name)
  {
    var rest := "[" + (name + "]" + (b + comment));
    assert line == a + rest by { Regrouped(a, "[", name, "]", b, comment); }
    SkipsBlanks(a, rest);
    SkipsBlanks(b, comment);
    NameRead(line, rest, name, b + comment);
  }

  lemma Regrouped(a: string, l: string, name: string, r: string, b: string, comment: string)
    ensures a + l + name + r + b + comment == a + (l + (name + r + (b + comment)))
  {
  }

  /** A text that begins with a bracket and has another is the two brackets with the name, and what follows. */
  lemma Bracketed(rest: string, i: nat)
    requires rest != "" && rest[0] == '[' && i == Close(rest[1..]) && i < |rest| - 1
    ensures rest == "[" + rest[1..i + 1] + "]" + rest[i + 2..] && ']' !in rest[1..i + 1]
  {
    assert rest[i + 1] == rest[1..][i] == ']';
    assert forall k :: 0 <= k < i ==> rest[1..i + 1][k] == rest[1..][k];
  }

  lemma Assembled(line: string, a: string, rest: string, name: string, after: string, b: string, comment: string)
    requires line == a + rest && rest == "[" + name + "]" + after && after == b + comment
    requires AllBlank(a) && AllBlank(b) && name != "" && ']' !in name && (comment == "" || comment[0] == '#')
    ensures Heads(line, a, name, b, comment)
  {
    Pieces(a, "[" + name + "]", b, comment);
    Around(a, "[", name, "]");
  }

  lemma Around(a: string, l: string, name: string, r: string)
    ensures a + (l + name + r) == a + l + name + r
  {
  }

  lemma HeaderParts(line: string) returns (rest: string, name: string, after: string)
    requires HeaderName(line).Some?
    ensures rest == SkipBlanks(line) && rest == "[" + name + "]" + after && HeaderName(line) == Some(name)
    ensures name != "" && ']' !in name && EndsHeader(after)
  {
    rest := SkipBlanks(line);
    var i := Close(rest[1..]);
    name, after := rest[1..i + 1], rest[i + 2..];
    Bracketed(rest, i);
  }

  lemma NamedHeads(line: string) returns (a: string, b: string, comment: string)
    requires HeaderName(line).Some?
    ensures Heads(line, a, HeaderName(line).value, b, comment)
  {
    var rest, name, after := HeaderParts(line);
    a := BlanksSkipped(line);
    b := BlanksSkipped(after);
    comment := SkipBlanks(after);
    Assembled(line, a, rest, name, after, b, comment);
  }

  lemma Pieces(a: string, header: string, b: string, comment: string)
    ensures a + (header + (b + comment)) == a + header + b + comment
  {
  }

  /** A line is a section header of that name exactly if the regular expression matches it. */
  lemma HeaderExactly(line: string, name: string)
    ensures HeaderName(line) == Some(name) <==> exists a, b, comment :: Heads(line, a, name, b, comment)
  {
    if HeaderName(line) == Some(name) { var a, b, comment := NamedHeads(line); }
    if a, b, comment :| Heads(line, a, name, b, comment) { HeadsNamed(line, a, name, b, comment); }
  }

  lemma OtelLine()
    ensures IsOtelHeader("[otel]")
  {
    var rest := "[otel]";
    assert SkipBlanks(rest) == rest;
    assert rest[1..] == "otel]";
    assert Close("otel]") == 4 by {
      assert "otel]"[4] == ']';
    }
    assert rest[6..] == "";
    assert rest[1..5] == "otel";
  }

  lemma LinesOfFour(a: string, b: string, c: string, d: string)
    requires OneLine(a) && OneLine(b) && OneLine(c) && OneLine(d)
    ensures Lines(FourLines(a, b, c, d)) == [a, b, c, d, ""]
  {
    SingleLine(a);
    SingleLine(b);
    SingleLine(c);
    SingleLine(d);
    SplitAt(d, "");
    SplitAt(c, d + "\n" + "");
    SplitAt(b, c + "\n" + (d + "\n" + ""));
    SplitAt(a, b + "\n" + (c + "\n" + (d + "\n" + "")));
  }

  function BlockLines(auth: string): seq<string> {
    ["[otel]", Environment(), Prompt(), Exporter(auth), ""]
  }

  lemma LinesOfBlock(auth: string)
    requires OneLine(auth)
    ensures Lines(Block(auth)) == BlockLines(auth)
  {
    FixedLines();
    ExporterLine(auth);
    LinesOfFour("[otel]", Environment(), Prompt(), Exporter(auth));
  }

  lemma {:induction false} SectionStripped(lines: seq<string>)
    requires forall l :: l in lines ==> !IsHeader(l)
    ensures Kept(lines, true) == [] && InOtel(lines, true)
  {
    if lines != [] { SectionStripped(lines[1..]); }
  }

  lemma HeadedStripped(header: string, body: seq<string>, before: bool)
    requires IsOtelHeader(header) && forall l :: l in body ==> !IsHeader(l)
    ensures Kept([header] + body, before) == []
  {
    assert ([header] + body)[1..] == body;
    SectionStripped(body);
  }

  /** The block is one otel section. */
  lemma BlockStripped(auth: string, before: bool)
    requires OneLine(auth)
    ensures Kept(BlockLines(auth), before) == []
  {
    FixedLines();
    ExporterLine(auth);
    OtelLine();
    HeadedStripped("[otel]", [Environment(), Prompt(), Exporter(auth), ""], before);
    assert BlockLines(auth) == ["[otel]"] + [Environment(), Prompt(), Exporter(auth), ""];
  }

  // ------------------------------------------------------------ rewriting twice

  ghost predicate OtelFree(lines: seq<string>) { forall l :: l in lines ==> !IsOtelHeader(l) }

  lemma {:induction false} FreeKept(lines: seq<string>)
    requires OtelFree(lines)
    ensures Kept(lines, false) == lines && !InOtel(lines, false)
  {
    if lines != [] {
      FreeKept(lines[1..]);
      assert lines == [lines[0]] + lines[1..];
    }
  }

  /** The lines of the result: the old content, an empty line and the block. */
  function ContentLines(content: string): seq<string> {
    if content == "" then [] else Lines(content) + [""]
  }

  lemma LinesAround(content: string, block: string)
    ensures Lines(content + "\n\n" + block) == Lines(content) + [""] + Lines(block)
  {
    SplitAt("", block);
    SplitAt(content, "" + "\n" + block);
    assert content + "\n\n" + block == content + "\n" + ("" + "\n" + block);
    assert Lines(content) + ([""] + Lines(block)) == Lines(content) + [""] + Lines(block);
  }

  lemma LinesOfAssembled(content: string, block: string)
    ensures Lines(Assemble(content, block)) == ContentLines(content) + Lines(block)
  {
    LinesAround(content, block);
    assert "" + block == block;
  }

  lemma LinesOfRewritten(data: string, auth: string)
    requires OneLine(auth)
    ensures Lines(Rewritten(data, auth)) == ContentLines(Remainder(data)) + BlockLines(auth)
  {
    LinesOfAssembled(Remainder(data), Block(auth));
    LinesOfBlock(auth);
  }

  /** The rewritten text ends with the classroom's section: prompts stay out of the log, and records go to the
      local collector with the given authorization. */
  lemma ClassroomSection(data: string, auth: string)
    requires OneLine(auth)
    ensures var l := Lines(Rewritten(data, auth));
      && |l| >= 5 && l[|l| - 5] == "[otel]" && l[|l| - 4] == "environment = " + "\"classroom\""
      && l[|l| - 3] == "log_user_prompt" + " = false"
      && l[|l| - 2] == "exporter = { " + "otlp-http = { " + "endpoint = " + "\"http://127.0.0.1:" + "9464/v1/logs\", "
                       + "protocol = " + "\"json\", " + "headers = { " + "Authorization = " + auth + " } } }"
      && l[|l| - 1] == ""
  {
    LinesOfRewritten(data, auth);
    LastFive(ContentLines(Remainder(data)), BlockLines(auth), Lines(Rewritten(data, auth)));
    InOneRow("exporter = { ", "otlp-http = { ", "endpoint = ", "\"http://127.0.0.1:", "9464/v1/logs\", ",
             "protocol = ", "\"json\", ", "headers = { ", "Authorization = ", auth, " } } }");
  }

  lemma LastFive(front: seq<string>, back: seq<string>, l: seq<string>)
    requires |back| == 5 && l == front + back
    ensures |l| >= 5 && l[|l| - 5] == back[0] && l[|l| - 4] == back[1] && l[|l| - 3] == back[2]
    ensures l[|l| - 2] == back[3] && l[|l| - 1] == back[4]
  {
  }

  lemma InOneRow(a: string, b: string, c: string, d: string, e: string, f: string, g: string, h: string,
                 i: string, j: string, k: string)
    ensures a + (b + ((c + (d + e)) + ((f + (g + (h + i))) + (j + k))))
      == a + b + c + d + e + f + g + h + i + j + k
  {
  }

  lemma {:induction false} JoinEmpty(lines: seq<string>)
    requires lines != []
    ensures Join(lines + [""]) == Join(lines) + "\n"
  {
    assert (lines + [""])[1..] == lines[1..] + [""];
    if |lines| > 1 {
      JoinEmpty(lines[1..]);
      assert lines[0] + "\n" + (Join(lines[1..]) + "\n") == lines[0] + "\n" + Join(lines[1..]) + "\n";
    } else {
      assert lines[0] + "\n" + "" == lines[0] + "\n";
    }
  }

  lemma KeptRewritten(data: string, auth: string)
    requires OneLine(auth)
    ensures Kept(Lines(Rewritten(data, auth)), false) == Kept(ContentLines(Remainder(data)), false)
  {
    var lines := ContentLines(Remainder(data));
    LinesOfRewritten(data, auth);
    KeptAppend(lines, BlockLines(auth), false);
    BlockStripped(auth, InOtel(lines, false));
  }

  lemma RemainderTrimmed(data: string)
    ensures Trimmed(Remainder(data))
  {
    TrimTrims(Join(Kept(Lines(data), false)));
  }

  lemma RemainderStays(data: string, auth: string)
    requires OneLine(auth) && OtelFree(Lines(Remainder(data)))
    ensures Remainder(Rewritten(data, auth)) == Remainder(data)
  {
    var content := Remainder(data);
    RemainderTrimmed(data);
    KeptRewritten(data, auth);
    TrimAgain(content);
    if content != "" {
      FreeKept(Lines(content) + [""]);
      JoinEmpty(Lines(content));
      JoinSplit(content);
    }
  }

  // ------------------------------------------------------------ counting brackets

  function Brackets(s: string): nat {
    if s == "" then 0 else (if s[0] == '[' then 1 else 0) + Brackets(s[1..])
  }

  lemma {:induction false} BracketsAppend(a: string, b: string)
    ensures Brackets(a + b) == Brackets(a) + Brackets(b)
  {
    if a == "" {
      assert a + b == b;
    } else {
      assert (a + b)[0] == a[0] && (a + b)[1..] == a[1..] + b;
      BracketsAppend(a[1..], b);
    }
  }

  function BracketsIn(lines: seq<string>): nat {
    if lines == [] then 0 else Brackets(lines[0]) + BracketsIn(lines[1..])
  }

  lemma {:induction false} BracketsJoin(lines: seq<string>)
    ensures Brackets(Join(lines)) == BracketsIn(lines)
  {
    if |lines| > 1 {
      BracketsJoin(lines[1..]);
      BracketsAppend(lines[0] + "\n", Join(lines[1..]));
      BracketsAppend(lines[0], "\n");
      assert "\n"[1..] == "";
    } else if |lines| == 1 {
      assert lines[1..] == [];
    }
  }

  lemma {:induction false} BracketsTrimLeft(s: string)
    ensures Brackets(TrimLeft(s)) == Brackets(s)
  {
    if s != "" && IsSpace(s[0]) { BracketsTrimLeft(s[1..]); }
  }

  lemma {:induction false} BracketsTrimRight(s: string)
    ensures Brackets(TrimRight(s)) == Brackets(s)
  {
    if s != "" && IsSpace(s[|s| - 1]) {
      var front, last := s[..|s| - 1], [s[|s| - 1]];
      BracketsTrimRight(front);
      BracketsAppend(front, last);
      assert s == front + last && last[1..] == "";
    }
  }

  lemma {:induction false} BracketsSkip(s: string)
    ensures Brackets(SkipBlanks(s)) == Brackets(s)
  {
    if s != "" && IsBlank(s[0]) { BracketsSkip(s[1..]); }
  }

  lemma HeaderHasBracket(line: string)
    requires IsHeader(line)
    ensures Brackets(line) > 0
  {
    BracketsSkip(line);
  }

  lemma {:induction false} KeptBrackets(lines: seq<string>, before: bool)
    ensures BracketsIn(Kept(lines, before)) <= BracketsIn(lines)
    ensures !OtelFree(lines) ==> BracketsIn(Kept(lines, before)) < BracketsIn(lines)
  {
    if lines != [] {
      var now := Switch(lines[0], before);
      KeptBrackets(lines[1..], now);
      assert lines == [lines[0]] + lines[1..];
      if IsOtelHeader(lines[0]) { HeaderHasBracket(lines[0]); }
      var rest := Kept(lines[1..], now);
      assert ([lines[0]] + rest)[1..] == rest && [] + rest == rest;
    }
  }

  lemma RemainderBrackets(data: string)
    ensures Brackets(Remainder(data)) == BracketsIn(Kept(Lines(data), false))
  {
    var text := Join(Kept(Lines(data), false));
    BracketsTrimLeft(text);
    BracketsTrimRight(TrimLeft(text));
    BracketsJoin(Kept(Lines(data), false));
  }

  lemma RewrittenBrackets(data: string, auth: string)
    ensures Brackets(Rewritten(data, auth)) == Brackets(Remainder(data)) + Brackets(Block(auth))
  {
    var content := Remainder(data);
    BracketsAppend(if content == "" then "" else content + "\n\n", Block(auth));
    BracketsAppend(content, "\n\n");
    assert "\n\n"[1..] == "\n" && "\n"[1..] == "";
  }

  /** If an otel header is left in the content, the second rewrite loses it. */
  lemma RemainderShrinks(data: string, auth: string)
    requires OneLine(auth) && !OtelFree(Lines(Remainder(data)))
    ensures Brackets(Remainder(Rewritten(data, auth))) < Brackets(Remainder(data))
  {
    var content := Remainder(data);
    assert content != "" by { assert Lines("") == [""] && !IsOtelHeader(""); }
    RemainderBrackets(Rewritten(data, auth));
    KeptRewritten(data, auth);
    var lines := ContentLines(content);
    assert !OtelFree(lines) by {
      var l :| l in Lines(content) && IsOtelHeader(l);
      assert l in lines;
    }
    KeptBrackets(lines, false);
    BracketsJoin(Lines(content));
    JoinSplit(content);
    BracketsJoin(lines);
    JoinEmpty(Lines(content));
    BracketsAppend(content, "\n");
    assert "\n"[1..] == "";
  }

  /** Rewriting a rewritten config changes nothing exactly when no otel header is left in the content
      that was kept and trimmed. */
  lemma StableExactly(data: string, auth: string)
    requires OneLine(auth)
    ensures Rewritten(Rewritten(data, auth), auth) == Rewritten(data, auth) <==> OtelFree(Lines(Remainder(data)))
  {
    if OtelFree(Lines(Remainder(data))) {
      RemainderStays(data, auth);
    } else {
      RemainderShrinks(data, auth);
      RewrittenBrackets(data, auth);
      RewrittenBrackets(Rewritten(data, auth), auth);
    }
  }

  // ------------------------------------------------------------ one section, order kept

  function OtelHeaders(lines: seq<string>): nat {
    if lines == [] then 0 else (if IsOtelHeader(lines[0]) then 1 else 0) + OtelHeaders(lines[1..])
  }

  lemma {:induction false} OtelHeadersAppend(a: seq<string>, b: seq<string>)
    ensures OtelHeaders(a + b) == OtelHeaders(a) + OtelHeaders(b)
  {
    if a == [] {
      assert a + b == b;
    } else {
      assert (a + b)[0] == a[0] && (a + b)[1..] == a[1..] + b;
      OtelHeadersAppend(a[1..], b);
    }
  }

  lemma {:induction false} NoOtelHeaders(lines: seq<string>)
    ensures OtelHeaders(lines) == 0 <==> OtelFree(lines)
  {
    if lines != [] {
      NoOtelHeaders(lines[1..]);
      assert lines == [lines[0]] + lines[1..];
    }
  }

  lemma BlockHeaders(auth: string)
    requires OneLine(auth)
    ensures OtelHeaders(BlockLines(auth)) == 1
  {
    FixedLines();
    ExporterLine(auth);
    OtelLine();
    var body := [Environment(), Prompt(), Exporter(auth), ""];
    assert BlockLines(auth) == ["[otel]"] + body;
    NoOtelHeaders(body);
    OtelHeadersAppend(["[otel]"], body);
    assert ["[otel]"][1..] == [];
  }

  /** The result has exactly one otel header, the block's, under the same condition. */
  lemma OneHeader(data: string, auth: string)
    requires OneLine(auth)
    ensures OtelHeaders(Lines(Rewritten(data, auth))) == 1 <==> OtelFree(Lines(Remainder(data)))
  {
    var content := Remainder(data);
    LinesOfRewritten(data, auth);
    OtelHeadersAppend(ContentLines(content), BlockLines(auth));
    BlockHeaders(auth);
    OtelHeadersAppend(Lines(content), [""]);
    NoOtelHeaders([""]);
    NoOtelHeaders(Lines(content));
  }

  /** The section header that governs line `i` is an otel header. */
  ghost predicate Governed(lines: seq<string>, i: nat)
    requires i < |lines|
  {
    exists j :: 0 <= j <= i && IsOtelHeader(lines[j]) && forall k :: j < k <= i ==> !IsHeader(lines[k])
  }

  lemma InOtelSnoc(front: seq<string>, line: string, before: bool)
    ensures InOtel(front + [line], before) == Switch(line, InOtel(front, before))
  {
    KeptAppend(front, [line], before);
    assert [line][1..] == [];
  }

  lemma {:induction false} GovernedExactly(lines: seq<string>, i: nat)
    requires i < |lines|
    ensures InOtel(lines[..i + 1], false) <==> Governed(lines, i)
    decreases i
  {
    assert lines[..i + 1] == lines[..i] + [lines[i]];
    InOtelSnoc(lines[..i], lines[i], false);
    if i > 0 {
      GovernedExactly(lines, i - 1);
      GovernedNext(lines, i);
    }
  }

  lemma GovernedNext(lines: seq<string>, i: nat)
    requires 0 < i < |lines|
    ensures Governed(lines, i) <==> if IsHeader(lines[i]) then IsOtelHeader(lines[i]) else Governed(lines, i - 1)
  {
    if !IsHeader(lines[i]) && Governed(lines, i - 1) {
      var j :| 0 <= j <= i - 1 && IsOtelHeader(lines[j]) && forall k :: j < k <= i - 1 ==> !IsHeader(lines[k]);
      assert forall k :: j < k <= i ==> !IsHeader(lines[k]);
    }
  }

  /** `kept` lists the lines of the ascending positions `at`. */
  ghost predicate Picks(lines: seq<string>, kept: seq<string>, at: seq<nat>) {
    && |kept| == |at|
    && (forall k :: 0 <= k < |at| ==> at[k] < |lines| && kept[k] == lines[at[k]])
    && (forall j, k :: 0 <= j < k < |at| ==> at[j] < at[k])
  }

  /** `at` holds the positions that no otel header governs. */
  ghost predicate Ungoverned(lines: seq<string>, at: seq<nat>) {
    forall i :: 0 <= i < |lines| ==> (i in at <==> !Governed(lines, i))
  }

  lemma {:induction false} KeptPicks(lines: seq<string>) returns (at: seq<nat>)
    ensures Picks(lines, Kept(lines, false), at)
    ensures Ungoverned(lines, at)
  {
    if lines == [] {
      at := [];
    } else {
      var n := |lines| - 1;
      var front := lines[..n];
      at := KeptPicks(front);
      assert lines == front + [lines[n]] && lines[..n + 1] == lines;
      KeptAppend(front, [lines[n]], false);
      assert [lines[n]][1..] == [];
      GovernedExactly(lines, n);
      forall i | 0 <= i < n ensures Governed(front, i) <==> Governed(lines, i) {
        assert forall k :: 0 <= k <= i ==> front[k] == lines[k];
      }
      assert n !in at;
      if !InOtel(lines, false) { at := at + [n]; }
    }
  }

  /** Exactly the lines that no otel header governs survive, in their order. */
  lemma KeptExactly(lines: seq<string>)
    ensures exists at :: Picks(lines, Kept(lines, false), at) && Ungoverned(lines, at)
  {
    var at := KeptPicks(lines);
  }

  // ------------------------------------------------------------ configs with ordinary white space

  lemma BlankBefore(c: char, line: string)
    requires IsBlank(c)
    ensures HeaderName([c] + line) == HeaderName(line)
  {
    assert ([c] + line)[1..] == line;
  }

  lemma {:induction false} SkipSnoc(s: string, c: char)
    requires IsBlank(c)
    ensures SkipBlanks(s + [c]) == if SkipBlanks(s) == "" then "" else SkipBlanks(s) + [c]
  {
    if s == "" {
      assert s + [c] == [c] && [c][1..] == "";
    } else {
      assert (s + [c])[0] == s[0] && (s + [c])[1..] == s[1..] + [c];
      if IsBlank(s[0]) { SkipSnoc(s[1..], c); }
    }
  }

  lemma {:induction false} CloseSnoc(s: string, c: char)
    requires c != ']'
    ensures Close(s + [c]) == if Close(s) < |s| then Close(s) else |s| + 1
  {
    if s == "" {
      assert s + [c] == [c] && [c][1..] == "";
    } else {
      assert (s + [c])[0] == s[0] && (s + [c])[1..] == s[1..] + [c];
      if s[0] != ']' { CloseSnoc(s[1..], c); }
    }
  }

  lemma EndsSnoc(s: string, c: char)
    requires IsBlank(c)
    ensures EndsHeader(s + [c]) <==> EndsHeader(s)
  {
    SkipSnoc(s, c);
  }

  /** Blanks at the end of a line do not matter. */
  lemma BlankAfter(line: string, c: char)
    requires IsBlank(c)
    ensures HeaderName(line + [c]) == HeaderName(line)
  {
    var rest := SkipBlanks(line);
    SkipSnoc(line, c);
    if rest != "" && rest[0] == '[' {
      var inner, i := rest[1..], Close(rest[1..]);
      assert (rest + [c])[1..] == inner + [c];
      CloseSnoc(inner, c);
      if i < |inner| {
        assert (rest + [c])[i + 2..] == rest[i + 2..] + [c];
        assert (rest + [c])[1..i + 1] == rest[1..i + 1];
        EndsSnoc(rest[i + 2..], c);
      }
    }
  }

  lemma SameHeader(a: string, b: string)
    requires HeaderName(a) == HeaderName(b)
    ensures IsOtelHeader(a) <==> IsOtelHeader(b)
  {
  }

  lemma FreeAfterFirst(c: char, s: string)
    requires IsBlank(c) && OtelFree(Lines([c] + s))
    ensures OtelFree(Lines(s))
  {
    var lines := Lines(s);
    assert ([c] + s)[1..] == s && ([c] + s)[0] == c;
    forall l | l in lines ensures !IsOtelHeader(l) {
      if c == '\n' {
        assert l in [""] + lines;
      } else {
        var i :| 0 <= i < |lines| && lines[i] == l;
        BlankBefore(c, lines[0]);
        SameHeader([c] + lines[0], lines[0]);
        assert ([[c] + lines[0]] + lines[1..])[i] in Lines([c] + s);
      }
    }
  }

  /** A character put before the first line. */
  function Cons(c: char, lines: seq<string>): seq<string>
    requires lines != []
  {
    if c == '\n' then [""] + lines else [[c] + lines[0]] + lines[1..]
  }

  /** A character put after the last line. */
  function Snoc(lines: seq<string>, c: char): seq<string>
    requires lines != []
  {
    if c == '\n' then lines + [""] else lines[..|lines| - 1] + [lines[|lines| - 1] + [c]]
  }

  lemma ConsSnoc(a: char, lines: seq<string>, c: char)
    requires lines != []
    ensures Cons(a, Snoc(lines, c)) == Snoc(Cons(a, lines), c)
  {
    if |lines| == 1 { assert [a] + (lines[0] + [c]) == [a] + lines[0] + [c]; }
  }

  lemma {:induction false} LinesSnoc(s: string, c: char)
    ensures Lines(s + [c]) == Snoc(Lines(s), c)
  {
    if s == "" {
      assert s + [c] == [c] && [c][1..] == "";
      assert Lines("") == [""] && "" + [c] == [c] && [c] + "" == [c];
    } else {
      assert (s + [c])[0] == s[0] && (s + [c])[1..] == s[1..] + [c];
      LinesSnoc(s[1..], c);
      ConsSnoc(s[0], Lines(s[1..]), c);
    }
  }

  lemma FreeSnoc(lines: seq<string>, c: char)
    requires IsBlank(c) && lines != [] && OtelFree(Snoc(lines, c))
    ensures OtelFree(lines)
  {
    var longer := Snoc(lines, c);
    BlankAfter(lines[|lines| - 1], c);
    SameHeader(lines[|lines| - 1] + [c], lines[|lines| - 1]);
    forall l | l in lines ensures !IsOtelHeader(l) {
      var i :| 0 <= i < |lines| && lines[i] == l;
      assert longer[i] in longer;
    }
  }

  lemma FreeBeforeLast(s: string, c: char)
    requires IsBlank(c) && OtelFree(Lines(s + [c]))
    ensures OtelFree(Lines(s))
  {
    LinesSnoc(s, c);
    FreeSnoc(Lines(s), c);
  }

  /** Every white space character is one that the regular expression knows. */
  ghost predicate PlainSpaces(s: string) { forall c :: c in s && IsSpace(c) ==> IsBlank(c) }

  lemma {:induction false} FreeTrimLeft(s: string)
    requires PlainSpaces(s) && OtelFree(Lines(s))
    ensures OtelFree(Lines(TrimLeft(s))) && PlainSpaces(TrimLeft(s))
  {
    if s != "" && IsSpace(s[0]) {
      assert s == [s[0]] + s[1..];
      FreeAfterFirst(s[0], s[1..]);
      FreeTrimLeft(s[1..]);
    }
  }

  lemma {:induction false} FreeTrimRight(s: string)
    requires PlainSpaces(s) && OtelFree(Lines(s))
    ensures OtelFree(Lines(TrimRight(s)))
  {
    if s != "" && IsSpace(s[|s| - 1]) {
      assert s == s[..|s| - 1] + [s[|s| - 1]];
      FreeBeforeLast(s[..|s| - 1], s[|s| - 1]);
      FreeTrimRight(s[..|s| - 1]);
    }
  }

  lemma {:induction false} LinesChars(s: string)
    ensures forall l, c :: l in Lines(s) && c in l ==> c in s && c != '\n'
  {
    if s != "" {
      LinesChars(s[1..]);
      var rest := Lines(s[1..]);
      forall l, c | l in Lines(s) && c in l ensures c in s && c != '\n' {
        if l in rest {
          assert c in s[1..];
        } else if s[0] != '\n' {
          assert l == [s[0]] + rest[0];
          if c in rest[0] { assert rest[0] in rest; }
        }
      }
    }
  }

  lemma {:induction false} JoinChars(lines: seq<string>)
    ensures forall c :: c in Join(lines) ==> c == '\n' || exists l :: l in lines && c in l
  {
    if |lines| > 1 {
      JoinChars(lines[1..]);
      forall c | c in Join(lines) ensures c == '\n' || exists l :: l in lines && c in l {
        if c in lines[0] {
          assert lines[0] in lines;
        } else if c != '\n' {
          assert c in Join(lines[1..]);
          var l :| l in lines[1..] && c in l;
          assert l in lines;
        }
      }
    } else if |lines| == 1 {
      assert lines[0] in lines;
    }
  }

  lemma {:induction false} KeptFree(lines: seq<string>, before: bool)
    ensures OtelFree(Kept(lines, before))
    ensures forall l :: l in Kept(lines, before) ==> l in lines
  {
    if lines != [] { KeptFree(lines[1..], Switch(lines[0], before)); }
  }

  lemma KeptText(data: string)
    requires PlainSpaces(data)
    ensures PlainSpaces(Join(Kept(Lines(data), false))) && OtelFree(Lines(Join(Kept(Lines(data), false))))
  {
    var kept := Kept(Lines(data), false);
    KeptFree(Lines(data), false);
    LinesChars(data);
    JoinChars(kept);
    if kept != [] {
      SplitJoin(kept);
    } else {
      assert Lines("") == [""] && !IsOtelHeader("");
    }
  }

  /** A config whose only white space is blank, tab, newline, carriage return and form feed is rewritten once
      and for all. */
  lemma OrdinaryIdempotent(data: string, auth: string)
    requires OneLine(auth) && PlainSpaces(data)
    ensures Rewritten(Rewritten(data, auth), auth) == Rewritten(data, auth)
    ensures OtelHeaders(Lines(Rewritten(data, auth))) == 1
  {
    var text := Join(Kept(Lines(data), false));
    KeptText(data);
    FreeTrimLeft(text);
    FreeTrimRight(TrimLeft(text));
    StableExactly(data, auth);
    OneHeader(data, auth);
  }

  lemma KeptAlone(line: string)
    requires OneLine(line) && !IsHeader(line)
    ensures Join(Kept(Lines(line), false)) == line
  {
    SingleLine(line);
    assert [line][1..] == [];
  }

  lemma HiddenRemainder(data: string)
    requires data == [11 as char] + "[otel]"
    ensures Remainder(data) == "[otel]"
  {
    TabNoHeader(data);
    KeptAlone(data);
    TabTrimmed(data);
  }

  lemma TabNoHeader(data: string)
    requires data == [11 as char] + "[otel]"
    ensures OneLine(data) && !IsHeader(data)
  {
    FixedLines();
    Joined([11 as char], "[otel]");
    NotHeader(data);
  }

  lemma TabTrimmed(data: string)
    requires data == [11 as char] + "[otel]"
    ensures Trim(data) == "[otel]"
  {
    assert data[0] == 11 as char && data[1..] == "[otel]";
    assert TrimLeft("[otel]") == "[otel]" && TrimRight("[otel]") == "[otel]";
  }

  /** A vertical tab hides a header from the regular expression until it is trimmed away. */
  lemma HiddenHeader(auth: string, data: string)
    requires OneLine(auth) && data == [11 as char] + "[otel]"
    ensures Rewritten(Rewritten(data, auth), auth) != Rewritten(data, auth)
  {
    HiddenRemainder(data);
    FixedLines();
    SingleLine("[otel]");
    OtelLine();
    assert "[otel]" in Lines("[otel]");
    StableExactly(data, auth);
  }
}
