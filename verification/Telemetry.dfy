/** The rewrite of config.toml: every otel section is stripped line by line and one known block is appended. */
module Telemetry {
  import opened Prelude

  // ------------------------------------------------------------ lines

  /** strings.Split(s, "\n"). */
  function Lines(s: string): (r: seq<string>)
    ensures r != []
  {
    if s == "" then [""]
    else
      var rest := Lines(s[1..]);
      if s[0] == '\n' then [""] + rest else [[s[0]] + rest[0]] + rest[1..]
  }

  /** strings.Join(lines, "\n"). */
  function Join(lines: seq<string>): string {
    if lines == [] then "" else if |lines| == 1 then lines[0] else lines[0] + "\n" + Join(lines[1..])
  }

  /** White space of the regular expression. */
  predicate IsBlank(c: char) { c == ' ' || c == '\t' || c == '\n' || c == '\r' || c as int == 12 }

  /** White space of strings.TrimSpace: all of Unicode's. */
  predicate IsSpace(c: char) {
    || IsBlank(c) || c as int == 11 || c as int == 0x85 || c as int == 0xA0 || c as int == 0x1680
    || 0x2000 <= c as int <= 0x200A || c as int == 0x2028 || c as int == 0x2029 || c as int == 0x202F
    || c as int == 0x205F || c as int == 0x3000
  }

  function TrimLeft(s: string): string {
    if s != "" && IsSpace(s[0]) then TrimLeft(s[1..]) else s
  }

  function TrimRight(s: string): string {
    if s != "" && IsSpace(s[|s| - 1]) then TrimRight(s[..|s| - 1]) else s
  }

  /** strings.TrimSpace. */
  function Trim(s: string): string { TrimRight(TrimLeft(s)) }

  // ------------------------------------------------------------ section headers

  function SkipBlanks(s: string): string {
    if s != "" && IsBlank(s[0]) then SkipBlanks(s[1..]) else s
  }

  /** The position of the first closing bracket, or the length. */
  function Close(s: string): (i: nat)
    ensures i <= |s| && (i < |s| ==> s[i] == ']') && forall k :: 0 <= k < i ==> s[k] != ']'
  {
    if s == "" || s[0] == ']' then 0 else 1 + Close(s[1..])
  }

  /** The end of a header line: blanks, and perhaps a comment. */
  predicate EndsHeader(s: string) {
    var rest := SkipBlanks(s);
    rest == "" || rest[0] == '#'
  }

  /** The name captured by `^\s*\[([^]]+)\]\s*(?:#.*)?$`. */
  function HeaderName(line: string): Option<string> {
    var rest := SkipBlanks(line);
    if rest == "" || rest[0] != '[' then None
    else
      var i := Close(rest[1..]);
      if i == 0 || i == |rest| - 1 || !EndsHeader(rest[i + 2..]) then None else Some(rest[1..i + 1])
  }

  predicate IsHeader(line: string) { HeaderName(line).Some? }

  predicate IsOtelHeader(line: string) {
    IsHeader(line) && (HeaderName(line).value == "otel" || "otel." <= HeaderName(line).value)
  }

  /** Whether `line` lies in an otel section, if the line before it did or not. */
  predicate Switch(line: string, before: bool) {
    if IsHeader(line) then IsOtelHeader(line) else before
  }

  /** Whether the last of `lines` lies in an otel section. */
  predicate InOtel(lines: seq<string>, before: bool) {
    if lines == [] then before else InOtel(lines[1..], Switch(lines[0], before))
  }

  /** The lines outside otel sections. */
  function Kept(lines: seq<string>, before: bool): seq<string> {
    if lines == [] then []
    else
      var now := Switch(lines[0], before);
      (if now then [] else [lines[0]]) + Kept(lines[1..], now)
  }

  // ------------------------------------------------------------ the rewrite

  function Environment(): string { "environment = " + "\"classroom\"" }

  function Prompt(): string { "log_user_prompt" + " = false" }

  function Endpoint(): string { "endpoint = " + ("\"http://127.0.0.1:" + "9464/v1/logs\", ") }

  function Headers(): string { "protocol = " + ("\"json\", " + ("headers = { " + "Authorization = ")) }

  /** The exporter line, around the quoted authorization value. */
  function Exporter(auth: string): string {
    "exporter = { " + ("otlp-http = { " + (Endpoint() + (Headers() + (auth + " } } }"))))
  }

  /** Four lines, each with its newline. */
  function FourLines(a: string, b: string, c: string, d: string): string {
    a + "\n" + (b + "\n" + (c + "\n" + (d + "\n" + "")))
  }

  /** `telemetryBlock`; `auth` is the bearer token as Go quotes it. */
  function Block(auth: string): string {
    FourLines("[otel]", Environment(), Prompt(), Exporter(auth))
  }

  /** What is left of the old text. */
  function Remainder(data: string): string {
    Trim(Join(Kept(Lines(data), false)))
  }

  function Assemble(content: string, block: string): string {
    (if content == "" then "" else content + "\n\n") + block
  }

  function Rewritten(data: string, auth: string): string {
    Assemble(Remainder(data), Block(auth))
  }

  method ReadHeader(line: string, before: bool) returns (inOtel: bool)
    ensures inOtel == Switch(line, before)
  {
    inOtel := before;
    var name := HeaderName(line);
    if name.Some? { inOtel := name.value == "otel" || "otel." <= name.value; }
  }

  /** The loop over the lines. */
  method Strip(lines: seq<string>) returns (kept: seq<string>)
    ensures kept == Kept(lines, false)
  {
    kept := [];
    var inOtel := false;
    assert lines[0..] == lines;
    for i := 0 to |lines|
      invariant kept + Kept(lines[i..], inOtel) == Kept(lines, false)
    {
      KeptFrom(lines, i, inOtel);
      inOtel := ReadHeader(lines[i], inOtel);
      Extend(kept, lines[i], Kept(lines[i + 1..], inOtel), inOtel);
      if !inOtel { kept := kept + [lines[i]]; }
    }
    assert Kept(lines[|lines|..], inOtel) == [];
  }

  lemma KeptFrom(lines: seq<string>, i: nat, before: bool)
    requires i < |lines|
    ensures var now := Switch(lines[i], before);
      Kept(lines[i..], before) == (if now then [] else [lines[i]]) + Kept(lines[i + 1..], now)
  {
    assert lines[i..][1..] == lines[i + 1..];
  }

  lemma Extend(kept: seq<string>, line: string, rest: seq<string>, dropped: bool)
    ensures kept + ((if dropped then [] else [line]) + rest) == (if dropped then kept else kept + [line]) + rest
  {
  }

  /** `ConfigureTelemetry` on the text of the file. */
  method ConfigureTelemetry(data: string, auth: string) returns (content: string)
    ensures content == Rewritten(data, auth)
  {
    var kept := Strip(Lines(data));
    content := Trim(Join(kept));
    if content != "" { content := content + "\n\n"; }
    content := content + Block(auth);
  }
}
