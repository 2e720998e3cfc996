/** The exact condition for a stable config, read off the lines that survive the strip: trimming may turn only the
    first and the last of them that are not all white space into headers. */
module TelemetryEdges {
  import opened Prelude
  import opened Telemetry
  import opened TelemetryTheorems

  predicate AllSpace(s: string) { forall i :: 0 <= i < |s| ==> IsSpace(s[i]) }

  // ------------------------------------------------------------ trimming a text

  lemma {:induction false} TrimLeftAll(a: string, b: string)
    requires AllSpace(a)
    ensures TrimLeft(a + b) == TrimLeft(b)
  {
    if a == "" {
      assert a + b == b;
    } else {
      assert (a + b)[0] == a[0] && (a + b)[1..] == a[1..] + b;
      TrimLeftAll(a[1..], b);
    }
  }

  lemma {:induction false} TrimLeftSome(a: string, b: string)
    requires !AllSpace(a)
    ensures TrimLeft(a + b) == TrimLeft(a) + b && !AllSpace(TrimLeft(a))
  {
    assert a != "" && (a + b)[0] == a[0] && (a + b)[1..] == a[1..] + b;
    if IsSpace(a[0]) {
      assert forall i :: 1 <= i < |a| ==> a[i] == a[1..][i - 1];
      TrimLeftSome(a[1..], b);
    }
  }

  lemma {:induction false} TrimRightAll(a: string, b: string)
    requires AllSpace(b)
    ensures TrimRight(a + b) == TrimRight(a)
  {
    if b == "" {
      assert a + b == a;
    } else {
      var front := b[..|b| - 1];
      assert (a + b)[|a + b| - 1] == b[|b| - 1] && (a + b)[..|a + b| - 1] == a + front;
      TrimRightAll(a, front);
    }
  }

  lemma {:induction false} TrimRightSome(a: string, b: string)
    requires !AllSpace(b)
    ensures TrimRight(a + b) == a + TrimRight(b)
    decreases |b|
  {
    var front := b[..|b| - 1];
    assert b != "" && (a + b)[|a + b| - 1] == b[|b| - 1] && (a + b)[..|a + b| - 1] == a + front;
    if IsSpace(b[|b| - 1]) {
      assert forall i :: 0 <= i < |front| ==> b[i] == front[i];
      TrimRightSome(a, front);
    }
  }

  lemma TrimRightNothing(a: string)
    requires AllSpace(a)
    ensures TrimRight(a) == "" && TrimLeft(a) == ""
  {
    TrimRightAll("", a);
    TrimLeftAll(a, "");
    assert "" + a == a && a + "" == a;
  }

  // ------------------------------------------------------------ trimming joined lines

  /** Line `i` is the first that is not all white space. */
  ghost predicate FirstInk(lines: seq<string>, i: nat) {
    i < |lines| && !AllSpace(lines[i]) && forall k :: 0 <= k < i ==> AllSpace(lines[k])
  }

  ghost predicate LastInk(lines: seq<string>, j: nat) {
    j < |lines| && !AllSpace(lines[j]) && forall k :: j < k < |lines| ==> AllSpace(lines[k])
  }

  lemma JoinFirst(line: string, rest: seq<string>)
    ensures Join([line] + rest) == line + (if rest == [] then "" else "\n" + Join(rest))
  {
    assert ([line] + rest)[1..] == rest;
    assert line + "" == line && line + "\n" + Join(rest) == line + ("\n" + Join(rest));
  }

  lemma {:induction false} JoinLast(front: seq<string>, line: string)
    requires front != []
    ensures Join(front + [line]) == Join(front) + "\n" + line
  {
    assert (front + [line])[1..] == front[1..] + [line];
    if |front| > 1 {
      JoinLast(front[1..], line);
      assert front[0] + "\n" + (Join(front[1..]) + "\n" + line) == front[0] + "\n" + Join(front[1..]) + "\n" + line;
    }
  }

  lemma SpacedLine(a: string)
    requires AllSpace(a)
    ensures AllSpace(a + "\n") && AllSpace("\n" + a)
  {
  }

  lemma {:induction false} TrimLeftJoin(lines: seq<string>, i: nat)
    requires FirstInk(lines, i)
    ensures TrimLeft(Join(lines)) == Join([TrimLeft(lines[i])] + lines[i + 1..])
    decreases i
  {
    var rest := lines[1..];
    assert lines == [lines[0]] + rest;
    JoinFirst(lines[0], rest);
    if i == 0 {
      TrimLeftSome(lines[0], if rest == [] then "" else "\n" + Join(rest));
      JoinFirst(TrimLeft(lines[0]), rest);
    } else {
      assert FirstInk(rest, i - 1) by { assert forall k :: 0 <= k < |rest| ==> rest[k] == lines[k + 1]; }
      SpacedLine(lines[0]);
      TrimLeftAll(lines[0] + "\n", Join(rest));
      assert lines[0] + ("\n" + Join(rest)) == lines[0] + "\n" + Join(rest);
      TrimLeftJoin(rest, i - 1);
      assert rest[i..] == lines[i + 1..];
    }
  }

  lemma {:induction false} TrimRightJoin(lines: seq<string>, j: nat)
    requires LastInk(lines, j)
    ensures TrimRight(Join(lines)) == Join(lines[..j] + [TrimRight(lines[j])])
    decreases |lines|
  {
    var n := |lines| - 1;
    var front := lines[..n];
    assert lines == front + [lines[n]];
    if j == n {
      TrimRightLast(front, lines[n]);
    } else {
      assert LastInk(front, j);
      JoinLast(front, lines[n]);
      SpacedLine(lines[n]);
      TrimRightAll(Join(front), "\n" + lines[n]);
      assert Join(front) + ("\n" + lines[n]) == Join(front) + "\n" + lines[n];
      TrimRightJoin(front, j);
      assert front[..j] == lines[..j];
    }
  }

  lemma TrimRightLast(front: seq<string>, line: string)
    requires !AllSpace(line)
    ensures TrimRight(Join(front + [line])) == Join(front + [TrimRight(line)])
  {
    if front == [] {
      assert front + [line] == [line] && front + [TrimRight(line)] == [TrimRight(line)];
    } else {
      JoinLast(front, line);
      JoinLast(front, TrimRight(line));
      TrimRightSome(Join(front) + "\n", line);
    }
  }

  /** The lines of the trimmed text. */
  function TrimmedLines(lines: seq<string>, i: nat, j: nat): seq<string>
    requires i <= j < |lines|
  {
    if i == j then [Trim(lines[i])] else [TrimLeft(lines[i])] + lines[i + 1..j] + [TrimRight(lines[j])]
  }

  lemma TrimJoin(lines: seq<string>, i: nat, j: nat)
    requires i <= j && FirstInk(lines, i) && LastInk(lines, j)
    ensures Trim(Join(lines)) == Join(TrimmedLines(lines, i, j))
  {
    var tail := [TrimLeft(lines[i])] + lines[i + 1..];
    TrimLeftJoin(lines, i);
    TrimLeftSome(lines[i], "");
    assert LastInk(tail, j - i) by {
      assert forall k :: 0 < k < |tail| ==> tail[k] == lines[i + k];
    }
    TrimRightJoin(tail, j - i);
    if i == j {
      assert tail[..0] + [TrimRight(tail[0])] == [Trim(lines[i])];
    } else {
      assert tail[j - i] == lines[j] && tail[..j - i] == [TrimLeft(lines[i])] + lines[i + 1..j];
    }
  }

  // ------------------------------------------------------------ the condition

  /** Trimming makes no header out of the outermost lines `i` and `j`. */
  predicate EdgesClean(lines: seq<string>, i: nat, j: nat)
    requires i <= j < |lines|
  {
    if i == j then !IsOtelHeader(Trim(lines[i]))
    else !IsOtelHeader(TrimLeft(lines[i])) && !IsOtelHeader(TrimRight(lines[j]))
  }

  /** The condition on the lines that no otel header governs. */
  ghost predicate Clean(lines: seq<string>) {
    forall i, j :: FirstInk(lines, i) && LastInk(lines, j) && i <= j ==> EdgesClean(lines, i, j)
  }

  lemma {:induction false} TrimOneLine(s: string)
    requires OneLine(s)
    ensures OneLine(TrimLeft(s)) && OneLine(TrimRight(s))
    decreases |s|
  {
    if s != "" {
      TrimOneLine(s[1..]);
      TrimOneLine(s[..|s| - 1]);
    }
  }

  lemma TrimmedOneLine(lines: seq<string>, i: nat, j: nat)
    requires i <= j < |lines| && forall l :: l in lines ==> OneLine(l)
    ensures forall l :: l in TrimmedLines(lines, i, j) ==> OneLine(l)
  {
    TrimOneLine(lines[i]);
    TrimOneLine(TrimLeft(lines[i]));
    TrimOneLine(lines[j]);
    forall l | l in lines[i + 1..] ensures OneLine(l) {
      assert l in lines;
    }
  }

  lemma TrimmedFree(lines: seq<string>, i: nat, j: nat)
    requires i <= j < |lines| && OtelFree(lines)
    ensures OtelFree(TrimmedLines(lines, i, j)) <==> EdgesClean(lines, i, j)
  {
    var trimmed := TrimmedLines(lines, i, j);
    assert trimmed[0] in trimmed && trimmed[|trimmed| - 1] in trimmed;
    if i < j {
      forall l | l in lines[i + 1..j] ensures !IsOtelHeader(l) {
        assert l in lines;
      }
    }
  }

  lemma {:induction false} NoInk(lines: seq<string>)
    requires forall k :: 0 <= k < |lines| ==> AllSpace(lines[k])
    ensures AllSpace(Join(lines))
  {
    if lines != [] {
      NoInk(lines[1..]);
      assert lines == [lines[0]] + lines[1..];
      JoinFirst(lines[0], lines[1..]);
    }
  }

  lemma {:induction false} FindFirst(lines: seq<string>) returns (i: nat)
    requires exists k :: 0 <= k < |lines| && !AllSpace(lines[k])
    ensures FirstInk(lines, i)
  {
    i := 0;
    while AllSpace(lines[i])
      invariant i < |lines| && forall k :: 0 <= k < i ==> AllSpace(lines[k])
      decreases |lines| - i
    {
      i := i + 1;
    }
  }

  lemma {:induction false} FindLast(lines: seq<string>) returns (j: nat)
    requires exists k :: 0 <= k < |lines| && !AllSpace(lines[k])
    ensures LastInk(lines, j)
  {
    j := |lines| - 1;
    while AllSpace(lines[j])
      invariant 0 <= j < |lines| && forall k :: j < k < |lines| ==> AllSpace(lines[k])
      decreases j
    {
      j := j - 1;
    }
  }

  /** Trimming the joined lines leaves no otel header exactly if the outermost lines stay clean. */
  lemma CleanExactly(lines: seq<string>)
    requires OtelFree(lines) && forall l :: l in lines ==> OneLine(l)
    ensures OtelFree(Lines(Trim(Join(lines)))) <==> Clean(lines)
  {
    if exists k :: 0 <= k < |lines| && !AllSpace(lines[k]) {
      var i := FindFirst(lines);
      var j := FindLast(lines);
      assert i <= j;
      TrimJoin(lines, i, j);
      TrimmedOneLine(lines, i, j);
      SplitJoin(TrimmedLines(lines, i, j));
      TrimmedFree(lines, i, j);
      forall i', j' | FirstInk(lines, i') && LastInk(lines, j') ensures i' == i && j' == j {
      }
    } else {
      NoInk(lines);
      TrimRightNothing(Join(lines));
      assert Lines("") == [""] && !IsOtelHeader("");
    }
  }

  lemma SurvivorsClean(data: string)
    ensures OtelFree(Lines(Remainder(data))) <==> Clean(Kept(Lines(data), false))
  {
    var kept := Kept(Lines(data), false);
    KeptFree(Lines(data), false);
    LinesChars(data);
    CleanExactly(kept);
  }

  /** Rewriting a rewritten config changes nothing if and only if, of the lines that no otel header governs, the first
      and the last with anything but white space are not turned into otel headers by trimming. */
  lemma IdempotentExactly(data: string, auth: string)
    requires OneLine(auth)
    ensures Rewritten(Rewritten(data, auth), auth) == Rewritten(data, auth) <==> Clean(Kept(Lines(data), false))
  {
    SurvivorsClean(data);
    StableExactly(data, auth);
  }

  /** The result has exactly one otel section under the same condition. */
  lemma OneSection(data: string, auth: string)
    requires OneLine(auth)
    ensures OtelHeaders(Lines(Rewritten(data, auth))) == 1 <==> Clean(Kept(Lines(data), false))
  {
    SurvivorsClean(data);
    OneHeader(data, auth);
  }
}
