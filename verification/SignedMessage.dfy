/** The text that the agent signs and the server verifies, and the digest
    that both compute over canonical JSON. */
module SignedMessage {
  import opened Prelude
  import opened CanonicalJson
  import opened CanonicalTheorems

  /** SHA-256 rendered in hexadecimal, idealised: no two inputs collide. */
  ghost predicate CollisionFree(sha: string -> string) {
    forall a, b :: SameDigest(sha, a, b) ==> a == b
  }

  predicate SameDigest(sha: string -> string, a: string, b: string) {
    sha(a) == sha(b)
  }

  predicate IsHex(s: string) {
    s != [] && forall i :: 0 <= i < |s| ==> '0' <= s[i] <= '9' || 'a' <= s[i] <= 'f'
  }

  ghost predicate HexOutput(sha: string -> string) {
    forall a {:trigger IsHex(sha(a))} :: IsHex(sha(a))
  }

  ghost predicate Digest(sha: string -> string) {
    CollisionFree(sha) && HexOutput(sha)
  }

  /** The message both sides build; they differ only in the encoder of the payload. */
  ghost function Message(sha: string -> string, d: Dialect, deviceId: string, sequence: int,
                         timestamp: string, eventId: string, payload: Json): string
  {
    var digest := sha(Encode(d, payload));
    deviceId + "\n" + (Decimal(sequence) + "\n" + (timestamp + "\n" + (eventId + "\n" + digest)))
  }

  lemma LineHead(a: string, x: string)
    ensures (a + "\n" + x)[0] == if a == [] then '\n' else a[0]
    ensures a == [] ==> a + "\n" + x == "\n" + x
  {
  }

  lemma {:induction false} SplitAtNewline(a: string, x: string, b: string, y: string)
    requires OneLine(a) && OneLine(b)
    requires a + "\n" + x == b + "\n" + y
    ensures a == b && x == y
  {
    LineHead(a, x);
    LineHead(b, y);
    if a == [] || b == [] {
      assert ("\n" + x)[1..] == x && ("\n" + y)[1..] == y;
    } else {
      var s, t := a + "\n" + x, b + "\n" + y;
      assert s[1..] == a[1..] + "\n" + x && t[1..] == b[1..] + "\n" + y;
      SplitAtNewline(a[1..], x, b[1..], y);
      assert a == [a[0]] + a[1..] && b == [b[0]] + b[1..];
    }
  }

  lemma DecimalOneLine(n: int)
    ensures OneLine(Decimal(n))
  {
    assert forall c :: c in Digits(if n < 0 then -n else n) ==> IsDigit(c);
  }

  lemma DecimalInjective(a: int, b: int)
    requires Decimal(a) == Decimal(b)
    ensures a == b
  {
    EncodingInjective(Python, Int(a), Python, Int(b));
  }

  // ------------------------------------------------------------ what a message fixes

  function Newlines(s: string): nat {
    if s == "" then 0 else (if s[0] == '\n' then 1 else 0) + Newlines(s[1..])
  }

  lemma {:induction false} NewlinesAppend(a: string, b: string)
    ensures Newlines(a + b) == Newlines(a) + Newlines(b)
  {
    if a == "" {
      assert a + b == b;
    } else {
      assert (a + b)[0] == a[0] && (a + b)[1..] == a[1..] + b;
      NewlinesAppend(a[1..], b);
    }
  }

  lemma {:induction false} NoNewlines(s: string)
    ensures Newlines(s) == 0 <==> OneLine(s)
  {
    if s != "" {
      NoNewlines(s[1..]);
      assert s == [s[0]] + s[1..];
    }
  }

  lemma JoinedNewlines(a: string, b: string)
    ensures Newlines(a + "\n" + b) == Newlines(a) + 1 + Newlines(b)
  {
    NewlinesAppend(a + "\n", b);
    NewlinesAppend(a, "\n");
    assert "\n"[1..] == "";
  }

  lemma HexOneLine(s: string)
    requires IsHex(s)
    ensures OneLine(s)
  {
  }

  /** A message has its four separators and the newlines inside its fields. */
  lemma MessageNewlines(sha: string -> string, d: Dialect, device: string, sequence: int, stamp: string, event: string,
                        payload: Json)
    requires HexOutput(sha)
    ensures Newlines(Message(sha, d, device, sequence, stamp, event, payload))
      == 4 + Newlines(device) + Newlines(stamp) + Newlines(event)
  {
    var digest := sha(Encode(d, payload));
    assert IsHex(digest);
    HexOneLine(digest);
    NoNewlines(digest);
    DecimalOneLine(sequence);
    NoNewlines(Decimal(sequence));
    var m3 := event + "\n" + digest;
    var m2 := stamp + "\n" + m3;
    var m1 := Decimal(sequence) + "\n" + m2;
    JoinedNewlines(event, digest);
    JoinedNewlines(stamp, m3);
    JoinedNewlines(Decimal(sequence), m2);
    JoinedNewlines(device, m1);
  }

  lemma MessageSplits(sha: string -> string,
                      d: Dialect, device: string, sequence: int, stamp: string, event: string, payload: Json,
                      d': Dialect, device': string, sequence': int, stamp': string, event': string, payload': Json)
    requires OneLine(device) && OneLine(stamp) && OneLine(event)
    requires OneLine(device') && OneLine(stamp') && OneLine(event')
    requires Message(sha, d, device, sequence, stamp, event, payload)
          == Message(sha, d', device', sequence', stamp', event', payload')
    ensures device == device' && sequence == sequence' && stamp == stamp' && event == event'
    ensures sha(Encode(d, payload)) == sha(Encode(d', payload'))
  {
    var m3, m3' := event + "\n" + sha(Encode(d, payload)), event' + "\n" + sha(Encode(d', payload'));
    var m2, m2' := stamp + "\n" + m3, stamp' + "\n" + m3';
    var m1, m1' := Decimal(sequence) + "\n" + m2, Decimal(sequence') + "\n" + m2';
    DecimalOneLine(sequence);
    DecimalOneLine(sequence');
    SplitAtNewline(device, m1, device', m1');
    SplitAtNewline(Decimal(sequence), m2, Decimal(sequence'), m2');
    SplitAtNewline(stamp, m3, stamp', m3');
    SplitAtNewline(event, sha(Encode(d, payload)), event', sha(Encode(d', payload')));
    DecimalInjective(sequence, sequence');
  }

  /** A message built from one-line fields is no one else's: any envelope with the same message, even one
      received with newlines in its fields and read by the other encoder, has the same fields. */
  lemma MessageInjective(sha: string -> string,
                         d: Dialect, device: string, sequence: int, stamp: string, event: string, payload: Json,
                         d': Dialect, device': string, sequence': int, stamp': string, event': string, payload': Json)
    requires Digest(sha) && Writes(d, payload) && Writes(d', payload')
    requires OneLine(device) && OneLine(stamp) && OneLine(event)
    requires Message(sha, d, device, sequence, stamp, event, payload)
          == Message(sha, d', device', sequence', stamp', event', payload')
    ensures device == device' && sequence == sequence' && stamp == stamp' && event == event' && payload == payload'
  {
    MessageNewlines(sha, d, device, sequence, stamp, event, payload);
    MessageNewlines(sha, d', device', sequence', stamp', event', payload');
    NoNewlines(device);
    NoNewlines(stamp);
    NoNewlines(event);
    NoNewlines(device');
    NoNewlines(stamp');
    NoNewlines(event');
    MessageSplits(sha, d, device, sequence, stamp, event, payload, d', device', sequence', stamp', event', payload');
    assert SameDigest(sha, Encode(d, payload), Encode(d', payload'));
    EncodingInjective(d, payload, d', payload');
  }

  lemma SameTail(a: string, p: string, q: string)
    requires a + p == a + q
    ensures p == q
  {
    assert (a + p)[|a|..] == p && (a + q)[|a|..] == q;
  }

  lemma MessageTail(sha: string -> string, d: Dialect, device: string, sequence: int, stamp: string, event: string,
                    payload: Json)
    ensures Message(sha, d, device, sequence, stamp, event, payload)
         == device + "\n" + Decimal(sequence) + "\n" + stamp + "\n" + event + "\n" + sha(Encode(d, payload))
  {
  }

  /** The server rebuilds the signed message exactly when the payload is plain. */
  lemma MessagesAgree(sha: string -> string, device: string, sequence: int, stamp: string, event: string, payload: Json)
    requires CollisionFree(sha) && Exact(payload)
    ensures (Message(sha, Go, device, sequence, stamp, event, payload)
             == Message(sha, Python, device, sequence, stamp, event, payload)) <==> Plain(payload)
  {
    EncodersAgree(payload);
    if Message(sha, Go, device, sequence, stamp, event, payload)
      == Message(sha, Python, device, sequence, stamp, event, payload)
    {
      var a := device + "\n" + Decimal(sequence) + "\n" + stamp + "\n" + event + "\n";
      var p, q := sha(Encode(Go, payload)), sha(Encode(Python, payload));
      MessageTail(sha, Go, device, sequence, stamp, event, payload);
      MessageTail(sha, Python, device, sequence, stamp, event, payload);
      SameTail(a, p, q);
      assert SameDigest(sha, Encode(Go, payload), Encode(Python, payload));
    }
  }
}
