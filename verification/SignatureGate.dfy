/** What an ideal signature over the real message text lets through: the agent signs the payload as Go writes
    it, the server checks the payload as Python writes it. */
module SignatureGate {
  import opened Prelude
  import opened CanonicalJson
  import opened CanonicalTheorems
  import opened SignedMessage
  import opened Server
  import opened ServerSafety
  import opened TelemetryTheorems

  /** The signed text has five lines: device, number, time, event and the digest of the payload's text. */
  lemma MessageLines(sha: string -> string, d: Dialect, device: string, sequence: int, stamp: string, event: string,
                     payload: Json)
    requires HexOutput(sha) && OneLine(device) && OneLine(stamp) && OneLine(event)
    ensures Telemetry.Lines(Message(sha, d, device, sequence, stamp, event, payload))
         == [device, Decimal(sequence), stamp, event, sha(Encode(d, payload))]
  {
    var digest, number := sha(Encode(d, payload)), Decimal(sequence);
    assert IsHex(digest);
    HexOneLine(digest);
    DecimalOneLine(sequence);
    FiveLines(device, number, stamp, event, digest);
  }

  lemma FiveLines(a: string, b: string, c: string, e: string, f: string)
    requires OneLine(a) && OneLine(b) && OneLine(c) && OneLine(e) && OneLine(f)
    ensures Telemetry.Lines(a + "\n" + (b + "\n" + (c + "\n" + (e + "\n" + f)))) == [a, b, c, e, f]
  {
    SingleLine(a);
    SingleLine(b);
    SingleLine(c);
    SingleLine(e);
    SingleLine(f);
    SplitAt(e, f);
    SplitAt(c, e + "\n" + f);
    SplitAt(b, c + "\n" + (e + "\n" + f));
    SplitAt(a, b + "\n" + (c + "\n" + (e + "\n" + f)));
  }

  /** An honest signature verifies if and only if no text of the payload holds one of the five characters
      that only Go escapes. */
  lemma SignatureExactly(sha: string -> string, key: PublicKey, env: Envelope)
    requires CollisionFree(sha) && Exact(env.payload)
    requires env.signature
      == Sign(sha, key, env.deviceId, env.sequence, env.timestamp, env.eventId, env.payload, env.body).signature
    ensures SignatureOk(sha, key, env) <==> Plain(env.payload)
  {
    MessagesAgree(sha, env.deviceId, env.sequence, env.timestamp, env.eventId, env.payload);
  }

  /** A signature made over one-line fields verifies for no other fields. */
  lemma SignatureFixesFields(sha: string -> string, key: PublicKey, h: Envelope, env: Envelope)
    requires Digest(sha) && Exact(h.payload) && OneLine(h.deviceId) && OneLine(h.timestamp) && OneLine(h.eventId)
    requires h.signature == Sign(sha, key, h.deviceId, h.sequence, h.timestamp, h.eventId, h.payload, h.body).signature
    requires env.signature == h.signature && SignatureOk(sha, key, env)
    ensures env.deviceId == h.deviceId && env.sequence == h.sequence && env.timestamp == h.timestamp
    ensures env.eventId == h.eventId && env.payload == h.payload
  {
    MessageInjective(sha, Go, h.deviceId, h.sequence, h.timestamp, h.eventId, h.payload,
                     Python, env.deviceId, env.sequence, env.timestamp, env.eventId, env.payload);
  }

  /** An honest report of a known device passes the signature check exactly if its payload is plain; otherwise
      it is refused as forged, an alarm is raised, and nothing else changes. */
  lemma HonestGate(cfg: Settings, db: Db, route: Route, env: Envelope, now: Time)
    requires CollisionFree(cfg.sha) && Exact(env.payload) && IsRequest(cfg, env) && env.deviceId in db.devices
    requires env.signature == Sign(cfg.sha, db.devices[env.deviceId].key, env.deviceId, env.sequence, env.timestamp,
                                   env.eventId, env.payload, env.body).signature
    ensures var (after, r) := Handle(cfg, db, route, env, now);
      && (r == InvalidSignature <==> !Plain(env.payload))
      && (!Plain(env.payload) ==>
            after == db.(events := AddEvent(db.events, env.deviceId, "INVALID_SIGNATURE", BadSignatureKey(env.eventId)))
            && HasEvent(after.events, env.deviceId, BadSignatureKey(env.eventId)))
  {
    SignatureExactly(cfg.sha, db.devices[env.deviceId].key, env);
    AddEventExtends(db.events, env.deviceId, "INVALID_SIGNATURE", BadSignatureKey(env.eventId));
    VerifiedFrame(cfg, db, env, now);
  }

  /** For example an honest heartbeat whose Codex version text holds a `<`. */
  lemma HeartbeatRefused(cfg: Settings, db: Db, env: Envelope, now: Time, version: string)
    requires CollisionFree(cfg.sha) && Exact(env.payload) && IsRequest(cfg, env) && env.deviceId in db.devices
    requires env.signature == Sign(cfg.sha, db.devices[env.deviceId].key, env.deviceId, env.sequence, env.timestamp,
                                   env.eventId, env.payload, env.body).signature
    requires env.payload.Obj? && "codex_version" in env.payload.fields
    requires env.payload.fields["codex_version"] == Str(version) && '<' in version
    ensures Handle(cfg, db, HeartbeatRoute, env, now).1 == InvalidSignature
  {
    assert !PlainText(version) by { assert GoOnlyEscape('<'); }
    HonestGate(cfg, db, HeartbeatRoute, env, now);
  }
}
