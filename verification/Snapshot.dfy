/** What one integrity scan reports, and the document whose digest extends the chain. */
module Snapshot {
  import opened Prelude
  import opened CanonicalJson
  import opened CanonicalTheorems
  import opened SignedMessage

  /** `None` stands for a field that the wire format omits. */
  datatype Finding = Finding(eventType: string, severity: string, opaqueId: Option<string>,
                             oldSize: Option<nat>, newSize: Option<nat>)

  datatype FileMetadata = FileMetadata(opaqueId: string, size: nat, prefixSize: nat, prefixHash: string,
                                       fullHash: Option<string>, archived: bool, mtime: int)

  /** Go's `omitempty` on a string. */
  function OmitEmpty(s: string): Option<string> {
    if s == "" then None else Some(s)
  }

  function Optional(key: string, s: Option<string>): map<string, Json> {
    if s.None? then map[] else map[key := Str(s.value)]
  }

  function OptionalSize(key: string, n: Option<nat>): map<string, Json> {
    if n.None? then map[] else map[key := Int(n.value)]
  }

  function FindingJson(f: Finding): Json {
    Obj(map["event_type" := Str(f.eventType), "severity" := Str(f.severity)]
        + Optional("opaque_file_id", f.opaqueId)
        + OptionalSize("old_size", f.oldSize) + OptionalSize("new_size", f.newSize))
  }

  function FileJson(m: FileMetadata): Json {
    Obj(map["opaque_file_id" := Str(m.opaqueId), "prefix_sha256" := Str(m.prefixHash), "archived" := Bool(m.archived)]
        + map["size" := Int(m.size), "prefix_size" := Int(m.prefixSize), "mtime_unix" := Int(m.mtime)]
        + Optional("full_sha256", m.fullHash))
  }

  function FilesJson(files: seq<FileMetadata>): Json {
    Arr(seq(|files|, i requires 0 <= i < |files| => FileJson(files[i])))
  }

  function FindingsJson(findings: seq<Finding>): Json {
    Arr(seq(|findings|, i requires 0 <= i < |findings| => FindingJson(findings[i])))
  }

  /** The hashed part of a report. */
  datatype Link = Link(stateId: string, sequence: nat, previousHash: string,
                       files: seq<FileMetadata>, findings: seq<Finding>)

  function LinkJson(k: Link): Json {
    Obj(map["state_id" := Str(k.stateId), "sequence" := Int(k.sequence), "previous_hash" := Str(k.previousHash),
            "files" := FilesJson(k.files), "findings" := FindingsJson(k.findings)])
  }

  ghost function LinkHash(sha: string -> string, d: Dialect, k: Link): string {
    sha(Encode(d, LinkJson(k)))
  }

  /** The five fields of the hashed document, and one entry in order for each file and each finding. */
  lemma LinkFields(k: Link)
    ensures var x := LinkJson(k).fields;
      && x.Keys == {"state_id", "sequence", "previous_hash", "files", "findings"}
      && x["state_id"] == Str(k.stateId) && x["sequence"] == Int(k.sequence)
      && x["previous_hash"] == Str(k.previousHash)
      && x["files"].Arr? && |x["files"].items| == |k.files|
      && x["findings"].Arr? && |x["findings"].items| == |k.findings|
      && (forall i :: 0 <= i < |k.files| ==> x["files"].items[i] == FileJson(k.files[i]))
      && (forall i :: 0 <= i < |k.findings| ==> x["findings"].items[i] == FindingJson(k.findings[i]))
  {
  }

  lemma FileFields(m: FileMetadata)
    ensures var x := FileJson(m).fields;
      && "opaque_file_id" in x && x["opaque_file_id"] == Str(m.opaqueId)
      && "prefix_sha256" in x && x["prefix_sha256"] == Str(m.prefixHash)
      && "archived" in x && x["archived"] == Bool(m.archived)
      && "size" in x && x["size"] == Int(m.size)
      && "prefix_size" in x && x["prefix_size"] == Int(m.prefixSize)
      && "mtime_unix" in x && x["mtime_unix"] == Int(m.mtime)
      && ("full_sha256" in x <==> m.fullHash.Some?) && (m.fullHash.Some? ==> x["full_sha256"] == Str(m.fullHash.value))
  {
  }

  lemma FileJsonInjective(a: FileMetadata, b: FileMetadata)
    requires FileJson(a) == FileJson(b)
    ensures a == b
  {
    FileFields(a);
    FileFields(b);
  }

  lemma FindingFields(f: Finding)
    ensures var x := FindingJson(f).fields;
      && "event_type" in x && x["event_type"] == Str(f.eventType)
      && "severity" in x && x["severity"] == Str(f.severity)
      && ("opaque_file_id" in x <==> f.opaqueId.Some?)
      && (f.opaqueId.Some? ==> x["opaque_file_id"] == Str(f.opaqueId.value))
      && ("old_size" in x <==> f.oldSize.Some?) && (f.oldSize.Some? ==> x["old_size"] == Int(f.oldSize.value))
      && ("new_size" in x <==> f.newSize.Some?) && (f.newSize.Some? ==> x["new_size"] == Int(f.newSize.value))
  {
    var base := map["event_type" := Str(f.eventType), "severity" := Str(f.severity)];
    var withId := base + Optional("opaque_file_id", f.opaqueId);
    assert withId.Keys <= {"event_type", "severity", "opaque_file_id"};
    var withOld := withId + OptionalSize("old_size", f.oldSize);
    assert FindingJson(f).fields == withOld + OptionalSize("new_size", f.newSize);
  }

  lemma FindingJsonInjective(a: Finding, b: Finding)
    requires FindingJson(a) == FindingJson(b)
    ensures a == b
  {
    FindingFields(a);
    FindingFields(b);
  }

  lemma LinkJsonInjective(a: Link, b: Link)
    requires LinkJson(a) == LinkJson(b)
    ensures a == b
  {
    var x, y := LinkJson(a).fields, LinkJson(b).fields;
    assert x["state_id"] == y["state_id"] && x["sequence"] == y["sequence"];
    assert x["previous_hash"] == y["previous_hash"];
    assert x["files"] == y["files"] && x["findings"] == y["findings"];
    var fa, fb := x["files"].items, y["files"].items;
    assert |a.files| == |b.files|;
    forall i | 0 <= i < |a.files| ensures a.files[i] == b.files[i] {
      assert fa[i] == FileJson(a.files[i]) && fb[i] == FileJson(b.files[i]);
      FileJsonInjective(a.files[i], b.files[i]);
    }
    var ga, gb := x["findings"].items, y["findings"].items;
    assert |a.findings| == |b.findings|;
    forall i | 0 <= i < |a.findings| ensures a.findings[i] == b.findings[i] {
      assert ga[i] == FindingJson(a.findings[i]) && gb[i] == FindingJson(b.findings[i]);
      FindingJsonInjective(a.findings[i], b.findings[i]);
    }
  }

  /** A link digest fixes the whole report, whoever computed it. */
  lemma LinkHashInjective(sha: string -> string, d: Dialect, a: Link, e: Dialect, b: Link)
    requires CollisionFree(sha) && Writes(d, LinkJson(a)) && Writes(e, LinkJson(b))
    requires LinkHash(sha, d, a) == LinkHash(sha, e, b)
    ensures a == b
  {
    assert SameDigest(sha, Encode(d, LinkJson(a)), Encode(e, LinkJson(b)));
    EncodingInjective(d, LinkJson(a), e, LinkJson(b));
    LinkJsonInjective(a, b);
  }

  predicate PlainFinding(f: Finding) {
    && PlainText(f.eventType) && PlainText(f.severity) && (f.opaqueId.Some? ==> PlainText(f.opaqueId.value))
    && (f.oldSize.Some? ==> ExactNumber(f.oldSize.value)) && (f.newSize.Some? ==> ExactNumber(f.newSize.value))
  }

  predicate PlainFile(m: FileMetadata) {
    && PlainText(m.opaqueId) && PlainText(m.prefixHash) && (m.fullHash.Some? ==> PlainText(m.fullHash.value))
    && ExactNumber(m.size) && ExactNumber(m.prefixSize) && ExactNumber(m.mtime)
  }

  predicate PlainLink(k: Link) {
    && PlainText(k.stateId) && PlainText(k.previousHash) && ExactNumber(k.sequence)
    && (forall m :: m in k.files ==> PlainFile(m))
    && (forall f :: f in k.findings ==> PlainFinding(f))
  }

  predicate PlainMap(fields: map<string, Json>) {
    forall k :: k in fields ==> PlainText(k) && Plain(fields[k]) && Exact(fields[k])
  }

  lemma PlainEntries3(a: string, x: Json, b: string, y: Json, c: string, z: Json)
    requires PlainText(a) && PlainText(b) && PlainText(c)
    requires Plain(x) && Exact(x) && Plain(y) && Exact(y) && Plain(z) && Exact(z)
    ensures PlainMap(map[a := x, b := y, c := z])
  {
  }

  lemma FileKeysPlain()
    ensures PlainText("opaque_file_id") && PlainText("size") && PlainText("prefix_size") && PlainText("prefix_sha256")
    ensures PlainText("archived") && PlainText("mtime_unix") && PlainText("full_sha256")
  {
  }

  lemma PlainFileJson(m: FileMetadata)
    requires PlainFile(m)
    ensures Plain(FileJson(m)) && Exact(FileJson(m))
  {
    FileKeysPlain();
    PlainEntries3("opaque_file_id", Str(m.opaqueId), "prefix_sha256", Str(m.prefixHash), "archived", Bool(m.archived));
    PlainEntries3("size", Int(m.size), "prefix_size", Int(m.prefixSize), "mtime_unix", Int(m.mtime));
    var texts := map["opaque_file_id" := Str(m.opaqueId), "prefix_sha256" := Str(m.prefixHash),
                     "archived" := Bool(m.archived)];
    var numbers := map["size" := Int(m.size), "prefix_size" := Int(m.prefixSize), "mtime_unix" := Int(m.mtime)];
    PlainMerge(texts, numbers);
    PlainMerge(texts + numbers, Optional("full_sha256", m.fullHash));
    assert PlainMap(FileJson(m).fields);
  }

  lemma FindingKeysPlain()
    ensures PlainText("event_type") && PlainText("severity") && PlainText("opaque_file_id")
    ensures PlainText("old_size") && PlainText("new_size")
  {
  }

  lemma PlainMerge(a: map<string, Json>, b: map<string, Json>)
    requires PlainMap(a) && PlainMap(b)
    ensures PlainMap(a + b)
  {
  }

  lemma PlainFindingJson(f: Finding)
    requires PlainFinding(f)
    ensures Plain(FindingJson(f)) && Exact(FindingJson(f))
  {
    FindingKeysPlain();
    var base := map["event_type" := Str(f.eventType), "severity" := Str(f.severity)];
    var id, before, now := Optional("opaque_file_id", f.opaqueId), OptionalSize("old_size", f.oldSize),
        OptionalSize("new_size", f.newSize);
    PlainMerge(base, id);
    PlainMerge(base + id, before);
    PlainMerge(base + id + before, now);
    assert PlainMap(FindingJson(f).fields);
  }

  lemma PlainRows(k: Link)
    requires PlainLink(k)
    ensures Plain(FilesJson(k.files)) && Exact(FilesJson(k.files))
    ensures Plain(FindingsJson(k.findings)) && Exact(FindingsJson(k.findings))
  {
    forall i | 0 <= i < |k.files|
      ensures Plain(FilesJson(k.files).items[i]) && Exact(FilesJson(k.files).items[i])
    {
      PlainFileJson(k.files[i]);
    }
    forall i | 0 <= i < |k.findings|
      ensures Plain(FindingsJson(k.findings).items[i]) && Exact(FindingsJson(k.findings).items[i])
    {
      PlainFindingJson(k.findings[i]);
    }
  }

  lemma LinkKeysPlain()
    ensures PlainText("state_id") && PlainText("sequence") && PlainText("previous_hash")
    ensures PlainText("files") && PlainText("findings")
  {
  }

  /** Agent and server compute the same digest for every link with plain text and exact numbers. */
  lemma LinkHashAgrees(sha: string -> string, k: Link)
    requires PlainLink(k)
    ensures LinkHash(sha, Go, k) == LinkHash(sha, Python, k)
  {
    PlainRows(k);
    LinkKeysPlain();
    assert PlainMap(LinkJson(k).fields);
    EncodersAgree(LinkJson(k));
  }
}
