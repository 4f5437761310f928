/**
 Immutable request snapshots: copied in chunks at acceptance, checked and copied
 again into the native candidate (submission.py, recalculation.py).
 The hash is a parameter; its injectivity is assumed only where a lemma says so.
 */
module Snapshot {
  import opened Common
  import Names

  type Bytes = seq<bv8>
  type Files = map<string, Bytes>
  type Hash = Bytes -> string

  const COPY_CHUNK_SIZE := 65536
  const REQUIRED_EVENT_FILE := "event.xml"

  datatype FileFact = FileFact(basename: string, size: int, sha256: string)
  datatype Manifest = Manifest(eventId: string, sequence: int, files: seq<FileFact>)

  function Concat(chunks: seq<Bytes>): Bytes {
    if chunks == [] then [] else Concat(chunks[..|chunks| - 1]) + chunks[|chunks| - 1]
  }

  /** What os.read may return before end of file. */
  predicate Readable(chunks: seq<Bytes>) {
    forall c | c in chunks :: 0 < |c| <= COPY_CHUNK_SIZE
  }

  predicate HexDigest(s: string) {
    |s| == 64 && forall c | c in s :: '0' <= c <= '9' || 'a' <= c <= 'f'
  }

  // -------------------------------------------------------------- the copies

  /** A descriptor open for writing; a write may be short, and unless nothing fails it may return zero. */
  class Sink {
    const calm: bool
    var written: Bytes

    constructor (calm: bool)
      ensures written == [] && this.calm == calm
    {
      this.calm := calm;
      written := [];
    }

    method Write(view: Bytes) returns (n: nat)
      modifies this
      ensures n <= |view| && written == old(written) + view[..n]
      ensures calm && view != [] ==> n > 0
    {
      var accepted: int := *;
      n := if 0 <= accepted <= |view| then accepted else 0;
      if calm && n == 0 && view != [] {
        n := 1;
      }
      written := written + view[..n];
    }
  }

  method WriteAll(sink: Sink, payload: Bytes) returns (ok: bool)
    modifies sink
    ensures ok ==> sink.written == old(sink.written) + payload
    ensures old(sink.written) <= sink.written
    ensures sink.calm ==> ok
  {
    var view := payload;
    while view != []
      invariant |view| <= |payload|
      invariant sink.written == old(sink.written) + payload[..|payload| - |view|]
      invariant view == payload[|payload| - |view|..]
      decreases |view|
    {
      var n := sink.Write(view);
      if n < 1 {
        return false;
      }
      view := view[n..];
    }
    return true;
  }

  /** One file, whatever the source delivers: the facts describe the bytes that were written. */
  method CopyRegularFile(hash: Hash, delivered: seq<Bytes>, sink: Sink) returns (r: Result<(nat, string)>)
    requires Readable(delivered) && sink.written == []
    modifies sink
    ensures r.Ok? ==> sink.written == Concat(delivered)
    ensures r.Ok? ==> r.value == (|sink.written|, hash(sink.written))
    ensures sink.calm ==> r.Ok?
  {
    var digested: Bytes, size := [], 0;
    for i := 0 to |delivered|
      invariant sink.written == digested == Concat(delivered[..i]) && size == |digested|
    {
      var chunk := delivered[i];
      digested := digested + chunk;
      size := size + |chunk|;
      var ok := WriteAll(sink, chunk);
      if !ok {
        return Raised;
      }
      assert delivered[..i + 1][..i] == delivered[..i];
    }
    assert delivered[..|delivered|] == delivered;
    return Ok((size, hash(digested)));
  }

  // ------------------------------------------------------------ the manifest

  predicate Distinct(facts: seq<FileFact>) {
    forall i, j | 0 <= i < j < |facts| :: facts[i].basename != facts[j].basename
  }

  predicate ValidFact(f: FileFact) {
    Names.ValidBasename(f.basename) && f.size >= 0 && HexDigest(f.sha256)
  }

  predicate WellFormed(facts: seq<FileFact>) {
    && Distinct(facts)
    && (forall f | f in facts :: ValidFact(f))
    && (exists f | f in facts :: f.basename == REQUIRED_EVENT_FILE)
  }

  /** `files` has exactly the named files, with the recorded sizes and digests. */
  predicate Manifested(hash: Hash, files: Files, facts: seq<FileFact>) {
    && (forall f | f in facts :: f.basename in files
          && |files[f.basename]| == f.size && hash(files[f.basename]) == f.sha256)
    && (forall name | name in files :: exists f | f in facts :: f.basename == name)
  }

  predicate Matches(hash: Hash, m: Manifest, eventId: string, sequence: int, request: Files) {
    && m.eventId == eventId && m.sequence == sequence
    && WellFormed(m.files) && Manifested(hash, request, m.files)
  }

  function Facts(hash: Hash, name: string, bytes: Bytes): FileFact {
    FileFact(name, |bytes|, hash(bytes))
  }

  /** `files` and `facts` record the bytes delivered for each of `names`, in order. */
  predicate Recorded(hash: Hash, names: seq<string>, inputs: map<string, seq<Bytes>>, files: Files, facts: seq<FileFact>) {
    && |facts| == |names|
    && files.Keys == (set n | n in names)
    && (forall n | n in names :: n in inputs && files[n] == Concat(inputs[n]))
    && (forall k | 0 <= k < |names| :: names[k] in files && facts[k] == Facts(hash, names[k], files[names[k]]))
  }

  lemma RecordNone(hash: Hash, inputs: map<string, seq<Bytes>>)
    ensures Recorded(hash, [], inputs, map[], [])
  {
  }

  lemma RecordOne(hash: Hash, names: seq<string>, inputs: map<string, seq<Bytes>>, files: Files, facts: seq<FileFact>, name: string)
    requires Recorded(hash, names, inputs, files, facts) && name !in names && name in inputs
    ensures Recorded(hash, names + [name], inputs, files[name := Concat(inputs[name])],
                     facts + [Facts(hash, name, Concat(inputs[name]))])
  {
  }

  /** _snapshot_inputs: the snapshot and a manifest that describes it. */
  method SnapshotInputs(hash: Hash, names: seq<string>, inputs: map<string, seq<Bytes>>, calm: bool)
    returns (r: Result<(Files, seq<FileFact>)>)
    requires forall i, j | 0 <= i < j < |names| :: names[i] != names[j]
    requires forall n | n in names :: n in inputs && Readable(inputs[n])
    ensures r.Ok? ==> "event.xml" in names && Recorded(hash, names, inputs, r.value.0, r.value.1)
    ensures calm ==> (r.Ok? <==> "event.xml" in names)
  {
    hide Recorded;
    if REQUIRED_EVENT_FILE !in names {
      return Raised;
    }
    var files: Files, facts := map[], [];
    RecordNone(hash, inputs);
    for i := 0 to |names|
      invariant Recorded(hash, names[..i], inputs, files, facts)
    {
      var sink := new Sink(calm);
      var copied := CopyRegularFile(hash, inputs[names[i]], sink);
      if copied.Raised? {
        return Raised;
      }
      RecordOne(hash, names[..i], inputs, files, facts, names[i]);
      assert names[..i + 1] == names[..i] + [names[i]];
      files := files[names[i] := sink.written];
      facts := facts + [FileFact(names[i], copied.value.0, copied.value.1)];
    }
    assert names[..|names|] == names;
    return Ok((files, facts));
  }

  /** An accepted snapshot always passes the checks made before it is used. */
  lemma SnapshotsValidate(
    hash: Hash, names: seq<string>, inputs: map<string, seq<Bytes>>, files: Files, facts: seq<FileFact>,
    eventId: string, sequence: int)
    requires forall i, j | 0 <= i < j < |names| :: names[i] != names[j]
    requires forall n | n in names :: Names.ValidBasename(n)
    requires forall b :: HexDigest(hash(b))
    requires REQUIRED_EVENT_FILE in names && Recorded(hash, names, inputs, files, facts)
    ensures Matches(hash, Manifest(eventId, sequence, facts), eventId, sequence, files)
  {
    forall name | name in files ensures exists f | f in facts :: f.basename == name {
      var k :| 0 <= k < |names| && names[k] == name;
      assert facts[k] in facts;
    }
    assert REQUIRED_EVENT_FILE in files;
    forall f | f in facts ensures ValidFact(f) {
      var k :| 0 <= k < |facts| && facts[k] == f;
      assert names[k] in names;
    }
  }

  predicate ContentMatches(hash: Hash, request: Files, f: FileFact) {
    f.basename in request && |request[f.basename]| == f.size && hash(request[f.basename]) == f.sha256
  }

  /** The manifest entries alone: identities, duplicates, sizes, digests, and event.xml. */
  method ValidateEntries(facts: seq<FileFact>) returns (expected: Option<set<string>>)
    ensures expected.Some? <==> WellFormed(facts)
    ensures expected.Some? ==> expected.value == set f | f in facts :: f.basename
  {
    hide ValidFact;
    var seen: set<string> := {};
    for i := 0 to |facts|
      invariant seen == set k | 0 <= k < i :: facts[k].basename
      invariant Distinct(facts[..i])
      invariant forall k | 0 <= k < i :: ValidFact(facts[k])
    {
      var f := facts[i];
      if !ValidFact(f) || f.basename in seen {
        return None;
      }
      seen := seen + {f.basename};
    }
    assert facts[..|facts|] == facts;
    if REQUIRED_EVENT_FILE !in seen {
      assert forall f | f in facts :: f.basename in seen;
      return None;
    }
    var k :| 0 <= k < |facts| && facts[k].basename == REQUIRED_EVENT_FILE;
    assert facts[k] in facts;
    return Some(seen);
  }

  /** _validate_manifest, on the request directory as it is now. */
  method ValidateManifest(hash: Hash, m: Manifest, eventId: string, sequence: int, request: Files)
    returns (ok: bool)
    ensures ok <==> Matches(hash, m, eventId, sequence, request)
  {
    hide WellFormed, Manifested, AllMatch;
    if m.eventId != eventId || m.sequence != sequence {
      return false;
    }
    var expected := ValidateEntries(m.files);
    if expected.None? {
      return false;
    }
    if request.Keys != expected.value {
      OtherNames(hash, request, m.files, expected.value);
      return false;
    }
    ok := ValidateContents(hash, request, m.files);
    ContentsSuffice(hash, request, m.files, expected.value);
  }

  /** Every manifested file present, with its size and digest. */
  predicate AllMatch(hash: Hash, request: Files, facts: seq<FileFact>) {
    forall k | 0 <= k < |facts| :: ContentMatches(hash, request, facts[k])
  }

  method ValidateContents(hash: Hash, request: Files, facts: seq<FileFact>) returns (ok: bool)
    ensures ok <==> AllMatch(hash, request, facts)
  {
    for i := 0 to |facts|
      invariant forall k | 0 <= k < i :: ContentMatches(hash, request, facts[k])
    {
      if !ContentMatches(hash, request, facts[i]) {
        return false;
      }
    }
    return true;
  }

  lemma OtherNames(hash: Hash, request: Files, facts: seq<FileFact>, names: set<string>)
    requires names == set f | f in facts :: f.basename
    requires request.Keys != names
    ensures !Manifested(hash, request, facts)
  {
    if n :| n in request && n !in names {
      assert forall f | f in facts :: f.basename != n;
    }
  }

  lemma ContentsSuffice(hash: Hash, request: Files, facts: seq<FileFact>, names: set<string>)
    requires names == set f | f in facts :: f.basename
    requires request.Keys == names
    ensures AllMatch(hash, request, facts) <==> Manifested(hash, request, facts)
  {
    forall n | n in request ensures exists f | f in facts :: f.basename == n {
    }
    assert forall k | 0 <= k < |facts| :: facts[k] in facts;
  }

  /** The copy loop of _copy_manifested_request: the source bytes may have changed since they
      were validated, and a completed copy still has the manifested content. */
  method CopyManifested(hash: Hash, facts: seq<FileFact>, sources: map<string, seq<Bytes>>, calm: bool)
    returns (r: Result<Files>)
    requires Distinct(facts)
    requires forall f | f in facts :: f.basename in sources && Readable(sources[f.basename])
    ensures r.Ok? ==> Manifested(hash, r.value, facts)
    ensures r.Ok? ==> forall f | f in facts :: f.basename in r.value && r.value[f.basename] == Concat(sources[f.basename])
    ensures calm ==> (r.Ok? <==> forall f | f in facts ::
      |Concat(sources[f.basename])| == f.size && hash(Concat(sources[f.basename])) == f.sha256)
  {
    var files: Files := map[];
    for i := 0 to |facts|
      invariant files.Keys == set k | 0 <= k < i :: facts[k].basename
      invariant forall k | 0 <= k < i ::
        |files[facts[k].basename]| == facts[k].size && hash(files[facts[k].basename]) == facts[k].sha256
        && facts[k].basename in sources && files[facts[k].basename] == Concat(sources[facts[k].basename])
    {
      var sink := new Sink(calm);
      assert facts[i] in facts;
      var copied := CopyRegularFile(hash, sources[facts[i].basename], sink);
      if copied.Raised? || copied.value != (facts[i].size, facts[i].sha256) {
        return Raised;
      }
      files := files[facts[i].basename := sink.written];
    }
    return Ok(files);
  }

  predicate Injective(hash: Hash, a: Files, b: Files) {
    forall x, y | x in a && y in b :: hash(a[x]) == hash(b[y]) ==> a[x] == b[y]
  }

  /** End to end: two trees with one manifest are byte-for-byte the same tree,
      unless their contents collide under the hash. */
  lemma OneManifestOneTree(hash: Hash, facts: seq<FileFact>, accepted: Files, published: Files)
    requires Manifested(hash, accepted, facts) && Manifested(hash, published, facts)
    requires Injective(hash, accepted, published)
    ensures accepted == published
  {
    forall name | name in accepted ensures name in published && accepted[name] == published[name] {
      var f :| f in facts && f.basename == name;
    }
    forall name | name in published ensures name in accepted {
      var f :| f in facts && f.basename == name;
    }
  }
}
