/** The evidence index: written by the producer over everything it saw, re-checked by the
    independent verifier on the tree it received. */
module EvidenceIndex {
  import opened Wrappers
  import opened Json
  import opened FileTree
  import opened EvidenceGate
  import opened Text

  // ------------------------------------------------------------- the producer

  /** The names are files, and tell each other apart as texts. */
  predicate Indexable(e: Evidence, names: set<Path>) {
    && (forall p :: p in names ==> IsFile(e.tree, e.root + p))
    && (forall p, q :: p in names && q in names && Posix(p) == Posix(q) ==> p == q)
  }

  /** One index entry per name. */
  function Entries(e: Evidence, names: set<Path>): map<string, Json>
    requires Indexable(e, names)
  {
    map p | p in names :: Posix(p) := Obj(map["sha256" := Str(e.codec.Sha(Content(e.tree, e.root + p)))])
  }

  /** The document that is written to the index file. */
  function IndexDoc(e: Evidence, commit: string, names: set<Path>): Doc
    requires Indexable(e, names)
  {
    map["passed" := Bool(true),
        "gate" := Str("gate5"),
        "release_commit" := Str(commit),
        "files_count" := Int(|names|),
        "files" := Obj(Entries(e, names))]
  }

  /** Everything that is indexed: the gate's files and all others but the output file. */
  function Indexed(e: Evidence, files: seq<Path>): set<Path> {
    (set p | p in files) + (e.Names() - {INDEX})
  }

  function WithFile(e: Evidence, name: Path, content: Bytes): Evidence {
    e.(tree := e.tree.(files := e.tree.files[e.root + name := content]))
  }

  // ------------------------------------------------------------- the verifier

  /** One indexed file on the received tree: no link, inside the root, right digest. */
  predicate EntryHolds(e: Evidence, name: string, identity: Json) {
    var candidate := Below(e.root, name);
    && identity.Obj?
    && !IsSymlink(e.tree, candidate)
    && Under(Resolve(e.tree, candidate), e.root)
    && IsFile(e.tree, candidate)
    && Says(identity.fields, "sha256", e.codec.Sha(Content(e.tree, candidate)))
  }

  /** `_verify_producer_index`. */
  predicate Verifies(e: Evidence, commit: string) {
    && ReadObject(e.codec, e.tree, e.root + INDEX).Some?
    && var index := ReadObject(e.codec, e.tree, e.root + INDEX).value;
    && IsTrue(index, "passed") && Says(index, "release_commit", commit)
    && Field(index, "files").Obj?
    && var indexed := Field(index, "files").fields;
    && Equal(Field(index, "files_count"), Int(|indexed|))
    && (forall p :: p in REQUIRED ==> Posix(p) in indexed)
    && forall name :: name in indexed ==> EntryHolds(e, name, indexed[name])
  }

  /** The loop over the indexed files. */
  method VerifyProducerIndex(e: Evidence, commit: string) returns (ok: bool)
    ensures ok <==> Verifies(e, commit)
  {
    if ReadObject(e.codec, e.tree, e.root + INDEX).None? {
      return false;
    }
    var index := ReadObject(e.codec, e.tree, e.root + INDEX).value;
    if !IsTrue(index, "passed") || !Says(index, "release_commit", commit) {
      return false;
    }
    if !Field(index, "files").Obj? || !Equal(Field(index, "files_count"), Int(|Field(index, "files").fields|)) {
      return false;
    }
    var indexed := Field(index, "files").fields;
    if exists p :: p in REQUIRED && Posix(p) !in indexed {
      return false;
    }
    hide EntryHolds;
    var todo := indexed.Keys;
    while todo != {}
      invariant todo <= indexed.Keys
      invariant forall name :: name in indexed && name !in todo ==> EntryHolds(e, name, indexed[name])
      decreases |todo|
    {
      var name :| name in todo;
      if !EntryHolds(e, name, indexed[name]) {
        return false;
      }
      todo := todo - {name};
    }
    return true;
  }

  // ---------------------------------------------------------------- agreement

  lemma IndexedAreFiles(e: Evidence, files: seq<Path>)
    requires e.PlainTree() && Covers(e, files)
    requires forall p :: p in files ==> Clean(p)
    ensures forall p :: p in Indexed(e, files) ==> Clean(p) && p != [] && p != INDEX
    ensures Indexable(e, Indexed(e, files))
  {
    hide Posix;
    forall p | p in Indexed(e, files)
      ensures IsFile(e.tree, e.root + p) && Clean(p) && p != [] && p != INDEX
    {
      if p in files {
        var i :| 0 <= i < |files| && files[i] == p;
      } else {
        e.NameIsFile(p);
      }
    }
    forall p, q | p in Indexed(e, files) && q in Indexed(e, files) && Posix(p) == Posix(q) ensures p == q {
      PosixInjective(p, q);
    }
  }

  /** Names that exist on a plain tree are clean. */
  lemma FilesAreClean(e: Evidence, files: seq<Path>)
    requires e.PlainTree() && Present(e, files)
    requires forall p :: p in files ==> ".." !in p
    ensures forall p :: p in files ==> Clean(p)
  {
    forall p | p in files ensures Clean(p) {
      var i :| 0 <= i < |files| && files[i] == p;
      assert ".." !in e.root by {
        assert forall k :: 0 <= k < |e.root| ==> CleanName(e.root[k]);
      }
      PlainResolvesToItself(e.tree, e.root + p);
      assert forall k :: 0 <= k < |p| ==> p[k] == (e.root + p)[|e.root| + k];
    }
  }

  function Texts(names: set<Path>): set<string> {
    set p | p in names :: Posix(p)
  }

  lemma {:induction false} TextsCount(names: set<Path>)
    requires forall p, q :: p in names && q in names && Posix(p) == Posix(q) ==> p == q
    ensures |Texts(names)| == |names|
    decreases |names|
  {
    if names != {} {
      var p :| p in names;
      TextsCount(names - {p});
      assert Texts(names) == Texts(names - {p}) + {Posix(p)};
    }
  }

  lemma EntriesCount(e: Evidence, names: set<Path>)
    requires Indexable(e, names)
    ensures |Entries(e, names)| == |names|
  {
    TextsCount(names);
    assert Entries(e, names).Keys == Texts(names);
  }

  /** Writing the index leaves every other file as it is. */
  lemma StillPlain(e: Evidence, content: Bytes)
    requires e.PlainTree() && Clean(INDEX)
    ensures WithFile(e, INDEX, content).PlainTree()
  {
    assert Clean(e.root + INDEX);
  }

  lemma OthersUntouched(e: Evidence, content: Bytes, p: Path)
    requires e.PlainTree() && Clean(p) && p != INDEX && IsFile(e.tree, e.root + p) && Clean(INDEX)
    ensures var f := WithFile(e, INDEX, content);
      && f.PlainTree() && Resolve(f.tree, e.root + p) == e.root + p
      && IsFile(f.tree, e.root + p) && Content(f.tree, e.root + p) == Content(e.tree, e.root + p)
      && !IsSymlink(f.tree, e.root + p)
  {
    var f := WithFile(e, INDEX, content);
    StillPlain(e, content);
    e.PlainResolve(p);
    f.PlainResolve(p);
    assert f.tree.links == map[];
    hide Resolve, Clean, Evidence.PlainTree;
    assert (e.root + p)[|e.root|..] == p && (e.root + INDEX)[|e.root|..] == INDEX;
  }

  lemma IndexNameIsClean()
    ensures Clean(INDEX)
  {
  }

  lemma IndexReadsBack(e: Evidence, index: Doc)
    requires e.PlainTree() && e.codec.Lawful() && Exact(Obj(index))
    ensures var f := WithFile(e, INDEX, e.codec.Dump(Obj(index)));
      ReadObject(f.codec, f.tree, f.root + INDEX) == Some(index)
  {
    IndexNameIsClean();
    var f := WithFile(e, INDEX, e.codec.Dump(Obj(index)));
    assert ".." !in e.root + INDEX by {
      assert forall k :: 0 <= k < |e.root + INDEX| ==> CleanName((e.root + INDEX)[k]);
    }
    PlainResolvesToItself(f.tree, e.root + INDEX);
  }

  /** Each entry holds on the tree that also has the index file. */
  lemma EntryStillHolds(e: Evidence, content: Bytes, names: set<Path>, p: Path)
    requires e.PlainTree() && Indexable(e, names)
    requires p in names && Clean(p) && p != [] && p != INDEX
    ensures EntryHolds(WithFile(e, INDEX, content), Posix(p), Entries(e, names)[Posix(p)])
  {
    hide Posix, Resolve, IsSymlink, IsFile;
    IndexNameIsClean();
    PartsOfPosix(e.root, p);
    OthersUntouched(e, content, p);
    assert Entries(e, names)[Posix(p)] == Obj(map["sha256" := Str(e.codec.Sha(Content(e.tree, e.root + p)))]);
  }

  /** The members of the index document, as the verifier looks them up. */
  lemma IndexDocMembers(e: Evidence, commit: string, names: set<Path>)
    requires Indexable(e, names)
    ensures var index := IndexDoc(e, commit, names);
      && IsTrue(index, "passed") && Says(index, "release_commit", commit)
      && Field(index, "files") == Obj(Entries(e, names))
      && Equal(Field(index, "files_count"), Int(|names|))
  {
  }

  lemma IndexDocIsExact(e: Evidence, commit: string, names: set<Path>)
    requires Indexable(e, names)
    ensures Exact(Obj(IndexDoc(e, commit, names)))
  {
    var entries := Entries(e, names);
    forall name | name in entries ensures Exact(entries[name]) {
      FlatIsExact(entries[name].fields, {});
    }
    assert Exact(Obj(entries));
    hide Exact, Entries;
    FlatIsExact(IndexDoc(e, commit, names), {Obj(entries)});
  }

  lemma VerifiesFromParts(f: Evidence, index: Doc, commit: string, indexed: map<string, Json>)
    requires ReadObject(f.codec, f.tree, f.root + INDEX) == Some(index)
    requires IsTrue(index, "passed") && Says(index, "release_commit", commit)
    requires Field(index, "files") == Obj(indexed) && Equal(Field(index, "files_count"), Int(|indexed|))
    requires forall p :: p in REQUIRED ==> Posix(p) in indexed
    requires forall name :: name in indexed ==> EntryHolds(f, name, indexed[name])
    ensures Verifies(f, commit)
  {
  }

  lemma RequiredIndexed(e: Evidence, files: seq<Path>)
    requires Covers(e, files) && Indexable(e, Indexed(e, files))
    ensures forall p :: p in REQUIRED ==> Posix(p) in Entries(e, Indexed(e, files))
  {
    hide Posix, Present, Evidence.Names;
    assert forall p :: p in REQUIRED ==> p in Indexed(e, files);
  }

  lemma EntriesStillHold(e: Evidence, content: Bytes, files: seq<Path>)
    requires e.PlainTree() && Indexable(e, Indexed(e, files))
    requires forall p :: p in Indexed(e, files) ==> Clean(p) && p != [] && p != INDEX
    ensures var indexed := Entries(e, Indexed(e, files));
      forall name :: name in indexed ==> EntryHolds(WithFile(e, INDEX, content), name, indexed[name])
  {
    hide EntryHolds, Posix, Clean, Evidence.PlainTree, Evidence.Names, IsFile;
    var names := Indexed(e, files);
    forall name | name in Entries(e, names)
      ensures EntryHolds(WithFile(e, INDEX, content), name, Entries(e, names)[name])
    {
      var p :| p in names && Posix(p) == name;
      EntryStillHolds(e, content, names, p);
    }
  }

  /** MAIN RESULT. On every link-free tree, whatever the gate collected, the index the
      producer writes is accepted by the verifier on that tree. */
  lemma IndexRoundTrip(e: Evidence, commit: string, files: seq<Path>)
    requires e.PlainTree() && e.codec.Lawful() && Covers(e, files)
    ensures Indexable(e, Indexed(e, files))
    ensures Verifies(WithFile(e, INDEX, e.codec.Dump(Obj(IndexDoc(e, commit, Indexed(e, files))))), commit)
  {
    FilesAreClean(e, files);
    IndexedAreFiles(e, files);
    hide EntryHolds, Posix, IndexDoc, Entries, ReadObject, Covers, Verifies, Clean, Evidence.PlainTree, Codec.Lawful, Indexable, Indexed, IsTrue, Says, Equal;
    var names := Indexed(e, files);
    var content := e.codec.Dump(Obj(IndexDoc(e, commit, names)));
    IndexDocIsExact(e, commit, names);
    IndexReadsBack(e, IndexDoc(e, commit, names));
    IndexDocMembers(e, commit, names);
    EntriesCount(e, names);
    RequiredIndexed(e, files);
    EntriesStillHold(e, content, files);
    VerifiesFromParts(WithFile(e, INDEX, content), IndexDoc(e, commit, names), commit, Entries(e, names));
  }

  /** MAIN RESULT. If the verifier accepts any tree together with an index that was made from
      the tree `e`, then every indexed file has the bytes it had in `e`, unless two different
      contents with the same digest have been found. */
  lemma AcceptedTreeIsUnchanged(e: Evidence, f: Evidence, commit: string, names: set<Path>, p: Path)
    requires Indexable(e, names)
    requires f.codec == e.codec && Verifies(f, commit)
    requires ReadObject(f.codec, f.tree, f.root + INDEX) == Some(IndexDoc(e, commit, names))
    requires p in names && Clean(p) && p != []
    ensures IsFile(f.tree, f.root + p) && !IsSymlink(f.tree, f.root + p)
    ensures Under(Resolve(f.tree, f.root + p), f.root)
    ensures Content(f.tree, f.root + p) == Content(e.tree, e.root + p)
      || e.codec.Collision(Content(f.tree, f.root + p), Content(e.tree, e.root + p))
  {
    var indexed := Entries(e, names);
    assert Posix(p) in indexed;
    assert EntryHolds(f, Posix(p), indexed[Posix(p)]);
    PartsOfPosix(f.root, p);
  }

  lemma FailedIndexFails(e: Evidence, commit: string)
    requires e.PlainTree() && e.codec.Lawful()
    ensures !Verifies(WithFile(e, INDEX, e.codec.Dump(Obj(FailedIndex(commit)))), commit)
  {
    IndexReadsBack(e, FailedIndex(commit));
  }

  /** A crash ends the run before any index is written. */
  datatype Outcome = Passed | Failed | Crashed

  /** The producer's run: the gate, then next to the evidence the index of all files, or the
      index of a failed run. The verifier accepts the first kind and never the second. */
  method AssertEvidence(e: Evidence, commit: string, model: string) returns (outcome: Outcome, after: Evidence)
    requires e.PlainTree() && e.codec.Lawful()
    ensures outcome == Passed <==> CommitId(commit) && Gate5Passes(e, commit, model, false)
    ensures outcome == Crashed <==> CommitId(commit) && Gate5Crashes(e, commit, model)
    ensures outcome == Passed ==> exists files: seq<Path> ::
      && Covers(e, files) && Indexable(e, Indexed(e, files))
      && after == WithFile(e, INDEX, e.codec.Dump(Obj(IndexDoc(e, commit, Indexed(e, files)))))
    ensures outcome == Passed ==> Verifies(after, commit)
    ensures outcome == Failed ==> after == WithFile(e, INDEX, e.codec.Dump(Obj(FailedIndex(commit)))) && !Verifies(after, commit)
    ensures outcome == Crashed ==> after == e
  {
    hide Gate5Passes, Gate5Crashes, Covers, Verifies, Evidence.PlainTree, Indexable, IndexDoc, CommitId, Codec.Lawful;
    if CommitId(commit) {
      var files := Gate5(e, commit, model, false);
      if files.Crash? {
        return Crashed, e;
      }
      if files.Ok? {
        IndexRoundTrip(e, commit, files.value);
        return Passed, WithFile(e, INDEX, e.codec.Dump(Obj(IndexDoc(e, commit, Indexed(e, files.value)))));
      }
    }
    FailedIndexFails(e, commit);
    return Failed, WithFile(e, INDEX, e.codec.Dump(Obj(FailedIndex(commit))));
  }

  function FailedIndex(commit: string): Doc {
    map["passed" := Bool(false), "gate" := Str("gate5"), "release_commit" := Str(commit)]
  }

  // --------------------------------------------------------- what is refused

  const REQUIRED_TEXTS: seq<string> := [
    "run-identity.json", "model-artifacts.json", "deep-image-binding.json", "deep-image-digest.txt", "llamacpp-worker-smoke.json",
    "reporting-smoke.json", "gateway-smoke.json", "sandbox-receipt/receipt.json", "sandbox-receipt/evidence/manifest.json",
    "sandbox-receipt/evidence/events.jsonl", "teardown-check.json", "redaction-check.json", "rollback.json"]

  /** An indexed file is a link, lies elsewhere, is no file, or has another digest. */
  predicate EntryFaulty(e: Evidence, name: string, identity: Json) {
    var candidate := Below(e.root, name);
    || IsSymlink(e.tree, candidate) || !(e.root <= Resolve(e.tree, candidate)) || Resolve(e.tree, candidate) !in e.tree.files
    || !identity.Obj? || "sha256" !in identity.fields
    || identity.fields["sha256"] != Str(e.codec.Sha(e.tree.files[Resolve(e.tree, candidate)]))
  }

  /** The index is missing, did not pass, belongs to another commit, miscounts, lacks a required
      name, or has a faulty entry. */
  predicate IndexFaulty(e: Evidence, commit: string) {
    var read := ReadObject(e.codec, e.tree, e.root + ["producer-evidence-index.json"]);
    || read.None?
    || Field(read.value, "passed") != Bool(true) || Field(read.value, "release_commit") != Str(commit)
    || !Field(read.value, "files").Obj?
    || !Equal(Int(|Field(read.value, "files").fields|), Field(read.value, "files_count"))
    || (exists name :: name in REQUIRED_TEXTS && name !in Field(read.value, "files").fields)
    || exists name :: name in Field(read.value, "files").fields && EntryFaulty(e, name, Field(read.value, "files").fields[name])
  }

  lemma PosixOfOne(name: string)
    ensures Posix([name]) == name
  {
  }

  lemma PosixOfTwo(a: string, b: string)
    ensures Posix([a, b]) == a + "/" + b
  {
    assert [a, b][1..] == [b];
    PosixOfOne(b);
  }

  lemma PosixOfThree(a: string, b: string, c: string)
    ensures Posix([a, b, c]) == a + "/" + (b + "/" + c)
  {
    assert [a, b, c][1..] == [b, c];
    PosixOfTwo(b, c);
  }

  lemma PlainNamesAsTexts(i: nat)
    requires i < |REQUIRED| && |REQUIRED[i]| == 1
    ensures i < |REQUIRED_TEXTS| && Posix(REQUIRED[i]) == REQUIRED_TEXTS[i]
  {
    PosixOfOne(REQUIRED[i][0]);
    assert REQUIRED[i] == [REQUIRED[i][0]];
    hide Posix;
  }

  lemma RequiredAsTexts(i: nat)
    requires i < |REQUIRED|
    ensures |REQUIRED| == |REQUIRED_TEXTS| && Posix(REQUIRED[i]) == REQUIRED_TEXTS[i]
  {
    PosixOfTwo("sandbox-receipt", "receipt.json");
    PosixOfThree("sandbox-receipt", "evidence", "manifest.json");
    PosixOfThree("sandbox-receipt", "evidence", "events.jsonl");
    hide Posix;
    if |REQUIRED[i]| == 1 {
      PlainNamesAsTexts(i);
    }
  }

  lemma EntryIff(e: Evidence, name: string, identity: Json)
    ensures EntryHolds(e, name, identity) <==> !EntryFaulty(e, name, identity)
  {
    hide Below, Resolve;
  }

  /** MAIN RESULT. The verifier refuses a tree exactly when its index is missing, did not pass, belongs
      to another commit, miscounts its files, leaves out one of thirteen required names, or names a
      file that is a link, lies outside the root, is missing, or has another digest. */
  lemma RefusedIffFaulty(e: Evidence, commit: string)
    ensures !Verifies(e, commit) <==> IndexFaulty(e, commit)
  {
    forall name, identity ensures EntryHolds(e, name, identity) <==> !EntryFaulty(e, name, identity) {
      EntryIff(e, name, identity);
    }
    hide EntryHolds, EntryFaulty, Posix, REQUIRED, REQUIRED_TEXTS, ReadObject, Equal, Field;
    var read := ReadObject(e.codec, e.tree, e.root + INDEX);
    if read.Some? && Field(read.value, "files").Obj? {
      RequiredListed(Field(read.value, "files").fields);
    }
  }

  lemma RequiredListed(m: map<string, Json>)
    ensures (forall p :: p in REQUIRED ==> Posix(p) in m) <==> forall name :: name in REQUIRED_TEXTS ==> name in m
  {
    forall i | 0 <= i < |REQUIRED| ensures |REQUIRED| == |REQUIRED_TEXTS| && Posix(REQUIRED[i]) == REQUIRED_TEXTS[i] {
      RequiredAsTexts(i);
    }
    assert REQUIRED[0] == RUN_IDENTITY;
    hide Posix, REQUIRED, REQUIRED_TEXTS;
    if forall p :: p in REQUIRED ==> Posix(p) in m {
      forall name | name in REQUIRED_TEXTS ensures name in m {
        var i :| 0 <= i < |REQUIRED_TEXTS| && REQUIRED_TEXTS[i] == name;
        assert REQUIRED[i] in REQUIRED;
      }
    }
    if forall name :: name in REQUIRED_TEXTS ==> name in m {
      forall p | p in REQUIRED ensures Posix(p) in m {
        var i :| 0 <= i < |REQUIRED| && REQUIRED[i] == p;
        assert REQUIRED_TEXTS[i] in REQUIRED_TEXTS;
      }
    }
  }

  /** What the two index documents say besides their entries. */
  lemma IndexSays(e: Evidence, commit: string, names: set<Path>)
    requires Indexable(e, names)
    ensures var d := IndexDoc(e, commit, names);
      && Field(d, "passed") == Bool(true) && Field(d, "gate") == Str("gate5") && Field(d, "release_commit") == Str(commit)
      && Field(d, "files_count") == Int(|names|)
    ensures var d := FailedIndex(commit);
      && Field(d, "passed") == Bool(false) && Field(d, "gate") == Str("gate5") && Field(d, "release_commit") == Str(commit)
      && "files" !in d
  {
    hide Entries;
  }
}
