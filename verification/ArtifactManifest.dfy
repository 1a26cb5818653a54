/** The frozen artifact manifest: generated from the files in the serving directory, and
    verified against them. */
module ArtifactManifest {
  import opened Wrappers
  import opened Json
  import opened FileTree
  import opened Text

  type Doc = map<string, Json>

  const ADAPTERS: seq<string> := ["reasoning", "reporting", "test-gen"]
  const ADAPTER_SET: set<string> := {"test-gen", "reasoning", "reporting"}

  /** The serving directory of a tree, as a resolved location. */
  datatype Serving = Serving(codec: Codec, tree: Tree, root: Path)

  predicate FrozenText(s: string) { s != "" && !Contains(s, "REPLACE_") }

  // ---------------------------------------------------------------- the verifier

  /** `verify_entry`: the location an entry leads to, if it is in order. */
  function VerifyEntry(s: Serving, entry: Json): Option<Path> {
    if !entry.Obj? then None
    else
      var source, sha := Field(entry.fields, "source"), Field(entry.fields, "sha256");
      if !source.Str? || !FrozenText(source.s) then None
      else if !Hex64Text(sha) then None
      else
        var text := s.codec.Show(FieldOr(entry.fields, "path", Str("")));
        if Absolute(text) || ".." in Parts(text) then None
        else
          var path := Resolve(s.tree, s.root + Parts(text));
          if !Under(path, s.root) || path !in s.tree.files then None
          else if s.codec.Sha(s.tree.files[path]) != sha.s then None
          else Some(path)
  }

  /** `value and "REPLACE_" not in value`: on a list or an object the test is membership. */
  predicate FrozenId(j: Json) {
    match j
    case Str(s) => FrozenText(s)
    case Arr(items) => items != [] && Str("REPLACE_") !in items
    case Obj(fields) => fields != map[] && "REPLACE_" !in fields
    case _ => false
  }

  /** The shape conditions of the verifier's `main` before any file is opened. */
  predicate WellShaped(d: Doc) {
    && Equal(Field(d, "version"), Int(1))
    && PinnedText(Field(d, "llama_cpp_image"))
    && Field(d, "model").Obj?
    && FrozenId(Field(Field(d, "model").fields, "id"))
  }

  predicate HasAdapters(d: Doc) {
    Field(d, "adapters").Obj? && Field(d, "adapters").fields.Keys == ADAPTER_SET
  }

  /** What acceptance means: four distinct files below the root, each with its digest. */
  predicate Accepts(s: Serving, d: Doc) {
    && WellShaped(d) && HasAdapters(d)
    && VerifyEntry(s, Field(d, "model")).Some?
    && (forall name :: name in ADAPTER_SET ==> VerifyEntry(s, Field(d, "adapters").fields[name]).Some?)
    && |Locations(s, d)| == 4
  }

  function Locations(s: Serving, d: Doc): set<Path>
    requires HasAdapters(d) && VerifyEntry(s, Field(d, "model")).Some?
    requires forall name :: name in ADAPTER_SET ==> VerifyEntry(s, Field(d, "adapters").fields[name]).Some?
  {
    {VerifyEntry(s, Field(d, "model")).value}
      + set name | name in ADAPTER_SET :: VerifyEntry(s, Field(d, "adapters").fields[name]).value
  }

  /** The locations of the first i adapters. */
  function Found(s: Serving, adapters: map<string, Json>, i: nat): set<Path>
    requires i <= 3 && adapters.Keys == ADAPTER_SET
    requires forall k :: 0 <= k < i ==> VerifyEntry(s, adapters[ADAPTERS[k]]).Some?
  {
    if i == 0 then {} else Found(s, adapters, i - 1) + {VerifyEntry(s, adapters[ADAPTERS[i - 1]]).value}
  }

  lemma FoundAll(s: Serving, d: Doc)
    requires HasAdapters(d) && VerifyEntry(s, Field(d, "model")).Some?
    requires forall k :: 0 <= k < 3 ==> VerifyEntry(s, Field(d, "adapters").fields[ADAPTERS[k]]).Some?
    ensures forall name :: name in ADAPTER_SET ==> VerifyEntry(s, Field(d, "adapters").fields[name]).Some?
    ensures Locations(s, d) == {VerifyEntry(s, Field(d, "model")).value} + Found(s, Field(d, "adapters").fields, 3)
  {
    hide VerifyEntry;
    assert ADAPTERS[0] == "reasoning" && ADAPTERS[1] == "reporting" && ADAPTERS[2] == "test-gen";
    var adapters := Field(d, "adapters").fields;
    assert Found(s, adapters, 1) == {VerifyEntry(s, adapters["reasoning"]).value};
    assert Found(s, adapters, 2) == {VerifyEntry(s, adapters["reasoning"]).value, VerifyEntry(s, adapters["reporting"]).value};
  }

  /** The loop over the adapters, in sorted order. */
  method VerifyAdapters(s: Serving, adapters: map<string, Json>, base: Path) returns (paths: Option<set<Path>>)
    requires adapters.Keys == ADAPTER_SET
    ensures paths.Some? <==> forall k :: 0 <= k < 3 ==> VerifyEntry(s, adapters[ADAPTERS[k]]).Some?
    ensures paths.Some? ==> paths.value == {base} + Found(s, adapters, 3)
  {
    hide VerifyEntry;
    var grown := {base};
    for i := 0 to 3
      invariant forall k :: 0 <= k < i ==> VerifyEntry(s, adapters[ADAPTERS[k]]).Some?
      invariant grown == {base} + Found(s, adapters, i)
    {
      var found := VerifyEntry(s, adapters[ADAPTERS[i]]);
      if found.None? {
        return None;
      }
      grown := grown + {found.value};
    }
    return Some(grown);
  }

  /** The verifier's `main` on a parsed manifest. */
  method Verify(s: Serving, d: Doc) returns (ok: bool)
    ensures ok <==> Accepts(s, d)
  {
    hide VerifyEntry, WellShaped;
    if !WellShaped(d) {
      return false;
    }
    var model := VerifyEntry(s, Field(d, "model"));
    if model.None? || !HasAdapters(d) {
      return false;
    }
    var paths := VerifyAdapters(s, Field(d, "adapters").fields, model.value);
    if paths.None? {
      assert forall k :: 0 <= k < 3 ==> ADAPTERS[k] in ADAPTER_SET;
      return false;
    }
    FoundAll(s, d);
    return |paths.value| == 4;
  }

  function EntryOf(d: Doc, name: string): Json
    requires HasAdapters(d) && name in ADAPTER_SET + {"base"}
  {
    if name == "base" then Field(d, "model") else Field(d, "adapters").fields[name]
  }

  /** An accepted entry leads to a file below the serving directory that has the recorded digest. */
  lemma AcceptedEntry(s: Serving, d: Doc, name: string)
    requires Accepts(s, d) && name in ADAPTER_SET + {"base"}
    ensures VerifyEntry(s, EntryOf(d, name)).Some?
    ensures var path := VerifyEntry(s, EntryOf(d, name)).value;
      && path in s.tree.files && Under(path, s.root)
      && EntryOf(d, name).Obj? && Field(EntryOf(d, name).fields, "sha256") == Str(s.codec.Sha(s.tree.files[path]))
  {
  }

  /** MAIN RESULT. If one manifest is accepted on two serving trees, each of its four entries has
      the same bytes in both, or two contents with the same digest have been found. */
  lemma SameManifestSameArtifacts(s: Serving, t: Serving, d: Doc, name: string)
    requires s.codec == t.codec && Accepts(s, d) && Accepts(t, d) && name in ADAPTER_SET + {"base"}
    ensures VerifyEntry(s, EntryOf(d, name)).Some? && VerifyEntry(t, EntryOf(d, name)).Some?
    ensures var p, q := VerifyEntry(s, EntryOf(d, name)).value, VerifyEntry(t, EntryOf(d, name)).value;
      && p in s.tree.files && q in t.tree.files
      && (s.tree.files[p] == t.tree.files[q] || s.codec.Collision(s.tree.files[p], t.tree.files[q]))
  {
    hide VerifyEntry, Accepts, EntryOf;
    AcceptedEntry(s, d, name);
    AcceptedEntry(t, d, name);
  }

  /** A relative path without ".." always normalises to a location below the root, as long as
      no link is followed. */
  lemma RelativePathStaysBelow(tree: Tree, root: Path, text: string)
    requires tree.links == map[] && ".." !in root
    requires !Absolute(text) && ".." !in Parts(text)
    ensures Under(Resolve(tree, Below(root, text)), root)
    ensures Resolve(tree, Below(root, text)) == root + Parts(text)
  {
    PlainResolvesToItself(tree, root + Parts(text));
  }

  /** With ".." or with a link the location can leave the root: both later checks are needed. */
  lemma UncheckedPathsCanEscape()
    ensures !Under(Resolve(Tree(map[], map[]), ["srv", "..", "etc"]), ["srv"])
    ensures !Under(Resolve(Tree(map[], map[["srv", "link"] := ["etc"]]), ["srv", "link"]), ["srv"])
  {
    var plain := Tree(map[], map[]);
    assert ["srv", "..", "etc"][..2] == ["srv", ".."] && ["srv", ".."][..1] == ["srv"] && ["srv"][..0] == [];
    assert Resolve(plain, ["srv"]) == ["srv"];
    assert Resolve(plain, ["srv", ".."]) == [];
    assert Resolve(plain, ["srv", "..", "etc"]) == ["etc"];
    assert "srv" != "etc" by { assert "srv"[0] != "etc"[0]; }
    var linked := Tree(map[], map[["srv", "link"] := ["etc"]]);
    assert ["srv", "link"][..1] == ["srv"];
    assert ["srv"] !in linked.links by { assert |["srv"]| != |["srv", "link"]|; }
    assert Resolve(linked, ["srv"]) == ["srv"];
    assert ["srv"] + ["link"] == ["srv", "link"];
    assert Resolve(linked, ["srv", "link"]) == ["etc"];
  }

  // --------------------------------------------------------------- the generator

  datatype Arguments = Arguments(image: string, modelId: string, baseSource: string, adapterSource: string)

  /** `text.strip()` is not empty. */
  predicate NotBlank(text: string) {
    exists i :: 0 <= i < |text| && !IsSpace(text[i])
  }

  predicate AcceptedArguments(a: Arguments) {
    && Pinned(a.image)
    && NotBlank(a.modelId) && !Contains(a.modelId, "REPLACE_")
    && NotBlank(a.baseSource) && !Contains(a.baseSource, "REPLACE_")
    && NotBlank(a.adapterSource) && !Contains(a.adapterSource, "REPLACE_")
  }

  const BASE_PATH: Path := ["models", "base.gguf"]

  function AdapterPath(name: string): Path { ["adapters", name + ".gguf"] }

  function EntryDoc(source: string, path: Path, sha: string): Json {
    Obj(map["source" := Str(source), "path" := Str(Posix(path)), "sha256" := Str(sha)])
  }

  function ModelDoc(a: Arguments, sha: string): Doc {
    map["id" := Str(a.modelId), "source" := Str(a.baseSource), "path" := Str(Posix(BASE_PATH)), "sha256" := Str(sha)]
  }

  function ManifestDoc(a: Arguments, baseSha: string, adapters: map<string, Json>): Doc {
    map["version" := Int(1),
        "llama_cpp_image" := Str(a.image),
        "model" := Obj(ModelDoc(a, baseSha)),
        "adapters" := Obj(adapters)]
  }

  predicate FilesPresent(s: Serving) {
    IsFile(s.tree, s.root + BASE_PATH) && forall name :: name in ADAPTER_SET ==> IsFile(s.tree, s.root + AdapterPath(name))
  }

  function Sha(s: Serving, p: Path): string
    requires IsFile(s.tree, s.root + p)
  {
    s.codec.Sha(Content(s.tree, s.root + p))
  }

  function AdapterDocs(s: Serving, a: Arguments, names: seq<string>): map<string, Json>
    requires forall i :: 0 <= i < |names| ==> IsFile(s.tree, s.root + AdapterPath(names[i]))
  {
    map name | name in names :: EntryDoc(a.adapterSource, AdapterPath(name), Sha(s, AdapterPath(name)))
  }

  const MAKE_ORDER: seq<string> := ["test-gen", "reasoning", "reporting"]

  /** The adapter loop: one entry per artifact, or a refusal at the first that is missing. */
  method MakeAdapters(s: Serving, a: Arguments) returns (adapters: Option<map<string, Json>>)
    ensures adapters.Some? <==> forall k :: 0 <= k < 3 ==> IsFile(s.tree, s.root + AdapterPath(MAKE_ORDER[k]))
    ensures adapters.Some? ==> adapters.value == AdapterDocs(s, a, MAKE_ORDER)
  {
    hide AdapterPath, IsFile, EntryDoc, Sha;
    var grown: map<string, Json> := map[];
    for i := 0 to 3
      invariant forall k :: 0 <= k < i ==> IsFile(s.tree, s.root + AdapterPath(MAKE_ORDER[k]))
      invariant grown == AdapterDocs(s, a, MAKE_ORDER[..i])
    {
      var path := AdapterPath(MAKE_ORDER[i]);
      if !IsFile(s.tree, s.root + path) {
        return None;
      }
      grown := grown[MAKE_ORDER[i] := EntryDoc(a.adapterSource, path, Sha(s, path))];
    }
    assert MAKE_ORDER[..3] == MAKE_ORDER;
    return Some(grown);
  }

  lemma PresentIffInOrder(s: Serving)
    ensures FilesPresent(s) <==>
      (IsFile(s.tree, s.root + BASE_PATH) && forall k :: 0 <= k < 3 ==> IsFile(s.tree, s.root + AdapterPath(MAKE_ORDER[k])))
  {
    hide AdapterPath, IsFile;
    assert MAKE_ORDER[0] == "test-gen" && MAKE_ORDER[1] == "reasoning" && MAKE_ORDER[2] == "reporting";
  }

  /** `make_manifest`: the manifest, or a refusal. */
  method MakeManifest(s: Serving, a: Arguments) returns (manifest: Option<Doc>)
    ensures manifest.Some? <==> AcceptedArguments(a) && FilesPresent(s)
    ensures manifest.Some? ==> manifest == Some(ManifestDoc(a, Sha(s, BASE_PATH), AdapterDocs(s, a, MAKE_ORDER)))
  {
    PresentIffInOrder(s);
    hide AdapterPath, IsFile, FilesPresent, AcceptedArguments, AdapterDocs, ManifestDoc, Sha;
    if !AcceptedArguments(a) {
      return None;
    }
    if !IsFile(s.tree, s.root + BASE_PATH) {
      return None;
    }
    var adapters := MakeAdapters(s, a);
    if adapters.None? {
      return None;
    }
    return Some(ManifestDoc(a, Sha(s, BASE_PATH), adapters.value));
  }

  // ------------------------------------------------------------------ round trip

  /** No links, and names as an operating system allows them. */
  predicate Plain(s: Serving) {
    s.tree.WellFormed() && s.tree.links == map[] && ".." !in s.root
  }

  lemma PresentNamesAreClean(s: Serving, p: Path)
    requires Plain(s) && IsFile(s.tree, s.root + p) && ".." !in p
    ensures Clean(p) && Resolve(s.tree, s.root + p) == s.root + p
  {
    PlainResolvesToItself(s.tree, s.root + p);
    assert forall i :: 0 <= i < |p| ==> p[i] == (s.root + p)[|s.root| + i];
  }

  /** An entry made from a present file is accepted. */
  lemma MadeEntryAccepted(s: Serving, entry: Doc, source: string, p: Path)
    requires Plain(s) && s.codec.Lawful() && IsFile(s.tree, s.root + p) && ".." !in p && p != []
    requires FrozenText(source)
    requires Field(entry, "source") == Str(source) && FieldOr(entry, "path", Str("")) == Str(Posix(p))
    requires Field(entry, "sha256") == Str(Sha(s, p))
    ensures VerifyEntry(s, Obj(entry)) == Some(s.root + p)
  {
    PresentNamesAreClean(s, p);
    PartsOfPosix([], p);
    assert [] + p == p && Parts(Posix(p)) == p;
    assert !Absolute(Posix(p)) by {
      PosixNotAbsolute(p);
    }
    hide Parts, Posix, Absolute, FrozenText, Resolve, Hex64;
  }

  lemma PosixNotAbsolute(p: Path)
    requires Clean(p) && p != []
    ensures !Absolute(Posix(p)) && Parts(Posix(p)) == p
  {
    assert CleanName(p[0]);
    assert Posix(p)[0] == p[0][0];
    SplitJoinParts(p);
  }

  lemma SplitJoinParts(p: Path)
    requires Clean(p) && p != []
    ensures Parts(Posix(p)) == p
  {
    assert forall i :: 0 <= i < |p| ==> CleanName(p[i]);
    SplitJoin(p, '/');
    KeptClean(p);
  }

  /** The four artifact paths are different. */
  lemma ArtifactPathsDiffer(root: Path)
    ensures |{root + BASE_PATH, root + AdapterPath("test-gen"), root + AdapterPath("reasoning"), root + AdapterPath("reporting")}| == 4
  {
    var a, b, c, d := root + BASE_PATH, root + AdapterPath("test-gen"), root + AdapterPath("reasoning"), root + AdapterPath("reporting");
    var n := |root|;
    assert a[n] == "models" && b[n] == c[n] == d[n] == "adapters";
    assert b[n + 1] == "test-gen" + ".gguf" && c[n + 1] == "reasoning" + ".gguf" && d[n + 1] == "reporting" + ".gguf";
    assert b[n + 1][0] == 't' && c[n + 1][2] == 'a' && d[n + 1][2] == 'p' && c[n + 1][0] == d[n + 1][0] == 'r';
    assert "models"[0] != "adapters"[0];
    assert a != b && a != c && a != d && b != c && b != d && c != d;
  }

  lemma NotBlankFrozen(text: string)
    requires NotBlank(text) && !Contains(text, "REPLACE_")
    ensures FrozenText(text)
  {
  }

  lemma ManifestShape(a: Arguments, baseSha: string, adapters: map<string, Json>)
    requires AcceptedArguments(a) && adapters.Keys == ADAPTER_SET
    ensures var d := ManifestDoc(a, baseSha, adapters);
      && WellShaped(d) && HasAdapters(d)
      && Field(d, "model") == Obj(ModelDoc(a, baseSha)) && Field(d, "adapters") == Obj(adapters)
  {
    NotBlankFrozen(a.modelId);
    hide NotBlank, Contains, Pinned, FrozenText;
  }

  lemma AcceptedFromParts(s: Serving, d: Doc, base: Path, t: Path, r: Path, p: Path)
    requires WellShaped(d) && HasAdapters(d)
    requires VerifyEntry(s, Field(d, "model")) == Some(base)
    requires var adapters := Field(d, "adapters").fields;
      && VerifyEntry(s, adapters["test-gen"]) == Some(t)
      && VerifyEntry(s, adapters["reasoning"]) == Some(r)
      && VerifyEntry(s, adapters["reporting"]) == Some(p)
    requires |{base, t, r, p}| == 4
    ensures Accepts(s, d)
  {
    hide VerifyEntry, WellShaped;
    assert Locations(s, d) == {base, t, r, p};
  }

  /** The document the generator makes. */
  function Generated(s: Serving, a: Arguments): Doc
    requires FilesPresent(s)
  {
    AdapterDocsKeys(s, a);
    ManifestDoc(a, Sha(s, BASE_PATH), AdapterDocs(s, a, MAKE_ORDER))
  }

  /** The document itself is accepted. */
  lemma DocumentAccepted(s: Serving, a: Arguments)
    requires Plain(s) && s.codec.Lawful() && AcceptedArguments(a) && FilesPresent(s)
    ensures Accepts(s, Generated(s, a))
  {
    var adapters := AdapterDocs(s, a, MAKE_ORDER);
    NotBlankFrozen(a.baseSource);
    BaseEntryAccepted(s, a);
    AdapterEntryAccepted(s, a, "test-gen");
    AdapterEntryAccepted(s, a, "reasoning");
    AdapterEntryAccepted(s, a, "reporting");
    AdapterDocsKeys(s, a);
    ManifestShape(a, Sha(s, BASE_PATH), adapters);
    ArtifactPathsDiffer(s.root);
    hide VerifyEntry, WellShaped, AdapterPath, AdapterDocs, ModelDoc, ManifestDoc, AcceptedArguments, Accepts, FilesPresent;
    AcceptedFromParts(s, ManifestDoc(a, Sha(s, BASE_PATH), adapters), s.root + BASE_PATH,
      s.root + AdapterPath("test-gen"), s.root + AdapterPath("reasoning"), s.root + AdapterPath("reporting"));
  }

  lemma BaseEntryAccepted(s: Serving, a: Arguments)
    requires Plain(s) && s.codec.Lawful() && AcceptedArguments(a) && FilesPresent(s)
    ensures VerifyEntry(s, Obj(ModelDoc(a, Sha(s, BASE_PATH)))) == Some(s.root + BASE_PATH)
  {
    NotBlankFrozen(a.baseSource);
    hide Pinned, NotBlank, Contains, VerifyEntry, Posix;
    assert ".." != "models" by { assert ".."[0] != "models"[0]; }
    assert ".." != "base.gguf" by { assert ".."[0] != "base.gguf"[0]; }
    MadeEntryAccepted(s, ModelDoc(a, Sha(s, BASE_PATH)), a.baseSource, BASE_PATH);
  }

  lemma AdapterDocsKeys(s: Serving, a: Arguments)
    requires FilesPresent(s)
    ensures forall i :: 0 <= i < |MAKE_ORDER| ==> IsFile(s.tree, s.root + AdapterPath(MAKE_ORDER[i]))
    ensures AdapterDocs(s, a, MAKE_ORDER).Keys == ADAPTER_SET
  {
    hide AdapterPath, IsFile;
    assert MAKE_ORDER[0] == "test-gen" && MAKE_ORDER[1] == "reasoning" && MAKE_ORDER[2] == "reporting";
  }

  lemma AdapterEntryAccepted(s: Serving, a: Arguments, name: string)
    requires Plain(s) && s.codec.Lawful() && AcceptedArguments(a) && FilesPresent(s) && name in ADAPTER_SET
    ensures name in AdapterDocs(s, a, MAKE_ORDER)
    ensures VerifyEntry(s, AdapterDocs(s, a, MAKE_ORDER)[name]) == Some(s.root + AdapterPath(name))
  {
    assert MAKE_ORDER[0] == "test-gen" && MAKE_ORDER[1] == "reasoning" && MAKE_ORDER[2] == "reporting";
    NotBlankFrozen(a.adapterSource);
    var entry := EntryDoc(a.adapterSource, AdapterPath(name), Sha(s, AdapterPath(name))).fields;
    MadeEntryAccepted(s, entry, a.adapterSource, AdapterPath(name));
  }

  // ------------------------------------------------------------ through the file

  const MANIFEST_NAME: Path := ["model-artifacts.json"]

  /** The serving directory after the manifest is written to its default place. */
  function WithManifest(s: Serving, d: Doc): Serving {
    s.(tree := s.tree.(files := s.tree.files[s.root + MANIFEST_NAME := s.codec.Dump(Obj(d))]))
  }

  function StoredManifest(s: Serving): Option<Doc> { ReadObject(s.codec, s.tree, s.root + MANIFEST_NAME) }

  const ARTIFACT_PATHS: seq<Path> := [BASE_PATH, AdapterPath("test-gen"), AdapterPath("reasoning"), AdapterPath("reporting")]

  lemma ArtifactPathsPlain()
    ensures forall k :: 0 <= k < |ARTIFACT_PATHS| ==> |ARTIFACT_PATHS[k]| == 2 && ".." !in ARTIFACT_PATHS[k]
  {
    assert "models"[0] == 'm' && "base.gguf"[0] == 'b' && "adapters"[0] == 'a';
    assert ("test-gen" + ".gguf")[0] == 't' && ("reasoning" + ".gguf")[0] == 'r' && ("reporting" + ".gguf")[0] == 'r';
    assert ".."[0] == '.';
  }

  /** Writing the manifest leaves the artifacts alone. */
  lemma ArtifactStays(s: Serving, d: Doc, p: Path)
    requires Plain(s) && IsFile(s.tree, s.root + p) && |p| == 2 && ".." !in p
    ensures var t := WithManifest(s, d);
      IsFile(t.tree, t.root + p) && Content(t.tree, t.root + p) == Content(s.tree, s.root + p)
  {
    var t := WithManifest(s, d);
    assert |s.root + p| != |s.root + MANIFEST_NAME|;
    PlainResolvesToItself(s.tree, s.root + p);
    PlainResolvesToItself(t.tree, s.root + p);
  }

  lemma ManifestIsPlain(s: Serving, d: Doc)
    requires Plain(s) && FilesPresent(s)
    ensures Plain(WithManifest(s, d))
  {
    assert ".." !in BASE_PATH by { ArtifactPathsPlain(); assert ARTIFACT_PATHS[0] == BASE_PATH; }
    PlainResolvesToItself(s.tree, s.root + BASE_PATH);
    assert Clean(s.root + BASE_PATH);
    assert forall i :: 0 <= i < |s.root| ==> s.root[i] == (s.root + BASE_PATH)[i];
    assert CleanName(MANIFEST_NAME[0]);
    assert Clean(s.root + MANIFEST_NAME);
  }

  lemma ManifestReadsBack(s: Serving, d: Doc)
    requires Plain(s) && s.codec.Lawful() && Exact(Obj(d))
    ensures StoredManifest(WithManifest(s, d)) == Some(d)
  {
    var t := WithManifest(s, d);
    assert ".." !in s.root + MANIFEST_NAME by {
      assert MANIFEST_NAME[0][0] == 'm' && ".."[0] == '.';
    }
    PlainResolvesToItself(t.tree, s.root + MANIFEST_NAME);
  }

  lemma AdapterDocsAreExact(s: Serving, a: Arguments)
    requires forall i :: 0 <= i < |MAKE_ORDER| ==> IsFile(s.tree, s.root + AdapterPath(MAKE_ORDER[i]))
    ensures Exact(Obj(AdapterDocs(s, a, MAKE_ORDER)))
  {
    var adapters := AdapterDocs(s, a, MAKE_ORDER);
    hide AdapterPath, IsFile, Sha, Exact, Posix;
    forall name | name in adapters ensures Exact(adapters[name]) {
      FlatIsExact(adapters[name].fields, {});
    }
    FlatIsExact(adapters, set name | name in adapters :: adapters[name]);
  }

  lemma GeneratedIsExact(s: Serving, a: Arguments)
    requires FilesPresent(s)
    ensures Exact(Obj(Generated(s, a)))
  {
    GeneratedIs(s, a);
    hide AdapterPath, FilesPresent, IsFile, Sha, Exact, Posix, AdapterDocs, Generated;
    AdapterDocsAreExact(s, a);
    FlatIsExact(ModelDoc(a, Sha(s, BASE_PATH)), {});
    hide ModelDoc;
    FlatIsExact(ManifestDoc(a, Sha(s, BASE_PATH), AdapterDocs(s, a, MAKE_ORDER)),
      {Obj(ModelDoc(a, Sha(s, BASE_PATH))), Obj(AdapterDocs(s, a, MAKE_ORDER))});
  }

  /** After the manifest is written the artifacts are there, with the digests they had. */
  lemma ArtifactsStay(s: Serving, d: Doc)
    requires Plain(s) && FilesPresent(s)
    ensures var t := WithManifest(s, d);
      && FilesPresent(t) && Sha(t, BASE_PATH) == Sha(s, BASE_PATH)
      && forall name :: name in ADAPTER_SET ==> Sha(t, AdapterPath(name)) == Sha(s, AdapterPath(name))
  {
    ArtifactPathsPlain();
    assert ARTIFACT_PATHS[0] == BASE_PATH && ARTIFACT_PATHS[1] == AdapterPath("test-gen");
    assert ARTIFACT_PATHS[2] == AdapterPath("reasoning") && ARTIFACT_PATHS[3] == AdapterPath("reporting");
    hide AdapterPath, WithManifest, IsFile, Content, Plain;
    ArtifactStays(s, d, BASE_PATH);
    ArtifactStays(s, d, AdapterPath("test-gen"));
    ArtifactStays(s, d, AdapterPath("reasoning"));
    ArtifactStays(s, d, AdapterPath("reporting"));
    SameRoot(s, d);
  }

  lemma SameAdapterDocs(s: Serving, t: Serving, a: Arguments)
    requires forall i :: 0 <= i < |MAKE_ORDER| ==> IsFile(s.tree, s.root + AdapterPath(MAKE_ORDER[i]))
    requires forall i :: 0 <= i < |MAKE_ORDER| ==> IsFile(t.tree, t.root + AdapterPath(MAKE_ORDER[i]))
    requires forall i :: 0 <= i < |MAKE_ORDER| ==> Sha(t, AdapterPath(MAKE_ORDER[i])) == Sha(s, AdapterPath(MAKE_ORDER[i]))
    ensures AdapterDocs(t, a, MAKE_ORDER) == AdapterDocs(s, a, MAKE_ORDER)
  {
    hide AdapterPath, IsFile, Sha, EntryDoc;
  }

  /** The generator would write the same manifest again. */
  lemma GeneratedStays(s: Serving, a: Arguments, d: Doc)
    requires Plain(s) && FilesPresent(s)
    ensures FilesPresent(WithManifest(s, d)) && Generated(WithManifest(s, d), a) == Generated(s, a)
  {
    var t := WithManifest(s, d);
    ArtifactsStay(s, d);
    GeneratedIs(s, a);
    GeneratedIs(t, a);
    assert MAKE_ORDER[0] == "test-gen" && MAKE_ORDER[1] == "reasoning" && MAKE_ORDER[2] == "reporting";
    hide AdapterPath, WithManifest, IsFile, Sha, Plain, FilesPresent, Generated, AdapterDocs, ManifestDoc;
    SameAdapterDocs(s, t, a);
  }

  lemma SameRoot(s: Serving, d: Doc)
    ensures WithManifest(s, d).root == s.root && WithManifest(s, d).codec == s.codec
  {
  }

  /** MAIN RESULT. For every serving directory with four real artifacts and accepted arguments,
      the manifest that is generated, written to its place and read back passes the verifier on
      the directory that now also holds it. */
  lemma GeneratedManifestAccepted(s: Serving, a: Arguments)
    requires Plain(s) && s.codec.Lawful() && AcceptedArguments(a) && FilesPresent(s)
    ensures var t := WithManifest(s, Generated(s, a));
      StoredManifest(t) == Some(Generated(s, a)) && Accepts(t, Generated(s, a))
  {
    var d := Generated(s, a);
    var t := WithManifest(s, d);
    SameRoot(s, d);
    hide Generated, WithManifest, Exact, Plain, FilesPresent, AcceptedArguments, Codec.Lawful, Accepts;
    GeneratedIsExact(s, a);
    ManifestReadsBack(s, d);
    ManifestIsPlain(s, d);
    GeneratedStays(s, a, d);
    DocumentAccepted(t, a);
  }

  /** MAIN RESULT. What the generator digested is what a later acceptance finds: on any tree with
      the same codec that is accepted with a generated manifest, each artifact has the bytes it
      had when the manifest was made, or a collision has been found. */
  lemma AcceptedServingIsUnchanged(s: Serving, a: Arguments, t: Serving)
    requires Plain(s) && s.codec.Lawful() && AcceptedArguments(a) && FilesPresent(s)
    requires s.codec == t.codec && Accepts(t, Generated(s, a))
    ensures var d := Generated(s, a);
      && VerifyEntry(t, EntryOf(d, "base")).Some?
      && var q := VerifyEntry(t, EntryOf(d, "base")).value;
      && q in t.tree.files && Under(q, t.root)
      && SameOrCollision(s, BASE_PATH, t.tree.files[q])
    ensures var d := Generated(s, a);
      forall name :: name in ADAPTER_SET ==>
        && VerifyEntry(t, EntryOf(d, name)).Some?
        && var q := VerifyEntry(t, EntryOf(d, name)).value;
        && q in t.tree.files && Under(q, t.root)
        && SameOrCollision(s, AdapterPath(name), t.tree.files[q])
  {
    var d := Generated(s, a);
    DocumentAccepted(s, a);
    GeneratedEntries(s, a);
    hide VerifyEntry, Accepts, EntryOf, Generated, AdapterPath, FilesPresent, Plain, AcceptedArguments, Codec.Lawful;
    AcceptedEntry(t, d, "base");
    SameManifestSameArtifacts(s, t, d, "base");
    AtItsPlace(s, BASE_PATH);
    forall name | name in ADAPTER_SET
      ensures VerifyEntry(t, EntryOf(d, name)).Some?
      ensures VerifyEntry(t, EntryOf(d, name)).value in t.tree.files
      ensures Under(VerifyEntry(t, EntryOf(d, name)).value, t.root)
      ensures SameOrCollision(s, AdapterPath(name), t.tree.files[VerifyEntry(t, EntryOf(d, name)).value])
    {
      AcceptedEntry(t, d, name);
      SameManifestSameArtifacts(s, t, d, name);
      AtItsPlace(s, AdapterPath(name));
    }
  }

  /** The artifact's bytes are these, or share a digest with them. */
  predicate SameOrCollision(s: Serving, p: Path, content: Bytes) {
    s.root + p in s.tree.files && (s.tree.files[s.root + p] == content || s.codec.Collision(s.tree.files[s.root + p], content))
  }

  lemma AtItsPlace(s: Serving, p: Path)
    ensures s.root + p in s.tree.files ==> forall content ::
      (s.tree.files[s.root + p] == content || s.codec.Collision(s.tree.files[s.root + p], content)) ==> SameOrCollision(s, p, content)
  {
  }

  lemma EntriesOf(a: Arguments, sha: string, adapters: map<string, Json>, name: string)
    requires adapters.Keys == ADAPTER_SET && name in ADAPTER_SET + {"base"}
    ensures HasAdapters(ManifestDoc(a, sha, adapters))
    ensures EntryOf(ManifestDoc(a, sha, adapters), name) == if name == "base" then Obj(ModelDoc(a, sha)) else adapters[name]
  {
    hide ModelDoc;
  }

  lemma BaseIsNoAdapter()
    ensures "base" !in ADAPTER_SET
  {
  }

  lemma GeneratedAdapterEntry(s: Serving, a: Arguments, name: string)
    requires Plain(s) && s.codec.Lawful() && AcceptedArguments(a) && FilesPresent(s) && name in ADAPTER_SET
    ensures HasAdapters(Generated(s, a))
    ensures VerifyEntry(s, EntryOf(Generated(s, a), name)) == Some(s.root + AdapterPath(name))
  {
    hide VerifyEntry, AdapterPath, AdapterDocs, ModelDoc, ManifestDoc, AcceptedArguments, FilesPresent, Plain, Codec.Lawful, Sha, Generated,
      HasAdapters, EntryOf;
    BaseIsNoAdapter();
    AdapterDocsKeys(s, a);
    GeneratedIs(s, a);
    AdapterEntryAccepted(s, a, name);
    assert IsFile(s.tree, s.root + BASE_PATH) by { PresentIffInOrder(s); }
    hide IsFile;
    EntriesOf(a, Sha(s, BASE_PATH), AdapterDocs(s, a, MAKE_ORDER), name);
  }

  /** On its own tree every generated entry leads to its artifact. */
  lemma GeneratedEntries(s: Serving, a: Arguments)
    requires Plain(s) && s.codec.Lawful() && AcceptedArguments(a) && FilesPresent(s)
    ensures HasAdapters(Generated(s, a))
    ensures VerifyEntry(s, EntryOf(Generated(s, a), "base")) == Some(s.root + BASE_PATH)
    ensures forall name :: name in ADAPTER_SET ==> VerifyEntry(s, EntryOf(Generated(s, a), name)) == Some(s.root + AdapterPath(name))
  {
    AdapterDocsKeys(s, a);
    GeneratedIs(s, a);
    hide VerifyEntry, AdapterPath, AdapterDocs, ModelDoc, ManifestDoc, AcceptedArguments, FilesPresent, Plain, Codec.Lawful, Sha, Generated,
      HasAdapters, EntryOf, IsFile;
    BaseEntryAccepted(s, a);
    EntriesOf(a, Sha(s, BASE_PATH), AdapterDocs(s, a, MAKE_ORDER), "base");
    forall name | name in ADAPTER_SET ensures VerifyEntry(s, EntryOf(Generated(s, a), name)) == Some(s.root + AdapterPath(name)) {
      GeneratedAdapterEntry(s, a, name);
    }
  }

  /** The verifier on the manifest file of a serving directory. */
  method VerifyStored(s: Serving) returns (ok: bool)
    ensures ok <==> StoredManifest(s).Some? && Accepts(s, StoredManifest(s).value)
  {
    if StoredManifest(s).None? {
      return false;
    }
    ok := Verify(s, StoredManifest(s).value);
  }

  /** Generator and verifier, one after the other, through the manifest file: the run ends
      accepted exactly when nothing was refused. A refusal writes nothing. */
  method MakeAndVerify(s: Serving, a: Arguments) returns (ok: bool, after: Serving)
    requires Plain(s) && s.codec.Lawful()
    ensures ok <==> AcceptedArguments(a) && FilesPresent(s)
    ensures after == if ok then WithManifest(s, Generated(s, a)) else s
  {
    hide Generated, WithManifest, Plain, FilesPresent, AcceptedArguments, Codec.Lawful, Accepts, AdapterDocs, ManifestDoc, Sha;
    var manifest := MakeManifest(s, a);
    if manifest.None? {
      return false, s;
    }
    GeneratedManifestAccepted(s, a);
    GeneratedIs(s, a);
    after := WithManifest(s, manifest.value);
    ok := VerifyStored(after);
  }

  lemma GeneratedIs(s: Serving, a: Arguments)
    requires FilesPresent(s)
    ensures (forall i :: 0 <= i < |MAKE_ORDER| ==> IsFile(s.tree, s.root + AdapterPath(MAKE_ORDER[i])))
    ensures Generated(s, a) == ManifestDoc(a, Sha(s, BASE_PATH), AdapterDocs(s, a, MAKE_ORDER))
  {
    AdapterDocsKeys(s, a);
  }

  // --------------------------------------------------------- what is refused

  /** A placeholder was left: the text contains it, or the list or object has it as a member. */
  predicate Placeholder(j: Json) {
    match j
    case Str(s) => Contains(s, "REPLACE_")
    case Arr(items) => Str("REPLACE_") in items
    case Obj(fields) => "REPLACE_" in fields
    case _ => false
  }

  /** An entry's source, digest, path or file is not in order. */
  predicate EntryFaulty(s: Serving, entry: Json) {
    || !entry.Obj?
    || !Field(entry.fields, "source").Str? || |Field(entry.fields, "source").s| == 0 || Placeholder(Field(entry.fields, "source"))
    || !Field(entry.fields, "sha256").Str? || !Hex64(Field(entry.fields, "sha256").s)
    || var text := s.codec.Show(if "path" in entry.fields then entry.fields["path"] else Str(""));
       var place := Resolve(s.tree, s.root + Parts(text));
    || (|text| > 0 && text[0] == '/') || ".." in Parts(text)
    || !(s.root <= place) || place !in s.tree.files
    || s.codec.Sha(s.tree.files[place]) != Field(entry.fields, "sha256").s
  }

  lemma EntryRefusedIff(s: Serving, entry: Json)
    ensures VerifyEntry(s, entry).None? <==> EntryFaulty(s, entry)
    ensures VerifyEntry(s, entry).Some? ==>
      VerifyEntry(s, entry).value == Resolve(s.tree, s.root + Parts(s.codec.Show(FieldOr(entry.fields, "path", Str("")))))
  {
    hide Parts, Resolve, Contains, Hex64;
  }

  /** The entry that is checked under a name: the base model or an adapter. */
  function EntryNamed(d: Doc, name: string): Json {
    if name == "base" then Field(d, "model") else if Field(d, "adapters").Obj? then Field(Field(d, "adapters").fields, name) else Null
  }

  const NAMES: seq<string> := ["base", "reasoning", "reporting", "test-gen"]

  predicate Located(s: Serving, d: Doc, name: string) { VerifyEntry(s, EntryNamed(d, name)).Some? }

  /** Wrong version, an unpinned image, no model object or a placeholder for its id, other adapters
      than the three, a faulty entry, or two entries for one file. */
  predicate ManifestFaulty(s: Serving, d: Doc) {
    || ShapeFaulty(d)
    || !Field(d, "adapters").Obj? || Field(d, "adapters").fields.Keys != {"reasoning", "reporting", "test-gen"}
    || (exists i :: 0 <= i < 4 && EntryFaulty(s, EntryNamed(d, NAMES[i])))
    || exists i, j :: 0 <= i < j < 4 && VerifyEntry(s, EntryNamed(d, NAMES[i])) == VerifyEntry(s, EntryNamed(d, NAMES[j]))
  }

  predicate ShapeFaulty(d: Doc) {
    || !Equal(Int(1), Field(d, "version"))
    || !Field(d, "llama_cpp_image").Str? || !Pinned(Field(d, "llama_cpp_image").s)
    || !Field(d, "model").Obj?
    || IdFaulty(Field(Field(d, "model").fields, "id"))
  }

  predicate IdFaulty(id: Json) { !(id.Str? || id.Arr? || id.Obj?) || !Truthy(id) || Placeholder(id) }

  lemma FourDistinct(a: Path, b: Path, c: Path, d: Path)
    ensures |{a, b, c, d}| == 4 <==> a != b && a != c && a != d && b != c && b != d && c != d
  {
    if a == b {
      assert {a, b, c, d} == {b, c, d};
    } else if a == c {
      assert {a, b, c, d} == {b, c, d};
    } else if a == d {
      assert {a, b, c, d} == {b, c, d};
    } else if b == c {
      assert {a, b, c, d} == {a, c, d};
    } else if b == d {
      assert {a, b, c, d} == {a, c, d};
    } else if c == d {
      assert {a, b, c, d} == {a, b, d};
    }
  }

  lemma LocationsDistinctIff(s: Serving, d: Doc)
    requires HasAdapters(d) && forall i :: 0 <= i < 4 ==> Located(s, d, NAMES[i])
    ensures VerifyEntry(s, Field(d, "model")).Some?
    ensures forall name :: name in ADAPTER_SET ==> VerifyEntry(s, Field(d, "adapters").fields[name]).Some?
    ensures |Locations(s, d)| == 4 <==>
      forall i, j :: 0 <= i < j < 4 ==> VerifyEntry(s, EntryNamed(d, NAMES[i])) != VerifyEntry(s, EntryNamed(d, NAMES[j]))
  {
    hide VerifyEntry;
    assert NAMES[0] == "base" && NAMES[1] == "reasoning" && NAMES[2] == "reporting" && NAMES[3] == "test-gen";
    assert Located(s, d, "base") && Located(s, d, "reasoning") && Located(s, d, "reporting") && Located(s, d, "test-gen");
    var a, b := VerifyEntry(s, EntryNamed(d, "base")).value, VerifyEntry(s, EntryNamed(d, "reasoning")).value;
    var c, t := VerifyEntry(s, EntryNamed(d, "reporting")).value, VerifyEntry(s, EntryNamed(d, "test-gen")).value;
    assert Locations(s, d) == {a, b, c, t};
    FourDistinct(a, b, c, t);
  }

  predicate AllLocated(s: Serving, d: Doc) { forall i :: 0 <= i < 4 ==> Located(s, d, NAMES[i]) }

  lemma AllLocatedIff(s: Serving, d: Doc)
    requires HasAdapters(d)
    ensures AllLocated(s, d) <==>
      VerifyEntry(s, Field(d, "model")).Some? && forall name :: name in ADAPTER_SET ==> VerifyEntry(s, Field(d, "adapters").fields[name]).Some?
    ensures AllLocated(s, d) <==> !exists i :: 0 <= i < 4 && EntryFaulty(s, EntryNamed(d, NAMES[i]))
  {
    forall i | 0 <= i < 4 ensures Located(s, d, NAMES[i]) <==> !EntryFaulty(s, EntryNamed(d, NAMES[i])) {
      EntryRefusedIff(s, EntryNamed(d, NAMES[i]));
    }
    hide VerifyEntry, EntryFaulty;
    assert NAMES[0] == "base" && NAMES[1] == "reasoning" && NAMES[2] == "reporting" && NAMES[3] == "test-gen";
    assert AllLocated(s, d) <==> Located(s, d, "base") && Located(s, d, "reasoning") && Located(s, d, "reporting") && Located(s, d, "test-gen");
  }

  /** MAIN RESULT. The verifier refuses a manifest exactly for one of these faults. */
  lemma RefusedIffFaulty(s: Serving, d: Doc)
    ensures !Accepts(s, d) <==> ManifestFaulty(s, d)
  {
    ShapeIff(d);
    hide VerifyEntry, EntryFaulty, WellShaped, ShapeFaulty, AllLocated, EntryNamed;
    if HasAdapters(d) {
      AllLocatedIff(s, d);
      if AllLocated(s, d) {
        LocatedEach(s, d);
        LocationsDistinctIff(s, d);
      }
    }
    hide Locations, NAMES;
  }

  lemma LocatedEach(s: Serving, d: Doc)
    requires AllLocated(s, d)
    ensures forall i :: 0 <= i < 4 ==> Located(s, d, NAMES[i])
  {
  }

  lemma ShapeIff(d: Doc)
    ensures WellShaped(d) <==> !ShapeFaulty(d)
  {
    hide Pinned, Contains;
  }

  /** A text is blank exactly when stripping leaves nothing. */
  lemma NotBlankIff(text: string)
    ensures NotBlank(text) <==> Strip(text) != ""
  {
    var left, right := StripKeepsMiddle(text);
    var middle := Strip(text);
    if middle != "" {
      assert text[|left|] == middle[0];
    } else {
      assert forall i :: 0 <= i < |text| ==> text[i] == if i < |left| then left[i] else right[i - |left|];
    }
  }

  /** The generator refuses an unpinned image, and a model id or source that is blank or holds a
      placeholder; nothing else. */
  lemma ArgumentsRefusedIff(a: Arguments)
    ensures !AcceptedArguments(a) <==>
      || !Pinned(a.image)
      || exists text :: text in [a.modelId, a.baseSource, a.adapterSource] && (Strip(text) == "" || Contains(text, "REPLACE_"))
  {
    NotBlankIff(a.modelId);
    NotBlankIff(a.baseSource);
    NotBlankIff(a.adapterSource);
    hide NotBlank, Strip, Contains, Pinned;
    assert a.modelId in [a.modelId, a.baseSource, a.adapterSource] && a.baseSource in [a.modelId, a.baseSource, a.adapterSource]
      && a.adapterSource in [a.modelId, a.baseSource, a.adapterSource];
  }

  /** What a generated manifest says, name by name. */
  lemma ManifestSays(s: Serving, a: Arguments, name: string)
    requires FilesPresent(s) && name in {"reasoning", "reporting", "test-gen"}
    ensures IsFile(s.tree, s.root + ["models", "base.gguf"]) && IsFile(s.tree, s.root + ["adapters", name + ".gguf"])
    ensures var d := Generated(s, a);
      && Field(d, "version") == Int(1) && Field(d, "llama_cpp_image") == Str(a.image)
      && Field(d, "model").Obj? && Field(d, "adapters").Obj? && Field(Field(d, "adapters").fields, name).Obj?
      && var model, entry := Field(d, "model").fields, Field(Field(d, "adapters").fields, name).fields;
      && Field(model, "id") == Str(a.modelId) && Field(model, "source") == Str(a.baseSource)
      && Field(model, "path") == Str(Posix(["models", "base.gguf"]))
      && Field(model, "sha256") == Str(Sha(s, ["models", "base.gguf"]))
      && Field(entry, "source") == Str(a.adapterSource) && Field(entry, "path") == Str(Posix(["adapters", name + ".gguf"]))
      && Field(entry, "sha256") == Str(Sha(s, ["adapters", name + ".gguf"]))
  {
    AdapterDocsKeys(s, a);
    assert MAKE_ORDER[0] == "test-gen" && MAKE_ORDER[1] == "reasoning" && MAKE_ORDER[2] == "reporting";
    assert name in MAKE_ORDER;
    hide Posix, Sha, IsFile;
  }
}
