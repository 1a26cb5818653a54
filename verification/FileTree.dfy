/** A directory tree with symbolic links, path texts, and the file formats read from it. */
module FileTree {
  import opened Wrappers
  import opened Json
  import opened Text

  type Byte = n: nat | n < 256
  type Bytes = seq<Byte>

  /** An absolute path as its components. */
  type Path = seq<string>

  /** Regular files, and links with the fully resolved location they lead to. */
  datatype Tree = Tree(files: map<Path, Bytes>, links: map<Path, Path>) {
    /** Components as an operating system allows them in a file's path. */
    predicate WellFormed() {
      forall p :: p in files ==> Clean(p)
    }
  }

  predicate CleanName(name: string) {
    name != "" && name != "." && name != ".." && '/' !in name
  }

  predicate Clean(p: Path) {
    forall i :: 0 <= i < |p| ==> CleanName(p[i])
  }

  /** The resolved location: links followed, ".." steps up. */
  function Resolve(tree: Tree, p: Path): Path {
    if p == [] then []
    else
      var base, last := Resolve(tree, p[..|p| - 1]), p[|p| - 1];
      if last == ".." then (if base == [] then [] else base[..|base| - 1])
      else if base + [last] in tree.links then tree.links[base + [last]]
      else base + [last]
  }

  predicate IsFile(tree: Tree, p: Path) { Resolve(tree, p) in tree.files }

  function Content(tree: Tree, p: Path): Bytes
    requires IsFile(tree, p)
  {
    tree.files[Resolve(tree, p)]
  }

  predicate IsSymlink(tree: Tree, p: Path) {
    p != [] && p[|p| - 1] != ".." && Resolve(tree, p[..|p| - 1]) + [p[|p| - 1]] in tree.links
  }

  /** `path.is_relative_to(root)`. */
  predicate Under(p: Path, root: Path) { root <= p }

  /** Without links and "..", a path is its own location. */
  lemma {:induction false} PlainResolvesToItself(tree: Tree, p: Path)
    requires tree.links == map[] && ".." !in p
    ensures Resolve(tree, p) == p
  {
    if p != [] {
      PlainResolvesToItself(tree, p[..|p| - 1]);
      assert p[..|p| - 1] + [p[|p| - 1]] == p;
    }
  }

  // -------------------------------------------------------------- path texts

  function Posix(p: Path): string { Join(p, '/') }

  predicate Absolute(text: string) { text != "" && text[0] == '/' }

  function Kept(names: seq<string>): Path {
    if names == [] then []
    else (if names[0] in {"", "."} then [] else [names[0]]) + Kept(names[1..])
  }

  /** The components of a path text; empty and "." components vanish. */
  function Parts(text: string): Path { Kept(Split(text, '/')) }

  /** `root / text`. */
  function Below(root: Path, text: string): Path {
    if Absolute(text) then Parts(text) else root + Parts(text)
  }

  lemma {:induction false} KeptClean(p: Path)
    requires Clean(p)
    ensures Kept(p) == p
  {
    if p != [] {
      assert CleanName(p[0]);
      assert forall i :: 0 <= i < |p[1..]| ==> p[1..][i] == p[i + 1];
      KeptClean(p[1..]);
    }
  }

  /** Writing a clean path and reading it back gives the path. */
  lemma PartsOfPosix(root: Path, p: Path)
    requires Clean(p) && p != []
    ensures Below(root, Posix(p)) == root + p
  {
    assert forall i :: 0 <= i < |p| ==> CleanName(p[i]);
    SplitJoin(p, '/');
    KeptClean(p);
    assert CleanName(p[0]);
    assert Posix(p)[0] == p[0][0];
  }

  /** Different clean paths have different texts. */
  lemma PosixInjective(p: Path, q: Path)
    requires Clean(p) && Clean(q) && p != [] && q != [] && Posix(p) == Posix(q)
    ensures p == q
  {
    PartsOfPosix([], p);
    PartsOfPosix([], q);
    assert [] + p == p && [] + q == q;
  }

  // ------------------------------------------------------------ file formats

  /** Digests, JSON text and plain text, as the standard library supplies them. */
  datatype Codec = Codec(
    shaFn: Bytes -> string,
    parseFn: Bytes -> Option<Json>,
    dumpFn: Json -> Bytes,
    textFn: Bytes -> Option<string>,
    encodeFn: string -> Bytes,
    floatFn: string -> Option<real>,
    intFn: string -> Option<int>,
    reprFn: Json -> string)
  {
    function Sha(b: Bytes): string { shaFn(b) }

    function Parse(b: Bytes): Option<Json> { parseFn(b) }

    function Dump(j: Json): Bytes { dumpFn(j) }

    /** Decoded, with surrounding white space stripped. */
    function Text(b: Bytes): Option<string> { textFn(b) }

    /** The bytes of a text. */
    function Encode(s: string): Bytes { encodeFn(s) }

    /** `str(value)`. */
    function Show(j: Json): string { if j.Str? then j.s else reprFn(j) }

    /** The finite number a text spells. */
    function ParseFloat(s: string): Option<real> { floatFn(s) }

    /** The integer a text spells. */
    function ParseInt(s: string): Option<int> { intFn(s) }

    ghost predicate Lawful() {
      && (forall j :: Exact(j) ==> Parse(Dump(j)) == Some(j))
      && (forall j :: Dump(j) != [])
      && (forall s :: Stripped(s) ==> Text(Encode(s)) == Some(s))
      && (forall s :: s != "" ==> Encode(s) != [])
      && (forall b :: Hex64(Sha(b)))
    }

    /** Two different contents with the same digest. */
    predicate Collision(a: Bytes, b: Bytes) { a != b && Sha(a) == Sha(b) }
  }

  /** The JSON object a file holds, if it holds one. */
  function ReadObject(codec: Codec, tree: Tree, p: Path): Option<map<string, Json>> {
    if !IsFile(tree, p) then None
    else
      match codec.Parse(Content(tree, p))
      case Some(Obj(fields)) => Some(fields)
      case _ => None
  }

  function ReadText(codec: Codec, tree: Tree, p: Path): Option<string> {
    if IsFile(tree, p) then codec.Text(Content(tree, p)) else None
  }

  predicate NonEmptyFile(tree: Tree, p: Path) { IsFile(tree, p) && Content(tree, p) != [] }

  // ------------------------------------------------------------ what these mean

  /** One more component: ".." steps up from the resolved location, a link leads to its target, and
      any other name is appended. */
  lemma ResolveStep(tree: Tree, p: Path, name: string)
    ensures Resolve(tree, []) == []
    ensures var base := Resolve(tree, p);
      && (name == ".." && base != [] ==> Resolve(tree, p + [name]) + [base[|base| - 1]] == base)
      && (name == ".." && base == [] ==> Resolve(tree, p + [name]) == [])
      && (name != ".." && base + [name] in tree.links ==> Resolve(tree, p + [name]) == tree.links[base + [name]])
      && (name != ".." && base + [name] !in tree.links ==> Resolve(tree, p + [name]) == base + [name])
    ensures IsSymlink(tree, p + [name]) <==> name != ".." && Resolve(tree, p) + [name] in tree.links
    ensures !IsSymlink(tree, [])
  {
    assert (p + [name])[..|p + [name]| - 1] == p;
  }

  /** Path texts: empty and "." components vanish, the others keep their order. */
  lemma {:induction false} KeptAdds(a: seq<string>, b: seq<string>)
    ensures Kept(a + b) == Kept(a) + Kept(b)
  {
    if a == [] {
      assert a + b == b;
    } else {
      assert (a + b)[1..] == a[1..] + b;
      KeptAdds(a[1..], b);
      var first := if a[0] in {"", "."} then [] else [a[0]];
      assert first + (Kept(a[1..]) + Kept(b)) == first + Kept(a[1..]) + Kept(b);
    }
  }

  lemma KeptOfOne(name: string)
    ensures Kept([name]) == if name == "" || name == "." then [] else [name]
  {
    assert [name][1..] == [];
  }

  /** An absolute text replaces the root, a relative one goes below it. */
  lemma BelowIs(root: Path, text: string)
    ensures Below(root, "/" + text) == Parts("/" + text)
    ensures text != "" && text[0] != '/' ==> Below(root, text) == root + Parts(text)
    ensures Below(root, "") == root
  {
    assert Split("", '/') == [""];
    KeptOfOne("");
    assert root + [] == root;
  }

  /** A file is read as an object exactly when it is there and its text is one. */
  lemma ReadObjectIff(codec: Codec, tree: Tree, p: Path, d: map<string, Json>)
    ensures ReadObject(codec, tree, p) == Some(d) <==> Resolve(tree, p) in tree.files && codec.Parse(tree.files[Resolve(tree, p)]) == Some(Obj(d))
    ensures NonEmptyFile(tree, p) <==> Resolve(tree, p) in tree.files && |tree.files[Resolve(tree, p)]| > 0
  {
  }
}
