/** Paths in a staged bundle: the files of a directory by their components, names as the file system reads them, and what
    removing or copying a subtree does. */
module ConfigPaths {
  import opened Prelude

  /** A path by its components. */
  type Path = seq<string>

  /** The files of a directory, with their contents by bytes. */
  type Files = map<Path, string>

  /** A component that names one entry of a directory. */
  predicate Ordinary(part: string) { part != "" && part != "." && part != ".." && '/' !in part && '\0' !in part }

  /** The file paths of a directory: ordinary components, and no file is a directory of another. */
  ghost predicate IsTree(paths: set<Path>) {
    && (forall p :: p in paths ==> p != [] && forall i :: 0 <= i < |p| ==> Ordinary(p[i]))
    && (forall p, q :: p in paths && q in paths ==> !Below(p, q))
  }

  /** `p` lies inside the directory `d`. */
  predicate Below(d: Path, p: Path) { |d| < |p| && p[..|d|] == d }

  predicate IsDir(files: Files, d: Path) { exists p :: p in files && Below(d, p) }

  predicate Exists(files: Files, d: Path) { d in files || IsDir(files, d) }

  /** The files that are left when the directory `d` is removed with everything in it. */
  function Without(files: Files, d: Path): Files { map p | p in files && !Below(d, p) :: files[p] }

  /** The files after a source directory is copied to `d`. */
  function With(files: Files, d: Path, tree: Files): Files {
    map p | p in files.Keys + Copied(d, tree) :: if d <= p && p[|d|..] in tree then tree[p[|d|..]] else files[p]
  }

  /** Where the files of a source directory go. */
  function Copied(d: Path, tree: Files): (paths: set<Path>)
    ensures forall p :: p in paths <==> d <= p && p[|d|..] in tree
  {
    var paths := set rest | rest in tree :: d + rest;
    assert forall p :: d <= p ==> d + p[|d|..] == p;
    assert forall rest: Path :: (d + rest)[|d|..] == rest;
    paths
  }

  lemma WithAt(files: Files, d: Path, tree: Files, p: Path)
    ensures p in With(files, d, tree) <==> p in files || (d <= p && p[|d|..] in tree)
    ensures p in With(files, d, tree) ==>
      With(files, d, tree)[p] == if d <= p && p[|d|..] in tree then tree[p[|d|..]] else files[p]
  {
  }

  /** What lies inside an entry of a directory carries the entry's name at that place. */
  lemma EntryName(d: Path, name: string, p: Path)
    requires Below(d + [name], p)
    ensures |d| < |p| && p[|d|] == name
  {
    assert p[|d|] == p[..|d| + 1][|d|];
  }

  // ------------------------------------------------------------------ names

  /** The pieces of a text between its slashes. */
  function Split(s: string): (pieces: seq<string>)
    ensures |pieces| >= 1
  {
    if s == "" then [""]
    else
      var rest := Split(s[1..]);
      if s[0] == '/' then [""] + rest else [[s[0]] + rest[0]] + rest[1..]
  }

  function Meaningful(pieces: seq<string>): seq<string> {
    if pieces == [] then []
    else (if pieces[0] in {"", "."} then [] else [pieces[0]]) + Meaningful(pieces[1..])
  }

  /** A name as a relative path: empty pieces and `.` say nothing, `..` is kept. */
  function Parts(name: string): seq<string> { Meaningful(Split(name)) }

  predicate Absolute(name: string) { name != "" && name[0] == '/' }

  lemma {:induction false} SplitPlain(s: string)
    requires '/' !in s
    ensures Split(s) == [s]
  {
    if s != "" {
      SplitPlain(s[1..]);
      assert [s[0]] + s[1..] == s;
    }
  }

  lemma {:induction false} SplitFirst(a: string, b: string)
    requires '/' !in a
    ensures Split(a + "/" + b) == [a] + Split(b)
  {
    var whole := a + "/" + b;
    if a == "" {
      assert whole[0] == '/' && whole[1..] == b;
    } else {
      SplitFirst(a[1..], b);
      assert whole[0] == a[0] && whole[1..] == a[1..] + "/" + b;
      assert [a[0]] + a[1..] == a;
      assert ([a[1..]] + Split(b))[1..] == Split(b);
    }
  }

  /** An ordinary component is its own path. */
  lemma OrdinaryParts(name: string)
    requires Ordinary(name)
    ensures Parts(name) == [name] && !Absolute(name)
  {
    SplitPlain(name);
    assert [name][1..] == [];
    assert Meaningful([]) == [];
    assert [name] + [] == [name];
  }

  lemma PartsFirst(a: string, b: string)
    requires '/' !in a && a != "" && a != "."
    ensures Parts(a + "/" + b) == [a] + Parts(b) && !Absolute(a + "/" + b)
  {
    SplitFirst(a, b);
    assert ([a] + Split(b))[1..] == Split(b);
    assert (a + "/" + b)[0] == a[0];
  }

  // ------------------------------------------------------------------ walking a path

  /** Where a path leads: a place and the directories it passes, nowhere, or out of the directory it started in. */
  datatype Place = At(path: Path, passed: set<Path>) | Missing | Left

  function Walk(files: Files, at: Path, parts: seq<string>, passed: set<Path>): Place
    decreases |parts|
  {
    if parts == [] then At(at, passed)
    else if parts[0] == ".." then
      if at == [] then Left else Walk(files, at[..|at| - 1], parts[1..], passed + {at})
    else if |parts| == 1 || IsDir(files, at + [parts[0]]) then Walk(files, at + [parts[0]], parts[1..], passed + {at})
    else Missing
  }

  /** `rmtree` empties the directory and then removes it by the path it was given, which must still lead there. */
  predicate Removable(files: Files, place: Place) {
    place.At? && IsDir(files, place.path) && forall d :: d in place.passed ==> !Below(place.path, d)
  }

  lemma WalkOne(files: Files, at: Path, part: string)
    requires part != ".."
    ensures Walk(files, at, [part], {}) == At(at + [part], {at})
  {
    assert [part][1..] == [] && {} + {at} == {at};
  }

  lemma WalkTwo(files: Files, at: Path, a: string, b: string)
    requires a != ".." && b != ".."
    ensures Walk(files, at, [a, b], {}) ==
      if IsDir(files, at + [a]) then At(at + [a] + [b], {at, at + [a]}) else Missing
  {
    assert [a, b][1..] == [b] && [b][1..] == [];
    assert {} + {at} == {at} && {at} + {at + [a]} == {at, at + [a]};
    if IsDir(files, at + [a]) { assert Walk(files, at + [a], [b], {at}) == Walk(files, at + [a] + [b], [], {at, at + [a]}); }
  }
}
