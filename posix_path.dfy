/** The parts of Node's POSIX `path` module the program uses: `normalize`
    (through `join` and `resolve`), `join`, `resolve` and `basename`. A path
    is split at `/` into segments; `normalizeString` walks the segments left
    to right, dropping empty and `.` segments and letting `..` remove the
    segment before it. */
module PosixPath {
  import opened JsStrings

  /** A segment `normalizeString` keeps: not empty, not `.`, without a separator. */
  predicate IsSegment(s: string)
  {
    s != "" && s != "." && '/' !in s
  }

  /** A directory-entry name: a kept segment that is not `..` either. */
  predicate IsPlainName(n: string)
  {
    IsSegment(n) && n != ".."
  }

  /** One segment of `normalizeString`: `..` removes the last kept segment
      unless that is itself `..`; with nothing to remove it is kept only when
      the path may go above its root (a relative path). */
  function Push(kept: seq<string>, segment: string, allowAboveRoot: bool): seq<string>
  {
    if segment == "" || segment == "." then kept
    else if segment == ".." then
      if |kept| > 0 && kept[|kept| - 1] != ".." then kept[..|kept| - 1]
      else if allowAboveRoot then kept + [".."]
      else kept
    else kept + [segment]
  }

  /** The segments `normalizeString` keeps, starting from `kept`. */
  function Fold(kept: seq<string>, segments: seq<string>, allowAboveRoot: bool): (r: seq<string>)
    ensures (forall i :: 0 <= i < |kept| ==> IsSegment(kept[i])) &&
            (forall i :: 0 <= i < |segments| ==> '/' !in segments[i]) ==>
            forall i :: 0 <= i < |r| ==> IsSegment(r[i])
    ensures !allowAboveRoot && (forall i :: 0 <= i < |kept| ==> kept[i] != "..") ==>
            forall i :: 0 <= i < |r| ==> r[i] != ".."
    decreases |segments|
  {
    if segments == [] then kept else Fold(Push(kept, segments[0], allowAboveRoot), segments[1..], allowAboveRoot)
  }

  /** `normalizeString(path, allowAboveRoot)`, as its list of segments. */
  function NormalizeString(path: string, allowAboveRoot: bool): (segments: seq<string>)
    ensures forall i :: 0 <= i < |segments| ==> IsSegment(segments[i])
    ensures !allowAboveRoot ==> forall i :: 0 <= i < |segments| ==> segments[i] != ".."
  {
    SplitPiecesLack(path, '/');
    Fold([], Split(path, '/'), allowAboveRoot)
  }

  /** `path.normalize(p)`. */
  function Normalize(p: string): (r: string)
    ensures r != ""
    ensures p != "" && p[0] == '/' ==> r[0] == '/'
  {
    if p == "" then "."
    else
      var isAbsolute := p[0] == '/';
      var trailingSeparator := p[|p| - 1] == '/';
      var segments := NormalizeString(p, !isAbsolute);
      if segments == [] then
        if isAbsolute then "/" else if trailingSeparator then "./" else "."
      else
        (if isAbsolute then "/" else "") + Join(segments, "/") + (if trailingSeparator then "/" else "")
  }

  /** `path.join(a, b)`: the non-empty arguments joined by `/`, normalized. */
  function JoinPath(a: string, b: string): string
  {
    if a == "" && b == "" then "."
    else if a == "" then Normalize(b)
    else if b == "" then Normalize(a)
    else Normalize(a + "/" + b)
  }

  /** `path.resolve(a, b)` with `cwd` the working directory: arguments are
      prepended right to left until one is absolute, then normalized. */
  function Resolve(cwd: string, a: string, b: string): (r: string)
    ensures cwd != "" && cwd[0] == '/' ==> |r| > 0 && r[0] == '/'
  {
    var fromB := if b == "" then "" else b + "/";
    var absB := b != "" && b[0] == '/';
    var fromA := if absB || a == "" then fromB else a + "/" + fromB;
    var absA := absB || (a != "" && a[0] == '/');
    var path := if absA || cwd == "" then fromA else cwd + "/" + fromA;
    var absolute := absA || (cwd != "" && cwd[0] == '/');
    var segments := NormalizeString(path, !absolute);
    if absolute then "/" + Join(segments, "/")
    else if segments == [] then "."
    else Join(segments, "/")
  }

  /** The last non-empty piece, or `""`. */
  function LastNonEmpty(pieces: seq<string>): (r: string)
    ensures r == "" || r in pieces
  {
    if pieces == [] then ""
    else if pieces[|pieces| - 1] != "" then pieces[|pieces| - 1]
    else LastNonEmpty(pieces[..|pieces| - 1])
  }

  /** `path.basename(p)`: the last segment, trailing separators ignored. */
  function Basename(p: string): (r: string)
    ensures '/' !in r
  {
    SplitPiecesLack(p, '/');
    LastNonEmpty(Split(p, '/'))
  }

  /** The canonical absolute path of a list of directory names. */
  function AbsPath(names: seq<string>): string
  {
    "/" + Join(names, "/")
  }

  predicate AllPlain(names: seq<string>)
  {
    forall i :: 0 <= i < |names| ==> IsPlainName(names[i])
  }

  /** Plain names are all kept, in order. */
  lemma {:induction false} FoldPlain(kept: seq<string>, names: seq<string>, allowAboveRoot: bool)
    requires AllPlain(names)
    ensures Fold(kept, names, allowAboveRoot) == kept + names
    decreases |names|
  {
    if names != [] {
      var name, rest := names[0], names[1..];
      assert AllPlain(rest) by {
        forall i | 0 <= i < |rest| ensures IsPlainName(rest[i]) {
          assert rest[i] == names[i + 1];
        }
      }
      assert Fold(kept, names, allowAboveRoot) == Fold(kept + [name], rest, allowAboveRoot) by {
        assert IsPlainName(names[0]);
        assert Push(kept, name, allowAboveRoot) == kept + [name];
      }
      FoldPlain(kept + [name], rest, allowAboveRoot);
      assert kept + [name] + rest == kept + names;
    }
  }

  /** Folding a concatenation folds one part after the other. */
  lemma {:induction false} FoldAppend(kept: seq<string>, a: seq<string>, b: seq<string>, allowAboveRoot: bool)
    ensures Fold(kept, a + b, allowAboveRoot) == Fold(Fold(kept, a, allowAboveRoot), b, allowAboveRoot)
    decreases |a|
  {
    if a == [] {
      assert a + b == b;
    } else {
      assert (a + b)[0] == a[0];
      assert (a + b)[1..] == a[1..] + b;
      FoldAppend(Push(kept, a[0], allowAboveRoot), a[1..], b, allowAboveRoot);
    }
  }

  /** A canonical absolute path splits into an empty piece and its names
      (the root into two empty pieces). */
  lemma SplitAbsPath(names: seq<string>)
    requires AllPlain(names)
    ensures names == [] ==> Split(AbsPath(names), '/') == ["", ""]
    ensures names != [] ==> Split(AbsPath(names), '/') == [""] + names
  {
    if names == [] {
      assert AbsPath(names) == [] + ['/'] + [];
      SplitConcat([], [], '/');
    } else {
      SplitJoin(names, '/');
      assert AbsPath(names) == [] + ['/'] + Join(names, "/");
      SplitConcat([], Join(names, "/"), '/');
    }
  }

  /** Normalizing a canonical absolute path keeps exactly its names. */
  lemma NormalizeAbsPath(names: seq<string>, allowAboveRoot: bool)
    requires AllPlain(names)
    ensures NormalizeString(AbsPath(names), allowAboveRoot) == names
  {
    SplitAbsPath(names);
    if names == [] {
      assert Fold([], ["", ""], allowAboveRoot) == [];
    } else {
      FoldAppend([], [""], names, allowAboveRoot);
      FoldPlain([], names, allowAboveRoot);
    }
  }

  /** `path.join(dir, name)` descends: joining a plain name onto a canonical
      absolute path appends the name. */
  lemma JoinChild(names: seq<string>, name: string)
    requires AllPlain(names) && IsPlainName(name)
    ensures JoinPath(AbsPath(names), name) == AbsPath(names + [name])
  {
    var dir := AbsPath(names);
    var joined := dir + "/" + name;
    assert joined == dir + ['/'] + name;
    assert joined[0] == '/' && joined[|joined| - 1] != '/';
    SplitConcat(dir, name, '/');
    SplitWithout(name, '/');
    assert Split(joined, '/') == Split(dir, '/') + [name];
    NormalizeAbsPath(names, false);
    FoldAppend([], Split(dir, '/'), [name], false);
    assert NormalizeString(joined, false) == names + [name];
    assert JoinPath(dir, name) == "/" + Join(names + [name], "/");
  }

  /** The end of `path.resolve(dir, "..")` for an absolute `dir`. */
  lemma ResolveParentPath(cwd: string, dir: string)
    requires dir != "" && dir[0] == '/'
    ensures Resolve(cwd, dir, "..") == "/" + Join(Fold(NormalizeString(dir, false), ["..", ""], false), "/")
  {
    var path := dir + "/" + "../";
    assert Resolve(cwd, dir, "..") == "/" + Join(NormalizeString(path, false), "/") by {
      assert ".." + "/" == "../";
    }
    assert Split(path, '/') == Split(dir, '/') + ["..", ""] by {
      SplitParentSuffix(dir);
    }
    FoldAppend([], Split(dir, '/'), ["..", ""], false);
  }

  /** Splitting `dir + "/../"` adds a `..` piece and an empty one. */
  lemma SplitParentSuffix(dir: string)
    ensures Split(dir + "/" + "../", '/') == Split(dir, '/') + ["..", ""]
  {
    assert dir + "/" + "../" == dir + ['/'] + "../";
    SplitConcat(dir, "../", '/');
    assert Split("../", '/') == ["..", ""] by {
      assert "../" == ".." + ['/'] + "";
      SplitConcat("..", "", '/');
      SplitWithout("..", '/');
      assert Split("", '/') == [""];
    }
  }

  /** `path.resolve(dir, "..")` ascends: the parent of a canonical absolute
      path is the path without its last name, whatever the working directory. */
  lemma ResolveParentOfChild(cwd: string, names: seq<string>, name: string)
    requires AllPlain(names) && IsPlainName(name)
    ensures Resolve(cwd, AbsPath(names + [name]), "..") == AbsPath(names)
  {
    ResolveParentPath(cwd, AbsPath(names + [name]));
    NormalizeAbsPath(names + [name], false);
    assert Push(names + [name], "..", false) == names;
  }

  /** The root is its own parent. */
  lemma ResolveParentOfRoot(cwd: string)
    ensures Resolve(cwd, "/", "..") == "/"
  {
    ResolveParentPath(cwd, "/");
    assert AbsPath([]) == "/";
    NormalizeAbsPath([], false);
  }

  /** `path.basename` of a path ending in a plain name is that name. */
  lemma BasenameOfChild(names: seq<string>, name: string)
    requires AllPlain(names) && IsPlainName(name)
    ensures Basename(AbsPath(names + [name])) == name
  {
    SplitAbsPath(names + [name]);
  }
}
