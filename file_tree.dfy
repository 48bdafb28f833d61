/**
  The part of Node's `fs` module that the two scripts use, over an abstract
  directory tree. A file holds either text or, for the manifests the scripts
  write with `JSON.stringify` and read with `JSON.parse`, the JSON value
  itself. Paths are sequences of entry names below the repository root.
*/
module FileTree {
  import opened Wrappers

  /** A JSON value; objects are string-keyed maps (key order is not modelled). */
  datatype Json =
    | JNull
    | JBool(b: bool)
    | JNumber(n: int)
    | JString(s: string)
    | JArray(items: seq<Json>)
    | JObject(fields: map<string, Json>)

  /** The content of a file: a JSON document, or any other text. */
  datatype Content = Text(text: string) | Data(value: Json)

  datatype Node = File(content: Content) | Dir(children: map<string, Node>)

  type Path = seq<string>

  const EmptyDir: Node := Dir(map[])

  /** The entry at `p`, if there is one. */
  function Lookup(n: Node, p: Path): Option<Node>
    decreases p
  {
    if p == [] then Some(n)
    else match n
      case File(_) => None
      case Dir(ch) => if p[0] in ch then Lookup(ch[p[0]], p[1..]) else None
  }

  predicate Exists(n: Node, p: Path) {
    Lookup(n, p).Some?
  }

  predicate IsDirAt(n: Node, p: Path) {
    Lookup(n, p).Some? && Lookup(n, p).value.Dir?
  }

  predicate IsFileAt(n: Node, p: Path) {
    Lookup(n, p).Some? && Lookup(n, p).value.File?
  }

  /** No proper prefix of `p` is a file, so the directories leading to `p`
      exist or can be created (`mkdir -p` of the parent succeeds). */
  predicate Creatable(n: Node, p: Path)
    decreases p
  {
    p == [] || (n.Dir? && (p[0] in n.children ==> Creatable(n.children[p[0]], p[1..])))
  }

  /** Place `x` at `p`, creating the missing directories on the way and
      replacing whatever was at `p`; nothing happens where a file blocks the
      way. */
  function Put(n: Node, p: Path, x: Node): Node
    decreases p
  {
    if p == [] then x
    else match n
      case File(_) => n
      case Dir(ch) => Dir(ch[p[0] := Put(if p[0] in ch then ch[p[0]] else EmptyDir, p[1..], x)])
  }

  /** What is at `p`, an empty directory when nothing is. */
  function Below(n: Node, p: Path): Node {
    match Lookup(n, p)
    case Some(m) => m
    case None => EmptyDir
  }

  function Parent(p: Path): Path
    requires p != []
  {
    p[..|p| - 1]
  }

  lemma {:induction false} CreatableInEmpty(p: Path)
    ensures Creatable(EmptyDir, p)
  {
    if p != [] {
      CreatableInEmpty(p[1..]);
    }
  }

  /** After a put, the entry is found where it was put. */
  lemma {:induction false} LookupPut(n: Node, p: Path, x: Node)
    requires Creatable(n, p)
    ensures Lookup(Put(n, p, x), p) == Some(x)
    decreases p
  {
    if p != [] {
      var ch := n.children;
      var c := if p[0] in ch then ch[p[0]] else EmptyDir;
      if p[0] !in ch { CreatableInEmpty(p[1..]); }
      LookupPut(c, p[1..], x);
    }
  }

  /** A put changes nothing at a path that is neither above nor below the
      path it writes. */
  lemma {:induction false} LookupPutElsewhere(n: Node, p: Path, q: Path, x: Node)
    requires Creatable(n, p)
    requires !(p <= q) && !(q <= p)
    ensures Lookup(Put(n, p, x), q) == Lookup(n, q)
    decreases p
  {
    var ch := n.children;
    var c := if p[0] in ch then ch[p[0]] else EmptyDir;
    if p[0] == q[0] {
      if p[0] !in ch { CreatableInEmpty(p[1..]); }
      LookupPutElsewhere(c, p[1..], q[1..], x);
      if p[0] !in ch {
        LookupEmpty(q[1..]);
      }
    }
  }

  lemma LookupEmpty(q: Path)
    requires q != []
    ensures Lookup(EmptyDir, q) == None
  {
  }

  /** Every directory above a put path is a directory afterwards. */
  lemma {:induction false} LookupPutAbove(n: Node, p: Path, q: Path, x: Node)
    requires Creatable(n, p)
    requires q < p
    ensures IsDirAt(Put(n, p, x), q)
    decreases p
  {
    if q != [] {
      var ch := n.children;
      var c := if p[0] in ch then ch[p[0]] else EmptyDir;
      if p[0] !in ch { CreatableInEmpty(p[1..]); }
      LookupPutAbove(c, p[1..], q[1..], x);
    }
  }

  /** Putting below `p` is putting a changed subtree at `p`. */
  lemma {:induction false} PutSplit(n: Node, p: Path, q: Path, x: Node)
    requires Creatable(n, p)
    ensures Put(n, p + q, x) == Put(n, p, Put(Below(n, p), q, x))
    decreases p
  {
    if p == [] {
      assert p + q == q;
    } else {
      var ch := n.children;
      var c := if p[0] in ch then ch[p[0]] else EmptyDir;
      if p[0] !in ch { CreatableInEmpty(p[1..]); }
      PutSplit(c, p[1..], q, x);
      assert (p + q)[0] == p[0] && (p + q)[1..] == p[1..] + q;
      if p[0] !in ch && p[1..] != [] {
        LookupEmpty(p[1..]);
      }
      assert Below(c, p[1..]) == Below(n, p);
    }
  }

  /** A second put at the same path overrides the first. */
  lemma {:induction false} PutTwice(n: Node, p: Path, a: Node, b: Node)
    requires Creatable(n, p)
    ensures Put(Put(n, p, a), p, b) == Put(n, p, b)
    decreases p
  {
    if p != [] {
      var ch := n.children;
      var c := if p[0] in ch then ch[p[0]] else EmptyDir;
      if p[0] !in ch { CreatableInEmpty(p[1..]); }
      PutTwice(c, p[1..], a, b);
    }
  }

  /** A put leaves the way to its own path open. */
  lemma {:induction false} CreatablePut(n: Node, p: Path, x: Node)
    requires Creatable(n, p)
    ensures Creatable(Put(n, p, x), p)
    decreases p
  {
    if p != [] {
      var ch := n.children;
      var c := if p[0] in ch then ch[p[0]] else EmptyDir;
      if p[0] !in ch { CreatableInEmpty(p[1..]); }
      CreatablePut(c, p[1..], x);
    }
  }

  /** Writing below a subtree just put is writing inside that subtree first:
      the rule that lets a sequence of writes under one new directory be read
      as building that directory's tree. */
  lemma PutPut(n: Node, p: Path, q: Path, t: Node, x: Node)
    requires Creatable(n, p)
    ensures Put(Put(n, p, t), p + q, x) == Put(n, p, Put(t, q, x))
  {
    CreatablePut(n, p, t);
    PutSplit(Put(n, p, t), p, q, x);
    LookupPut(n, p, t);
    PutTwice(n, p, t, Put(t, q, x));
  }

  /** The way to `p + [a]` is open exactly when the way to `p` is and `p` is
      a directory or absent. */
  lemma {:induction false} CreatableChild(n: Node, p: Path, a: string)
    ensures Creatable(n, p + [a]) <==> Creatable(n, p) && (!Exists(n, p) || IsDirAt(n, p))
  {
    if p != [] {
      assert (p + [a])[0] == p[0] && (p + [a])[1..] == p[1..] + [a];
      if n.Dir? && p[0] in n.children {
        CreatableChild(n.children[p[0]], p[1..], a);
      } else if n.Dir? {
        CreatableInEmpty(p[1..] + [a]);
        CreatableInEmpty(p[1..]);
      }
    }
  }

  /** What a put places at `p` is found below `p`. */
  lemma {:induction false} LookupPutBelow(n: Node, p: Path, r: Path, x: Node)
    requires Creatable(n, p)
    ensures Lookup(Put(n, p, x), p + r) == Lookup(x, r)
    decreases p
  {
    if p == [] {
      assert p + r == r;
    } else {
      var ch := n.children;
      var c := if p[0] in ch then ch[p[0]] else EmptyDir;
      if p[0] !in ch { CreatableInEmpty(p[1..]); }
      LookupPutBelow(c, p[1..], r, x);
      assert (p + r)[0] == p[0] && (p + r)[1..] == p[1..] + r;
    }
  }

  /** The entry `k` of the directory at `p`. */
  lemma {:induction false} LookupChild(n: Node, p: Path, k: string)
    ensures Lookup(n, p + [k]) ==
              if IsDirAt(n, p) && k in Lookup(n, p).value.children then Some(Lookup(n, p).value.children[k]) else None
    decreases p
  {
    if p == [] {
      assert p + [k] == [k];
    } else {
      assert (p + [k])[0] == p[0] && (p + [k])[1..] == p[1..] + [k];
      if n.Dir? && p[0] in n.children {
        LookupChild(n.children[p[0]], p[1..], k);
      }
    }
  }

  /** Everything above an existing entry is a directory. */
  lemma {:induction false} FoundAbove(n: Node, p: Path, q: Path)
    requires Exists(n, p) && q < p
    ensures IsDirAt(n, q)
    decreases p
  {
    if q != [] {
      FoundAbove(n.children[p[0]], p[1..], q[1..]);
    }
  }

  /** Everything above a path whose parent is a directory is a directory. */
  lemma BelowParent(n: Node, r: Path, q: Path)
    requires q != [] && IsDirAt(n, Parent(q)) && r < q
    ensures IsDirAt(n, r)
  {
    assert r == Parent(q)[..|r|];
    if r != Parent(q) {
      FoundAbove(n, Parent(q), r);
    }
  }

  /** Nothing is found below a file or below a missing entry. */
  lemma {:induction false} NothingBelow(n: Node, p: Path, r: Path)
    requires !IsDirAt(n, p) && r != []
    ensures Lookup(n, p + r) == None
    decreases p
  {
    if p == [] {
      assert p + r == r;
    } else {
      assert (p + r)[0] == p[0] && (p + r)[1..] == p[1..] + r;
      if n.Dir? && p[0] in n.children {
        NothingBelow(n.children[p[0]], p[1..], r);
      }
    }
  }

  /** The way to an existing entry is open. */
  lemma {:induction false} FoundCreatable(n: Node, p: Path)
    requires Exists(n, p)
    ensures Creatable(n, p)
    decreases p
  {
    if p != [] {
      FoundCreatable(n.children[p[0]], p[1..]);
    }
  }

  /** Writing a file into an existing directory, where no directory stands,
      adds no directory and removes none, and adds exactly that file. */
  lemma WriteIntoDir(n: Node, p: Path, c: Content)
    requires p != [] && IsDirAt(n, Parent(p)) && !IsDirAt(n, p)
    ensures Creatable(n, p)
    ensures forall r :: IsDirAt(Put(n, p, File(c)), r) <==> IsDirAt(n, r)
    ensures forall r :: IsFileAt(Put(n, p, File(c)), r) <==> IsFileAt(n, r) || r == p
  {
    var x := File(c);
    assert p == Parent(p) + [p[|p| - 1]];
    FoundCreatable(n, Parent(p));
    CreatableChild(n, Parent(p), p[|p| - 1]);
    forall r
      ensures IsDirAt(Put(n, p, x), r) <==> IsDirAt(n, r)
      ensures IsFileAt(Put(n, p, x), r) <==> IsFileAt(n, r) || r == p
    {
      if r == p {
        LookupPut(n, p, x);
      } else if r < p {
        LookupPutAbove(n, p, r, x);
        BelowParent(n, r, p);
      } else if p < r {
        var s := r[|p|..];
        assert r == p + s;
        LookupPutBelow(n, p, s, x);
        NothingBelow(n, p, s);
      } else {
        LookupPutElsewhere(n, p, r, x);
      }
    }
  }

  /** Creating a missing directory inside an existing one adds exactly that
      directory and no file. */
  lemma MkdirIntoDir(n: Node, p: Path)
    requires p != [] && IsDirAt(n, Parent(p)) && !Exists(n, p)
    ensures Creatable(n, p)
    ensures forall r :: IsDirAt(Put(n, p, EmptyDir), r) <==> IsDirAt(n, r) || r == p
    ensures forall r :: IsFileAt(Put(n, p, EmptyDir), r) <==> IsFileAt(n, r)
  {
    assert p == Parent(p) + [p[|p| - 1]];
    FoundCreatable(n, Parent(p));
    CreatableChild(n, Parent(p), p[|p| - 1]);
    forall r
      ensures IsDirAt(Put(n, p, EmptyDir), r) <==> IsDirAt(n, r) || r == p
      ensures IsFileAt(Put(n, p, EmptyDir), r) <==> IsFileAt(n, r)
    {
      if r == p {
        LookupPut(n, p, EmptyDir);
      } else if r < p {
        LookupPutAbove(n, p, r, EmptyDir);
        BelowParent(n, r, p);
      } else if p < r {
        var s := r[|p|..];
        assert r == p + s;
        LookupPutBelow(n, p, s, EmptyDir);
        LookupEmpty(s);
        NothingBelow(n, p, s);
      } else {
        LookupPutElsewhere(n, p, r, EmptyDir);
      }
    }
  }

  /** The empty tree has one directory, the root, and no file. */
  lemma EmptyDirShape()
    ensures forall r :: IsDirAt(EmptyDir, r) <==> r == []
    ensures forall r :: !IsFileAt(EmptyDir, r)
  {
    forall r | r != []
      ensures Lookup(EmptyDir, r) == None
    {
      LookupEmpty(r);
    }
  }

  /** Writing files one after the other, each given as a path and a content. */
  function WriteAll(n: Node, files: seq<(Path, Content)>): Node
    decreases |files|
  {
    if files == [] then n else WriteAll(Put(n, files[0].0, File(files[0].1)), files[1..])
  }

  function Paths(files: seq<(Path, Content)>): (ps: seq<Path>)
    ensures |ps| == |files|
    ensures forall i :: 0 <= i < |files| ==> ps[i] == files[i].0
  {
    if files == [] then [] else [files[0].0] + Paths(files[1..])
  }

  lemma PathsAppend(a: seq<(Path, Content)>, b: seq<(Path, Content)>)
    ensures Paths(a + b) == Paths(a) + Paths(b)
  {
  }

  lemma PathsOne(x: (Path, Content))
    ensures Paths([x]) == [x.0]
  {
  }

  /** Writing one more file after the others. */
  lemma {:induction false} WriteAllSnoc(n: Node, files: seq<(Path, Content)>, x: (Path, Content))
    ensures WriteAll(n, files + [x]) == Put(WriteAll(n, files), x.0, File(x.1))
    decreases |files|
  {
    if files == [] {
      assert files + [x] == [x];
      assert [x][1..] == [];
    } else {
      assert (files + [x])[1..] == files[1..] + [x];
      WriteAllSnoc(Put(n, files[0].0, File(files[0].1)), files[1..], x);
    }
  }

  /** Writing files below a directory leaves a directory. */
  lemma {:induction false} WriteAllKeepsDir(n: Node, files: seq<(Path, Content)>)
    requires n.Dir?
    requires forall i :: 0 <= i < |files| ==> files[i].0 != []
    ensures WriteAll(n, files).Dir?
    decreases |files|
  {
    if files != [] {
      var n' := Put(n, files[0].0, File(files[0].1));
      assert n'.Dir?;
      assert forall i :: 0 <= i < |files| - 1 ==> files[1..][i] == files[i + 1];
      WriteAllKeepsDir(n', files[1..]);
    }
  }

  /** Writing two lists of files one after the other. */
  lemma {:induction false} WriteAllAppend(n: Node, a: seq<(Path, Content)>, b: seq<(Path, Content)>)
    ensures WriteAll(n, a + b) == WriteAll(WriteAll(n, a), b)
    decreases |a|
  {
    if a == [] {
      assert a + b == b;
    } else {
      assert (a + b)[1..] == a[1..] + b;
      WriteAllAppend(Put(n, a[0].0, File(a[0].1)), a[1..], b);
    }
  }

  /** The directories of `n` are exactly `dirs`. */
  ghost predicate DirsAre(n: Node, dirs: set<Path>) {
    forall r {:trigger IsDirAt(n, r)} :: IsDirAt(n, r) <==> r in dirs
  }

  /** Each file goes into one of the directories `dirs`, none is one of them,
      and no path is written twice. */
  predicate Writable(dirs: set<Path>, files: seq<(Path, Content)>) {
    (forall i :: 0 <= i < |files| ==> files[i].0 != [] && Parent(files[i].0) in dirs && files[i].0 !in dirs)
    && forall i, j :: 0 <= i < j < |files| ==> files[i].0 != files[j].0
  }

  /** Writing such files into a tree whose directories are `dirs` keeps the
      directories, finds each file with its content, and adds no other file. */
  lemma {:induction false} WriteAllShape(n: Node, files: seq<(Path, Content)>, dirs: set<Path>)
    requires forall r :: IsDirAt(n, r) <==> r in dirs
    requires Writable(dirs, files)
    ensures forall r :: IsDirAt(WriteAll(n, files), r) <==> r in dirs
    ensures forall i :: 0 <= i < |files| ==> Lookup(WriteAll(n, files), files[i].0) == Some(File(files[i].1))
    ensures forall r :: IsFileAt(WriteAll(n, files), r) <==> IsFileAt(n, r) || r in Paths(files)
    ensures forall r :: IsFileAt(n, r) && r !in Paths(files) ==> Lookup(WriteAll(n, files), r) == Lookup(n, r)
    decreases |files|
  {
    if files != [] {
      var q, c := files[0].0, files[0].1;
      var m := Put(n, q, File(c));
      var rest := files[1..];
      WriteIntoDir(n, q, c);
      assert Writable(dirs, rest) by {
        forall i | 0 <= i < |rest| ensures rest[i] == files[i + 1] { }
      }
      WriteAllShape(m, rest, dirs);
      assert Paths(files) == [q] + Paths(rest);
      forall r | IsFileAt(m, r) && r !in Paths(rest)
        ensures IsFileAt(n, r) && r != q ==> Lookup(m, r) == Lookup(n, r)
      {
        if IsFileAt(n, r) && r != q {
          if r < q {
            BelowParent(n, r, q);
          } else if q < r {
            FoundAbove(n, r, q);
          } else {
            LookupPutElsewhere(n, q, r, File(c));
          }
        }
      }
      assert q !in Paths(rest) by {
        forall i | 0 <= i < |rest| ensures Paths(rest)[i] != q { assert rest[i] == files[i + 1]; }
      }
      LookupPut(n, q, File(c));
      forall i | 0 <= i < |files|
        ensures Lookup(WriteAll(n, files), files[i].0) == Some(File(files[i].1))
      {
        if i > 0 { assert files[i] == rest[i - 1]; }
      }
    }
  }

  /** The filesystem the scripts run against. Each method is one `fs` call:
      a failing call throws in the source and is a `false` result here, and
      it changes nothing. */
  class FileSystem {
    var root: Node

    constructor (initial: Node)
      ensures root == initial
    {
      root := initial;
    }

    /** `fs.existsSync(p)`. */
    method ExistsSync(p: Path) returns (b: bool)
      ensures b == Exists(root, p)
    {
      b := Lookup(root, p).Some?;
    }

    /** `fs.statSync(p).isDirectory()` on an existing entry. */
    method IsDirectory(p: Path) returns (b: bool)
      ensures b == IsDirAt(root, p)
    {
      b := IsDirAt(root, p);
    }

    /** `fs.mkdirSync(p, { recursive: true })`: succeeds on an existing
        directory without change, fails on an existing file or a file on the
        way, and otherwise creates `p` and the directories above it. */
    method MkdirRecursive(p: Path) returns (ok: bool)
      modifies this
      ensures ok == (IsDirAt(old(root), p) || (!Exists(old(root), p) && Creatable(old(root), p)))
      ensures root == if ok && !Exists(old(root), p) then Put(old(root), p, EmptyDir) else old(root)
    {
      if IsDirAt(root, p) {
        ok := true;
      } else if !Exists(root, p) && Creatable(root, p) {
        root := Put(root, p, EmptyDir);
        ok := true;
      } else {
        ok := false;
      }
    }

    /** `fs.writeFileSync(p, content)`: the parent directory must exist and
        `p` must not be a directory; an existing file is replaced. */
    method WriteFileSync(p: Path, content: Content) returns (ok: bool)
      requires p != []
      modifies this
      ensures ok == (IsDirAt(old(root), Parent(p)) && !IsDirAt(old(root), p))
      ensures root == if ok then Put(old(root), p, File(content)) else old(root)
    {
      ok := IsDirAt(root, Parent(p)) && !IsDirAt(root, p);
      if ok {
        root := Put(root, p, File(content));
      }
    }

    /** `fs.readFileSync(p)` on a file. */
    method ReadFileSync(p: Path) returns (content: Option<Content>)
      ensures content.Some? == IsFileAt(root, p)
      ensures content.Some? ==> Lookup(root, p) == Some(File(content.value))
    {
      match Lookup(root, p)
      case Some(File(c)) => content := Some(c);
      case _ => content := None;
    }

    /** `fs.readdirSync(p)`: the names in a directory, each once, in an order
        the filesystem chooses. */
    method ReaddirSync(p: Path) returns (names: Option<seq<string>>)
      ensures names.Some? == IsDirAt(root, p)
      ensures names.Some? ==> (forall i, j :: 0 <= i < j < |names.value| ==> names.value[i] != names.value[j])
                              && forall x :: x in names.value <==> x in Lookup(root, p).value.children
    {
      if !IsDirAt(root, p) {
        return None;
      }
      var keys := Lookup(root, p).value.children.Keys;
      var left := keys;
      var acc: seq<string> := [];
      while left != {}
        invariant left <= keys
        invariant forall x :: x in keys <==> x in acc || x in left
        invariant forall x :: x in acc ==> x !in left
        invariant forall i, j :: 0 <= i < j < |acc| ==> acc[i] != acc[j]
        decreases |left|
      {
        var name :| name in left;
        acc := acc + [name];
        left := left - {name};
      }
      return Some(acc);
    }

    /** `fs.copyFileSync(src, dst)`: `src` must be a file, the parent of `dst`
        a directory and `dst` not a directory. */
    method CopyFileSync(src: Path, dst: Path) returns (ok: bool)
      requires dst != []
      modifies this
      ensures ok == (IsFileAt(old(root), src) && IsDirAt(old(root), Parent(dst)) && !IsDirAt(old(root), dst))
      ensures root == if ok then Put(old(root), dst, Lookup(old(root), src).value) else old(root)
    {
      ok := IsFileAt(root, src) && IsDirAt(root, Parent(dst)) && !IsDirAt(root, dst);
      if ok {
        root := Put(root, dst, Lookup(root, src).value);
      }
    }
  }
}
