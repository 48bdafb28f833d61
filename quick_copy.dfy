/**
  The prototype copier `scripts/quick-copy.js`: copy `prototypes/<source>`
  to `prototypes/<new name>`, leaving out the `node_modules`, `dist` and
  `.git` directories at every depth, then rename the copy's manifest and the
  manifest of its `react-app` sub-project.
*/
module QuickCopy {
  import opened Wrappers
  import opened Text
  import opened FileTree

  /** The names of the directories `copyDirectory` does not enter. */
  const Excluded: set<string> := {"node_modules", "dist", ".git"}

  /** The version a copied manifest is reset to. */
  const ResetVersion: string := "0.1.0"

  /** An entry is skipped when it is a directory with an excluded name; a
      file with such a name is copied. */
  predicate Skipped(name: string, entry: Node) {
    entry.Dir? && name in Excluded
  }

  /** What a copy of `n` holds: `n` without its skipped directories, at
      every depth. */
  function Pruned(n: Node): (r: Node)
    ensures r.Dir? <==> n.Dir?
    ensures n.Dir? ==> forall k :: k in r.children <==> k in n.children && !Skipped(k, n.children[k])
    ensures n.File? ==> r == n
    decreases n
  {
    match n
    case File(_) => n
    case Dir(ch) => Dir(map k | k in ch && !Skipped(k, ch[k]) :: Pruned(ch[k]))
  }

  /** The entries among `names` that a copy of the directory `ch` has made. */
  function CopiedEntries(ch: map<string, Node>, names: seq<string>): map<string, Node> {
    map k | k in names && k in ch && !Skipped(k, ch[k]) :: Pruned(ch[k])
  }

  /** What `copyDirectory` leaves at its destination: the pruned copy of a
      directory, or, when the source is a file, the empty directory it made
      before `readdirSync` threw. */
  function CopyOf(n: Node): Node {
    if n.Dir? then Pruned(n) else EmptyDir
  }

  /** `p` and `q` lie in separate subtrees. */
  predicate Apart(p: Path, q: Path) {
    !(p <= q) && !(q <= p)
  }

  /** The path `p` can be followed in `n` without entering a skipped
      directory. */
  predicate Visible(n: Node, p: Path)
    decreases p
  {
    p == [] || (n.Dir? && p[0] in n.children && !Skipped(p[0], n.children[p[0]]) && Visible(n.children[p[0]], p[1..]))
  }

  /** The copy holds exactly what can be reached in the original without
      entering a skipped directory, and it holds the copy of it. */
  lemma {:induction false} PrunedLookup(n: Node, p: Path)
    ensures Visible(n, p) ==> Exists(n, p) && Lookup(Pruned(n), p) == Some(Pruned(Lookup(n, p).value))
    ensures !Visible(n, p) ==> Lookup(Pruned(n), p) == None
    decreases p
  {
    if p != [] && n.Dir? && p[0] in n.children && !Skipped(p[0], n.children[p[0]]) {
      PrunedLookup(n.children[p[0]], p[1..]);
    }
  }

  /** Every file that can be reached without entering an excluded directory
      is copied with its content, and the copy holds no other file. */
  lemma CopiedFiles(n: Node, p: Path)
    ensures IsFileAt(Pruned(n), p) <==> IsFileAt(n, p) && Visible(n, p)
    ensures IsFileAt(Pruned(n), p) ==> Lookup(Pruned(n), p) == Lookup(n, p)
  {
    PrunedLookup(n, p);
  }

  /** No directory of the copy, at any depth, has an excluded name. */
  lemma {:induction false} NoExcludedDirectory(n: Node, p: Path)
    requires IsDirAt(Pruned(n), p) && p != []
    ensures p[|p| - 1] !in Excluded
    decreases p
  {
    var k := p[0];
    assert n.Dir? && k in n.children && !Skipped(k, n.children[k]);
    if |p| == 1 {
      assert Lookup(Pruned(n), p) == Lookup(Pruned(n.children[k]), p[1..]);
      assert p[1..] == [];
    } else {
      assert p[1..][|p[1..]| - 1] == p[|p| - 1];
      NoExcludedDirectory(n.children[k], p[1..]);
    }
  }

  /** A directory whose name is not excluded is copied wherever its parent
      is; one named `node_modules`, `dist` or `.git` never is. */
  lemma CopiedDirectory(n: Node, p: Path, k: string)
    requires IsDirAt(n, p + [k]) && Visible(n, p)
    ensures IsDirAt(Pruned(n), p + [k]) <==> k !in Excluded
  {
    PrunedLookup(n, p + [k]);
    VisibleChild(n, p, k);
  }

  lemma {:induction false} VisibleChild(n: Node, p: Path, k: string)
    requires Visible(n, p) && Exists(n, p + [k])
    ensures Visible(n, p + [k]) <==> !Skipped(k, Lookup(n, p + [k]).value)
    decreases p
  {
    LookupChild(n, p, k);
    if p == [] {
      assert p + [k] == [k];
    } else {
      assert (p + [k])[0] == p[0] && (p + [k])[1..] == p[1..] + [k];
      LookupChild(n.children[p[0]], p[1..], k);
      VisibleChild(n.children[p[0]], p[1..], k);
    }
  }

  lemma CopiedEntriesSnoc(ch: map<string, Node>, names: seq<string>, k: string)
    requires k in ch
    ensures CopiedEntries(ch, names + [k]) ==
              if Skipped(k, ch[k]) then CopiedEntries(ch, names) else CopiedEntries(ch, names)[k := Pruned(ch[k])]
  {
  }

  lemma CopiedEntriesAll(ch: map<string, Node>, names: seq<string>)
    requires forall k :: k in names <==> k in ch
    ensures Dir(CopiedEntries(ch, names)) == Pruned(Dir(ch))
  {
  }

  lemma PrefixOfChildren(p: Path, q: Path, k: string)
    ensures p + [k] <= q + [k] ==> p <= q
  {
    if p + [k] <= q + [k] {
      assert p == (p + [k])[..|p|] && (q + [k])[..|p|] == q[..|p|];
    }
  }

  /** Entering the same entry on both sides keeps two paths apart. */
  lemma ApartChildren(p: Path, q: Path, k: string)
    requires Apart(p, q)
    ensures Apart(p + [k], q + [k])
  {
    PrefixOfChildren(p, q, k);
    PrefixOfChildren(q, p, k);
  }

  /** `copyDirectory(src, dest)` for a destination that does not exist yet,
      the only way `main` and the walk itself call it. The destination ends
      up holding the pruned copy of a directory source, or an empty
      directory for a file source, whose listing fails. */
  method CopyDirectory(fs: FileSystem, src: Path, dest: Path, ghost n: Node) returns (ok: bool)
    requires Lookup(fs.root, src) == Some(n)
    requires Apart(src, dest)
    requires Creatable(fs.root, dest) && !Exists(fs.root, dest)
    modifies fs
    ensures ok == n.Dir?
    ensures fs.root == Put(old(fs.root), dest, CopyOf(n))
    decreases n, 1
  {
    ghost var root0 := fs.root;
    var present := fs.ExistsSync(dest);
    if !present {
      var made := fs.MkdirRecursive(dest);
    }
    LookupPutElsewhere(root0, dest, src, EmptyDir);
    var entries := fs.ReaddirSync(src);
    if entries.None? {
      return false;
    }
    var names := entries.value;
    ghost var ch := n.children;
    assert CopiedEntries(ch, names[..0]) == map[];
    for i := 0 to |names|
      invariant fs.root == Put(root0, dest, Dir(CopiedEntries(ch, names[..i])))
    {
      var name := names[i];
      assert name !in names[..i];
      assert names[..i + 1] == names[..i] + [name];
      CopiedEntriesSnoc(ch, names[..i], name);
      CopyEntry(fs, src, dest, name, root0, ch, Dir(CopiedEntries(ch, names[..i])));
    }
    assert names[..|names|] == names;
    CopiedEntriesAll(ch, names);
    ok := true;
  }

  /** One pass of the loop of `copyDirectory` over the entries of the source
      directory `ch`: the entry `name` is skipped, copied by the recursive
      walk, or copied as a file, into the directory `d` built so far. */
  method CopyEntry(fs: FileSystem, src: Path, dest: Path, name: string,
                   ghost root0: Node, ghost ch: map<string, Node>, ghost d: Node)
    requires Lookup(root0, src) == Some(Dir(ch)) && name in ch
    requires Apart(src, dest) && Creatable(root0, dest)
    requires d.Dir? && name !in d.children
    requires fs.root == Put(root0, dest, d)
    modifies fs
    ensures fs.root == Put(root0, dest, if Skipped(name, ch[name]) then d else Dir(d.children[name := Pruned(ch[name])]))
    decreases Dir(ch), 0
  {
    LookupPutElsewhere(root0, dest, src, d);
    LookupChild(fs.root, src, name);
    var isDirectory := fs.IsDirectory(src + [name]);
    if isDirectory && (name == "node_modules" || name == "dist" || name == ".git") {
      return;
    }
    ChildSlot(root0, dest, d, name);
    ApartChildren(src, dest, name);
    if isDirectory {
      var copied := CopyDirectory(fs, src + [name], dest + [name], ch[name]);
    } else {
      var copied := fs.CopyFileSync(src + [name], dest + [name]);
    }
    PutPut(root0, dest, [name], d, Pruned(ch[name]));
  }

  /** A name not yet in the directory just put at `dest` is a free slot in
      it. */
  lemma ChildSlot(root: Node, dest: Path, d: Node, k: string)
    requires Creatable(root, dest) && d.Dir? && k !in d.children
    ensures Creatable(Put(root, dest, d), dest + [k])
    ensures IsDirAt(Put(root, dest, d), dest)
    ensures Lookup(Put(root, dest, d), dest + [k]) == None
  {
    CreatablePut(root, dest, d);
    LookupPut(root, dest, d);
    CreatableChild(Put(root, dest, d), dest, k);
    LookupPutBelow(root, dest, [k], d);
  }

  // The manifests

  /** `packageJson.name = newName; packageJson.version = '0.1.0'` on the
      parsed manifest, as `JSON.stringify` then writes it. Setting a property
      of `null` throws; on a string, number or boolean it is ignored, and on
      an array it is not among what `JSON.stringify` writes. */
  function Renamed(v: Json, newName: string): (r: Option<Json>)
    ensures r.None? <==> v.JNull?
    ensures v.JObject? ==>
              r.Some? && r.value.JObject?
              && r.value.fields.Keys == v.fields.Keys + {"name", "version"}
              && r.value.fields["name"] == JString(newName) && r.value.fields["version"] == JString(ResetVersion)
              && forall k :: k in v.fields && k != "name" && k != "version" ==> r.value.fields[k] == v.fields[k]
    ensures !v.JObject? && !v.JNull? ==> r == Some(v)
  {
    match v
    case JNull => None
    case JObject(m) => Some(JObject(m["name" := JString(newName)]["version" := JString(ResetVersion)]))
    case _ => Some(v)
  }

  /** `updatePackageJson` on the manifest at `q` of the tree `t`: nothing to
      do when there is none; `None` when it throws, because `q` is a
      directory, its text is not JSON, or it holds `null`. */
  function Patch(t: Node, q: Path, newName: string): (r: Option<Node>)
    ensures r.Some? <==> Readable(t, q)
    ensures Lookup(t, q).None? ==> r == Some(t)
    ensures r.Some? && Lookup(t, q).Some? ==>
              Lookup(t, q).value.File? && Lookup(t, q).value.content.Data?
              && Lookup(r.value, q) == Some(File(Data(Renamed(Lookup(t, q).value.content.value, newName).value)))
  {
    match Lookup(t, q)
    case None => Some(t)
    case Some(File(Data(v))) =>
      (match Renamed(v, newName)
       case None => None
       case Some(w) =>
         FoundCreatable(t, q);
         LookupPut(t, q, File(Data(w)));
         Some(Put(t, q, File(Data(w)))))
    case Some(_) => None
  }

  /** A manifest `updatePackageJson` can rewrite: absent, or JSON other than
      `null`. */
  predicate Readable(t: Node, q: Path) {
    match Lookup(t, q)
    case None => true
    case Some(File(Data(v))) => !v.JNull?
    case Some(_) => false
  }

  /** The manifest is rewritten exactly when it is readable, and then only
      its file changes: its `name` and `version` are set and every other
      field is kept; a missing manifest leaves the tree as it is. */
  lemma PatchEffect(t: Node, q: Path, newName: string)
    requires q != []
    ensures Patch(t, q, newName).Some? <==> Readable(t, q)
    ensures !Exists(t, q) ==> Patch(t, q, newName) == Some(t)
    ensures forall r :: Patch(t, q, newName).Some? && Exists(t, q) && Apart(r, q) ==>
              Lookup(Patch(t, q, newName).value, r) == Lookup(t, r)
  {
    if Patch(t, q, newName).Some? && Exists(t, q) {
      var w := Renamed(Lookup(t, q).value.content.value, newName).value;
      FoundCreatable(t, q);
      forall r | Apart(r, q)
        ensures Lookup(Put(t, q, File(Data(w))), r) == Lookup(t, r)
      {
        LookupPutElsewhere(t, q, r, File(Data(w)));
      }
    }
  }

  /** `updatePackageJson(filePath, newName)`. */
  method UpdatePackageJson(fs: FileSystem, filePath: Path, newName: string) returns (ok: bool)
    requires filePath != []
    modifies fs
    ensures var r := Patch(old(fs.root), filePath, newName);
            ok == r.Some? && fs.root == if ok then r.value else old(fs.root)
  {
    var present := fs.ExistsSync(filePath);
    if !present {
      return true;
    }
    var content := fs.ReadFileSync(filePath);
    if content.None? || content.value.Text? {
      return false;
    }
    var packageJson := content.value.value;
    match packageJson {
      case JNull =>
        return false;
      case JObject(fields) =>
        fields := fields["name" := JString(newName)];
        fields := fields["version" := JString(ResetVersion)];
        packageJson := JObject(fields);
      case _ =>
    }
    FoundAbove(fs.root, filePath, Parent(filePath));
    ok := fs.WriteFileSync(filePath, Data(packageJson));
  }

  /** Updating a manifest below `p` after putting `t` there is updating it
      inside `t`. */
  lemma PatchBelow(root: Node, p: Path, t: Node, q: Path, newName: string)
    requires Creatable(root, p) && q != []
    ensures Patch(Put(root, p, t), p + q, newName) ==
              match Patch(t, q, newName)
              case None => None
              case Some(t') => Some(Put(root, p, t'))
  {
    LookupPutBelow(root, p, q, t);
    match Lookup(t, q)
    case Some(File(Data(v))) =>
      if Renamed(v, newName).Some? {
        PutPut(root, p, q, t, File(Data(Renamed(v, newName).value)));
      }
    case _ =>
  }

  /** Along a path with no excluded name, the copy has an entry exactly
      where the original has one, and it is the copy of that entry. */
  lemma {:induction false} PrunedAlong(n: Node, q: Path)
    requires forall i :: 0 <= i < |q| ==> q[i] !in Excluded
    ensures Lookup(Pruned(n), q).Some? == Lookup(n, q).Some?
    ensures Lookup(n, q).Some? ==> Lookup(Pruned(n), q).value == Pruned(Lookup(n, q).value)
    decreases q
  {
    if q != [] && n.Dir? && q[0] in n.children {
      assert !Skipped(q[0], n.children[q[0]]);
      PrunedAlong(n.children[q[0]], q[1..]);
    }
  }

  // The run

  /** How `main` ends: one of its five early exits, a failure inside the
      `try` block, or a copy with the next steps it prints. */
  datatype Outcome =
    | MissingSource
    | SourceNotFound
    | InputEnded
    | EmptyName
    | AlreadyExists
    | CopyFailed
    | Copied(nextSteps: seq<string>)

  /** `path.join(prototypesDir, sourcePrototype)`. */
  function SourcePath(source: string): Path {
    ["prototypes", source]
  }

  /** `path.join(prototypesDir, newName.trim())`. */
  function DestinationPath(newName: string): Path {
    ["prototypes", Trim(newName)]
  }

  const RootManifest: Path := ["package.json"]
  const NestedManifest: Path := ["react-app", "package.json"]

  /** The copy after the `try` block, and whether the block ran to its end. */
  datatype CopyRun = CopyRun(tree: Node, ok: bool)

  /** The `try` block on the source entry `n`: copy it, then rename the
      copy's manifest to the name as typed and the `react-app` manifest to
      that name with `-app` appended. A step that throws ends the block and
      leaves what was done. */
  function CopyAndRename(n: Node, newName: string): (r: CopyRun)
    ensures r.tree.Dir?
    ensures r.ok ==> n.Dir?
    ensures !n.Dir? ==> r == CopyRun(EmptyDir, false)
  {
    if !n.Dir? then CopyRun(EmptyDir, false)
    else
      var t := Pruned(n);
      match Patch(t, RootManifest, newName)
      case None => CopyRun(t, false)
      case Some(t1) =>
        match Patch(t1, NestedManifest, newName + "-app")
        case None => CopyRun(t1, false)
        case Some(t2) => CopyRun(t2, true)
  }

  /** The numbered next steps printed after a copy: the second only when
      the copy has a `react-app` entry, and the numbering is not closed up
      when it is missing. */
  function NextSteps(newName: string, nested: bool): (steps: seq<string>)
    ensures "  2. cd react-app" in steps <==> nested
    ensures |steps| == if nested then 4 else 3
    ensures steps[|steps| - 2..] == ["  3. npm install", "  4. npm start\n"]
  {
    assert ("  1. cd prototypes/" + newName)[2] == '1';
    ["  1. cd prototypes/" + newName] + (if nested then ["  2. cd react-app"] else []) + ["  3. npm install", "  4. npm start\n"]
  }

  /** The `try` block completes exactly when the source is a directory and
      both manifests, where present, are JSON other than `null`. */
  lemma CopySucceeds(n: Node, newName: string)
    ensures CopyAndRename(n, newName).ok <==> n.Dir? && Readable(n, RootManifest) && Readable(n, NestedManifest)
  {
    if n.Dir? {
      var t := Pruned(n);
      PrunedAlong(n, RootManifest);
      PrunedAlong(n, NestedManifest);
      PatchEffect(t, RootManifest, newName);
      assert Readable(t, RootManifest) <==> Readable(n, RootManifest);
      assert Readable(t, NestedManifest) <==> Readable(n, NestedManifest);
      if Readable(t, RootManifest) {
        var t1 := Patch(t, RootManifest, newName).value;
        assert Apart(NestedManifest, RootManifest);
        assert Lookup(t1, NestedManifest) == Lookup(t, NestedManifest);
        PatchEffect(t1, NestedManifest, newName + "-app");
      }
    }
  }

  /** After a complete copy, a root manifest that was a JSON object has the
      name as typed and version 0.1.0, and keeps every other field. */
  lemma RootManifestRenamed(n: Node, newName: string, fields: map<string, Json>)
    requires CopyAndRename(n, newName).ok
    requires Lookup(n, RootManifest) == Some(File(Data(JObject(fields))))
    ensures Lookup(CopyAndRename(n, newName).tree, RootManifest)
              == Some(File(Data(JObject(fields["name" := JString(newName)]["version" := JString(ResetVersion)]))))
  {
    var t := Pruned(n);
    PrunedAlong(n, RootManifest);
    FoundCreatable(t, RootManifest);
    var w := JObject(fields["name" := JString(newName)]["version" := JString(ResetVersion)]);
    var t1 := Put(t, RootManifest, File(Data(w)));
    LookupPut(t, RootManifest, File(Data(w)));
    assert Apart(RootManifest, NestedManifest);
    PatchEffect(t1, NestedManifest, newName + "-app");
  }

  /** After a complete copy, a `react-app` manifest that was a JSON object
      has the name as typed followed by `-app`, and version 0.1.0. */
  lemma NestedManifestRenamed(n: Node, newName: string, fields: map<string, Json>)
    requires CopyAndRename(n, newName).ok
    requires Lookup(n, NestedManifest) == Some(File(Data(JObject(fields))))
    ensures Lookup(CopyAndRename(n, newName).tree, NestedManifest)
              == Some(File(Data(JObject(fields["name" := JString(newName + "-app")]["version" := JString(ResetVersion)]))))
  {
    var t := Pruned(n);
    PrunedAlong(n, RootManifest);
    PrunedAlong(n, NestedManifest);
    PatchEffect(t, RootManifest, newName);
    var t1 := Patch(t, RootManifest, newName).value;
    assert Apart(NestedManifest, RootManifest);
    assert Lookup(t1, NestedManifest) == Lookup(t, NestedManifest);
    var w := JObject(fields["name" := JString(newName + "-app")]["version" := JString(ResetVersion)]);
    FoundCreatable(t1, NestedManifest);
    LookupPut(t1, NestedManifest, File(Data(w)));
  }

  /** After a complete copy, the copy has a `react-app` entry exactly when
      the source has one. */
  lemma ReactAppKept(n: Node, newName: string)
    requires CopyAndRename(n, newName).ok
    ensures Exists(CopyAndRename(n, newName).tree, ["react-app"]) <==> Exists(n, ["react-app"])
  {
    var t := Pruned(n);
    PrunedAlong(n, ["react-app"]);
    PatchEffect(t, RootManifest, newName);
    var t1 := Patch(t, RootManifest, newName).value;
    assert Apart(["react-app"], RootManifest);
    if Exists(t1, NestedManifest) {
      FoundAbove(t1, NestedManifest, ["react-app"]);
      FoundCreatable(t1, NestedManifest);
      var t2 := CopyAndRename(n, newName).tree;
      LookupPutAbove(t1, NestedManifest, ["react-app"], Lookup(t2, NestedManifest).value);
    }
  }

  /** The command line names an existing source and the first line typed is
      a new, non-blank name: `main` gets to its `try` block. */
  predicate Admitted(root: Node, args: seq<string>, lines: seq<string>) {
    args != [] && args[0] != [] && Exists(root, SourcePath(args[0]))
    && lines != [] && !IsBlank(lines[0]) && !Exists(root, DestinationPath(lines[0]))
  }

  /** `main`, with `process.argv.slice(2)` and the lines typed. */
  method Run(fs: FileSystem, args: seq<string>, lines: seq<string>) returns (outcome: Outcome)
    modifies fs
    ensures outcome == MissingSource <==> args == [] || args[0] == []
    ensures outcome == SourceNotFound <==> args != [] && args[0] != [] && !Exists(old(fs.root), SourcePath(args[0]))
    ensures outcome == InputEnded <==> args != [] && args[0] != [] && Exists(old(fs.root), SourcePath(args[0])) && lines == []
    ensures outcome == EmptyName <==>
              args != [] && args[0] != [] && Exists(old(fs.root), SourcePath(args[0])) && lines != [] && IsBlank(lines[0])
    ensures outcome == AlreadyExists <==>
              args != [] && args[0] != [] && Exists(old(fs.root), SourcePath(args[0])) && lines != [] && !IsBlank(lines[0])
              && Exists(old(fs.root), DestinationPath(lines[0]))
    ensures outcome.Copied? || outcome == CopyFailed <==> Admitted(old(fs.root), args, lines)
    ensures Admitted(old(fs.root), args, lines) ==>
              var run := CopyAndRename(Lookup(old(fs.root), SourcePath(args[0])).value, lines[0]);
              fs.root == Put(old(fs.root), DestinationPath(lines[0]), run.tree)
              && (outcome.Copied? <==> run.ok)
              && (outcome.Copied? ==> outcome.nextSteps == NextSteps(lines[0], Exists(run.tree, ["react-app"])))
    ensures !Admitted(old(fs.root), args, lines) ==> fs.root == old(fs.root)
  {
    if args == [] || args[0] == [] {
      return MissingSource;
    }
    var sourcePrototype := args[0];
    var sourcePath := SourcePath(sourcePrototype);
    var found := fs.ExistsSync(sourcePath);
    if !found {
      return SourceNotFound;
    }
    if lines == [] {
      return InputEnded;
    }
    var newName := lines[0];
    if IsBlank(newName) {
      return EmptyName;
    }
    var newPath := DestinationPath(newName);
    var taken := fs.ExistsSync(newPath);
    if taken {
      return AlreadyExists;
    }

    ghost var root0 := fs.root;
    ghost var n := Lookup(root0, sourcePath).value;
    ghost var run := CopyAndRename(n, newName);
    FoundAbove(root0, sourcePath, ["prototypes"]);
    FoundCreatable(root0, ["prototypes"]);
    assert newPath == ["prototypes"] + [Trim(newName)];
    CreatableChild(root0, ["prototypes"], Trim(newName));
    var copied := CopyDirectory(fs, sourcePath, newPath, n);
    if !copied {
      return CopyFailed;
    }
    PatchBelow(root0, newPath, Pruned(n), RootManifest, newName);
    var renamed := UpdatePackageJson(fs, newPath + RootManifest, newName);
    if !renamed {
      return CopyFailed;
    }
    ghost var t1 := Patch(Pruned(n), RootManifest, newName).value;
    PatchBelow(root0, newPath, t1, NestedManifest, newName + "-app");
    var renamedApp := UpdatePackageJson(fs, newPath + NestedManifest, newName + "-app");
    if !renamedApp {
      return CopyFailed;
    }
    LookupPutBelow(root0, newPath, ["react-app"], run.tree);
    var nested := fs.ExistsSync(newPath + ["react-app"]);
    outcome := Copied(NextSteps(newName, nested));
  }
}
