/**
  The `main` of the prototype generator. It reads a name and refuses an
  empty one or one whose prototype directory exists, asks for a component
  library, routing, mock data and deployment targets, then creates the
  prototype directory and writes its files. A throwing `fs` call ends the
  run with exit code 1, which is the `WriteFailed` outcome.

  The files written are given declaratively by `ProjectFiles`. The tree they
  form under the prototype directory is `PrototypeTree`, and the lemmas say
  which files it holds for which answers. The renderers take the fragment
  texts as a parameter; the program passes `FragmentText`.
*/
module Generator {
  import opened Wrappers
  import opened Text
  import opened Prompts
  import opened FileTree
  import opened Manifest
  import opened Templates

  const LibraryMenu: seq<MenuOption<ComponentLib>> := [
    MenuOption("None", "Minimal setup", NoLibrary),
    MenuOption("shadcn/ui", "Modern, accessible components", Shadcn),
    MenuOption("Material-UI", "Google Material Design", Mui),
    MenuOption("Headless UI", "Unstyled, accessible components", Headless)]

  const RoutingMenu: seq<MenuOption<bool>> := [
    MenuOption("No", "", false),
    MenuOption("Yes (React Router)", "", true)]

  const MockDataMenu: seq<MenuOption<bool>> := [
    MenuOption("No", "", false),
    MenuOption("Yes (Faker.js)", "", true)]

  const DeployMenu: seq<MenuOption<Deploy>> := [
    MenuOption("Local only", "", Local),
    MenuOption("Vercel", "", Vercel),
    MenuOption("Netlify", "", Netlify),
    MenuOption("Docker", "", Docker)]

  /** How a run ends. `Created` carries the answers and the first "next
      step" line; the three errors exit with code 1; `InputEnded` is a run
      whose input closes before a question is answered, which writes
      nothing. */
  datatype Outcome =
    | Created(features: Features, deployment: seq<Deploy>, nextStep: string)
    | EmptyName
    | AlreadyExists
    | WriteFailed
    | InputEnded

  /** `path.join(__dirname, '..', 'prototypes', name.trim())`, relative to
      the repository root. */
  function PrototypePath(name: string): (p: Path)
    ensures |p| == 2 && p[0] == "prototypes" && p[1] == Trim(name)
  {
    ["prototypes", Trim(name)]
  }

  // createDirectory and writeFile

  /** The tree after `createDirectory(p)`, or `None` when `mkdirSync` throws:
      an existing entry is left alone, otherwise `p` is created with the
      directories above it. */
  function CreateDirectoryResult(n: Node, p: Path): Option<Node> {
    if Exists(n, p) then Some(n)
    else if Creatable(n, p) then Some(Put(n, p, EmptyDir))
    else None
  }

  /** `createDirectory` fails only where a file blocks the way; an existing
      entry, file or directory, is left as it is; where nothing stood, `p` is
      a directory afterwards; and a second call changes nothing. */
  lemma CreateDirectoryEffect(n: Node, p: Path)
    ensures CreateDirectoryResult(n, p).None? <==> !Exists(n, p) && !Creatable(n, p)
    ensures Exists(n, p) ==> CreateDirectoryResult(n, p) == Some(n)
    ensures CreateDirectoryResult(n, p).Some? && !Exists(n, p) ==> IsDirAt(CreateDirectoryResult(n, p).value, p)
    ensures CreateDirectoryResult(n, p).Some? ==>
              CreateDirectoryResult(CreateDirectoryResult(n, p).value, p) == CreateDirectoryResult(n, p)
  {
    if !Exists(n, p) && Creatable(n, p) {
      LookupPut(n, p, EmptyDir);
    }
  }

  /** `createDirectory(dir)`: `mkdirSync(dir, { recursive: true })` unless
      `existsSync(dir)`. */
  method CreateDirectory(fs: FileSystem, p: Path) returns (ok: bool)
    modifies fs
    ensures ok == CreateDirectoryResult(old(fs.root), p).Some?
    ensures fs.root == if ok then CreateDirectoryResult(old(fs.root), p).value else old(fs.root)
  {
    var present := fs.ExistsSync(p);
    if present {
      ok := true;
    } else {
      ok := fs.MkdirRecursive(p);
    }
  }

  /** `writeFile(filePath, content)`: create the parent directory, then
      `writeFileSync`. The second step fails where the parent is a file or
      the path is a directory; the directories the first step made stay. */
  method WriteFile(fs: FileSystem, p: Path, content: Content) returns (ok: bool)
    requires p != []
    modifies fs
    ensures var m := CreateDirectoryResult(old(fs.root), Parent(p));
            ok == (m.Some? && IsDirAt(m.value, Parent(p)) && !IsDirAt(m.value, p))
            && fs.root == (if ok then Put(m.value, p, File(content)) else if m.Some? then m.value else old(fs.root))
  {
    ok := CreateDirectory(fs, Parent(p));
    if ok {
      ok := fs.WriteFileSync(p, content);
    }
  }

  // The files of a prototype

  const MockDataPath: Path := ["src", "utils", "mockData.ts"]
  const DockerfilePath: Path := ["Dockerfile"]
  const GitignorePath: Path := [".gitignore"]

  /** The eleven files every prototype gets, in the order they are written,
      each with the content given for it. */
  function BaseLayout(pkg: Content, vite: Content, ts: Content, tsNode: Content, tailwind: Content,
                      postcss: Content, html: Content, mainTsx: Content, appTsx: Content, css: Content,
                      readme: Content): (files: seq<(Path, Content)>)
    ensures |files| == 11
    ensures forall i :: 0 <= i < |files| ==> files[i].0 == BasePaths[i]
  {
    [(["package.json"], pkg)] + [(["vite.config.ts"], vite)] + [(["tsconfig.json"], ts)]
    + [(["tsconfig.node.json"], tsNode)] + [(["tailwind.config.js"], tailwind)]
    + [(["postcss.config.js"], postcss)] + [(["index.html"], html)] + [(["src", "main.tsx"], mainTsx)]
    + [(["src", "App.tsx"], appTsx)] + [(["src", "index.css"], css)] + [(["README.md"], readme)]
  }

  /** The base files with what a run writes into them. The manifest and the
      page carry the name as typed. */
  function BaseFiles(name: string, f: Features, d: seq<Deploy>, fragments: Fragment -> string): seq<(Path, Content)> {
    BaseLayout(Data(ManifestJson(PackageJson(name, Version, true, Scripts(d), Dependencies(f), DevDependencies(f, d)))),
               Text(GenerateViteConfig(f, fragments)), Text(fragments(TsConfig)), Text(fragments(TsConfigNode)),
               Text(GenerateTailwindConfig(f, fragments)), Text(fragments(PostCssConfig)),
               Text(GenerateIndexHtml(name, fragments)), Text(Render(MainTsx(f), fragments)),
               Text(Render(AppTsx(f), fragments)), Text(fragments(IndexCss)), Text(Render(Readme(name, f, d), fragments)))
  }

  /** The tree the base files make when written one by one into `n`. */
  function BaseTree(n: Node, pkg: Content, vite: Content, ts: Content, tsNode: Content, tailwind: Content,
                    postcss: Content, html: Content, mainTsx: Content, appTsx: Content, css: Content,
                    readme: Content): Node {
    var n1 := Put(Put(Put(n, ["package.json"], File(pkg)), ["vite.config.ts"], File(vite)), ["tsconfig.json"], File(ts));
    var n2 := Put(Put(Put(n1, ["tsconfig.node.json"], File(tsNode)), ["tailwind.config.js"], File(tailwind)),
                  ["postcss.config.js"], File(postcss));
    var n3 := Put(Put(Put(n2, ["index.html"], File(html)), ["src", "main.tsx"], File(mainTsx)), ["src", "App.tsx"], File(appTsx));
    Put(Put(n3, ["src", "index.css"], File(css)), ["README.md"], File(readme))
  }

  /** Writing the base layout is writing its files one after the other. */
  lemma WriteBaseLayout(n: Node, pkg: Content, vite: Content, ts: Content, tsNode: Content, tailwind: Content,
                        postcss: Content, html: Content, mainTsx: Content, appTsx: Content, css: Content,
                        readme: Content)
    ensures WriteAll(n, BaseLayout(pkg, vite, ts, tsNode, tailwind, postcss, html, mainTsx, appTsx, css, readme))
              == BaseTree(n, pkg, vite, ts, tsNode, tailwind, postcss, html, mainTsx, appTsx, css, readme)
  {
    var s1 := [(["package.json"], pkg)];
    var s2 := s1 + [(["vite.config.ts"], vite)];
    var s3 := s2 + [(["tsconfig.json"], ts)];
    var s4 := s3 + [(["tsconfig.node.json"], tsNode)];
    var s5 := s4 + [(["tailwind.config.js"], tailwind)];
    var s6 := s5 + [(["postcss.config.js"], postcss)];
    var s7 := s6 + [(["index.html"], html)];
    var s8 := s7 + [(["src", "main.tsx"], mainTsx)];
    var s9 := s8 + [(["src", "App.tsx"], appTsx)];
    var s10 := s9 + [(["src", "index.css"], css)];
    WriteAllSnoc(n, [], (["package.json"], pkg));
    assert [] + s1 == s1;
    WriteAllSnoc(n, s1, (["vite.config.ts"], vite));
    WriteAllSnoc(n, s2, (["tsconfig.json"], ts));
    WriteAllSnoc(n, s3, (["tsconfig.node.json"], tsNode));
    WriteAllSnoc(n, s4, (["tailwind.config.js"], tailwind));
    WriteAllSnoc(n, s5, (["postcss.config.js"], postcss));
    WriteAllSnoc(n, s6, (["index.html"], html));
    WriteAllSnoc(n, s7, (["src", "main.tsx"], mainTsx));
    WriteAllSnoc(n, s8, (["src", "App.tsx"], appTsx));
    WriteAllSnoc(n, s9, (["src", "index.css"], css));
    WriteAllSnoc(n, s10, (["README.md"], readme));
  }

  /** Every file a run writes, in order: the base files, the mock-data
      utility when mock data was chosen, the Dockerfile when Docker was
      among the targets, and `.gitignore`. */
  function ProjectFiles(name: string, f: Features, d: seq<Deploy>, fragments: Fragment -> string): (files: seq<(Path, Content)>)
    ensures |files| == 12 + (if f.mockData then 1 else 0) + (if Docker in d then 1 else 0)
    ensures files[|files| - 1] == (GitignorePath, Text(fragments(Gitignore)))
  {
    var base := BaseFiles(name, f, d, fragments);
    var mock: seq<(Path, Content)> := if f.mockData then [(MockDataPath, Text(fragments(MockDataUtil)))] else [];
    var docker: seq<(Path, Content)> := if Docker in d then [(DockerfilePath, Text(fragments(Dockerfile)))] else [];
    base + mock + docker + [(GitignorePath, Text(fragments(Gitignore)))]
  }

  /** The paths of the base files. */
  const BasePaths: seq<Path> := [
    ["package.json"], ["vite.config.ts"], ["tsconfig.json"], ["tsconfig.node.json"],
    ["tailwind.config.js"], ["postcss.config.js"], ["index.html"],
    ["src", "main.tsx"], ["src", "App.tsx"], ["src", "index.css"], ["README.md"]]

  /** The paths of the files written, which depend only on two answers. */
  function ProjectPaths(mockData: bool, docker: bool): seq<Path> {
    BasePaths + (if mockData then [MockDataPath] else []) + (if docker then [DockerfilePath] else []) + [GitignorePath]
  }

  /** The directories of a prototype: its root, `src`, and `src/utils` with
      mock data. */
  function Dirs(mockData: bool): set<Path> {
    if mockData then {[], ["src"], ["src", "utils"]} else {[], ["src"]}
  }

  /** The tree the two `createDirectory` calls leave under the prototype
      directory. */
  function Skeleton(mockData: bool): Node {
    var src := Put(EmptyDir, ["src"], EmptyDir);
    if mockData then Put(src, ["src", "utils"], EmptyDir) else src
  }

  /** The tree a successful run leaves under the prototype directory. */
  function PrototypeTree(name: string, f: Features, d: seq<Deploy>, fragments: Fragment -> string): (tree: Node)
    ensures tree.Dir?
    ensures Lookup(tree, GitignorePath) == Some(File(Text(fragments(Gitignore))))
  {
    var files := ProjectFiles(name, f, d, fragments);
    var written := files[..|files| - 1];
    var last := files[|files| - 1];
    assert files == written + [last];
    ProjectFilesPlaced(name, f, d, fragments);
    WriteAllSnoc(Skeleton(f.mockData), written, last);
    WriteAllKeepsDir(Skeleton(f.mockData), written);
    LookupPut(WriteAll(Skeleton(f.mockData), written), GitignorePath, File(last.1));
    WriteAll(Skeleton(f.mockData), files)
  }

  /** Every file of a run is written below the prototype directory, never
      in its place. */
  lemma ProjectFilesPlaced(name: string, f: Features, d: seq<Deploy>, fragments: Fragment -> string)
    ensures forall i :: 0 <= i < |ProjectFiles(name, f, d, fragments)| ==> ProjectFiles(name, f, d, fragments)[i].0 != []
  {
    var files := ProjectFiles(name, f, d, fragments);
    ProjectPathsAgree(name, f, d, fragments);
    ProjectPathsPlaced(f.mockData, Docker in d);
    assert forall i :: 0 <= i < |files| ==> files[i].0 == Paths(files)[i];
  }

  /** The prototype is the base files written into the skeleton, then the
      optional files, then `.gitignore`. */
  lemma PrototypeTreeSteps(name: string, f: Features, d: seq<Deploy>, fragments: Fragment -> string)
    ensures PrototypeTree(name, f, d, fragments) ==
              var base := WriteAll(Skeleton(f.mockData), BaseFiles(name, f, d, fragments));
              var withMock := if f.mockData then Put(base, MockDataPath, File(Text(fragments(MockDataUtil)))) else base;
              var withDocker := if Docker in d then Put(withMock, DockerfilePath, File(Text(fragments(Dockerfile)))) else withMock;
              Put(withDocker, GitignorePath, File(Text(fragments(Gitignore))))
  {
    var n := Skeleton(f.mockData);
    var base := BaseFiles(name, f, d, fragments);
    var mock: seq<(Path, Content)> := if f.mockData then [(MockDataPath, Text(fragments(MockDataUtil)))] else [];
    var docker: seq<(Path, Content)> := if Docker in d then [(DockerfilePath, Text(fragments(Dockerfile)))] else [];
    var gitignore := (GitignorePath, Text(fragments(Gitignore)));
    WriteAllAppend(n, base, mock);
    WriteAllAppend(n, base + mock, docker);
    WriteAllSnoc(n, base + mock + docker, gitignore);
    if f.mockData {
      WriteAllSnoc(WriteAll(n, base), [], mock[0]);
      assert [] + mock == mock;
    }
    if Docker in d {
      WriteAllSnoc(WriteAll(n, base + mock), [], docker[0]);
      assert [] + docker == docker;
    }
  }

  /** The skeleton's directories are `Dirs`, and it holds no file. */
  lemma SkeletonShape(mockData: bool)
    ensures forall r :: IsDirAt(Skeleton(mockData), r) <==> r in Dirs(mockData)
    ensures forall r :: !IsFileAt(Skeleton(mockData), r)
  {
    EmptyDirShape();
    assert Parent(["src"]) == [];
    MkdirIntoDir(EmptyDir, ["src"]);
    if mockData {
      var src := Put(EmptyDir, ["src"], EmptyDir);
      assert Parent(["src", "utils"]) == ["src"];
      MkdirIntoDir(src, ["src", "utils"]);
    }
  }

  /** The paths of the files written are `ProjectPaths`. */
  lemma ProjectPathsAgree(name: string, f: Features, d: seq<Deploy>, fragments: Fragment -> string)
    ensures Paths(ProjectFiles(name, f, d, fragments)) == ProjectPaths(f.mockData, Docker in d)
  {
    var base := BaseFiles(name, f, d, fragments);
    var mock: seq<(Path, Content)> := if f.mockData then [(MockDataPath, Text(fragments(MockDataUtil)))] else [];
    var docker: seq<(Path, Content)> := if Docker in d then [(DockerfilePath, Text(fragments(Dockerfile)))] else [];
    var gitignore := (GitignorePath, Text(fragments(Gitignore)));
    BaseFilesPaths(name, f, d, fragments);
    PathsAppend(base, mock);
    PathsAppend(base + mock, docker);
    PathsAppend(base + mock + docker, [gitignore]);
    PathsOne(gitignore);
    if f.mockData {
      PathsOne(mock[0]);
    }
    if Docker in d {
      PathsOne(docker[0]);
    }
  }

  /** The base layout puts its files at `BasePaths`, whatever their contents. */
  lemma BaseLayoutPaths(pkg: Content, vite: Content, ts: Content, tsNode: Content, tailwind: Content,
                        postcss: Content, html: Content, mainTsx: Content, appTsx: Content, css: Content,
                        readme: Content)
    ensures Paths(BaseLayout(pkg, vite, ts, tsNode, tailwind, postcss, html, mainTsx, appTsx, css, readme)) == BasePaths
  {
    var base := BaseLayout(pkg, vite, ts, tsNode, tailwind, postcss, html, mainTsx, appTsx, css, readme);
    assert forall i :: 0 <= i < |base| ==> base[i].0 == BasePaths[i];
  }

  /** Where the manifest, the page and the README sit in the base layout. */
  lemma BaseLayoutAt(pkg: Content, vite: Content, ts: Content, tsNode: Content, tailwind: Content,
                     postcss: Content, html: Content, mainTsx: Content, appTsx: Content, css: Content,
                     readme: Content)
    ensures var base := BaseLayout(pkg, vite, ts, tsNode, tailwind, postcss, html, mainTsx, appTsx, css, readme);
            |base| == 11 && base[0] == (["package.json"], pkg) && base[6] == (["index.html"], html)
            && base[10] == (["README.md"], readme)
  {
  }

  lemma BaseFilesPaths(name: string, f: Features, d: seq<Deploy>, fragments: Fragment -> string)
    ensures Paths(BaseFiles(name, f, d, fragments)) == BasePaths
  {
    BaseLayoutPaths(Data(ManifestJson(PackageJson(name, Version, true, Scripts(d), Dependencies(f), DevDependencies(f, d)))),
                    Text(GenerateViteConfig(f, fragments)), Text(fragments(TsConfig)), Text(fragments(TsConfigNode)),
                    Text(GenerateTailwindConfig(f, fragments)), Text(fragments(PostCssConfig)),
                    Text(GenerateIndexHtml(name, fragments)), Text(Render(MainTsx(f), fragments)),
                    Text(Render(AppTsx(f), fragments)), Text(fragments(IndexCss)), Text(Render(Readme(name, f, d), fragments)));
  }

  /** No path is written twice. */
  lemma ProjectPathsDistinct(mockData: bool, docker: bool)
    ensures forall i, j :: 0 <= i < j < |ProjectPaths(mockData, docker)| ==>
              ProjectPaths(mockData, docker)[i] != ProjectPaths(mockData, docker)[j]
  {
    var ps := ProjectPaths(mockData, docker);
    forall i, j | 0 <= i < j < |ps|
      ensures ps[i] != ps[j]
    {
      assert ps[i][|ps[i]| - 1] != ps[j][|ps[j]| - 1];
    }
  }

  /** Every file goes into one of the prototype's directories and none is
      one of them. */
  lemma ProjectPathsPlaced(mockData: bool, docker: bool)
    ensures forall i :: 0 <= i < |ProjectPaths(mockData, docker)| ==>
              ProjectPaths(mockData, docker)[i] != []
              && Parent(ProjectPaths(mockData, docker)[i]) in Dirs(mockData)
              && ProjectPaths(mockData, docker)[i] !in Dirs(mockData)
  {
    var ps := ProjectPaths(mockData, docker);
    forall i | 0 <= i < |ps|
      ensures ps[i] != [] && Parent(ps[i]) in Dirs(mockData) && ps[i] !in Dirs(mockData)
    {
      if |ps[i]| == 1 {
        assert Parent(ps[i]) == [];
      } else if |ps[i]| == 2 {
        assert Parent(ps[i]) == [ps[i][0]] && ps[i][0] == "src";
      } else {
        assert mockData && ps[i] == MockDataPath;
        assert Parent(MockDataPath) == ["src", "utils"];
      }
    }
  }

  /** The files of a run can be written one after the other into the
      skeleton. */
  lemma ProjectPathsWritable(name: string, f: Features, d: seq<Deploy>, fragments: Fragment -> string)
    ensures Writable(Dirs(f.mockData), ProjectFiles(name, f, d, fragments))
  {
    var files := ProjectFiles(name, f, d, fragments);
    ProjectPathsAgree(name, f, d, fragments);
    ProjectPathsDistinct(f.mockData, Docker in d);
    ProjectPathsPlaced(f.mockData, Docker in d);
    assert forall i :: 0 <= i < |files| ==> files[i].0 == Paths(files)[i];
  }

  /** A successful run leaves exactly the prototype's directories and the
      files of `ProjectPaths` below the prototype directory. */
  lemma PrototypeTreeShape(name: string, f: Features, d: seq<Deploy>, fragments: Fragment -> string)
    ensures forall r :: IsDirAt(PrototypeTree(name, f, d, fragments), r) <==> r in Dirs(f.mockData)
    ensures forall r :: IsFileAt(PrototypeTree(name, f, d, fragments), r) <==> r in ProjectPaths(f.mockData, Docker in d)
  {
    SkeletonShape(f.mockData);
    ProjectPathsWritable(name, f, d, fragments);
    ProjectPathsAgree(name, f, d, fragments);
    WriteAllShape(Skeleton(f.mockData), ProjectFiles(name, f, d, fragments), Dirs(f.mockData));
  }

  /** Each file of a run holds the content it was written with. */
  lemma PrototypeTreeContents(name: string, f: Features, d: seq<Deploy>, fragments: Fragment -> string)
    ensures forall i :: 0 <= i < |ProjectFiles(name, f, d, fragments)| ==>
              Lookup(PrototypeTree(name, f, d, fragments), ProjectFiles(name, f, d, fragments)[i].0)
                == Some(File(ProjectFiles(name, f, d, fragments)[i].1))
  {
    SkeletonShape(f.mockData);
    ProjectPathsWritable(name, f, d, fragments);
    WriteAllShape(Skeleton(f.mockData), ProjectFiles(name, f, d, fragments), Dirs(f.mockData));
  }

  /** The mock-data utility is among the paths exactly with mock data, the
      Dockerfile exactly with Docker. */
  lemma OptionalPaths(mockData: bool, docker: bool)
    ensures MockDataPath in ProjectPaths(mockData, docker) <==> mockData
    ensures DockerfilePath in ProjectPaths(mockData, docker) <==> docker
  {
    assert MockDataPath !in BasePaths && DockerfilePath !in BasePaths;
    assert MockDataPath != DockerfilePath && MockDataPath != GitignorePath && DockerfilePath != GitignorePath;
  }

  /** `src/utils/mockData.ts` is written exactly when mock data was chosen,
      and the `Dockerfile` exactly when Docker was among the targets. */
  lemma OptionalFiles(name: string, f: Features, d: seq<Deploy>, fragments: Fragment -> string)
    ensures IsFileAt(PrototypeTree(name, f, d, fragments), MockDataPath) <==> f.mockData
    ensures IsFileAt(PrototypeTree(name, f, d, fragments), DockerfilePath) <==> Docker in d
    ensures IsDirAt(PrototypeTree(name, f, d, fragments), ["src", "utils"]) <==> f.mockData
  {
    PrototypeTreeShape(name, f, d, fragments);
    OptionalEntries(PrototypeTree(name, f, d, fragments), f.mockData, Docker in d);
  }

  /** A tree with exactly the directories and files of a prototype has the
      optional entries exactly for the answers that ask for them. */
  lemma OptionalEntries(t: Node, mockData: bool, docker: bool)
    requires forall r :: IsDirAt(t, r) <==> r in Dirs(mockData)
    requires forall r :: IsFileAt(t, r) <==> r in ProjectPaths(mockData, docker)
    ensures IsFileAt(t, MockDataPath) <==> mockData
    ensures IsFileAt(t, DockerfilePath) <==> docker
    ensures IsDirAt(t, ["src", "utils"]) <==> mockData
  {
    OptionalPaths(mockData, docker);
    assert IsFileAt(t, MockDataPath) <==> MockDataPath in ProjectPaths(mockData, docker);
    assert IsFileAt(t, DockerfilePath) <==> DockerfilePath in ProjectPaths(mockData, docker);
    assert IsDirAt(t, ["src", "utils"]) <==> ["src", "utils"] in Dirs(mockData);
  }

  /** The base files and `.gitignore` are written whatever the answers, and
      there are twelve files, plus one for mock data and one for Docker. */
  lemma AlwaysWritten(name: string, f: Features, d: seq<Deploy>, fragments: Fragment -> string)
    ensures forall q :: q in BasePaths ==> IsFileAt(PrototypeTree(name, f, d, fragments), q)
    ensures IsFileAt(PrototypeTree(name, f, d, fragments), GitignorePath)
    ensures |ProjectPaths(f.mockData, Docker in d)| == 12 + (if f.mockData then 1 else 0) + (if Docker in d then 1 else 0)
  {
    PrototypeTreeShape(name, f, d, fragments);
  }

  /** The manifest, the page and the README carry the name as typed, and the
      package manifest is the one `generatePackageJson` builds. */
  lemma NamedFiles(name: string, f: Features, d: seq<Deploy>, fragments: Fragment -> string)
    ensures Lookup(PrototypeTree(name, f, d, fragments), ["package.json"])
              == Some(File(Data(ManifestJson(PackageJson(name, Version, true, Scripts(d), Dependencies(f), DevDependencies(f, d))))))
    ensures Lookup(PrototypeTree(name, f, d, fragments), ["index.html"]) == Some(File(Text(GenerateIndexHtml(name, fragments))))
    ensures Lookup(PrototypeTree(name, f, d, fragments), ["README.md"]) == Some(File(Text(Render(Readme(name, f, d), fragments))))
  {
    PrototypeTreeContents(name, f, d, fragments);
    var files := ProjectFiles(name, f, d, fragments);
    var base := BaseFiles(name, f, d, fragments);
    BaseLayoutAt(Data(ManifestJson(PackageJson(name, Version, true, Scripts(d), Dependencies(f), DevDependencies(f, d)))),
                 Text(GenerateViteConfig(f, fragments)), Text(fragments(TsConfig)), Text(fragments(TsConfigNode)),
                 Text(GenerateTailwindConfig(f, fragments)), Text(fragments(PostCssConfig)),
                 Text(GenerateIndexHtml(name, fragments)), Text(Render(MainTsx(f), fragments)),
                 Text(Render(AppTsx(f), fragments)), Text(fragments(IndexCss)), Text(Render(Readme(name, f, d), fragments)));
    assert files[0] == base[0] && files[6] == base[6] && files[10] == base[10];
  }

  // The next-steps line

  /** The opening of the first next step: its number and the command. */
  const FirstStepLead := "  1. cd "

  /** The first next step as the source prints it, with the name as typed:
      the line ends with the name exactly as the user typed it. */
  function NextStepAsWritten(name: string): (line: string)
    ensures FirstStepLead <= line && line[|FirstStepLead|..] == "prototypes/" + name
  {
    FirstStepLead + "prototypes/" + name
  }

  /** The first next step naming the directory that was created. */
  function NextStep(name: string): (line: string)
    ensures FirstStepLead <= line
  {
    FirstStepLead + "prototypes/" + Trim(name)
  }

  /** `cd prototypes/<s>` changes into the directory path `prototypes`, `s`
      when `s` has no slash. */
  lemma CdTarget(s: string)
    requires '/' !in s
    ensures Split((FirstStepLead + "prototypes/" + s)[|FirstStepLead|..], '/') == ["prototypes", s]
  {
    assert (FirstStepLead + "prototypes/" + s)[|FirstStepLead|..] == "prototypes" + ['/'] + s;
    SplitAppend("prototypes", s, '/');
    SplitNoSeparator(s, '/');
  }

  /** For a name without a slash, the path the corrected line changes into
      is the prototype directory. */
  lemma NextStepNamesPrototype(name: string)
    requires '/' !in Trim(name)
    ensures Split(NextStep(name)[|FirstStepLead|..], '/') == PrototypePath(name)
  {
    CdTarget(Trim(name));
  }

  /** The name " demo" creates `prototypes/demo`, but the line as written
      changes into `prototypes/ demo`. */
  lemma NextStepAsWrittenMissesPrototype()
    ensures PrototypePath(" demo") == ["prototypes", "demo"]
    ensures Split(NextStepAsWritten(" demo")[|FirstStepLead|..], '/') == ["prototypes", " demo"]
  {
    assert TrimStart(" demo") == TrimStart("demo") by { assert " demo"[1..] == "demo"; }
    assert TrimStart("demo") == "demo";
    assert TrimEnd("demo") == "demo";
    CdTarget(" demo");
  }

  // The run

  /** The two `createDirectory` calls of the `try` block: `src`, which
      creates the prototype directory too, and `src/utils` with mock data.
      The first fails exactly when a file blocks the way; the second cannot
      fail. */
  method MakeSkeleton(fs: FileSystem, path: Path, mockData: bool) returns (ok: bool)
    requires path != [] && !Exists(fs.root, path)
    modifies fs
    ensures ok == Creatable(old(fs.root), path)
    ensures fs.root == if ok then Put(old(fs.root), path, Skeleton(mockData)) else old(fs.root)
  {
    ghost var root0 := fs.root;
    NothingBelow(root0, path, ["src"]);
    CreatableChild(root0, path, "src");
    ok := CreateDirectory(fs, path + ["src"]);
    if ok {
      PutSplit(root0, path, ["src"], EmptyDir);
      ghost var src := Put(EmptyDir, ["src"], EmptyDir);
      if mockData {
        LookupPutBelow(root0, path, ["src", "utils"], src);
        LookupPutBelow(root0, path, ["src"], src);
        LookupPut(EmptyDir, ["src"], EmptyDir);
        assert Lookup(src, ["src", "utils"]) == None;
        assert path + ["src", "utils"] == (path + ["src"]) + ["utils"];
        FoundCreatable(fs.root, path + ["src"]);
        CreatableChild(fs.root, path + ["src"], "utils");
        ok := CreateDirectory(fs, path + ["src", "utils"]);
        PutPut(root0, path, ["src", "utils"], src, EmptyDir);
      }
    }
  }

  /** A path a file of the prototype can be written to: a top-level name
      other than `src`, a name in `src` other than `utils`, or the mock-data
      utility once `src/utils` exists. */
  predicate FileSlot(q: Path, mockData: bool) {
    (|q| == 1 && q[0] != "src") || (|q| == 2 && q[0] == "src" && q[1] != "utils") || (mockData && q == MockDataPath)
  }

  /** A file slot lies in one of the prototype's directories and is none of
      them. */
  lemma FileSlotPlaced(q: Path, mockData: bool)
    requires FileSlot(q, mockData)
    ensures q != [] && Parent(q) in Dirs(mockData) && q !in Dirs(mockData)
  {
    if |q| == 1 {
      assert Parent(q) == [];
    } else if |q| == 2 {
      assert Parent(q) == [q[0]] == ["src"];
      assert q != ["src", "utils"];
    } else {
      assert Parent(MockDataPath) == ["src", "utils"];
    }
  }

  /** Write one file of the prototype below `path`, where the tree `t` has
      been built so far. The write cannot fail. */
  method WriteInto(fs: FileSystem, ghost root0: Node, path: Path, ghost mockData: bool,
                   ghost t: Node, q: Path, content: Content)
    returns (ghost t': Node)
    requires path != [] && Creatable(root0, path)
    requires DirsAre(t, Dirs(mockData))
    requires FileSlot(q, mockData)
    requires fs.root == Put(root0, path, t)
    modifies fs
    ensures t' == Put(t, q, File(content))
    ensures DirsAre(t', Dirs(mockData))
    ensures fs.root == Put(root0, path, t')
  {
    FileSlotPlaced(q, mockData);
    assert IsDirAt(t, Parent(q)) && !IsDirAt(t, q);
    assert Parent(path + q) == path + Parent(q);
    LookupPutBelow(root0, path, Parent(q), t);
    LookupPutBelow(root0, path, q, t);
    var ok := WriteFile(fs, path + q, content);
    WriteIntoDir(t, q, content);
    PutPut(root0, path, q, t, File(content));
    t' := Put(t, q, File(content));
  }

  /** The `try` block of `main`: create the directories, then write the
      files. It succeeds exactly when nothing blocks the way to the
      prototype directory, and then the prototype is the tree of
      `ProjectFiles`. */
  method Scaffold(fs: FileSystem, path: Path, name: string, f: Features, d: seq<Deploy>, fragments: Fragment -> string)
    returns (ok: bool)
    requires path != [] && !Exists(fs.root, path)
    modifies fs
    ensures ok == Creatable(old(fs.root), path)
    ensures fs.root == if ok then Put(old(fs.root), path, PrototypeTree(name, f, d, fragments)) else old(fs.root)
  {
    ghost var root0 := fs.root;
    ok := MakeSkeleton(fs, path, f.mockData);
    if !ok {
      return;
    }
    SkeletonShape(f.mockData);
    ghost var t := Skeleton(f.mockData);
    assert DirsAre(t, Dirs(f.mockData));

    var pkg := GeneratePackageJson(name, f, d);
    assert pkg == PackageJson(name, Version, true, Scripts(d), Dependencies(f), DevDependencies(f, d));
    var c0, c1, c2, c3 := Data(ManifestJson(pkg)), Text(GenerateViteConfig(f, fragments)),
                          Text(fragments(TsConfig)), Text(fragments(TsConfigNode));
    var c4, c5, c6 := Text(GenerateTailwindConfig(f, fragments)), Text(fragments(PostCssConfig)),
                      Text(GenerateIndexHtml(name, fragments));
    t := WriteInto(fs, root0, path, f.mockData, t, ["package.json"], c0);
    t := WriteInto(fs, root0, path, f.mockData, t, ["vite.config.ts"], c1);
    t := WriteInto(fs, root0, path, f.mockData, t, ["tsconfig.json"], c2);
    t := WriteInto(fs, root0, path, f.mockData, t, ["tsconfig.node.json"], c3);
    t := WriteInto(fs, root0, path, f.mockData, t, ["tailwind.config.js"], c4);
    t := WriteInto(fs, root0, path, f.mockData, t, ["postcss.config.js"], c5);
    t := WriteInto(fs, root0, path, f.mockData, t, ["index.html"], c6);
    var mainTsx := GenerateMainTsx(f, fragments);
    t := WriteInto(fs, root0, path, f.mockData, t, ["src", "main.tsx"], Text(mainTsx));
    var appTsx := GenerateAppTsx(f, fragments);
    t := WriteInto(fs, root0, path, f.mockData, t, ["src", "App.tsx"], Text(appTsx));
    var c9 := Text(fragments(IndexCss));
    t := WriteInto(fs, root0, path, f.mockData, t, ["src", "index.css"], c9);
    var readme := GenerateReadme(name, f, d, fragments);
    t := WriteInto(fs, root0, path, f.mockData, t, ["README.md"], Text(readme));
    WriteBaseLayout(Skeleton(f.mockData), c0, c1, c2, c3, c4, c5, c6, Text(mainTsx), Text(appTsx), c9, Text(readme));
    assert t == WriteAll(Skeleton(f.mockData), BaseFiles(name, f, d, fragments));

    if f.mockData {
      t := WriteInto(fs, root0, path, f.mockData, t, MockDataPath, Text(fragments(MockDataUtil)));
    }
    if Docker in d {
      t := WriteInto(fs, root0, path, f.mockData, t, DockerfilePath, Text(fragments(Dockerfile)));
    }
    t := WriteInto(fs, root0, path, f.mockData, t, GitignorePath, Text(fragments(Gitignore)));
    PrototypeTreeSteps(name, f, d, fragments);
  }

  /** The answers `main` collects from the lines typed after the name: the
      three menus in turn, each reading lines until one is accepted, then
      the deployment line. `None` when the input ends before all four are
      answered. */
  function Answers(lines: seq<string>): (r: Option<(Features, seq<Deploy>)>)
    ensures r.Some? ==> |lines| >= 4
  {
    match Chosen(LibraryMenu, lines)
    case None => None
    case Some(lib) =>
      var afterLib := lines[lib.1..];
      match Chosen(RoutingMenu, afterLib)
      case None => None
      case Some(routing) =>
        var afterRouting := afterLib[routing.1..];
        match Chosen(MockDataMenu, afterRouting)
        case None => None
        case Some(mockData) =>
          var afterMockData := afterRouting[mockData.1..];
          if afterMockData == [] then None
          else Some((Features(lib.0, routing.0, mockData.0), MultiChoice(DeployMenu, afterMockData[0])))
  }

  /** Four accepted lines answer the four prompts in order, whatever follows. */
  lemma FourAcceptedLines(lines: seq<string>)
    requires |lines| >= 4
    requires Accepted(lines[0], |LibraryMenu|).Some?
    requires Accepted(lines[1], |RoutingMenu|).Some?
    requires Accepted(lines[2], |MockDataMenu|).Some?
    ensures Answers(lines) ==
              Some((Features(LibraryMenu[Accepted(lines[0], |LibraryMenu|).value - 1].value,
                             RoutingMenu[Accepted(lines[1], |RoutingMenu|).value - 1].value,
                             MockDataMenu[Accepted(lines[2], |MockDataMenu|).value - 1].value),
                    MultiChoice(DeployMenu, lines[3])))
  {
    assert lines[1..][0] == lines[1];
    assert lines[1..][1..][0] == lines[2];
    assert lines[1..][1..][1..][0] == lines[3];
  }

  /** The prompts of `main` after the name: the component library, routing
      and mock-data menus in turn, then the deployment line. */
  method ReadAnswers(lines: seq<string>) returns (answers: Option<(Features, seq<Deploy>)>)
    ensures answers == Answers(lines)
  {
    var rest := lines;
    var componentLib, used := Choice(LibraryMenu, rest);
    if componentLib.None? {
      return None;
    }
    rest := rest[used..];
    var routing, usedRouting := Choice(RoutingMenu, rest);
    if routing.None? {
      return None;
    }
    rest := rest[usedRouting..];
    var mockData, usedMockData := Choice(MockDataMenu, rest);
    if mockData.None? {
      return None;
    }
    rest := rest[usedMockData..];
    if rest == [] {
      return None;
    }
    var deployment := MultiChoice(DeployMenu, rest[0]);
    answers := Some((Features(componentLib.value, routing.value, mockData.value), deployment));
  }

  /** `main`, on the lines the user types and the fragment texts. The name
      is the first line; blank names and existing prototypes are refused
      before anything is written; then three menus and the deployment line
      are read and the prototype is written. */
  method CreatePrototype(fs: FileSystem, lines: seq<string>, fragments: Fragment -> string) returns (outcome: Outcome)
    modifies fs
    ensures outcome == EmptyName <==> |lines| >= 1 && IsBlank(lines[0])
    ensures outcome == AlreadyExists <==> |lines| >= 1 && !IsBlank(lines[0]) && Exists(old(fs.root), PrototypePath(lines[0]))
    ensures outcome.Created? || outcome == WriteFailed ==>
              |lines| >= 1 && !IsBlank(lines[0]) && !Exists(old(fs.root), PrototypePath(lines[0]))
              && (outcome.Created? <==> Creatable(old(fs.root), PrototypePath(lines[0])))
    ensures !outcome.Created? ==> fs.root == old(fs.root)
    ensures outcome.Created? ==>
              fs.root == Put(old(fs.root), PrototypePath(lines[0]),
                             PrototypeTree(lines[0], outcome.features, outcome.deployment, fragments))
              && outcome.nextStep == NextStepAsWritten(lines[0])
    ensures outcome.Created? ==>
              |lines| >= 1 && Answers(lines[1..]) == Some((outcome.features, outcome.deployment))
    ensures outcome == WriteFailed ==> |lines| >= 1 && Answers(lines[1..]).Some?
    ensures outcome == InputEnded <==>
              lines == [] || (!IsBlank(lines[0]) && !Exists(old(fs.root), PrototypePath(lines[0]))
                              && Answers(lines[1..]).None?)
  {
    if |lines| == 0 {
      return InputEnded;
    }
    var name := lines[0];
    if IsBlank(name) {
      return EmptyName;
    }
    var path := PrototypePath(name);
    var present := fs.ExistsSync(path);
    if present {
      return AlreadyExists;
    }

    var answers := ReadAnswers(lines[1..]);
    if answers.None? {
      return InputEnded;
    }
    var (features, deployment) := answers.value;

    var ok := Scaffold(fs, path, name, features, deployment, fragments);
    if ok {
      outcome := Created(features, deployment, NextStepAsWritten(name));
    } else {
      outcome := WriteFailed;
    }
  }

  /** The generator as shipped: `main` with the fragment texts of the
      templates. */
  method CreatePrototypeWithTemplates(fs: FileSystem, lines: seq<string>) returns (outcome: Outcome)
    modifies fs
    ensures outcome == EmptyName <==> |lines| >= 1 && IsBlank(lines[0])
    ensures outcome == AlreadyExists <==> |lines| >= 1 && !IsBlank(lines[0]) && Exists(old(fs.root), PrototypePath(lines[0]))
    ensures outcome == InputEnded <==>
              lines == [] || (!IsBlank(lines[0]) && !Exists(old(fs.root), PrototypePath(lines[0]))
                              && Answers(lines[1..]).None?)
    ensures outcome == WriteFailed ==> |lines| >= 1 && Answers(lines[1..]).Some?
    ensures !outcome.Created? ==> fs.root == old(fs.root)
    ensures outcome.Created? ==>
              |lines| >= 1 && Creatable(old(fs.root), PrototypePath(lines[0]))
              && Answers(lines[1..]) == Some((outcome.features, outcome.deployment))
              && fs.root == Put(old(fs.root), PrototypePath(lines[0]),
                                PrototypeTree(lines[0], outcome.features, outcome.deployment, FragmentText))
              && outcome.nextStep == NextStepAsWritten(lines[0])
  {
    outcome := CreatePrototype(fs, lines, FragmentText);
  }
}
