/**
  `generatePackageJson` of the prototype generator: a base manifest to which
  each feature flag and each deployment target adds its own entries. The
  object the source builds is modelled as a record of string-keyed maps; the
  JSON text `JSON.stringify` makes of it is left out, its JSON value is not.
*/
module Manifest {
  import opened FileTree

  /** The component-library menu: 'none', 'shadcn', 'mui', 'headless'. */
  datatype ComponentLib = NoLibrary | Shadcn | Mui | Headless

  /** The deployment menu: 'local', 'vercel', 'netlify', 'docker'. */
  datatype Deploy = Local | Vercel | Netlify | Docker

  /** The `features` object: `{ componentLib, routing, mockData }`. */
  datatype Features = Features(componentLib: ComponentLib, routing: bool, mockData: bool)

  /** A dependency or script table: name to version range or command. */
  type Entries = map<string, string>

  /** The manifest object `{ name, version, private, scripts, dependencies,
      devDependencies }`. */
  datatype PackageJson = PackageJson(
    name: string,
    version: string,
    isPrivate: bool,
    scripts: Entries,
    dependencies: Entries,
    devDependencies: Entries)

  const Version := "0.1.0"

  const BaseDependencies: Entries := map["react" := "^18.2.0", "react-dom" := "^18.2.0"]

  const BaseDevDependencies: Entries := map[
    "@types/react" := "^18.2.0",
    "@types/react-dom" := "^18.2.0",
    "typescript" := "^5.4.2",
    "vite" := "^4.3.9",
    "@vitejs/plugin-react" := "^3.1.0",
    "tailwindcss" := "^3.4.8",
    "postcss" := "^8.4.23",
    "autoprefixer" := "^10.4.14"]

  const BaseScripts: Entries := map[
    "dev" := "vite",
    "start" := "vite",
    "build" := "vite build",
    "preview" := "vite preview"]

  const ShadcnDependencies: Entries := map[
    "class-variance-authority" := "^0.7.0",
    "clsx" := "^2.0.0",
    "tailwind-merge" := "^2.0.0",
    "lucide-react" := "^0.268.0"]

  const MuiDependencies: Entries := map[
    "@mui/material" := "^5.14.0",
    "@emotion/react" := "^11.11.0",
    "@emotion/styled" := "^11.11.0"]

  const HeadlessDependencies: Entries := map[
    "@headlessui/react" := "^1.7.0",
    "lucide-react" := "^0.268.0"]

  const RoutingDependencies: Entries := map["react-router-dom" := "^6.14.0"]

  const MockDevDependencies: Entries := map["@faker-js/faker" := "^8.0.0"]

  const VercelDevDependencies: Entries := map["vercel" := "latest"]
  const VercelScripts: Entries := map["deploy:vercel" := "vercel --prod"]

  const NetlifyDevDependencies: Entries := map["netlify-cli" := "latest"]
  const NetlifyScripts: Entries := map["deploy:netlify" := "netlify deploy --prod"]

  /** The dependencies a component library brings. */
  function LibraryDependencies(lib: ComponentLib): Entries {
    match lib
    case NoLibrary => map[]
    case Shadcn => ShadcnDependencies
    case Mui => MuiDependencies
    case Headless => HeadlessDependencies
  }

  function If(b: bool, m: Entries): Entries {
    if b then m else map[]
  }

  /** The declarative reading of the manifest: the base tables joined with
      the table of every flag and target that is on. */
  function Dependencies(f: Features): Entries {
    BaseDependencies + LibraryDependencies(f.componentLib) + If(f.routing, RoutingDependencies)
  }

  function DevDependencies(f: Features, deployment: seq<Deploy>): Entries {
    BaseDevDependencies + If(f.mockData, MockDevDependencies)
      + If(Vercel in deployment, VercelDevDependencies) + If(Netlify in deployment, NetlifyDevDependencies)
  }

  function Scripts(deployment: seq<Deploy>): Entries {
    BaseScripts + If(Vercel in deployment, VercelScripts) + If(Netlify in deployment, NetlifyScripts)
  }

  /** Setting one entry is joining a one-entry table. */
  lemma UpdateIsUnion(m: Entries, k: string, v: string)
    ensures m[k := v] == m + map[k := v]
  {
  }

  lemma UnionWithNothing(m: Entries)
    ensures m + map[] == m
  {
  }

  /** `generatePackageJson(name, features, deployment)`: three local tables
      updated entry by entry under the flags, then the manifest object. The
      result is the union of the base tables and the tables of the flags and
      targets that are on. The component-library and deployment steps are
      the helper methods below. */
  method GeneratePackageJson(name: string, features: Features, deployment: seq<Deploy>) returns (pkg: PackageJson)
    ensures pkg.name == name && pkg.version == Version && pkg.isPrivate
    ensures pkg.dependencies == Dependencies(features)
    ensures pkg.devDependencies == DevDependencies(features, deployment)
    ensures pkg.scripts == Scripts(deployment)
  {
    var dependencies := map["react" := "^18.2.0", "react-dom" := "^18.2.0"];
    var devDependencies := BaseDevDependencies;
    var scripts := BaseScripts;

    dependencies := AddLibraryDependencies(dependencies, features.componentLib);
    if features.routing {
      UpdateIsUnion(dependencies, "react-router-dom", "^6.14.0");
      dependencies := dependencies["react-router-dom" := "^6.14.0"];
    } else {
      UnionWithNothing(dependencies);
    }
    if features.mockData {
      UpdateIsUnion(devDependencies, "@faker-js/faker", "^8.0.0");
      devDependencies := devDependencies["@faker-js/faker" := "^8.0.0"];
    } else {
      UnionWithNothing(devDependencies);
    }
    devDependencies, scripts := AddDeployment(devDependencies, scripts, deployment);

    pkg := PackageJson(name, "0.1.0", true, scripts, dependencies, devDependencies);
  }

  /** The component-library step: shadcn, mui and headless each add their own
      dependencies, 'none' adds nothing. */
  method AddLibraryDependencies(dependencies: Entries, lib: ComponentLib) returns (r: Entries)
    ensures r == dependencies + LibraryDependencies(lib)
  {
    r := dependencies;
    if lib == Shadcn {
      r := r["class-variance-authority" := "^0.7.0"];
      r := r["clsx" := "^2.0.0"];
      r := r["tailwind-merge" := "^2.0.0"];
      r := r["lucide-react" := "^0.268.0"];
    } else if lib == Mui {
      r := r["@mui/material" := "^5.14.0"];
      r := r["@emotion/react" := "^11.11.0"];
      r := r["@emotion/styled" := "^11.11.0"];
    } else if lib == Headless {
      r := r["@headlessui/react" := "^1.7.0"];
      r := r["lucide-react" := "^0.268.0"];
    }
  }

  /** The deployment step: 'vercel' and 'netlify' each add a development
      dependency and a script; the other targets add nothing. */
  method AddDeployment(devDependencies: Entries, scripts: Entries, deployment: seq<Deploy>)
    returns (dev: Entries, scr: Entries)
    ensures dev == devDependencies + If(Vercel in deployment, VercelDevDependencies)
                   + If(Netlify in deployment, NetlifyDevDependencies)
    ensures scr == scripts + If(Vercel in deployment, VercelScripts) + If(Netlify in deployment, NetlifyScripts)
  {
    dev, scr := devDependencies, scripts;
    if Vercel in deployment {
      UpdateIsUnion(dev, "vercel", "latest");
      UpdateIsUnion(scr, "deploy:vercel", "vercel --prod");
      dev := dev["vercel" := "latest"];
      scr := scr["deploy:vercel" := "vercel --prod"];
    } else {
      UnionWithNothing(dev);
      UnionWithNothing(scr);
    }
    if Netlify in deployment {
      UpdateIsUnion(dev, "netlify-cli", "latest");
      UpdateIsUnion(scr, "deploy:netlify", "netlify deploy --prod");
      dev := dev["netlify-cli" := "latest"];
      scr := scr["deploy:netlify" := "netlify deploy --prod"];
    } else {
      UnionWithNothing(dev);
      UnionWithNothing(scr);
    }
  }

  /** No flag's table shares a name with the base table it is added to, nor
      with another flag's table that can be on at the same time, so no
      addition overwrites anything. */
  lemma LibraryDisjoint(lib: ComponentLib)
    ensures BaseDependencies.Keys !! LibraryDependencies(lib).Keys
    ensures LibraryDependencies(lib).Keys !! RoutingDependencies.Keys
  {
    match lib
    case NoLibrary =>
    case Shadcn =>
    case Mui =>
    case Headless =>
  }

  lemma RoutingDisjoint()
    ensures BaseDependencies.Keys !! RoutingDependencies.Keys
  {
  }

  lemma DevAdditionsDisjoint()
    ensures BaseDevDependencies.Keys !! MockDevDependencies.Keys
    ensures BaseDevDependencies.Keys !! VercelDevDependencies.Keys
    ensures BaseDevDependencies.Keys !! NetlifyDevDependencies.Keys
    ensures MockDevDependencies.Keys !! VercelDevDependencies.Keys
    ensures MockDevDependencies.Keys !! NetlifyDevDependencies.Keys
    ensures VercelDevDependencies.Keys !! NetlifyDevDependencies.Keys
  {
  }

  lemma ScriptAdditionsDisjoint()
    ensures BaseScripts.Keys !! VercelScripts.Keys
    ensures BaseScripts.Keys !! NetlifyScripts.Keys
    ensures VercelScripts.Keys !! NetlifyScripts.Keys
  {
  }

  /** Additions never remove or change a base entry. */
  lemma BaseDependenciesKept(f: Features)
    ensures forall k :: k in BaseDependencies ==> k in Dependencies(f) && Dependencies(f)[k] == BaseDependencies[k]
  {
    LibraryDisjoint(f.componentLib);
    RoutingDisjoint();
  }

  lemma BaseDevDependenciesKept(f: Features, deployment: seq<Deploy>)
    ensures forall k :: k in BaseDevDependencies ==>
              k in DevDependencies(f, deployment) && DevDependencies(f, deployment)[k] == BaseDevDependencies[k]
  {
    DevAdditionsDisjoint();
    forall k | k in BaseDevDependencies
      ensures k in DevDependencies(f, deployment) && DevDependencies(f, deployment)[k] == BaseDevDependencies[k]
    {
      assert k !in If(f.mockData, MockDevDependencies);
      assert k !in If(Vercel in deployment, VercelDevDependencies);
      assert k !in If(Netlify in deployment, NetlifyDevDependencies);
    }
  }

  lemma BaseScriptsKept(deployment: seq<Deploy>)
    ensures forall k :: k in BaseScripts ==> k in Scripts(deployment) && Scripts(deployment)[k] == BaseScripts[k]
  {
    ScriptAdditionsDisjoint();
    forall k | k in BaseScripts
      ensures k in Scripts(deployment) && Scripts(deployment)[k] == BaseScripts[k]
    {
      assert k !in If(Vercel in deployment, VercelScripts);
      assert k !in If(Netlify in deployment, NetlifyScripts);
    }
  }

  /** Each entry of the manifest comes from the base table or from the table
      of a flag that is on, with that table's value. */
  lemma DependenciesExactly(f: Features, k: string)
    ensures k in Dependencies(f) <==>
              k in BaseDependencies || k in LibraryDependencies(f.componentLib) || (f.routing && k in RoutingDependencies)
    ensures k in LibraryDependencies(f.componentLib) ==> Dependencies(f)[k] == LibraryDependencies(f.componentLib)[k]
    ensures f.routing && k in RoutingDependencies ==> Dependencies(f)[k] == RoutingDependencies[k]
  {
    LibraryDisjoint(f.componentLib);
  }

  /** With no library, no routing, no mock data and no deployment target
      the manifest is exactly the base one. */
  lemma MinimalManifest()
    ensures Dependencies(Features(NoLibrary, false, false)) == map["react" := "^18.2.0", "react-dom" := "^18.2.0"]
    ensures DevDependencies(Features(NoLibrary, false, false), []) == BaseDevDependencies
    ensures Scripts([]) == map["dev" := "vite", "start" := "vite", "build" := "vite build", "preview" := "vite preview"]
  {
    UnionWithNothing(BaseDependencies);
    UnionWithNothing(BaseDevDependencies);
    UnionWithNothing(BaseScripts);
  }

  /** Turning the component library on adds exactly that library's table. */
  lemma LibraryAddsItsOwn(f: Features)
    ensures Dependencies(f).Keys == Dependencies(f.(componentLib := NoLibrary)).Keys + LibraryDependencies(f.componentLib).Keys
    ensures Dependencies(f.(componentLib := NoLibrary)).Keys !! LibraryDependencies(f.componentLib).Keys
  {
    LibraryDisjoint(f.componentLib);
    RoutingDisjoint();
  }

  /** Routing adds exactly react-router-dom. */
  lemma RoutingAddsItsOwn(f: Features)
    ensures Dependencies(f.(routing := true)).Keys == Dependencies(f.(routing := false)).Keys + {"react-router-dom"}
    ensures "react-router-dom" !in Dependencies(f.(routing := false))
  {
    LibraryDisjoint(f.componentLib);
    RoutingDisjoint();
  }

  /** Mock data adds exactly the faker development dependency. */
  lemma MockAddsItsOwn(f: Features, deployment: seq<Deploy>)
    ensures DevDependencies(f.(mockData := true), deployment).Keys
              == DevDependencies(f.(mockData := false), deployment).Keys + {"@faker-js/faker"}
    ensures "@faker-js/faker" !in DevDependencies(f.(mockData := false), deployment)
  {
    DevAdditionsDisjoint();
    var v := If(Vercel in deployment, VercelDevDependencies);
    var n := If(Netlify in deployment, NetlifyDevDependencies);
    JoinedKeys(BaseDevDependencies, MockDevDependencies, v, n);
    UnionWithNothing(BaseDevDependencies);
    assert MockDevDependencies.Keys == {"@faker-js/faker"};
  }

  /** The names of a join of three tables with one more table in the middle. */
  lemma JoinedKeys(base: Entries, added: Entries, x: Entries, y: Entries)
    ensures (base + added + x + y).Keys == (base + x + y).Keys + added.Keys
    ensures added.Keys !! base.Keys && added.Keys !! x.Keys && added.Keys !! y.Keys ==> added.Keys !! (base + x + y).Keys
  {
  }

  /** The deploy scripts present are exactly those of the selected targets. */
  lemma DeployScripts(deployment: seq<Deploy>)
    ensures "deploy:vercel" in Scripts(deployment) <==> Vercel in deployment
    ensures "deploy:netlify" in Scripts(deployment) <==> Netlify in deployment
    ensures Scripts(deployment).Keys
              == BaseScripts.Keys + (if Vercel in deployment then {"deploy:vercel"} else {})
                 + (if Netlify in deployment then {"deploy:netlify"} else {})
  {
    ScriptAdditionsDisjoint();
  }

  /** Selecting 'local' or 'docker' leaves the manifest unchanged: only the
      presence of 'vercel' and 'netlify' matters. */
  lemma LocalAndDockerIgnored(f: Features, deployment: seq<Deploy>, extra: seq<Deploy>)
    requires forall i :: 0 <= i < |extra| ==> extra[i] == Local || extra[i] == Docker
    ensures Scripts(deployment + extra) == Scripts(deployment)
    ensures DevDependencies(f, deployment + extra) == DevDependencies(f, deployment)
  {
    assert Vercel in deployment + extra <==> Vercel in deployment;
    assert Netlify in deployment + extra <==> Netlify in deployment;
  }

  function EntriesJson(m: Entries): (j: Json)
    ensures j.JObject? && j.fields.Keys == m.Keys
    ensures forall k :: k in m ==> j.fields[k] == JString(m[k])
  {
    JObject(map k | k in m :: JString(m[k]))
  }

  /** The JSON value of the manifest object. */
  function ManifestJson(pkg: PackageJson): (j: Json)
    ensures j.JObject? && j.fields.Keys == {"name", "version", "private", "scripts", "dependencies", "devDependencies"}
    ensures j.fields["name"] == JString(pkg.name) && j.fields["version"] == JString(pkg.version)
    ensures j.fields["private"] == JBool(pkg.isPrivate)
    ensures j.fields["scripts"] == EntriesJson(pkg.scripts)
    ensures j.fields["dependencies"] == EntriesJson(pkg.dependencies)
    ensures j.fields["devDependencies"] == EntriesJson(pkg.devDependencies)
  {
    JObject(map[
      "name" := JString(pkg.name),
      "version" := JString(pkg.version),
      "private" := JBool(pkg.isPrivate),
      "scripts" := EntriesJson(pkg.scripts),
      "dependencies" := EntriesJson(pkg.dependencies),
      "devDependencies" := EntriesJson(pkg.devDependencies)])
  }
}
