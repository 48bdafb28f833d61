# Prototype Builder, modelled in Dafny

Prototype Builder is a workspace for UI prototypes. Each prototype is a small
Vite + React + TypeScript project under `prototypes/<name>`. This project
models the workspace's core:

- **The interactive generator** (`scripts/create-prototype.js`).
  - It asks for a name, then a component library, routing and mock data,
    each chosen from a numbered menu.
  - It then asks for a comma-separated list of deployment targets.
  - It refuses a blank name and a prototype that already exists.
  - It writes the prototype's directories and files: a `package.json`
    manifest built from the answers, the Vite, TypeScript, Tailwind and
    PostCSS configurations, `index.html`, `src/main.tsx`, `src/App.tsx`,
    `src/index.css`, a README, and optionally the mock-data utility and a
    Dockerfile. Finally it writes `.gitignore`.
- **The quick copier** (`scripts/quick-copy.js`).
  - It copies an existing prototype to a new name, skipping
    `node_modules`, `dist` and `.git` directories.
  - It then renames the copy's `package.json` and its
    `react-app/package.json`.
- **The class-name helper** `cn` (`shared/utils/cn.ts`).
- **The display logic of the two "My Progress" dashboards** of the
  `ander_metrics` prototype: status colours and messages, rank emoji and
  gradients, time formatting, the knowledge-trend insight, the
  smart-practice result markers and question details, and the expand and
  collapse state of the page.

Layout, one module per file:

| file | module | what it holds |
|---|---|---|
| `wrappers.dfy` | `Wrappers` | `Option` |
| `text.dfy` | `Text` | the JavaScript string operations the scripts use: `trim`, `split`, `join`, `endsWith`, integer rendering |
| `js_parse.dfy` | `JsParse` | `parseInt`, and the lemmas that it reads the integer renderings back |
| `prompts.dfy` | `Prompts` | the numbered-menu `choice` loop and `multiChoice` |
| `manifest.dfy` | `Manifest` | `generatePackageJson` |
| `templates.dfy` | `Templates` | the generated files as sequences of fixed fragments and the project name |
| `file_tree.dfy` | `FileTree` | a directory tree, and the `fs` calls as a `FileSystem` class |
| `generator.dfy` | `Generator` | `createDirectory`, `writeFile` and `main` of the generator |
| `quick_copy.dfy` | `QuickCopy` | `copyDirectory`, `updatePackageJson` and `main` of the copier |
| `class_names.dfy` | `ClassNames` | `cn` |
| `progress.dfy` | `Progress` | the helpers both dashboards share, and the state of `MyProgressDashboard.tsx` |
| `progress_dashboard.dfy` | `ProgressDashboard` | what only the standalone `my_progress_dashboard.tsx` shows, and its state |

How the model represents the system:

- The user's input is a sequence of lines.
- The filesystem is a `FileSystem` object whose `root` is a tree of
  directories and files. The scripts' loops (`choice`, `copyDirectory`) are
  methods with loop invariants, proved against specification functions.
- Each template's fixed text is a `Fragment`. The text of each fragment is
  a parameter of the generator; `Templates.FragmentText` gives the shipped
  texts. The proofs therefore hold whatever the fixed texts are.
- The dashboards' React state is a class whose methods are the click
  handlers.

## Model

| member | source | states |
|---|---|---|
| Text.TrimEnd | scripts/create-prototype.js:504 | the result is a prefix of the input that does not end in whitespace, and everything cut off is whitespace |
| Text.TrimStartIsTight | scripts/create-prototype.js:504 | `trimStart` removes exactly the longest whitespace prefix |
| Text.BlankIffAllWhitespace | scripts/create-prototype.js:504 | the guard `!name.trim()` rejects a name exactly when every character of it is whitespace (the empty name included) |
| Text.TrimIsTight | scripts/create-prototype.js:509 | the trimmed name neither starts nor ends with whitespace and is a contiguous piece of the name |
| Text.Trim | scripts/create-prototype.js:504 | `trim()` gives no more characters than the input, and its result neither starts nor ends with whitespace |
| Text.Split | scripts/create-prototype.js:41 | `split(',')` gives at least one piece, and no piece contains the separator |
| Text.JoinSplit | scripts/create-prototype.js:41 | joining the pieces of a split with the same separator gives the input back |
| Text.SplitJoin | shared/utils/cn.ts:6 | splitting a join of separator-free parts gives the parts back |
| Text.SplitCount | scripts/create-prototype.js:41 | a line has one more piece than it has commas |
| Text.NatToString | prototypes/ander_metrics/react-app/src/MyProgressDashboard.tsx:127 | a non-negative number renders as digits, with no leading zero unless it is 0 |
| Text.IntToString | prototypes/ander_metrics/react-app/src/MyProgressDashboard.tsx:98 | the rendering starts with '-' exactly when the number is negative |
| Text.NatToStringValue | prototypes/ander_metrics/react-app/src/MyProgressDashboard.tsx:127 | the digits rendered denote the number |
| JsParse.ParseInt | scripts/create-prototype.js:27 | ECMA `parseInt` with no radix: leading whitespace, an optional sign, a `0x` prefix, then the longest digit run, NaN when there is none; it carries no contract of its own, and its behaviour is stated by `JsParse.DigitRun`, `JsParse.ParseIntToString`, `JsParse.ParseIntPrefix`, `JsParse.ParseIntSkipsWhitespace`, `JsParse.ParseIntOfTrim` and `Prompts.LetterTokenIsNaN` |
| JsParse.DigitRun | scripts/create-prototype.js:27 | `parseInt` reads the longest run of digits at the front, and no more |
| JsParse.ParseIntToString | scripts/create-prototype.js:27 | `parseInt(String(i)) === i` for every integer the model renders (integer Numbers below 10^21 in magnitude; see "## Left out") |
| JsParse.ParseIntPrefix | prototypes/ander_metrics/react-app/src/MyProgressDashboard.tsx:98 | `parseInt` reads an integer back from the front of a message when the next character cannot extend the number: the message ends there, or the next character is neither a digit nor, after a lone "0", an 'x' or 'X' |
| JsParse.ParseIntSkipsWhitespace | scripts/create-prototype.js:27 | leading whitespace does not change what `parseInt` reads |
| JsParse.ParseIntOfTrim | scripts/create-prototype.js:41 | trimming a token before `parseInt` changes nothing |
| Prompts.Accepted | scripts/create-prototype.js:27-28 | an answer is accepted exactly when it parses to a number from 1 to the menu size |
| Prompts.Choice | scripts/create-prototype.js:17-32 | `choice` returns the value of the option named by the first accepted line; every line before it was rejected; it returns nothing exactly when the input has no acceptable line; its answer and the lines it read are those of `Prompts.Chosen` |
| Prompts.Chosen | scripts/create-prototype.js:24-30 | the answer of `choice` as a value: when there is one, it has read at least one line and no more than there are |
| Prompts.ChosenSkipsRejected | scripts/create-prototype.js:24-28 | rejected lines only delay the answer: after them, the answer is that of the remaining lines, read that many lines later |
| Prompts.ParseTokens | scripts/create-prototype.js:41 | one parsed value per token, each `parseInt` of the trimmed token |
| Prompts.InRange | scripts/create-prototype.js:41 | the numbers kept all name an option, and there are no more of them than tokens |
| Prompts.ValuesAt | scripts/create-prototype.js:43 | each option number becomes the value of option number minus one, in order |
| Prompts.Picked | scripts/create-prototype.js:41 | the option numbers kept from a line are in range and at most one per piece |
| Prompts.MultiChoice | scripts/create-prototype.js:34-44 | every value returned is the value of some option, and there are at most as many as the pieces of the line |
| Prompts.InRangeAppend | scripts/create-prototype.js:41 | tokens are filtered independently and in order |
| Prompts.InRangeMember | scripts/create-prototype.js:41 | a number is kept exactly when some token reads as it and it names an option |
| Prompts.DuplicatesKept | scripts/create-prototype.js:41-43 | a repeated option number is kept both times: duplicates are not removed |
| Prompts.MixedLine | scripts/create-prototype.js:41 | of the numbers 5, 1, NaN and 2, a menu of three keeps 1 and 2, in order |
| Prompts.MixedLineTokens | scripts/create-prototype.js:41 | the line "5,1,abc,2" splits into the tokens "5", "1", "abc" and "2" |
| Prompts.DigitTokenReads | scripts/create-prototype.js:41 | a one-digit token reads as its digit |
| Prompts.LetterTokenIsNaN | scripts/create-prototype.js:41 | the token "abc" reads as NaN |
| Prompts.MixedLineNumbers | scripts/create-prototype.js:41 | the tokens of "5,1,abc,2" read as 5, 1, NaN and 2 |
| Prompts.MixedLineRead | scripts/create-prototype.js:41 | splitting and parsing the line "5,1,abc,2" gives 5, 1, NaN and 2 |
| Prompts.MixedLinePicked | scripts/create-prototype.js:41 | `multiChoice` on the line "5,1,abc,2" in a menu of three keeps options 1 and 2, in that order |
| Prompts.LeadingDigitsAccepted | scripts/create-prototype.js:27 | "2x" selects option 2 |
| Manifest.GeneratePackageJson | scripts/create-prototype.js:57-124 | the manifest has the name as given, version 0.1.0, `private`, and the dependency, development-dependency and script tables that the answers select |
| Manifest.AddLibraryDependencies | scripts/create-prototype.js:81-94 | the library step adds exactly the chosen library's table |
| Manifest.AddDeployment | scripts/create-prototype.js:106-114 | 'vercel' and 'netlify' each add their development dependency and their deploy script |
| Manifest.LibraryDisjoint | scripts/create-prototype.js:81-99 | no library table shares a name with the base table or with routing |
| Manifest.RoutingDisjoint | scripts/create-prototype.js:96-99 | routing adds a name the base table lacks |
| Manifest.DevAdditionsDisjoint | scripts/create-prototype.js:101-114 | the development additions share no name with each other or with the base table |
| Manifest.ScriptAdditionsDisjoint | scripts/create-prototype.js:106-114 | the deploy scripts share no name with each other or with the base scripts |
| Manifest.BaseDependenciesKept | scripts/create-prototype.js:58-61 | additions never remove or change a base dependency |
| Manifest.BaseDevDependenciesKept | scripts/create-prototype.js:63-72 | additions never remove or change a base development dependency |
| Manifest.BaseScriptsKept | scripts/create-prototype.js:74-79 | additions never remove or change a base script |
| Manifest.DependenciesExactly | scripts/create-prototype.js:58-99 | a dependency is present exactly when it is a base entry, an entry of the chosen library, or routing's entry with routing on, with that table's version |
| Manifest.MinimalManifest | scripts/create-prototype.js:58-79 | with nothing selected, the manifest holds only the base tables |
| Manifest.LibraryAddsItsOwn | scripts/create-prototype.js:81-94 | choosing a library adds exactly that library's names |
| Manifest.RoutingAddsItsOwn | scripts/create-prototype.js:96-99 | routing adds exactly `react-router-dom` |
| Manifest.MockAddsItsOwn | scripts/create-prototype.js:101-104 | mock data adds exactly `@faker-js/faker` |
| Manifest.DeployScripts | scripts/create-prototype.js:106-114 | each deploy script is present exactly when its target was chosen |
| Manifest.LocalAndDockerIgnored | scripts/create-prototype.js:106-114 | choosing 'local' or 'docker' does not change the manifest |
| Manifest.EntriesJson | scripts/create-prototype.js:559 | a table becomes a JSON object with the same names, each holding its entry as a string |
| Manifest.ManifestJson | scripts/create-prototype.js:116-123 | the manifest object has exactly the six fields: the name and version as given, `private`, and each of the three tables as an object of its entries |
| Templates.GenerateMainTsx | scripts/create-prototype.js:230-250 | main.tsx is the rendering of its pieces for the features |
| Templates.MainRouting | scripts/create-prototype.js:230-250 | main.tsx imports `BrowserRouter` and wraps the app in it exactly when routing is on |
| Templates.GenerateAppTsx | scripts/create-prototype.js:252-344 | App.tsx is the rendering of the imports followed by the component |
| Templates.AppendMain | scripts/create-prototype.js:283-305 | the text returned is the component so far followed by the page body, which is the routes or the welcome card as the features say |
| Templates.InAppImports | scripts/create-prototype.js:253-261 | the imports hold `useState`, the router import exactly with routing, and the mock-data import exactly with mock data |
| Templates.InAppMain | scripts/create-prototype.js:283-305 | which fixed pieces the page body holds, for each combination of features |
| Templates.InAppComponent | scripts/create-prototype.js:263-341 | which fixed pieces the component holds besides its page body |
| Templates.InApp | scripts/create-prototype.js:343 | App.tsx holds exactly the pieces of its imports and of its component |
| Templates.AppRouting | scripts/create-prototype.js:255-339 | the router import, routes, page components and routed heading appear exactly with routing; the plain heading and welcome card appear exactly without it |
| Templates.AppRoutesInText | scripts/create-prototype.js:283-339 | with routing, the routes and both page components occur in the text of App.tsx |
| Templates.AppMockData | scripts/create-prototype.js:259-302 | the mock-data import and call appear exactly with mock data; the data dump appears exactly with mock data and no routing |
| Templates.AppImportsMatchUses | scripts/create-prototype.js:253-302 | App.tsx imports the router exactly when it uses it, and the mock-data utility exactly when it calls it |
| Templates.GenerateReadme | scripts/create-prototype.js:409-497 | the README is the rendering of its pieces for the name, features and targets |
| Templates.FeatureBullets | scripts/create-prototype.js:421-435 | the feature bullets are the library bullet, then routing's, then mock data's |
| Templates.DeploymentSections | scripts/create-prototype.js:455-484 | the deployment sections appear in the order Vercel, Netlify, Docker |
| Templates.DockerLines | scripts/create-prototype.js:475-484 | the Docker section names the image after the project |
| Templates.InBullets | scripts/create-prototype.js:421-435 | which bullets appear, for each answer |
| Templates.InDeploySections | scripts/create-prototype.js:455-484 | each deployment section appears exactly when its target was chosen |
| Templates.InReadme | scripts/create-prototype.js:409-497 | the README holds its fixed frame and the bullets and sections selected, and nothing else |
| Templates.ReadmeDeployAgrees | scripts/create-prototype.js:455-474 | the README documents a deploy script exactly when the manifest has it |
| Templates.ReadmeLibraryBullet | scripts/create-prototype.js:421-427 | the README lists the chosen component library, and only it |
| Templates.ReadmeBulletsMirrorManifest | scripts/create-prototype.js:429-435 | the React Router and Faker bullets appear exactly when the manifest has those packages |
| Templates.ReadmeRouterBullet | scripts/create-prototype.js:429-431 | the React Router bullet appears exactly with routing |
| Templates.ReadmeFakerBullet | scripts/create-prototype.js:433-435 | the Faker bullet appears exactly with mock data |
| Templates.ReadmeTitled | scripts/create-prototype.js:410 | the README starts with its title line holding the name as typed |
| Templates.ConfigsIgnoreFeatures | scripts/create-prototype.js:126-201 | the Vite and Tailwind configurations do not depend on the features |
| Templates.GenerateIndexHtml | scripts/create-prototype.js:213-228 | the page text starts with its head and the name as typed, as the title |
| Templates.FragmentOccurs | scripts/create-prototype.js:343 | a fixed piece among a file's pieces occurs in the file's text |
| FileTree.WriteIntoDir | scripts/create-prototype.js:52-55 | writing a file into an existing directory adds that file and leaves every directory as it was |
| FileTree.MkdirIntoDir | scripts/create-prototype.js:46-50 | creating a missing directory inside an existing one adds exactly that directory |
| FileTree.WriteAllShape | scripts/create-prototype.js:557-592 | writing distinct files into existing directories keeps the directories, places each file's content at its path, and changes no other file |
| FileTree.FileSystem.ExistsSync | scripts/create-prototype.js:510 | `existsSync` is true exactly when an entry exists at the path |
| FileTree.FileSystem.IsDirectory | scripts/quick-copy.js:28 | `isDirectory` is true exactly when a directory stands at the path |
| FileTree.FileSystem.MkdirRecursive | scripts/create-prototype.js:48 | a recursive `mkdirSync` succeeds on an existing directory, or when no file blocks the way, and then creates the missing directories |
| FileTree.FileSystem.WriteFileSync | scripts/create-prototype.js:54 | `writeFileSync` succeeds exactly when the parent directory exists and no directory stands at the path, and then places the file |
| FileTree.FileSystem.ReadFileSync | scripts/quick-copy.js:45 | `readFileSync` returns the content exactly when a file stands at the path |
| FileTree.FileSystem.ReaddirSync | scripts/quick-copy.js:22 | `readdirSync` lists each entry of a directory exactly once |
| FileTree.FileSystem.CopyFileSync | scripts/quick-copy.js:35 | `copyFileSync` succeeds exactly when the source is a file, the destination's parent is a directory and no directory is at the destination, and then the source file is put at the destination |
| Generator.PrototypePath | scripts/create-prototype.js:509 | the prototype goes to `prototypes/<trimmed name>` |
| Generator.CreateDirectoryEffect | scripts/create-prototype.js:46-50 | `createDirectory` fails only where a file blocks the way; where nothing stood at the path, a directory stands there afterwards; where something already stood there, file or directory, the tree is left as it is; a second call changes nothing |
| Generator.CreateDirectory | scripts/create-prototype.js:46-50 | the `fs` calls of `createDirectory` have the effect `CreateDirectoryResult` describes |
| Generator.WriteFile | scripts/create-prototype.js:52-55 | `writeFile` creates the parent directory, then writes the file |
| Generator.WriteBaseLayout | scripts/create-prototype.js:557-571 | writing the eleven base files is writing them one after the other, in the source's order |
| Generator.PrototypeTreeSteps | scripts/create-prototype.js:549-592 | a run's tree is the skeleton, then the base files, the optional files and `.gitignore`, written in order |
| Generator.ProjectFiles | scripts/create-prototype.js:557-592 | a run writes twelve files, plus one with mock data and one with Docker; the last is `.gitignore` with its template text |
| Generator.PrototypeTree | scripts/create-prototype.js:549-592 | the tree left under the prototype directory is a directory, and its `.gitignore` holds the template text |
| Generator.ProjectFilesPlaced | scripts/create-prototype.js:557-592 | every file is written below the prototype directory, never in its place |
| Generator.SkeletonShape | scripts/create-prototype.js:551-554 | the directory calls create the root, `src`, and `src/utils` exactly with mock data, and no file |
| Generator.ProjectPathsAgree | scripts/create-prototype.js:557-592 | the paths written depend only on the mock-data and Docker answers |
| Generator.BaseLayoutPaths | scripts/create-prototype.js:557-571 | the base files go to the same eleven paths, whatever their contents |
| Generator.BaseLayout | scripts/create-prototype.js:557-571 | the eleven base files go, in order, to the eleven base paths |
| Generator.BaseLayoutAt | scripts/create-prototype.js:557-571 | where the manifest, `index.html` and the README sit among the base files |
| Generator.BaseFilesPaths | scripts/create-prototype.js:557-571 | the base files of a run go to the eleven base paths |
| Generator.ProjectPathsDistinct | scripts/create-prototype.js:557-592 | no path is written twice |
| Generator.ProjectPathsPlaced | scripts/create-prototype.js:551-592 | every file goes into a directory the run created, and none is a directory |
| Generator.ProjectPathsWritable | scripts/create-prototype.js:551-592 | the files of a run can be written one after the other into its directories |
| Generator.PrototypeTreeShape | scripts/create-prototype.js:549-592 | a successful run leaves exactly the prototype's directories and the files written |
| Generator.PrototypeTreeContents | scripts/create-prototype.js:557-592 | each file holds the content it was written with |
| Generator.OptionalPaths | scripts/create-prototype.js:573-582 | the mock-data utility is among the paths exactly with mock data, the Dockerfile exactly with Docker |
| Generator.OptionalFiles | scripts/create-prototype.js:552-582 | `src/utils/mockData.ts` and `src/utils` exist exactly with mock data, the Dockerfile exactly with Docker |
| Generator.OptionalEntries | scripts/create-prototype.js:552-582 | a tree with exactly a prototype's directories and files has the mock-data utility and `src/utils` exactly with mock data, and the Dockerfile exactly with Docker |
| Generator.AlwaysWritten | scripts/create-prototype.js:557-592 | the base files and `.gitignore` are always written; 12 files plus one for each option |
| Generator.NamedFiles | scripts/create-prototype.js:557-571 | the manifest, `index.html` and the README carry the name as typed |
| Generator.NextStepAsWritten | scripts/create-prototype.js:596 | the printed first next step is the numbered `cd` command followed by `prototypes/` and the name exactly as typed |
| Generator.NextStep | scripts/create-prototype.js:596 | the corrected first next step is the same numbered `cd` command |
| Generator.CdTarget | scripts/create-prototype.js:596 | `cd prototypes/<s>` changes into `prototypes`, then `s`, for a name without a slash |
| Generator.NextStepNamesPrototype | scripts/create-prototype.js:509 | the corrected next step changes into the directory that was created |
| Generator.NextStepAsWrittenMissesPrototype | scripts/create-prototype.js:596 | for the name " demo", the printed step names a directory other than the one created |
| Generator.MakeSkeleton | scripts/create-prototype.js:551-554 | the directory calls succeed exactly when no file blocks the way to the prototype, and then put the skeleton there |
| Generator.FileSlotPlaced | scripts/create-prototype.js:557-592 | each file slot lies in one of the prototype's directories and is none of them |
| Generator.WriteInto | scripts/create-prototype.js:52-55 | writing one file inside the prototype adds it to the subtree and keeps its directories |
| Generator.Scaffold | scripts/create-prototype.js:549-592 | the `try` block succeeds exactly when the way to the prototype is open, and then puts the whole prototype tree there; otherwise nothing changes |
| Generator.Answers | scripts/create-prototype.js:517-538 | the answers to the three menus and the deployment line, each menu reading lines until one is accepted; there are none when the input ends first, and at least four lines are read when there are |
| Generator.FourAcceptedLines | scripts/create-prototype.js:517-538 | four lines whose first three are accepted answer the three menus and the deployment prompt in order |
| Generator.ReadAnswers | scripts/create-prototype.js:517-538 | the prompts after the name return exactly `Generator.Answers` of the lines typed |
| Generator.CreatePrototype | scripts/create-prototype.js:499-607 | a blank name and an existing prototype are refused before anything is written; the run ends without writing exactly when, past those guards, the lines after the name run out before the prompts are answered; a run that gets past the prompts uses `Generator.Answers` of those lines; it then fails, writing nothing, exactly when a file blocks the way to the prototype directory, and otherwise the tree gains exactly the prototype built from those answers; the next step reported is the line as printed, with the name as typed |
| Generator.CreatePrototypeWithTemplates | scripts/create-prototype.js:499-607 | the shipped generator refuses blank and existing names, ends when the input runs out before the prompts are answered, and otherwise creates exactly the prototype tree for `Generator.Answers` of the lines after the name, with the shipped template texts |
| QuickCopy.PrunedLookup | scripts/quick-copy.js:28-33 | the copy holds exactly what is reachable in the source without entering an excluded directory |
| QuickCopy.Pruned | scripts/quick-copy.js:17-38 | a copy of a directory is a directory whose entries are exactly the source's entries other than the skipped directories; a file is copied as it is |
| QuickCopy.CopiedFiles | scripts/quick-copy.js:34-36 | every file reachable without entering an excluded directory is copied with its content, and no other file is |
| QuickCopy.NoExcludedDirectory | scripts/quick-copy.js:30 | no directory of the copy, at any depth, is named `node_modules`, `dist` or `.git` |
| QuickCopy.CopiedDirectory | scripts/quick-copy.js:28-33 | a directory is copied exactly when its name is not excluded |
| QuickCopy.VisibleChild | scripts/quick-copy.js:28-32 | an entry is entered exactly when it is not an excluded directory |
| QuickCopy.CopiedEntriesAll | scripts/quick-copy.js:24-37 | after the loop over all entries, the destination is the pruned copy of the source |
| QuickCopy.CopyDirectory | scripts/quick-copy.js:17-38 | copying to a new destination succeeds exactly when the source is a directory, and it leaves the pruned copy of a directory source at the destination, or an empty directory for a file source |
| QuickCopy.CopyEntry | scripts/quick-copy.js:25-36 | one pass of the loop adds the pruned entry to the destination, or nothing for an excluded directory |
| QuickCopy.Renamed | scripts/quick-copy.js:45-48 | the manifest object gets the new name and version 0.1.0 and keeps every other field; `null` throws; other values are written back unchanged |
| QuickCopy.PatchEffect | scripts/quick-copy.js:40-49 | the manifest is rewritten exactly when it is readable, and nothing else changes; a missing manifest leaves the tree as it is |
| QuickCopy.Patch | scripts/quick-copy.js:40-49 | `updatePackageJson` succeeds exactly on a readable manifest; a missing manifest leaves the tree as it is; a rewritten manifest holds the renamed JSON |
| QuickCopy.UpdatePackageJson | scripts/quick-copy.js:40-49 | the `fs` calls of `updatePackageJson` have the effect `Patch` describes, and fail exactly when it does |
| QuickCopy.PatchBelow | scripts/quick-copy.js:97-102 | renaming a manifest inside the copy is renaming it in the copied subtree |
| QuickCopy.PrunedAlong | scripts/quick-copy.js:97-102 | the manifests of a copy are those of the source |
| QuickCopy.NextSteps | scripts/quick-copy.js:105-114 | the `cd react-app` step is printed exactly when the copy has `react-app`; the last two steps are always `npm install` and `npm start` |
| QuickCopy.CopySucceeds | scripts/quick-copy.js:92-102 | the `try` block completes exactly when the source is a directory and both manifests, where present, are JSON other than `null` |
| QuickCopy.CopyAndRename | scripts/quick-copy.js:92-102 | the destination is always a directory; the block completes only for a directory source; a file source leaves the empty directory and fails |
| QuickCopy.RootManifestRenamed | scripts/quick-copy.js:97-98 | after a complete copy, the root manifest has the new name and version 0.1.0 and keeps its other fields |
| QuickCopy.NestedManifestRenamed | scripts/quick-copy.js:101-102 | after a complete copy, the `react-app` manifest has the new name with `-app` appended, version 0.1.0, and keeps its other fields |
| QuickCopy.ReactAppKept | scripts/quick-copy.js:109-111 | the copy has `react-app` exactly when the source has it |
| QuickCopy.Run | scripts/quick-copy.js:51-121 | each early exit happens exactly on its condition and writes nothing; an admitted run leaves the copy at `prototypes/<trimmed name>`, succeeds exactly when the `try` block completes, and prints the next steps for the copy |
| ClassNames.Kept | shared/utils/cn.ts:6 | the filter keeps non-empty strings that are among the arguments, and no more than there are |
| ClassNames.KeptAppend | shared/utils/cn.ts:6 | the filter keeps the arguments' order |
| ClassNames.KeptOne | shared/utils/cn.ts:6 | a truthy argument is kept; `""`, `undefined`, `null` and `false` are dropped |
| ClassNames.KeptNone | shared/utils/cn.ts:6 | nothing is kept exactly when every argument is falsy |
| ClassNames.Cn | shared/utils/cn.ts:5-7 | `cn` returns `""` exactly when nothing is kept, the one kept class alone, and a space between classes when two or more are kept |
| ClassNames.CnEmpty | shared/utils/cn.ts:5-7 | `cn` returns `""` exactly when every argument is falsy |
| ClassNames.CnSingle | shared/utils/cn.ts:5-7 | one class name comes back unchanged |
| ClassNames.CnAppend | shared/utils/cn.ts:5-7 | two argument runs that each keep something are joined with one space |
| ClassNames.CnSplit | shared/utils/cn.ts:5-7 | when no class contains a space, splitting the result on spaces gives the kept classes back |
| Progress.StatusColor | prototypes/ander_metrics/react-app/src/MyProgressDashboard.tsx:76-83 | the grey default is returned exactly for an unknown status |
| Progress.StatusColorDistinguishes | prototypes/ander_metrics/react-app/src/MyProgressDashboard.tsx:76-83 | two statuses get the same colour exactly when they are equal or both unknown |
| Progress.StatusMessage | prototypes/ander_metrics/react-app/src/MyProgressDashboard.tsx:94-102 | the message opens with the qualified, at-risk or behind wording exactly for that status; every other status gets the behind wording |
| Progress.StatusMessageReportsRemaining | prototypes/ander_metrics/react-app/src/MyProgressDashboard.tsx:98-100 | the at-risk and behind messages state `total - completed`, and it reads back as that number |
| Progress.QualifiedMessageHasNoCount | prototypes/ander_metrics/react-app/src/MyProgressDashboard.tsx:96 | the qualified message depends only on the month, which ends it |
| Progress.LookupOrAsWritten | prototypes/ander_metrics/react-app/src/MyProgressDashboard.tsx:105-112 | `table[key] or fallback` on a plain object gives a string exactly when the key is not an `Object.prototype` member |
| Progress.LookupOr | prototypes/ander_metrics/react-app/src/MyProgressDashboard.tsx:105-112 | the corrected lookup gives the table's entry for a key it has, and the fallback otherwise |
| Progress.LookupAsWrittenDiffers | prototypes/ander_metrics/react-app/src/MyProgressDashboard.tsx:105-112 | the lookup as written and the corrected lookup agree exactly on keys that are not `Object.prototype` members |
| Progress.RankEmojiAsWritten | prototypes/ander_metrics/react-app/src/MyProgressDashboard.tsx:104-113 | `getRankEmoji` gives a string exactly for ranks that are not `Object.prototype` members |
| Progress.RankColorAsWritten | prototypes/ander_metrics/react-app/src/MyProgressDashboard.tsx:115-124 | `getRankColor` gives a string exactly for ranks that are not `Object.prototype` members |
| Progress.RankLookupAsWrittenConstructor | prototypes/ander_metrics/react-app/src/MyProgressDashboard.tsx:112 | the rank "constructor" gives an inherited function, not an emoji or a gradient |
| Progress.RankEmoji | prototypes/ander_metrics/react-app/src/MyProgressDashboard.tsx:104-113 | the corrected `getRankEmoji` always gives a non-empty string |
| Progress.RankColor | prototypes/ander_metrics/react-app/src/MyProgressDashboard.tsx:115-124 | the corrected `getRankColor` always gives a non-empty string |
| Progress.RankEmojiFallsBackToMarble | prototypes/ander_metrics/react-app/src/MyProgressDashboard.tsx:104-113 | a rank gets Marble's emoji exactly when it is Marble or unknown; the five known ranks get distinct emoji |
| Progress.RankColorFallsBackToMarble | prototypes/ander_metrics/react-app/src/MyProgressDashboard.tsx:115-124 | a rank gets Marble's gradient exactly when it is Marble or unknown; the five known ranks get distinct gradients |
| Progress.RankLookupsAgree | prototypes/ander_metrics/react-app/src/MyProgressDashboard.tsx:104-124 | the lookups as written agree with the intended ones exactly on the ranks that are not `Object.prototype` members; and the emoji and the gradient fall back together: a rank shows Marble's emoji exactly when it shows Marble's gradient |
| Progress.FormatTime | prototypes/ander_metrics/react-app/src/MyProgressDashboard.tsx:126-128 | the text is non-empty, and starts with '0' only for zero hours |
| Progress.FormatTimeReadsBack | prototypes/ander_metrics/react-app/src/MyProgressDashboard.tsx:126-128 | the hours read back from the front of the text, and the minutes from after "h " |
| Progress.TrendSeries | prototypes/ander_metrics/react-app/src/MyProgressDashboard.tsx:26-50 | every view has at least two points, and the last point of each is 87 for the user and 76 for the average |
| Progress.InsightReportsChange | prototypes/ander_metrics/react-app/src/MyProgressDashboard.tsx:130-145 | the insight opens with the improvement, decrease or stable wording exactly when the change is positive, negative or zero; it states the change, or its absolute value, which reads back; it ends with the view's timeframe |
| Progress.InsightNamesItsView | prototypes/ander_metrics/react-app/src/MyProgressDashboard.tsx:136 | an insight ends with the timeframe of its own view and not with another view's |
| Progress.Insight | prototypes/ander_metrics/react-app/src/MyProgressDashboard.tsx:130-145 | every insight ends with the timeframe of its view |
| Progress.TrendInsight | prototypes/ander_metrics/react-app/src/MyProgressDashboard.tsx:130-145 | the insight of the selected view ends with that view's timeframe |
| Progress.EveryViewImproves | prototypes/ander_metrics/react-app/src/MyProgressDashboard.tsx:26-50 | with the dashboard's data, every view reports an improvement |
| Progress.ToggledSP | prototypes/ander_metrics/react-app/src/MyProgressDashboard.tsx:391 | clicking a project opens it exactly when it was not the open one, and otherwise closes it |
| Progress.ToggleTwice | prototypes/ander_metrics/react-app/src/MyProgressDashboard.tsx:391 | clicking the same project twice restores the state when nothing or that project was open, and otherwise closes all |
| Progress.ClicksOpenOnlyTheLast | prototypes/ander_metrics/react-app/src/MyProgressDashboard.tsx:391 | after a series of clicks, at most the last project clicked is open |
| Progress.RepeatedClicks | prototypes/ander_metrics/react-app/src/MyProgressDashboard.tsx:391 | clicking one project n times leaves it open exactly when n is odd |
| Progress.ProgressView.constructor | prototypes/ander_metrics/react-app/src/MyProgressDashboard.tsx:6-8 | nothing is open and the week view is selected |
| Progress.ProgressView.ClickProject | prototypes/ander_metrics/react-app/src/MyProgressDashboard.tsx:391 | the open project is toggled, and the rest of the state is unchanged |
| Progress.ProgressView.ClickHistory | prototypes/ander_metrics/react-app/src/MyProgressDashboard.tsx:202 | the history panel is toggled, and the rest of the state is unchanged |
| Progress.ProgressView.SelectTrendView | prototypes/ander_metrics/react-app/src/MyProgressDashboard.tsx:268 | the view is set, and the rest of the state is unchanged |
| Progress.ProgressView.CurrentInsight | prototypes/ander_metrics/react-app/src/MyProgressDashboard.tsx:130-145 | the insight shown names the selected view's timeframe |
| ProgressDashboard.SpMarker | prototypes/ander_metrics/my_progress_dashboard.tsx:340 | the check mark exactly for a perfect score, the tick exactly for a non-perfect score of at least 70%, the circle exactly below 70% |
| ProgressDashboard.MarkerMonotone | prototypes/ander_metrics/my_progress_dashboard.tsx:340 | more correct answers never give a lower marker |
| ProgressDashboard.SpScoreReadsBack | prototypes/ander_metrics/my_progress_dashboard.tsx:340 | the score line states the number correct and the total, and both read back |
| ProgressDashboard.SpScore | prototypes/ander_metrics/my_progress_dashboard.tsx:340 | the score line opens with the marker and ends with " correct" |
| ProgressDashboard.AboveTargetLine | prototypes/ander_metrics/my_progress_dashboard.tsx:309-311 | the target line is shown exactly when the score is above 70 |
| ProgressDashboard.AboveTargetStatesMargin | prototypes/ander_metrics/my_progress_dashboard.tsx:310 | the target line states the positive margin above 70, which reads back |
| ProgressDashboard.AboveAverageShown | prototypes/ander_metrics/my_progress_dashboard.tsx:312-314 | the above-average line is shown exactly when the score beats the view's last average |
| ProgressDashboard.KnowledgeLinesShape | prototypes/ander_metrics/my_progress_dashboard.tsx:307-314 | the insight comes first, then the target line and the average line where they apply |
| ProgressDashboard.KnowledgeLines | prototypes/ander_metrics/my_progress_dashboard.tsx:307-314 | one to three lines, the insight first |
| ProgressDashboard.RankNote | prototypes/ander_metrics/my_progress_dashboard.tsx:266 | the "3% away" note is shown exactly for Marble, the expert note exactly for every other rank |
| ProgressDashboard.MarbleNoteMatchesLook | prototypes/ander_metrics/my_progress_dashboard.tsx:266 | the Marble note is shown for Marble only, while unknown ranks borrow Marble's look but get the expert note |
| ProgressDashboard.YourAnswer | prototypes/ander_metrics/my_progress_dashboard.tsx:372-376 | the "Your Answer" line is shown exactly for a wrong answer with a non-empty user answer, and it shows that answer |
| ProgressDashboard.ShownAnswer | prototypes/ander_metrics/my_progress_dashboard.tsx:379 | the answer shown is the correct answer when it is non-empty, and the plain answer otherwise |
| ProgressDashboard.AnswerLine | prototypes/ander_metrics/my_progress_dashboard.tsx:378-380 | the answer line is the tick for a right answer or the check mark for a wrong one, a space, then the answer shown |
| ProgressDashboard.AnswerLineShowsCorrectAnswer | prototypes/ander_metrics/my_progress_dashboard.tsx:378-380 | the answer line always shows the correct answer when the question has one |
| ProgressDashboard.QuestionIconAsWritten | prototypes/ander_metrics/my_progress_dashboard.tsx:368 | as written, the icon span is empty: the emoji goes into its class list |
| ProgressDashboard.QuestionIcon | prototypes/ander_metrics/my_progress_dashboard.tsx:368 | the corrected icon shows the check mark exactly for a right answer and the cross exactly for a wrong one |
| ProgressDashboard.QuestionIconMisplaced | prototypes/ander_metrics/my_progress_dashboard.tsx:368 | the span as written shows nothing, where the corrected span shows the icon |
| ProgressDashboard.QuestionLinesShape | prototypes/ander_metrics/my_progress_dashboard.tsx:370-386 | a question's lines are the icon span, empty as written, then its text, the user's answer where shown, the answer line, and the explanation where present |
| ProgressDashboard.QuestionLines | prototypes/ander_metrics/my_progress_dashboard.tsx:368-386 | three to five lines, the question second; the last is the explanation when there is one and the answer line otherwise |
| ProgressDashboard.DetailsShown | prototypes/ander_metrics/my_progress_dashboard.tsx:356 | the details panel is shown exactly when its project is open and has questions |
| ProgressDashboard.AtMostOneDetailsPanel | prototypes/ander_metrics/my_progress_dashboard.tsx:356 | two projects with different ids never both show details, and none does when nothing is open |
| ProgressDashboard.DashboardView.constructor | prototypes/ander_metrics/my_progress_dashboard.tsx:6-8 | nothing is open and the week view is selected |
| ProgressDashboard.DashboardView.ClickProject | prototypes/ander_metrics/my_progress_dashboard.tsx:332 | the open project is toggled, and the rest of the state is unchanged |
| ProgressDashboard.DashboardView.CloseDetails | prototypes/ander_metrics/my_progress_dashboard.tsx:360 | the close button closes every project, and the rest of the state is unchanged |
| ProgressDashboard.DashboardView.ClickHistory | prototypes/ander_metrics/my_progress_dashboard.tsx:202 | the history panel is toggled, and the rest of the state is unchanged |
| ProgressDashboard.DashboardView.SelectTrendView | prototypes/ander_metrics/my_progress_dashboard.tsx:279 | the view is set, and the rest of the state is unchanged |
| ProgressDashboard.DashboardView.ShowsDetails | prototypes/ander_metrics/my_progress_dashboard.tsx:356 | details are shown only for the open project, and only when it has questions |

## Left out

- Templates: every "exactly when" about a generated file (`Templates.MainRouting`, `Templates.AppRouting`, `Templates.AppMockData`, `Templates.AppImportsMatchUses`, `Templates.InReadme`, `Templates.ReadmeDeployAgrees` and the other README lemmas) is stated over the file's list of fragments: a fragment is rendered exactly when its answer was given. For the text itself only presence is proved (`Templates.FragmentOccurs`, `Templates.AppRoutesInText`). Absence from the text is not: another fragment, or the project name in the README, could contain the same characters.
- Template texts: the exact text of each fixed fragment is in `Templates.FragmentText`. The theorems hold for any fragment texts; the text of each fixed file (`tsconfig.json`, `index.css`, the Dockerfile and the rest) is only written, not inspected.
- JSON text: `JSON.stringify(…, null, 2)` and `JSON.parse` are not modelled as text. A file holds either a JSON value or other text, and reading text that is not JSON throws. Key order in objects is not modelled.
- Paths: `path.join` normalisation is not modelled (`..`, `.`, absolute names, a name containing '/'). A path is a sequence of names below the repository root.
- Input: `readline` becomes the list of lines typed. A run whose input ends before a question is answered is the `InputEnded` outcome, which writes nothing.
- Console output, `process.exit` codes, and the list of prototypes printed when the source is missing are left out. Each early exit is an outcome instead.
- Generator.CreatePrototype: only the first next step (`  1. cd prototypes/<name>`) is carried in the outcome; the fixed lines `  2. npm install` and `  3. npm start` and the documentation line after them are console output and are not modelled.
- Numbers are unbounded integers. `String()` of a Number of magnitude 10^21 or more (which JavaScript renders in exponent form, so that `parseInt` reads back only its leading digits), and non-integer Numbers, are not modelled; `Text.NatToString`, `Text.IntToString`, `JsParse.ParseIntToString` and `JsParse.ParseIntPrefix` hold for the model's integers only. No value in the modelled code reaches that range.
- QuickCopy.CopyDirectory: it is specified only for a destination that does not exist yet and lies outside the source. Refusing an existing destination does not ensure the second: what keeps the destination apart is the path model, where every prototype is one name below `prototypes` and names with '/' or '.' are not modelled. In the source, a new name such as `ander_metrics/copy` (or the source `.`) puts the destination inside the source; `copyDirectory` creates it before listing the source, finds its own copy and recurses into it until an `fs` call fails, leaving a partial nested copy. That run is not modelled.
- I/O failures other than a file blocking the way (a full disk, EIO, EACCES) are not modelled. After one, the source logs the error and exits without rollback, leaving the directories and files written so far; `Generator.CreatePrototype` and `QuickCopy.Run` model no such partial run.
- Symbolic links and file permissions are not modelled. `readdirSync` returns the entries in some order, and the result does not depend on it.
- QuickCopy.NextSteps: the first step uses the name as typed, as the source prints it. This is the same slip as the generator's finding below; both scripts' runs report the line as written, and the generator's corrected line is `Generator.NextStep`.
- The mock-data utility's use of Faker, and `execSync`, which neither script calls, are left out.
- The dashboards' JSX layout, charts, icons (`getStatusIcon`), progress-bar widths and the impact percentages are left out. So are the constant data tables other than the trend data.
- Strings are sequences of code points. JavaScript's UTF-16 lengths are not modelled.
- Progress.Insight: it requires at least two points, as `data.length - 2` needs. Every series of the dashboard has them (`Progress.TrendSeries`).
- ProgressDashboard.SpMarker: `correct >= total * 0.7` is modelled as the exact test `10 * correct >= 7 * total`. The binary rounding of 0.7 is not modelled.
- Progress.ProgressView.SelectTrendView: the view is one of three values. The standalone dashboard's `setTrendView(view)` accepts any string, but its buttons pass only these three.
- Both dashboards' history button is a plain negation. It is modelled once per view class.
- The shared card editor, the UI component wrappers and the other prototypes of the repository are not part of this model.

## Findings

| source | as written | input that shows it | evidently intended | confidence | as-written member | corrected member |
|---|---|---|---|---|---|---|
| prototypes/ander_metrics/react-app/src/MyProgressDashboard.tsx:104-124 | `ranks[rank]`, or Marble's emoji when that is falsy, on a plain object literal finds inherited `Object.prototype` members | rank "constructor" gives an inherited function instead of an emoji or a gradient | unknown ranks, inherited names included, fall back to Marble's emoji and gradient | not executed | Progress.RankLookupAsWrittenConstructor | Progress.RankEmojiFallsBackToMarble |
| scripts/create-prototype.js:596 | the first next step prints `cd prototypes/${name}` with the name as typed, while the directory was created with the trimmed name (line 509) | name " demo" creates `prototypes/demo`, but the step says `cd prototypes/ demo` | the step names the directory that was created | not executed | Generator.NextStepAsWrittenMissesPrototype | Generator.NextStepNamesPrototype |
| prototypes/ander_metrics/my_progress_dashboard.tsx:368 | the ✅/❌ icon is interpolated into the span's `className`, and the span has no content | any question: the span renders empty | the span shows ✅ for a right answer and ❌ for a wrong one | not executed | ProgressDashboard.QuestionIconAsWritten | ProgressDashboard.QuestionIcon |
