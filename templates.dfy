/**
  The text generators of the prototype generator. `generateMainTsx`,
  `generateAppTsx` and `generateReadme` build their text by appending fixed
  fragments, and the project name, under the feature flags. Each is a method
  here, proved to produce the rendering of a list of pieces that a function
  gives declaratively; the lemmas say which fragments that list holds for
  which flags, and so which text the file contains. The other renderers
  return fixed text.
*/
module Templates {
  import opened Text
  import opened Manifest

  /** The fixed fragments of the generated files. */
  datatype Fragment =
    | MainBaseImports
    | BrowserRouterImport
    | LineBreak
    | RenderOpen
    | RouterWrappedApp
    | PlainApp
    | RenderClose
    | UseStateImport
    | RouterImport
    | MockImport
    | ComponentOpen
    | MockCall
    | ReturnOpenHead
    | ReturnOpenTail
    | RoutedHeading
    | PlainHeading
    | NavAndRoutes
    | WelcomeHead
    | MockDump
    | WelcomeTail
    | ComponentClose
    | PageComponents
    | ExportDefault
    | ReadmeTitle
    | ReadmeIntro
    | ShadcnBullet
    | MuiBullet
    | HeadlessBullet
    | RouterBullet
    | FakerBullet
    | DevelopmentAndBuild
    | VercelSection
    | NetlifySection
    | DockerHead
    | DockerMiddle
    | DockerTail
    | SharedResources
    | ViteConfig
    | TsConfig
    | TsConfigNode
    | TailwindConfig
    | PostCssConfig
    | IndexCss
    | MockDataUtil
    | Dockerfile
    | IndexHtmlHead
    | IndexHtmlTail
    | Gitignore

  /** The text of a fragment, as the generator writes it. */
  function FragmentText(fr: Fragment): string {
    match fr
    case MainBaseImports => @"import React from 'react'
import ReactDOM from 'react-dom/client'
import App from './App.tsx'
import './index.css'
"
    case BrowserRouterImport => "import { BrowserRouter } from 'react-router-dom'\n"
    case LineBreak => "\n"
    case RenderOpen => @"ReactDOM.createRoot(document.getElementById('root')!).render(
  <React.StrictMode>"
    case RouterWrappedApp => @"
    <BrowserRouter>
      <App />
    </BrowserRouter>"
    case PlainApp => "\n    <App />"
    case RenderClose => "\n  </React.StrictMode>,\n)\n"
    case UseStateImport => "import { useState } from 'react'\n"
    case RouterImport => @"import { Routes, Route, Link } from 'react-router-dom'
"
    case MockImport => @"import { generateMockData } from './utils/mockData'
"
    case ComponentOpen => @"
function App() {
  const [count, setCount] = useState(0)
"
    case MockCall => "  const mockData = generateMockData()\n"
    case ReturnOpenHead => @"
  return (
    <div className=""min-h-screen bg-gray-50"">
      <header className=""bg-white shadow"">
        <div className=""max-w-7xl mx-auto py-6 px-4"">
          <h1 className=""text-3xl font-bold text-gray-900"">
            "
    case ReturnOpenTail => @"
          </h1>
        </div>
      </header>
      <main className=""max-w-7xl mx-auto py-6 px-4"">
"
    case RoutedHeading => "Prototype with Routing"
    case PlainHeading => "Prototype"
    case NavAndRoutes => @"        <nav className=""mb-6 space-x-4"">
          <Link to=""/"" className=""text-blue-600 hover:text-blue-800"">Home</Link>
          <Link to=""/about"" className=""text-blue-600 hover:text-blue-800"">About</Link>
        </nav>
        <Routes>
          <Route path=""/"" element={<HomePage count={count} setCount={setCount} />} />
          <Route path=""/about"" element={<AboutPage />} />
        </Routes>
"
    case WelcomeHead => @"        <div className=""bg-white rounded-lg shadow p-6"">
          <h2 className=""text-2xl font-semibold mb-4"">Welcome!</h2>
          <p className=""text-gray-600 mb-4"">Your prototype is ready.</p>
          <button
            onClick={() => setCount(count + 1)}
            className=""bg-blue-600 text-white px-4 py-2 rounded hover:bg-blue-700""
          >
            Count: {count}
          </button>"
    case MockDump => @"
          <div className=""mt-4"">
            <h3 className=""font-semibold"">Mock Data:</h3>
            <pre className=""text-sm bg-gray-50 p-2 mt-2 rounded"">{JSON.stringify(mockData, null, 2)}</pre>
          </div>"
    case WelcomeTail => "\n        </div>\n"
    case ComponentClose => "      </main>\n    </div>\n  )\n}\n\n"
    case PageComponents => @"function HomePage({ count, setCount }: { count: number; setCount: (n: number) => void }) {
  return (
    <div className=""bg-white rounded-lg shadow p-6"">
      <h2 className=""text-2xl font-semibold mb-4"">Home Page</h2>
      <button
        onClick={() => setCount(count + 1)}
        className=""bg-blue-600 text-white px-4 py-2 rounded hover:bg-blue-700""
      >
        Count: {count}
      </button>
    </div>
  )
}

function AboutPage() {
  return (
    <div className=""bg-white rounded-lg shadow p-6"">
      <h2 className=""text-2xl font-semibold mb-4"">About Page</h2>
      <p className=""text-gray-600"">This is a prototype built with the Prototype Builder.</p>
    </div>
  )
}

"
    case ExportDefault => "export default App\n"
    case ReadmeTitle => "# "
    case ReadmeIntro => @"

A UI/UX prototype created with Prototype Builder.

## Features

- React 18 + TypeScript
- Vite for fast development
- Tailwind CSS for styling
"
    case ShadcnBullet => "- shadcn/ui component library\n"
    case MuiBullet => "- Material-UI component library\n"
    case HeadlessBullet => "- Headless UI components\n"
    case RouterBullet => "- React Router for navigation\n"
    case FakerBullet => "- Faker.js for mock data generation\n"
    case DevelopmentAndBuild => @"
## Development

```bash
npm install
npm start
```

Open [http://localhost:5173](http://localhost:5173) in your browser.

## Build

```bash
npm run build
npm run preview
```

"
    case VercelSection => @"## Deploy to Vercel

```bash
npm run deploy:vercel
```

"
    case NetlifySection => @"## Deploy to Netlify

```bash
npm run deploy:netlify
```

"
    case DockerHead => "## Docker\n\n```bash\ndocker build -t "
    case DockerMiddle => " .\ndocker run -p 4173:4173 "
    case DockerTail => "\n```\n\n"
    case SharedResources => @"## Shared Resources

This prototype can use shared components and utilities from `../../shared/`:

```typescript
import { Button } from '@shared/components/Button'
import { api } from '@shared/libs/api'
```
"
    case ViteConfig => @"import { defineConfig } from 'vite'
import react from '@vitejs/plugin-react'
import path from 'path'

export default defineConfig({
  plugins: [react()],
  resolve: {
    alias: {
      '@': path.resolve(__dirname, './src'),
      '@shared': path.resolve(__dirname, '../../shared'),
    },
  },
})
"
    case TsConfig => @"{
  ""compilerOptions"": {
    ""target"": ""ES2020"",
    ""useDefineForClassFields"": true,
    ""lib"": [""ES2020"", ""DOM"", ""DOM.Iterable""],
    ""module"": ""ESNext"",
    ""skipLibCheck"": true,
    ""moduleResolution"": ""bundler"",
    ""allowImportingTsExtensions"": true,
    ""resolveJsonModule"": true,
    ""isolatedModules"": true,
    ""noEmit"": true,
    ""jsx"": ""react-jsx"",
    ""strict"": true,
    ""noUnusedLocals"": true,
    ""noUnusedParameters"": true,
    ""noFallthroughCasesInSwitch"": true,
    ""baseUrl"": ""."",
    ""paths"": {
      ""@/*"": [""./src/*""],
      ""@shared/*"": [""../../shared/*""]
    }
  },
  ""include"": [""src""],
  ""references"": [{ ""path"": ""./tsconfig.node.json"" }]
}
"
    case TsConfigNode => @"{
  ""compilerOptions"": {
    ""composite"": true,
    ""skipLibCheck"": true,
    ""module"": ""ESNext"",
    ""moduleResolution"": ""bundler"",
    ""allowSyntheticDefaultImports"": true
  },
  ""include"": [""vite.config.ts""]
}
"
    case TailwindConfig => @"/** @type {import('tailwindcss').Config} */
export default {
  content: [
    ""./index.html"",
    ""./src/**/*.{js,ts,jsx,tsx}"",
    ""../../shared/**/*.{js,ts,jsx,tsx}"",
  ],
  theme: {
    extend: {},
  },
  plugins: [],
}
"
    case PostCssConfig => @"export default {
  plugins: {
    tailwindcss: {},
    autoprefixer: {},
  },
}
"
    case IndexCss => @"@tailwind base;
@tailwind components;
@tailwind utilities;

:root {
  font-family: Inter, system-ui, Avenir, Helvetica, Arial, sans-serif;
  line-height: 1.5;
  font-weight: 400;
}
"
    case MockDataUtil => @"import { faker } from '@faker-js/faker'

export function generateMockData() {
  return {
    user: {
      id: faker.string.uuid(),
      name: faker.person.fullName(),
      email: faker.internet.email(),
      avatar: faker.image.avatar(),
    },
    items: Array.from({ length: 5 }, () => ({
      id: faker.string.uuid(),
      title: faker.commerce.productName(),
      description: faker.commerce.productDescription(),
      price: faker.commerce.price(),
    })),
  }
}

export function generateMockUsers(count: number = 10) {
  return Array.from({ length: count }, () => ({
    id: faker.string.uuid(),
    name: faker.person.fullName(),
    email: faker.internet.email(),
    avatar: faker.image.avatar(),
    role: faker.helpers.arrayElement(['admin', 'user', 'guest']),
  }))
}
"
    case Dockerfile => @"FROM node:18-alpine

WORKDIR /app

COPY package*.json ./
RUN npm install

COPY . .

RUN npm run build

EXPOSE 4173

CMD [""npm"", ""run"", ""preview""]
"
    case IndexHtmlHead => @"<!doctype html>
<html lang=""en"">
  <head>
    <meta charset=""UTF-8"" />
    <link rel=""icon"" type=""image/svg+xml"" href=""/vite.svg"" />
    <meta name=""viewport"" content=""width=device-width, initial-scale=1.0"" />
    <title>"
    case IndexHtmlTail => @"</title>
  </head>
  <body>
    <div id=""root""></div>
    <script type=""module"" src=""/src/main.tsx""></script>
  </body>
</html>
"
    case Gitignore => "node_modules\ndist\n.DS_Store\n*.local\n"
  }

  /** A piece of a generated file: fixed text, or the project name. */
  datatype Piece = Fixed(fragment: Fragment) | Name(name: string)

  /** The text of each piece, the fixed ones written as `text` says. The
      rendering is stated for any text of the fragments, so that the lemmas
      about it never look inside the fragments. */
  function Texts(ps: seq<Piece>, text: Fragment -> string): seq<string> {
    if ps == [] then []
    else [match ps[0] case Fixed(fr) => text(fr) case Name(s) => s] + Texts(ps[1..], text)
  }

  /** The file a list of pieces makes. */
  function Render(ps: seq<Piece>, text: Fragment -> string): string {
    Concat(Texts(ps, text))
  }

  /** A fragment when a flag is on, nothing otherwise. */
  function When(b: bool, fr: Fragment): seq<Piece> {
    if b then [Fixed(fr)] else []
  }

  /** A fragment is in `When(b, fr)` exactly when it is `fr` and `b` holds. */
  lemma InWhen(b: bool, fr: Fragment, x: Fragment)
    ensures Fixed(x) in When(b, fr) <==> b && x == fr
  {
  }

  lemma {:induction false} TextsAppend(ps: seq<Piece>, qs: seq<Piece>, text: Fragment -> string)
    ensures Texts(ps + qs, text) == Texts(ps, text) + Texts(qs, text)
  {
    if ps == [] {
      assert ps + qs == qs;
    } else {
      assert (ps + qs)[1..] == ps[1..] + qs;
      TextsAppend(ps[1..], qs, text);
    }
  }

  lemma RenderAppend(ps: seq<Piece>, qs: seq<Piece>, text: Fragment -> string)
    ensures Render(ps + qs, text) == Render(ps, text) + Render(qs, text)
  {
    TextsAppend(ps, qs, text);
    ConcatAppend(Texts(ps, text), Texts(qs, text));
  }

  lemma RenderFixed(ps: seq<Piece>, fr: Fragment, text: Fragment -> string)
    ensures Render(ps + [Fixed(fr)], text) == Render(ps, text) + text(fr)
  {
    RenderAppend(ps, [Fixed(fr)], text);
    assert Texts([Fixed(fr)], text) == [text(fr)];
    ConcatSnoc([], text(fr));
  }

  lemma RenderSingle(fr: Fragment, text: Fragment -> string)
    ensures Render([Fixed(fr)], text) == text(fr)
  {
    assert Texts([Fixed(fr)], text) == [text(fr)];
    ConcatSnoc([], text(fr));
  }

  lemma RenderWhen(ps: seq<Piece>, b: bool, fr: Fragment, text: Fragment -> string)
    ensures Render(ps + When(b, fr), text) == Render(ps, text) + (if b then text(fr) else [])
  {
    if b {
      RenderFixed(ps, fr, text);
    } else {
      assert ps + When(b, fr) == ps;
    }
  }

  lemma RenderName(ps: seq<Piece>, name: string, text: Fragment -> string)
    ensures Render(ps + [Name(name)], text) == Render(ps, text) + name
  {
    RenderAppend(ps, [Name(name)], text);
    assert Texts([Name(name)], text) == [name];
    ConcatSnoc([], name);
  }

  lemma {:induction false} TextsAt(ps: seq<Piece>, i: nat, fr: Fragment, text: Fragment -> string)
    requires i < |ps| && ps[i] == Fixed(fr)
    ensures i < |Texts(ps, text)| && Texts(ps, text)[i] == text(fr)
  {
    if i > 0 {
      TextsAt(ps[1..], i - 1, fr, text);
    }
  }

  /** A fragment among the pieces is part of the text they make. */
  lemma FragmentOccurs(ps: seq<Piece>, fr: Fragment, text: Fragment -> string)
    requires Fixed(fr) in ps
    ensures Occurs(text(fr), Render(ps, text))
  {
    var i :| 0 <= i < |ps| && ps[i] == Fixed(fr);
    TextsAt(ps, i, fr, text);
    OccursInConcat(Texts(ps, text), i);
  }

  // src/main.tsx

  function MainImports(f: Features): seq<Piece> {
    [Fixed(MainBaseImports)] + When(f.routing, BrowserRouterImport)
  }

  function MainRender(f: Features): seq<Piece> {
    [Fixed(RenderOpen)] + [Fixed(if f.routing then RouterWrappedApp else PlainApp)] + [Fixed(RenderClose)]
  }

  /** The pieces of src/main.tsx, in order: the imports, an empty line, the
      render call. */
  function MainTsx(f: Features): seq<Piece> {
    MainImports(f) + [Fixed(LineBreak)] + MainRender(f)
  }

  /** `generateMainTsx(features)`. */
  method GenerateMainTsx(f: Features, fragments: Fragment -> string) returns (text: string)
    ensures text == Render(MainTsx(f), fragments)
  {
    var imports := fragments(MainBaseImports);
    ghost var ip := [Fixed(MainBaseImports)];
    RenderSingle(MainBaseImports, fragments);
    if f.routing {
      imports := imports + fragments(BrowserRouterImport);
    }
    RenderWhen(ip, f.routing, BrowserRouterImport, fragments);
    ip := ip + When(f.routing, BrowserRouterImport);

    var render := fragments(RenderOpen);
    ghost var rp := [Fixed(RenderOpen)];
    RenderSingle(RenderOpen, fragments);
    var app := if f.routing then RouterWrappedApp else PlainApp;
    RenderFixed(rp, app, fragments);
    render, rp := render + fragments(app), rp + [Fixed(app)];
    RenderFixed(rp, RenderClose, fragments);
    render, rp := render + fragments(RenderClose), rp + [Fixed(RenderClose)];

    RenderFixed(ip, LineBreak, fragments);
    RenderAppend(ip + [Fixed(LineBreak)], rp, fragments);
    text := imports + fragments(LineBreak) + render;
  }

  /** main.tsx imports `BrowserRouter` exactly when routing is on, and wraps
      the app in it exactly then; whatever the fragments read, the import
      then occurs in the text. */
  lemma MainRouting(f: Features, text: Fragment -> string)
    ensures Fixed(BrowserRouterImport) in MainTsx(f) <==> f.routing
    ensures Fixed(RouterWrappedApp) in MainTsx(f) <==> f.routing
    ensures Fixed(PlainApp) in MainTsx(f) <==> !f.routing
    ensures f.routing ==> Occurs(text(BrowserRouterImport), Render(MainTsx(f), text))
  {
    if f.routing {
      FragmentOccurs(MainTsx(f), BrowserRouterImport, text);
    }
  }

  // src/App.tsx

  function AppImports(f: Features): seq<Piece> {
    [Fixed(UseStateImport)] + When(f.routing, RouterImport) + When(f.mockData, MockImport)
  }

  /** The heading the page shows. */
  function Heading(f: Features): Fragment {
    if f.routing then RoutedHeading else PlainHeading
  }

  /** The page body: the navigation and routes, or the welcome card with the
      inline mock-data dump when there is mock data. */
  function AppMain(f: Features): seq<Piece> {
    if f.routing then [Fixed(NavAndRoutes)]
    else [Fixed(WelcomeHead)] + When(f.mockData, MockDump) + [Fixed(WelcomeTail)]
  }

  function AppComponent(f: Features): seq<Piece> {
    [Fixed(ComponentOpen)] + When(f.mockData, MockCall) + [Fixed(ReturnOpenHead)] + [Fixed(Heading(f))]
      + [Fixed(ReturnOpenTail)] + AppMain(f) + [Fixed(ComponentClose)] + When(f.routing, PageComponents)
      + [Fixed(ExportDefault)]
  }

  /** The pieces of src/App.tsx, in order. */
  function AppTsx(f: Features): seq<Piece> {
    AppImports(f) + AppComponent(f)
  }

  /** `generateAppTsx(features)`. */
  method GenerateAppTsx(f: Features, fragments: Fragment -> string) returns (text: string)
    ensures text == Render(AppTsx(f), fragments)
  {
    var imports := fragments(UseStateImport);
    ghost var ip := [Fixed(UseStateImport)];
    RenderSingle(UseStateImport, fragments);
    if f.routing {
      imports := imports + fragments(RouterImport);
    }
    RenderWhen(ip, f.routing, RouterImport, fragments);
    ip := ip + When(f.routing, RouterImport);
    if f.mockData {
      imports := imports + fragments(MockImport);
    }
    RenderWhen(ip, f.mockData, MockImport, fragments);
    ip := ip + When(f.mockData, MockImport);

    var component := fragments(ComponentOpen);
    ghost var cp := [Fixed(ComponentOpen)];
    RenderSingle(ComponentOpen, fragments);
    if f.mockData {
      component := component + fragments(MockCall);
    }
    RenderWhen(cp, f.mockData, MockCall, fragments);
    cp := cp + When(f.mockData, MockCall);
    RenderFixed(cp, ReturnOpenHead, fragments);
    component, cp := component + fragments(ReturnOpenHead), cp + [Fixed(ReturnOpenHead)];
    var heading := if f.routing then RoutedHeading else PlainHeading;
    RenderFixed(cp, heading, fragments);
    component, cp := component + fragments(heading), cp + [Fixed(heading)];
    RenderFixed(cp, ReturnOpenTail, fragments);
    component, cp := component + fragments(ReturnOpenTail), cp + [Fixed(ReturnOpenTail)];
    component, cp := AppendMain(component, cp, f, fragments);
    RenderFixed(cp, ComponentClose, fragments);
    component, cp := component + fragments(ComponentClose), cp + [Fixed(ComponentClose)];
    if f.routing {
      component := component + fragments(PageComponents);
    }
    RenderWhen(cp, f.routing, PageComponents, fragments);
    cp := cp + When(f.routing, PageComponents);
    RenderFixed(cp, ExportDefault, fragments);
    component, cp := component + fragments(ExportDefault), cp + [Fixed(ExportDefault)];

    RenderAppend(ip, cp, fragments);
    text := imports + component;
  }

  /** The page body of App.tsx appended to `component`. */
  method AppendMain(component: string, ghost cp: seq<Piece>, f: Features, fragments: Fragment -> string)
    returns (component': string, ghost cp': seq<Piece>)
    requires component == Render(cp, fragments)
    ensures component' == component + Render(AppMain(f), fragments)
    ensures cp' == cp + AppMain(f)
    ensures component' == Render(cp', fragments)
  {
    var main: string;
    if f.routing {
      main := fragments(NavAndRoutes);
      RenderSingle(NavAndRoutes, fragments);
    } else {
      main := fragments(WelcomeHead);
      ghost var mp := [Fixed(WelcomeHead)];
      RenderSingle(WelcomeHead, fragments);
      if f.mockData {
        main := main + fragments(MockDump);
      }
      RenderWhen(mp, f.mockData, MockDump, fragments);
      mp := mp + When(f.mockData, MockDump);
      RenderFixed(mp, WelcomeTail, fragments);
      main := main + fragments(WelcomeTail);
    }
    RenderAppend(cp, AppMain(f), fragments);
    component', cp' := component + main, cp + AppMain(f);
  }

  /** Which fixed fragments the imports of App.tsx hold. */
  lemma InAppImports(f: Features, x: Fragment)
    ensures Fixed(x) in AppImports(f) <==>
      x == UseStateImport || (x == RouterImport && f.routing) || (x == MockImport && f.mockData)
  {
  }

  /** Which fixed fragments the page body holds. */
  lemma InAppMain(f: Features, x: Fragment)
    ensures Fixed(x) in AppMain(f) <==>
      if f.routing then x == NavAndRoutes
      else x == WelcomeHead || x == WelcomeTail || (x == MockDump && f.mockData)
  {
  }

  /** Which fixed fragments the component holds, besides its page body. */
  lemma InAppComponent(f: Features, x: Fragment)
    ensures Fixed(x) in AppComponent(f) <==>
      x == ComponentOpen || x == ReturnOpenHead || x == Heading(f) || x == ReturnOpenTail
      || x == ComponentClose || x == ExportDefault || (x == MockCall && f.mockData)
      || (x == PageComponents && f.routing) || Fixed(x) in AppMain(f)
  {
    InWhen(f.mockData, MockCall, x);
    InWhen(f.routing, PageComponents, x);
  }

  /** Which fixed fragments App.tsx holds. */
  lemma InApp(f: Features, x: Fragment)
    ensures Fixed(x) in AppTsx(f) <==> Fixed(x) in AppImports(f) || Fixed(x) in AppComponent(f)
  {
  }

  /** App.tsx has the router import, the navigation with `Routes` and `Link`,
      the `HomePage` and `AboutPage` components and the routed heading exactly
      when routing is on; without routing it has the plain heading and the
      welcome card instead. */
  lemma AppRouting(f: Features, x: Fragment)
    requires x == RouterImport || x == NavAndRoutes || x == PageComponents || x == RoutedHeading
    ensures Fixed(x) in AppTsx(f) <==> f.routing
    ensures Fixed(PlainHeading) in AppTsx(f) <==> !f.routing
    ensures Fixed(WelcomeHead) in AppTsx(f) <==> !f.routing
  {
    InApp(f, x);
    InAppImports(f, x);
    InAppComponent(f, x);
    InAppMain(f, x);
    InApp(f, PlainHeading);
    InAppImports(f, PlainHeading);
    InAppComponent(f, PlainHeading);
    InAppMain(f, PlainHeading);
    InApp(f, WelcomeHead);
    InAppImports(f, WelcomeHead);
    InAppComponent(f, WelcomeHead);
    InAppMain(f, WelcomeHead);
  }

  /** With routing, the text of App.tsx holds the routes and the two page
      components they render, whatever the fragments read. */
  lemma AppRoutesInText(f: Features, text: Fragment -> string)
    requires f.routing
    ensures Occurs(text(NavAndRoutes), Render(AppTsx(f), text))
    ensures Occurs(text(PageComponents), Render(AppTsx(f), text))
  {
    AppRouting(f, NavAndRoutes);
    AppRouting(f, PageComponents);
    FragmentOccurs(AppTsx(f), NavAndRoutes, text);
    FragmentOccurs(AppTsx(f), PageComponents, text);
  }

  /** The mock-data import and the call that defines `mockData` appear
      exactly when mock data is on; the inline dump of the data only when mock
      data is on and routing is off. */
  lemma AppMockData(f: Features, x: Fragment)
    requires x == MockImport || x == MockCall
    ensures Fixed(x) in AppTsx(f) <==> f.mockData
    ensures Fixed(MockDump) in AppTsx(f) <==> f.mockData && !f.routing
  {
    InApp(f, x);
    InAppImports(f, x);
    InAppComponent(f, x);
    InAppMain(f, x);
    InApp(f, MockDump);
    InAppImports(f, MockDump);
    InAppComponent(f, MockDump);
    InAppMain(f, MockDump);
  }

  /** What App.tsx uses it imports, and the reverse: the router import goes
      with the routes, the mock-data import with its call, and the dump only
      with the call that defines `mockData`. */
  lemma AppImportsMatchUses(f: Features)
    ensures Fixed(RouterImport) in AppTsx(f) <==> Fixed(NavAndRoutes) in AppTsx(f)
    ensures Fixed(MockImport) in AppTsx(f) <==> Fixed(MockCall) in AppTsx(f)
    ensures Fixed(MockDump) in AppTsx(f) ==> Fixed(MockCall) in AppTsx(f)
  {
    AppRouting(f, RouterImport);
    AppRouting(f, NavAndRoutes);
    AppMockData(f, MockImport);
    AppMockData(f, MockCall);
  }

  // README.md

  function LibraryBullet(lib: ComponentLib): seq<Piece> {
    match lib
    case NoLibrary => []
    case Shadcn => [Fixed(ShadcnBullet)]
    case Mui => [Fixed(MuiBullet)]
    case Headless => [Fixed(HeadlessBullet)]
  }

  /** The Docker section names the image after the project, twice. */
  function DockerSection(name: string, deployment: seq<Deploy>): seq<Piece> {
    if Docker in deployment
    then [Fixed(DockerHead), Name(name), Fixed(DockerMiddle), Name(name), Fixed(DockerTail)]
    else []
  }

  /** The feature bullets after the fixed ones. */
  function Bullets(f: Features): seq<Piece> {
    LibraryBullet(f.componentLib) + When(f.routing, RouterBullet) + When(f.mockData, FakerBullet)
  }

  /** The deployment sections, in the order Vercel, Netlify, Docker. */
  function DeploySections(name: string, deployment: seq<Deploy>): seq<Piece> {
    When(Vercel in deployment, VercelSection) + When(Netlify in deployment, NetlifySection)
      + DockerSection(name, deployment)
  }

  /** The pieces of README.md, in order; `name` is the name as typed. */
  function Readme(name: string, f: Features, deployment: seq<Deploy>): seq<Piece> {
    [Fixed(ReadmeTitle)] + [Name(name)] + [Fixed(ReadmeIntro)] + Bullets(f) + [Fixed(DevelopmentAndBuild)]
      + DeploySections(name, deployment) + [Fixed(SharedResources)]
  }

  /** `generateReadme(name, features, deployment)`. */
  method GenerateReadme(name: string, f: Features, deployment: seq<Deploy>, fragments: Fragment -> string)
    returns (content: string)
    ensures content == Render(Readme(name, f, deployment), fragments)
  {
    content := fragments(ReadmeTitle);
    ghost var p := [Fixed(ReadmeTitle)];
    RenderSingle(ReadmeTitle, fragments);
    RenderName(p, name, fragments);
    content, p := content + name, p + [Name(name)];
    RenderFixed(p, ReadmeIntro, fragments);
    content, p := content + fragments(ReadmeIntro), p + [Fixed(ReadmeIntro)];
    var bullets := FeatureBullets(f, fragments);
    RenderAppend(p, Bullets(f), fragments);
    content, p := content + bullets, p + Bullets(f);
    RenderFixed(p, DevelopmentAndBuild, fragments);
    content, p := content + fragments(DevelopmentAndBuild), p + [Fixed(DevelopmentAndBuild)];
    var sections := DeploymentSections(name, deployment, fragments);
    RenderAppend(p, DeploySections(name, deployment), fragments);
    content, p := content + sections, p + DeploySections(name, deployment);
    RenderFixed(p, SharedResources, fragments);
    content := content + fragments(SharedResources);
  }

  /** The feature bullets the README lists after the fixed ones. */
  method FeatureBullets(f: Features, fragments: Fragment -> string) returns (bullets: string)
    ensures bullets == Render(Bullets(f), fragments)
  {
    if f.componentLib == Shadcn {
      bullets := fragments(ShadcnBullet);
      RenderSingle(ShadcnBullet, fragments);
    } else if f.componentLib == Mui {
      bullets := fragments(MuiBullet);
      RenderSingle(MuiBullet, fragments);
    } else if f.componentLib == Headless {
      bullets := fragments(HeadlessBullet);
      RenderSingle(HeadlessBullet, fragments);
    } else {
      bullets := [];
      assert Texts([], fragments) == [];
    }
    ghost var p := LibraryBullet(f.componentLib);
    if f.routing {
      bullets := bullets + fragments(RouterBullet);
    }
    RenderWhen(p, f.routing, RouterBullet, fragments);
    p := p + When(f.routing, RouterBullet);
    if f.mockData {
      bullets := bullets + fragments(FakerBullet);
    }
    RenderWhen(p, f.mockData, FakerBullet, fragments);
  }

  /** The deployment sections of the README. */
  method DeploymentSections(name: string, deployment: seq<Deploy>, fragments: Fragment -> string)
    returns (sections: string)
    ensures sections == Render(DeploySections(name, deployment), fragments)
  {
    sections := [];
    ghost var p: seq<Piece> := [];
    assert Texts([], fragments) == [];
    if Vercel in deployment {
      sections := sections + fragments(VercelSection);
    }
    RenderWhen(p, Vercel in deployment, VercelSection, fragments);
    assert p + When(Vercel in deployment, VercelSection) == When(Vercel in deployment, VercelSection);
    p := When(Vercel in deployment, VercelSection);
    if Netlify in deployment {
      sections := sections + fragments(NetlifySection);
    }
    RenderWhen(p, Netlify in deployment, NetlifySection, fragments);
    p := p + When(Netlify in deployment, NetlifySection);
    var docker := DockerLines(name, deployment, fragments);
    RenderAppend(p, DockerSection(name, deployment), fragments);
    sections := sections + docker;
  }

  /** The Docker section, when 'docker' is selected. */
  method DockerLines(name: string, deployment: seq<Deploy>, fragments: Fragment -> string)
    returns (section: string)
    ensures section == Render(DockerSection(name, deployment), fragments)
  {
    if Docker in deployment {
      section := fragments(DockerHead);
      ghost var p := [Fixed(DockerHead)];
      RenderSingle(DockerHead, fragments);
      RenderName(p, name, fragments);
      section, p := section + name, p + [Name(name)];
      RenderFixed(p, DockerMiddle, fragments);
      section, p := section + fragments(DockerMiddle), p + [Fixed(DockerMiddle)];
      RenderName(p, name, fragments);
      section, p := section + name, p + [Name(name)];
      RenderFixed(p, DockerTail, fragments);
      section, p := section + fragments(DockerTail), p + [Fixed(DockerTail)];
      assert p == DockerSection(name, deployment);
    } else {
      section := [];
      assert Texts([], fragments) == [];
    }
  }

  /** Which fixed fragments the feature bullets hold. */
  lemma InBullets(f: Features, x: Fragment)
    ensures Fixed(x) in Bullets(f) <==>
      (x == ShadcnBullet && f.componentLib == Shadcn) || (x == MuiBullet && f.componentLib == Mui)
      || (x == HeadlessBullet && f.componentLib == Headless)
      || (x == RouterBullet && f.routing) || (x == FakerBullet && f.mockData)
  {
  }

  /** Which fixed fragments the deployment sections hold. */
  lemma InDeploySections(name: string, deployment: seq<Deploy>, x: Fragment)
    ensures Fixed(x) in DeploySections(name, deployment) <==>
      (x == VercelSection && Vercel in deployment) || (x == NetlifySection && Netlify in deployment)
      || ((x == DockerHead || x == DockerMiddle || x == DockerTail) && Docker in deployment)
  {
  }

  /** Which fixed fragments the README holds: its fixed frame, and those of
      its two variable parts. */
  lemma InReadme(name: string, f: Features, deployment: seq<Deploy>, x: Fragment)
    ensures Fixed(x) in Readme(name, f, deployment) <==>
      x == ReadmeTitle || x == ReadmeIntro || x == DevelopmentAndBuild || x == SharedResources
      || Fixed(x) in Bullets(f) || Fixed(x) in DeploySections(name, deployment)
  {
  }

  /** The README and the manifest agree: it has a "Deploy to Vercel" or
      "Deploy to Netlify" section exactly when the manifest has the matching
      deploy script, and a Docker section exactly when 'docker' is selected. */
  lemma ReadmeDeployAgrees(name: string, f: Features, deployment: seq<Deploy>)
    ensures Fixed(VercelSection) in Readme(name, f, deployment) <==> "deploy:vercel" in Scripts(deployment)
    ensures Fixed(NetlifySection) in Readme(name, f, deployment) <==> "deploy:netlify" in Scripts(deployment)
    ensures Fixed(DockerHead) in Readme(name, f, deployment) <==> Docker in deployment
  {
    DeployScripts(deployment);
    InReadme(name, f, deployment, VercelSection);
    InReadme(name, f, deployment, NetlifySection);
    InReadme(name, f, deployment, DockerHead);
    InBullets(f, VercelSection);
    InBullets(f, NetlifySection);
    InBullets(f, DockerHead);
    InDeploySections(name, deployment, VercelSection);
    InDeploySections(name, deployment, NetlifySection);
    InDeploySections(name, deployment, DockerHead);
  }

  /** The README lists the component library chosen, and only it. */
  lemma ReadmeLibraryBullet(name: string, f: Features, deployment: seq<Deploy>)
    ensures Fixed(ShadcnBullet) in Readme(name, f, deployment) <==> f.componentLib == Shadcn
    ensures Fixed(MuiBullet) in Readme(name, f, deployment) <==> f.componentLib == Mui
    ensures Fixed(HeadlessBullet) in Readme(name, f, deployment) <==> f.componentLib == Headless
  {
    InReadme(name, f, deployment, ShadcnBullet);
    InReadme(name, f, deployment, MuiBullet);
    InReadme(name, f, deployment, HeadlessBullet);
    InBullets(f, ShadcnBullet);
    InBullets(f, MuiBullet);
    InBullets(f, HeadlessBullet);
    InDeploySections(name, deployment, ShadcnBullet);
    InDeploySections(name, deployment, MuiBullet);
    InDeploySections(name, deployment, HeadlessBullet);
  }

  /** The feature bullets mirror the manifest: the React Router bullet goes
      with the react-router-dom dependency, the Faker.js bullet with the faker
      development dependency. */
  lemma ReadmeBulletsMirrorManifest(name: string, f: Features, deployment: seq<Deploy>)
    ensures Fixed(RouterBullet) in Readme(name, f, deployment) <==> "react-router-dom" in Dependencies(f)
    ensures Fixed(FakerBullet) in Readme(name, f, deployment) <==> "@faker-js/faker" in DevDependencies(f, deployment)
  {
    ReadmeRouterBullet(name, f, deployment);
    ReadmeFakerBullet(name, f, deployment);
  }

  lemma ReadmeRouterBullet(name: string, f: Features, deployment: seq<Deploy>)
    ensures Fixed(RouterBullet) in Readme(name, f, deployment) <==> f.routing
    ensures "react-router-dom" in Dependencies(f) <==> f.routing
  {
    RoutingAddsItsOwn(f);
    InReadme(name, f, deployment, RouterBullet);
    InBullets(f, RouterBullet);
    InDeploySections(name, deployment, RouterBullet);
    assert f == f.(routing := f.routing);
  }

  lemma ReadmeFakerBullet(name: string, f: Features, deployment: seq<Deploy>)
    ensures Fixed(FakerBullet) in Readme(name, f, deployment) <==> f.mockData
    ensures "@faker-js/faker" in DevDependencies(f, deployment) <==> f.mockData
  {
    MockAddsItsOwn(f, deployment);
    InReadme(name, f, deployment, FakerBullet);
    InBullets(f, FakerBullet);
    InDeploySections(name, deployment, FakerBullet);
    assert f == f.(mockData := f.mockData);
  }

  /** The README opens with the name as its title, whatever the fragments
      read. */
  lemma ReadmeTitled(name: string, f: Features, deployment: seq<Deploy>, text: Fragment -> string)
    ensures text(ReadmeTitle) + name <= Render(Readme(name, f, deployment), text)
  {
    var ps := Readme(name, f, deployment);
    var head := [Fixed(ReadmeTitle)] + [Name(name)];
    assert ps == head + ps[2..];
    RenderAppend(head, ps[2..], text);
    RenderName([Fixed(ReadmeTitle)], name, text);
    RenderSingle(ReadmeTitle, text);
  }

  // The fixed renderers

  /** `generateViteConfig(features)`: the argument is not used. */
  function GenerateViteConfig(f: Features, fragments: Fragment -> string): string {
    fragments(ViteConfig)
  }

  /** `generateTailwindConfig(features)`: the argument is not used. */
  function GenerateTailwindConfig(f: Features, fragments: Fragment -> string): string {
    fragments(TailwindConfig)
  }

  /** The Vite and Tailwind configurations are the same whatever features
      were chosen. */
  lemma ConfigsIgnoreFeatures(f: Features, g: Features, fragments: Fragment -> string)
    ensures GenerateViteConfig(f, fragments) == GenerateViteConfig(g, fragments)
    ensures GenerateTailwindConfig(f, fragments) == GenerateTailwindConfig(g, fragments)
  {
  }

  /** `generateIndexHtml(name)`: the page title is the name as typed. */
  function GenerateIndexHtml(name: string, fragments: Fragment -> string): (html: string)
    ensures fragments(IndexHtmlHead) + name <= html
  {
    fragments(IndexHtmlHead) + name + fragments(IndexHtmlTail)
  }
}
