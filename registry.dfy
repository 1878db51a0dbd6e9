/**
 * The template store of `bin/utils/template.ts`: `TEMPLATES`, whose entries
 * hold source text plus the parser plugins needed to read it, and
 * `PLAIN_TEMPLATES`, whose entries are returned verbatim. Keys, plugin lists
 * and bodies are those of the repository, each body held as its list of
 * lines. A structured entry names its body by a `Source`, whose text is
 * `Text(source)`; a plain entry holds its lines directly.
 */
module Registry {

  import opened Js

  /** The Babel parser plugins the registry names. */
  datatype Plugin = Jsx | TypeScript

  /** The bodies of `TEMPLATES`, one per key. */
  datatype Source =
    | ReactRouerJS | ReactRouterTS | HomePage | TailwindConfig
    | ReactClerkJS | ReactClerkTS | ReactClerkHome
    | NextHome | NextClerkMiddleware | NextClerkLayout | NextPage
    | MongooseTS | MongooseJS | FirebaseConfig | SupabaseConfig

  /** `TemplateConfig`: source text, `Text(code)`, and the parser plugins it needs. */
  datatype TemplateConfig = TemplateConfig(code: Source, plugins: seq<Plugin>)

  /** One `[key, template]` pair of `Object.entries(TEMPLATES)`. */
  datatype Entry = Entry(key: string, config: TemplateConfig)

  /** `TEMPLATES`, in declaration order, which is the order `Object.entries` yields. */
  const Templates: seq<Entry> := [
    Entry("reactRouerJS", TemplateConfig(ReactRouerJS, [Jsx])),
    Entry("reactRouterTS", TemplateConfig(ReactRouterTS, [Jsx, TypeScript])),
    Entry("homePage", TemplateConfig(HomePage, [Jsx, TypeScript])),
    Entry("tailwindConfig", TemplateConfig(TailwindConfig, [Jsx, TypeScript])),
    Entry("reactClerkJS", TemplateConfig(ReactClerkJS, [Jsx, TypeScript])),
    Entry("reactClerkTS", TemplateConfig(ReactClerkTS, [Jsx, TypeScript])),
    Entry("reactClerkHome", TemplateConfig(ReactClerkHome, [Jsx, TypeScript])),
    Entry("nextHome", TemplateConfig(NextHome, [Jsx, TypeScript])),
    Entry("nextClerkMiddleware", TemplateConfig(NextClerkMiddleware, [Jsx, TypeScript])),
    Entry("nextClerkLayout", TemplateConfig(NextClerkLayout, [Jsx, TypeScript])),
    Entry("nextPage", TemplateConfig(NextPage, [Jsx, TypeScript])),
    Entry("mongooseTS", TemplateConfig(MongooseTS, [TypeScript])),
    Entry("mongooseJS", TemplateConfig(MongooseJS, [TypeScript])),
    Entry("firebaseConfig", TemplateConfig(FirebaseConfig, [TypeScript])),
    Entry("supabaseConfig", TemplateConfig(SupabaseConfig, [TypeScript]))
  ]

  /** `PLAIN_TEMPLATES`: each key's text is its lines joined, `JoinLines(PlainTemplates[key])`. */
  const PlainTemplates: map<string, seq<string>> := map[
    "Appcss" := AppcssLines,
    "nextGlobalCSS" := NextGlobalCSSLines,
    "nextCss" := NextCssLines,
    "reactAppCSS" := ReactAppCSSLines,
    "nodemonJSON" := NodemonJSONLines,
    "tsConfig" := TsConfigLines
  ]

  /** `PLAIN_TEMPLATES` as the strings a lookup returns. */
  function PlainTexts(): (m: map<string, string>)
    ensures m.Keys == PlainTemplates.Keys
    ensures forall k :: k in m ==> m[k] == JoinLines(PlainTemplates[k])
  {
    map k | k in PlainTemplates :: JoinLines(PlainTemplates[k])
  }

  /** The keys of a list of entries, in order. */
  function KeysOf(entries: seq<Entry>): (ks: seq<string>)
    ensures |ks| == |entries|
    ensures forall i :: 0 <= i < |entries| ==> ks[i] == entries[i].key
  {
    seq(|entries|, i requires 0 <= i < |entries| => entries[i].key)
  }

  /** No string occurs twice. */
  predicate Distinct(ks: seq<string>) {
    forall i, j :: 0 <= i < j < |ks| ==> ks[i] != ks[j]
  }

  /** No string occurs in both lists. */
  predicate Disjoint(a: seq<string>, b: seq<string>) {
    forall i, j :: 0 <= i < |a| && 0 <= j < |b| ==> a[i] != b[j]
  }

  /** No key occurs twice, which holds of any object literal's own keys. */
  predicate DistinctKeys(entries: seq<Entry>) {
    forall i, j :: 0 <= i < j < |entries| ==> entries[i].key != entries[j].key
  }

  /**
   * `TEMPLATES` with its first key spelt the way `bin/index.ts` asks for it
   * ("reactRouterJS"); every other entry is unchanged.
   */
  const CorrectedTemplates: seq<Entry> :=
    [Entry("reactRouterJS", TemplateConfig(ReactRouerJS, [Jsx]))] + Templates[1..]

  /** The keys of `TEMPLATES`, as declared. */
  const TemplateKeys: seq<string> := [
    "reactRouerJS", "reactRouterTS", "homePage", "tailwindConfig",
    "reactClerkJS", "reactClerkTS", "reactClerkHome",
    "nextHome", "nextClerkMiddleware", "nextClerkLayout", "nextPage",
    "mongooseTS", "mongooseJS", "firebaseConfig", "supabaseConfig"
  ]

  /** The keys of the corrected registry. */
  const CorrectedKeys: seq<string> := [
    "reactRouterJS", "reactRouterTS", "homePage", "tailwindConfig",
    "reactClerkJS", "reactClerkTS", "reactClerkHome",
    "nextHome", "nextClerkMiddleware", "nextClerkLayout", "nextPage",
    "mongooseTS", "mongooseJS", "firebaseConfig", "supabaseConfig"
  ]

  /** The keys of `PLAIN_TEMPLATES`. */
  const PlainKeys: seq<string> := ["Appcss", "nextGlobalCSS", "nextCss", "reactAppCSS", "nodemonJSON", "tsConfig"]

  lemma TemplateKeysListed()
    ensures KeysOf(Templates) == TemplateKeys
  {
  }

  lemma CorrectedKeysListed()
    ensures KeysOf(CorrectedTemplates) == CorrectedKeys
  {
  }

  lemma TemplateKeysDistinct()
    ensures Distinct(TemplateKeys)
  {
  }

  lemma CorrectedKeysDistinct()
    ensures Distinct(CorrectedKeys)
  {
  }

  /** Each registry lists each key once. */
  lemma RegistriesDistinctKeys()
    ensures DistinctKeys(Templates) && DistinctKeys(CorrectedTemplates)
  {
    TemplateKeysListed();
    CorrectedKeysListed();
    TemplateKeysDistinct();
    CorrectedKeysDistinct();
    assert forall i :: 0 <= i < |Templates| ==> Templates[i].key == TemplateKeys[i];
    assert forall i :: 0 <= i < |CorrectedTemplates| ==> CorrectedTemplates[i].key == CorrectedKeys[i];
  }

  lemma PlainKeysListed()
    ensures forall k :: k in PlainTemplates <==> k in PlainKeys
  {
  }

  lemma KeyListsDisjoint()
    ensures Disjoint(TemplateKeys, PlainKeys) && Disjoint(CorrectedKeys, PlainKeys)
  {
  }

  /** No key is both a structured and a plain template, in either registry. */
  /** No registry key is a name every object inherits from `Object.prototype`. */
  lemma TemplateKeysNotInherited()
    ensures Disjoint(TemplateKeys, ObjectPrototypeProperties)
  {
  }

  /** No corrected registry key is a name every object inherits from `Object.prototype`. */
  lemma CorrectedKeysNotInherited()
    ensures Disjoint(CorrectedKeys, ObjectPrototypeProperties)
  {
  }

  /** The key of each corrected entry is not inherited from `Object.prototype`. */
  lemma CorrectedEntryNotInherited(i: nat)
    requires i < |CorrectedTemplates|
    ensures CorrectedTemplates[i].key !in ObjectPrototypeProperties
  {
    CorrectedKeysListed();
    CorrectedKeysNotInherited();
    assert CorrectedKeys[i] == CorrectedTemplates[i].key;
  }

  /** No plain key is a name every object inherits from `Object.prototype`. */
  lemma PlainKeysNotInherited()
    ensures Disjoint(PlainKeys, ObjectPrototypeProperties)
  {
  }

  lemma RegistriesDisjoint()
    ensures forall k :: k in KeysOf(Templates) ==> k !in PlainTemplates
    ensures forall k :: k in KeysOf(CorrectedTemplates) ==> k !in PlainTemplates
  {
    TemplateKeysListed();
    CorrectedKeysListed();
    PlainKeysListed();
    KeyListsDisjoint();
  }

  /** The lines of a text joined by line breaks. */
  function JoinLines(ls: seq<string>): (s: string)
    ensures |ls| >= 2 ==> s != ""
  {
    if ls == [] then ""
    else if |ls| == 1 then ls[0]
    else ls[0] + "\n" + JoinLines(ls[1..])
  }

  /** The text of a template body. */
  function Text(s: Source): string {
    JoinLines(BodyLines(s))
  }

  /** Every plain template is a non-empty string, so the truthiness test in `generateCode` accepts it. */
  lemma PlainTemplatesNonEmpty()
    ensures forall k :: k in PlainTexts() ==> PlainTexts()[k] != ""
  {
    forall k | k in PlainTemplates
      ensures JoinLines(PlainTemplates[k]) != ""
    {
      assert |PlainTemplates[k]| >= 2;
    }
  }

  /** The lines of each template body; `Text` joins them with line breaks. */
  function BodyLines(s: Source): seq<string> {
    match s
    case ReactRouerJS => ReactRouerJSLines
    case ReactRouterTS => ReactRouterTSLines
    case HomePage => HomePageLines
    case TailwindConfig => TailwindConfigLines
    case ReactClerkJS => ReactClerkJSLines
    case ReactClerkTS => ReactClerkTSLines
    case ReactClerkHome => ReactClerkHomeLines
    case NextHome => NextHomeLines
    case NextClerkMiddleware => NextClerkMiddlewareLines
    case NextClerkLayout => NextClerkLayoutLines
    case NextPage => NextPageLines
    case MongooseTS => MongooseTSLines
    case MongooseJS => MongooseJSLines
    case FirebaseConfig => FirebaseConfigLines
    case SupabaseConfig => SupabaseConfigLines
  }

  const ReactRouerJSLines: seq<string> := [
    "import React from \"react\";",
    "import ReactDOM from \"react-dom/client\";",
    "import { BrowserRouter } from \"react-router-dom\";",
    "import App from \"./App\";",
    "import \"./index.css\";",
    "",
    "ReactDOM.createRoot(document.getElementById(\"root\")).render(",
    "  <React.StrictMode>",
    "    <BrowserRouter>",
    "      <App />",
    "    </BrowserRouter>",
    "  </React.StrictMode>",
    ");"
  ]

  const ReactRouterTSLines: seq<string> := [
    "import React from \"react\";",
    "import ReactDOM from \"react-dom/client\";",
    "import { BrowserRouter } from \"react-router-dom\";",
    "import App from \"./App\";",
    "import \"./index.css\";",
    "",
    "ReactDOM.createRoot(document.getElementById(\"root\")!).render(",
    "  <React.StrictMode>",
    "    <BrowserRouter>",
    "      <App />",
    "    </BrowserRouter>",
    "  </React.StrictMode>",
    ");"
  ]

  const HomePageLines: seq<string> := [
    "import { Routes, Route } from \"react-router-dom\";",
    "import \"./App.css\";",
    "",
    "const Home = () => {",
    "  return (",
    "    <div className=\"container\">",
    "      <h1>Welcome to mern-init-cli Package</h1>",
    "      <p>A simple CLI tool to set up a MERN stack project effortlessly.</p>",
    "    </div>",
    "  );",
    "}",
    "",
    "const App = () => {",
    "  return (",
    "      <Routes>",
    "        <Route path=\"/\" element={<Home />} />",
    "      </Routes>",
    "  );",
    "};",
    "",
    "export default App;"
  ]

  const TailwindConfigLines: seq<string> := [
    "import { defineConfig } from 'vite'",
    "import react from '@vitejs/plugin-react'",
    "import tailwindcss from '@tailwindcss/vite';",
    "  ",
    "export default defineConfig({",
    "  plugins: [react(), tailwindcss()],",
    "});"
  ]

  const ReactClerkJSLines: seq<string> := [
    "import React from \"react\";",
    "import ReactDOM from \"react-dom/client\";",
    "import { BrowserRouter } from \"react-router-dom\";",
    "import App from \"./App\";",
    "import \"./index.css\";",
    "import { ClerkProvider } from \"@clerk/clerk-react\";",
    "",
    "const PUBLISHABLE_KEY = import.meta.env.VITE_CLERK_PUBLISHABLE_KEY;",
    "",
    "if (!PUBLISHABLE_KEY) {",
    "  throw new Error(\"Add your Clerk Publishable Key to the .env file\");",
    "}",
    "",
    "ReactDOM.createRoot(document.getElementById(\"root\")).render(",
    "  <React.StrictMode>",
    "    <BrowserRouter>",
    "      <ClerkProvider publishableKey={PUBLISHABLE_KEY} afterSignOutUrl=\"/\">",
    "        <App />",
    "      </ClerkProvider>",
    "    </BrowserRouter>",
    "  </React.StrictMode>",
    ");"
  ]

  const ReactClerkTSLines: seq<string> := [
    "import React from \"react\";",
    "import ReactDOM from \"react-dom/client\";",
    "import { BrowserRouter } from \"react-router-dom\";",
    "import App from \"./App\";",
    "import \"./index.css\";",
    "import { ClerkProvider } from \"@clerk/clerk-react\";",
    "",
    "const PUBLISHABLE_KEY = import.meta.env.VITE_CLERK_PUBLISHABLE_KEY;",
    "",
    "if (!PUBLISHABLE_KEY) {",
    "  throw new Error(\"Add your Clerk Publishable Key to the .env file\");",
    "}",
    "",
    "ReactDOM.createRoot(document.getElementById(\"root\")!).render(",
    "  <React.StrictMode>",
    "    <BrowserRouter>",
    "      <ClerkProvider publishableKey={PUBLISHABLE_KEY} afterSignOutUrl=\"/\">",
    "        <App />",
    "      </ClerkProvider>",
    "    </BrowserRouter>",
    "  </React.StrictMode>",
    ");"
  ]

  const ReactClerkHomeLines: seq<string> := [
    "import { Routes, Route } from \"react-router-dom\";",
    "import \"./App.css\";",
    "import {",
    "  SignedIn,",
    "  SignedOut,",
    "  SignInButton,",
    "  UserButton,",
    "} from \"@clerk/clerk-react\";",
    "",
    "const Home = () => {",
    "  return (",
    "    <div className=\"container\">",
    "      <header>",
    "        <SignedOut>",
    "          <SignInButton />",
    "        </SignedOut>",
    "        <SignedIn>",
    "          <UserButton  />",
    "        </SignedIn>",
    "      </header>",
    "      <h1>Welcome to mern-init-cli Package</h1>",
    "      <p>A simple CLI tool to set up a MERN stack project effortlessly.</p>",
    "    </div>",
    "  );",
    "}",
    "",
    "const App = () => {",
    "  return (",
    "      <Routes>",
    "        <Route",
    "          path=\"/\"",
    "          element={<Home />}",
    "        />",
    "      </Routes>",
    "  );",
    "};",
    "",
    "export default App;"
  ]

  const NextHomeLines: seq<string> := [
    "\"use client\"",
    "",
    "export default function Home() {",
    "  return (",
    "    <div className=\"container\">",
    "      <h1>Welcome to mern-init-cli Package</h1>",
    "      <p>A simple CLI tool to set up a MERN stack project effortlessly.</p>",
    "    </div>",
    "  );",
    "}"
  ]

  const NextClerkMiddlewareLines: seq<string> := [
    "import { clerkMiddleware } from '@clerk/nextjs/server';",
    "",
    "export default clerkMiddleware();",
    "",
    "export const config = {",
    "  matcher: [",
    "    '/((?!_next|[^?]*\\.(?:html?|css|js(?!on)|jpe?g|webp|png|gif|svg|ttf|woff2?|ico|csv|docx?|xlsx?|zip|webmanifest)).*)',",
    "    '/(api|trpc)(.*)',",
    "  ],",
    "};"
  ]

  const NextClerkLayoutLines: seq<string> := [
    "import type { Metadata } from \"next\";",
    "import {ClerkProvider} from \"@clerk/nextjs\";",
    "import { Geist, Geist_Mono } from \"next/font/google\";",
    "import \"./globals.css\";",
    "",
    "const geistSans = Geist({",
    "  variable: \"--font-geist-sans\",",
    "  subsets: [\"latin\"],",
    "});",
    "",
    "const geistMono = Geist_Mono({",
    "  variable: \"--font-geist-mono\",",
    "  subsets: [\"latin\"],",
    "});",
    "",
    "export const metadata: Metadata = {",
    "  title: \"Clerk Next.js Quickstart\",",
    "  description: \"Generated by create next app\",",
    "};",
    "",
    "export default function RootLayout({",
    "  children,",
    "}: Readonly<{",
    "  children: React.ReactNode;",
    "}>) {",
    "  return (",
    "    <ClerkProvider>",
    "      <html lang=\"en\">",
    "        <body",
    "           className={`${geistSans.variable} ${geistMono.variable} antialiased`}",
    "        >",
    "          {children}",
    "        </body>",
    "      </html>",
    "    </ClerkProvider>",
    "  );",
    "}"
  ]

  const NextPageLines: seq<string> := [
    "\"use client\"",
    "import { SignedIn, SignedOut, SignInButton, UserButton } from \"@clerk/nextjs\";",
    "export default function Home() {",
    "  return (",
    "    <div className=\"container\">",
    "      <header>",
    "        <SignedOut>",
    "          <SignInButton />",
    "        </SignedOut>",
    "        <SignedIn>",
    "          <UserButton />",
    "        </SignedIn>",
    "      </header>",
    "      <h1>Welcome to mern-init-cli Package</h1>",
    "      <p>A simple CLI tool to set up a MERN stack project effortlessly.</p>",
    "    </div>",
    "  );",
    "}"
  ]

  const MongooseTSLines: seq<string> := [
    "import mongoose from 'mongoose';",
    "import dotenv from 'dotenv';",
    "dotenv.config();",
    "",
    "const connectDB = async () => {",
    "  try {",
    "    await mongoose.connect(process.env.MONGODB_URI as string);",
    "    console.log(\"✅ MongoDB connected successfully!\");",
    "  } catch (error) {",
    "    console.error(\"❌ MongoDB connection failed:\", error);",
    "    process.exit(1);",
    "  }",
    "};",
    "",
    "export default connectDB;"
  ]

  const MongooseJSLines: seq<string> := [
    "import mongoose from 'mongoose';",
    "import dotenv from 'dotenv';",
    "dotenv.config();",
    "",
    "const connectDB = async () => {",
    "  try {",
    "    await mongoose.connect(process.env.MONGODB_URI);",
    "    console.log(\"✅ MongoDB connected successfully!\");",
    "  } catch (error) {",
    "    console.error(\"❌ MongoDB connection failed:\", error);",
    "    process.exit(1);",
    "  }",
    "};",
    "",
    "export default connectDB;"
  ]

  const FirebaseConfigLines: seq<string> := [
    "import admin from \"firebase-admin\";",
    "import dotenv from 'dotenv';",
    "",
    "dotenv.config();",
    "",
    "const serviceAccount = JSON.parse(process.env.FIREBASE_SERVICE_ACCOUNT || '{}');",
    "",
    "admin.initializeApp({",
    "  credential: admin.credential.cert(serviceAccount),",
    "});",
    "",
    "const db = admin.firestore();",
    "",
    "if (!db) {",
    "  console.log('❌ Firebase initialization failed');",
    "} else {",
    "  console.log('✅ Firebase initialized');",
    "}",
    "",
    "export default db;"
  ]

  const SupabaseConfigLines: seq<string> := [
    "import { createClient } from '@supabase/supabase-js';",
    "import dotenv from 'dotenv';",
    "",
    "dotenv.config();",
    "",
    "const supabaseUrl = process.env.SUPABASE_URL!;",
    "const supabaseKey = process.env.SUPABASE_ANON_KEY!;",
    "const supabase = createClient(supabaseUrl, supabaseKey);",
    "",
    "console.log('✅ Supabase client created');",
    "",
    "export default supabase;"
  ]

  const AppcssLines: seq<string> := [
    "body {",
    "  margin: 0;",
    "  padding: 0;",
    "  background-color: #121212;",
    "  color: #ffffff;",
    "  font-family: Arial, sans-serif;",
    "  display: flex;",
    "  justify-content: center;",
    "  align-items: center;",
    "  height: 100vh;",
    "  text-align: center;",
    "}",
    "",
    "h1 {",
    "  font-size: 2rem;",
    "  font-weight: bold;",
    "}",
    "",
    ".container {",
    "  max-width: 600px;",
    "  padding: 20px;",
    "  border-radius: 10px;",
    "}"
  ]

  const NextGlobalCSSLines: seq<string> := [
    "body {",
    "  margin: 0;",
    "  padding: 0;",
    "  display: flex;",
    "  justify-content: center;",
    "  align-items: center;",
    "  height: 100vh;",
    "  text-align: center;",
    "}",
    "",
    "h1 {",
    "  font-size: 2rem;",
    "  font-weight: bold;",
    "}",
    "",
    ".container {",
    "  max-width: 600px;",
    "  padding: 20px;",
    "  border-radius: 10px;",
    "}"
  ]

  const NextCssLines: seq<string> := [
    "header {",
    "  position: absolute;",
    "  top: 30px;",
    "  right: 30px;",
    "  background-color: white;",
    "  color: black;",
    "  font-size: 14px;",
    "  font-weight: 600;",
    "  padding: 8px 24px;",
    "  border-radius: 6px;",
    "  box-shadow: 0 2px 4px rgba(0, 0, 0, 0.1);",
    "  cursor: pointer;",
    "  display: flex;",
    "  gap: 8px;",
    "}"
  ]

  const ReactAppCSSLines: seq<string> := [
    "body {",
    "        margin: 0;",
    "        padding: 0;",
    "        background-color: #121212;",
    "        color: #ffffff;",
    "        font-family: Arial, sans-serif;",
    "        display: flex;",
    "        justify-content: center;",
    "        align-items: center;",
    "        height: 100vh;",
    "        text-align: center;",
    "      }",
    "      ",
    "      h1 {",
    "        font-size: 2rem;",
    "        font-weight: bold;",
    "      }",
    "      ",
    "      .container {",
    "        max-width: 600px;",
    "        padding: 20px;",
    "        border-radius: 10px;",
    "      }"
  ]

  const NodemonJSONLines: seq<string> := [
    "{",
    "  \"watch\": [\"src\"],",
    "  \"ext\": \"ts\",",
    "  \"exec\": \"node --loader ts-node/esm src/index.ts\"",
    "}"
  ]

  const TsConfigLines: seq<string> := [
    "{",
    "  \"compilerOptions\": {",
    "    \"target\": \"ES2022\",",
    "    \"module\": \"ESNext\",",
    "    \"moduleResolution\": \"Node\",",
    "    \"strict\": true,",
    "    \"esModuleInterop\": true,",
    "    \"forceConsistentCasingInFileNames\": true,",
    "    \"skipLibCheck\": true,",
    "    \"isolatedModules\": true,",
    "    \"resolveJsonModule\": true,",
    "    \"outDir\": \"./dist\",",
    "    \"rootDir\": \"./src\",",
    "    \"noEmit\": true,",
    "    \"types\": [\"node\"],",
    "    \"allowImportingTsExtensions\": true,",
    "    \"verbatimModuleSyntax\": true,",
    "    \"incremental\": true",
    "  },",
    "  \"include\": [\"src/**/*.ts\"],",
    "  \"exclude\": [\"node_modules\", \"dist\"]",
    "}"
  ]
}
