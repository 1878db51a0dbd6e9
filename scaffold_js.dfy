/**
 * `bin/index.js`, the JavaScript build of the scaffolder, where it differs
 * from `bin/index.ts`: inline entry-point texts in place of templates, the
 * `create-next-app` command without `--turbopack`, a project setup that
 * keeps the generated README, `.env` ignored for every framework, a
 * `tsconfig.json` written from an object, its own log line in
 * `createIndexFile`, no special case for `.`, and an exit when the backend
 * is declined. Its `generateReadme`, its `package.json` edit and the index
 * file it writes are the ones of `Project` and `ServerSetup`.
 */
module ScaffoldJs {

  import opened Js
  import opened Plan
  import opened ClientSetup
  import opened ServerSetup
  import opened Project

  // ---------------------------------------------------------------------
  // Inline entry points

  /** The non-null assertion a TypeScript entry point puts after the root lookup. */
  function Bang(isTS: bool): string {
    if isTS then "!" else ""
  }

  const EntryImports: string :=
    "import React from \"react\";\n"
    + "import ReactDOM from \"react-dom/client\";\n"
    + "import { BrowserRouter } from \"react-router-dom\";\n"
    + "import App from \"./App\";\n"
    + "import \"./index.css\";\n"

  /** The call every entry point renders into, up to the root element's lookup. */
  const RootLookup: string := "\nReactDOM.createRoot(document." + "getElementById(\"root\")"

  /** `setupReactRouting`'s `src/main` text, up to the root lookup and after it. */
  const RouterMainHead: string := EntryImports + RootLookup

  const RouterMainTail: string :=
    ")" + ".render(\n"
    + "  <React.StrictMode>\n"
    + "    <BrowserRouter>\n"
    + "      <App />\n"
    + "    </BrowserRouter>\n"
    + "  </React.StrictMode>\n"
    + ");"

  /** `setupReactClerk`'s `src/main` text, up to the root lookup and after it. */
  const ClerkMainHead: string :=
    EntryImports
    + "import { ClerkProvider } from \"@clerk/clerk-react\";\n"
    + "\n"
    + "const PUBLISHABLE_KEY = import.meta.env.VITE_CLERK_PUBLISHABLE_KEY;\n"
    + "\n"
    + "if (!PUBLISHABLE_KEY) {\n"
    + "  throw new Error(\"Add your Clerk Publishable Key to the .env file\");\n"
    + "}\n"
    + RootLookup

  const ClerkMainTail: string :=
    ")" + ".render(\n"
    + "  <React.StrictMode>\n"
    + "    <BrowserRouter>\n"
    + "      <ClerkProvider publishableKey={PUBLISHABLE_KEY} afterSignOutUrl=\"/\">\n"
    + "        <App />\n"
    + "      </ClerkProvider>\n"
    + "    </BrowserRouter>\n"
    + "  </React.StrictMode>\n"
    + ");"

  /** The `src/main` text `setupReactRouting(isTS)` writes. */
  function RouterMain(isTS: bool): string {
    RouterMainHead + Bang(isTS) + RouterMainTail
  }

  /** The `src/main` text `setupReactClerk(language)` writes. */
  function ClerkMain(isTS: bool): string {
    ClerkMainHead + Bang(isTS) + ClerkMainTail
  }

  /**
   * A text spliced as `head + Bang(isTS) + tail`: at position `|head|` it
   * holds `!` exactly for TypeScript, and dropping that character from the
   * TypeScript text gives the JavaScript one.
   */
  lemma BangSplice(head: string, tail: string, isTS: bool)
    requires tail != [] && tail[0] != '!'
    ensures var k := |head|;
            var text := head + Bang(isTS) + tail;
            k < |text| && (text[k] == '!' <==> isTS)
    ensures var k := |head|;
            var ts := head + Bang(true) + tail;
            k < |ts| && head + Bang(false) + tail == ts[..k] + ts[k + 1..]
  {
    var ts := head + Bang(true) + tail;
    assert ts[..|head|] == head;
    assert ts[|head| + 1..] == tail;
  }

  /** The root lookup ends each head, so the `!` follows `getElementById("root")`. */
  lemma HeadsEndInLookup()
    ensures |RouterMainHead| >= 22 && RouterMainHead[|RouterMainHead| - 22..] == "getElementById(\"root\")"
    ensures |ClerkMainHead| >= 22 && ClerkMainHead[|ClerkMainHead| - 22..] == "getElementById(\"root\")"
  {
    var lookup := "getElementById(\"root\")";
    var before := "\nReactDOM.createRoot(document.";
    assert |lookup| == 22;
    assert RouterMainHead == EntryImports + before + lookup;
    assert (EntryImports + before + lookup)[|EntryImports + before|..] == lookup;
  }

  /**
   * The router entry point's TypeScript and JavaScript texts differ only by
   * a `!` right after `getElementById("root")`, present exactly for
   * TypeScript; likewise the Clerk entry point's.
   */
  lemma EntryPointsDifferByBang(isTS: bool)
    ensures var k := |RouterMainHead|;
            k < |RouterMain(isTS)| && (RouterMain(isTS)[k] == '!' <==> isTS) &&
            k < |RouterMain(true)| && RouterMain(false) == RouterMain(true)[..k] + RouterMain(true)[k + 1..]
    ensures var k := |ClerkMainHead|;
            k < |ClerkMain(isTS)| && (ClerkMain(isTS)[k] == '!' <==> isTS) &&
            k < |ClerkMain(true)| && ClerkMain(false) == ClerkMain(true)[..k] + ClerkMain(true)[k + 1..]
  {
    assert RouterMainTail[0] == ')' && ClerkMainTail[0] == ')';
    BangSplice(RouterMainHead, RouterMainTail, isTS);
    BangSplice(ClerkMainHead, ClerkMainTail, isTS);
  }

  /** Where `setupReactRouting` and `setupReactClerk` write their entry point. */
  function EntryPath(isTS: bool): string {
    "src/main." + ReactExt(isTS)
  }

  /** `setupNextJsRouting`'s page and `setupNextClerk`'s, whose extension is `tsx` or `jsx`. */
  function RoutingPagePath(isTS: bool): string {
    "src/app/page." + NextExt(isTS)
  }

  function ClerkPagePath(isTS: bool): string {
    "src/app/page." + ReactExt(isTS)
  }

  /**
   * File extensions follow the language: React components are `.tsx` or
   * `.jsx`, the Next.js routing page `.tsx` or `.js`. So a JavaScript
   * Next.js project with Clerk gets a second home page, `page.jsx`, beside
   * the routing step's `page.js`; a TypeScript one has its page replaced.
   */
  lemma ExtensionsFollowLanguage(isTS: bool)
    ensures HasExtension(EntryPath(isTS), "tsx") <==> isTS
    ensures !isTS ==> HasExtension(EntryPath(isTS), "jsx") && HasExtension(RoutingPagePath(isTS), "js")
    ensures RoutingPagePath(isTS) == ClerkPagePath(isTS) <==> isTS
  {
    var entry := EntryPath(isTS);
    assert entry[|entry| - 4..] == "." + ReactExt(isTS);
    assert ("." + ReactExt(isTS))[1] == ReactExt(isTS)[0];
    assert "tsx"[0] != "jsx"[0];
    if !isTS {
      var page := RoutingPagePath(isTS);
      assert page[|page| - 3..] == ".js";
      assert |RoutingPagePath(isTS)| != |ClerkPagePath(isTS)|;
    }
  }

  // ---------------------------------------------------------------------
  // setupNextJsProject

  /** The words of `bin/index.js`'s `create-next-app` command. */
  function NextCreateArgsJs(language: string, cssChoice: string): seq<string> {
    [ "npx", "create-next-app@latest", ".",
      if IsTS(language) then "--typescript" else "--javascript",
      "--use-npm", "--eslint", "--src-dir", "--app",
      if cssChoice == "TailwindCSS" then "--tailwind" else "",
      "--no-import-alias", "--yens" ]
  }

  /**
   * The language flag and `--tailwind` follow the answers; `--turbopack` is
   * never passed, and it is all that `bin/index.ts` adds.
   */
  lemma NextCreateFlagsJs(language: string, cssChoice: string)
    ensures var args := NextCreateArgsJs(language, cssChoice);
            && ("--tailwind" in args <==> cssChoice == "TailwindCSS")
            && ("--typescript" in args <==> IsTS(language))
            && ("--javascript" in args <==> !IsTS(language))
            && "--turbopack" !in args
  {
  }

  /** `bin/index.ts` passes the same words and `--turbopack` after them. */
  lemma NextCreateArgsTurbopack(language: string, cssChoice: string)
    ensures NextCreateArgs(language, cssChoice) == NextCreateArgsJs(language, cssChoice) + ["--turbopack"]
  {
  }

  // ---------------------------------------------------------------------
  // Project cleanup and .gitignore

  /** The end of both project setups in `bin/index.js`: `npm install`, with no README removed. */
  const CleanupOpsJs: seq<Op> := [Exec("npm install")]

  /**
   * `bin/index.js` leaves every file as the generator wrote it, README.md
   * included, where `bin/index.ts` removes README.md and changes nothing else.
   */
  lemma CleanupJsKeepsReadme(files: map<string, seq<Content>>)
    ensures Apply(CleanupOpsJs, files) == files
    ensures Apply(CleanupOps, files) == files - {"README.md"}
  {
    assert Apply(CleanupOpsJs[1..], files) == files;
    assert Apply(CleanupOps[1..], files - {"README.md"}) == files - {"README.md"};
  }

  /** The `.gitignore` entry of `clientSetUp` in `bin/index.js`, whatever the framework. */
  const IgnoreOpsJs: seq<Op> := [AppendFile(".gitignore", Fixed(IgnoreEnv))]

  /**
   * The two entry points append `.env` to `.gitignore` alike exactly for a
   * React project; for any other framework only `bin/index.js` does.
   */
  lemma IgnoreJsAgreesOnlyForReact(framework: string, files: map<string, seq<Content>>)
    ensures IgnoreOps(framework) == IgnoreOpsJs <==> framework == "React"
    ensures var after := Apply(IgnoreOpsJs, files);
            ".gitignore" in after && after[".gitignore"] == (if ".gitignore" in files then files[".gitignore"] else []) + [Fixed(IgnoreEnv)]
  {
    assert Apply(IgnoreOpsJs[1..], Effect(IgnoreOpsJs[0], files)) == Effect(IgnoreOpsJs[0], files);
  }

  // ---------------------------------------------------------------------
  // createTSConfig

  /** The `compilerOptions` object `createTSConfig` spells out in `bin/index.js`. */
  const TsCompilerOptions: map<string, Json> := map[
    "target" := JString("ES2022"),
    "module" := JString("ESNext"),
    "moduleResolution" := JString("Node"),
    "strict" := JBool(true),
    "esModuleInterop" := JBool(true),
    "forceConsistentCasingInFileNames" := JBool(true),
    "skipLibCheck" := JBool(true),
    "isolatedModules" := JBool(true),
    "resolveJsonModule" := JBool(true),
    "outDir" := JString("./dist"),
    "rootDir" := JString("./src"),
    "noEmit" := JBool(true),
    "types" := JArray([JString("node")]),
    "allowImportingTsExtensions" := JBool(true),
    "verbatimModuleSyntax" := JBool(true),
    "incremental" := JBool(true)
  ]

  /** `createTSConfig` of `bin/index.js`: the object above, serialized once. */
  const CreateTsConfigJs: Op := WriteFile("tsconfig.json", Serialized(JObject(map[
    "compilerOptions" := JObject(TsCompilerOptions),
    "include" := JArray([JString("src/**/*.ts")]),
    "exclude" := JArray([JString("node_modules"), JString("dist")])
  ])))

  /**
   * `bin/index.js` writes `tsconfig.json` as a JSON object it holds itself
   * and asks `generateCode` for nothing; `bin/index.ts` writes the
   * stringified text of the "tsConfig" template instead.
   */
  lemma TsConfigJsIsObject()
    ensures CreateTsConfigJs.path == "tsconfig.json" && !CreateTsConfigJs.content.Requests()
    ensures CreateTsConfigJs.content.value.JObject?
    ensures CreateTsConfigJs.content.value.fields.Keys == {"compilerOptions", "include", "exclude"}
    ensures TypeScriptOps[2] == WriteFile(CreateTsConfigJs.path, Stringified("tsConfig"))
  {
  }

  // ---------------------------------------------------------------------
  // createIndexFile

  /** The line `console.error("Error creating index file:", error)` prints for the thrown error. */
  function IndexErrorLineJs(): string {
    "Error creating index file: " + UnsupportedDatabase.Text()
  }

  /**
   * `createIndexFile(fileType, database)` of `bin/index.js`: the same
   * branches and the same file as `bin/index.ts`, and its own log line.
   */
  method CreateIndexFileJs(fileType: string, database: string) returns (written: seq<Op>, log: seq<string>)
    ensures written == IndexOps(fileType, database)
    ensures log == (if written == [] then [IndexErrorLineJs()] else [])
  {
    var importStatement := "";
    var connectCall := "";
    if database == "MongoDB" {
      importStatement := ImportStatement("connectDB", fileType);
      connectCall := "  connectDB();";
    } else if database == "FireBase" {
      importStatement := ImportStatement("db", fileType);
    } else if database == "SupaBase" {
      importStatement := ImportStatement("supabase", fileType);
    } else {
      return [], [IndexErrorLineJs()];
    }
    written := [IndexWrite(fileType, importStatement, connectCall)];
    log := [];
  }

  // ---------------------------------------------------------------------
  // init

  /**
   * `init` in `bin/index.js` when no step throws: the name is always joined
   * onto the current directory and refused when that path exists, and a
   * declined backend ends the run with status 0.
   */
  function InitJs(cwd: string, paths: PathOps, isPresent: string -> bool, a: Answers): seq<Step> {
    var path := paths.join(cwd, a.projectName);
    if isPresent(path) then [Exit(1)]
    else
      [MakeDir(path)] + ClientSteps(path, paths, a)
      + (if !a.backendAccept then [Exit(0)]
         else ServerSteps(path, paths, a) + [WriteReadme(path, a.frontendAccept, a.backendAccept), GitInit(path)])
  }

  /** The frontend steps are directories and the frontend setup only. */
  lemma ClientStepsAreSetup(path: string, paths: PathOps, a: Answers)
    ensures forall s :: s in ClientSteps(path, paths, a) ==> s.MakeDir? || s.SetUpClient?
  {
  }

  /** Declining the backend exits with status 0 before the README and `git init`. */
  lemma DeclinedBackendExits(cwd: string, paths: PathOps, isPresent: string -> bool, a: Answers)
    requires !isPresent(paths.join(cwd, a.projectName)) && !a.backendAccept
    ensures var steps := InitJs(cwd, paths, isPresent, a);
            steps != [] && steps[|steps| - 1] == Exit(0) &&
            forall i :: 0 <= i < |steps| ==> !steps[i].WriteReadme? && !steps[i].GitInit?
  {
    var path := paths.join(cwd, a.projectName);
    var head := [MakeDir(path)] + ClientSteps(path, paths, a);
    var steps := InitJs(cwd, paths, isPresent, a);
    ClientStepsAreSetup(path, paths, a);
    assert steps == head + [Exit(0)];
    forall i | 0 <= i < |steps|
      ensures !steps[i].WriteReadme? && !steps[i].GitInit?
    {
      if i < |head| {
        assert steps[i] in head;
      }
    }
  }

  /**
   * So every README `bin/index.js` writes has its backend instructions: the
   * "No backend setup was performed." branch is never taken.
   */
  lemma ReadmeJsHasBackend(cwd: string, paths: PathOps, isPresent: string -> bool, a: Answers)
    ensures var steps := InitJs(cwd, paths, isPresent, a);
            forall i :: 0 <= i < |steps| && steps[i].WriteReadme? ==>
              steps[i].backend && BackendSection(paths, steps[i].backend) != "No backend setup was performed."
  {
    var path := paths.join(cwd, a.projectName);
    var steps := InitJs(cwd, paths, isPresent, a);
    BackendSectionFollowsAnswer(paths, true);
    if !isPresent(path) {
      if a.backendAccept {
        var head := [MakeDir(path)] + ClientSteps(path, paths, a);
        var rest := ServerSteps(path, paths, a) + [WriteReadme(path, a.frontendAccept, a.backendAccept), GitInit(path)];
        ClientStepsAreSetup(path, paths, a);
        assert steps == head + rest;
        forall i | 0 <= i < |steps|
          ensures steps[i].WriteReadme? ==> steps[i].backend
        {
          if i < |head| {
            assert steps[i] in head;
          } else {
            assert steps[i] == rest[i - |head|];
          }
        }
      } else {
        DeclinedBackendExits(cwd, paths, isPresent, a);
      }
    }
  }

  /**
   * Without the special case, `.` names the current directory itself, which
   * exists: `bin/index.js` then always exits with status 1, where
   * `bin/index.ts` sets up in place.
   */
  lemma DotRefusedInJs(cwd: string, paths: PathOps, isPresent: string -> bool, a: Answers)
    requires a.projectName == "." && paths.join(cwd, ".") == cwd && isPresent(cwd)
    ensures InitJs(cwd, paths, isPresent, a) == [Exit(1)]
    ensures Init(cwd, paths, isPresent, a)[0] == MakeDir(cwd)
  {
  }
}
