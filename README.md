# mern-init-cli, modelled in Dafny

`mern-init-cli` is an interactive scaffolder. It asks for a project name and
for the frontend and backend choices. It then runs package managers and
project generators, and overwrites some of the generated files with fixed
boilerplate or with text taken from a template registry.

This project models the scaffolder's logic as data and proves properties of it:

- **`Registry`** (`bin/utils/template.ts`) holds the two constant registries.
  `TEMPLATES` maps each key to source text and Babel parser plugins.
  `PLAIN_TEMPLATES` maps each key to a literal text. The template bodies are
  kept line by line.
- **`TemplateCache`** (`bin/utils/template.ts`) models the module-level
  `cachedASTs` map, the `generateAST` fill loop, the `generateAllCode` print
  loop, and the load-time guard that decides whether `generateAST` runs. The
  loops are methods of a class holding the map, each proved against a
  recursive specification function.
- **`CodeGenerator`** (`bin/utils/ast.ts`) models `ASTGenerator.generateCode`.
  A plain template wins. A name that `PLAIN_TEMPLATES` inherits from
  `Object.prototype` (`toString`, `constructor`, `__proto__`, …) reads a
  truthy value, which is returned as it is. A cached AST is printed. Any
  other name yields the sentinel "Not Correct Template Name". A printer error
  is logged and re-thrown.
- **`ConfigGenerator`** (`bin/temp.js`) models the memoising `ASTGenerator`.
  It is a class with the `cachedASTs` map and an error log.
  `generateFromTemplate` answers from the cache, throws for an unknown name,
  or builds the template's program once, stores it and renders it. A name
  `CONFIG.templates` inherits from `Object.prototype` passes the not-found
  test, and its program is built from `undefined` code with no plugins.
- **`Plan`**, **`ClientSetup`**, **`ServerSetup`** and **`Project`**
  (`bin/index.ts`) model the setup steps. Each step is the list of effects it
  performs when nothing throws: commands run, and files written, appended to
  or deleted. `Apply` computes the files that result. The README that
  `generateReadme` writes is spelled out.
- **`ScaffoldJs`** (`bin/index.js`) covers these places where the older
  JavaScript entry point differs from `bin/index.ts` (the others are listed
  under "Left out"):
  - the inline entry-point texts;
  - the `create-next-app` flags;
  - the project setups, which keep the generated README.md;
  - the `.env` entry in `.gitignore`, appended for every framework;
  - `createTSConfig`, which writes a JSON object of its own;
  - the log line of `createIndexFile`;
  - `init`, which exits when the backend is declined.

Babel's `parse`, `template.ast` and `generate` are not modelled. They are
arbitrary functions over an arbitrary AST type, and each may throw.
`path.join` and `path.basename` are function parameters (`Plan.PathOps`).
`fs.existsSync` is a predicate parameter or a boolean argument. A prompt
answer is a field of `Project.Answers`.

Notes on how the renderers behave:

- `generateCode` in `bin/utils/ast.ts` does not throw for an unknown key. It
  returns "Not Correct Template Name". Only the `bin/temp.js` generator throws
  "not found".
- Both caches hold parsed programs, not rendered text. `generate` runs on
  every call.
- In `bin/utils/template.ts` nothing is parsed lazily. The cache is meant to
  be filled once at load, and as written it never is (Finding 1).

## Model

| member | source | states |
|---|---|---|
| Js.Error.Text | bin/utils/ast.ts:23-25 | `${err}` for an error: "name: message", or only the name when the message is empty, or only the message when the name is |
| Js.Get | bin/utils/ast.ts:13 | `obj[name]` on an object literal: an own property when there is one, else the `Object.prototype` property of that name, else `undefined` |
| Js.OrderedMap.Set | bin/utils/template.ts:480 | `Map.set`: the value is replaced; a new key goes last in iteration order and an existing key keeps its place; distinct keys stay distinct |
| Js.EmptyMap | bin/utils/template.ts:471 | `new Map()` has no entries and is well formed |
| Registry.PlainTexts | bin/utils/template.ts:355-469 | `PLAIN_TEMPLATES` has exactly the registered plain keys, each mapped to its text |
| Registry.RegistriesDistinctKeys | bin/utils/template.ts:21-353 | no key occurs twice in `TEMPLATES`, nor in the registry with the router key as its callers spell it |
| Registry.RegistriesDisjoint | bin/utils/template.ts:21-469 | no key is both a structured and a plain template |
| Registry.TemplateKeysNotInherited | bin/utils/template.ts:21-353 | no key of `TEMPLATES` is a name objects inherit from `Object.prototype` |
| Registry.CorrectedKeysNotInherited | bin/utils/template.ts:22 | no key of the corrected registry is such a name either |
| Registry.CorrectedEntryNotInherited | bin/utils/template.ts:21-24 | the key of each corrected entry is not such a name |
| Registry.PlainKeysNotInherited | bin/utils/template.ts:355-469 | no key of `PLAIN_TEMPLATES` is such a name, so none is shadowing one |
| Registry.PlainTemplatesNonEmpty | bin/utils/ast.ts:13 | every plain text is non-empty, so the truthiness test in `generateCode` accepts each of them |
| TemplateCache.Fill | bin/utils/template.ts:473-485 | the `generateAST` loop as a recursive specification; what it computes is stated by `FillFailure`, `FillDomain`, `FillKeepsOthers`, `FillExtendsOrder` and `FillAppends` |
| TemplateCache.ParsedPrefix | bin/utils/template.ts:474-484 | the number of entries that parse before the first one that throws: all before it parse, and the one at it throws |
| TemplateCache.FillFailure | bin/utils/template.ts:474-484 | a `generateAST` run reports an error exactly when some entry fails to parse, and it is the first failing entry's error |
| TemplateCache.FillDomain | bin/utils/template.ts:474-484 | afterwards the keys are the old keys plus exactly the keys of the entries that parsed before the first failure |
| TemplateCache.FillKeepsOthers | bin/utils/template.ts:480 | a key not in `TEMPLATES` keeps its value; `generateAST` only inserts |
| TemplateCache.FillExtendsOrder | bin/utils/template.ts:480 | the old iteration order is a prefix of the new one, and the map stays well formed |
| TemplateCache.FillAppends | bin/utils/template.ts:474-484 | started on fresh keys, the run appends the parsed prefix's keys in registry order, each holding `parse(code, plugins)` of its entry |
| TemplateCache.CompleteFillMatchesRegistry | bin/utils/template.ts:475-481 | when every entry parses, starting from an empty map, the cache lists the registry's keys in order, each holding its entry's parse |
| TemplateCache.AllCode | bin/utils/template.ts:487-496 | the `generateAllCode` loop as a recursive specification; what it prints is stated by `AllCodeEchoesEveryEntry` |
| TemplateCache.AllCodeEchoesEveryEntry | bin/utils/template.ts:487-496 | when every print succeeds, the output is a heading and the printed code for each key in iteration order, and no error |
| TemplateCache.CacheAtLoad | bin/utils/template.ts:471-499 | the exported cache as the module's load leaves it; `LoadGuardNeverFires` states that it is empty |
| TemplateCache.LoadGuardNeverFires | bin/utils/template.ts:471-499 | `cachedASTs` is a fresh map, so `cachedASTs == null` is false and the exported cache is empty whatever the parser |
| TemplateCache.IntendedCacheAtLoad | bin/utils/template.ts:473-499 | the corrected cache, carrying both findings' fixes: `generateAST` run once at load (Finding 1), over the registry with the router key renamed to "reactRouterJS" (Finding 2); it is well formed |
| TemplateCache.TemplateModule.Load | bin/utils/template.ts:471 | loading binds `cachedASTs` to an empty map with nothing logged |
| TemplateCache.TemplateModule.GenerateAST | bin/utils/template.ts:473-485 | the loop leaves the cache `Fill` computes and logs exactly the failure that ended it |
| TemplateCache.TemplateModule.GenerateAllCode | bin/utils/template.ts:487-496 | prints what `AllCode` computes from the map, logs the error that ended the loop, and reads the cache without changing it |
| CodeGenerator.GenerateCode | bin/utils/ast.ts:11-27 | a non-empty own plain text is returned verbatim with nothing logged; a name inherited from `Object.prototype` and not shadowed returns the inherited property; otherwise a cached AST's printing is returned, or else the sentinel; something is logged exactly when an error is thrown |
| CodeGenerator.Render | bin/utils/ast.ts:11-27 | `generateCode` against the registry as exported; specified through `GenerateCode` and the lemmas below |
| CodeGenerator.PlainKeysRenderVerbatim | bin/utils/ast.ts:13 | a plain key yields its stored text whatever the cache holds |
| CodeGenerator.AsWrittenStructuredKeysYieldSentinel | bin/utils/ast.ts:15-20 | with the cache as loaded, every key of `TEMPLATES` yields "Not Correct Template Name" |
| CodeGenerator.IntendedStructuredKeysRender | bin/utils/ast.ts:15-18 | with the intended cache and every template parsing, each registry key yields the printing of its own template's AST, and a printer error is logged once |
| CodeGenerator.UnknownNamesYieldSentinel | bin/utils/ast.ts:20 | a name in neither registry and not inherited from `Object.prototype` yields the sentinel, even from the intended cache |
| CodeGenerator.InheritedNamesYieldProperty | bin/utils/ast.ts:13 | a name such as "toString" returns the inherited property, never the sentinel, whatever the cache holds, and logs nothing |
| CodeGenerator.RouterKeyUnlisted | bin/utils/template.ts:22 | "reactRouterJS" is a key of neither registry |
| CodeGenerator.RouterKeyMisspelt | bin/index.ts:253-254 | even a fully filled cache yields the sentinel for the "reactRouterJS" that `setupReactRouting` asks for |
| ConfigGenerator.PluginsOf | bin/temp.js:80 | `plugins \|\| []`: the configured plugins, or none when absent |
| ConfigGenerator.ConfigEntry | bin/temp.js:72-73 | `CONFIG.templates[name]` when truthy: the own entry, or for a name inherited from `Object.prototype` an entry whose code and plugins are `undefined`, or nothing |
| ConfigGenerator.Uncached | bin/temp.js:72-86 | the reference outcome: a name with no entry throws the not-found error, a failing build throws its error, and a success needs an entry whose program builds |
| ConfigGenerator.Serve | bin/temp.js:66-93 | a successful call leaves the name cached; `template.ast` is called exactly when the name is uncached and has an entry, and the cache gains this name exactly when that build succeeds; a name with no entry leaves the cache alone |
| ConfigGenerator.ServeAgreesWithUncached | bin/temp.js:66-86 | from a coherent cache every call returns what rendering without any cache returns, and the cache stays coherent |
| ConfigGenerator.ServeAgainIsHit | bin/temp.js:68-70 | asking again for a name now cached returns the same outcome and builds nothing |
| ConfigGenerator.ServeCachesBuilt | bin/temp.js:79-84 | a name with an entry whose program builds is cached after one call, even when rendering then throws |
| ConfigGenerator.ServeUnknown | bin/temp.js:72-77 | an uncached name neither in `CONFIG.templates` nor inherited from `Object.prototype` throws `Template "<name>" not found in configuration` and leaves the cache unchanged |
| ConfigGenerator.ServeInherited | bin/temp.js:72-86 | an uncached inherited name such as "toString" skips the not-found throw: `template.ast` is called with `undefined` code and no plugins, and the outcome is that program's building and rendering |
| ConfigGenerator.RunBuildsOnce | bin/temp.js:68-84 | across any sequence of calls a program is successfully built at most once per name, never for a name already cached, and only for names whose program builds; the final cache is the initial one plus the names built |
| ConfigGenerator.RunCacheKeys | bin/temp.js:68-84 | after any sequence of calls the cache holds its initial names plus exactly the names asked for whose program builds |
| ConfigGenerator.RunAttempts | bin/temp.js:68-84 | `template.ast` is called for a name never when it starts cached or has no entry, at most once when its program builds, and on every call for it when building throws |
| ConfigGenerator.RunAgreesWithUncached | bin/temp.js:66-93 | from a coherent cache, every outcome of a sequence of calls equals the uncached one, so repeated calls are idempotent |
| ConfigGenerator.AstGenerator.constructor | bin/temp.js:54-58 | a new generator has an empty cache and an empty log |
| ConfigGenerator.AstGenerator.GenerateFromTemplate | bin/temp.js:66-93 | the outcome and the new cache are `Serve`'s, and the outcome equals the uncached one; the `template.ast` calls and the builds are recorded as `Serve` says; the cached keys keep their entries' programs and each is built once; a success leaves the name cached; any error is logged once, then re-thrown |
| ClientSetup.ReactRoutingOps | bin/index.ts:247-268 | `setupReactRouting`'s writes as a plan; `ReactRoutingApplied` states the files it leaves |
| ClientSetup.TailwindOps | bin/index.ts:270-288 | `setupTailwind`'s effects as a plan; `TailwindLeavesComponents` states what it leaves alone |
| ClientSetup.ViteCreateOps | bin/index.ts:225-235 | the Vite and React Router commands of `setupReactProject`, for the language |
| ClientSetup.ReactProjectOps | bin/index.ts:225-245 | `setupReactProject` as a plan; `ReactProjectApplied` states the files it leaves |
| ClientSetup.ReactClerkOps | bin/index.ts:290-327 | `setupReactClerk` as a plan; `ReactClerkApplied` states the files it leaves |
| ClientSetup.NextJsRoutingOps | bin/index.ts:344-361 | `setupNextJsRouting` as a plan; `NextRoutingApplied` states the files it leaves |
| ClientSetup.NextJsProjectOps | bin/index.ts:329-342 | `setupNextJsProject` as a plan; `NextCreateFlags` states its command's flags |
| ClientSetup.NextClerkOps | bin/index.ts:363-402 | `setupNextClerk` as a plan; `NextClerkApplied` states the files it leaves |
| ClientSetup.ProjectOps | bin/index.ts:207-211 | the framework's project setup: React's, Next.js's, or none |
| ClientSetup.AuthOps | bin/index.ts:213-216 | Clerk's setup when accepted: React's for React, Next.js's for any other framework |
| ClientSetup.IgnoreOps | bin/index.ts:217 | `.env` is appended to `.gitignore` for React only |
| ClientSetup.ClientOps | bin/index.ts:196-223 | `clientSetUp` as a plan; `ClientRendersOnly`, `ClientKeysRegistered`, `ReactClerkReplacesRouter` and `NextClerkReplacesHome` state its properties |
| ClientSetup.ClientRendersOnly | bin/index.ts:196-223 | a React frontend asks `generateCode` only for React keys, any other framework only for Next.js keys |
| ClientSetup.ClientKeysRegistered | bin/index.ts:196-402 | every key a frontend asks for is in the corrected structured registry or the plain one |
| ClientSetup.ClientKeysAsWritten | bin/index.ts:196-402 | as written, every key a frontend asks for is registered, except "reactRouterJS" |
| ClientSetup.RouterKeyOnlyFromReactJS | bin/index.ts:247-255 | only a JavaScript React project asks for "reactRouterJS" |
| ClientSetup.ReactJSAsksRouterKey | bin/index.ts:236-254 | a JavaScript React project asks for "reactRouterJS" |
| ClientSetup.ClientRouterKeyAsWritten | bin/index.ts:253-254 | the one unregistered key a frontend can ask for is "reactRouterJS", asked for exactly by a JavaScript React project |
| ClientSetup.NextCreateFlags | bin/index.ts:329-337 | `--tailwind`, `--typescript` and `--javascript` are passed exactly when the answers call for them; `--turbopack` is always passed |
| ClientSetup.TailwindConfigFollowsLanguage | bin/index.ts:274-279 | for the two languages offered, the Vite config's extension follows the language, although the test is for "JavaScript" |
| ClientSetup.ReactRoutingApplied | bin/index.ts:247-268 | `setupReactRouting` writes the entry point, the home page and `src/App.css`, with the keys for the language |
| ClientSetup.ReactClerkApplied | bin/index.ts:290-327 | `setupReactClerk` appends the key to `.env`, replaces the entry point and the home page, and appends the header rule to `src/App.css` |
| ClientSetup.TailwindLeavesComponents | bin/index.ts:270-288 | Tailwind's effects leave the entry point, the home page and `src/App.css` alone |
| ClientSetup.CleanupApplied | bin/index.ts:242-244 | the closing steps delete README.md and change nothing else |
| ClientSetup.ReactProjectApplied | bin/index.ts:225-245 | after `setupReactProject`, the entry point, home page and stylesheet are the router's, and the scaffold's README.md is gone |
| ClientSetup.ReactClerkReplacesRouter | bin/index.ts:207-217 | with Clerk, a React frontend ends with Clerk's entry point and home page, `src/App.css` is the stylesheet plus the header rule, and README.md is gone |
| ClientSetup.NextRoutingApplied | bin/index.ts:344-361 | `setupNextJsRouting` writes the page and appends the global CSS to `globals.css` |
| ClientSetup.NextClerkApplied | bin/index.ts:363-402 | `setupNextClerk` appends the Clerk keys to `.env`, writes the middleware (`src/middleware.ts` or `.js`), the layout and a replacement page, and appends the header styles to `globals.css` |
| ClientSetup.NextClerkReplacesHome | bin/index.ts:207-402 | with Clerk, a Next.js frontend ends with Clerk's page and layout, `globals.css` gains both appended styles in order, and README.md is gone |
| ServerSetup.SpreadString | bin/index.ts:428-431 | `{...s}` for a string puts each character under its decimal index key, and nothing else |
| ServerSetup.SpreadArray | bin/index.ts:428-431 | `{...items}` for an array puts each item under its decimal index key, and nothing else |
| ServerSetup.PackageJson.Parse | bin/index.ts:417-420 | the parsed `package.json` object, with nothing written yet |
| ServerSetup.PackageJson.SetModuleType | bin/index.ts:421 | the object gains `type: "module"` |
| ServerSetup.PackageJson.SetDevScript | bin/index.ts:427-431 | `scripts` becomes the old scripts spread, plus `dev` |
| ServerSetup.PackageJson.Write | bin/index.ts:422-425 | the current object is written, unchanged |
| ServerSetup.PackageJson.ConvertToModule | bin/index.ts:417-436 | `package.json` is written twice, first with the module type and then with the dev script too |
| ServerSetup.PackageEditKeepsTheRest | bin/index.ts:421-431 | the edited package is an ES module whose `dev` script follows the language, with every other property and script kept |
| ServerSetup.IndexKeysSurviveDev | bin/index.ts:428-431 | string or array `scripts` are spread to index keys, and none of them is "dev", so all survive |
| ServerSetup.PackageOps | bin/index.ts:415-443 | `npm init`, the two `package.json` writes and the TypeScript steps as a plan; the edit itself is `PackageJson`'s, stated by `PackageEditKeepsTheRest` |
| ServerSetup.IndexOps | bin/index.ts:502-540 | `createIndexFile` as a plan; `IndexFileFollowsDatabase` and `ConfigImportResolves` state its properties |
| ServerSetup.DatabaseConfigOps | bin/index.ts:548-589 | `setupDatabaseConfig` as a plan; `DatabaseConfigAppendsEnv` and `SourcesFollowLanguage` state its properties |
| ServerSetup.ServerOps | bin/index.ts:406-462 | `serverSetUp` as a plan; `ServerRendersOnly`, `ServerKeysRegistered`, `ServerEnvFile` and the lemmas above state its properties |
| ServerSetup.Missing | bin/index.ts:497-499 | the folders not yet present, in order: a folder is listed exactly when it is one of the six and not present |
| ServerSetup.CreateSrcStructure | bin/index.ts:484-500 | `src` is made exactly when it is missing; the folders made are exactly the missing ones, in order; afterwards every folder exists |
| ServerSetup.CreateIndexFile | bin/index.ts:502-540 | the index file is written exactly as `IndexOps` says, and the error line is logged exactly when nothing is written |
| ServerSetup.IndexFileFollowsDatabase | bin/index.ts:507-516 | an index file is written exactly for MongoDB, FireBase and SupaBase, each with its import binding, and only MongoDB's calls `connectDB()` |
| ServerSetup.ConfigImportResolves | bin/index.ts:508-561 | the module the index file imports, resolved from `src`, is the file `setupDatabaseConfig` writes |
| ServerSetup.ServerWritesIndexWithConfig | bin/index.ts:445-450 | for a database the index file knows, the backend writes both the index file and the database module |
| ServerSetup.ServerSkipsIndexWithoutDatabase | bin/index.ts:448-515 | for any other database, "None" included, neither the index file nor a database module is written |
| ServerSetup.NodemonForTypeScript | bin/index.ts:440-468 | a TypeScript backend gets `nodemon.json`, which its bare `nodemon` dev script needs |
| ServerSetup.NoNodemonForJavaScript | bin/index.ts:440-443 | any other backend gets no `nodemon.json` |
| ServerSetup.DevScriptRunsIndex | bin/index.ts:430-536 | a JavaScript backend's `dev` script runs the index file `createIndexFile` writes |
| ServerSetup.DatabaseConfigAppendsEnv | bin/index.ts:548-589 | `setupDatabaseConfig` appends its database's lines to `.env` and does nothing else to it |
| ServerSetup.ServerEnvFile | bin/index.ts:449-546 | the server's `.env` ends as the port line followed by the chosen database's lines |
| ServerSetup.ServerRendersOnly | bin/index.ts:406-589 | a backend asks `generateCode` only for the six server keys |
| ServerSetup.ServerKeysRegistered | bin/index.ts:406-589 | every key a backend asks for is registered, both as written and in the corrected registry |
| ServerSetup.SourcesFollowLanguage | bin/index.ts:447-560 | the index file and the database module are `.ts` exactly for a TypeScript backend, `.js` otherwise |
| Project.Init | bin/index.ts:12-134 | `init` when no step throws, as its steps; `InitPlacement`, `InitEndsWithReadme` and `InitSetsUpAccepted` state its properties |
| Project.Readme | bin/index.ts:136-186 | the text `generateReadme` writes; `ReadmeTitle`, `ReadmeFrontendSection`, `ReadmeBackendSection` and the section lemmas below state its parts |
| Project.ReadmeFrontendSection | bin/index.ts:156-165 | in the README itself, the "### Frontend" heading is followed by "No frontend setup was performed." exactly when the frontend was declined |
| Project.ReadmeBackendSection | bin/index.ts:167-180 | in the README itself, the "### Backend" heading is followed by "No backend setup was performed." exactly when the backend was declined |
| Project.FrontendSectionStartsWithAnswer | bin/index.ts:158-165 | the Frontend section's body starts with "No frontend setup was performed." exactly when the frontend was declined |
| Project.BackendSectionStartsWithAnswer | bin/index.ts:168-180 | the Backend section's body starts with "No backend setup was performed." exactly when the backend was declined |
| Project.InitPlacement | bin/index.ts:25-37 | "." sets up in the current directory; any other name is joined onto it, and `init` exits with status 1 exactly when that path exists |
| Project.InitEndsWithReadme | bin/index.ts:124-128 | once placed, `init` ends with the README, written with both answers, and `git init` in the project directory |
| Project.InitSetsUpAccepted | bin/index.ts:48-123 | once placed, the frontend and the backend are set up exactly when accepted, and `init` does not exit |
| Project.ReadmeTitle | bin/index.ts:140 | the README opens with the project directory's name as its title |
| Project.FrontendSectionFollowsAnswer | bin/index.ts:158-165 | the Frontend section reads "No frontend setup was performed." exactly when the frontend was declined |
| Project.BackendSectionFollowsAnswer | bin/index.ts:168-180 | the Backend section reads "No backend setup was performed." exactly when the backend was declined |
| Project.SummaryItems | bin/index.ts:142-153 | the summary lists the frontend item and the backend item exactly for the parts set up: its length counts exactly those items, the frontend item follows the introduction, and the backend item follows the newline after it |
| ScaffoldJs.RouterMain | bin/index.js:232-260 | the router entry point `setupReactRouting` spells out; `EntryPointsDifferByBang` states how the languages differ |
| ScaffoldJs.ClerkMain | bin/index.js:311-335 | Clerk's entry point `setupReactClerk` spells out; `EntryPointsDifferByBang` states how the languages differ |
| ScaffoldJs.BangSplice | bin/index.js:240 | splicing `${isTS ? "!" : ""}` puts a `!` at that position exactly for TypeScript, and deleting it gives the JavaScript text |
| ScaffoldJs.HeadsEndInLookup | bin/index.js:240-326 | in both entry points the spliced `!` directly follows `getElementById("root")` |
| ScaffoldJs.EntryPointsDifferByBang | bin/index.js:232-334 | the router and Clerk entry points differ between TypeScript and JavaScript only by that `!` |
| ScaffoldJs.ExtensionsFollowLanguage | bin/index.js:230-518 | the entry point is `.tsx` exactly for TypeScript and `.jsx` otherwise; the routing page is `.js` in JavaScript, and Clerk's page lands on the same file exactly under TypeScript |
| ScaffoldJs.NextCreateFlagsJs | bin/index.js:423-431 | the language and Tailwind flags follow the answers, and `--turbopack` is not passed |
| ScaffoldJs.NextCreateArgsTurbopack | bin/index.js:428-431 | `bin/index.ts` passes the same words, with `--turbopack` added at the end |
| ScaffoldJs.CleanupJsKeepsReadme | bin/index.js:207-225 | the project setups end with `npm install` alone and leave every file, README.md included, where `bin/index.ts` removes README.md and nothing else |
| ScaffoldJs.IgnoreJsAgreesOnlyForReact | bin/index.js:199 | `.env` is appended to `.gitignore` whatever the framework; the two entry points agree exactly for React |
| ScaffoldJs.TsConfigJsIsObject | bin/index.js:698-722 | `tsconfig.json` is written from an object with `compilerOptions`, `include` and `exclude`, asking `generateCode` for nothing, where `bin/index.ts` writes the stringified "tsConfig" template |
| ScaffoldJs.CreateIndexFileJs | bin/index.js:744-782 | writes the same index file as `bin/index.ts` and logs its own error line exactly when nothing is written |
| ScaffoldJs.InitJs | bin/index.js:8-123 | `init` of `bin/index.js` as its steps; `DeclinedBackendExits`, `ReadmeJsHasBackend` and `DotRefusedInJs` state how it differs |
| ScaffoldJs.DeclinedBackendExits | bin/index.js:84-87 | declining the backend ends with exit status 0, before any README or `git init` |
| ScaffoldJs.ReadmeJsHasBackend | bin/index.js:84-116 | every README `bin/index.js` writes has backend instructions; the "No backend" branch is unreachable |
| ScaffoldJs.DotRefusedInJs | bin/index.js:19-23 | "." is joined like any other name, so the current directory is refused where `bin/index.ts` sets up in it |

## Left out

- Prompting (`inquirer`), `execSync`, the file system, `process.chdir`,
  `process.cwd` and the logger's colours are not modelled. A command is the
  string it runs. A file write is a value in `Plan.Op`.
- Exceptions thrown inside a setup step are not modelled: a failing command,
  a missing file, a failing `generateCode`. Neither is the `process.exit(1)`
  that the `catch` blocks of `clientSetUp`, `serverSetUp`,
  `installTSDependencies`, `setupNextClerk` and `init` then perform. Every
  step is modelled as it runs when nothing throws. The exception is
  `createIndexFile`, whose unsupported-database branch is modelled.
- ConfigGenerator.RunBuildsOnce: counts successful builds only. A template
  whose build throws caches nothing, so `template.ast` is called for it again
  on every call; `RunAttempts` states this.
- What an inherited property's value is (a function, or `Object.prototype`
  for `__proto__`) is not modelled: `CodeGenerator` returns it as
  `InheritedValue(name)`, and `ConfigGenerator` builds from `undefined` code,
  with what Babel does then left to the builder parameter.
- `JSON.stringify` and `JSON.parse` are not spelled out.
  - `package.json` is modelled as the parsed object.
  - `tsconfig.json` is `Stringified("tsConfig")`. The double stringify in
    `createTSConfig` (`bin/index.ts:481`) is kept as a marker, not as text.
  - JavaScript's property order in the written JSON is not modelled.
- The text Babel prints is not modelled, and neither is a parse/print round trip. Babel is a foreign library.
- Most of `bin/index.js` repeats `bin/index.ts` with inline copies of the
  template bodies. `ScaffoldJs` models some of the places where it behaves
  differently. The rest of `bin/index.js` is not part of this model, which
  leaves out:
  - its inline page and layout texts;
  - the stray `}` in its `npm install @clerk/clerk-react}` command;
  - the `${geistSans.variable}` interpolation in its layout template, which refers to names that the enclosing code does not define;
  - its `setupTailwind` and `setupNextClerk` bodies;
  - its inline `nodemon.json` text;
  - its inline database configuration texts for MongoDB, FireBase and
    SupaBase, which it writes directly rather than through `generateCode`;
  - its SupaBase branch (`bin/index.js:868-889`), which runs no
    `npm i @supabase/supabase-js` where `bin/index.ts:578` does, and appends
    `SUPABASE_KEY=` to `.env` where `bin/index.ts:586` appends
    `SUPABASE_ANON_KEY=`.

  The `README.md` text of `bin/index.js` (`bin/index.js:126-172`) is the
  same as that of `bin/index.ts` (`bin/index.ts:140-186`), so `Project.Readme`
  models both.
- `bin/temp.ts`, `bin/config.ts`, `bin/utils/logger.ts` and `babel.config.js`
  are not part of this model. `CONFIG.commands` in `bin/temp.js` and the
  `ProjectSetupService` that follows the generator are not part of it either.
- Both entry points pass `--yens`, which is evidently a misspelt `--yes`, to
  `create-next-app`. The model keeps the word as written. What the tool
  then does with it is not modelled.
- Paths are the relative names the source uses after its `chdir`. Absolute
  paths from `path.join(process.cwd(), …)` are taken as their relative
  equivalents.
- The README tells the user to set `SUPABASE_KEY` (`bin/index.ts:175`),
  but the `.env` it writes and the TypeScript template use
  `SUPABASE_ANON_KEY`. This is recorded, not proved.
- Console output other than the error lines is not modelled. The format
  `console.error` uses for an error object in `bin/index.js` is modelled as
  the error's text.

## Findings

| source | as written | input that shows it | evidently intended | confidence | as-written member | corrected member |
|---|---|---|---|---|---|---|
| bin/utils/template.ts:497 | `generateAST` runs only `if (cachedASTs == null)`, but `cachedASTs` is a fresh `Map`, so the cache stays empty and every structured key renders "Not Correct Template Name" | `generateCode("homePage")` with any parser | fill the cache once at load, so each structured key renders its template; the corrected cache is filled from the registry that also carries Finding 2's renamed key | high; not executed | TemplateCache.LoadGuardNeverFires, CodeGenerator.AsWrittenStructuredKeysYieldSentinel | TemplateCache.IntendedCacheAtLoad, CodeGenerator.IntendedStructuredKeysRender |
| bin/index.ts:254 | a JavaScript React project asks for "reactRouterJS", but the registry key is "reactRouerJS" (bin/utils/template.ts:22), so even a filled cache renders the sentinel | `setupReactRouting(false)` | the router entry point's own template; the corrected registry renames the key, and the corrected cache of Finding 1 is filled from it, so both fixes meet there | high; not executed | CodeGenerator.RouterKeyMisspelt, ClientSetup.ClientRouterKeyAsWritten | ClientSetup.ClientKeysRegistered, CodeGenerator.IntendedStructuredKeysRender |
