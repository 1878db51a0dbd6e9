/**
 * The frontend half of `bin/index.ts`: `clientSetUp` and the steps it calls
 * for a React (Vite) or Next.js project, each modelled as the list of
 * effects it performs in the frontend directory when nothing throws. Paths
 * are relative to that directory.
 */
module ClientSetup {

  import opened Registry
  import opened Plan

  /** The prompt's language choice, as the source tests it. */
  predicate IsTS(language: string) {
    language == "TypeScript"
  }

  /** The router entry point's template key, as `setupReactRouting` asks for it. */
  function RouterKey(isTS: bool): string {
    if isTS then "reactRouterTS" else "reactRouterJS"
  }

  /** The Clerk entry point's template key. */
  function ClerkMainKey(isTS: bool): string {
    if isTS then "reactClerkTS" else "reactClerkJS"
  }

  /** React component files are `.tsx` or `.jsx`. */
  function ReactExt(isTS: bool): string {
    if isTS then "tsx" else "jsx"
  }

  /** Next.js component files are `.tsx` or plain `.js`. */
  function NextExt(isTS: bool): string {
    if isTS then "tsx" else "js"
  }

  /** `setupReactRouting(isTS)`: router entry point, home page and its stylesheet. */
  function ReactRoutingOps(isTS: bool): seq<Op> {
    var ext := ReactExt(isTS);
    [ WriteFile("src/main." + ext, Rendered(RouterKey(isTS))),
      WriteFile("src/App." + ext, Rendered("homePage")),
      WriteFile("src/App.css", Rendered("reactAppCSS")) ]
  }

  /**
   * `setupTailwind(language)`. The config file's name is decided by testing
   * for "JavaScript", not for "TypeScript"; `src/index.css` is overwritten
   * only when it exists.
   */
  function TailwindOps(language: string, indexCssExists: bool): seq<Op> {
    [ Exec("npm i tailwindcss @tailwindcss/vite"),
      WriteFile(if language == "JavaScript" then "vite.config.js" else "vite.config.ts", Rendered("tailwindConfig")) ]
    + (if indexCssExists then [WriteFile("src/index.css", Fixed(TailwindImport))] else [])
  }

  /** The Vite scaffold and the router package, the first steps of `setupReactProject`. */
  function ViteCreateOps(isTS: bool): seq<Op> {
    [ Exec("npm create vite@latest . -- --template " + (if isTS then "react-ts" else "react")),
      Exec("npm install react-router-dom") ]
  }

  /** The last steps of both project setups: drop the scaffold's README.md, install. */
  const CleanupOps: seq<Op> := [DeleteFile("README.md"), Exec("npm install")]

  /** `setupReactProject(language, cssChoice)`. */
  function ReactProjectOps(language: string, cssChoice: string, indexCssExists: bool): seq<Op> {
    ViteCreateOps(IsTS(language))
    + ReactRoutingOps(IsTS(language))
    + (if cssChoice == "TailwindCSS" then TailwindOps(language, indexCssExists) else [])
    + CleanupOps
  }

  /** `setupReactClerk(language)`: replaces the entry point and the home page. */
  function ReactClerkOps(language: string): seq<Op> {
    var ext := ReactExt(IsTS(language));
    [ Exec("npm install @clerk/clerk-react"),
      AppendFile(".env", Fixed(ViteClerkEnv)),
      WriteFile("src/main." + ext, Rendered(ClerkMainKey(IsTS(language)))),
      WriteFile("src/App." + ext, Rendered("reactClerkHome")),
      AppendFile("src/App.css", Fixed(ClerkHeaderCss)) ]
  }

  /** The words of the `create-next-app` command; the CSS flag may be the empty word. */
  function NextCreateArgs(language: string, cssChoice: string): seq<string> {
    [ "npx", "create-next-app@latest", ".",
      if IsTS(language) then "--typescript" else "--javascript",
      "--use-npm", "--eslint", "--src-dir", "--app",
      if cssChoice == "TailwindCSS" then "--tailwind" else "",
      "--no-import-alias", "--yens", "--turbopack" ]
  }

  /** `setupNextJsRouting(isTS)`. */
  function NextJsRoutingOps(isTS: bool): seq<Op> {
    [ WriteFile("src/app/page." + NextExt(isTS), Rendered("nextHome")),
      AppendFile("src/app/globals.css", Rendered("nextGlobalCSS")) ]
  }

  /** `setupNextJsProject(language, cssChoice)`. */
  function NextJsProjectOps(language: string, cssChoice: string): seq<Op> {
    [Exec(Unwords(NextCreateArgs(language, cssChoice)))]
    + NextJsRoutingOps(IsTS(language))
    + CleanupOps
  }

  /** `setupNextClerk(language)`: middleware, layout, a replacement page and header styles. */
  function NextClerkOps(language: string): seq<Op> {
    var compExt := NextExt(IsTS(language));
    [ Exec("npm install @clerk/nextjs"),
      AppendFile(".env", Fixed(NextClerkEnv)),
      WriteFile("src/middleware." + (if IsTS(language) then "ts" else "js"), Rendered("nextClerkMiddleware")),
      WriteFile("src/app/layout." + compExt, Rendered("nextClerkLayout")),
      WriteFile("src/app/page." + compExt, Rendered("nextPage")),
      AppendFile("src/app/globals.css", Rendered("nextCss")) ]
  }

  /** The framework's own project setup; an unknown framework sets up nothing. */
  function ProjectOps(framework: string, language: string, cssChoice: string, indexCssExists: bool): seq<Op> {
    if framework == "React" then ReactProjectOps(language, cssChoice, indexCssExists)
    else if framework == "Next.js" then NextJsProjectOps(language, cssChoice)
    else []
  }

  /** Clerk, when accepted; any framework but React gets the Next.js variant. */
  function AuthOps(framework: string, language: string, authAccept: bool): seq<Op> {
    if !authAccept then []
    else if framework == "React" then ReactClerkOps(language)
    else NextClerkOps(language)
  }

  /** React projects get ".env" appended to `.gitignore`. */
  function IgnoreOps(framework: string): seq<Op> {
    if framework == "React" then [AppendFile(".gitignore", Fixed(IgnoreEnv))] else []
  }

  /** `clientSetUp`: the project, then Clerk, then the `.gitignore` entry. */
  function ClientOps(framework: string, language: string, cssChoice: string, authAccept: bool, indexCssExists: bool): seq<Op> {
    ProjectOps(framework, language, cssChoice, indexCssExists) + AuthOps(framework, language, authAccept) + IgnoreOps(framework)
  }

  // ---------------------------------------------------------------------
  // Template keys

  /** The keys a React project may ask for. */
  function ReactKeys(isTS: bool): set<string> {
    {RouterKey(isTS), "homePage", "reactAppCSS", "tailwindConfig", ClerkMainKey(isTS), "reactClerkHome"}
  }

  /** The keys a Next.js project may ask for. */
  const NextKeys: set<string> := {"nextHome", "nextGlobalCSS", "nextClerkMiddleware", "nextClerkLayout", "nextPage", "nextCss"}

  lemma ReactProjectRendersOnly(language: string, cssChoice: string, indexCssExists: bool)
    ensures RendersOnly(ReactProjectOps(language, cssChoice, indexCssExists), ReactKeys(IsTS(language)))
  {
    var isTS := IsTS(language);
    var routingKeys := {RouterKey(isTS), "homePage", "reactAppCSS"};
    var tw := if cssChoice == "TailwindCSS" then TailwindOps(language, indexCssExists) else [];
    assert RendersOnly(ViteCreateOps(isTS), {}) && RendersOnly(CleanupOps, {});
    assert RendersOnly(ReactRoutingOps(isTS), routingKeys);
    assert RendersOnly(tw, {"tailwindConfig"});
    RendersOnlyAppend(ViteCreateOps(isTS), ReactRoutingOps(isTS), {}, routingKeys);
    RendersOnlyAppend(ViteCreateOps(isTS) + ReactRoutingOps(isTS), tw, {} + routingKeys, {"tailwindConfig"});
    RendersOnlyAppend(ViteCreateOps(isTS) + ReactRoutingOps(isTS) + tw, CleanupOps, {} + routingKeys + {"tailwindConfig"}, {});
    assert {} + routingKeys + {"tailwindConfig"} + {} <= ReactKeys(isTS);
  }

  lemma NextProjectRendersOnly(language: string, cssChoice: string)
    ensures RendersOnly(NextJsProjectOps(language, cssChoice), NextKeys)
  {
    var head := [Exec(Unwords(NextCreateArgs(language, cssChoice)))];
    var routingKeys := {"nextHome", "nextGlobalCSS"};
    assert RendersOnly(head, {}) && RendersOnly(CleanupOps, {});
    assert RendersOnly(NextJsRoutingOps(IsTS(language)), routingKeys);
    RendersOnlyAppend(head, NextJsRoutingOps(IsTS(language)), {}, routingKeys);
    RendersOnlyAppend(head + NextJsRoutingOps(IsTS(language)), CleanupOps, {} + routingKeys, {});
    assert {} + routingKeys + {} <= NextKeys;
  }

  /** A React project asks only for React keys, any other framework only for Next.js keys. */
  lemma ClientRendersOnly(framework: string, language: string, cssChoice: string, authAccept: bool, indexCssExists: bool)
    ensures RendersOnly(ClientOps(framework, language, cssChoice, authAccept, indexCssExists),
                        if framework == "React" then ReactKeys(IsTS(language)) else NextKeys)
  {
    var keys := if framework == "React" then ReactKeys(IsTS(language)) else NextKeys;
    var project := ProjectOps(framework, language, cssChoice, indexCssExists);
    var auth := AuthOps(framework, language, authAccept);
    if framework == "React" {
      ReactProjectRendersOnly(language, cssChoice, indexCssExists);
    } else if framework == "Next.js" {
      NextProjectRendersOnly(language, cssChoice);
    }
    assert RendersOnly(auth, keys);
    assert RendersOnly(IgnoreOps(framework), {});
    RendersOnlyAppend(project, auth, keys, keys);
    RendersOnlyAppend(project + auth, IgnoreOps(framework), keys + keys, {});
    assert keys + keys + {} == keys;
  }

  /** Every key a frontend asks for is served by the corrected registries. */
  lemma ClientKeysRegistered(framework: string, language: string, cssChoice: string, authAccept: bool, indexCssExists: bool)
    ensures forall k :: k in RenderedKeys(ClientOps(framework, language, cssChoice, authAccept, indexCssExists)) ==>
              k in CorrectedKeys || k in PlainKeys
  {
    ClientRendersOnly(framework, language, cssChoice, authAccept, indexCssExists);
    assert CorrectedKeys[0] == "reactRouterJS" && CorrectedKeys[1] == "reactRouterTS" && CorrectedKeys[2] == "homePage";
    assert CorrectedKeys[3] == "tailwindConfig" && CorrectedKeys[4] == "reactClerkJS" && CorrectedKeys[5] == "reactClerkTS";
    assert CorrectedKeys[6] == "reactClerkHome" && CorrectedKeys[7] == "nextHome" && CorrectedKeys[8] == "nextClerkMiddleware";
    assert CorrectedKeys[9] == "nextClerkLayout" && CorrectedKeys[10] == "nextPage";
    assert PlainKeys[1] == "nextGlobalCSS" && PlainKeys[2] == "nextCss" && PlainKeys[3] == "reactAppCSS";
  }

  /** As written, a frontend asks only for registered keys and "reactRouterJS". */
  lemma ClientKeysAsWritten(framework: string, language: string, cssChoice: string, authAccept: bool, indexCssExists: bool)
    ensures forall k :: k in RenderedKeys(ClientOps(framework, language, cssChoice, authAccept, indexCssExists)) ==>
              k in TemplateKeys || k in PlainKeys || k == "reactRouterJS"
  {
    ClientRendersOnly(framework, language, cssChoice, authAccept, indexCssExists);
    assert TemplateKeys[1] == "reactRouterTS" && TemplateKeys[2] == "homePage";
    assert TemplateKeys[3] == "tailwindConfig" && TemplateKeys[4] == "reactClerkJS" && TemplateKeys[5] == "reactClerkTS";
    assert TemplateKeys[6] == "reactClerkHome" && TemplateKeys[7] == "nextHome" && TemplateKeys[8] == "nextClerkMiddleware";
    assert TemplateKeys[9] == "nextClerkLayout" && TemplateKeys[10] == "nextPage";
    assert PlainKeys[1] == "nextGlobalCSS" && PlainKeys[2] == "nextCss" && PlainKeys[3] == "reactAppCSS";
  }

  /** Only a JavaScript React project asks for "reactRouterJS". */
  lemma RouterKeyOnlyFromReactJS(framework: string, language: string, cssChoice: string, authAccept: bool, indexCssExists: bool)
    requires "reactRouterJS" in RenderedKeys(ClientOps(framework, language, cssChoice, authAccept, indexCssExists))
    ensures framework == "React" && !IsTS(language)
  {
    var ops := ClientOps(framework, language, cssChoice, authAccept, indexCssExists);
    ClientRendersOnly(framework, language, cssChoice, authAccept, indexCssExists);
    var i :| 0 <= i < |ops| && ops[i].Fills() && ops[i].content.Requests() && ops[i].content.key == "reactRouterJS";
    RouterKeyOnlyInReactJSKeys();
  }

  lemma RouterKeyOnlyInReactJSKeys()
    ensures "reactRouterJS" !in ReactKeys(true) && "reactRouterJS" !in NextKeys
  {
  }

  /** A JavaScript React project asks for "reactRouterJS" for its entry point. */
  lemma ReactJSAsksRouterKey(language: string, cssChoice: string, authAccept: bool, indexCssExists: bool)
    requires !IsTS(language)
    ensures "reactRouterJS" in RenderedKeys(ClientOps("React", language, cssChoice, authAccept, indexCssExists))
  {
    var ops := ClientOps("React", language, cssChoice, authAccept, indexCssExists);
    var project := ReactProjectOps(language, cssChoice, indexCssExists);
    assert project[2] == ReactRoutingOps(false)[0];
    assert ops[2] == project[2];
  }

  /**
   * As written, the one key a frontend asks for that neither registry holds
   * is "reactRouterJS", and it is asked for exactly by a JavaScript React
   * project.
   */
  lemma ClientRouterKeyAsWritten(framework: string, language: string, cssChoice: string, authAccept: bool, indexCssExists: bool)
    ensures var ks := RenderedKeys(ClientOps(framework, language, cssChoice, authAccept, indexCssExists));
            && (forall k :: k in ks ==> k in TemplateKeys || k in PlainKeys || k == "reactRouterJS")
            && ("reactRouterJS" in ks <==> framework == "React" && !IsTS(language))
  {
    ClientKeysAsWritten(framework, language, cssChoice, authAccept, indexCssExists);
    if framework == "React" && !IsTS(language) {
      ReactJSAsksRouterKey(language, cssChoice, authAccept, indexCssExists);
    } else if "reactRouterJS" in RenderedKeys(ClientOps(framework, language, cssChoice, authAccept, indexCssExists)) {
      RouterKeyOnlyFromReactJS(framework, language, cssChoice, authAccept, indexCssExists);
    }
  }

  // ---------------------------------------------------------------------
  // Language choice

  /** The `create-next-app` flags follow the prompt's answers. */
  lemma NextCreateFlags(language: string, cssChoice: string)
    ensures var args := NextCreateArgs(language, cssChoice);
            && ("--tailwind" in args <==> cssChoice == "TailwindCSS")
            && ("--typescript" in args <==> IsTS(language))
            && ("--javascript" in args <==> !IsTS(language))
            && "--turbopack" in args
  {
  }

  /**
   * `setupTailwind` tests for "JavaScript" where every other step tests for
   * "TypeScript"; for the two languages the prompt offers, the config file's
   * extension still follows the language.
   */
  lemma TailwindConfigFollowsLanguage(language: string, indexCssExists: bool)
    requires language == "TypeScript" || language == "JavaScript"
    ensures TailwindOps(language, indexCssExists)[1] ==
            WriteFile("vite.config." + (if IsTS(language) then "ts" else "js"), Rendered("tailwindConfig"))
  {
  }

  // ---------------------------------------------------------------------
  // The files a frontend ends with

  /** What a file holds before an append: its pieces, or nothing when it is missing. */
  function Existing(files: map<string, seq<Content>>, path: string): seq<Content> {
    if path in files then files[path] else []
  }

  lemma ReactRoutingApplied(isTS: bool, files: map<string, seq<Content>>)
    ensures var ext := ReactExt(isTS);
            Apply(ReactRoutingOps(isTS), files) ==
              files["src/main." + ext := [Rendered(RouterKey(isTS))]]["src/App." + ext := [Rendered("homePage")]]
                   ["src/App.css" := [Rendered("reactAppCSS")]]
  {
    var ops := ReactRoutingOps(isTS);
    var f1 := Effect(ops[0], files);
    var f2 := Effect(ops[1], f1);
    var f3 := Effect(ops[2], f2);
    assert ops[1..][1..][1..] == [];
    assert Apply(ops[1..][1..], f2) == f3;
    assert Apply(ops[1..], f1) == f3;
  }

  lemma ReactClerkApplied(language: string, files: map<string, seq<Content>>)
    ensures var ext := ReactExt(IsTS(language));
            Apply(ReactClerkOps(language), files) ==
              files[".env" := Existing(files, ".env") + [Fixed(ViteClerkEnv)]]
                   ["src/main." + ext := [Rendered(ClerkMainKey(IsTS(language)))]]
                   ["src/App." + ext := [Rendered("reactClerkHome")]]
                   ["src/App.css" := Existing(files, "src/App.css") + [Fixed(ClerkHeaderCss)]]
  {
    var ops := ReactClerkOps(language);
    var f1 := Effect(ops[0], files);
    var f2 := Effect(ops[1], f1);
    var f3 := Effect(ops[2], f2);
    var f4 := Effect(ops[3], f3);
    var f5 := Effect(ops[4], f4);
    var ext := ReactExt(IsTS(language));
    ReactPathsDistinct(ext);
    assert |"src/main." + ext| != |"src/App.css"|;
    assert ops[1..][1..][1..][1..][1..] == [];
    assert Apply(ops[1..][1..][1..][1..], f4) == f5;
    assert Apply(ops[1..][1..][1..], f3) == f5;
    assert Apply(ops[1..][1..], f2) == f5;
    assert Apply(ops[1..], f1) == f5;
  }

  /** The React files the frontend steps name are different files. */
  lemma ReactPathsDistinct(ext: string)
    requires ext == "tsx" || ext == "jsx"
    ensures "src/App." + ext != "src/App.css"
    ensures "README.md" != "src/main." + ext && "README.md" != "src/App." + ext
  {
    assert ("src/App." + ext)[8] == ext[0] != "src/App.css"[8];
    assert |"src/main." + ext| == 12 && ("src/App." + ext)[0] == 's';
  }

  /** Tailwind's effects leave the React component files alone. */
  lemma TailwindLeavesComponents(language: string, indexCssExists: bool, ext: string)
    requires ext == "tsx" || ext == "jsx"
    ensures var tw := TailwindOps(language, indexCssExists);
            Untouched(tw, "src/main." + ext) && Untouched(tw, "src/App." + ext) && Untouched(tw, "src/App.css")
  {
    assert |"src/main." + ext| == 12 && |"src/App." + ext| == 11;
  }

  /** The closing steps delete README.md and touch nothing else. */
  lemma CleanupApplied(files: map<string, seq<Content>>)
    ensures Apply(CleanupOps, files) == files - {"README.md"}
  {
    var f1 := Effect(CleanupOps[0], files);
    assert CleanupOps[1..][1..] == [];
    assert Apply(CleanupOps[1..], f1) == f1;
  }

  /**
   * After `setupReactProject` the entry point, home page and stylesheet are
   * the router's, and the scaffold's own README.md is gone.
   */
  lemma ReactProjectApplied(language: string, cssChoice: string, indexCssExists: bool, files: map<string, seq<Content>>)
    ensures var r := Apply(ReactProjectOps(language, cssChoice, indexCssExists), files);
            var ext := ReactExt(IsTS(language));
            && "src/main." + ext in r && r["src/main." + ext] == [Rendered(RouterKey(IsTS(language)))]
            && "src/App." + ext in r && r["src/App." + ext] == [Rendered("homePage")]
            && "src/App.css" in r && r["src/App.css"] == [Rendered("reactAppCSS")]
            && "README.md" !in r
  {
    var isTS := IsTS(language);
    var ext := ReactExt(isTS);
    var head := ViteCreateOps(isTS);
    var routing := ReactRoutingOps(isTS);
    var tw := if cssChoice == "TailwindCSS" then TailwindOps(language, indexCssExists) else [];
    ApplyAppend(head + routing + tw, CleanupOps, files);
    ApplyAppend(head + routing, tw, files);
    ApplyAppend(head, routing, files);
    var g1 := Apply(head + routing, files);
    ReactRoutingApplied(isTS, Apply(head, files));
    ReactPathsDistinct(ext);
    if cssChoice == "TailwindCSS" {
      TailwindLeavesComponents(language, indexCssExists, ext);
    }
    ApplyFrame(tw, g1, "src/main." + ext);
    ApplyFrame(tw, g1, "src/App." + ext);
    ApplyFrame(tw, g1, "src/App.css");
    CleanupApplied(Apply(tw, g1));
  }

  /**
   * In a React project with Clerk, the Clerk entry point and home page
   * replace the router's, the header rule is appended after the router's
   * stylesheet, and the scaffold's README.md stays deleted.
   */
  lemma ReactClerkReplacesRouter(language: string, cssChoice: string, indexCssExists: bool, files: map<string, seq<Content>>)
    ensures var r := Apply(ClientOps("React", language, cssChoice, true, indexCssExists), files);
            var ext := ReactExt(IsTS(language));
            && "src/main." + ext in r && r["src/main." + ext] == [Rendered(ClerkMainKey(IsTS(language)))]
            && "src/App." + ext in r && r["src/App." + ext] == [Rendered("reactClerkHome")]
            && "src/App.css" in r && r["src/App.css"] == [Rendered("reactAppCSS"), Fixed(ClerkHeaderCss)]
            && "README.md" !in r
  {
    var ext := ReactExt(IsTS(language));
    var project := ProjectOps("React", language, cssChoice, indexCssExists);
    var clerk := AuthOps("React", language, true);
    var ignore := IgnoreOps("React");
    ApplyAppend(project + clerk, ignore, files);
    ApplyAppend(project, clerk, files);
    ReactProjectApplied(language, cssChoice, indexCssExists, files);
    var g := Apply(project, files);
    ReactClerkApplied(language, g);
    var h := Apply(clerk, g);
    ReactPathsDistinct(ext);
    assert |"src/main." + ext| == 12 && |"src/App." + ext| == 11;
    ApplyFrame(ignore, h, "src/main." + ext);
    ApplyFrame(ignore, h, "src/App." + ext);
    ApplyFrame(ignore, h, "src/App.css");
    ApplyFrame(ignore, h, "README.md");
  }

  /** The middleware and `.env` are distinct from each other and from the app files. */
  lemma NextClerkPathsDistinct(middleware: string, ext: string)
    requires middleware == "src/middleware.ts" || middleware == "src/middleware.js"
    requires ext == "tsx" || ext == "js"
    ensures ".env" != middleware
    ensures ".env" != "src/app/layout." + ext && ".env" != "src/app/page." + ext && ".env" != "src/app/globals.css"
    ensures middleware != "src/app/layout." + ext && middleware != "src/app/page." + ext && middleware != "src/app/globals.css"
  {
    assert ("src/app/layout." + ext)[0] == 's' && ("src/app/page." + ext)[0] == 's';
    assert ("src/app/layout." + ext)[4] == 'a' && ("src/app/page." + ext)[4] == 'a';
  }

  /** The Next.js files the frontend steps name are different files. */
  lemma NextPathsDistinct(ext: string)
    requires ext == "tsx" || ext == "js"
    ensures "src/app/page." + ext != "src/app/globals.css"
    ensures "src/app/layout." + ext != "src/app/page." + ext && "src/app/layout." + ext != "src/app/globals.css"
    ensures "README.md" != "src/app/page." + ext && "README.md" != "src/app/layout." + ext
  {
    assert ("src/app/layout." + ext)[8] == 'l' && ("src/app/page." + ext)[8] == 'p';
    assert "README.md"[0] != ("src/app/page." + ext)[0] && "README.md"[0] != ("src/app/layout." + ext)[0];
    assert |"src/app/page." + ext| < 19 && |"src/app/layout." + ext| < 19;
  }

  lemma NextRoutingApplied(isTS: bool, files: map<string, seq<Content>>)
    ensures var ext := NextExt(isTS);
            Apply(NextJsRoutingOps(isTS), files) ==
              files["src/app/page." + ext := [Rendered("nextHome")]]
                   ["src/app/globals.css" := Existing(files, "src/app/globals.css") + [Rendered("nextGlobalCSS")]]
  {
    var ops := NextJsRoutingOps(isTS);
    var f1 := Effect(ops[0], files);
    NextPathsDistinct(NextExt(isTS));
    assert ops[1..][1..] == [];
    assert Apply(ops[1..], f1) == Effect(ops[1], f1);
  }

  lemma NextClerkApplied(language: string, files: map<string, seq<Content>>)
    ensures var ext := NextExt(IsTS(language));
            var middleware := "src/middleware." + (if IsTS(language) then "ts" else "js");
            var r := Apply(NextClerkOps(language), files);
            && ".env" in r && r[".env"] == Existing(files, ".env") + [Fixed(NextClerkEnv)]
            && middleware in r && r[middleware] == [Rendered("nextClerkMiddleware")]
            && "src/app/layout." + ext in r && r["src/app/layout." + ext] == [Rendered("nextClerkLayout")]
            && "src/app/page." + ext in r && r["src/app/page." + ext] == [Rendered("nextPage")]
            && "src/app/globals.css" in r && r["src/app/globals.css"] == Existing(files, "src/app/globals.css") + [Rendered("nextCss")]
            && ("README.md" in r <==> "README.md" in files)
  {
    var ops := NextClerkOps(language);
    var ext := NextExt(IsTS(language));
    var middleware := "src/middleware." + (if IsTS(language) then "ts" else "js");
    NextPathsDistinct(ext);
    NextClerkPathsDistinct(middleware, ext);
    var f1 := Effect(ops[0], files);
    var f2 := Effect(ops[1], f1);
    var f3 := Effect(ops[2], f2);
    var f4 := Effect(ops[3], f3);
    var f5 := Effect(ops[4], f4);
    var f6 := Effect(ops[5], f5);
    assert ops[1..][1..][1..][1..][1..][1..] == [];
    assert Apply(ops[1..][1..][1..][1..][1..], f5) == f6;
    assert Apply(ops[1..][1..][1..][1..], f4) == f6;
    assert Apply(ops[1..][1..][1..], f3) == f6;
    assert Apply(ops[1..][1..], f2) == f6;
    assert Apply(ops[1..], f1) == f6;
    assert f1 == files;
    assert ".env" in f6 && f6[".env"] == f2[".env"];
    assert middleware in f6 && f6[middleware] == f3[middleware];
    assert "src/app/globals.css" in f5 <==> "src/app/globals.css" in files;
    assert "src/app/globals.css" in files ==> f5["src/app/globals.css"] == files["src/app/globals.css"];
  }

  /**
   * In a Next.js project with Clerk, the Clerk page replaces the routing
   * page (both use the same extension), the layout is Clerk's, and the
   * global stylesheet gets the routing styles and then the header styles
   * appended to what the scaffold left.
   */
  lemma NextClerkReplacesHome(language: string, cssChoice: string, indexCssExists: bool, files: map<string, seq<Content>>)
    ensures var r := Apply(ClientOps("Next.js", language, cssChoice, true, indexCssExists), files);
            var ext := NextExt(IsTS(language));
            && "src/app/page." + ext in r && r["src/app/page." + ext] == [Rendered("nextPage")]
            && "src/app/layout." + ext in r && r["src/app/layout." + ext] == [Rendered("nextClerkLayout")]
            && "src/app/globals.css" in r
            && r["src/app/globals.css"] == Existing(files, "src/app/globals.css") + [Rendered("nextGlobalCSS"), Rendered("nextCss")]
            && "README.md" !in r
  {
    var isTS := IsTS(language);
    var ext := NextExt(isTS);
    var head := [Exec(Unwords(NextCreateArgs(language, cssChoice)))];
    var project := ProjectOps("Next.js", language, cssChoice, indexCssExists);
    var auth := AuthOps("Next.js", language, true);
    assert IgnoreOps("Next.js") == [];
    assert project + auth + [] == project + auth;
    ApplyAppend(project, auth, files);
    ApplyAppend(head + NextJsRoutingOps(isTS), CleanupOps, files);
    ApplyAppend(head, NextJsRoutingOps(isTS), files);
    var g0 := Apply(head, files);
    assert g0 == files by {
      assert head[1..] == [];
    }
    NextRoutingApplied(isTS, files);
    var g1 := Apply(head + NextJsRoutingOps(isTS), files);
    CleanupApplied(g1);
    NextPathsDistinct(ext);
    NextClerkApplied(language, g1 - {"README.md"});
  }
}
