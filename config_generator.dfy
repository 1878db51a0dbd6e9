/**
 * The memoising `ASTGenerator` of `bin/temp.js`: `CONFIG.templates`, the
 * `cachedASTs` map its constructor creates, and `generateFromTemplate`, which
 * answers from the cache, or looks the template up, builds its program once
 * and stores it.
 *
 * Babel's `template.ast` (followed by `t.program`) and `generate` are passed in
 * as arbitrary functions over an arbitrary program type `A`, each of which
 * may throw.
 */
module ConfigGenerator {

  import opened Js
  import opened Registry

  /**
   * The code handed to `template.ast`: a configured template's code, by name,
   * or `undefined`, read as `.code` off a property every object inherits.
   */
  datatype ConfigCode = ReactRouterEntry | UndefinedCode {
    /** The source text of a configured code. */
    function Text(): string
      requires ReactRouterEntry?
    {
      JoinLines(ReactRouterEntryLines)
    }
  }

  /** The `reactRouter` code: a leading newline, then the entry point that wraps `App` in a router. */
  const ReactRouterEntryLines: seq<string> := [
    "",
    "import React from \"react\";",
    "import ReactDOM from \"react-dom/client\";",
    "import { BrowserRouter } from \"react-router-dom\";",
    "import App from \"./App\";",
    "import \"./index.css\";",
    "",
    "ReactDOM.createRoot(document.getElementById(\"root\")).render(",
    "  <React.StrictMode>",
    "    <BrowserRouter>",
    "      <App />",
    "    </BrowserRouter>",
    "  </React.StrictMode>",
    ");"
  ]

  /** One entry of `CONFIG.templates`; `plugins` may be absent. */
  datatype ConfigTemplate = ConfigTemplate(code: ConfigCode, plugins: Option<seq<Plugin>>)

  /** The own properties of `CONFIG.templates`. */
  const ConfigTemplates: map<string, ConfigTemplate> :=
    map["reactRouter" := ConfigTemplate(ReactRouterEntry, Some([Jsx]))]

  /**
   * `CONFIG.templates[name]`, when it is truthy. A name `Object.prototype`
   * supplies reads a function or an object, which is truthy, and whose `code`
   * and `plugins` are `undefined`.
   */
  function ConfigEntry(name: string): (r: Option<ConfigTemplate>)
    ensures r.Some? <==> name in ConfigTemplates || name in ObjectPrototypeProperties
    ensures name in ConfigTemplates ==> r == Some(ConfigTemplates[name])
    ensures name !in ConfigTemplates && name in ObjectPrototypeProperties ==> r == Some(ConfigTemplate(UndefinedCode, None))
  {
    match Get(ConfigTemplates, name)
    case Own(c) => Some(c)
    case Inherited(_) => Some(ConfigTemplate(UndefinedCode, None))
    case Undefined => None
  }

  /** `templateConfig.plugins || []`. */
  function PluginsOf(c: ConfigTemplate): (ps: seq<Plugin>)
    ensures c.plugins.Some? ==> ps == c.plugins.value
    ensures c.plugins.None? ==> ps == []
  {
    match c.plugins
    case Some(ps) => ps
    case None => []
  }

  /** `t.program(template.ast(code, { plugins }))`. */
  type ProgramBuilder<A> = (ConfigCode, seq<Plugin>) -> Outcome<A>

  /** `generate(program)`, giving the `.code` of its result. */
  type Generator<!A> = A -> Outcome<string>

  /** The error thrown for a name `CONFIG.templates` lacks. */
  function NotFound(name: string): Error {
    Error("Error", "Template \"" + name + "\" not found in configuration")
  }

  /** The line the `catch` logs before re-throwing. */
  function FailLine(name: string, e: Error): string {
    "Failed to generate code for template \"" + name + "\": " + e.message
  }

  /** Building the program of a template entry, with its plugins or none. */
  function Build<A>(build: ProgramBuilder<A>, name: string): Outcome<A>
    requires ConfigEntry(name).Some?
  {
    var config := ConfigEntry(name).value;
    build(config.code, PluginsOf(config))
  }

  /** The names whose entry exists and whose program builds. */
  ghost predicate Builds<A>(build: ProgramBuilder<A>, name: string) {
    ConfigEntry(name).Some? && Build(build, name).Ok?
  }

  /**
   * The reference the cache must agree with: what rendering a template
   * gives when nothing is cached.
   */
  function Uncached<A>(build: ProgramBuilder<A>, generate: Generator<A>, name: string): (r: Outcome<string>)
    ensures ConfigEntry(name).None? ==> r == Thrown(NotFound(name))
    ensures ConfigEntry(name).Some? && Build(build, name).Thrown? ==> r == Thrown(Build(build, name).error)
    ensures r.Ok? ==> ConfigEntry(name).Some? && Build(build, name).Ok?
  {
    if ConfigEntry(name).None? then Thrown(NotFound(name))
    else
      match Build(build, name)
      case Thrown(e) => Thrown(e)
      case Ok(program) => generate(program)
  }

  /** Every cached program is the one its configured template builds. */
  ghost predicate Coherent<A>(build: ProgramBuilder<A>, cache: map<string, A>) {
    forall n :: n in cache ==> ConfigEntry(n).Some? && Build(build, n) == Ok(cache[n])
  }

  /**
   * One call's outcome, the cache after it, whether it asked `template.ast`
   * for a program, and whether it got one.
   */
  datatype Call<A> = Call(result: Outcome<string>, cache: map<string, A>, attempted: bool, built: bool)

  /**
   * `generateFromTemplate(name)` on `cache`: a cached program is rendered
   * without consulting `CONFIG.templates`; otherwise an unknown name throws,
   * and a known one is built, stored and rendered. A program that was stored
   * stays stored when rendering it throws.
   */
  function Serve<A>(build: ProgramBuilder<A>, generate: Generator<A>, cache: map<string, A>, name: string): (c: Call<A>)
    ensures c.result.Ok? ==> name in c.cache
    ensures c.cache.Keys == cache.Keys + (if c.built then {name} else {})
    ensures c.attempted <==> name !in cache && ConfigEntry(name).Some?
    ensures c.built <==> c.attempted && Build(build, name).Ok?
    ensures ConfigEntry(name).None? ==> c.cache == cache
  {
    if name in cache then Call(generate(cache[name]), cache, false, false)
    else if ConfigEntry(name).None? then Call(Thrown(NotFound(name)), cache, false, false)
    else
      match Build(build, name)
      case Thrown(e) => Call(Thrown(e), cache, true, false)
      case Ok(program) => Call(generate(program), cache[name := program], true, true)
  }

  /** The cache never changes what a call returns, and it stays coherent. */
  lemma ServeAgreesWithUncached<A>(build: ProgramBuilder<A>, generate: Generator<A>, cache: map<string, A>, name: string)
    requires Coherent(build, cache)
    ensures Serve(build, generate, cache, name).result == Uncached(build, generate, name)
    ensures Coherent(build, Serve(build, generate, cache, name).cache)
  {
  }

  /** Asking again for a name that is cached gives the same outcome and builds nothing. */
  lemma ServeAgainIsHit<A>(build: ProgramBuilder<A>, generate: Generator<A>, cache: map<string, A>, name: string)
    requires name in Serve(build, generate, cache, name).cache
    ensures var first := Serve(build, generate, cache, name);
            Serve(build, generate, first.cache, name) == Call(first.result, first.cache, false, false)
  {
  }

  /** A name whose program builds is cached after one call, whatever rendering does. */
  lemma ServeCachesBuilt<A>(build: ProgramBuilder<A>, generate: Generator<A>, cache: map<string, A>, name: string)
    requires ConfigEntry(name).Some? && Build(build, name).Ok?
    ensures name in Serve(build, generate, cache, name).cache
  {
  }

  /**
   * An uncached name that is neither configured nor inherited from
   * `Object.prototype` throws the not-found error and leaves the cache alone.
   */
  lemma ServeUnknown<A>(build: ProgramBuilder<A>, generate: Generator<A>, cache: map<string, A>, name: string)
    requires name !in cache && name !in ConfigTemplates && name !in ObjectPrototypeProperties
    ensures Serve(build, generate, cache, name) == Call(Thrown(NotFound(name)), cache, false, false)
  {
  }

  /**
   * An uncached name inherited from `Object.prototype` passes the not-found
   * guard: its program is built from `undefined` code with no plugins, and
   * the call fails only if building or rendering that program does.
   */
  lemma ServeInherited<A>(build: ProgramBuilder<A>, generate: Generator<A>, cache: map<string, A>, name: string)
    requires name !in cache && name !in ConfigTemplates && name in ObjectPrototypeProperties
    ensures var c := Serve(build, generate, cache, name);
            && c.attempted
            && (c.built <==> build(UndefinedCode, []).Ok?)
            && c.result == (match build(UndefinedCode, [])
                            case Thrown(e) => Thrown(e)
                            case Ok(program) => generate(program))
  {
  }

  /**
   * A sequence of calls: every outcome, the cache left behind, the names
   * whose program was asked for, and the names whose program was built, in order.
   */
  datatype Session<A> = Session(results: seq<Outcome<string>>, cache: map<string, A>, attempts: seq<string>, built: seq<string>)

  /** `generateFromTemplate` called for each of `names` in turn, starting on `cache`. */
  function Run<A>(build: ProgramBuilder<A>, generate: Generator<A>, cache: map<string, A>, names: seq<string>): (s: Session<A>)
    ensures |s.results| == |names|
    decreases |names|
  {
    if names == [] then Session([], cache, [], [])
    else
      var s := Run(build, generate, cache, names[..|names| - 1]);
      var last := names[|names| - 1];
      var c := Serve(build, generate, s.cache, last);
      Session(s.results + [c.result], c.cache,
              s.attempts + (if c.attempted then [last] else []),
              s.built + (if c.built then [last] else []))
  }

  /**
   * Across any sequence of calls a program is built at most once per name,
   * never for a name already cached, and only for configured names; the
   * cache ends holding exactly what it held plus the names built.
   */
  lemma {:induction false} RunBuildsOnce<A>(build: ProgramBuilder<A>, generate: Generator<A>, cache: map<string, A>, names: seq<string>)
    ensures var s := Run(build, generate, cache, names);
            && (forall i, j :: 0 <= i < j < |s.built| ==> s.built[i] != s.built[j])
            && (forall i :: 0 <= i < |s.built| ==> s.built[i] !in cache && Builds(build, s.built[i]))
            && (forall n :: n in s.cache <==> n in cache || n in s.built)
    decreases |names|
  {
    if names != [] {
      var prefix := names[..|names| - 1];
      RunBuildsOnce(build, generate, cache, prefix);
    }
  }

  /**
   * After any sequence of calls the cache holds what it held plus exactly
   * the names asked for whose program builds.
   */
  lemma {:induction false} RunCacheKeys<A>(build: ProgramBuilder<A>, generate: Generator<A>, cache: map<string, A>, names: seq<string>)
    ensures forall n :: n in Run(build, generate, cache, names).cache <==> n in cache || (n in names && Builds(build, n))
    decreases |names|
  {
    if names != [] {
      var prefix := names[..|names| - 1];
      RunCacheKeys(build, generate, cache, prefix);
      assert names == prefix + [names[|names| - 1]];
    }
  }

  /**
   * How often a sequence of calls asks `template.ast` for the program of
   * `n`: never when `n` starts cached or has no entry; at most once when
   * its program builds; and on every call for `n` when building throws,
   * since a failure caches nothing.
   */
  lemma {:induction false} RunAttempts<A>(build: ProgramBuilder<A>, generate: Generator<A>, cache: map<string, A>, names: seq<string>, n: string)
    ensures var count := multiset(Run(build, generate, cache, names).attempts)[n];
            && (n in cache || ConfigEntry(n).None? ==> count == 0)
            && (n !in cache && Builds(build, n) ==> count == if n in names then 1 else 0)
            && (n !in cache && ConfigEntry(n).Some? && Build(build, n).Thrown? ==> count == multiset(names)[n])
    decreases |names|
  {
    if names != [] {
      var prefix := names[..|names| - 1];
      var last := names[|names| - 1];
      assert names == prefix + [last];
      RunAttempts(build, generate, cache, prefix, n);
      RunCacheKeys(build, generate, cache, prefix);
    }
  }

  /** Every outcome of a session is the uncached one, provided the cache starts coherent. */
  lemma {:induction false} RunAgreesWithUncached<A>(build: ProgramBuilder<A>, generate: Generator<A>, cache: map<string, A>, names: seq<string>)
    requires Coherent(build, cache)
    ensures var s := Run(build, generate, cache, names);
            Coherent(build, s.cache) &&
            forall i :: 0 <= i < |names| ==> s.results[i] == Uncached(build, generate, names[i])
    decreases |names|
  {
    if names != [] {
      var prefix := names[..|names| - 1];
      RunAgreesWithUncached(build, generate, cache, prefix);
      var s := Run(build, generate, cache, prefix);
      ServeAgreesWithUncached(build, generate, s.cache, names[|names| - 1]);
      assert forall i :: 0 <= i < |prefix| ==> names[i] == prefix[i];
    }
  }

  /** The `ASTGenerator` class. */
  class AstGenerator<A> {
    /** `this.template.ast` followed by `t.program`. */
    const build: ProgramBuilder<A>
    /** `this.generate`. */
    const generate: Generator<A>
    /** `this.cachedASTs`. */
    var cachedASTs: map<string, A>
    /** The lines `logger.error` wrote, in order. */
    var errorLog: seq<string>
    /** The names whose program this generator has asked `template.ast` for, in order. */
    ghost var attemptedNames: seq<string>
    /** The names whose program this generator has built, in order. */
    ghost var builtNames: seq<string>

    /** Cached keys are configured, each built once, and each holds the program its template builds. */
    ghost predicate Valid()
      reads this
    {
      && Coherent(build, cachedASTs)
      && (forall i, j :: 0 <= i < j < |builtNames| ==> builtNames[i] != builtNames[j])
      && (forall n :: n in cachedASTs <==> n in builtNames)
    }

    /** `new ASTGenerator()`: the cache starts empty. */
    constructor (build: ProgramBuilder<A>, generate: Generator<A>)
      ensures Valid()
      ensures this.build == build && this.generate == generate
      ensures cachedASTs == map[] && errorLog == [] && attemptedNames == [] && builtNames == []
    {
      this.build := build;
      this.generate := generate;
      cachedASTs := map[];
      errorLog := [];
      attemptedNames := [];
      builtNames := [];
    }

    /**
     * `generateFromTemplate(name)`: the call's outcome and the new cache are
     * `Serve`'s, the outcome is the one an uncached renderer gives, and any
     * error is logged and re-thrown.
     */
    method GenerateFromTemplate(name: string) returns (r: Outcome<string>)
      requires Valid()
      modifies this
      ensures Valid()
      ensures var c := Serve(build, generate, old(cachedASTs), name);
              r == c.result && cachedASTs == c.cache &&
              attemptedNames == old(attemptedNames) + (if c.attempted then [name] else []) &&
              builtNames == old(builtNames) + (if c.built then [name] else [])
      ensures r == Uncached(build, generate, name)
      ensures r.Ok? ==> name in cachedASTs
      ensures errorLog == old(errorLog) + (if r.Thrown? then [FailLine(name, r.error)] else [])
    {
      if name in cachedASTs {
        r := generate(cachedASTs[name]);
      } else if ConfigEntry(name).None? {
        r := Thrown(NotFound(name));
      } else {
        var config := ConfigEntry(name).value;
        attemptedNames := attemptedNames + [name];
        var program := build(config.code, PluginsOf(config));
        if program.Thrown? {
          r := Thrown(program.error);
        } else {
          cachedASTs := cachedASTs[name := program.value];
          builtNames := builtNames + [name];
          r := generate(program.value);
        }
      }
      if r.Thrown? {
        errorLog := errorLog + [FailLine(name, r.error)];
      }
      ServeAgreesWithUncached(build, generate, old(cachedASTs), name);
    }
  }
}
