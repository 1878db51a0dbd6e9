/**
 * `ASTGenerator.generateCode` of `bin/utils/ast.ts`: the one entry point the
 * scaffolder uses to obtain a template's text. A plain template is returned
 * as stored; a structured one is printed back from its cached AST; any other
 * name yields a fixed sentinel string. A throw from the printer is logged
 * and rethrown. `PLAIN_TEMPLATES` is an object literal, so a name it
 * inherits from `Object.prototype` reads a truthy value that is returned
 * as it is.
 */
module CodeGenerator {

  import opened Js
  import opened Registry
  import opened TemplateCache

  /**
   * What `generateCode` returns: a string of code, or the value of the
   * property of `PLAIN_TEMPLATES` inherited under the name asked for (a
   * function, or `Object.prototype` itself for `__proto__`).
   */
  datatype Code = Emitted(text: string) | InheritedValue(property: string)

  /** The printer's outcome, as code. */
  function Emit(o: Outcome<string>): (r: Outcome<Code>)
    ensures o.Ok? <==> r.Ok?
    ensures o.Ok? ==> r.value == Emitted(o.value)
    ensures o.Thrown? ==> r.error == o.error
  {
    match o
    case Ok(text) => Ok(Emitted(text))
    case Thrown(e) => Thrown(e)
  }

  /** What `generateCode` returns for a name it does not know. */
  const NotFound: string := "Not Correct Template Name"

  /** The line `logger.error` receives before the error is rethrown. */
  function GenerateErrorLine(name: string, e: Error): string {
    "Error generating code for template " + name + ": " + e.Text()
  }

  /**
   * `generateCode(name)` against the own properties `plain` of the plain
   * templates and the AST cache `cache`. An own text counts only when it is
   * truthy, that is non-empty; an inherited property is always truthy; the
   * cache is consulted only when neither applies.
   */
  function GenerateCode<A>(plain: map<string, string>, cache: OrderedMap<A>, generate: Generator<A>, name: string): (r: Traced<Code>)
    ensures name in plain && plain[name] != "" ==> r == Traced(Ok(Emitted(plain[name])), [])
    ensures name !in plain && name in ObjectPrototypeProperties ==> r == Traced(Ok(InheritedValue(name)), [])
    ensures (name in plain && plain[name] == "") || (name !in plain && name !in ObjectPrototypeProperties) ==>
              if name in cache.values then
                && r.outcome == Emit(generate(cache.values[name]))
                && r.log == (if r.outcome.Thrown? then [GenerateErrorLine(name, r.outcome.error)] else [])
              else r == Traced(Ok(Emitted(NotFound)), [])
    ensures r.outcome.Thrown? <==> r.log != []
  {
    var property := Get(plain, name);
    if property.Own? && property.value != "" then Traced(Ok(Emitted(property.value)), [])
    else if property.Inherited? then Traced(Ok(InheritedValue(name)), [])
    else if cache.Has(name) then
      match generate(cache.values[name])
      case Ok(code) => Traced(Ok(Emitted(code)), [])
      case Thrown(e) => Traced(Thrown(e), [GenerateErrorLine(name, e)])
    else Traced(Ok(Emitted(NotFound)), [])
  }

  /** `generateCode(name)` against the registry as the module exports it. */
  function Render<A>(cache: OrderedMap<A>, generate: Generator<A>, name: string): Traced<Code> {
    GenerateCode(PlainTexts(), cache, generate, name)
  }

  /** A plain template's key yields its stored text, whatever the cache holds, and logs nothing. */
  lemma PlainKeysRenderVerbatim<A>(cache: OrderedMap<A>, generate: Generator<A>, name: string)
    requires name in PlainTemplates
    ensures Render(cache, generate, name) == Traced(Ok(Emitted(JoinLines(PlainTemplates[name]))), [])
  {
    PlainTemplatesNonEmpty();
  }

  /**
   * As the repository loads it, the cache is empty, so every structured key
   * of `TEMPLATES` yields the sentinel instead of its template, whatever
   * Babel does.
   */
  lemma AsWrittenStructuredKeysYieldSentinel<A>(parse: Parser<A>, generate: Generator<A>, name: string)
    requires name in TemplateKeys
    ensures Render(CacheAtLoad(parse), generate, name) == Traced(Ok(Emitted(NotFound)), [])
  {
    LoadGuardNeverFires(parse);
    TemplateKeysListed();
    RegistriesDisjoint();
    TemplateKeysNotInherited();
  }

  /**
   * With the cache filled at load and every template parsing, each key of
   * the corrected registry yields the printing of its own template's AST,
   * and a printer failure is logged once under that key.
   */
  lemma IntendedStructuredKeysRender<A>(parse: Parser<A>, generate: Generator<A>, i: nat)
    requires i < |CorrectedTemplates|
    requires forall j :: 0 <= j < |CorrectedTemplates| ==> ParseEntry(parse, CorrectedTemplates[j]).Ok?
    ensures var e := CorrectedTemplates[i];
            var r := Render(IntendedCacheAtLoad(parse), generate, e.key);
            && r.outcome == Emit(generate(ParseEntry(parse, e).value))
            && r.log == (if r.outcome.Thrown? then [GenerateErrorLine(e.key, r.outcome.error)] else [])
  {
    RegistriesDistinctKeys();
    RegistriesDisjoint();
    CompleteFillMatchesRegistry(CorrectedTemplates, parse);
    CorrectedEntryNotInherited(i);
    assert CorrectedTemplates[i].key in KeysOf(CorrectedTemplates);
  }

  /**
   * A name that is neither a plain key, nor a key of the corrected registry,
   * nor inherited from `Object.prototype` yields the sentinel, even from the
   * intended cache.
   */
  lemma UnknownNamesYieldSentinel<A>(parse: Parser<A>, generate: Generator<A>, name: string)
    requires name !in PlainTemplates && name !in CorrectedKeys && name !in ObjectPrototypeProperties
    ensures Render(IntendedCacheAtLoad(parse), generate, name) == Traced(Ok(Emitted(NotFound)), [])
  {
    CorrectedKeysListed();
    FillDomain(CorrectedTemplates, parse, EmptyMap());
    var n := ParsedPrefix(CorrectedTemplates, parse);
    if exists i :: 0 <= i < n && CorrectedTemplates[i].key == name {
      var i :| 0 <= i < n && CorrectedTemplates[i].key == name;
      assert CorrectedKeys[i] == name;
    }
  }

  /**
   * A name `Object.prototype` supplies returns the inherited property itself,
   * whatever the cache holds, and logs nothing: it is never the sentinel.
   */
  lemma InheritedNamesYieldProperty<A>(cache: OrderedMap<A>, generate: Generator<A>, name: string)
    requires name in ObjectPrototypeProperties
    ensures Render(cache, generate, name) == Traced(Ok(InheritedValue(name)), [])
  {
    PlainKeysNotInherited();
    PlainKeysListed();
    assert name !in PlainKeys;
  }

  /** "reactRouterJS" is a key of neither registry as written. */
  lemma RouterKeyUnlisted()
    ensures "reactRouterJS" !in TemplateKeys && "reactRouterJS" !in PlainTemplates
  {
    assert forall i :: 0 <= i < |TemplateKeys| ==> TemplateKeys[i] != "reactRouterJS";
    assert forall i :: 0 <= i < |PlainKeys| ==> PlainKeys[i] != "reactRouterJS";
    PlainKeysListed();
  }

  /**
   * The router key `bin/index.ts` asks for, "reactRouterJS", is in neither
   * registry as written, so even a filled cache yields the sentinel for it;
   * in the corrected registry it names the router template.
   */
  lemma RouterKeyMisspelt<A>(parse: Parser<A>, generate: Generator<A>)
    ensures Render(Fill(Templates, parse, EmptyMap()).cache, generate, "reactRouterJS") == Traced(Ok(Emitted(NotFound)), [])
    ensures CorrectedTemplates[0] == Entry("reactRouterJS", TemplateConfig(ReactRouerJS, [Jsx]))
  {
    RouterKeyUnlisted();
    CorrectedEntryNotInherited(0);
    TemplateKeysListed();
    FillDomain(Templates, parse, EmptyMap());
    var n := ParsedPrefix(Templates, parse);
    if exists i :: 0 <= i < n && Templates[i].key == "reactRouterJS" {
      var i :| 0 <= i < n && Templates[i].key == "reactRouterJS";
      assert TemplateKeys[i] == "reactRouterJS";
    }
  }
}
