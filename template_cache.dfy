/**
 * The AST cache of `bin/utils/template.ts`: the module-level `cachedASTs`
 * map, the `generateAST` loop that would fill it from `TEMPLATES`, the
 * `generateAllCode` loop that prints it, and the load-time guard that decides
 * whether `generateAST` runs.
 *
 * Babel's `parse` and `generate` are not modelled: they are passed in as
 * arbitrary functions over an arbitrary AST type `A`, each of which may throw.
 */
module TemplateCache {

  import opened Js
  import opened Registry

  /** `parse(code, { sourceType: "module", plugins })`. */
  type Parser<A> = (Source, seq<Plugin>) -> Outcome<A>

  /** `generate(ast)`, giving the `.code` of its result. */
  type Generator<!A> = A -> Outcome<string>

  /** Parse one registry entry with its own plugins. */
  function ParseEntry<A>(parse: Parser<A>, e: Entry): Outcome<A> {
    parse(e.config.code, e.config.plugins)
  }

  /** The cache and the error (if any) a `generateAST` run leaves behind. */
  datatype FillResult<A> = FillResult(cache: OrderedMap<A>, failure: Option<Error>)

  /**
   * The `generateAST` loop over `entries`, started on `cache`: each entry is
   * parsed and set under its key; the first parse that throws ends the loop,
   * and the `catch` around the loop only logs it.
   */
  function Fill<A>(entries: seq<Entry>, parse: Parser<A>, cache: OrderedMap<A>): FillResult<A>
    decreases |entries|
  {
    if entries == [] then FillResult(cache, None)
    else
      match ParseEntry(parse, entries[0])
      case Thrown(e) => FillResult(cache, Some(e))
      case Ok(ast) => Fill(entries[1..], parse, cache.Set(entries[0].key, ast))
  }

  /** How many entries, from the front, parse before the first one that throws. */
  function ParsedPrefix<A>(entries: seq<Entry>, parse: Parser<A>): (n: nat)
    ensures n <= |entries|
    ensures forall i :: 0 <= i < n ==> ParseEntry(parse, entries[i]).Ok?
    ensures n < |entries| ==> ParseEntry(parse, entries[n]).Thrown?
    decreases |entries|
  {
    if entries == [] || ParseEntry(parse, entries[0]).Thrown? then 0
    else 1 + ParsedPrefix(entries[1..], parse)
  }

  /** A run reports a failure exactly when some entry fails, and it is that entry's error. */
  lemma {:induction false} FillFailure<A>(entries: seq<Entry>, parse: Parser<A>, cache: OrderedMap<A>)
    ensures var n := ParsedPrefix(entries, parse);
            Fill(entries, parse, cache).failure ==
              if n < |entries| then Some(ParseEntry(parse, entries[n]).error) else None
    decreases |entries|
  {
    if entries != [] && ParseEntry(parse, entries[0]).Ok? {
      var c := cache.Set(entries[0].key, ParseEntry(parse, entries[0]).value);
      FillFailure(entries[1..], parse, c);
    }
  }

  /**
   * `generateAST` only inserts: the keys afterwards are the keys before plus
   * exactly the keys of the entries that parsed before the first failure.
   */
  lemma {:induction false} FillDomain<A>(entries: seq<Entry>, parse: Parser<A>, cache: OrderedMap<A>)
    ensures var r := Fill(entries, parse, cache).cache;
            var n := ParsedPrefix(entries, parse);
            forall k :: k in r.values <==> k in cache.values || exists i :: 0 <= i < n && entries[i].key == k
    decreases |entries|
  {
    if entries != [] && ParseEntry(parse, entries[0]).Ok? {
      var c := cache.Set(entries[0].key, ParseEntry(parse, entries[0]).value);
      var rest := entries[1..];
      FillDomain(rest, parse, c);
      var n := ParsedPrefix(entries, parse);
      var r := Fill(entries, parse, cache).cache;
      forall k ensures k in r.values <==> k in cache.values || exists i :: 0 <= i < n && entries[i].key == k {
        if exists i :: 0 <= i < n - 1 && rest[i].key == k {
          var i :| 0 <= i < n - 1 && rest[i].key == k;
          assert entries[i + 1].key == k;
        }
        if exists i :: 0 <= i < n && entries[i].key == k {
          var i :| 0 <= i < n && entries[i].key == k;
          if i > 0 {
            assert rest[i - 1].key == k;
          }
        }
      }
    }
  }

  /** An entry whose key is not among those of `entries` keeps its value. */
  lemma {:induction false} FillKeepsOthers<A>(entries: seq<Entry>, parse: Parser<A>, cache: OrderedMap<A>, k: string)
    requires k in cache.values
    requires forall i :: 0 <= i < |entries| ==> entries[i].key != k
    ensures var r := Fill(entries, parse, cache).cache;
            k in r.values && r.values[k] == cache.values[k]
    decreases |entries|
  {
    if entries != [] && ParseEntry(parse, entries[0]).Ok? {
      var c := cache.Set(entries[0].key, ParseEntry(parse, entries[0]).value);
      var rest := entries[1..];
      assert forall i :: 0 <= i < |rest| ==> rest[i] == entries[i + 1];
      FillKeepsOthers(rest, parse, c, k);
    }
  }

  /**
   * The previous iteration order is a prefix of the new one, and a
   * well-formed map stays well-formed.
   */
  lemma {:induction false} FillExtendsOrder<A>(entries: seq<Entry>, parse: Parser<A>, cache: OrderedMap<A>)
    ensures var r := Fill(entries, parse, cache).cache;
            && |cache.keys| <= |r.keys| && r.keys[..|cache.keys|] == cache.keys
            && (cache.Valid() ==> r.Valid())
    decreases |entries|
  {
    if entries != [] && ParseEntry(parse, entries[0]).Ok? {
      var c := cache.Set(entries[0].key, ParseEntry(parse, entries[0]).value);
      FillExtendsOrder(entries[1..], parse, c);
      var r := Fill(entries, parse, cache).cache;
      assert r.keys[..|c.keys|][..|cache.keys|] == r.keys[..|cache.keys|];
    }
  }

  /**
   * Over entries with distinct keys none of which is cached yet, `generateAST`
   * appends the keys of the entries that parsed, in declaration order, each
   * mapped to the parse of its own code.
   */
  lemma {:induction false} FillAppends<A>(entries: seq<Entry>, parse: Parser<A>, cache: OrderedMap<A>)
    requires DistinctKeys(entries)
    requires forall i :: 0 <= i < |entries| ==> entries[i].key !in cache.values
    ensures var n := ParsedPrefix(entries, parse);
            var r := Fill(entries, parse, cache).cache;
            && r.keys == cache.keys + KeysOf(entries)[..n]
            && (forall i :: 0 <= i < n ==>
                  entries[i].key in r.values && r.values[entries[i].key] == ParseEntry(parse, entries[i]).value)
    decreases |entries|
  {
    var n := ParsedPrefix(entries, parse);
    if entries == [] || ParseEntry(parse, entries[0]).Thrown? {
      assert KeysOf(entries)[..n] == [];
    } else {
      var e := entries[0];
      var c := cache.Set(e.key, ParseEntry(parse, e).value);
      var rest := entries[1..];
      assert forall i :: 0 <= i < |rest| ==> rest[i] == entries[i + 1];
      assert forall i :: 0 <= i < |rest| ==> rest[i].key != e.key;
      FillAppends(rest, parse, c);
      FillKeepsOthers(rest, parse, c, e.key);
      assert ParsedPrefix(rest, parse) == n - 1;
      assert KeysOf(entries)[..n] == [e.key] + KeysOf(rest)[..n - 1];
    }
  }

  /**
   * A `generateAST` run over entries with distinct keys in which nothing
   * fails to parse, started on an empty map, reports no failure and leaves a
   * cache whose keys are the entries' keys in declaration order, each mapped
   * to the parse of its own code.
   */
  lemma CompleteFillMatchesRegistry<A>(entries: seq<Entry>, parse: Parser<A>)
    requires DistinctKeys(entries)
    requires forall i :: 0 <= i < |entries| ==> ParseEntry(parse, entries[i]).Ok?
    ensures var r := Fill(entries, parse, EmptyMap()).cache;
            && r.keys == KeysOf(entries)
            && (forall i :: 0 <= i < |entries| ==>
                  entries[i].key in r.values && r.values[entries[i].key] == ParseEntry(parse, entries[i]).value)
            && Fill(entries, parse, EmptyMap()).failure == None
  {
    var n := ParsedPrefix(entries, parse);
    assert n == |entries|;
    FillAppends(entries, parse, EmptyMap());
    assert EmptyMap<A>().keys + KeysOf(entries)[..n] == KeysOf(entries);
    FillFailure(entries, parse, EmptyMap());
  }

  /** One iteration of the `generateAST` loop, started at entry `i`, or its exit. */
  lemma FillStep<A>(entries: seq<Entry>, parse: Parser<A>, cache: OrderedMap<A>, i: nat)
    requires i <= |entries|
    ensures i == |entries| ==> Fill(entries[i..], parse, cache) == FillResult(cache, None)
    ensures i < |entries| ==>
              var p := ParseEntry(parse, entries[i]);
              Fill(entries[i..], parse, cache) ==
                if p.Thrown? then FillResult(cache, Some(p.error))
                else Fill(entries[i + 1..], parse, cache.Set(entries[i].key, p.value))
  {
    if i < |entries| {
      assert entries[i..][0] == entries[i] && entries[i..][1..] == entries[i + 1..];
    } else {
      assert entries[i..] == [];
    }
  }

  /** The printed output of a `generateAllCode` run, and the error that ended it, if any. */
  datatype Printed = Printed(stdout: seq<string>, failure: Option<Error>)

  /**
   * `generateAllCode` over the keys in iteration order: a heading and then
   * the generated code for each entry; the first generation that throws ends
   * the loop, and the `catch` around the loop only logs it.
   */
  function AllCode<A>(keys: seq<string>, values: map<string, A>, generate: Generator<A>): Printed
    requires forall k :: k in keys ==> k in values
    decreases |keys|
  {
    if keys == [] then Printed([], None)
    else
      var heading := "Generating code for " + keys[0] + "...\n";
      match generate(values[keys[0]])
      case Thrown(e) => Printed([heading], Some(e))
      case Ok(code) =>
        var rest := AllCode(keys[1..], values, generate);
        Printed([heading, code + "\n\n"] + rest.stdout, rest.failure)
  }

  /** One iteration of the `generateAllCode` loop, started at key `i`, or its exit. */
  lemma AllCodeStep<A>(keys: seq<string>, values: map<string, A>, generate: Generator<A>, i: nat)
    requires forall k :: k in keys ==> k in values
    requires i <= |keys|
    ensures forall k :: k in keys[i..] ==> k in values
    ensures i == |keys| ==> AllCode(keys[i..], values, generate) == Printed([], None)
    ensures i < |keys| ==> forall k :: k in keys[i + 1..] ==> k in values
    ensures i < |keys| ==>
            var heading := "Generating code for " + keys[i] + "...\n";
            var g := generate(values[keys[i]]);
            var rest := AllCode(keys[i + 1..], values, generate);
            AllCode(keys[i..], values, generate) ==
              if g.Thrown? then Printed([heading], Some(g.error))
              else Printed([heading, g.value + "\n\n"] + rest.stdout, rest.failure)
  {
    if i < |keys| {
      assert keys[i..][0] == keys[i] && keys[i..][1..] == keys[i + 1..];
    } else {
      assert keys[i..] == [];
    }
  }

  /**
   * When every generation succeeds, `generateAllCode` prints, for the i-th
   * key in iteration order, its heading at line 2i and its code at line 2i+1.
   */
  lemma {:induction false} AllCodeEchoesEveryEntry<A>(keys: seq<string>, values: map<string, A>, generate: Generator<A>)
    requires forall k :: k in keys ==> k in values
    requires forall k :: k in keys ==> generate(values[k]).Ok?
    ensures AllCode(keys, values, generate).failure == None
    ensures |AllCode(keys, values, generate).stdout| == 2 * |keys|
    ensures forall i :: 0 <= i < |keys| ==>
              && AllCode(keys, values, generate).stdout[2 * i] == "Generating code for " + keys[i] + "...\n"
              && AllCode(keys, values, generate).stdout[2 * i + 1] == generate(values[keys[i]]).value + "\n\n"
    decreases |keys|
  {
    if keys != [] {
      assert keys[0] in keys;
      forall k | k in keys[1..] ensures k in keys { }
      AllCodeEchoesEveryEntry(keys[1..], values, generate);
      var out := AllCode(keys, values, generate).stdout;
      var rest := AllCode(keys[1..], values, generate).stdout;
      assert out == ["Generating code for " + keys[0] + "...\n", generate(values[keys[0]]).value + "\n\n"] + rest;
      forall i | 1 <= i < |keys|
        ensures out[2 * i] == "Generating code for " + keys[i] + "...\n"
        ensures out[2 * i + 1] == generate(values[keys[i]]).value + "\n\n"
      {
        assert keys[i] == keys[1..][i - 1];
        assert out[2 * i] == rest[2 * (i - 1)];
        assert out[2 * i + 1] == rest[2 * (i - 1) + 1];
      }
    }
  }

  /** The line `logger.error` receives when the `generateAST` loop throws. */
  function AstErrorLine(e: Error): string {
    "Error generating AST:, " + e.Text()
  }

  /** The line `logger.error` receives when the `generateAllCode` loop throws. */
  function CodeErrorLine(e: Error): string {
    "Error generating code: " + e.Text()
  }

  /**
   * The cache `template.ts` exports once loaded: `cachedASTs` is bound to a
   * fresh `new Map()`, and `generateAST` runs only under
   * `if (cachedASTs == null)`.
   */
  function CacheAtLoad<A>(parse: Parser<A>): OrderedMap<A> {
    var cachedASTs: Nullable<OrderedMap<A>> := NonNull(EmptyMap());
    if cachedASTs.Null? then Fill(Templates, parse, EmptyMap()).cache
    else cachedASTs.value
  }

  /**
   * The guard never fires: whatever the parser, the exported cache is the
   * empty map and no template is ever parsed at load.
   */
  lemma LoadGuardNeverFires<A>(parse: Parser<A>)
    ensures CacheAtLoad(parse) == EmptyMap()
    ensures CacheAtLoad(parse).keys == [] && CacheAtLoad(parse).values == map[]
  {
  }

  /**
   * The cache the module evidently means to export: `generateAST` run once
   * at load over the registry (with the router key as its callers spell it).
   */
  function IntendedCacheAtLoad<A>(parse: Parser<A>): (c: OrderedMap<A>)
    ensures c.Valid()
  {
    FillExtendsOrder(CorrectedTemplates, parse, EmptyMap());
    Fill(CorrectedTemplates, parse, EmptyMap()).cache
  }

  /** The module's mutable state: the exported `cachedASTs` map and what `logger.error` received. */
  class TemplateModule<A> {
    var cachedASTs: OrderedMap<A>
    var errorLog: seq<string>

    /** Loading the module binds `cachedASTs` to a fresh map; see `CacheAtLoad` for the guard. */
    constructor Load()
      ensures cachedASTs == EmptyMap() && errorLog == []
    {
      cachedASTs := EmptyMap();
      errorLog := [];
    }

    /** `generateAST`: parse every `TEMPLATES` entry in order and set it into `cachedASTs`. */
    method GenerateAST(parse: Parser<A>)
      modifies this
      ensures var f := Fill(Templates, parse, old(cachedASTs));
              && cachedASTs == f.cache
              && errorLog == old(errorLog) + (if f.failure.Some? then [AstErrorLine(f.failure.value)] else [])
    {
      var i := 0;
      while i < |Templates|
        invariant 0 <= i <= |Templates|
        invariant Fill(Templates[i..], parse, cachedASTs) == Fill(Templates, parse, old(cachedASTs))
        invariant errorLog == old(errorLog)
      {
        var entry := Templates[i];
        FillStep(Templates, parse, cachedASTs, i);
        var parsed := parse(entry.config.code, entry.config.plugins);
        if parsed.Thrown? {
          errorLog := errorLog + [AstErrorLine(parsed.error)];
          return;
        }
        cachedASTs := cachedASTs.Set(entry.key, parsed.value);
        i := i + 1;
      }
      FillStep(Templates, parse, cachedASTs, i);
    }

    /**
     * `generateAllCode`: print every cached entry in iteration order; it reads
     * `cachedASTs` and changes nothing.
     */
    method GenerateAllCode(generate: Generator<A>) returns (stdout: seq<string>, stderr: seq<string>)
      requires cachedASTs.Valid()
      ensures var p := AllCode(cachedASTs.keys, cachedASTs.values, generate);
              && stdout == p.stdout
              && stderr == (if p.failure.Some? then [CodeErrorLine(p.failure.value)] else [])
    {
      var keys, values := cachedASTs.keys, cachedASTs.values;
      assert forall k :: k in keys ==> k in values;
      ghost var whole := AllCode(keys, values, generate);
      stdout, stderr := [], [];
      var i := 0;
      while i < |keys|
        invariant 0 <= i <= |keys|
        invariant var rest := AllCode(keys[i..], values, generate);
                  stdout + rest.stdout == whole.stdout && rest.failure == whole.failure
      {
        var key := keys[i];
        AllCodeStep(keys, values, generate, i);
        var heading := "Generating code for " + key + "...\n";
        stdout := stdout + [heading];
        var code := generate(values[key]);
        if code.Thrown? {
          stderr := [CodeErrorLine(code.error)];
          return;
        }
        ghost var rest := AllCode(keys[i + 1..], values, generate).stdout;
        assert stdout + ([code.value + "\n\n"] + rest) == (stdout + [code.value + "\n\n"]) + rest;
        stdout := stdout + [code.value + "\n\n"];
        i := i + 1;
      }
      AllCodeStep(keys, values, generate, i);
    }
  }
}
