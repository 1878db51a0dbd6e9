/**
 * The effects the scaffolder performs, as data: shell commands it runs and
 * files it writes, appends to or deletes. A setup step is modelled by the
 * list of effects it performs in order when nothing throws; a file's text is
 * either fixed text or the result of `generateCode(key)`.
 */
module Plan {

  import opened Js
  import opened Registry

  /** Node's `path.join` and `path.basename`, which the model does not define. */
  datatype PathOps = PathOps(join: (string, string) -> string, basename: string -> string)

  /** The text written to a file. */
  datatype Content =
    | Rendered(key: string)      // `ast.generateCode(key)`
    | Stringified(key: string)   // `JSON.stringify(ast.generateCode(key), null, 2)`
    | Serialized(value: Json)    // `JSON.stringify(value, null, 2)`
    | Fixed(snippet: Snippet)    // text spelled out in the setup code itself
  {
    /** The text comes from `generateCode(key)`. */
    predicate Requests() {
      Rendered? || Stringified?
    }
  }

  /** The texts the setup code spells out itself, by name; `Text` spells each out. */
  datatype Snippet =
    | TailwindImport    // src/index.css under TailwindCSS
    | ViteClerkEnv      // .env line of a React project with Clerk
    | ClerkHeaderCss    // header rule appended to src/App.css
    | NextClerkEnv      // .env lines of a Next.js project with Clerk
    | IgnoreEnv         // appended to a React project's .gitignore
    | PortEnv           // the server's .env
    | MongoEnv          // appended to the server's .env for MongoDB
    | FirebaseEnv       // appended for FireBase
    | SupabaseEnv       // appended for SupaBase
    | ServerIgnore      // the server's .gitignore
    | ServerIndex(importStatement: string, connectCall: string)  // the server's src/index file
  {
    function Text(): (t: string)
      ensures t != ""
    {
      match this
      case TailwindImport => "@import \"tailwindcss\";"
      case ViteClerkEnv => "VITE_CLERK_" + "PUBLISHABLE_KEY=" + "YOUR_PUBLISHABLE_KEY\n"
      case ClerkHeaderCss => JoinLines(ClerkHeaderLines)
      case NextClerkEnv =>
        "NEXT_PUBLIC_CLERK_" + "PUBLISHABLE_KEY=" + "YOUR_PUBLISHABLE_KEY\n"
        + "CLERK_SECRET_KEY=" + "YOUR_SECRET_KEY\n"
      case IgnoreEnv => ".env"
      case PortEnv => "PORT=8000\n"
      case MongoEnv =>
        "MONGODB_URI=" + "mongodb+srv://" + "<username>:<password>" + "@cluster0.mongodb.net/"
        + "<databaseName>" + "?retryWrites=true" + "&w=majority\n"
      case FirebaseEnv =>
        "FIREBASE_SERVICE_ACCOUNT=" + "`your-firebase-service-" + "account-json " + "keep in quotes`\n"
      case SupabaseEnv =>
        "SUPABASE_URL=" + "https://your-supabase-url\n" + "SUPABASE_ANON_KEY=" + "your-supabase-key\n"
      case ServerIgnore => "node_modules\n" + "dist\n" + ".env\n" + "firebaseServiceAccount.json"
      case ServerIndex(importStatement, connectCall) => JoinLines(IndexLines(importStatement, connectCall))
    }
  }

  /**
   * The lines of the server's `src/index` file; the import and the connect call each fill
   * one line. Long lines are spelled as short concatenated pieces, which
   * keeps them cheap for the verifier.
   */
  function IndexLines(importStatement: string, connectCall: string): seq<string> {
    [ "import " + "express " + "from " + "'express';",
      "import cors " + "from 'cors';",
      "import " + "dotenv from " + "'dotenv';",
      "dotenv.config();",
      importStatement,
      "",
      "const app = " + "express();",
      "const PORT " + "= " + "process.env.PORT " + "|| 8000;",
      "",
      "app.use(express.json());",
      "app.use(cors());",
      "",
      "app.listen(PORT, " + "() => {",
      connectCall,
      "  " + "console.log(`\U{1F680} " + "Server " + "started on " + "port: " + "${PORT}`);",
      "});",
      "" ]
  }

  /** The header rule appended to a React project's `src/App.css`, line by line. */
  const ClerkHeaderLines: seq<string> := [
    "",
    "  header {",
    "  position: absolute;",
    "  top: 30px;",
    "  right: 30px;",
    "  background-color: white;",
    "  color: black;",
    "  font-size: 14px;",
    "  font-weight: 600;",
    "  padding: 8px 24px;",
    "  border-radius: 6px;",
    "  box-shadow: 0 2px 4px rgba(0, 0, 0, 0.1);",
    "  cursor: pointer;",
    "}"
  ]

  datatype Op =
    | Exec(command: string)                  // `execSync(command)`
    | WriteFile(path: string, content: Content)
    | AppendFile(path: string, content: Content)
    | DeleteFile(path: string)
  {
    /** The effect puts text into a file. */
    predicate Fills() {
      WriteFile? || AppendFile?
    }
  }

  /** The template keys a list of effects asks `generateCode` for, in order. */
  function RenderedKeys(ops: seq<Op>): (ks: seq<string>)
    ensures |ks| <= |ops|
    ensures forall k :: k in ks <==> exists i :: 0 <= i < |ops| && ops[i].Fills() && ops[i].content.Requests() && ops[i].content.key == k
  {
    if ops == [] then []
    else
      var rest := RenderedKeys(ops[1..]);
      assert forall i :: 1 <= i < |ops| ==> ops[i] == ops[1..][i - 1];
      if ops[0].Fills() && ops[0].content.Requests() then [ops[0].content.key] + rest
      else rest
  }

  /** The keys of two concatenated effect lists. */
  lemma {:induction false} RenderedKeysAppend(a: seq<Op>, b: seq<Op>)
    ensures RenderedKeys(a + b) == RenderedKeys(a) + RenderedKeys(b)
    decreases |a|
  {
    if a != [] {
      assert (a + b)[1..] == a[1..] + b;
      RenderedKeysAppend(a[1..], b);
    } else {
      assert a + b == b;
    }
  }

  /** Every template key the effects ask `generateCode` for is one of `keys`. */
  predicate RendersOnly(ops: seq<Op>, keys: set<string>) {
    forall i :: 0 <= i < |ops| && ops[i].Fills() && ops[i].content.Requests() ==> ops[i].content.key in keys
  }

  /** `RendersOnly` distributes over concatenation. */
  lemma RendersOnlyAppend(a: seq<Op>, b: seq<Op>, ka: set<string>, kb: set<string>)
    requires RendersOnly(a, ka) && RendersOnly(b, kb)
    ensures RendersOnly(a + b, ka + kb)
  {
    forall i | 0 <= i < |a + b| && (a + b)[i].Fills() && (a + b)[i].content.Requests()
      ensures (a + b)[i].content.key in ka + kb
    {
      if i >= |a| {
        assert (a + b)[i] == b[i - |a|];
      }
    }
  }

  /** Words separated by single spaces; an empty word leaves two spaces in a row. */
  function Unwords(ws: seq<string>): (s: string)
    ensures ws == [] ==> s == ""
  {
    if ws == [] then ""
    else if |ws| == 1 then ws[0]
    else ws[0] + " " + Unwords(ws[1..])
  }

  /**
   * The files after a list of effects, each file as the pieces of text put
   * into it in order: a write replaces the file, an append adds to it (and
   * creates it when missing), a delete removes it, a command changes no file.
   */
  function Apply(ops: seq<Op>, files: map<string, seq<Content>>): map<string, seq<Content>> {
    if ops == [] then files
    else Apply(ops[1..], Effect(ops[0], files))
  }

  /** A file no effect names is left as it was. */
  lemma {:induction false} ApplyFrame(ops: seq<Op>, files: map<string, seq<Content>>, path: string)
    requires Untouched(ops, path)
    ensures var r := Apply(ops, files);
            (path in r <==> path in files) && (path in files ==> r[path] == files[path])
    decreases |ops|
  {
    if ops != [] {
      assert Untouched(ops[1..], path) by {
        assert forall i :: 1 <= i < |ops| ==> ops[i] == ops[1..][i - 1];
      }
      ApplyFrame(ops[1..], Effect(ops[0], files), path);
    }
  }

  /** No effect of `ops` names the file `path`. */
  predicate Untouched(ops: seq<Op>, path: string) {
    forall i :: 0 <= i < |ops| ==> ops[i].Exec? || ops[i].path != path
  }

  /** `Untouched` distributes over concatenation. */
  lemma UntouchedAppend(a: seq<Op>, b: seq<Op>, path: string)
    ensures Untouched(a + b, path) <==> Untouched(a, path) && Untouched(b, path)
  {
    if Untouched(a + b, path) {
      forall i | 0 <= i < |a| ensures a[i].Exec? || a[i].path != path {
        assert (a + b)[i] == a[i];
      }
      forall i | 0 <= i < |b| ensures b[i].Exec? || b[i].path != path {
        assert (a + b)[|a| + i] == b[i];
      }
    }
  }

  /** The files after one effect. */
  function Effect(op: Op, files: map<string, seq<Content>>): map<string, seq<Content>> {
    match op
    case Exec(_) => files
    case WriteFile(p, c) => files[p := [c]]
    case AppendFile(p, c) => files[p := (if p in files then files[p] else []) + [c]]
    case DeleteFile(p) => files - {p}
  }

  /** Running two lists of effects one after the other. */
  lemma {:induction false} ApplyAppend(a: seq<Op>, b: seq<Op>, files: map<string, seq<Content>>)
    ensures Apply(a + b, files) == Apply(b, Apply(a, files))
    decreases |a|
  {
    if a != [] {
      assert (a + b)[0] == a[0] && (a + b)[1..] == a[1..] + b;
      ApplyAppend(a[1..], b, Effect(a[0], files));
    } else {
      assert a + b == b;
    }
  }

  /** `path` ends with `.ext`. */
  predicate HasExtension(path: string, ext: string) {
    |ext| + 1 <= |path| && path[|path| - |ext| - 1..] == "." + ext
  }
}
