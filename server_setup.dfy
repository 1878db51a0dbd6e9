/**
 * The backend half of `bin/index.ts`: `serverSetUp` and the steps it calls.
 * The `package.json` edit is a class over the parsed object; the folder
 * loop and `createIndexFile` are methods; the rest is the list of effects
 * the setup performs in the server directory when nothing throws. Paths are
 * relative to that directory (`createSrcStructure` moves into `src`, so the
 * index file lands in `src/`).
 */
module ServerSetup {

  import opened Js
  import opened Registry
  import opened Plan

  // ---------------------------------------------------------------------
  // package.json

  /** The `dev` script: nodemon reads `nodemon.json` under TypeScript, else runs the index file. */
  function DevCommand(isTS: bool): string {
    if isTS then "nodemon" else "nodemon src/index.js"
  }

  /** `{...s}` for a string: each character under its index key. */
  function SpreadString(s: string): (r: map<string, Json>)
    ensures forall i :: 0 <= i < |s| ==> Decimal(i) in r && r[Decimal(i)] == JString([s[i]])
    ensures forall k :: k in r ==> exists i: nat :: i < |s| && k == Decimal(i)
  {
    assert forall i, j :: 0 <= i < |s| && 0 <= j < |s| && Decimal(i) == Decimal(j) ==> i == j by {
      forall i, j | 0 <= i < |s| && 0 <= j < |s| && Decimal(i) == Decimal(j) ensures i == j {
        DecimalInjective(i, j);
      }
    }
    map i | 0 <= i < |s| :: Decimal(i) := JString([s[i]])
  }

  /** `{...items}` for an array: each item under its index key. */
  function SpreadArray(items: seq<Json>): (r: map<string, Json>)
    ensures forall i :: 0 <= i < |items| ==> Decimal(i) in r && r[Decimal(i)] == items[i]
    ensures forall k :: k in r ==> exists i: nat :: i < |items| && k == Decimal(i)
  {
    assert forall i, j :: 0 <= i < |items| && 0 <= j < |items| && Decimal(i) == Decimal(j) ==> i == j by {
      forall i, j | 0 <= i < |items| && 0 <= j < |items| && Decimal(i) == Decimal(j) ensures i == j {
        DecimalInjective(i, j);
      }
    }
    map i | 0 <= i < |items| :: Decimal(i) := items[i]
  }

  /**
   * `{...value}`: an object's own properties, a string's characters or an
   * array's items; nothing for a missing property, `null`, a boolean or a
   * number.
   */
  function Spread(value: Option<Json>): map<string, Json> {
    match value
    case Some(JObject(fields)) => fields
    case Some(JString(s)) => SpreadString(s)
    case Some(JArray(items)) => SpreadArray(items)
    case _ => map[]
  }

  /** A property of the parsed object, `undefined` when missing. */
  function Property(fields: map<string, Json>, name: string): Option<Json> {
    if name in fields then Some(fields[name]) else None
  }

  /** The object after `backendPackageJson.type = "module"`. */
  function WithModuleType(fields: map<string, Json>): map<string, Json> {
    fields["type" := JString("module")]
  }

  /** The object after `backendPackageJson.scripts = {...scripts, dev: ...}`. */
  function WithDevScript(fields: map<string, Json>, isTS: bool): map<string, Json> {
    fields["scripts" := JObject(Spread(Property(fields, "scripts"))["dev" := JString(DevCommand(isTS))])]
  }

  /**
   * The object `JSON.parse` made of `package.json`, and what was written
   * back. The text `JSON.stringify` produces is not modelled: a write
   * records the object as it stood.
   */
  class PackageJson {
    var fields: map<string, Json>
    var written: seq<map<string, Json>>

    constructor Parse(parsed: map<string, Json>)
      ensures fields == parsed && written == []
    {
      fields := parsed;
      written := [];
    }

    method SetModuleType()
      modifies this
      ensures fields == WithModuleType(old(fields)) && written == old(written)
    {
      fields := fields["type" := JString("module")];
    }

    method SetDevScript(isTS: bool)
      modifies this
      ensures fields == WithDevScript(old(fields), isTS) && written == old(written)
    {
      var scripts := Spread(Property(fields, "scripts"));
      scripts := scripts["dev" := JString(DevCommand(isTS))];
      fields := fields["scripts" := JObject(scripts)];
    }

    method Write()
      modifies this
      ensures written == old(written) + [fields] && fields == old(fields)
    {
      written := written + [fields];
    }

    /** The edit `serverSetUp` makes: type, write, scripts, write. */
    method ConvertToModule(isTS: bool)
      modifies this
      ensures written == old(written) + [WithModuleType(old(fields)), WithDevScript(WithModuleType(old(fields)), isTS)]
      ensures fields == WithDevScript(WithModuleType(old(fields)), isTS)
    {
      SetModuleType();
      Write();
      SetDevScript(isTS);
      Write();
    }
  }

  /**
   * The edited package: an ES module whose `dev` script follows the
   * language, every other script and every other property kept.
   */
  lemma PackageEditKeepsTheRest(fields: map<string, Json>, isTS: bool)
    ensures var r := WithDevScript(WithModuleType(fields), isTS);
            && r.Keys == fields.Keys + {"type", "scripts"}
            && r["type"] == JString("module")
            && r["scripts"].JObject? && "dev" in r["scripts"].fields
            && r["scripts"].fields["dev"] == JString(DevCommand(isTS))
            && (forall p :: p in fields && p != "type" && p != "scripts" ==> r[p] == fields[p])
            && (forall s :: "scripts" in fields && fields["scripts"].JObject? && s in fields["scripts"].fields && s != "dev" ==>
                  s in r["scripts"].fields && r["scripts"].fields[s] == fields["scripts"].fields[s])
  {
  }

  /**
   * A `scripts` property that is a string or an array is spread into index
   * keys; none of them is "dev", so all survive beside the new script.
   */
  lemma IndexKeysSurviveDev(fields: map<string, Json>, isTS: bool)
    requires "scripts" in fields && (fields["scripts"].JString? || fields["scripts"].JArray?)
    ensures var scripts := WithDevScript(fields, isTS)["scripts"].fields;
            && scripts.Keys == Spread(Some(fields["scripts"])).Keys + {"dev"}
            && "dev" !in Spread(Some(fields["scripts"]))
  {
    forall i: nat ensures Decimal(i) != "dev" {
      assert Decimal(i)[0] != "dev"[0];
    }
  }

  // ---------------------------------------------------------------------
  // src folders

  /** The folders `createSrcStructure` makes inside `src`, in order. */
  const SrcFolders: seq<string> := ["models", "controllers", "routes", "middlewares", "utils", "config"]

  /** The folders of `folders` that are not in `present`, in order. */
  function Missing(folders: seq<string>, present: set<string>): (r: seq<string>)
    ensures forall f :: f in r <==> f in folders && f !in present
    ensures |r| <= |folders|
  {
    if folders == [] then []
    else
      var last := folders[|folders| - 1];
      assert forall f :: f in folders <==> f in folders[..|folders| - 1] || f == last;
      Missing(folders[..|folders| - 1], present) + (if last in present then [] else [last])
  }

  /**
   * `createSrcStructure`: makes `src` when it is missing, then, inside it,
   * each folder of `SrcFolders` that does not exist yet (`present` holds
   * those that do). Returns whether `src` was made and the folders made.
   */
  method CreateSrcStructure(srcExists: bool, present: set<string>) returns (madeSrc: bool, made: seq<string>)
    ensures madeSrc == !srcExists
    ensures made == Missing(SrcFolders, present)
    ensures forall f :: f in SrcFolders ==> f in present || f in made
    ensures forall f :: f in made ==> f !in present
  {
    madeSrc := !srcExists;
    made := [];
    var i := 0;
    while i < |SrcFolders|
      invariant 0 <= i <= |SrcFolders|
      invariant made == Missing(SrcFolders[..i], present)
    {
      var folder := SrcFolders[i];
      assert SrcFolders[..i + 1][..i] == SrcFolders[..i];
      if folder !in present {
        made := made + [folder];
      }
      i := i + 1;
    }
    assert SrcFolders[..i] == SrcFolders;
  }

  // ---------------------------------------------------------------------
  // The index file and the database configuration

  /** The name `createIndexFile` imports the database module under, for the databases it knows. */
  function ClientBinding(database: string): Option<string> {
    if database == "MongoDB" then Some("connectDB")
    else if database == "FireBase" then Some("db")
    else if database == "SupaBase" then Some("supabase")
    else None
  }

  /** The module the index file imports, relative to `src`. */
  function ConfigModule(fileType: string): string {
    "./config/db.config." + fileType
  }

  function ImportStatement(binding: string, fileType: string): string {
    "import " + binding + " from '" + ConfigModule(fileType) + "';"
  }

  /** Only MongoDB's module is a function the server calls on start. */
  function ConnectCall(database: string): string {
    if database == "MongoDB" then "  connectDB();" else ""
  }

  function IndexPath(fileType: string): string {
    "src/index." + fileType
  }

  /** The index file's write, given its import statement and connect call. */
  function IndexWrite(fileType: string, importStatement: string, connectCall: string): Op {
    WriteFile(IndexPath(fileType), Fixed(ServerIndex(importStatement, connectCall)))
  }

  /** What `createIndexFile` writes: nothing for a database it does not know. */
  function IndexOps(fileType: string, database: string): seq<Op> {
    match ClientBinding(database)
    case Some(binding) => [IndexWrite(fileType, ImportStatement(binding, fileType), ConnectCall(database))]
    case None => []
  }

  /** The error `createIndexFile` throws for any other database, and the line it logs for it. */
  const UnsupportedDatabase: Error := Error("Error", "Unsupported database type")

  function IndexErrorLine(): string {
    "Error creating index file:, " + UnsupportedDatabase.Text()
  }

  /**
   * `createIndexFile(fileType, database)`: the import and the connect call
   * are chosen branch by branch; any other database throws, the throw is
   * caught and logged, and no file is written.
   */
  method CreateIndexFile(fileType: string, database: string) returns (written: seq<Op>, log: seq<string>)
    ensures written == IndexOps(fileType, database)
    ensures log == (if written == [] then [IndexErrorLine()] else [])
  {
    var importStatement := "";
    var connectCall := "";
    if database == "MongoDB" {
      importStatement := ImportStatement("connectDB", fileType);
      connectCall := "  connectDB();";
    } else if database == "FireBase" {
      importStatement := ImportStatement("db", fileType);
    } else if database == "SupaBase" {
      importStatement := ImportStatement("supabase", fileType);
    } else {
      return [], [IndexErrorLine()];
    }
    written := [IndexWrite(fileType, importStatement, connectCall)];
    log := [];
  }

  /** Where `setupDatabaseConfig` writes the database module. */
  function DbConfigPath(fileType: string): string {
    "src/config/db.config." + fileType
  }

  /** The template of the database module. */
  function DbConfigKey(database: string, isTS: bool): Option<string> {
    if database == "MongoDB" then Some(if isTS then "mongooseTS" else "mongooseJS")
    else if database == "FireBase" then Some("firebaseConfig")
    else if database == "SupaBase" then Some("supabaseConfig")
    else None
  }

  /** `setupDatabaseConfig(database, fileType, isTS)`. */
  function DatabaseConfigOps(database: string, fileType: string, isTS: bool): seq<Op> {
    if database == "MongoDB" then
      [ Exec("npm i mongoose"),
        AppendFile(".env", Fixed(MongoEnv)),
        WriteFile(DbConfigPath(fileType), Rendered(DbConfigKey(database, isTS).value)) ]
    else if database == "FireBase" then
      [ Exec("npm i firebase-admin"),
        WriteFile(DbConfigPath(fileType), Rendered(DbConfigKey(database, isTS).value)),
        AppendFile(".env", Fixed(FirebaseEnv)) ]
    else if database == "SupaBase" then
      [ Exec("npm i " + "@supabase/" + "supabase-js"),
        WriteFile(DbConfigPath(fileType), Rendered(DbConfigKey(database, isTS).value)),
        AppendFile(".env", Fixed(SupabaseEnv)) ]
    else []
  }

  /** `installTSDependencies` and `createTSConfig`. */
  const TypeScriptOps: seq<Op> := [
    WriteFile("nodemon.json", Rendered("nodemonJSON")),
    Exec("npm install " + "--save-dev " + "typescript " + "ts-node " + "@types/node " + "@types/express " + "@types/cors"),
    WriteFile("tsconfig.json", Stringified("tsConfig"))
  ]

  /**
   * The steps of `serverSetUp` up to the folders: npm, the two package.json
   * writes, TypeScript. The two writes are the objects
   * `PackageJson.ConvertToModule` appends to `written`, restated as effects
   * of the plan; the edit itself is defined once, by `WithModuleType` and
   * `WithDevScript`.
   */
  function PackageOps(isTS: bool, parsed: map<string, Json>): seq<Op> {
    [ Exec("npm init -y"),
      WriteFile("package.json", Serialized(JObject(WithModuleType(parsed)))),
      WriteFile("package.json", Serialized(JObject(WithDevScript(WithModuleType(parsed), isTS)))),
      Exec("npm i " + "express " + "dotenv " + "cors " + "nodemon") ]
    + (if isTS then TypeScriptOps else [])
  }

  /** The file type of the backend's sources. */
  function FileType(serverLanguage: string): string {
    if serverLanguage == "TypeScript" then "ts" else "js"
  }

  /** `createEnvFile`: the server's `.env` starts afresh with the port. */
  const EnvWrite: Op := WriteFile(".env", Fixed(PortEnv))

  /** The `.gitignore` `serverSetUp` writes last. */
  const IgnoreWrite: Op := WriteFile(".gitignore", Fixed(ServerIgnore))

  /** `setupDatabaseConfig` runs only when a database was chosen. */
  function ServerDbOps(database: string, fileType: string, isTS: bool): seq<Op> {
    if database != "None" then DatabaseConfigOps(database, fileType, isTS) else []
  }

  /**
   * `serverSetUp(backendPath, serverLanguage, database)` when nothing
   * throws, `parsed` being the object `npm init -y` wrote. The folders
   * `createSrcStructure` makes come between the package steps and the
   * index file.
   */
  function ServerOps(serverLanguage: string, database: string, parsed: map<string, Json>): seq<Op> {
    var isTS := serverLanguage == "TypeScript";
    PackageOps(isTS, parsed) + IndexOps(FileType(serverLanguage), database) + [EnvWrite]
    + ServerDbOps(database, FileType(serverLanguage), isTS) + [IgnoreWrite]
  }

  // ---------------------------------------------------------------------
  // Properties of the backend

  /**
   * `createIndexFile`: MongoDB imports `connectDB` and calls it on start,
   * FireBase and SupaBase import their client and call nothing, and any
   * other database (`None` included) gives no index file.
   */
  lemma IndexFileFollowsDatabase(fileType: string, database: string)
    ensures IndexOps(fileType, database) != [] <==> database == "MongoDB" || database == "FireBase" || database == "SupaBase"
    ensures database == "MongoDB" ==>
              IndexOps(fileType, database) == [IndexWrite(fileType, ImportStatement("connectDB", fileType), "  connectDB();")]
    ensures database == "FireBase" ==>
              IndexOps(fileType, database) == [IndexWrite(fileType, ImportStatement("db", fileType), "")]
    ensures database == "SupaBase" ==>
              IndexOps(fileType, database) == [IndexWrite(fileType, ImportStatement("supabase", fileType), "")]
  {
  }

  /** The module the index file imports, resolved from `src`, is the file `setupDatabaseConfig` writes. */
  lemma ConfigImportResolves(fileType: string)
    ensures "src/" + ConfigModule(fileType)[2..] == DbConfigPath(fileType)
  {
    assert ConfigModule(fileType)[2..] == "config/db.config." + fileType;
  }

  /** For a database `createIndexFile` knows, the index file and the database module are both written. */
  lemma ServerWritesIndexWithConfig(serverLanguage: string, database: string, parsed: map<string, Json>)
    requires ClientBinding(database).Some?
    ensures var ops := ServerOps(serverLanguage, database, parsed);
            var fileType := FileType(serverLanguage);
            IndexWrite(fileType, ImportStatement(ClientBinding(database).value, fileType), ConnectCall(database)) in ops &&
            WriteFile(DbConfigPath(fileType), Rendered(DbConfigKey(database, serverLanguage == "TypeScript").value)) in ops
  {
    var isTS := serverLanguage == "TypeScript";
    var fileType := FileType(serverLanguage);
    var pkg := PackageOps(isTS, parsed);
    var index := IndexOps(fileType, database);
    var db := ServerDbOps(database, fileType, isTS);
    var ops := ServerOps(serverLanguage, database, parsed);
    assert ops[|pkg|] == index[0];
    var config := WriteFile(DbConfigPath(fileType), Rendered(DbConfigKey(database, isTS).value));
    var k := if database == "MongoDB" then 2 else 1;
    assert db[k] == config;
    assert ops[|pkg| + 2 + k] == config;
  }

  /** For any other database (`None` included), neither the index file nor a database module is written. */
  lemma ServerSkipsIndexWithoutDatabase(serverLanguage: string, database: string, parsed: map<string, Json>, path: string)
    requires ClientBinding(database).None?
    requires path == IndexPath(FileType(serverLanguage)) || path == DbConfigPath(FileType(serverLanguage))
    ensures Untouched(ServerOps(serverLanguage, database, parsed), path)
  {
    var isTS := serverLanguage == "TypeScript";
    var fileType := FileType(serverLanguage);
    var pkg := PackageOps(isTS, parsed);
    var index := IndexOps(fileType, database);
    var db := ServerDbOps(database, fileType, isTS);
    assert index == [] && db == [];
    assert path[0] == 's';
    assert Untouched(pkg, path);
    UntouchedAppend(pkg, index, path);
    UntouchedAppend(pkg + index, [EnvWrite], path);
    UntouchedAppend(pkg + index + [EnvWrite], db, path);
    UntouchedAppend(pkg + index + [EnvWrite] + db, [IgnoreWrite], path);
  }

  /** A TypeScript backend gets `nodemon.json`, which its bare `nodemon` dev script relies on. */
  lemma NodemonForTypeScript(database: string, parsed: map<string, Json>)
    ensures WriteFile("nodemon.json", Rendered("nodemonJSON")) in ServerOps("TypeScript", database, parsed)
  {
    var ops := ServerOps("TypeScript", database, parsed);
    assert ops[4] == PackageOps(true, parsed)[4] == TypeScriptOps[0];
  }

  /** Any other backend gets no `nodemon.json`. */
  lemma NoNodemonForJavaScript(serverLanguage: string, database: string, parsed: map<string, Json>)
    requires serverLanguage != "TypeScript"
    ensures Untouched(ServerOps(serverLanguage, database, parsed), "nodemon.json")
  {
    var pkg := PackageOps(false, parsed);
    var index := IndexOps("js", database);
    var db := ServerDbOps(database, "js", false);
    var path := "nodemon.json";
    assert Untouched(pkg, path);
    assert Untouched(index, path) by {
      assert IndexPath("js")[0] != path[0];
    }
    assert Untouched(db, path) by {
      assert DbConfigPath("js")[0] != path[0];
    }
    UntouchedAppend(pkg, index, path);
    UntouchedAppend(pkg + index, [EnvWrite], path);
    UntouchedAppend(pkg + index + [EnvWrite], db, path);
    UntouchedAppend(pkg + index + [EnvWrite] + db, [IgnoreWrite], path);
  }

  /** A JavaScript backend's `dev` script runs the index file `createIndexFile` writes. */
  lemma DevScriptRunsIndex()
    ensures DevCommand(false) == "nodemon " + IndexPath(FileType("JavaScript"))
  {
  }

  /** The lines `setupDatabaseConfig` appends to the server's `.env`. */
  function DbEnv(database: string): seq<Content> {
    if database == "MongoDB" then [Fixed(MongoEnv)]
    else if database == "FireBase" then [Fixed(FirebaseEnv)]
    else if database == "SupaBase" then [Fixed(SupabaseEnv)]
    else []
  }

  /** `setupDatabaseConfig` appends its database's lines to `.env` and touches it no further. */
  lemma DatabaseConfigAppendsEnv(database: string, fileType: string, isTS: bool, files: map<string, seq<Content>>)
    requires ".env" in files
    ensures var r := Apply(DatabaseConfigOps(database, fileType, isTS), files);
            ".env" in r && r[".env"] == files[".env"] + DbEnv(database)
  {
    var ops := DatabaseConfigOps(database, fileType, isTS);
    if ops != [] {
      var config := DbConfigPath(fileType);
      assert config[0] != ".env"[0];
      assert ops[1..][1..][1..] == [];
      var f1 := Effect(ops[0], files);
      var f2 := Effect(ops[1], f1);
      var f3 := Effect(ops[2], f2);
      assert Apply(ops[1..][1..], f2) == f3;
    }
  }

  /**
   * The server's `.env` ends up as the port line followed by the chosen
   * database's lines: `createEnvFile` rewrites it before
   * `setupDatabaseConfig` appends to it.
   */
  lemma ServerEnvFile(serverLanguage: string, database: string, parsed: map<string, Json>, files: map<string, seq<Content>>)
    ensures var r := Apply(ServerOps(serverLanguage, database, parsed), files);
            ".env" in r && r[".env"] == [Fixed(PortEnv)] + DbEnv(database)
  {
    var isTS := serverLanguage == "TypeScript";
    var fileType := FileType(serverLanguage);
    var head := PackageOps(isTS, parsed) + IndexOps(fileType, database);
    var db := ServerDbOps(database, fileType, isTS);
    ApplyAppend(head + [EnvWrite] + db, [IgnoreWrite], files);
    ApplyAppend(head + [EnvWrite], db, files);
    ApplyAppend(head, [EnvWrite], files);
    var f1 := Apply([EnvWrite], Apply(head, files));
    assert ".env" in f1 && f1[".env"] == [Fixed(PortEnv)];
    if database != "None" {
      DatabaseConfigAppendsEnv(database, fileType, isTS, f1);
    }
    var f2 := Apply(db, f1);
    assert Apply([IgnoreWrite], f2) == f2[".gitignore" := [Fixed(ServerIgnore)]];
  }

  /** The template keys the backend asks for. */
  const ServerKeys: set<string> := {"nodemonJSON", "tsConfig", "mongooseTS", "mongooseJS", "firebaseConfig", "supabaseConfig"}

  /** A backend asks only for `ServerKeys`. */
  lemma ServerRendersOnly(serverLanguage: string, database: string, parsed: map<string, Json>)
    ensures RendersOnly(ServerOps(serverLanguage, database, parsed), ServerKeys)
  {
    var isTS := serverLanguage == "TypeScript";
    var fileType := FileType(serverLanguage);
    var pkg := PackageOps(isTS, parsed);
    var index := IndexOps(fileType, database);
    var db := ServerDbOps(database, fileType, isTS);
    var pkgKeys := {"nodemonJSON", "tsConfig"};
    var dbKeys := {"mongooseTS", "mongooseJS", "firebaseConfig", "supabaseConfig"};
    assert RendersOnly(pkg, pkgKeys);
    assert RendersOnly(index, {}) && RendersOnly([EnvWrite], {}) && RendersOnly([IgnoreWrite], {});
    assert RendersOnly(db, dbKeys);
    RendersOnlyAppend(pkg, index, pkgKeys, {});
    RendersOnlyAppend(pkg + index, [EnvWrite], pkgKeys + {}, {});
    RendersOnlyAppend(pkg + index + [EnvWrite], db, pkgKeys + {} + {}, dbKeys);
    RendersOnlyAppend(pkg + index + [EnvWrite] + db, [IgnoreWrite], pkgKeys + {} + {} + dbKeys, {});
    assert pkgKeys + {} + {} + dbKeys + {} == ServerKeys;
  }

  /** Every key a backend asks for is registered, as written and after the correction alike. */
  lemma ServerKeysRegistered(serverLanguage: string, database: string, parsed: map<string, Json>)
    ensures forall k :: k in RenderedKeys(ServerOps(serverLanguage, database, parsed)) ==>
              k in ServerKeys && (k in TemplateKeys || k in PlainKeys) && (k in CorrectedKeys || k in PlainKeys)
  {
    ServerRendersOnly(serverLanguage, database, parsed);
    assert TemplateKeys[11] == "mongooseTS" && TemplateKeys[12] == "mongooseJS";
    assert TemplateKeys[13] == "firebaseConfig" && TemplateKeys[14] == "supabaseConfig";
    assert CorrectedKeys[11] == "mongooseTS" && CorrectedKeys[12] == "mongooseJS";
    assert CorrectedKeys[13] == "firebaseConfig" && CorrectedKeys[14] == "supabaseConfig";
    assert PlainKeys[4] == "nodemonJSON" && PlainKeys[5] == "tsConfig";
  }

  /** The backend's sources are `.ts` files exactly for a TypeScript backend, `.js` files otherwise. */
  lemma SourcesFollowLanguage(serverLanguage: string)
    ensures HasExtension(IndexPath(FileType(serverLanguage)), "ts") <==> serverLanguage == "TypeScript"
    ensures HasExtension(DbConfigPath(FileType(serverLanguage)), "ts") <==> serverLanguage == "TypeScript"
    ensures serverLanguage != "TypeScript" ==>
              HasExtension(IndexPath(FileType(serverLanguage)), "js") && HasExtension(DbConfigPath(FileType(serverLanguage)), "js")
  {
    var fileType := FileType(serverLanguage);
    var index := IndexPath(fileType);
    var config := DbConfigPath(fileType);
    assert index[|index| - 3..] == "." + fileType;
    assert config[|config| - 3..] == "." + fileType;
    assert ("." + fileType)[1] == fileType[0];
    assert "ts"[0] != "js"[0];
  }
}
