/**
 * The top level of `bin/index.ts`: where `init` puts the project, the order
 * of its steps, and the README `generateReadme` writes for the two answers.
 */
module Project {

  import opened Plan

  /** The answers `init` collects; those of a declined part are not asked and play no role. */
  datatype Answers = Answers(
    projectName: string,
    frontendAccept: bool,
    framework: string,
    language: string,
    cssChoice: string,
    authAccept: bool,
    backendAccept: bool,
    serverLanguage: string,
    database: string)

  /** One step of `init`; the setups are the effect lists of `ClientSetup` and `ServerSetup`. */
  datatype Step =
    | MakeDir(path: string)                     // `fs.mkdirSync(path, { recursive: true })`
    | SetUpClient(path: string, framework: string, language: string, cssChoice: string, authAccept: bool)
    | SetUpServer(path: string, serverLanguage: string, database: string)
    | WriteReadme(path: string, frontend: bool, backend: bool)
    | GitInit(path: string)
    | Exit(status: int)                         // `process.exit(status)`

  /** Where `init` puts the project, or the status it exits with instead. */
  datatype Placement = Place(path: string) | Refuse(status: int)

  /**
   * `init`'s choice of directory: `.` is the current directory, taken as
   * it is; any other name is joined onto it and refused when that path
   * already exists.
   */
  function ProjectPath(projectName: string, cwd: string, paths: PathOps, isPresent: string -> bool): Placement {
    if projectName == "." then Place(cwd)
    else
      var path := paths.join(cwd, projectName);
      if isPresent(path) then Refuse(1) else Place(path)
  }

  /** `fs.mkdirSync` of the project directory: twice for a new directory, once for `.`. */
  function ProjectDirs(projectName: string, path: string): seq<Step> {
    if projectName == "." then [MakeDir(path)] else [MakeDir(path), MakeDir(path)]
  }

  /** The frontend steps: `client` is made and set up when the frontend was accepted. */
  function ClientSteps(path: string, paths: PathOps, a: Answers): seq<Step> {
    var client := paths.join(path, "client");
    if a.frontendAccept then [MakeDir(client), SetUpClient(client, a.framework, a.language, a.cssChoice, a.authAccept)]
    else []
  }

  /** The backend steps: `server` is made and set up when the backend was accepted. */
  function ServerSteps(path: string, paths: PathOps, a: Answers): seq<Step> {
    var server := paths.join(path, "server");
    if a.backendAccept then [MakeDir(server), SetUpServer(server, a.serverLanguage, a.database)]
    else []
  }

  /** `init` in `bin/index.ts` when no step throws. */
  function Init(cwd: string, paths: PathOps, isPresent: string -> bool, a: Answers): seq<Step> {
    match ProjectPath(a.projectName, cwd, paths, isPresent)
    case Refuse(status) => [Exit(status)]
    case Place(path) =>
      ProjectDirs(a.projectName, path) + ClientSteps(path, paths, a) + ServerSteps(path, paths, a)
      + [WriteReadme(path, a.frontendAccept, a.backendAccept), GitInit(path)]
  }

  /**
   * `.` always sets up in the current directory; any other name is joined
   * onto it, and `init` exits with status 1 exactly when that path exists.
   */
  lemma InitPlacement(cwd: string, paths: PathOps, isPresent: string -> bool, a: Answers)
    ensures a.projectName == "." ==> Init(cwd, paths, isPresent, a)[0] == MakeDir(cwd)
    ensures a.projectName != "." ==>
              (Init(cwd, paths, isPresent, a) == [Exit(1)] <==> isPresent(paths.join(cwd, a.projectName)))
    ensures a.projectName != "." && !isPresent(paths.join(cwd, a.projectName)) ==>
              Init(cwd, paths, isPresent, a)[0] == MakeDir(paths.join(cwd, a.projectName))
  {
  }

  /** Once placed, `init` always ends with the README, written with both answers, and `git init`, in the project directory. */
  lemma InitEndsWithReadme(cwd: string, paths: PathOps, isPresent: string -> bool, a: Answers)
    requires ProjectPath(a.projectName, cwd, paths, isPresent).Place?
    ensures var steps := Init(cwd, paths, isPresent, a);
            var path := ProjectPath(a.projectName, cwd, paths, isPresent).path;
            |steps| >= 3 && steps[|steps| - 2..] == [WriteReadme(path, a.frontendAccept, a.backendAccept), GitInit(path)]
  {
    var path := ProjectPath(a.projectName, cwd, paths, isPresent).path;
    var head := ProjectDirs(a.projectName, path) + ClientSteps(path, paths, a) + ServerSteps(path, paths, a);
    var tail := [WriteReadme(path, a.frontendAccept, a.backendAccept), GitInit(path)];
    var steps := Init(cwd, paths, isPresent, a);
    assert steps == head + tail;
    assert steps[|head|..] == tail;
  }

  /** Once placed, `init` sets up the frontend and the backend exactly when they were accepted, and never exits. */
  lemma InitSetsUpAccepted(cwd: string, paths: PathOps, isPresent: string -> bool, a: Answers)
    requires ProjectPath(a.projectName, cwd, paths, isPresent).Place?
    ensures var steps := Init(cwd, paths, isPresent, a);
            ((exists i :: 0 <= i < |steps| && steps[i].SetUpClient?) <==> a.frontendAccept) &&
            ((exists i :: 0 <= i < |steps| && steps[i].SetUpServer?) <==> a.backendAccept) &&
            (forall i :: 0 <= i < |steps| ==> !steps[i].Exit?)
  {
    var path := ProjectPath(a.projectName, cwd, paths, isPresent).path;
    var dirs := ProjectDirs(a.projectName, path);
    var client := ClientSteps(path, paths, a);
    var server := ServerSteps(path, paths, a);
    var tail := [WriteReadme(path, a.frontendAccept, a.backendAccept), GitInit(path)];
    var steps := Init(cwd, paths, isPresent, a);
    assert steps == dirs + client + server + tail;
    forall i | 0 <= i < |steps|
      ensures steps[i].SetUpClient? ==> a.frontendAccept
      ensures steps[i].SetUpServer? ==> a.backendAccept
      ensures !steps[i].Exit?
    {
      if i < |dirs| {
        assert steps[i] == dirs[i];
      } else if i < |dirs| + |client| {
        assert steps[i] == client[i - |dirs|];
      } else if i < |dirs| + |client| + |server| {
        assert steps[i] == server[i - |dirs| - |client|];
      } else {
        assert steps[i] == tail[i - |dirs| - |client| - |server|];
      }
    }
    if a.frontendAccept {
      assert steps[|dirs| + 1] == client[1];
    }
    if a.backendAccept {
      assert steps[|dirs| + |client| + 1] == server[1];
    }
  }

  // ---------------------------------------------------------------------
  // generateReadme

  /** The title line: the last component of the project path. */
  function Title(paths: PathOps, projectPath: string): string {
    "# " + paths.basename(projectPath) + "\n"
  }

  const Intro: string := "\nThis project " + "was generated " + "using our " + "custom project " + "scaffolding tool. " + "It includes:\n\n"

  const FrontendItem: string := "- A frontend " + "project (React " + "or Next.js) " + "with optional " + "TailwindCSS setup.\n"

  const BackendItem: string :=
    "- A backend " + "project " + "(JavaScript/TypeScript) " + "with Express " + "and a database " + "configuration.\n"

  /** What the README says in place of a part that was not set up. */
  const NoFrontend: string := "No frontend setup was performed."

  const NoBackend: string := "No backend setup was performed."

  /** The frontend instructions. */
  function FrontendSteps(paths: PathOps): string {
    "1. Navigate " + ("to the client " + "folder: `cd " + paths.join(".", "client") + "`\n"
    + "    2. Update " + "the `.env` " + "file with " + "your configuration:\n"
    + "3. Run the " + "development server: " + "`npm run dev`\n")
  }

  /** The backend instructions, with the variables each database needs. */
  function BackendSteps(paths: PathOps): string {
    "1. Navigate " + ("to the server " + "folder: `cd " + paths.join(".", "server") + "`\n"
    + "2. Update " + "the `.env` " + "file with " + "your configuration:\n\n"
    + "   - For MongoDB, " + "set `MONGODB_URI` " + "(e.g., `mongodb+srv://" + "<username>:" + "<password>@" + "cluster0." + "mongodb.net/" + "<databaseName>" + "?retryWrites=true" + "&w=majority`)\n"
    + "   - For FireBase, " + "set `FIREBASE_" + "SERVICE_ACCOUNT` " + "and `FIREBASE_" + "DATABASE_URL`\n"
    + "   - For SupaBase, " + "set `SUPABASE_URL` " + "and `SUPABASE_KEY`\n\n"
    + "3. Run the " + "development server: " + "`npm run dev`\n")
  }

  const Notes: string :=
    "## Notes\n"
    + "- Ensure you " + "have Node.js " + "installed.\n"
    + "- For any " + "environment variables " + "required, please " + "update the `.env` " + "file in the " + "respective folders.\n"
    + "- For more " + "details, refer " + "to the documentation " + "in each " + "project folder.\n"

  /** The list of what the project includes. */
  function Summary(frontend: bool, backend: bool): string {
    Intro + (if frontend then FrontendItem else "") + "\n" + (if backend then BackendItem else "") + "\n"
  }

  /** The Frontend section's body. */
  function FrontendSection(paths: PathOps, frontend: bool): string {
    if frontend then FrontendSteps(paths) else NoFrontend
  }

  /** The Backend section's body. */
  function BackendSection(paths: PathOps, backend: bool): string {
    if backend then BackendSteps(paths) else NoBackend
  }

  /** The heading of the instructions. */
  const SetupHeading: string := "\n## Setup Instructions\n\n"

  /** The headings of the two sections, and the blank line that ends each. */
  const FrontendLabel: string := "### Frontend\n"
  const BackendLabel: string := "### Backend\n"
  const Gap: string := "\n\n"

  /** How the summary `s` and the sections `fs` and `bs` are laid out below the title. */
  function Layout(s: string, fs: string, bs: string): string {
    s + SetupHeading + FrontendLabel + fs + Gap + BackendLabel + bs + Gap + Notes
  }

  /** Everything below the title. */
  function ReadmeBody(paths: PathOps, frontend: bool, backend: bool): string {
    Layout(Summary(frontend, backend), FrontendSection(paths, frontend), BackendSection(paths, backend))
  }

  /** `generateReadme(projectPath, { frontend, backend })`: the text of `README.md`. */
  function Readme(paths: PathOps, projectPath: string, frontend: bool, backend: bool): string {
    Title(paths, projectPath) + ReadmeBody(paths, frontend, backend)
  }

  /** The README opens with the project directory's name as its title. */
  lemma ReadmeTitle(paths: PathOps, projectPath: string, frontend: bool, backend: bool)
    ensures var title := "# " + paths.basename(projectPath) + "\n";
            |title| <= |Readme(paths, projectPath, frontend, backend)| &&
            Readme(paths, projectPath, frontend, backend)[..|title|] == title
  {
  }

  /** The Frontend section reads "No frontend setup was performed." exactly when the frontend was declined. */
  lemma FrontendSectionFollowsAnswer(paths: PathOps, frontend: bool)
    ensures FrontendSection(paths, frontend) == "No frontend setup was performed." <==> !frontend
  {
    assert FrontendSteps(paths)[0] == '1' != NoFrontend[0];
  }

  /** The Backend section reads "No backend setup was performed." exactly when the backend was declined. */
  lemma BackendSectionFollowsAnswer(paths: PathOps, backend: bool)
    ensures BackendSection(paths, backend) == "No backend setup was performed." <==> !backend
  {
    assert BackendSteps(paths)[0] == '1' != NoBackend[0];
  }

  /**
   * In the README text itself, the "### Frontend" heading is followed by
   * "No frontend setup was performed." exactly when the frontend was
   * declined.
   */
  lemma ReadmeFrontendSection(paths: PathOps, projectPath: string, frontend: bool, backend: bool)
    ensures var r := Readme(paths, projectPath, frontend, backend);
            var k := |Title(paths, projectPath)| + |Summary(frontend, backend) + SetupHeading|;
            && k + |FrontendLabel| + |NoFrontend| <= |r|
            && (r[k..k + |FrontendLabel| + |NoFrontend|] == FrontendLabel + NoFrontend <==> !frontend)
  {
    ReadmeLayout(paths, projectPath, frontend, backend);
    FrontendSectionStartsWithAnswer(paths, frontend);
    LayoutFrontend(Title(paths, projectPath), Summary(frontend, backend),
                   FrontendSection(paths, frontend), BackendSection(paths, backend));
  }

  /**
   * In the README text itself, the "### Backend" heading is followed by
   * "No backend setup was performed." exactly when the backend was
   * declined.
   */
  lemma ReadmeBackendSection(paths: PathOps, projectPath: string, frontend: bool, backend: bool)
    ensures var r := Readme(paths, projectPath, frontend, backend);
            var k := |Title(paths, projectPath)| + |Summary(frontend, backend) + SetupHeading + FrontendLabel + FrontendSection(paths, frontend) + Gap|;
            && k + |BackendLabel| + |NoBackend| <= |r|
            && (r[k..k + |BackendLabel| + |NoBackend|] == BackendLabel + NoBackend <==> !backend)
  {
    ReadmeLayout(paths, projectPath, frontend, backend);
    BackendSectionStartsWithAnswer(paths, backend);
    LayoutBackend(Title(paths, projectPath), Summary(frontend, backend),
                  FrontendSection(paths, frontend), BackendSection(paths, backend));
  }

  /** Below a title `t`, the frontend heading is followed by the declined text exactly when `fs` starts with it. */
  lemma LayoutFrontend(t: string, s: string, fs: string, bs: string)
    requires |NoFrontend| <= |fs|
    ensures var r := t + Layout(s, fs, bs);
            var k := |t| + |s + SetupHeading|;
            && k + |FrontendLabel| + |NoFrontend| <= |r|
            && (r[k..k + |FrontendLabel| + |NoFrontend|] == FrontendLabel + NoFrontend <==> fs[..|NoFrontend|] == NoFrontend)
  {
    FirstWindow(t, s + SetupHeading, FrontendLabel, fs, NoFrontend, Gap, BackendLabel, bs, Gap, Notes);
  }

  /** Below a title `t`, the backend heading is followed by the declined text exactly when `bs` starts with it. */
  lemma LayoutBackend(t: string, s: string, fs: string, bs: string)
    requires |NoBackend| <= |bs|
    ensures var r := t + Layout(s, fs, bs);
            var k := |t| + |s + SetupHeading + FrontendLabel + fs + Gap|;
            && k + |BackendLabel| + |NoBackend| <= |r|
            && (r[k..k + |BackendLabel| + |NoBackend|] == BackendLabel + NoBackend <==> bs[..|NoBackend|] == NoBackend)
  {
    SecondWindow(t, s + SetupHeading, FrontendLabel, fs, Gap, BackendLabel, bs, NoBackend, Gap, Notes);
  }

  /** The README is the title followed by the summary and the two sections, in that order. */
  lemma ReadmeLayout(paths: PathOps, projectPath: string, frontend: bool, backend: bool)
    ensures Readme(paths, projectPath, frontend, backend)
            == Title(paths, projectPath) + Layout(Summary(frontend, backend), FrontendSection(paths, frontend), BackendSection(paths, backend))
  {
  }

  /** The Frontend section's body starts with the text for a declined frontend exactly when it was declined. */
  lemma FrontendSectionStartsWithAnswer(paths: PathOps, frontend: bool)
    ensures |NoFrontend| <= |FrontendSection(paths, frontend)|
    ensures FrontendSection(paths, frontend)[..|NoFrontend|] == NoFrontend <==> !frontend
  {
    if frontend {
      var steps := FrontendSteps(paths);
      assert steps[0] == '1';
      assert steps[..|NoFrontend|][0] != NoFrontend[0];
    }
  }

  /** The Backend section's body starts with the text for a declined backend exactly when it was declined. */
  lemma BackendSectionStartsWithAnswer(paths: PathOps, backend: bool)
    ensures |NoBackend| <= |BackendSection(paths, backend)|
    ensures BackendSection(paths, backend)[..|NoBackend|] == NoBackend <==> !backend
  {
    if backend {
      var steps := BackendSteps(paths);
      assert steps[0] == '1';
      assert steps[..|NoBackend|][0] != NoBackend[0];
    }
  }

  /**
   * In `t + (pre + h + b + x1 + x2 + x3 + x4 + x5)`, the window after `pre`
   * as long as `h + alt` reads `h + alt` exactly when `b` starts with `alt`.
   */
  lemma FirstWindow(t: string, pre: string, h: string, b: string, alt: string, x1: string, x2: string, x3: string, x4: string, x5: string)
    requires |alt| <= |b|
    ensures var r := t + (pre + h + b + x1 + x2 + x3 + x4 + x5);
            var k := |t| + |pre|;
            && k + |h| + |alt| <= |r|
            && (r[k..k + |h| + |alt|] == h + alt <==> b[..|alt|] == alt)
  {
    var r := t + (pre + h + b + x1 + x2 + x3 + x4 + x5);
    var k := |t| + |pre|;
    var w := r[k..k + |h| + |alt|];
    assert w == h + b[..|alt|];
    if w == h + alt {
      assert b[..|alt|] == w[|h|..];
    }
  }

  /**
   * In `t + (pre + h1 + b1 + gap + h + b + x1 + x2)`, the window after `gap`
   * as long as `h + alt` reads `h + alt` exactly when `b` starts with `alt`.
   */
  lemma SecondWindow(t: string, pre: string, h1: string, b1: string, gap: string, h: string, b: string, alt: string, x1: string, x2: string)
    requires |alt| <= |b|
    ensures var r := t + (pre + h1 + b1 + gap + h + b + x1 + x2);
            var k := |t| + |pre + h1 + b1 + gap|;
            && k + |h| + |alt| <= |r|
            && (r[k..k + |h| + |alt|] == h + alt <==> b[..|alt|] == alt)
  {
    FirstWindow(t, pre + h1 + b1 + gap, h, b, alt, x1, x2, "", "", "");
    assert pre + h1 + b1 + gap + h + b + x1 + x2 + "" + "" + "" == pre + h1 + b1 + gap + h + b + x1 + x2;
  }

  /** The summary lists the frontend and the backend item exactly for the parts set up. */
  lemma SummaryItems(frontend: bool, backend: bool)
    ensures |Summary(frontend, backend)| == |Intro| + 2 + (if frontend then |FrontendItem| else 0) + (if backend then |BackendItem| else 0)
    ensures frontend ==> Summary(frontend, backend)[|Intro|..|Intro| + |FrontendItem|] == FrontendItem
    ensures var at := |Intro| + (if frontend then |FrontendItem| else 0);
            && Summary(frontend, backend)[at] == '\n'
            && (backend ==> Summary(frontend, backend)[at + 1..at + 1 + |BackendItem|] == BackendItem)
  {
    var s := Summary(frontend, backend);
    var front := if frontend then FrontendItem else "";
    var back := if backend then BackendItem else "";
    assert s == Intro + front + "\n" + back + "\n";
    var at := |Intro| + |front|;
    if frontend {
      assert s[|Intro|..|Intro| + |FrontendItem|] == front;
    }
    if backend {
      assert s[at + 1..at + 1 + |BackendItem|] == back;
    }
  }
}
