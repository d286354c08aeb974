/**
 The bash "always allow" grants: which command lines an exact grant or a family
 (program and subcommand) covers, and which grants a person is offered for a line.
 */
module Grants {
  import opened Basics
  import opened Words
  import opened SafeWords
  import opened GrantFlags

  // ---------- One simple command ----------

  /** What the shell reads as something other than the text of a word: no grant covers a line with one. */
  predicate ShellChar(c: char) {
    c in ";&|<>()`$~\\\n\r*?{}[]'\""
  }

  const MaxCommand := 500

  /** The words of a command: a program named without a path or an assignment, and arguments that stay inside. */
  predicate GrantableWords(fields: seq<string>) {
    && fields != [] && '=' !in fields[0] && '/' !in fields[0]
    && forall i :: 1 <= i < |fields| ==> StaysInside(fields[i])
  }

  /** Whether a trimmed line has the size and the characters of one simple command. */
  predicate SimpleLine(line: string) {
    line != "" && Length(line) <= MaxCommand && forall i :: 0 <= i < |line| ==> !ShellChar(line[i])
  }

  /** The words of a line that is a single command of the kind grants are for, and None of any other. */
  function CommandFields(command: string): Option<seq<string>> {
    var line := TrimSpace(command);
    if !SimpleLine(line) then None
    else
      var fields := Fields(line);
      if GrantableWords(fields) then Some(fields) else None
  }

  lemma CommandFieldsAre(command: string)
    requires CommandFields(command).Some?
    ensures CommandFields(command).value == Fields(command)
    ensures AreWords(Fields(command)) && GrantableWords(Fields(command))
  {
    hide GrantableWords, SimpleLine, IsSpace, TrimSpace, Fields;
    FieldsOfTrimmed(command);
    FieldsAreWords(command);
  }

  /** A command cut to its first words is one simple command, and those are its words. */
  lemma CommandFieldsFront(command: string, m: nat)
    requires CommandFields(command).Some? && 0 < m <= |CommandFields(command).value|
    ensures CommandFields(Join(CommandFields(command).value[..m])) == Some(CommandFields(command).value[..m])
  {
    var line := TrimSpace(command);
    var f := Fields(line);
    CommandFieldsAre(command);
    FieldsOfTrimmed(command);
    assert SimpleLine(line) && GrantableWords(f);
    hide CommandFields, SimpleLine, IsSpace, Fields, TrimSpace, Join, StaysInside, AreWords;
    LineFront(line, f, m);
    GrantableFront(f, m);
    CommandFieldsIs(Join(f[..m]), f[..m]);
  }

  lemma CommandFieldsIs(line: string, fields: seq<string>)
    requires TrimSpace(line) == line && SimpleLine(line) && Fields(line) == fields && GrantableWords(fields)
    ensures CommandFields(line) == Some(fields)
  {
  }

  lemma GrantableFront(fields: seq<string>, m: nat)
    requires GrantableWords(fields) && 0 < m <= |fields|
    ensures GrantableWords(fields[..m])
  {
    hide StaysInside;
  }

  /** A simple line cut to its first words is a simple line of those words. */
  lemma LineFront(line: string, f: seq<string>, m: nat)
    requires SimpleLine(line) && f == Fields(line) && AreWords(f) && 0 < m <= |f|
    ensures var front := Join(f[..m]); TrimSpace(front) == front && SimpleLine(front) && Fields(front) == f[..m]
  {
    hide SimpleLine, IsSpace, Fields, TrimSpace, Join, AreWords;
    WordsTail(f, m);
    FieldsOfJoin(f[..m]);
    JoinTrimmed(f[..m]);
    JoinOfFields(line, m);
    SimpleFront(line, Join(f[..m]));
  }

  lemma SimpleFront(line: string, front: string)
    requires SimpleLine(line) && front != "" && Length(front) <= Length(line)
    requires forall c :: c in front ==> c in line || c == ' '
    ensures SimpleLine(front)
  {
    assert !ShellChar(' ');
    hide ShellChar, Length;
    forall i | 0 <= i < |front| ensures !ShellChar(front[i]) {
      assert front[i] in front;
    }
  }

  // ---------- Families ----------

  datatype Subcommands = Unlisted | FlagsOnly | Listed(subs: seq<string>)

  /** By program, the subcommands that make a family with it. */
  function FamilySubs(prog: string): Subcommands {
    match prog
    case "go" => Listed(["test", "build", "vet", "fmt", "run", "list"])
    case "cargo" => Listed(["test", "build", "check", "clippy", "fmt", "run"])
    case "npm" => Listed(["test", "run"])
    case "pnpm" => Listed(["test", "run"])
    case "yarn" => Listed(["test", "run"])
    case "dotnet" => Listed(["test", "build"])
    case "mvn" => Listed(["test", "package", "verify", "compile"])
    case "gradle" => Listed(["test", "build", "check"])
    case "python" => Listed(["-m"])
    case "python3" => Listed(["-m"])
    case "pytest" => FlagsOnly
    case "node" => Listed(["--test"])
    case _ => Unlisted
  }

  predicate PythonModule(m: string) {
    m == "pytest" || m == "unittest" || m == "mypy" || m == "ruff"
  }

  /** By family, the flags that leave what runs, and where it writes, as it is. */
  function FamilyFlags(key: string): seq<string> {
    match key
    case "go test" => ["-v", "-run", "-count", "-race", "-short", "-cover", "-covermode", "-coverpkg", "-timeout", "-p",
                       "-parallel", "-bench", "-benchmem", "-benchtime", "-failfast", "-json", "-cpu", "-tags", "-list",
                       "-skip", "-shuffle", "-vet", "-trimpath"]
    case "go build" => ["-v", "-race", "-tags", "-trimpath", "-p", "-a", "-n", "-x"]
    case "go vet" => ["-v", "-tags", "-json"]
    case "go fmt" => ["-n", "-x"]
    case "go run" => ["-race", "-tags", "-trimpath"]
    case "go list" => ["-m", "-json", "-deps", "-test", "-e", "-u", "-versions", "-f"]
    case "cargo" => ["-p", "--package", "--release", "--all-features", "--features", "-F", "--no-default-features",
                     "--workspace", "--lib", "--bins", "--bin", "--tests", "--test", "--examples", "--example",
                     "--all-targets", "--doc", "--no-fail-fast", "-q", "--quiet", "-v", "--verbose", "-j", "--jobs",
                     "--locked", "--offline", "--frozen", "--all", "--check", "--no-run"]
    case "npm" => ["-s", "--silent", "-q", "--quiet", "--if-present"]
    case "dotnet" => ["-c", "--configuration", "-f", "--framework", "--no-restore", "--no-build", "--filter", "-v",
                      "--verbosity", "--nologo"]
    case "mvn" => ["-q", "--quiet", "-B", "--batch-mode", "-o", "--offline", "-U", "-T", "-e", "-pl", "--projects", "-am",
                   "--also-make", "-P", "-DskipTests", "-DskipITs", "-Dtest", "-Dit.test",
                   "-Dsurefire.failIfNoSpecifiedTests"]
    case "gradle" => ["-q", "--quiet", "--info", "--stacktrace", "--tests", "-x", "--exclude-task", "--continue",
                      "--parallel", "--offline", "--no-daemon", "--rerun-tasks"]
    case "pytest" => ["-q", "-v", "-vv", "-x", "-k", "-m", "-s", "--maxfail", "--tb", "--lf", "--ff", "-n", "--durations",
                      "-ra", "-rA", "--no-header", "--cov", "--cov-report"]
    case "unittest" => ["-v", "-q", "-f", "-k", "discover", "-s", "-t"]
    case "mypy" => ["--strict", "--ignore-missing-imports", "--no-incremental", "-p", "--package", "-m", "--module",
                    "--pretty"]
    case "ruff" => ["check", "format", "--fix", "--diff", "--select", "--ignore", "--statistics", "--quiet", "-q"]
    case "node test" => ["--test-name-pattern", "--test-only", "--test-concurrency", "--experimental-test-coverage"]
    case _ => []
  }

  /** The key and the flags a program's subcommand is read with; the key is empty for no family. */
  function FlagsFor(prog: string, sub: string): (r: (string, seq<string>))
    ensures r.0 != "" ==> !IsSpace(r.0[0])
  {
    if prog == "go" then ("go " + sub, FamilyFlags("go " + sub))
    else if prog == "cargo" then ("cargo " + sub, FamilyFlags("cargo"))
    else if prog == "npm" || prog == "pnpm" || prog == "yarn" then ("npm", FamilyFlags("npm"))
    else if prog == "dotnet" || prog == "mvn" || prog == "gradle" || prog == "pytest" then (prog, FamilyFlags(prog))
    else if prog == "node" then ("node test", FamilyFlags("node test"))
    else ("", [])
  }

  /** Flags read with key `key`, which starts with the program's name. */
  predicate Allowed(key: string, flags: seq<string>, args: seq<string>) {
    key != "" && !IsSpace(key[0]) && ArgsCovered(key, flags, args)
  }

  predicate RunsScript(prog: string, sub: string) {
    sub == "run" && (prog == "npm" || prog == "pnpm" || prog == "yarn")
  }

  /** The family a simple command's words belong to, "" for none. */
  function FamilyOfWords(fields: seq<string>): string
    requires fields != []
  {
    match FamilySubs(fields[0])
    case Unlisted => ""
    case FlagsOnly => if Allowed("pytest", FamilyFlags("pytest"), fields[1..]) then fields[0] else ""
    case Listed(subs) =>
      if |fields| < 2 || fields[1] !in subs then ""
      else if fields[1] == "-m" then
        if |fields| < 3 || !PythonModule(fields[2]) || !Allowed(fields[2], FamilyFlags(fields[2]), fields[3..]) then ""
        else Join(fields[..3])
      else if RunsScript(fields[0], fields[1]) then
        if |fields| < 3 || HasPrefix(fields[2], "-") || fields[2] == "env" || !StaysInside(fields[2])
           || !Allowed("npm", FamilyFlags("npm"), fields[3..]) then ""
        else Join(fields[..3])
      else
        var (key, flags) := FlagsFor(fields[0], fields[1]);
        if key == "" || !Allowed(key, flags, fields[2..]) then "" else fields[0] + " " + fields[1]
  }

  function FamilyOf(command: string): string {
    match CommandFields(command)
    case None => ""
    case Some(fields) => FamilyOfWords(fields)
  }

  /** How many words name the family of a line with these. */
  function FamilySize(fields: seq<string>): nat
    requires fields != []
  {
    if !FamilySubs(fields[0]).Listed? then 1
    else if |fields| < 2 || fields[1] == "-m" || RunsScript(fields[0], fields[1]) then 3
    else 2
  }

  lemma AllowedFront(key: string, flags: seq<string>, fields: seq<string>, n: nat, m: nat)
    requires n <= m <= |fields| && Allowed(key, flags, fields[n..])
    ensures Allowed(key, flags, fields[..m][n..])
  {
    ArgsPrefix(key, flags, fields[n..], m - n);
    assert fields[n..][..m - n] == fields[..m][n..];
  }

  lemma FamilyFront(fields: seq<string>)
    requires fields != [] && FamilyOfWords(fields) != ""
    ensures FamilySize(fields) <= |fields|
    ensures FamilyOfWords(fields) == Join(fields[..FamilySize(fields)])
  {
    hide Allowed, FamilyFlags, FamilySubs, FlagsFor, StaysInside, PythonModule;
    if FamilySize(fields) == 2 {
      assert fields[..2][1..] == [fields[1]];
    } else if FamilySize(fields) == 1 {
      assert fields[..1] == [fields[0]];
    }
  }

  lemma FamilyShorter(fields: seq<string>, m: nat)
    requires fields != [] && FamilyOfWords(fields) != ""
    requires FamilySize(fields) <= m <= |fields|
    ensures FamilyOfWords(fields[..m]) == FamilyOfWords(fields)
  {
    hide Allowed, FamilyFlags, FamilySubs, FlagsFor, StaysInside, PythonModule, Join;
    var front := fields[..m];
    assert front[0] == fields[0];
    match FamilySubs(fields[0])
    case FlagsOnly =>
      AllowedFront("pytest", FamilyFlags("pytest"), fields, 1, m);
    case Listed(_) =>
      if FamilySize(fields) == 3 {
        assert front[..3] == fields[..3] && front[2] == fields[2] && front[1] == fields[1];
        if fields[1] == "-m" {
          AllowedFront(fields[2], FamilyFlags(fields[2]), fields, 3, m);
        } else {
          AllowedFront("npm", FamilyFlags("npm"), fields, 3, m);
        }
      } else {
        var (key, flags) := FlagsFor(fields[0], fields[1]);
        AllowedFront(key, flags, fields, 2, m);
      }
  }

  /** The words a family is named with are the first of its line. */
  lemma FamilyWords(fields: seq<string>)
    requires fields != [] && AreWords(fields) && FamilyOfWords(fields) != ""
    ensures var n := FamilySize(fields);
            && 1 <= n <= 3 && n <= |fields| && FamilyOfWords(fields) == Join(fields[..n])
            && Fields(FamilyOfWords(fields)) == fields[..n]
  {
    hide FamilyOfWords, AreWords, Fields, Join, FamilySubs, RunsScript;
    FamilyFront(fields);
    WordsTail(fields, FamilySize(fields));
    FieldsOfJoin(fields[..FamilySize(fields)]);
  }

  lemma FamilyOfIs(command: string)
    requires FamilyOf(command) != ""
    ensures var f := Fields(command);
            && CommandFields(command) == Some(f) && AreWords(f) && GrantableWords(f)
            && FamilyOf(command) == FamilyOfWords(f)
  {
    hide CommandFields, GrantableWords, FamilyOfWords, Fields, AreWords;
    CommandFieldsAre(command);
  }

  /**
   A family is the first one to three words of the line, and cutting it gives those
   words back; every word of the line after the program stays inside the folder.
   */
  lemma FamilyIsFirstWords(command: string)
    requires FamilyOf(command) != ""
    ensures var f, words := Fields(command), Fields(FamilyOf(command));
            && 1 <= |words| <= 3 && words <= f && FamilyOf(command) == Join(words)
            && forall i :: 1 <= i < |f| ==> StaysInside(f[i])
  {
    hide FamilyOf, FamilyOfWords, CommandFields, StaysInside, Fields, AreWords, Join, FamilySize;
    FamilyOfIs(command);
    FamilyWords(Fields(command));
  }

  /** Leaving words off the end of a line, down to its family's own, leaves its family the same. */
  lemma FamilyOfShorter(command: string, m: nat)
    requires FamilyOf(command) != ""
    requires |Fields(FamilyOf(command))| <= m <= |Fields(command)|
    ensures FamilyOf(Join(Fields(command)[..m])) == FamilyOf(command)
  {
    FamilyOfIs(command);
    var f := Fields(command);
    hide FamilyOfWords, CommandFields, GrantableWords, Fields, AreWords, FamilySize, Join;
    FamilyWords(f);
    CommandFieldsFront(command, m);
    FamilyShorter(f, m);
  }

  /** A family is a command of its own family. */
  lemma FamilyOfFamily(command: string)
    requires FamilyOf(command) != ""
    ensures FamilyOf(FamilyOf(command)) == FamilyOf(command)
  {
    hide FamilyOf, Fields, Join, StaysInside;
    FamilyIsFirstWords(command);
    var words := Fields(FamilyOf(command));
    FamilyOfShorter(command, |words|);
    assert Fields(command)[..|words|] == words;
  }

  lemma {:induction false} LengthBound(s: string)
    ensures Length(s) <= 4 * |s|
  {
    if s != "" {
      LengthBound(s[1..]);
    }
  }

  /** So `go test` is one simple command, and a family. */
  lemma GoTestIsFamily()
    ensures FamilyOf("go test") == "go test"
  {
    hide SimpleLine, GrantableWords, FamilyOfWords, Fields, IsSpace, TrimSpace;
    var words := GoTestLine();
    GoTestIsSimple();
    GoTestGrantable(words);
    GoTestWords(words);
    hide AreWords, Join;
    FieldsOfJoin(words);
    JoinTrimmed(words);
    CommandFieldsIs("go test", words);
  }

  lemma GoTestLine() returns (words: seq<string>)
    ensures words == ["go", "test"] && AreWords(words) && Join(words) == "go test"
  {
    words := ["go", "test"];
    assert words[1..] == ["test"] && Join(["test"]) == "test";
  }

  lemma GoTestIsSimple()
    ensures SimpleLine("go test")
  {
    LengthBound("go test");
    hide Length;
  }

  lemma GoTestGrantable(words: seq<string>)
    requires words == ["go", "test"]
    ensures GrantableWords(words)
  {
  }

  lemma GoSubs()
    ensures FamilySubs("go").Listed? && "test" in FamilySubs("go").subs
  {
    assert FamilySubs("go").subs[0] == "test";
  }

  lemma GoFlagsFor()
    ensures FlagsFor("go", "test") == ("go test", FamilyFlags("go test"))
  {
    hide FamilyFlags;
    assert "go " + "test" == "go test";
  }

  lemma GoTestWords(words: seq<string>)
    requires words == ["go", "test"]
    ensures FamilyOfWords(words) == "go test"
  {
    hide FamilyFlags, FamilySubs, FlagsFor, ArgsCovered, IsSpace;
    GoSubs();
    GoFlagsFor();
    GoKey();
    assert words[2..] == [] && "go" + " " + "test" == "go test";
    NoArgsCovered("go test", FamilyFlags("go test"));
  }

  lemma GoKey()
    ensures !IsSpace("go test"[0]) && Fields("go test") != []
  {
    hide FieldsFunc;
  }

  lemma NoArgsCovered(key: string, flags: seq<string>)
    requires Fields(key) != []
    ensures ArgsCovered(key, flags, [])
  {
  }

  // ---------- Grants and what they cover ----------

  datatype BashGrant = BashGrant(command: string, family: string, folder: string, session: bool)

  /** Folders as the file path functions read them: cleaning a path, and one being inside another. */
  datatype Paths = Paths(clean: string -> string, within: (string, string) -> bool)

  predicate Covers(g: BashGrant, command: string, cwd: string, paths: Paths) {
    && CommandFields(command).Some?
    && (g.folder != "" ==> cwd != "" && paths.within(paths.clean(cwd), paths.clean(g.folder)))
    && if g.command != "" then TrimSpace(command) == g.command
       else g.family != "" && FamilyOf(command) == g.family
  }

  /** What a person may choose when `command` is to run in `cwd`. */
  function BashGrantOptions(command: string, cwd: string, root: string, paths: Paths): seq<BashGrant> {
    if CommandFields(command).None? then []
    else
      var exact, family := TrimSpace(command), FamilyOf(command);
      [BashGrant(exact, "", "", true), BashGrant(exact, "", "", false)]
      + (if family == "" then []
         else (if cwd != "" && paths.clean(cwd) != paths.clean(root) then [BashGrant("", family, cwd, false)] else [])
              + [BashGrant("", family, "", false)])
  }

  /** Every grant offered covers the very ask it was offered for. */
  lemma OptionsCover(command: string, cwd: string, root: string, paths: Paths, g: BashGrant)
    requires forall p :: paths.within(p, p)
    requires g in BashGrantOptions(command, cwd, root, paths)
    ensures Covers(g, command, cwd, paths)
    ensures g.session ==> g.command != ""
  {
    hide FamilyOf, SimpleLine, TrimSpace, Fields, GrantableWords;
    SimpleNotEmpty(TrimSpace(command));
  }

  lemma SimpleNotEmpty(line: string)
    requires SimpleLine(line)
    ensures line != ""
  {
  }

  /**
   What a grant covers: one simple command, whose words after the program stay inside
   the folder; an exact grant, only that line; a family grant, only lines that start
   with the family's one to three words.
   */
  lemma CoversNoMore(g: BashGrant, command: string, cwd: string, paths: Paths)
    requires Covers(g, command, cwd, paths)
    ensures var f := Fields(command);
            && f != [] && (forall i :: 1 <= i < |f| ==> StaysInside(f[i]))
            && (g.command != "" ==> f == Fields(g.command))
            && (g.command == "" ==> 1 <= |Fields(g.family)| <= 3 && Fields(g.family) <= f)
            && (g.folder != "" ==> paths.within(paths.clean(cwd), paths.clean(g.folder)))
  {
    CommandFieldsAre(command);
    FieldsOfTrimmed(command);
    if g.command == "" {
      FamilyIsFirstWords(command);
    }
    hide FamilyOf, Fields, TrimSpace, StaysInside, CommandFields;
  }

  /** A family grant that covers a line covers every shorter line down to the family itself. */
  lemma FamilyCoversShorter(g: BashGrant, command: string, cwd: string, paths: Paths, m: nat)
    requires Covers(g, command, cwd, paths) && g.command == ""
    requires |Fields(g.family)| <= m <= |Fields(command)|
    ensures Covers(g, Join(Fields(command)[..m]), cwd, paths)
  {
    FamilyIsFirstWords(command);
    FamilyOfShorter(command, m);
    CommandFieldsAre(command);
    CommandFieldsFront(command, m);
    hide FamilyOf, Fields, CommandFields;
  }
}
