/**
 * The Docker backend's job preparation and its result and cleanup rules
 * (executeInDocker, removeContainer and checkDockerHealth in
 * server/src/services/dockerRunner.ts; server/dist/services/dockerRunner.js
 * is the same code compiled).
 *
 * The daemon is not modelled. What each daemon call does (whether the image
 * is present, whether a call throws, the exit status, the log bytes, whether
 * the timer fires first) is an input, a `DockerEnv`; the runner's decisions
 * on those outcomes are modelled exactly, and the calls it makes are
 * returned as a trace of events.
 */
module DockerRunner {
  import opened Options
  import opened Strings
  import opened Types
  import opened DockerLogs

  // The Java class-name extractor: `code.match(/public\s+class\s+(\w+)/)`.

  /** The end of the run of `\s` characters that starts at `i`. */
  function SkipSpaces(s: string, i: nat): (j: nat)
    requires i <= |s|
    ensures i <= j <= |s|
    ensures forall k :: i <= k < j ==> IsSpace(s[k])
    ensures j < |s| ==> !IsSpace(s[j])
    decreases |s| - i
  {
    if i < |s| && IsSpace(s[i]) then SkipSpaces(s, i + 1) else i
  }

  /** The end of the run of `\w` characters that starts at `i`. */
  function SkipWord(s: string, i: nat): (j: nat)
    requires i <= |s|
    ensures i <= j <= |s|
    ensures forall k :: i <= k < j ==> IsWordChar(s[k])
    ensures j < |s| ==> !IsWordChar(s[j])
    decreases |s| - i
  {
    if i < |s| && IsWordChar(s[i]) then SkipWord(s, i + 1) else i
  }

  predicate IsWord(w: string) {
    w != [] && forall k :: 0 <= k < |w| ==> IsWordChar(w[k])
  }

  /** The captured class name when the pattern matches at position `i`.
      Both `\s+` runs are followed by a letter that is not `\s`, and
      nothing follows the greedy `\w+`, so a match at `i` takes the whole
      space runs and the whole word run: no other way through the pattern
      succeeds. */
  function MatchAt(s: string, i: nat): (r: Option<string>)
    requires i <= |s|
    ensures r.Some? ==> IsWord(r.value)
  {
    if !OccursAt(s, "public", i) then None
    else
      var afterPublic := i + 6;
      var classAt := SkipSpaces(s, afterPublic);
      if classAt == afterPublic || !OccursAt(s, "class", classAt) then None
      else
        var afterClass := classAt + 5;
        var nameAt := SkipSpaces(s, afterClass);
        var nameEnd := SkipWord(s, nameAt);
        if nameAt == afterClass || nameEnd == nameAt then None
        else Some(s[nameAt..nameEnd])
  }

  /** The leftmost position at or after `from` where the pattern matches. */
  function FindClass(s: string, from: nat): (r: Option<nat>)
    requires from <= |s|
    ensures r.Some? ==> from <= r.value <= |s| && MatchAt(s, r.value).Some?
    ensures r.Some? ==> forall j :: from <= j < r.value ==> MatchAt(s, j).None?
    ensures r.None? ==> forall j :: from <= j <= |s| ==> MatchAt(s, j).None?
    decreases |s| - from
  {
    if MatchAt(s, from).Some? then Some(from)
    else if from == |s| then None
    else FindClass(s, from + 1)
  }

  /** `classMatch[1]` when the code matches, nothing otherwise. */
  function ClassName(code: string): (r: Option<string>)
    ensures r.Some? ==> IsWord(r.value)
  {
    match FindClass(code, 0)
    case None => None
    case Some(i) => MatchAt(code, i)
  }

  /** `SkipSpaces` stops exactly at the end of a space run. */
  lemma SpacesEndAt(s: string, i: nat, j: nat)
    requires i <= j <= |s|
    requires forall k :: i <= k < j ==> IsSpace(s[k])
    requires j == |s| || !IsSpace(s[j])
    ensures SkipSpaces(s, i) == j
  {
  }

  /** `SkipWord` stops exactly at the end of a word run. */
  lemma WordEndsAt(s: string, i: nat, j: nat)
    requires i <= j <= |s|
    requires forall k :: i <= k < j ==> IsWordChar(s[k])
    requires j == |s| || !IsWordChar(s[j])
    ensures SkipWord(s, i) == j
  {
  }

  /** The pattern's meaning at one position: `public` at `at`, a non-empty
      space run up to `c`, `class` at `c`, a non-empty space run up to `n`,
      and a non-empty word run from `n` to `e` that the next character does
      not continue. Such a text matches at `at` and captures `s[n..e]`. */
  lemma MatchesAt(s: string, at: nat, c: nat, n: nat, e: nat)
    requires at + 6 < c && c + 5 < n < e <= |s|
    requires OccursAt(s, "public", at) && OccursAt(s, "class", c)
    requires forall k :: at + 6 <= k < c ==> IsSpace(s[k])
    requires forall k :: c + 5 <= k < n ==> IsSpace(s[k])
    requires forall k :: n <= k < e ==> IsWordChar(s[k])
    requires e == |s| || !IsWordChar(s[e])
    ensures MatchAt(s, at) == Some(s[n..e])
  {
    assert s[c] == s[c..c + 5][0] == 'c';
    SpacesEndAt(s, at + 6, c);
    assert IsWordChar(s[n]) && !IsSpace(s[n]);
    SpacesEndAt(s, c + 5, n);
    WordEndsAt(s, n, e);
  }

  /** The first declaration wins when nothing before it can start a match
      (no `p` precedes it): its class name is the one extracted. */
  lemma FirstDeclarationNamesClass(pre: string, name: string, post: string)
    requires 'p' !in pre && IsWord(name)
    requires post == [] || !IsWordChar(post[0])
    ensures ClassName(pre + "public class " + name + post) == Some(name)
  {
    var rest := name + post;
    var s := pre + "public class " + rest;
    SeqAssoc(pre + "public class ", name, post);
    var at := |pre|;
    DeclarationAt(pre, rest);
    var n, e := at + 13, at + 13 + |name|;
    assert s[n..] == rest;
    forall k | n <= k < e ensures IsWordChar(s[k]) {
      assert s[k] == s[n..][k - n] == name[k - n];
    }
    assert e < |s| ==> s[e] == s[n..][|name|] == post[0];
    MatchesAt(s, at, at + 7, n, e);
    assert s[n..e] == s[n..][..|name|] == name;
    NoMatchBefore(pre, "public class " + rest);
    SeqAssoc(pre, "public class ", rest);
    LeftmostMatch(s, 0, at);
  }

  /** The keyword layout of `public class ` placed behind `pre`. */
  lemma DeclarationAt(pre: string, rest: string)
    ensures var s := pre + "public class " + rest;
      && OccursAt(s, "public", |pre|) && OccursAt(s, "class", |pre| + 7)
      && |pre| + 13 <= |s| && IsSpace(s[|pre| + 6]) && IsSpace(s[|pre| + 12])
      && s[|pre| + 13..] == rest
  {
    var s := pre + "public class " + rest;
    var at := |pre|;
    assert s[at..at + 6] == "public" by {
      forall k | 0 <= k < 6 ensures s[at + k] == "public"[k] {
        assert s[at + k] == "public class "[k];
      }
    }
    assert s[at + 6] == ' ';
    assert s[at + 7..at + 12] == "class" by {
      forall k | 0 <= k < 5 ensures s[at + 7 + k] == "class"[k] {
        assert s[at + 7 + k] == "public class "[7 + k];
      }
    }
    assert s[at + 12] == ' ';
  }

  /** Nothing in a prefix without `p` can start a match. */
  lemma NoMatchBefore(pre: string, rest: string)
    requires 'p' !in pre
    ensures forall j :: 0 <= j < |pre| ==> MatchAt(pre + rest, j).None?
  {
    var s := pre + rest;
    forall j | 0 <= j < |pre| ensures MatchAt(s, j).None? {
      assert s[j] == pre[j] != 'p';
      assert j + 6 <= |s| ==> s[j..j + 6][0] == s[j];
    }
  }

  /** `FindClass` returns a position where the pattern matches and before
      which it matches nowhere. */
  lemma LeftmostMatch(s: string, from: nat, i: nat)
    requires from <= i <= |s| && MatchAt(s, i).Some?
    requires forall j :: from <= j < i ==> MatchAt(s, j).None?
    ensures FindClass(s, from) == Some(i)
  {
    var r := FindClass(s, from);
    assert r.Some?;
    assert !(r.value < i) && !(i < r.value);
  }

  /** The file the code is written to: `<Name>.java` for Java code that
      declares a public class, the registry's file name otherwise. */
  function SourceFileName(language: Language, code: string): string {
    if language == Java then
      match ClassName(code)
      case Some(name) => name + ".java"
      case None => Config(language).fileName
    else Config(language).fileName
  }

  /** The command run after the code is written: compile `&&` run for the
      compiled languages, with `javac <file>` and `java <file without
      .java>` for Java; the run command alone otherwise. */
  function ShellCommand(language: Language, fileName: string): string {
    var config := Config(language);
    if config.compileCmd.Some? then
      var compileCmd := if language == Java then "javac " + fileName else config.compileCmd.value;
      var runCmd := if language == Java then "java " + ReplaceFirst(fileName, ".java", "") else config.runCmd;
      compileCmd + " && " + runCmd
    else config.runCmd
  }

  /** The registry's own commands, chained the way the runner chains them. */
  function RegistryCommand(config: LanguageConfig): string {
    match config.compileCmd
    case Some(compile) => compile + " && " + config.runCmd
    case None => config.runCmd
  }

  /** Java code is written to the file named after its public class and
      that class is the one run; without a public class the file is
      Main.java and Main runs. */
  lemma JavaRunsDeclaredClass(code: string)
    ensures var stem := ClassName(code).GetOr("Main");
      SourceFileName(Java, code) == stem + ".java"
      && ShellCommand(Java, SourceFileName(Java, code)) == "javac " + SourceFileName(Java, code) + " && " + ("java " + stem)
  {
    var stem := ClassName(code).GetOr("Main");
    assert '.' !in stem by {
      if ClassName(code).Some? {
        assert IsWord(stem);
        assert forall k :: 0 <= k < |stem| ==> stem[k] != '.';
      } else {
        assert stem == "Main";
      }
    }
    assert SourceFileName(Java, code) == stem + ".java";
    JavaCommand(stem);
  }

  /** Whenever no class name overrides the file, the runner's command is
      exactly the registry's compile and run commands. */
  lemma CommandFromRegistry(language: Language, code: string)
    requires language != Java || ClassName(code).None?
    ensures SourceFileName(language, code) == Config(language).fileName
    ensures ShellCommand(language, SourceFileName(language, code)) == RegistryCommand(Config(language))
  {
    if language == Java {
      JavaMainCommand();
    }
  }

  /** The Java commands built from the default file name are the
      registry's own. */
  lemma JavaMainCommand()
    ensures ShellCommand(Java, "Main.java") == RegistryCommand(Config(Java))
  {
    JavaCommand("Main");
    MainLiterals();
  }

  lemma MainLiterals()
    ensures "Main" + ".java" == "Main.java"
    ensures "javac " + ("Main" + ".java") + " && " + ("java " + "Main") == "javac Main.java" + " && " + "java Main"
  {
    assert "java " + "Main" == "java Main";
  }

  /** For a file `<stem>.java` the commands are `javac <stem>.java` and
      `java <stem>`. */
  lemma JavaCommand(stem: string)
    requires '.' !in stem
    ensures ShellCommand(Java, stem + ".java") == "javac " + (stem + ".java") + " && " + ("java " + stem)
  {
    ReplaceUniqueSuffix(stem, ".java");
  }

  const HeredocMarker: string := "CODEEOF"

  function HeredocHeader(fileName: string): string {
    "cat > " + fileName + " << 'CODEEOF'"
  }

  /** The script given to `sh -c`: a quoted heredoc writes the code to the
      file, then the command runs. */
  function ShellScript(fileName: string, code: string, cmd: string): string {
    HeredocHeader(fileName) + "\n" + code + "\n" + HeredocMarker + "\n" + cmd
  }

  /** The script's lines: the header, the code's own lines, the end
      marker, then the command's lines. */
  lemma ScriptLines(fileName: string, code: string, cmd: string)
    requires '\n' !in fileName
    ensures Split(ShellScript(fileName, code, cmd), '\n')
      == [HeredocHeader(fileName)] + (Split(code, '\n') + [HeredocMarker] + Split(cmd, '\n'))
  {
    var header := HeredocHeader(fileName);
    assert '\n' !in header;
    SplitSingle(header, '\n');
    SplitSingle(HeredocMarker, '\n');
    SplitAround(header, code, '\n');
    SplitAround(header + "\n" + code, HeredocMarker, '\n');
    SplitAround(header + "\n" + code + "\n" + HeredocMarker, cmd, '\n');
    SeqAssoc4([header], Split(code, '\n'), [HeredocMarker], Split(cmd, '\n'));
  }

  /** The lines a heredoc feeds to `cat`: those before the first line that
      equals the marker. */
  function TakeUntil(lines: seq<string>, marker: string): (r: seq<string>)
    ensures |r| <= |lines| && r == lines[..|r|]
    ensures marker !in r
    ensures |r| < |lines| ==> lines[|r|] == marker
  {
    if lines == [] || lines[0] == marker then []
    else [lines[0]] + TakeUntil(lines[1..], marker)
  }

  /** The body lines as the shell hands them to `cat`: each line keeps
      the newline that ended it in the script. */
  function Terminated(lines: seq<string>): string {
    if lines == [] then "" else lines[0] + "\n" + Terminated(lines[1..])
  }

  /** Terminating every line is joining them and ending the last one. */
  lemma {:induction false} TerminatedJoin(lines: seq<string>)
    requires lines != []
    ensures Terminated(lines) == Join(lines, "\n") + "\n"
  {
    if |lines| > 1 {
      TerminatedJoin(lines[1..]);
      SeqAssoc4(lines[0], "\n", Join(lines[1..], "\n"), "\n");
    }
  }

  /** The text `cat` writes to the file for a given script. */
  function WrittenText(script: string): string {
    Terminated(TakeUntil(Split(script, '\n')[1..], HeredocMarker))
  }

  lemma {:induction false} TakeUntilMarker(xs: seq<string>, marker: string, ys: seq<string>)
    requires marker !in xs
    ensures TakeUntil(xs + [marker] + ys, marker) == xs
  {
    if xs != [] {
      assert (xs + [marker] + ys)[1..] == xs[1..] + [marker] + ys;
      TakeUntilMarker(xs[1..], marker, ys);
    }
  }

  /** The file receives exactly the submitted code followed by one newline
      (the one ending its last line in the script), provided no line of
      the code is the end marker itself. */
  lemma HeredocWritesCode(fileName: string, code: string, cmd: string)
    requires '\n' !in fileName && HeredocMarker !in Split(code, '\n')
    ensures WrittenText(ShellScript(fileName, code, cmd)) == code + "\n"
  {
    ScriptLines(fileName, code, cmd);
    var sc, sm := Split(code, '\n'), Split(cmd, '\n');
    var lines := Split(ShellScript(fileName, code, cmd), '\n');
    assert lines[1..] == sc + [HeredocMarker] + sm;
    TakeUntilMarker(sc, HeredocMarker, sm);
    TerminatedJoin(sc);
  }

  /** A code line equal to the marker ends the file early: the code
      `x\nCODEEOF` is written as the single line `x`, and its second line
      runs as part of the script. */
  lemma HeredocCutShort(cmd: string)
    ensures WrittenText(ShellScript("main.py", "x\nCODEEOF", cmd)) == "x\n"
  {
    assert '\n' !in "main.py";
    assert "x\nCODEEOF" == "x" + "\n" + HeredocMarker;
    HeredocStopsAtMarker("main.py", "x", cmd);
  }

  /** A one-line code followed by a marker line is cut at the marker. */
  lemma HeredocStopsAtMarker(fileName: string, line: string, cmd: string)
    requires '\n' !in fileName && '\n' !in line && line != HeredocMarker
    ensures WrittenText(ShellScript(fileName, line + "\n" + HeredocMarker, cmd)) == line + "\n"
  {
    var code := line + "\n" + HeredocMarker;
    SplitSingle(line, '\n');
    SplitSingle(HeredocMarker, '\n');
    SplitAround(line, HeredocMarker, '\n');
    ScriptLines(fileName, code, cmd);
    var sm := Split(cmd, '\n');
    var lines := Split(ShellScript(fileName, code, cmd), '\n');
    var tail := [line] + [HeredocMarker] + [HeredocMarker] + sm;
    assert Split(code, '\n') == [line] + [HeredocMarker];
    assert lines == [HeredocHeader(fileName)] + tail;
    assert lines[1..] == tail;
    SeqAssoc([line] + [HeredocMarker], [HeredocMarker], sm);
    TakeUntilMarker([line], HeredocMarker, [HeredocMarker] + sm);
    TerminatedJoin([line]);
  }

  // The container the runner asks for.

  datatype HostConfig = HostConfig(
    memory: nat,
    memorySwap: nat,
    cpuPeriod: nat,
    cpuQuota: nat,
    pidsLimit: nat)

  datatype ContainerSpec = ContainerSpec(
    image: string,
    name: string,
    cmd: seq<string>,
    workingDir: string,
    networkDisabled: bool,
    hostConfig: HostConfig,
    attachStdin: bool,
    attachStdout: bool,
    attachStderr: bool,
    openStdin: bool,
    stdinOnce: bool,
    tty: bool)

  const MiB: nat := 1024 * 1024

  /** `codelinka-` and the first eight characters of a fresh UUID. */
  function ContainerName(uuid: string): (name: string)
    ensures StartsWith(name, "codelinka-") && |name| <= 18
    ensures |uuid| >= 8 ==> |name| == 18
  {
    "codelinka-" + (if |uuid| <= 8 then uuid else uuid[..8])
  }

  /** The options passed to `createContainer`. */
  function ContainerSpecFor(language: Language, uuid: string, fileName: string, code: string,
                            cmd: string, input: Option<string>): (spec: ContainerSpec)
    ensures spec.image == Config(language).image && spec.name == ContainerName(uuid)
    ensures spec.cmd == ["sh", "-c", ShellScript(fileName, code, cmd)]
    ensures spec.hostConfig.memory == 128 * MiB && spec.hostConfig.memorySwap == spec.hostConfig.memory
    ensures spec.hostConfig.cpuQuota * 2 == spec.hostConfig.cpuPeriod
    ensures spec.hostConfig.pidsLimit == 64 && spec.networkDisabled && !spec.tty
    ensures spec.attachStdin == spec.openStdin == Truthy(input)
    ensures spec.attachStdout && spec.attachStderr && spec.stdinOnce && spec.workingDir == "/app"
  {
    ContainerSpec(
      Config(language).image,
      ContainerName(uuid),
      ["sh", "-c", ShellScript(fileName, code, cmd)],
      "/app",
      true,
      HostConfig(128 * MiB, 128 * MiB, 100000, 50000, 64),
      Truthy(input), true, true, Truthy(input), true, false)
  }

  // The run itself.

  /** What the daemon does on each call, decided outside the model. A
      `Some` fault is what that call throws. */
  datatype DockerEnv = DockerEnv(
    imagePresent: bool,          // getImage(image).inspect() resolves
    pullFault: Option<Thrown>,   // pull or its progress stream fails
    createFault: Option<Thrown>,
    startFault: Option<Thrown>,
    attachFault: Option<Thrown>,
    timerFires: bool,            // the timeout fires before wait() settles
    wait: Outcome<int>,          // StatusCode, or what wait() threw
    logs: Outcome<seq<Byte>>,
    elapsed: int)                // Date.now() - startTime when the result is built

  /** The daemon calls the job makes, in order, including the one the
      timeout callback makes. */
  datatype Event =
    | PullImage(image: string)
    | CreateContainer(spec: ContainerSpec)
    | StartContainer
    | WriteStdin(data: string)
    | KillContainer
    | WaitContainer
    | ReadLogs
    | RemoveContainer

  /** The container the runner creates for one request. */
  function JobSpec(language: Language, uuid: string, code: string, input: Option<string>): ContainerSpec {
    var fileName := SourceFileName(language, code);
    ContainerSpecFor(language, uuid, fileName, code, ShellCommand(language, fileName), input)
  }

  /** The container exists once the image is there and creation succeeded. */
  predicate ContainerCreated(env: DockerEnv) {
    (env.imagePresent || env.pullFault.None?) && env.createFault.None?
  }

  /** The first setup call that throws, in the order the runner makes
      them: pull (only for a missing image), create, start, and attach (only
      for non-empty input). */
  function SetupFault(env: DockerEnv, input: Option<string>): Option<Thrown> {
    if !env.imagePresent && env.pullFault.Some? then env.pullFault
    else if env.createFault.Some? then env.createFault
    else if env.startFault.Some? then env.startFault
    else if Truthy(input) && env.attachFault.Some? then env.attachFault
    else None
  }

  /** The first call that throws: a setup call, then wait, then the log
      read (which a timeout skips). */
  function FirstFault(env: DockerEnv, input: Option<string>): Option<Thrown> {
    if SetupFault(env, input).Some? then SetupFault(env, input)
    else if env.wait.Threw? then Some(env.wait.thrown)
    else if !env.timerFires && env.logs.Threw? then Some(env.logs.thrown)
    else None
  }

  const TimeoutMessage: string := "Execution timed out (10s limit)"

  /** The result of a run that completed: it succeeded exactly when the
      exit status is 0 and nothing was written to stderr. */
  function CompletionResult(status: int, stdout: string, stderr: string, elapsed: int): (r: ExecutionResult)
    ensures r.success <==> status == 0 && stderr == ""
    ensures r.output == stdout
    ensures r.error.Some? <==> stderr != ""
    ensures r.error.Some? ==> r.error.value == stderr
    ensures r.executionTime == elapsed
  {
    ExecutionResult(status == 0 && stderr == "", stdout, NonEmpty(stderr), elapsed)
  }

  /** A run that exits 0 but writes a warning to stderr still fails. */
  lemma StderrFailsRun(stdout: string, stderr: string, elapsed: int)
    requires stderr != ""
    ensures !CompletionResult(0, stdout, stderr, elapsed).success
  {
  }

  /** A trace while the job runs: nothing removed yet, the job's container
      created once if `container`, no other container created, and stdin
      written only with the request's non-empty input. */
  predicate Pending(trace: seq<Event>, created: Event, container: bool, input: Option<string>) {
    && RemoveContainer !in trace
    && multiset(trace)[created] == (if container then 1 else 0)
    && (forall e :: e in trace && e.CreateContainer? ==> e == created)
    && (forall e :: e in trace && e.WriteStdin? ==> Truthy(input) && e.data == input.value)
  }

  /** The trace ends with the removal. */
  predicate EndsWithRemoval(trace: seq<Event>) {
    trace != [] && trace[|trace| - 1] == RemoveContainer
  }

  /** The trace ends with the removal followed by a kill. */
  predicate EndsWithLateKill(trace: seq<Event>) {
    |trace| >= 2 && trace[|trace| - 2] == RemoveContainer && trace[|trace| - 1] == KillContainer
  }

  /** `wait` throws before the timeout fires. The catch block then removes
      the container, but the timer was never cleared: it fires later and
      calls `kill` on the removed container, whose error it swallows. */
  predicate LateKill(env: DockerEnv, input: Option<string>) {
    SetupFault(env, input).None? && env.wait.Threw? && !env.timerFires
  }

  /** A finished trace: the job's container was created once exactly when
      `container`, no other was created, it was removed as many times as it
      was created, nothing but a late kill follows the removal, and stdin
      was written only with the request's non-empty input. */
  predicate CleanedUp(trace: seq<Event>, created: Event, container: bool, input: Option<string>) {
    && multiset(trace)[created] == (if container then 1 else 0)
    && multiset(trace)[RemoveContainer] == multiset(trace)[created]
    && (RemoveContainer in trace ==> EndsWithRemoval(trace) || EndsWithLateKill(trace))
    && (forall e :: e in trace && e.CreateContainer? ==> e == created)
    && (forall e :: e in trace && e.WriteStdin? ==> Truthy(input) && e.data == input.value)
  }

  lemma PendingStart(created: Event, input: Option<string>)
    ensures Pending([], created, false, input)
  {
  }

  /** A call other than create, remove or a stdin write keeps a trace pending. */
  lemma PendingStep(trace: seq<Event>, e: Event, created: Event, container: bool, input: Option<string>)
    requires Pending(trace, created, container, input)
    requires created.CreateContainer? && !e.CreateContainer? && e != RemoveContainer && !e.WriteStdin?
    ensures Pending(trace + [e], created, container, input)
  {
    assert multiset(trace + [e])[created] == multiset(trace)[created];
  }

  lemma PendingStdin(trace: seq<Event>, created: Event, container: bool, input: Option<string>)
    requires Pending(trace, created, container, input)
    requires created.CreateContainer? && Truthy(input)
    ensures Pending(trace + [WriteStdin(input.value)], created, container, input)
  {
    assert multiset(trace + [WriteStdin(input.value)])[created] == multiset(trace)[created];
  }

  lemma PendingCreate(trace: seq<Event>, created: Event, input: Option<string>)
    requires Pending(trace, created, false, input) && created.CreateContainer?
    ensures Pending(trace + [created], created, true, input)
  {
    assert multiset(trace + [created])[created] == multiset(trace)[created] + 1;
  }

  /** Removing the container, when there is one, finishes a pending trace. */
  lemma PendingClose(trace: seq<Event>, created: Event, container: bool, input: Option<string>)
    requires Pending(trace, created, container, input) && created.CreateContainer?
    ensures container ==> CleanedUp(trace + [RemoveContainer], created, container, input)
    ensures container ==> !EndsWithLateKill(trace + [RemoveContainer])
    ensures !container ==> CleanedUp(trace, created, container, input) && !EndsWithLateKill(trace)
  {
    assert multiset(trace)[RemoveContainer] == 0;
    var closed := trace + [RemoveContainer];
    assert multiset(closed)[created] == multiset(trace)[created];
    assert forall e :: e in closed ==> e in trace || e == RemoveContainer;
  }

  /** The still-armed timer's kill after the removal keeps a trace cleaned up. */
  lemma CleanedUpLateKill(trace: seq<Event>, created: Event, container: bool, input: Option<string>)
    requires CleanedUp(trace, created, container, input) && created.CreateContainer?
    requires EndsWithRemoval(trace)
    ensures CleanedUp(trace + [KillContainer], created, container, input)
    ensures EndsWithLateKill(trace + [KillContainer])
  {
    var killed := trace + [KillContainer];
    assert multiset(killed)[created] == multiset(trace)[created];
    assert multiset(killed)[RemoveContainer] == multiset(trace)[RemoveContainer];
    assert forall e :: e in killed ==> e in trace || e == KillContainer;
  }

  /** The result a container job settles to in a given environment: the
      first fault's message, the timeout message, or the completed run's
      verdict on its demultiplexed logs. */
  function JobResult(env: DockerEnv, input: Option<string>, decode: seq<Byte> -> string): ExecutionResult {
    match FirstFault(env, input)
    case Some(thrown) => Failure(MessageOf(thrown, UnknownError), env.elapsed)
    case None =>
      if env.timerFires then Failure(TimeoutMessage, env.elapsed)
      else CompletionResult(env.wait.value,
        StreamText(Frames(env.logs.value), StdoutStream, decode),
        StreamText(Frames(env.logs.value), StderrStream, decode), env.elapsed)
  }

  /** The container job for one request: the calls it makes and the result
      it returns. */
  method ExecuteInDocker(code: string, language: Language, input: Option<string>, uuid: string,
                         env: DockerEnv, decode: seq<Byte> -> string)
    returns (result: ExecutionResult, trace: seq<Event>)
    ensures CleanedUp(trace, CreateContainer(JobSpec(language, uuid, code, input)), ContainerCreated(env), input)
    ensures EndsWithLateKill(trace) <==> LateKill(env, input)
    ensures ContainerCreated(env) && !LateKill(env, input) ==> EndsWithRemoval(trace)
    ensures FirstFault(env, input).Some? ==>
      result == Failure(MessageOf(FirstFault(env, input).value, UnknownError), env.elapsed)
    ensures FirstFault(env, input).None? && env.timerFires ==>
      result == Failure(TimeoutMessage, env.elapsed)
    ensures FirstFault(env, input).None? && !env.timerFires ==>
      result == CompletionResult(env.wait.value,
        StreamText(Frames(env.logs.value), StdoutStream, decode),
        StreamText(Frames(env.logs.value), StderrStream, decode), env.elapsed)
  {
    ghost var created := CreateContainer(JobSpec(language, uuid, code, input));
    var container, fault;
    trace, container, fault := StartJob(code, language, input, uuid, env, created);
    if fault.Some? {
      result, trace := Abort(fault.value, container, trace, env.elapsed, created, input);
      return;
    }

    result, trace := AwaitJob(container, trace, env, decode, created, input);
  }

  /** The rest of the `try` block once the container runs: the timeout may
      kill it, `wait` settles, and unless the timeout fired the logs are
      read and demultiplexed; the container is removed on every path. When
      `wait` throws first, the timer stays armed and kills the container
      after its removal. */
  method AwaitJob(container: bool, trace: seq<Event>, env: DockerEnv, decode: seq<Byte> -> string,
                  ghost created: Event, ghost input: Option<string>)
    returns (result: ExecutionResult, trace': seq<Event>)
    requires Pending(trace, created, container, input) && created.CreateContainer?
    requires container && SetupFault(env, input).None?
    ensures CleanedUp(trace', created, container, input)
    ensures EndsWithLateKill(trace') <==> LateKill(env, input)
    ensures !LateKill(env, input) ==> EndsWithRemoval(trace')
    ensures result == JobResult(env, input, decode)
  {
    trace' := trace;
    var timedOut := false;
    if env.timerFires {
      timedOut := true;
      PendingStep(trace', KillContainer, created, container, input);
      trace' := trace' + [KillContainer];
    }
    if env.wait.Threw? {
      result, trace' := AbortWait(env.wait.thrown, timedOut, container, trace', env.elapsed, created, input);
      return;
    }
    var status := env.wait.value;
    PendingStep(trace', WaitContainer, created, container, input);
    trace' := trace' + [WaitContainer];

    if timedOut {
      PendingClose(trace', created, container, input);
      trace' := trace' + [RemoveContainer];
      result := Failure(TimeoutMessage, env.elapsed);
      return;
    }

    if env.logs.Threw? {
      result, trace' := Abort(env.logs.thrown, container, trace', env.elapsed, created, input);
      return;
    }
    PendingStep(trace', ReadLogs, created, container, input);
    trace' := trace' + [ReadLogs];
    var stdout, stderr := ParseDockerLogs(env.logs.value, decode);
    PendingClose(trace', created, container, input);
    trace' := trace' + [RemoveContainer];
    result := CompletionResult(status, stdout, stderr, env.elapsed);
  }

  /** The `catch` block reached from `wait`: the container is removed, and
      unless the timeout already fired its still-armed timer kills the
      container afterwards. */
  method AbortWait(thrown: Thrown, timedOut: bool, container: bool, trace: seq<Event>, elapsed: int,
                   ghost created: Event, ghost input: Option<string>)
    returns (result: ExecutionResult, trace': seq<Event>)
    requires Pending(trace, created, container, input) && created.CreateContainer? && container
    ensures CleanedUp(trace', created, container, input)
    ensures EndsWithLateKill(trace') <==> !timedOut
    ensures timedOut ==> EndsWithRemoval(trace')
    ensures result == Failure(MessageOf(thrown, UnknownError), elapsed)
  {
    result, trace' := Abort(thrown, container, trace, elapsed, created, input);
    if !timedOut {
      CleanedUpLateKill(trace', created, container, input);
      trace' := trace' + [KillContainer];
    }
  }

  /** The setup part of the `try` block: pull the image if it is missing,
      create and start the container, and write non-empty input to its
      stdin. It stops at the first call that throws. */
  method StartJob(code: string, language: Language, input: Option<string>, uuid: string,
                  env: DockerEnv, ghost created: Event)
    returns (trace: seq<Event>, container: bool, fault: Option<Thrown>)
    requires created == CreateContainer(JobSpec(language, uuid, code, input))
    ensures fault == SetupFault(env, input)
    ensures container <==> ContainerCreated(env)
    ensures Pending(trace, created, container, input)
  {
    var config := Config(language);
    trace := [];
    container := false;
    fault := None;
    PendingStart(created, input);

    // ensureImage
    if !env.imagePresent {
      if env.pullFault.Some? {
        fault := env.pullFault;
        return;
      }
      PendingStep(trace, PullImage(config.image), created, container, input);
      trace := trace + [PullImage(config.image)];
    }

    var spec := PrepareJob(language, uuid, code, input);
    if env.createFault.Some? {
      fault := env.createFault;
      return;
    }
    PendingCreate(trace, created, input);
    container := true;
    trace := trace + [CreateContainer(spec)];

    if env.startFault.Some? {
      fault := env.startFault;
      return;
    }
    PendingStep(trace, StartContainer, created, container, input);
    trace := trace + [StartContainer];

    if Truthy(input) {
      if env.attachFault.Some? {
        fault := env.attachFault;
        return;
      }
      PendingStdin(trace, created, container, input);
      trace := trace + [WriteStdin(input.value)];
    }
  }

  /** The file name, command and container options for one request. */
  method PrepareJob(language: Language, uuid: string, code: string, input: Option<string>)
    returns (spec: ContainerSpec)
    ensures spec == JobSpec(language, uuid, code, input)
  {
    var config := Config(language);
    var fileName := config.fileName;
    if language == Java {
      var classMatch := ClassName(code);
      if classMatch.Some? {
        fileName := classMatch.value + ".java";
      }
    }
    var cmd := ShellCommand(language, fileName);
    spec := ContainerSpecFor(language, uuid, fileName, code, cmd, input);
  }

  /** The `catch` block: the container is removed if it was created, and the
      thrown message (or `Unknown error`) becomes the result. */
  method Abort(thrown: Thrown, container: bool, trace: seq<Event>, elapsed: int,
               ghost created: Event, ghost input: Option<string>)
    returns (result: ExecutionResult, trace': seq<Event>)
    requires Pending(trace, created, container, input) && created.CreateContainer?
    ensures CleanedUp(trace', created, container, input)
    ensures trace' == if container then trace + [RemoveContainer] else trace
    ensures !EndsWithLateKill(trace')
    ensures container ==> EndsWithRemoval(trace')
    ensures result == Failure(MessageOf(thrown, UnknownError), elapsed)
  {
    PendingClose(trace, created, container, input);
    trace' := trace;
    if container {
      trace' := trace' + [RemoveContainer];
    }
    result := Failure(MessageOf(thrown, UnknownError), elapsed);
  }

  /** `checkDockerHealth`: healthy exactly when the ping does not throw. */
  function DockerHealthy(pingFault: Option<Thrown>): (healthy: bool)
    ensures healthy <==> pingFault.None?
  {
    match pingFault
    case None => true
    case Some(_) => false
  }
}
