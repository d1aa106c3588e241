/**
 * The remote fallback executor (server/src/services/pistonRunner.ts): a
 * request to the public Piston service and the decision chain that turns
 * its reply into an ExecutionResult. The HTTP exchange itself is an input:
 * the reply is whatever `fetch`, `text()` and `json()` settled to.
 */
module PistonRunner {
  import opened Options
  import opened Strings
  import opened Types
  import DockerRunner

  /** A Piston runtime: the service's own language name and version. */
  datatype Runtime = Runtime(language: string, version: string)

  /** PISTON_LANGUAGE_MAP, looked up by the identifier the caller passes. */
  function RuntimeFor(id: string): Option<Runtime> {
    if id == "javascript" then Some(Runtime("javascript", "18.15.0"))
    else if id == "python" then Some(Runtime("python", "3.10.0"))
    else if id == "java" then Some(Runtime("java", "15.0.2"))
    else if id == "cpp" then Some(Runtime("c++", "10.2.0"))
    else None
  }

  /** The map covers exactly the registry: every registered language has a
      runtime and nothing else does. Piston names each language as the
      registry does, except C++. */
  lemma RuntimeMapMatchesRegistry(id: string)
    ensures RuntimeFor(id).Some? <==> FromId(id).Some?
    ensures RuntimeFor(id).Some? && id != "cpp" ==> RuntimeFor(id).value.language == id
    ensures id == "cpp" ==> RuntimeFor(id) == Some(Runtime("c++", "10.2.0"))
  {
  }

  /** getFileName: the name the code is uploaded under. */
  function UploadName(id: string): string {
    if id == "javascript" then "index.js"
    else if id == "python" then "main.py"
    else if id == "java" then "Main.java"
    else if id == "cpp" then "main.cpp"
    else "main.txt"
  }

  /** The extension that tells both executors which toolchain a file is
      for. */
  function Extension(l: Language): string {
    match l
    case JavaScript => ".js"
    case Python => ".py"
    case Cpp => ".cpp"
    case Java => ".java"
  }

  /** The upload name falls back to `main.txt` exactly for unregistered
      identifiers; for a registered language it carries the same extension
      as the file the sandbox writes, and for the compiled languages it is
      the very same name. */
  lemma UploadNameMatchesRegistry(id: string)
    ensures UploadName(id) == "main.txt" <==> FromId(id).None?
    ensures FromId(id).Some? ==>
      var l := FromId(id).value;
      EndsWith(UploadName(id), Extension(l)) && EndsWith(Config(l).fileName, Extension(l))
    ensures FromId(id).Some? && IsCompiled(FromId(id).value) ==>
      UploadName(id) == Config(FromId(id).value).fileName
  {
    match FromId(id)
    case None =>
    case Some(l) =>
      FromIdNamesLanguage(id);
      UploadNameOf(l);
  }

  /** The upload name of one registered language, against the registry. */
  lemma UploadNameOf(l: Language)
    ensures UploadName(l.Id()) != "main.txt"
    ensures EndsWith(UploadName(l.Id()), Extension(l)) && EndsWith(Config(l).fileName, Extension(l))
    ensures IsCompiled(l) ==> UploadName(l.Id()) == Config(l).fileName
  {
    match l
    case JavaScript => UploadEndsWith(l, "index.js", "script.js", ".js");
    case Python => UploadEndsWith(l, "main.py", "script.py", ".py");
    case Cpp => UploadEndsWith(l, "main.cpp", "main.cpp", ".cpp");
    case Java => UploadEndsWith(l, "Main.java", "Main.java", ".java");
  }

  lemma UploadEndsWith(l: Language, upload: string, file: string, ext: string)
    requires UploadName(l.Id()) == upload && Config(l).fileName == file && Extension(l) == ext
    requires |ext| <= |upload| && |ext| <= |file|
    requires forall k :: 0 <= k < |ext| ==> upload[|upload| - |ext| + k] == ext[k]
    requires forall k :: 0 <= k < |ext| ==> file[|file| - |ext| + k] == ext[k]
    ensures EndsWith(UploadName(l.Id()), Extension(l)) && EndsWith(Config(l).fileName, Extension(l))
  {
    EndsWithChars(upload, ext);
    EndsWithChars(file, ext);
  }

  /** The body posted to `/execute`. */
  datatype UploadFile = UploadFile(name: string, content: string)
  datatype Request = Request(
    language: string,
    version: string,
    files: seq<UploadFile>,
    stdin: string,
    args: seq<string>,
    compileTimeout: int,
    runTimeout: int,
    compileMemoryLimit: int,
    runMemoryLimit: int)

  const PistonTimeout: int := 10000
  /** Piston's "no limit" memory setting. */
  const Unlimited: int := -1

  /** `input || ''` on an optional string. */
  function OrEmpty(s: Option<string>): (r: string)
    ensures s.Some? ==> r == s.value
    ensures s.None? ==> r == ""
  {
    if Truthy(s) then s.value else ""
  }

  function BuildRequest(runtime: Runtime, id: string, code: string, input: Option<string>): (r: Request)
    ensures r.language == runtime.language && r.version == runtime.version
    ensures r.files == [UploadFile(UploadName(id), code)]
    ensures r.stdin == input.GetOr("")
    ensures r.args == []
    ensures r.compileTimeout == r.runTimeout == PistonTimeout
    ensures r.compileMemoryLimit == r.runMemoryLimit == Unlimited
  {
    Request(runtime.language, runtime.version, [UploadFile(UploadName(id), code)],
      OrEmpty(input), [], PistonTimeout, PistonTimeout, Unlimited, Unlimited)
  }

  /** One phase of a Piston run. Piston reports a null exit code when the
      process was killed by a signal, and any field may be missing from the
      JSON, so each is optional. */
  datatype Phase = Phase(
    stdout: Option<string>,
    stderr: Option<string>,
    code: Option<int>,
    output: Option<string>)

  /** The parsed body: either phase may be absent. */
  datatype Response = Response(compile: Option<Phase>, run: Option<Phase>)

  /** How the `fetch` settled: it threw, or an HTTP reply came back whose
      `text()` and `json()` each return or throw. */
  datatype Reply =
    | TransportFailure(thrown: Thrown)
    | HttpReply(status: nat, text: Outcome<string>, body: Outcome<Response>)

  /** `response.ok`. */
  predicate OkStatus(status: nat) {
    200 <= status <= 299
  }

  /** The first non-empty string of a `||` chain, else the fallback. */
  function FirstNonEmpty(options: seq<Option<string>>, fallback: string): (r: string)
    ensures r == fallback || exists i :: 0 <= i < |options| && Truthy(options[i]) && r == options[i].value
    ensures r != fallback ==> r != ""
  {
    if options == [] then fallback
    else if Truthy(options[0]) then options[0].value
    else FirstNonEmpty(options[1..], fallback)
  }

  const CompileFailed: string := "Compilation failed"
  const NoRunResult: string := "No execution result returned"

  /** A compile phase that exists and did not exit with code 0 (a null
      code counts as non-zero). */
  predicate CompileFailedIn(r: Response) {
    r.compile.Some? && r.compile.value.code != Some(0)
  }

  /** The decision chain over a parsed body, from the compile check on. */
  function Interpret(r: Response, elapsed: int): (result: ExecutionResult)
    ensures result.executionTime == elapsed
    ensures CompileFailedIn(r) ==>
      var c := r.compile.value;
      result == ExecutionResult(false, OrEmpty(c.output),
        Some(FirstNonEmpty([c.stderr, c.output], CompileFailed)), elapsed)
    ensures !CompileFailedIn(r) && r.run.None? ==> result == Failure(NoRunResult, elapsed)
    ensures !CompileFailedIn(r) && r.run.Some? ==>
      result.success == (r.run.value.code == Some(0))
      && result.output == OrEmpty(r.run.value.stdout)
      && result.error == NonEmpty(OrEmpty(r.run.value.stderr))
  {
    if CompileFailedIn(r) then
      var c := r.compile.value;
      ExecutionResult(false, OrEmpty(c.output), Some(FirstNonEmpty([c.stderr, c.output], CompileFailed)), elapsed)
    else
      match r.run
      case None => Failure(NoRunResult, elapsed)
      case Some(run) =>
        var stdout := OrEmpty(run.stdout);
        var stderr := OrEmpty(run.stderr);
        ExecutionResult(run.code == Some(0), stdout, NonEmpty(stderr), elapsed)
  }

  function ServiceError(status: nat, text: string): string {
    "Execution service error: " + NatToString(status) + " - " + text
  }

  function TransportError(thrown: Thrown): string {
    "Failed to execute code: " + MessageOf(thrown, UnknownError)
  }

  function Unsupported(id: string): string {
    "Language " + id + " is not supported by the fallback executor"
  }

  /** What one call produced: the result and the request it posted, if
      any. */
  datatype Run = Run(result: ExecutionResult, posted: Option<Request>)

  /** executeWithPiston. Every way the exchange can settle, including a
      throw from `fetch`, `text()` or `json()`, ends in a result: nothing
      is rethrown. */
  function ExecuteWithPiston(code: string, id: string, input: Option<string>, reply: Reply, elapsed: int): (run: Run)
    ensures run.result.executionTime == elapsed
    ensures run.posted.Some? <==> RuntimeFor(id).Some?
    ensures run.posted.Some? ==> run.posted.value == BuildRequest(RuntimeFor(id).value, id, code, input)
    ensures RuntimeFor(id).None? ==> run.result == Failure(Unsupported(id), elapsed)
    ensures RuntimeFor(id).Some? && reply.TransportFailure? ==>
      run.result == Failure(TransportError(reply.thrown), elapsed)
    ensures RuntimeFor(id).Some? && reply.HttpReply? && !OkStatus(reply.status) ==>
      run.result == Failure(match reply.text
        case Returned(text) => ServiceError(reply.status, text)
        case Threw(t) => TransportError(t), elapsed)
    ensures RuntimeFor(id).Some? && reply.HttpReply? && OkStatus(reply.status) ==>
      run.result == match reply.body
        case Returned(response) => Interpret(response, elapsed)
        case Threw(t) => Failure(TransportError(t), elapsed)
  {
    match RuntimeFor(id)
    case None => Run(Failure(Unsupported(id), elapsed), None)
    case Some(runtime) =>
      var request := BuildRequest(runtime, id, code, input);
      var result := match reply
        case TransportFailure(t) => Failure(TransportError(t), elapsed)
        case HttpReply(status, text, body) =>
          if !OkStatus(status) then
            match text
            case Returned(t) => Failure(ServiceError(status, t), elapsed)
            case Threw(t) => Failure(TransportError(t), elapsed)
          else
            match body
            case Returned(response) => Interpret(response, elapsed)
            case Threw(t) => Failure(TransportError(t), elapsed);
      Run(result, Some(request))
  }

  /** The result is a success exactly when the service answered with an ok
      status and a parseable body, no compile phase failed, and a run phase
      exited with code 0; what the program wrote to stderr plays no part. */
  lemma SuccessCharacterised(code: string, id: string, input: Option<string>, reply: Reply, elapsed: int)
    ensures ExecuteWithPiston(code, id, input, reply, elapsed).result.success <==>
      RuntimeFor(id).Some? && reply.HttpReply? && OkStatus(reply.status) && reply.body.Returned?
      && !CompileFailedIn(reply.body.value) && reply.body.value.run.Some?
      && reply.body.value.run.value.code == Some(0)
  {
  }

  /** A failure carries a non-empty error message, with one exception: a
      run phase that exits non-zero (or is killed) without writing to
      stderr fails silently. */
  lemma FailureExplained(code: string, id: string, input: Option<string>, reply: Reply, elapsed: int)
    ensures var r := ExecuteWithPiston(code, id, input, reply, elapsed).result;
      !r.success && (r.error.None? || r.error.value == "") ==>
        reply.HttpReply? && reply.body.Returned? && reply.body.value.run.Some?
        && reply.body.value.run.value.code != Some(0)
        && OrEmpty(reply.body.value.run.value.stderr) == ""
  {
  }

  /** The output text is the program's own stdout, or the compiler's
      output on a failed compile, and is empty on every other path. */
  lemma OutputOrigin(code: string, id: string, input: Option<string>, reply: Reply, elapsed: int)
    ensures var r := ExecuteWithPiston(code, id, input, reply, elapsed).result;
      r.output != "" ==>
        reply.HttpReply? && reply.body.Returned? &&
        var resp := reply.body.value;
        if CompileFailedIn(resp) then r.output == resp.compile.value.output.value
        else resp.run.Some? && r.output == resp.run.value.stdout.value
  {
  }

  /** The two executors judge the same run differently: Piston reports a
      run that exits 0 after writing to stderr as a success, the sandbox
      reports it as a failure. */
  lemma BackendsDisagreeOnStderr(stdout: string, stderr: string, elapsed: int)
    requires stderr != ""
    ensures Interpret(Response(None, Some(Phase(Some(stdout), Some(stderr), Some(0), None))), elapsed).success
    ensures !DockerRunner.CompletionResult(0, stdout, stderr, elapsed).success
  {
  }

  /** checkPistonHealth: the runtimes endpoint answered with an ok status;
      a throw from `fetch` counts as unhealthy. */
  function PistonHealthy(probe: Outcome<nat>): (healthy: bool)
    ensures healthy ==> probe.Returned?
    ensures probe.Returned? ==> (healthy <==> OkStatus(probe.value))
  {
    match probe
    case Returned(status) => OkStatus(status)
    case Threw(_) => false
  }
}
