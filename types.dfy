/**
 * The language profile registry and the result record every backend
 * returns (server/src/types/index.ts), plus the shape of a value a
 * JavaScript `throw` carries, which several callers turn into a message.
 */
module Types {
  import opened Options
  import opened Strings

  /** The closed set of supported languages. */
  datatype Language = JavaScript | Python | Cpp | Java {

    /** The identifier the registry is keyed by. */
    function Id(): string {
      match this
      case JavaScript => "javascript"
      case Python => "python"
      case Cpp => "cpp"
      case Java => "java"
    }
  }

  /** The registry's keys in declaration order, which is the order
      `Object.keys` lists them in. */
  const Languages: seq<Language> := [JavaScript, Python, Cpp, Java]

  function SupportedIds(): (ids: seq<string>)
    ensures |ids| == |Languages|
    ensures forall i :: 0 <= i < |ids| ==> ids[i] == Languages[i].Id()
  {
    ["javascript", "python", "cpp", "java"]
  }

  /** Registry lookup by identifier. */
  function FromId(id: string): (r: Option<Language>)
    ensures r.Some? <==> id in SupportedIds()
    ensures r.Some? ==> r.value.Id() == id
  {
    if id == "javascript" then Some(JavaScript)
    else if id == "python" then Some(Python)
    else if id == "cpp" then Some(Cpp)
    else if id == "java" then Some(Java)
    else None
  }

  /** Every language is registered exactly once: its identifier leads back
      to it, and no two languages share an identifier. */
  lemma RegistryKeys(l: Language, m: Language)
    ensures FromId(l.Id()) == Some(l)
    ensures l.Id() == m.Id() ==> l == m
    ensures l in Languages
  {
  }

  /** An identifier the registry knows is that language's own identifier. */
  lemma FromIdNamesLanguage(id: string)
    requires FromId(id).Some?
    ensures id == FromId(id).value.Id()
  {
  }

  datatype LanguageConfig = LanguageConfig(
    image: string,
    fileName: string,
    compileCmd: Option<string>,
    runCmd: string,
    timeout: nat)

  /** LANGUAGE_CONFIGS. */
  function Config(l: Language): LanguageConfig {
    match l
    case JavaScript =>
      LanguageConfig("node:20-alpine", "script.js", None, "node script.js", 10000)
    case Python =>
      LanguageConfig("python:3.12-alpine", "script.py", None, "python script.py", 10000)
    case Cpp =>
      LanguageConfig("gcc:13", "main.cpp", Some("g++ -o main main.cpp"), "./main", 15000)
    case Java =>
      LanguageConfig("eclipse-temurin:21", "Main.java", Some("javac Main.java"), "java Main", 30000)
  }

  predicate IsCompiled(l: Language) {
    l == Cpp || l == Java
  }

  /** A compile step exists exactly for the compiled languages; every
      timeout is positive and no interpreted language gets more time than a
      compiled one. */
  lemma RegistryShape(l: Language, m: Language)
    ensures Config(l).compileCmd.Some? <==> IsCompiled(l)
    ensures Config(l).timeout > 0
    ensures IsCompiled(l) && !IsCompiled(m) ==> Config(l).timeout >= Config(m).timeout
  {
  }

  /** The first command the sandbox runs: the compile step when there is one. */
  function FirstCommand(l: Language): string {
    Config(l).compileCmd.GetOr(Config(l).runCmd)
  }

  /** Each profile's first command works on the profile's own source file. */
  lemma FirstCommandNamesSourceFile(l: Language)
    ensures EndsWith(FirstCommand(l), " " + Config(l).fileName)
  {
    CommandSplits(l);
    EndsWithAppend(CommandVerb(l), " " + Config(l).fileName);
  }

  /** The program each first command invokes, with its options. */
  function CommandVerb(l: Language): string {
    match l
    case JavaScript => "node"
    case Python => "python"
    case Cpp => "g++ -o main"
    case Java => "javac"
  }

  lemma CommandSplits(l: Language)
    ensures FirstCommand(l) == CommandVerb(l) + (" " + Config(l).fileName)
  {
    match l
    case JavaScript => LiteralSplits("node", "script.js", "node script.js");
    case Python => LiteralSplits("python", "script.py", "python script.py");
    case Cpp => LiteralSplits("g++ -o main", "main.cpp", "g++ -o main main.cpp");
    case Java => LiteralSplits("javac", "Main.java", "javac Main.java");
  }

  /** A command line is its verb and its file name joined by one space. */
  lemma LiteralSplits(verb: string, file: string, whole: string)
    requires |whole| == |verb| + 1 + |file|
    requires whole[..|verb|] == verb && whole[|verb|] == ' ' && whole[|verb| + 1..] == file
    ensures whole == verb + (" " + file)
  {
    assert whole == whole[..|verb|] + [whole[|verb|]] + whole[|verb| + 1..];
  }

  /** ExecutionResult: what every backend and every rejection returns. */
  datatype ExecutionResult = ExecutionResult(
    success: bool,
    output: string,
    error: Option<string>,
    executionTime: int)

  /** A failed execution that produced no output. */
  function Failure(message: string, executionTime: int): (r: ExecutionResult)
    ensures !r.success && r.output == "" && r.error == Some(message)
  {
    ExecutionResult(false, "", Some(message), executionTime)
  }

  /** What a `catch` block receives: an Error object with a message, or any
      other thrown value. */
  datatype Thrown = ErrorObject(message: string) | OtherValue

  /** The message used when a thrown value is not an Error. */
  const UnknownError: string := "Unknown error"

  /** `err instanceof Error ? err.message : fallback`. */
  function MessageOf(t: Thrown, fallback: string): string {
    match t
    case ErrorObject(m) => m
    case OtherValue => fallback
  }

  /** The settled value of an awaited call: a value, or what it threw. */
  datatype Outcome<+T> = Returned(value: T) | Threw(thrown: Thrown)

  /** JavaScript truthiness of an optional string: present and non-empty. */
  predicate Truthy(s: Option<string>) {
    s.Some? && s.value != ""
  }

  /** `s || undefined` on a string. */
  function NonEmpty(s: string): (r: Option<string>)
    ensures r.Some? <==> s != ""
    ensures r.Some? ==> r.value == s
  {
    if s == "" then None else Some(s)
  }
}
