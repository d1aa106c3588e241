/**
 * The `/api/execute` router: request validation, the choice of executor,
 * and the `/health` and `/languages` summaries. Two versions exist. The
 * TypeScript source (server/src/routes/execute.ts) always runs the Docker
 * sandbox; the compiled build (server/dist/routes/execute.js) caches a
 * Docker health probe for 30 seconds and falls back to Piston when Docker
 * is unavailable.
 */
module ExecuteRoute {
  import opened Options
  import opened Strings
  import opened Types
  import opened DockerLogs
  import DockerRunner
  import PistonRunner

  /** A field of the JSON request body: absent, a string, or some other
      JSON value (number, boolean, object, null). */
  datatype BodyField = Missing | Text(text: string) | OtherJson

  /** The fields `/run` reads. `input` is handed on as it is; the runners
      take it as an optional string. */
  datatype RunBody = RunBody(code: BodyField, language: BodyField, input: Option<string>)

  /** 100 * 1024 characters. */
  const MaxCodeLength: nat := 102400

  const CodeRequired: string := "Code is required and must be a string"
  const CodeTooLong: string := "Code exceeds maximum length of 100KB"

  /** The rejection for an unknown language lists the registry's keys. */
  function LanguageRequired(): string {
    "Language must be one of: " + Join(SupportedIds(), ", ")
  }

  /** What a handler sends: an HTTP status and a result record. */
  datatype Reply = Reply(status: nat, result: ExecutionResult)

  datatype Verdict =
    | Rejected(reply: Reply)
    | Accepted(code: string, language: Language)

  /** A 400 reply: failure, no output, no time spent. */
  function BadRequest(message: string): (r: Reply)
    ensures r.status == 400 && r.result == Failure(message, 0)
  {
    Reply(400, Failure(message, 0))
  }

  predicate CodeValid(f: BodyField) {
    f.Text? && f.text != ""
  }

  predicate LanguageValid(f: BodyField) {
    f.Text? && FromId(f.text).Some?
  }

  /** The guard chain: code first, then language, then length. */
  function Validate(body: RunBody): (v: Verdict)
    ensures v.Accepted? <==>
      CodeValid(body.code) && LanguageValid(body.language) && |body.code.text| <= MaxCodeLength
    ensures v.Accepted? ==>
      v.code == body.code.text && Some(v.language) == FromId(body.language.text)
    ensures v.Rejected? ==>
      v.reply.status == 400 && !v.reply.result.success && v.reply.result.output == ""
      && v.reply.result.executionTime == 0
  {
    if !CodeValid(body.code) then Rejected(BadRequest(CodeRequired))
    else if !LanguageValid(body.language) then Rejected(BadRequest(LanguageRequired()))
    else if |body.code.text| > MaxCodeLength then Rejected(BadRequest(CodeTooLong))
    else Accepted(body.code.text, FromId(body.language.text).value)
  }

  /** The checks short-circuit: a bad code field is reported whatever the
      language, and a bad language is reported whatever the code's length. */
  lemma ValidationOrder(body: RunBody)
    ensures !CodeValid(body.code) ==> Validate(body) == Rejected(BadRequest(CodeRequired))
    ensures CodeValid(body.code) && !LanguageValid(body.language) ==>
      Validate(body) == Rejected(BadRequest(LanguageRequired()))
    ensures CodeValid(body.code) && LanguageValid(body.language) && |body.code.text| > MaxCodeLength ==>
      Validate(body) == Rejected(BadRequest(CodeTooLong))
  {
  }

  /** The empty string is rejected as missing code, and the length bound is
      inclusive: code of exactly 102400 characters passes, one more does
      not. */
  lemma LengthBoundary(code: string, language: Language, input: Option<string>)
    requires code != ""
    ensures var body := RunBody(Text(code), Text(language.Id()), input);
      Validate(body).Accepted? <==> |code| <= MaxCodeLength
    ensures Validate(RunBody(Text(""), Text(language.Id()), input)) == Rejected(BadRequest(CodeRequired))
  {
    RegistryKeys(language, language);
  }

  /** The language message names the four keys in registry order. */
  lemma LanguageMessageText()
    ensures LanguageRequired() == "Language must be one of: javascript, python, cpp, java"
  {
    var ids := SupportedIds();
    assert Join(ids[3..], ", ") == "java";
    assert Join(ids[2..], ", ") == "cpp" + ", " + "java";
    assert Join(ids[1..], ", ") == "python" + ", " + ("cpp" + ", " + "java");
    assert Join(ids, ", ") == "javascript" + ", " + ("python" + ", " + ("cpp" + ", " + "java"));
    MessageLiteral();
  }

  lemma MessageLiteral()
    ensures "Language must be one of: " + ("javascript" + ", " + ("python" + ", " + ("cpp" + ", " + "java")))
      == "Language must be one of: javascript, python, cpp, java"
  {
  }

  /** `/run` in the TypeScript source: every valid request goes to the
      Docker sandbox and its result is sent with status 200. */
  method RunTs(body: RunBody, uuid: string, env: DockerRunner.DockerEnv, decode: seq<Byte> -> string)
    returns (reply: Reply, ran: bool)
    ensures ran <==> Validate(body).Accepted?
    ensures !ran ==> reply == Validate(body).reply
    ensures ran ==> reply == Reply(200, DockerRunner.JobResult(env, body.input, decode))
  {
    var verdict := Validate(body);
    if verdict.Rejected? {
      return verdict.reply, false;
    }
    var result, _ := DockerRunner.ExecuteInDocker(verdict.code, verdict.language, body.input, uuid, env, decode);
    reply, ran := Reply(200, result), true;
  }

  /** The cache's contents: the last probe's answer, if any, and when it was
      taken. */
  datatype CacheState = CacheState(available: Option<bool>, checkedAt: int)

  /** DOCKER_CHECK_INTERVAL, in milliseconds. */
  const CheckInterval: int := 30000

  /** A cached answer is served when there is one and it is younger than
      the interval. */
  predicate Fresh(s: CacheState, now: int) {
    s.available.Some? && now - s.checkedAt < CheckInterval
  }

  /** The outcome of one availability query. */
  datatype Lookup = Lookup(next: CacheState, answer: bool, probed: bool)

  /** isDockerAvailable as a function of the cache, the clock and what the
      probe would answer. */
  function CacheStep(s: CacheState, now: int, probe: bool): (l: Lookup)
    ensures l.probed <==> !Fresh(s, now)
    ensures l.next.available == Some(l.answer)
    ensures !l.probed ==> l.next == s
    ensures l.probed ==> l.next == CacheState(Some(probe), now)
  {
    if Fresh(s, now) then Lookup(s, s.available.value, false)
    else Lookup(CacheState(Some(probe), now), probe, true)
  }

  const InitialCache: CacheState := CacheState(None, 0)

  /** The first query always probes, whatever the clock reads. */
  lemma FirstQueryProbes(now: int, probe: bool)
    ensures CacheStep(InitialCache, now, probe) == Lookup(CacheState(Some(probe), now), probe, true)
  {
  }

  /** One query: when it happened and what the probe would have answered. */
  datatype Query = Query(now: int, probe: bool)

  /** Sequential queries against the cache: the final state, the answers
      and how many probes ran. */
  function Replay(s: CacheState, queries: seq<Query>): (CacheState, seq<bool>, nat)
    decreases |queries|
  {
    if queries == [] then (s, [], 0)
    else
      var l := CacheStep(s, queries[0].now, queries[0].probe);
      var (last, answers, probes) := Replay(l.next, queries[1..]);
      (last, [l.answer] + answers, probes + (if l.probed then 1 else 0))
  }

  /** After a probe at time t, every query made in [t, t + 30000) is
      answered from the cache: no probe runs, the answer is the probed
      value, and the cache is left as it was. */
  lemma {:induction false} CachedWindow(t: int, v: bool, queries: seq<Query>)
    requires forall i :: 0 <= i < |queries| ==> t <= queries[i].now < t + CheckInterval
    ensures var (last, answers, probes) := Replay(CacheState(Some(v), t), queries);
      probes == 0 && last == CacheState(Some(v), t) && |answers| == |queries|
      && forall i :: 0 <= i < |answers| ==> answers[i] == v
    decreases |queries|
  {
    if queries != [] {
      CachedWindow(t, v, queries[1..]);
    }
  }

  /** Once the interval has passed the next query probes again and adopts
      the new answer, even when the old one said Docker was up. */
  lemma StaleAnswerReprobed(t: int, v: bool, now: int, probe: bool)
    requires now >= t + CheckInterval
    ensures CacheStep(CacheState(Some(v), t), now, probe) == Lookup(CacheState(Some(probe), now), probe, true)
  {
  }

  /** The module-level cache of the compiled router. */
  class HealthCache {
    var dockerAvailable: Option<bool>
    var lastDockerCheck: int

    function State(): CacheState
      reads this
    {
      CacheState(dockerAvailable, lastDockerCheck)
    }

    constructor()
      ensures State() == InitialCache
    {
      dockerAvailable := None;
      lastDockerCheck := 0;
    }

    /** isDockerAvailable. `probe` is what checkDockerHealth would answer
        if it were called; `probed` says whether it was. */
    method IsDockerAvailable(now: int, probe: bool) returns (available: bool, probed: bool)
      modifies this
      ensures Lookup(State(), available, probed) == CacheStep(old(State()), now, probe)
    {
      if dockerAvailable.Some? && now - lastDockerCheck < CheckInterval {
        return dockerAvailable.value, false;
      }
      dockerAvailable := Some(probe);
      lastDockerCheck := now;
      return probe, true;
    }
  }

  datatype Backend = Docker | Piston

  /** `/run` in the compiled build. Validation comes first and leaves the
      cache alone; a valid request queries the cache and goes to Docker
      when it says Docker is up, to Piston otherwise. */
  method RunDist(cache: HealthCache, body: RunBody, now: int, ping: Option<Thrown>,
                 uuid: string, env: DockerRunner.DockerEnv, decode: seq<Byte> -> string,
                 pistonReply: PistonRunner.Reply, pistonElapsed: int)
    returns (reply: Reply, backend: Option<Backend>)
    modifies cache
    ensures Validate(body).Rejected? ==>
      reply == Validate(body).reply && backend.None? && cache.State() == old(cache.State())
    ensures Validate(body).Accepted? ==>
      var l := CacheStep(old(cache.State()), now, DockerRunner.DockerHealthy(ping));
      cache.State() == l.next && reply.status == 200
      && backend == Some(if l.answer then Docker else Piston)
    ensures backend == Some(Docker) ==> reply.result == DockerRunner.JobResult(env, body.input, decode)
    ensures backend == Some(Piston) ==>
      reply.result == PistonRunner.ExecuteWithPiston(body.code.text, body.language.text, body.input,
        pistonReply, pistonElapsed).result
  {
    var verdict := Validate(body);
    if verdict.Rejected? {
      return verdict.reply, None;
    }
    var available, _ := cache.IsDockerAvailable(now, DockerRunner.DockerHealthy(ping));
    if available {
      var result, _ := DockerRunner.ExecuteInDocker(verdict.code, verdict.language, body.input, uuid, env, decode);
      reply, backend := Reply(200, result), Some(Docker);
    } else {
      var run := PistonRunner.ExecuteWithPiston(verdict.code, body.language.text, body.input,
        pistonReply, pistonElapsed);
      reply, backend := Reply(200, run.result), Some(Piston);
    }
  }

  /** A validated request never reaches Piston's unsupported-language
      branch: the registry and the Piston map have the same keys. */
  lemma FallbackAlwaysSupported(body: RunBody, reply: PistonRunner.Reply, elapsed: int)
    requires Validate(body).Accepted?
    ensures PistonRunner.ExecuteWithPiston(body.code.text, body.language.text, body.input, reply, elapsed).posted.Some?
  {
    PistonRunner.RuntimeMapMatchesRegistry(body.language.text);
  }

  /** The `/health` body, without its timestamp. */
  datatype Health = Health(
    status: string,
    docker: bool,
    piston: Option<bool>,
    executor: Option<string>,
    supportedLanguages: seq<string>)

  /** `/health` in the TypeScript source: only Docker counts. */
  function HealthTs(dockerHealthy: bool): (h: Health)
    ensures h.status == "ok" <==> dockerHealthy
    ensures h.status == "ok" || h.status == "degraded"
    ensures h.docker == dockerHealthy && h.piston.None? && h.executor.None?
    ensures h.supportedLanguages == SupportedIds()
  {
    Health(if dockerHealthy then "ok" else "degraded", dockerHealthy, None, None, SupportedIds())
  }

  /** `/health` in the compiled build: healthy when either executor is,
      naming the one `/run` prefers. */
  function HealthDist(dockerHealthy: bool, pistonHealthy: bool): (h: Health)
    ensures h.status == "ok" <==> dockerHealthy || pistonHealthy
    ensures h.status == "ok" || h.status == "degraded"
    ensures h.docker == dockerHealthy && h.piston == Some(pistonHealthy)
    ensures h.executor == Some("none") <==> h.status == "degraded"
    ensures dockerHealthy ==> h.executor == Some("docker")
    ensures !dockerHealthy && pistonHealthy ==> h.executor == Some("piston")
    ensures h.supportedLanguages == SupportedIds()
  {
    var ok := dockerHealthy || pistonHealthy;
    var executor := if dockerHealthy then "docker" else if pistonHealthy then "piston" else "none";
    Health(if ok then "ok" else "degraded", dockerHealthy, Some(pistonHealthy), Some(executor), SupportedIds())
  }

  /** One `/languages` entry. */
  datatype LanguageInfo = LanguageInfo(id: string, timeout: nat, image: string)

  function InfoFor(l: Language): LanguageInfo {
    LanguageInfo(l.Id(), Config(l).timeout, Config(l).image)
  }

  function ListFrom(ls: seq<Language>): (infos: seq<LanguageInfo>)
    ensures |infos| == |ls|
    ensures forall i :: 0 <= i < |ls| ==> infos[i] == InfoFor(ls[i])
  {
    if ls == [] then [] else [InfoFor(ls[0])] + ListFrom(ls[1..])
  }

  /** `/languages`: one entry per registry key, in registry order, with
      that profile's timeout and image. */
  function LanguagesListing(): (infos: seq<LanguageInfo>)
    ensures |infos| == |SupportedIds()|
    ensures forall i :: 0 <= i < |infos| ==>
      infos[i].id == SupportedIds()[i]
      && Some(infos[i]) == Map(FromId(infos[i].id), InfoFor)
  {
    ListingMatchesRegistry();
    ListFrom(Languages)
  }

  lemma ListingMatchesRegistry()
    ensures forall i :: 0 <= i < |Languages| ==>
      ListFrom(Languages)[i].id == SupportedIds()[i]
      && Some(ListFrom(Languages)[i]) == Map(FromId(ListFrom(Languages)[i].id), InfoFor)
  {
    var infos := ListFrom(Languages);
    forall i | 0 <= i < |Languages|
      ensures infos[i].id == SupportedIds()[i] && Some(infos[i]) == Map(FromId(infos[i].id), InfoFor)
    {
      var l := Languages[i];
      RegistryKeys(l, l);
      assert infos[i] == InfoFor(l);
    }
  }

  function Map<A, B>(o: Option<A>, f: A -> B): Option<B> {
    match o
    case None => None
    case Some(a) => Some(f(a))
  }
}
