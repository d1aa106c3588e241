# CodeLinka code execution, modelled in Dafny

CodeLinka is a collaborative coding platform. This project models its code-execution path and the two client-side pieces around it:

- **The server.**
  - The `/api/execute` router validates a request and chooses an executor.
  - The Docker sandbox runner builds a container job. It writes the code into the container through a heredoc, picks the file name and the commands from the language registry (Java uses the declared public class), and enforces the timeout. It also demultiplexes the framed log stream into stdout and stderr, and removes the container on every path.
  - The Piston runner is the remote fallback. It builds the `/execute` request and turns every way the exchange can settle into an `ExecutionResult`.
  - The compiled build's router caches a Docker health probe for 30 seconds and falls back to Piston when Docker is down. Its `/health` and `/languages` summaries are modelled too.
- **The client.**
  - The starter programs.
  - The editor's state hook: console entries around a run, language switching, and the persisted state.
  - The interview screen: the elapsed-time label, the divider clamps, and the question panel. The panel turns a question into editable text and parses the text back.

Modules, one file each:

- `Options` and `Strings`: `Option`, and the JavaScript string operations the source uses (`trim`, `split`, `join`, `replace`, `padStart`, `toString`).
- `Types`: the registry and `ExecutionResult`.
- `DockerLogs`: the log framing and `parseDockerLogs`.
- `DockerRunner`: the sandbox.
- `PistonRunner`: the remote fallback.
- `ExecuteRoute`: both versions of the router.
- `Boilerplate`: the starter programs.
- `UseEditor`: the editor hook.
- `InterviewEditor`: the interview screen.

The Docker daemon, the Piston HTTP service and the clock are not executed. The model takes what each call settles to as an input: a `DockerEnv`, a Piston `Reply`, `elapsed` and `now`. The Docker runner returns the daemon calls it made as a trace of events. The proofs are about the runner's decisions on those outcomes.

## Model

| member | source | states |
|---|---|---|
| Types.SupportedIds | server/src/types/index.ts:24-51 | the supported identifiers are the registry's four keys, in declaration order |
| Types.FromId | server/src/routes/execute.ts:22 | an identifier is accepted exactly when it is one of the registry's keys, and it resolves to the language carrying that identifier |
| Types.RegistryKeys | server/src/types/index.ts:24-51 | every language's identifier leads back to that language, and no two languages share an identifier |
| Types.RegistryShape | server/src/types/index.ts:24-51 | a compile command exists exactly for C++ and Java; every timeout is positive; a compiled language never gets less time than an interpreted one |
| Types.FirstCommandNamesSourceFile | server/src/types/index.ts:24-51 | each profile's first command (the compile step if there is one, else the run step) operates on that profile's own source file |
| Types.Failure | server/src/types/index.ts:9-14 | a failure record has success false, empty output and the given error |
| Types.NonEmpty | server/src/services/dockerRunner.ts:132 | `s \|\| undefined`: present exactly when the string is non-empty, and then equal to it |
| DockerLogs.ReadUInt32BE | server/src/services/dockerRunner.ts:178 | a big-endian read of four bytes is below 2^32 |
| DockerLogs.UInt32BE | server/src/services/dockerRunner.ts:178 | four big-endian bytes encoding a 32-bit length read back as that length |
| DockerLogs.ParseDockerLogs | server/src/services/dockerRunner.ts:169-194 | the offset walk yields, per stream, the concatenation of the decoded payloads of the frames it reads, in order; it stops without error at a short header or an overrunning payload |
| DockerLogs.Consume | server/src/services/dockerRunner.ts:186-190 | consuming a frame appends its payload to its own stream's text and leaves the other stream unchanged |
| DockerLogs.FramesOfEncode | server/src/services/dockerRunner.ts:174-191 | round trip: a stream of whole encoded frames followed by a truncated tail reads back as exactly those frames |
| DockerLogs.FramesFromHolds | server/dist/services/dockerRunner.js:159-181 | from any offset where whole encoded frames lie and no whole frame follows, the walk reads exactly those frames |
| DockerLogs.FrameGoesToItsStream | server/src/services/dockerRunner.ts:186-190 | a type-1 frame adds to stdout only, a type-2 frame to stderr only, and any other type is read and dropped |
| DockerLogs.StreamTextAppend | server/src/services/dockerRunner.ts:174-191 | a stream's text over concatenated frame lists is the concatenation of the texts |
| DockerLogs.EncodeLength | server/src/services/dockerRunner.ts:179-184 | each frame takes 8 header bytes plus its payload, and nothing more |
| DockerRunner.SkipSpaces | server/src/services/dockerRunner.ts:34 | `\s+` consumes a maximal run of whitespace |
| DockerRunner.SkipWord | server/src/services/dockerRunner.ts:34 | `\w+` consumes a maximal run of word characters |
| DockerRunner.MatchAt | server/src/services/dockerRunner.ts:34 | a match at a position captures a non-empty word |
| DockerRunner.FindClass | server/src/services/dockerRunner.ts:34 | the match found is the leftmost one; none is found only if the pattern matches nowhere |
| DockerRunner.ClassName | server/src/services/dockerRunner.ts:34-37 | the captured class name, when there is one, is a non-empty word |
| DockerRunner.MatchesAt | server/src/services/dockerRunner.ts:34 | `public`, whitespace, `class`, whitespace and a maximal word at a position make the pattern match there and capture that word |
| DockerRunner.FirstDeclarationNamesClass | server/src/services/dockerRunner.ts:34-37 | when no `p` precedes the first `public class <Name>`, the captured name is `<Name>` |
| DockerRunner.LeftmostMatch | server/src/services/dockerRunner.ts:34 | a position where the pattern matches, with no match before it, is the match the search returns |
| DockerRunner.JavaRunsDeclaredClass | server/src/services/dockerRunner.ts:29-53 | Java code is written to `<Class>.java` and the runner compiles that file and runs that class; without a public class it uses Main.java and Main |
| DockerRunner.CommandFromRegistry | server/src/services/dockerRunner.ts:40-53 | whenever no class name overrides the file, the runner's file name and its command are exactly the registry's file name and its compile and run commands chained with `&&` |
| DockerRunner.JavaMainCommand | server/src/services/dockerRunner.ts:44-50 | the Java commands built from Main.java coincide with the registry's `javac Main.java && java Main` |
| DockerRunner.JavaCommand | server/src/services/dockerRunner.ts:44-50 | for a file `<stem>.java` the commands are `javac <stem>.java` and `java <stem>` |
| DockerRunner.ScriptLines | server/src/services/dockerRunner.ts:59 | the container script's lines are the heredoc header, the code's own lines, the end marker, then the command's lines |
| DockerRunner.TakeUntil | server/src/services/dockerRunner.ts:59 | a heredoc feeds the lines before the first line equal to the marker, and stops at that line |
| DockerRunner.TerminatedJoin | server/src/services/dockerRunner.ts:59 | the shell hands `cat` every body line with its newline: the written text is the lines joined by newlines plus one final newline |
| DockerRunner.HeredocWritesCode | server/src/services/dockerRunner.ts:59 | the file in the container receives exactly the submitted code followed by one newline (empty code gives a file holding just a newline), provided no line of the code equals the end marker |
| DockerRunner.HeredocStopsAtMarker | server/src/services/dockerRunner.ts:59 | a one-line code followed by a marker line is written as that line and its newline only |
| DockerRunner.HeredocCutShort | server/src/services/dockerRunner.ts:59 | a code line equal to `CODEEOF` ends the written file early: `x\nCODEEOF` is written as `x\n` |
| DockerRunner.ContainerName | server/src/services/dockerRunner.ts:22 | container names are `codelinka-` followed by at most eight characters of the UUID |
| DockerRunner.ContainerSpecFor | server/src/services/dockerRunner.ts:55-75 | the container uses the profile's image and the generated name. It runs `sh -c` with the script, in /app, with no network. It gets 128 MiB of memory and no extra swap, half a CPU and 64 processes, no TTY, and stdin attached exactly for non-empty input |
| DockerRunner.CompletionResult | server/src/services/dockerRunner.ts:129-134 | a completed run succeeds exactly when it exits with 0 and wrote nothing to stderr; output is stdout; error is present exactly when stderr is non-empty |
| DockerRunner.StderrFailsRun | server/src/services/dockerRunner.ts:130 | a run that exits 0 but writes to stderr is reported as a failure |
| DockerRunner.PendingClose | server/src/services/dockerRunner.ts:7-13 | removing the container, when one was created, completes a pending trace into a cleaned-up one |
| DockerRunner.ExecuteInDocker | server/src/services/dockerRunner.ts:15-150 | the first call that throws (pull, create, start, attach, wait, logs) gives its message, or `Unknown error`; a fired timer gives the timeout message; otherwise the verdict on the demultiplexed logs. On every path the container is created at most once, removed exactly when it was created, and stdin receives only the request's non-empty input. The removal is the last call, except that when `wait` throws before the timeout fires the never-cleared timer kills the container after its removal: the trace ends in removal then kill exactly in that case |
| DockerRunner.StartJob | server/src/services/dockerRunner.ts:25-90 | setup stops at the first failing call, in source order (the pull only for a missing image, the attach only for non-empty input); a container exists exactly when the image is there and creation succeeded |
| DockerRunner.AwaitJob | server/src/services/dockerRunner.ts:92-134 | once the container runs, the settled result is the timeout, the wait or log fault, or the completion verdict, and the container is removed on every path; a late kill follows the removal exactly when `wait` throws before the timer fires |
| DockerRunner.AbortWait | server/src/services/dockerRunner.ts:93-104 | when `wait` throws, the catch block removes the container and, unless the timeout already fired, the uncleared timer kills it afterwards |
| DockerRunner.CleanedUpLateKill | server/src/services/dockerRunner.ts:93-101 | the timer's kill after the removal leaves the container created and removed once and the trace ending in removal then kill |
| DockerRunner.PrepareJob | server/src/services/dockerRunner.ts:29-75 | the file name, command and options computed step by step are the job's specification |
| DockerRunner.Abort | server/src/services/dockerRunner.ts:135-149 | the catch block removes the container exactly when one was created and reports the thrown message, or `Unknown error` |
| DockerRunner.DockerHealthy | server/src/services/dockerRunner.ts:196-203 | the daemon is healthy exactly when the ping does not throw |
| PistonRunner.RuntimeMapMatchesRegistry | server/src/services/pistonRunner.ts:19-24 | the Piston map covers exactly the registry's languages and uses the registry's names except `c++` for cpp |
| PistonRunner.UploadNameMatchesRegistry | server/src/services/pistonRunner.ts:121-129 | the upload name is `main.txt` exactly for unregistered identifiers; otherwise it has the same extension as the sandbox's file, and for the compiled languages the very same name |
| PistonRunner.OrEmpty | server/src/services/pistonRunner.ts:58 | `input \|\| ''`: the string when present, else the empty string |
| PistonRunner.BuildRequest | server/src/services/pistonRunner.ts:44-65 | the posted body names the runtime and version, uploads the code under its upload name, passes the input (or '') as stdin, with no arguments, 10 s limits and unlimited memory |
| PistonRunner.FirstNonEmpty | server/src/services/pistonRunner.ts:85 | a `\|\|` chain yields the first non-empty option, or the fallback |
| PistonRunner.Interpret | server/src/services/pistonRunner.ts:77-109 | a compile phase that exists with a non-zero (or null) exit fails with the compiler's output and its stderr, output or `Compilation failed`; a missing run phase fails with `No execution result returned`; otherwise success is a run exit of 0, output is stdout and error is non-empty stderr |
| PistonRunner.ExecuteWithPiston | server/src/services/pistonRunner.ts:26-119 | an unmapped language fails with no request; otherwise the request is posted and a thrown fetch, a non-ok status (with its body text), a body that fails to parse, or the interpreted reply each settle to a result, and nothing is rethrown |
| PistonRunner.SuccessCharacterised | server/src/services/pistonRunner.ts:67-109 | a result is a success exactly when the status is ok, the body parses, no compile phase failed and the run phase exited with 0 |
| PistonRunner.FailureExplained | server/src/services/pistonRunner.ts:67-118 | every failure carries a non-empty error, except a run phase that exits non-zero without writing to stderr |
| PistonRunner.OutputOrigin | server/src/services/pistonRunner.ts:81-109 | non-empty output is the compiler's output on a failed compile, or the program's stdout |
| PistonRunner.BackendsDisagreeOnStderr | server/src/services/pistonRunner.ts:105 | Piston counts an exit 0 with stderr output as a success where the Docker sandbox counts it as a failure |
| PistonRunner.PistonHealthy | server/src/services/pistonRunner.ts:131-138 | the service is healthy exactly when the runtimes request returns an ok status; a throw counts as unhealthy |
| ExecuteRoute.BadRequest | server/src/routes/execute.ts:13-39 | a rejection is status 400 with success false, empty output and time 0 |
| ExecuteRoute.Validate | server/src/routes/execute.ts:13-39 | a request is accepted exactly when the code is a non-empty string of at most 102400 characters and the language is a registry key; every rejection is a 400 failure with empty output and no time |
| ExecuteRoute.ValidationOrder | server/dist/routes/execute.js:25-49 | the checks short-circuit in order: missing code, then unknown language, then oversized code |
| ExecuteRoute.LengthBoundary | server/src/routes/execute.ts:32-39 | the length limit is inclusive at 102400 characters, and empty code counts as missing |
| ExecuteRoute.LanguageMessageText | server/src/routes/execute.ts:7 | the unknown-language message lists `javascript, python, cpp, java` |
| ExecuteRoute.RunTs | server/src/routes/execute.ts:9-53 | a valid request goes to the sandbox and its result is sent with status 200; an invalid one gets the validation reply and runs nothing |
| ExecuteRoute.CacheStep | server/dist/routes/execute.js:13-21 | the probe runs exactly when there is no cached answer or the cached one is 30 s old or older; a probe's answer and time replace the cache, a fresh hit leaves it unchanged |
| ExecuteRoute.FirstQueryProbes | server/dist/routes/execute.js:10-21 | the first query always probes |
| ExecuteRoute.CachedWindow | server/dist/routes/execute.js:13-21 | every query within 30 s after a probe is answered from the cache with the probed value, without probing |
| ExecuteRoute.StaleAnswerReprobed | server/dist/routes/execute.js:15-20 | after the interval the next query probes again and adopts the new answer |
| ExecuteRoute.HealthCache.IsDockerAvailable | server/dist/routes/execute.js:13-21 | the cache fields are updated and the answer given exactly as the cache rule says |
| ExecuteRoute.RunDist | server/dist/routes/execute.js:22-71 | validation comes first and leaves the cache alone; a valid request consults the cache and runs on Docker when it reports Docker up, on Piston otherwise, replying 200 with that backend's result |
| ExecuteRoute.FallbackAlwaysSupported | server/dist/routes/execute.js:56-58 | a validated request never reaches Piston's unsupported-language branch |
| ExecuteRoute.HealthTs | server/src/routes/execute.ts:55-64 | the status is `ok` exactly when Docker is healthy, else `degraded`, and the supported languages are listed |
| ExecuteRoute.HealthDist | server/dist/routes/execute.js:72-85 | the status is `ok` exactly when either executor is healthy; the executor named is docker when Docker is up, else piston when Piston is up, else none |
| ExecuteRoute.ListFrom | server/src/routes/execute.ts:68-74 | one entry per language, in order, with that profile's id, timeout and image |
| ExecuteRoute.LanguagesListing | server/src/routes/execute.ts:66-76 | `/languages` lists every registry key in order, each with its own profile's timeout and image |
| Boilerplate.GetBoilerplate | client/src/utils/boilerplate.ts:46-48 | the starter is non-empty exactly for a registered language, and then it is that language's table entry |
| Boilerplate.TemplateEndsWithNewline | client/src/utils/boilerplate.ts:3-44 | every starter program ends with a newline |
| Boilerplate.TemplateGreetsWorld | client/src/utils/boilerplate.ts:3-44 | every starter builds its greeting from `Hello, ` and calls `greet("World")`, the greeting first |
| Boilerplate.JavaTemplateRunsMain | client/src/utils/boilerplate.ts:33-43 | the Java starter declares `public class Main`, so the sandbox writes it to Main.java and runs the registry's own commands |
| UseEditor.InitialState | client/src/hooks/useEditor.ts:23-60 | a stored state that parses is restored; otherwise the editor starts with the JavaScript starter, JavaScript and the dark theme |
| UseEditor.Without | client/src/hooks/useEditor.ts:105 | filtering by id keeps only entries of other ids, all taken from the list |
| UseEditor.WithoutAppend | client/src/hooks/useEditor.ts:105 | filtering a concatenation filters each part |
| UseEditor.ResultEntries | client/src/hooks/useEditor.ts:104-138 | a result adds one to three entries: an output entry (first) exactly when the output is non-empty, an error entry exactly when the error is non-empty, and last a single info entry with the summary |
| UseEditor.Reported | client/src/hooks/useEditor.ts:104-151 | a returned result is reported by its entries; a throw becomes a single error entry with the error's message or `Execution failed` |
| UseEditor.SummaryReportsSuccess | client/src/hooks/useEditor.ts:133 | the summary says `Execution completed` exactly for a successful result |
| UseEditor.ReportsSurvive | client/src/hooks/useEditor.ts:105 | report entries never carry a running id, so a later run's filter keeps them |
| UseEditor.RunReplacesRunningEntry | client/src/hooks/useEditor.ts:85-155 | a run that starts and settles replaces its running entry by its report and keeps every earlier entry in order |
| UseEditor.Editor.constructor | client/src/hooks/useEditor.ts:23-63 | the hook starts from the initial state with an empty console and no run in progress |
| UseEditor.Editor.SetCode | client/src/hooks/useEditor.ts:71-73 | sets the code and nothing else |
| UseEditor.Editor.SetLanguage | client/src/hooks/useEditor.ts:75-79 | sets the language and replaces the code with that language's non-empty starter |
| UseEditor.Editor.SetTheme | client/src/hooks/useEditor.ts:81-83 | sets the theme and nothing else |
| UseEditor.Editor.StartRun | client/src/hooks/useEditor.ts:86-101 | raises the running flag, appends the running entry, and sends the current code and language |
| UseEditor.Editor.FinishRun | client/src/hooks/useEditor.ts:103-154 | drops the running entry, appends the report of however the call settled, and lowers the running flag |
| UseEditor.Editor.ClearOutput | client/src/hooks/useEditor.ts:157-159 | empties the console and nothing else |
| UseEditor.Editor.ClearCode | client/src/hooks/useEditor.ts:161-163 | empties the code and nothing else |
| InterviewEditor.FormatTime | client/src/components/InterviewEditor/InterviewEditor.tsx:158-162 | the label has a colon before two seconds digits, and is exactly `mm:ss` long below 100 minutes |
| InterviewEditor.FormatTimeReadsBack | client/src/components/InterviewEditor/InterviewEditor.tsx:158-162 | the label reads back as the number of seconds it shows, however many digits the minutes take |
| InterviewEditor.PaddedValue | client/src/components/InterviewEditor/InterviewEditor.tsx:161 | padding with zeros keeps the digits' value |
| InterviewEditor.FormatTimeExample | client/src/components/InterviewEditor/InterviewEditor.tsx:158-162 | 65 seconds show as `01:05` |
| InterviewEditor.Clamp | client/src/components/InterviewEditor/InterviewEditor.tsx:120 | `max(lo, min(hi, v))` lies in the range, is v inside it and the nearer bound outside it |
| InterviewEditor.ConsoleDivider | client/src/components/InterviewEditor/InterviewEditor.tsx:120 | the console divider stays between 30 % and 80 % |
| InterviewEditor.PanelWidth | client/src/components/InterviewEditor/InterviewEditor.tsx:125-130 | either side panel stays between 200 and 500 pixels |
| InterviewEditor.ClampIdempotent | client/src/components/InterviewEditor/InterviewEditor.tsx:120-130 | clamping a clamped value changes nothing |
| InterviewEditor.Bullets | client/src/components/InterviewEditor/InterviewEditor.tsx:165 | one `- ` bullet per constraint, in order |
| InterviewEditor.EditPieces | client/src/components/InterviewEditor/InterviewEditor.tsx:165 | the edit template has twelve newline-separated pieces |
| InterviewEditor.ReplaceKeepsRest | client/src/components/InterviewEditor/InterviewEditor.tsx:182 | on a line starting with a key, removing the first occurrence of the key and trimming gives the trimmed rest of the line |
| InterviewEditor.KeywordOf | client/src/components/InterviewEditor/InterviewEditor.tsx:181-201 | a recognised keyword is a prefix of the line |
| InterviewEditor.Merge | client/src/components/InterviewEditor/InterviewEditor.tsx:202-211 | for each of title, description, constraints, example input, output and explanation: the parsed value when it is non-empty (constraints: when any were parsed), the previous question's value otherwise |
| InterviewEditor.MergeNeverBlanks | client/src/components/InterviewEditor/InterviewEditor.tsx:202-211 | a save never blanks a field: each field of the new question is empty exactly when both the parse and the previous question left it empty |
| InterviewEditor.MergeIdempotent | client/src/components/InterviewEditor/InterviewEditor.tsx:202-211 | merging the same parse over the merged question changes nothing |
| InterviewEditor.RunSnoc | client/src/components/InterviewEditor/InterviewEditor.tsx:180-202 | processing one more line is one more step of the loop |
| InterviewEditor.RunAppend | client/src/components/InterviewEditor/InterviewEditor.tsx:180-202 | the loop over two runs of lines is the loop over the first, then over the second |
| InterviewEditor.KeyChars | client/src/components/InterviewEditor/InterviewEditor.tsx:181-195 | the seven keywords are told apart by their first and third characters |
| InterviewEditor.NonBlank | client/src/components/InterviewEditor/InterviewEditor.tsx:196-197 | the collected description parts are non-empty |
| InterviewEditor.DescriptionCollected | client/src/components/InterviewEditor/InterviewEditor.tsx:196-197 | in the description section, plain lines add their trimmed non-blank text, joined by single spaces |
| InterviewEditor.ConstraintsCollected | client/src/components/InterviewEditor/InterviewEditor.tsx:198-199 | in the constraints section, plain lines starting with `-` add a constraint each, in order, and other lines are ignored |
| InterviewEditor.DashStep | client/src/components/InterviewEditor/InterviewEditor.tsx:198-199 | one plain line in the constraints section adds its constraint, if it has a dash |
| InterviewEditor.UndashedLine | client/src/components/InterviewEditor/InterviewEditor.tsx:198-199 | a plain line without a dash in the constraints section changes nothing |
| InterviewEditor.EditTextLines | client/src/components/InterviewEditor/InterviewEditor.tsx:165 | for single-line fields, splitting the edit text at newlines gives back the template's lines |
| InterviewEditor.BulletsSplit | client/src/components/InterviewEditor/InterviewEditor.tsx:165 | the joined bullets split back into one line per constraint, or one empty line when there are none |
| InterviewEditor.KeyedLine | client/src/components/InterviewEditor/InterviewEditor.tsx:181-195 | a line that starts with a keyword is recognised as that keyword, whatever keyword is checked earlier, and so is handled by that keyword's rule in every section |
| InterviewEditor.ValueAfterKey | client/src/components/InterviewEditor/InterviewEditor.tsx:182 | `key value` with a trimmed value reads back as the value |
| InterviewEditor.FieldLine | client/src/components/InterviewEditor/InterviewEditor.tsx:181-195 | a field line sets its field to the value and leaves the rest of the draft unchanged |
| InterviewEditor.HeadingLine | client/src/components/InterviewEditor/InterviewEditor.tsx:183-188 | a heading line switches section and changes nothing else |
| InterviewEditor.BlankLine | client/src/components/InterviewEditor/InterviewEditor.tsx:180-202 | an empty line changes nothing, in any section |
| InterviewEditor.BulletIsPlain | client/src/components/InterviewEditor/InterviewEditor.tsx:165 | a bullet line starts with none of the keywords |
| InterviewEditor.DashedBullets | client/src/components/InterviewEditor/InterviewEditor.tsx:165-199 | removing the dash from each bullet and trimming gives back the trimmed constraints |
| InterviewEditor.HeadParsed | client/src/components/InterviewEditor/InterviewEditor.tsx:180-197 | the template's lines up to the constraints heading read back the title and the description |
| InterviewEditor.TailParsed | client/src/components/InterviewEditor/InterviewEditor.tsx:189-195 | the template's lines after the constraints read back the example's input, output and explanation |
| InterviewEditor.RoundTrip | client/src/components/InterviewEditor/InterviewEditor.tsx:164-213 | saving the text that editing produced gives back the question, for any previous question, when every field is one trimmed non-empty line and the description does not start with a keyword |
| InterviewEditor.QuestionPanel.constructor | client/src/components/InterviewEditor/InterviewEditor.tsx:35-48 | the panel starts with the default question and no edit in progress |
| InterviewEditor.QuestionPanel.Edit | client/src/components/InterviewEditor/InterviewEditor.tsx:164-168 | fills the edit box with the question's text and opens it, leaving the question unchanged |
| InterviewEditor.QuestionPanel.Save | client/src/components/InterviewEditor/InterviewEditor.tsx:170-213 | the question becomes the edit box's text parsed over the previous question, and the edit box closes |
| InterviewEditor.ParseLines | client/src/components/InterviewEditor/InterviewEditor.tsx:180-202 | the loop computes the parse of all lines from an empty draft |
| InterviewEditor.ParseLine | client/src/components/InterviewEditor/InterviewEditor.tsx:181-201 | one iteration of the if-chain is one parser step |

## Left out

- The Docker daemon, the image pull and its progress stream are not executed. Their outcomes are the `DockerEnv` input, and the calls made are returned as a trace of events.
- The race between the kill timer and `wait()` is the input flag `timerFires`. A kill that throws is ignored, as in the source, and is not modelled separately. The late kill after a throwing `wait()` is placed at the end of the trace; that it runs some seconds after the result is returned, and may overlap later requests, is not modelled.
- `Date.now()` and elapsed times are parameters. Every entry of one result uses one clock reading. The source reads the clock once per entry, and the readings can differ.
- Console entry timestamps (`Date` objects) and the health timestamp are left out.
- UTF-8 decoding of frame payloads is the abstract parameter `decode`. The model keeps the source's frame-by-frame decoding, so multi-byte characters split across frames behave as the decoder says.
- `readUInt32BE` is modelled on bytes 4-7 of the header only. Bytes 1-3 are not read, as in the source.
- String lengths are counted in characters. JavaScript counts UTF-16 code units, so the 100 KB limit and `slice(0, 8)` can differ on astral characters.
- Regular expressions are modelled only as the `public\s+class\s+(\w+)` matcher that the runner uses. `\s` is ECMAScript's whitespace and line-terminator set, as `trim` uses.
- Request body fields that are not strings are modelled as `OtherJson` or absent. The contents of `input` are passed through unvalidated.
- The router's status-500 `Execution failed` path is not modelled: both runners catch every error, so it cannot be reached.
- The client's HTTP wrapper that `runCode` awaits (client/src/services/api.ts) is not part of this model. Its settled value is the `Outcome` input of `FinishRun`.
- `localStorage` and `JSON.parse` are the `Stored` input. A stored value that parses but lacks a field is not distinguished. The persistence effect that writes the state back is left out.
- The React rendering, drag handlers, timers of the interview screen and all other UI are left out.
- The divider positions are modelled as reals, without NaN or infinities.
- The health cache is modelled for sequential queries only. Concurrent requests that interleave at the `await` are not modelled.
- `InterviewEditor.AfterKey`: models `line.replace(key, '').trim()` by slicing off the key. `ReplaceKeepsRest` proves the two agree on every line that starts with the key.
- `InterviewEditor.RoundTrip`: proved only for well-formed questions. A field spanning several lines, an empty or untrimmed field, or a description starting with a keyword does not read back unchanged.
- `DockerRunner.TimeoutMessage` is the source's fixed text, `(10s limit)`, even for C++ and Java, whose limits are 15 s and 30 s. The model keeps the text as written.
