/**
 * The editor's state hook (client/src/hooks/useEditor.ts): the code, the
 * language, the theme, the console list and the running flag, and the
 * setters that change them. `runCode` awaits the server, so it is split at
 * the `await`: StartRun is what happens before it, FinishRun what happens
 * when the call settles. The clock is a parameter; the saved state is an
 * input.
 */
module UseEditor {
  import opened Options
  import opened Strings
  import opened Types
  import Boilerplate

  datatype Theme = VsDark | Light | HcBlack

  /** What the hook persists: code, language and theme. */
  datatype EditorState = EditorState(code: string, language: Language, theme: Theme)

  /** The stored entry as the initialisers find it: nothing (or an empty
      string), text that does not parse, or a parsed state. */
  datatype Stored = Absent | Malformed | Parsed(state: EditorState)

  /** The three `useState` initialisers: the stored state when it parses,
      otherwise the JavaScript starter program, JavaScript and the dark
      theme. */
  function InitialState(stored: Stored): (s: EditorState)
    ensures stored.Parsed? ==> s == stored.state
    ensures !stored.Parsed? ==>
      s.language == JavaScript && s.theme == VsDark && s.code == Boilerplate.Template(JavaScript)
  {
    match stored
    case Parsed(state) => state
    case _ => EditorState(Boilerplate.GetBoilerplate("javascript"), JavaScript, VsDark)
  }

  datatype EntryKind = OutputEntry | ErrorEntry | InfoEntry

  /** One console line. The id is a prefix and the clock reading. */
  datatype ConsoleEntry = ConsoleEntry(id: string, kind: EntryKind, content: string)

  /** `${n}` for an integer. */
  function IntToString(n: int): string {
    if n < 0 then "-" + NatToString(-n) else NatToString(n)
  }

  function RunningId(now: nat): string {
    "running-" + NatToString(now)
  }

  /** The entry runCode adds before it calls the server. */
  function RunningEntry(language: Language, now: nat): ConsoleEntry {
    ConsoleEntry(RunningId(now), InfoEntry, "Executing " + language.Id() + " code...")
  }

  /** `entries.filter(o => o.id !== id)`. */
  function Without(entries: seq<ConsoleEntry>, id: string): (r: seq<ConsoleEntry>)
    ensures |r| <= |entries|
    ensures forall i :: 0 <= i < |r| ==> r[i].id != id && r[i] in entries
  {
    if entries == [] then []
    else (if entries[0].id != id then [entries[0]] else []) + Without(entries[1..], id)
  }

  /** Filtering a concatenation filters each part. */
  lemma {:induction false} WithoutAppend(a: seq<ConsoleEntry>, b: seq<ConsoleEntry>, id: string)
    ensures Without(a + b, id) == Without(a, id) + Without(b, id)
    decreases |a|
  {
    if a == [] {
      assert a + b == b;
    } else {
      assert (a + b)[1..] == a[1..] + b;
      WithoutAppend(a[1..], b, id);
    }
  }

  /** An id no entry carries filters nothing out. */
  lemma {:induction false} WithoutAbsent(entries: seq<ConsoleEntry>, id: string)
    requires forall i :: 0 <= i < |entries| ==> entries[i].id != id
    ensures Without(entries, id) == entries
    decreases |entries|
  {
    if entries != [] {
      WithoutAbsent(entries[1..], id);
      assert [entries[0]] + entries[1..] == entries;
    }
  }

  /** The closing info line. */
  function Summary(result: ExecutionResult): string {
    "Execution " + (if result.success then "completed" else "failed") + " in "
    + IntToString(result.executionTime) + "ms"
  }

  /** The entries for a result: its output if any, its error if any, and
      the summary, in that order. */
  function ResultEntries(result: ExecutionResult, now: nat): (r: seq<ConsoleEntry>)
    ensures 1 <= |r| <= 3
    ensures r[|r| - 1] == ConsoleEntry("info-" + NatToString(now), InfoEntry, Summary(result))
    ensures forall i :: 0 <= i < |r| - 1 ==> r[i].kind != InfoEntry
    ensures (exists i :: 0 <= i < |r| && r[i].kind == OutputEntry) <==> result.output != ""
    ensures (exists i :: 0 <= i < |r| && r[i].kind == ErrorEntry) <==> Truthy(result.error)
    ensures forall i :: 0 <= i < |r| && r[i].kind == OutputEntry ==> r[i].content == result.output && i == 0
    ensures forall i :: 0 <= i < |r| && r[i].kind == ErrorEntry ==> r[i].content == result.error.value
  {
    var stamp := NatToString(now);
    var out := if result.output != "" then [ConsoleEntry("output-" + stamp, OutputEntry, result.output)] else [];
    var err := if Truthy(result.error) then [ConsoleEntry("error-" + stamp, ErrorEntry, result.error.value)] else [];
    var r := out + err + [ConsoleEntry("info-" + stamp, InfoEntry, Summary(result))];
    assert out != [] ==> r[0] == out[0];
    assert err != [] ==> r[|out|] == err[0];
    r
  }

  /** The entries for however the call settled: the result's entries, or a
      single error entry with the thrown error's message, or
      'Execution failed' for a thrown non-error. */
  function Reported(outcome: Outcome<ExecutionResult>, now: nat): (r: seq<ConsoleEntry>)
    ensures outcome.Returned? ==> r == ResultEntries(outcome.value, now)
    ensures outcome.Threw? ==>
      |r| == 1 && r[0].kind == ErrorEntry && r[0].content == MessageOf(outcome.thrown, "Execution failed")
  {
    match outcome
    case Returned(result) => ResultEntries(result, now)
    case Threw(t) => [ConsoleEntry("error-" + NatToString(now), ErrorEntry, MessageOf(t, "Execution failed"))]
  }

  /** The summary says "completed" exactly for a successful result. */
  lemma SummaryReportsSuccess(result: ExecutionResult)
    ensures StartsWith(Summary(result), "Execution completed") <==> result.success
  {
    var s := Summary(result);
    if result.success {
      assert s[..19] == "Execution completed";
    } else {
      assert s[10] == 'f';
    }
  }

  /** What a run reports never carries a running id, so a later run's
      filter leaves it in place. */
  lemma ReportsSurvive(outcome: Outcome<ExecutionResult>, now: nat, later: nat)
    ensures Without(Reported(outcome, now), RunningId(later)) == Reported(outcome, now)
  {
    var r := Reported(outcome, now);
    forall i | 0 <= i < |r|
      ensures r[i].id != RunningId(later)
    {
      assert r[i].id[0] != 'r';
    }
    WithoutAbsent(r, RunningId(later));
  }

  /** A run that starts and settles with nothing in between: when no
      earlier entry shares the running entry's id, the running entry is
      gone, every earlier entry is still there in order, and the report
      follows them. */
  lemma RunReplacesRunningEntry(before: seq<ConsoleEntry>, language: Language, now: nat,
                                outcome: Outcome<ExecutionResult>, later: nat)
    requires forall i :: 0 <= i < |before| ==> before[i].id != RunningId(now)
    ensures Without(before + [RunningEntry(language, now)], RunningId(now)) + Reported(outcome, later)
      == before + Reported(outcome, later)
  {
    DropLast(before, RunningEntry(language, now));
  }

  lemma DropLast(before: seq<ConsoleEntry>, e: ConsoleEntry)
    requires forall i :: 0 <= i < |before| ==> before[i].id != e.id
    ensures Without(before + [e], e.id) == before
  {
    WithoutAppend(before, [e], e.id);
    WithoutAbsent(before, e.id);
    assert Without([e], e.id) == [];
  }

  /** The request runCode sends: the code and language at the time of the
      call. */
  datatype RunRequest = RunRequest(code: string, language: Language)

  class Editor {
    var code: string
    var language: Language
    var theme: Theme
    var output: seq<ConsoleEntry>
    var isRunning: bool

    constructor(stored: Stored)
      ensures EditorState(code, language, theme) == InitialState(stored)
      ensures output == [] && !isRunning
    {
      var s := InitialState(stored);
      code, language, theme := s.code, s.language, s.theme;
      output, isRunning := [], false;
    }

    method SetCode(newCode: string)
      modifies this
      ensures code == newCode
      ensures language == old(language) && theme == old(theme)
      ensures output == old(output) && isRunning == old(isRunning)
    {
      code := newCode;
    }

    /** Switching language replaces the code with that language's starter
        program. */
    method SetLanguage(newLanguage: Language)
      modifies this
      ensures language == newLanguage && code == Boilerplate.Template(newLanguage) && code != ""
      ensures theme == old(theme) && output == old(output) && isRunning == old(isRunning)
    {
      language := newLanguage;
      SetCode(Boilerplate.GetBoilerplate(newLanguage.Id()));
      Boilerplate.BoilerplateOfLanguage(newLanguage);
    }

    method SetTheme(newTheme: Theme)
      modifies this
      ensures theme == newTheme
      ensures code == old(code) && language == old(language)
      ensures output == old(output) && isRunning == old(isRunning)
    {
      theme := newTheme;
    }

    /** runCode up to the `await`: raise the running flag and append the
        running entry after the existing ones. */
    method StartRun(now: nat) returns (request: RunRequest, running: ConsoleEntry)
      modifies this
      ensures request == RunRequest(old(code), old(language))
      ensures running == RunningEntry(old(language), now)
      ensures output == old(output) + [running] && isRunning
      ensures code == old(code) && language == old(language) && theme == old(theme)
    {
      isRunning := true;
      running := RunningEntry(language, now);
      output := output + [running];
      request := RunRequest(code, language);
    }

    /** runCode after the call settled: drop the running entry, append the
        report, and lower the running flag. */
    method FinishRun(running: ConsoleEntry, outcome: Outcome<ExecutionResult>, now: nat)
      modifies this
      ensures output == Without(old(output), running.id) + Reported(outcome, now)
      ensures !isRunning
      ensures code == old(code) && language == old(language) && theme == old(theme)
    {
      var filtered := Without(output, running.id);
      var stamp := NatToString(now);
      match outcome {
        case Returned(result) =>
          var outputs: seq<ConsoleEntry> := [];
          if result.output != "" {
            outputs := outputs + [ConsoleEntry("output-" + stamp, OutputEntry, result.output)];
          }
          if Truthy(result.error) {
            outputs := outputs + [ConsoleEntry("error-" + stamp, ErrorEntry, result.error.value)];
          }
          outputs := outputs + [ConsoleEntry("info-" + stamp, InfoEntry, Summary(result))];
          output := filtered + outputs;
        case Threw(t) =>
          output := filtered + [ConsoleEntry("error-" + stamp, ErrorEntry, MessageOf(t, "Execution failed"))];
      }
      isRunning := false;
    }

    method ClearOutput()
      modifies this
      ensures output == []
      ensures code == old(code) && language == old(language) && theme == old(theme)
      ensures isRunning == old(isRunning)
    {
      output := [];
    }

    method ClearCode()
      modifies this
      ensures code == ""
      ensures language == old(language) && theme == old(theme)
      ensures output == old(output) && isRunning == old(isRunning)
    {
      code := "";
    }
  }
}
