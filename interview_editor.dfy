/**
 * The interview screen's own logic
 * (client/src/components/InterviewEditor/InterviewEditor.tsx): the
 * elapsed-time label, the clamps on the draggable dividers, and the
 * question panel, which turns the current question into editable text and
 * parses the edited text back line by line.
 */
module InterviewEditor {
  import opened Options
  import opened Strings

  /** `n.toString().padStart(2, '0')`. */
  function TwoDigits(n: nat): string {
    PadStart(NatToString(n), 2, '0')
  }

  /** formatTime: minutes, a colon, and seconds, each padded to two digits. */
  function FormatTime(seconds: nat): (r: string)
    ensures |r| >= 5 && r[|r| - 3] == ':'
    ensures |r| == 5 <==> seconds < 6000
  {
    SecondsFitTwoDigits(seconds % 60);
    SecondsFitTwoDigits(seconds / 60);
    TwoDigits(seconds / 60) + ":" + TwoDigits(seconds % 60)
  }

  lemma SecondsFitTwoDigits(n: nat)
    ensures |TwoDigits(n)| >= 2
    ensures |TwoDigits(n)| == 2 <==> n < 100
  {
    if n >= 10 {
      NatToStringLength(n / 10);
    }
  }

  predicate AllDigits(s: string) {
    forall i :: 0 <= i < |s| ==> IsDigit(s[i])
  }

  /** Reading a label back: digits, a colon, and two digits below 60. */
  function ReadClock(r: string): Option<nat> {
    if |r| >= 5 && r[|r| - 3] == ':' && AllDigits(r[..|r| - 3]) && AllDigits(r[|r| - 2..])
      && DigitsValue(r[|r| - 2..]) < 60
    then Some(DigitsValue(r[..|r| - 3]) * 60 + DigitsValue(r[|r| - 2..]))
    else None
  }

  /** The label reads back as the time it shows, however many digits the
      minutes take. */
  lemma FormatTimeReadsBack(seconds: nat)
    ensures ReadClock(FormatTime(seconds)) == Some(seconds)
  {
    var mm, ss := TwoDigits(seconds / 60), TwoDigits(seconds % 60);
    ClockSides(seconds);
    ReadClockOf(FormatTime(seconds), mm, ss);
  }

  /** The label's two sides are the padded minutes and seconds, and they
      carry those values. */
  lemma ClockSides(seconds: nat)
    ensures var r, mm, ss := FormatTime(seconds), TwoDigits(seconds / 60), TwoDigits(seconds % 60);
      |r| >= 5 && r[|r| - 3] == ':' && r[..|r| - 3] == mm && r[|r| - 2..] == ss
      && AllDigits(mm) && AllDigits(ss)
      && DigitsValue(mm) == seconds / 60 && DigitsValue(ss) == seconds % 60
  {
    var mm, ss := TwoDigits(seconds / 60), TwoDigits(seconds % 60);
    SecondsFitTwoDigits(seconds % 60);
    SecondsFitTwoDigits(seconds / 60);
    ClockParts(mm, ss);
    PaddedValue(seconds / 60);
    PaddedValue(seconds % 60);
  }

  /** A label whose two sides are digit strings reads back their values. */
  lemma ReadClockOf(r: string, mm: string, ss: string)
    requires |r| >= 5 && r[|r| - 3] == ':' && r[..|r| - 3] == mm && r[|r| - 2..] == ss
    requires AllDigits(mm) && AllDigits(ss) && DigitsValue(ss) < 60
    ensures ReadClock(r) == Some(DigitsValue(mm) * 60 + DigitsValue(ss))
  {
  }

  lemma ClockParts(mm: string, ss: string)
    requires |mm| >= 2 && |ss| == 2
    ensures var r := mm + ":" + ss;
      |r| >= 5 && r[..|r| - 3] == mm && r[|r| - 3] == ':' && r[|r| - 2..] == ss
  {
  }

  /** Padding with zeros keeps the value `toString` wrote. */
  lemma PaddedValue(n: nat)
    ensures AllDigits(TwoDigits(n))
    ensures DigitsValue(TwoDigits(n)) == n
  {
    var s := NatToString(n);
    var p := TwoDigits(n);
    var z := p[..|p| - |s|];
    assert p == z + s;
    LeadingZeros(z, s);
    NatToStringValue(n);
  }

  /** One minute and five seconds show as "01:05". */
  lemma FormatTimeExample()
    ensures FormatTime(65) == "01:05"
  {
    OneDigit(1);
    OneDigit(5);
    assert 65 / 60 == 1 && 65 % 60 == 5;
    assert DigitChar(1) == '1' && DigitChar(5) == '5';
    assert FormatTime(65) == ['0', '1'] + ":" + ['0', '5'];
  }

  lemma OneDigit(n: nat)
    requires n < 10
    ensures TwoDigits(n) == ['0', DigitChar(n)]
  {
    assert NatToString(n) == [DigitChar(n)];
    assert Repeat('0', 1) == ['0'];
  }

  /** `Math.max(lo, Math.min(hi, v))`. */
  function Clamp(v: real, lo: real, hi: real): (r: real)
    requires lo <= hi
    ensures lo <= r <= hi
    ensures lo <= v <= hi ==> r == v
    ensures v < lo ==> r == lo
    ensures hi < v ==> r == hi
  {
    var below := if hi < v then hi else v;
    if lo < below then below else lo
  }

  /** The console divider, as a percentage of the centre panel's height. */
  function ConsoleDivider(percentage: real): (r: real)
    ensures 30.0 <= r <= 80.0
  {
    Clamp(percentage, 30.0, 80.0)
  }

  /** The width of either side panel, in pixels. */
  function PanelWidth(width: real): (r: real)
    ensures 200.0 <= r <= 500.0
  {
    Clamp(width, 200.0, 500.0)
  }

  /** A clamped value is a fixed point: dragging to where the divider
      already is leaves it there. */
  lemma ClampIdempotent(v: real, lo: real, hi: real)
    requires lo <= hi
    ensures Clamp(Clamp(v, lo, hi), lo, hi) == Clamp(v, lo, hi)
  {
  }

  datatype Example = Example(input: string, output: string, explanation: string)

  datatype Question = Question(
    title: string,
    description: string,
    constraints: seq<string>,
    example: Example)

  /** The question shown before anyone edits it. */
  const DefaultQuestion: Question := Question(
    "Two Sum",
    "Given an array of integers nums[] and an integer target, return the indices of the two numbers such that they add up to the target.",
    ["Exactly one solution exists", "No duplicate elements", "Can be solved in O(n) time"],
    Example("nums = [2, 7, 11, 15], target = 9", "[0, 1]", "Because nums[0] + nums[1] == 2 + 7 = 9"))

  const TitleKey: string := "Title:"
  const DescriptionKey: string := "Description:"
  const ConstraintsKey: string := "Constraints:"
  const ExampleKey: string := "Example:"
  const InputKey: string := "Input:"
  const OutputKey: string := "Output:"
  const ExplanationKey: string := "Explanation:"

  /** `constraints.map(c => `- ${c}`)`. */
  function Bullets(constraints: seq<string>): (lines: seq<string>)
    ensures |lines| == |constraints|
    ensures forall i :: 0 <= i < |lines| ==> lines[i] == "- " + constraints[i]
  {
    if constraints == [] then [] else ["- " + constraints[0]] + Bullets(constraints[1..])
  }

  /** The lines of the edit text before the constraints. */
  function HeadLines(q: Question): seq<string> {
    [TitleKey + " " + q.title, "", DescriptionKey, q.description, "", ConstraintsKey]
  }

  /** The lines of the edit text after the constraints. */
  function TailLines(q: Question): seq<string> {
    ["", ExampleKey, InputKey + " " + q.example.input, OutputKey + " " + q.example.output,
     ExplanationKey + " " + q.example.explanation]
  }

  /** The text handleQuestionEdit puts in the editor: the template's twelve
      newline-separated pieces, the seventh being the bullet list joined by
      newlines. */
  function EditPieces(q: Question): (pieces: seq<string>)
    ensures |pieces| == 12
  {
    HeadLines(q) + [Join(Bullets(q.constraints), "\n")] + TailLines(q)
  }

  function EditText(q: Question): string {
    Join(EditPieces(q), "\n")
  }

  /** Which heading the parser last passed. */
  datatype Section = NoSection | DescriptionSection | ConstraintsSection | ExampleSection

  /** The local variables of handleQuestionSave. */
  datatype Draft = Draft(
    title: string,
    description: string,
    constraints: seq<string>,
    input: string,
    output: string,
    explanation: string,
    section: Section)

  const EmptyDraft: Draft := Draft("", "", [], "", "", "", NoSection)

  /** `line.replace(key, '').trim()` on a line that starts with `key`: the
      first occurrence of `key` is the prefix, so what is left is the rest
      of the line (ReplaceKeepsRest). */
  function AfterKey(line: string, key: string): string
    requires StartsWith(line, key)
  {
    Trim(line[|key|..])
  }

  lemma ReplaceKeepsRest(line: string, key: string)
    requires StartsWith(line, key)
    ensures Trim(ReplaceFirst(line, key, "")) == AfterKey(line, key)
  {
    ReplacePrefix(line, key);
  }

  /** The seven line prefixes the parser looks for. */
  datatype Keyword = Title | Description | Constraints | ExampleHeading | Input | Output | Explanation

  function KeyText(k: Keyword): string {
    match k
    case Title => TitleKey
    case Description => DescriptionKey
    case Constraints => ConstraintsKey
    case ExampleHeading => ExampleKey
    case Input => InputKey
    case Output => OutputKey
    case Explanation => ExplanationKey
  }

  /** The first keyword, in the order the checks are written, that `line`
      starts with. */
  function KeywordOf(line: string): (k: Option<Keyword>)
    ensures k.Some? ==> StartsWith(line, KeyText(k.value))
  {
    if StartsWith(line, TitleKey) then Some(Title)
    else if StartsWith(line, DescriptionKey) then Some(Description)
    else if StartsWith(line, ConstraintsKey) then Some(Constraints)
    else if StartsWith(line, ExampleKey) then Some(ExampleHeading)
    else if StartsWith(line, InputKey) then Some(Input)
    else if StartsWith(line, OutputKey) then Some(Output)
    else if StartsWith(line, ExplanationKey) then Some(Explanation)
    else None
  }

  /** One iteration of the loop: the keyword checks first, then the
      section's own rule. */
  function Step(d: Draft, line: string): Draft {
    match KeywordOf(line)
    case Some(Title) => d.(title := AfterKey(line, TitleKey))
    case Some(Description) => d.(section := DescriptionSection)
    case Some(Constraints) => d.(section := ConstraintsSection)
    case Some(ExampleHeading) => d.(section := ExampleSection)
    case Some(Input) => d.(input := AfterKey(line, InputKey))
    case Some(Output) => d.(output := AfterKey(line, OutputKey))
    case Some(Explanation) => d.(explanation := AfterKey(line, ExplanationKey))
    case None => SectionRule(d, line)
  }

  /** The rules for a line without a keyword, which depend on the section. */
  function SectionRule(d: Draft, line: string): Draft {
    if d.section == DescriptionSection && Trim(line) != "" then
      d.(description := d.description + (if d.description != "" then " " else "") + Trim(line))
    else if d.section == ConstraintsSection && StartsWith(line, "-") then
      d.(constraints := d.constraints + [AfterKey(line, "-")])
    else d
  }

  /** The loop over all lines, from a given draft. */
  function Run(d: Draft, lines: seq<string>): Draft
    decreases |lines|
  {
    if lines == [] then d else Run(Step(d, lines[0]), lines[1..])
  }

  /** The new question: each parsed field, or the previous value where the
      parse left it empty. */
  function Merge(d: Draft, previous: Question): (q: Question)
    ensures d.title != "" ==> q.title == d.title
    ensures d.title == "" ==> q.title == previous.title
    ensures d.description != "" ==> q.description == d.description
    ensures d.description == "" ==> q.description == previous.description
    ensures d.constraints != [] ==> q.constraints == d.constraints
    ensures d.constraints == [] ==> q.constraints == previous.constraints
    ensures d.input != "" ==> q.example.input == d.input
    ensures d.input == "" ==> q.example.input == previous.example.input
    ensures d.output != "" ==> q.example.output == d.output
    ensures d.output == "" ==> q.example.output == previous.example.output
    ensures d.explanation != "" ==> q.example.explanation == d.explanation
    ensures d.explanation == "" ==> q.example.explanation == previous.example.explanation
  {
    Question(
      if d.title != "" then d.title else previous.title,
      if d.description != "" then d.description else previous.description,
      if |d.constraints| > 0 then d.constraints else previous.constraints,
      Example(
        if d.input != "" then d.input else previous.example.input,
        if d.output != "" then d.output else previous.example.output,
        if d.explanation != "" then d.explanation else previous.example.explanation))
  }

  /** A save never blanks a field: a field of the new question is empty
      only when both the parse and the previous question left it empty. */
  lemma MergeNeverBlanks(d: Draft, previous: Question)
    ensures Merge(d, previous).title == "" <==> d.title == "" && previous.title == ""
    ensures Merge(d, previous).description == "" <==> d.description == "" && previous.description == ""
    ensures Merge(d, previous).constraints == [] <==> d.constraints == [] && previous.constraints == []
    ensures Merge(d, previous).example.input == "" <==> d.input == "" && previous.example.input == ""
    ensures Merge(d, previous).example.output == "" <==> d.output == "" && previous.example.output == ""
    ensures Merge(d, previous).example.explanation == "" <==> d.explanation == "" && previous.example.explanation == ""
  {
  }

  /** Saving the same parse twice changes nothing the second time. */
  lemma MergeIdempotent(d: Draft, previous: Question)
    ensures Merge(d, Merge(d, previous)) == Merge(d, previous)
  {
  }

  /** What saving `text` over `previous` produces. */
  function Saved(text: string, previous: Question): Question {
    Merge(Run(EmptyDraft, Split(text, '\n')), previous)
  }

  /** Processing one more line extends the run by one step. */
  lemma {:induction false} RunSnoc(d: Draft, lines: seq<string>, line: string)
    ensures Run(d, lines + [line]) == Step(Run(d, lines), line)
    decreases |lines|
  {
    if lines != [] {
      var longer := lines + [line];
      assert longer[0] == lines[0] && longer[1..] == lines[1..] + [line];
      RunCons(d, longer);
      RunCons(d, lines);
      RunSnoc(Step(d, lines[0]), lines[1..], line);
    } else {
      assert lines + [line] == [line];
      RunCons(d, [line]);
    }
  }

  /** The loop's first iteration. */
  lemma RunCons(d: Draft, lines: seq<string>)
    requires lines != []
    ensures Run(d, lines) == Run(Step(d, lines[0]), lines[1..])
  {
  }

  /** The loop over `a + b` is the loop over `a`, then over `b`. */
  lemma {:induction false} RunAppend(d: Draft, a: seq<string>, b: seq<string>)
    ensures Run(d, a + b) == Run(Run(d, a), b)
    decreases |a|
  {
    if a != [] {
      assert (a + b)[1..] == a[1..] + b;
      RunAppend(Step(d, a[0]), a[1..], b);
    } else {
      assert a + b == b;
    }
  }

  /** A line that starts with none of the seven keywords. */
  predicate Plain(line: string) {
    KeywordOf(line).None?
  }

  /** The keywords are told apart by their first character, and the two
      starting with `E` by their third. */
  lemma KeyChars(line: string)
    ensures StartsWith(line, TitleKey) ==> line[0] == 'T'
    ensures StartsWith(line, DescriptionKey) ==> line[0] == 'D'
    ensures StartsWith(line, ConstraintsKey) ==> line[0] == 'C'
    ensures StartsWith(line, ExampleKey) ==> line[0] == 'E' && line[2] == 'a'
    ensures StartsWith(line, InputKey) ==> line[0] == 'I'
    ensures StartsWith(line, OutputKey) ==> line[0] == 'O'
    ensures StartsWith(line, ExplanationKey) ==> line[0] == 'E' && line[2] == 'p'
  {
    forall key | key in [TitleKey, DescriptionKey, ConstraintsKey, ExampleKey, InputKey, OutputKey, ExplanationKey]
      && StartsWith(line, key)
      ensures line[0] == key[0] && line[2] == key[2]
    {
      assert line[..|key|][0] == line[0] && line[..|key|][2] == line[2];
    }
  }

  /** The trimmed non-blank lines, in order. */
  function NonBlank(lines: seq<string>): (parts: seq<string>)
    ensures forall i :: 0 <= i < |parts| ==> parts[i] != ""
  {
    if lines == [] then []
    else (if Trim(lines[0]) != "" then [Trim(lines[0])] else []) + NonBlank(lines[1..])
  }

  /** `a` and `b` with one space between them, when both are non-empty. */
  function SpaceJoin(a: string, b: string): string {
    if a == "" then b else if b == "" then a else a + " " + b
  }

  lemma SpaceJoinFront(a: string, t: string, parts: seq<string>)
    requires t != "" && forall i :: 0 <= i < |parts| ==> parts[i] != ""
    ensures SpaceJoin(SpaceJoin(a, t), Join(parts, " ")) == SpaceJoin(a, Join([t] + parts, " "))
  {
    var j := Join(parts, " ");
    JoinEmpty(parts);
    if parts == [] {
      assert [t] + parts == [t];
    } else {
      assert ([t] + parts)[1..] == parts;
      assert Join([t] + parts, " ") == t + " " + j;
      if a != "" {
        SeqAssoc4(a + " ", t, " ", j);
      }
    }
  }

  lemma JoinEmpty(parts: seq<string>)
    requires forall i :: 0 <= i < |parts| ==> parts[i] != ""
    ensures Join(parts, " ") == "" <==> parts == []
  {
    if |parts| > 1 {
      assert |Join(parts, " ")| >= |parts[0]|;
    }
  }

  /** In the description section, non-keyword lines build the description:
      the trimmed non-blank ones, in order, joined by single spaces, after
      whatever was there before. */
  lemma {:induction false} DescriptionCollected(d: Draft, lines: seq<string>)
    requires d.section == DescriptionSection
    requires forall i :: 0 <= i < |lines| ==> Plain(lines[i])
    ensures Run(d, lines) == d.(description := SpaceJoin(d.description, Join(NonBlank(lines), " ")))
    decreases |lines|
  {
    if lines != [] {
      var line := lines[0];
      assert Plain(line);
      var next := SectionRule(d, line);
      DescriptionCollected(next, lines[1..]);
      if Trim(line) != "" {
        assert next == d.(description := SpaceJoin(d.description, Trim(line)));
        SpaceJoinFront(d.description, Trim(line), NonBlank(lines[1..]));
      } else {
        assert NonBlank(lines) == NonBlank(lines[1..]);
      }
    }
  }

  /** What one line adds to the constraints: itself without the `-`,
      trimmed, when it starts with one. */
  function DashedLine(line: string): seq<string> {
    if StartsWith(line, "-") then [Trim(line[1..])] else []
  }

  /** The constraint lines, in order. */
  function Dashed(lines: seq<string>): seq<string> {
    if lines == [] then [] else DashedLine(lines[0]) + Dashed(lines[1..])
  }

  /** In the constraints section, non-keyword lines starting with `-` are
      appended to the constraints in order, and other lines are ignored. */
  lemma {:induction false} ConstraintsCollected(d: Draft, lines: seq<string>)
    requires d.section == ConstraintsSection
    requires forall i :: 0 <= i < |lines| ==> Plain(lines[i])
    ensures Run(d, lines) == d.(constraints := d.constraints + Dashed(lines))
    decreases |lines|
  {
    if lines != [] {
      var head, rest := DashedLine(lines[0]), Dashed(lines[1..]);
      var e := d.(constraints := d.constraints + head);
      DashStep(d, lines[0]);
      assert Run(d, lines) == Run(e, lines[1..]);
      ConstraintsCollected(e, lines[1..]);
      assert Dashed(lines) == head + rest;
      Assoc(d.constraints, head, rest);
    }
  }

  /** One line in the constraints section. */
  lemma DashStep(d: Draft, line: string)
    requires d.section == ConstraintsSection && Plain(line)
    ensures Step(d, line) == d.(constraints := d.constraints + DashedLine(line))
  {
    if !StartsWith(line, "-") {
      UndashedLine(d, line);
    }
  }

  lemma UndashedLine(d: Draft, line: string)
    requires d.section == ConstraintsSection && Plain(line) && !StartsWith(line, "-")
    ensures Step(d, line) == d
  {
  }

  /** No field of `q` spans several lines. */
  predicate SingleLine(q: Question) {
    '\n' !in q.title && '\n' !in q.description
    && (forall i :: 0 <= i < |q.constraints| ==> '\n' !in q.constraints[i])
    && '\n' !in q.example.input && '\n' !in q.example.output && '\n' !in q.example.explanation
  }

  /** Splitting the edit text at newlines gives back the template's lines,
      one line per constraint. */
  lemma EditTextLines(q: Question)
    requires SingleLine(q)
    ensures Split(EditText(q), '\n') == HeadLines(q) + BulletLines(q.constraints) + TailLines(q)
  {
    var h, m, t := HeadLines(q), Join(Bullets(q.constraints), "\n"), TailLines(q);
    var hs, ts := Join(h, "\n"), Join(t, "\n");
    JoinThree(h, m, t);
    SplitThree(hs, m, ts);
    FixedLinesSplit(q);
    BulletsSplit(q.constraints);
    Assoc(h, BulletLines(q.constraints), t);
  }

  lemma Assoc(a: seq<string>, b: seq<string>, c: seq<string>)
    ensures a + (b + c) == a + b + c
  {
  }

  lemma JoinThree(h: seq<string>, m: string, t: seq<string>)
    requires |h| >= 1 && |t| >= 1
    ensures Join(h + [m] + t, "\n") == Join(h, "\n") + "\n" + (m + "\n" + Join(t, "\n"))
  {
    JoinConcat(h, [m] + t, "\n");
    JoinConcat([m], t, "\n");
    assert h + [m] + t == h + ([m] + t);
  }

  lemma SplitThree(a: string, b: string, c: string)
    ensures Split(a + "\n" + (b + "\n" + c), '\n') == Split(a, '\n') + (Split(b, '\n') + Split(c, '\n'))
  {
    SplitAround(a, b + "\n" + c, '\n');
    SplitAround(b, c, '\n');
  }

  lemma FixedLinesSplit(q: Question)
    requires SingleLine(q)
    ensures Split(Join(HeadLines(q), "\n"), '\n') == HeadLines(q)
    ensures Split(Join(TailLines(q), "\n"), '\n') == TailLines(q)
  {
    var h, t := HeadLines(q), TailLines(q);
    forall k | 0 <= k < |h|
      ensures '\n' !in h[k]
    {
      if k == 0 { NoNewline(TitleKey + " ", q.title); }
    }
    forall k | 0 <= k < |t|
      ensures '\n' !in t[k]
    {
      if k == 2 { NoNewline(InputKey + " ", q.example.input); }
      if k == 3 { NoNewline(OutputKey + " ", q.example.output); }
      if k == 4 { NoNewline(ExplanationKey + " ", q.example.explanation); }
    }
    SplitJoin(h, '\n');
    SplitJoin(t, '\n');
  }

  lemma NoNewline(a: string, b: string)
    requires '\n' !in a && '\n' !in b
    ensures '\n' !in a + b
  {
  }

  /** The lines the bullet list takes: one per constraint, or a single
      empty line when there are none. */
  function BulletLines(constraints: seq<string>): seq<string> {
    if constraints == [] then [""] else Bullets(constraints)
  }

  lemma BulletsSplit(constraints: seq<string>)
    requires forall i :: 0 <= i < |constraints| ==> '\n' !in constraints[i]
    ensures Split(Join(Bullets(constraints), "\n"), '\n') == BulletLines(constraints)
  {
    if constraints == [] {
      SplitSingle("", '\n');
    } else {
      var b := Bullets(constraints);
      forall k | 0 <= k < |b|
        ensures '\n' !in b[k]
      {
        assert b[k] == "- " + constraints[k];
      }
      SplitJoin(b, '\n');
    }
  }

  /** Processing from position `i` is one step on `lines[i]`, then the
      rest. */
  lemma RunFrom(d: Draft, lines: seq<string>, i: nat)
    requires i < |lines|
    ensures Run(d, lines[i..]) == Run(Step(d, lines[i]), lines[i + 1..])
  {
    assert lines[i..][1..] == lines[i + 1..];
  }

  /** A line made of a keyword and more text is recognised as that keyword,
      whatever keyword comes earlier in the checks; since the keyword
      checks come before the section rules, such a line is handled by its
      keyword's rule in every section. */
  lemma KeyedLine(k: Keyword, rest: string)
    ensures KeywordOf(KeyText(k) + rest) == Some(k)
  {
    var line := KeyText(k) + rest;
    assert line[..|KeyText(k)|] == KeyText(k);
    KeyChars(line);
  }

  /** `key value` with a trimmed value reads back as the value. */
  lemma ValueAfterKey(key: string, value: string)
    requires IsTrimmed(value)
    ensures StartsWith(key + " " + value, key)
    ensures AfterKey(key + " " + value, key) == value
  {
    var line := key + " " + value;
    assert line[..|key|] == key;
    assert line[|key|..] == " " + value;
    TrimAfterSpaces(" ", value);
  }

  /** A field line: the keyword, a space and a trimmed value. */
  lemma FieldLine(d: Draft, k: Keyword, value: string)
    requires k in {Title, Input, Output, Explanation} && IsTrimmed(value)
    ensures var line := KeyText(k) + " " + value;
      Step(d, line) == match k
        case Title => d.(title := value)
        case Input => d.(input := value)
        case Output => d.(output := value)
        case _ => d.(explanation := value)
  {
    KeyedLine(k, " " + value);
    assert KeyText(k) + (" " + value) == KeyText(k) + " " + value;
    ValueAfterKey(KeyText(k), value);
  }

  /** A heading line switches section and nothing else. */
  lemma HeadingLine(d: Draft, k: Keyword)
    requires k in {Description, Constraints, ExampleHeading}
    ensures Step(d, KeyText(k)) == d.(section := match k
      case Description => DescriptionSection
      case Constraints => ConstraintsSection
      case _ => ExampleSection)
  {
    KeyedLine(k, "");
    assert KeyText(k) + "" == KeyText(k);
  }

  /** An empty line changes nothing, in any section. */
  lemma BlankLine(d: Draft)
    ensures Step(d, "") == d
  {
    assert KeywordOf("") == None;
  }

  /** The edit text's bullets carry no keyword. */
  lemma BulletIsPlain(c: string)
    ensures Plain("- " + c)
  {
    KeyChars("- " + c);
  }

  /** Removing the dash from each bullet gives back the trimmed
      constraints. */
  lemma {:induction false} DashedBullets(constraints: seq<string>)
    requires forall i :: 0 <= i < |constraints| ==> IsTrimmed(constraints[i])
    ensures Dashed(Bullets(constraints)) == constraints
    decreases |constraints|
  {
    if constraints != [] {
      var bullets := Bullets(constraints);
      BulletReadsBack(constraints[0]);
      DashedBullets(constraints[1..]);
      assert bullets[1..] == Bullets(constraints[1..]);
      DashedCons(bullets);
      HeadAndTail(constraints);
    }
  }

  /** One bullet line gives back its constraint. */
  lemma BulletReadsBack(c: string)
    requires IsTrimmed(c)
    ensures DashedLine("- " + c) == [c]
  {
    var line := "- " + c;
    assert line[..1] == "-" && line[1..] == " " + c;
    TrimAfterSpaces(" ", c);
  }

  lemma DashedCons(lines: seq<string>)
    requires lines != []
    ensures Dashed(lines) == DashedLine(lines[0]) + Dashed(lines[1..])
  {
  }

  /** The questions whose edit text reads back as themselves: every field
      fits on one line, is trimmed and is not empty, there is at least one
      constraint, and the description does not start with a keyword. */
  predicate WellFormed(q: Question) {
    SingleLine(q)
    && IsTrimmed(q.title) && q.title != ""
    && IsTrimmed(q.description) && q.description != "" && Plain(q.description)
    && q.constraints != [] && (forall i :: 0 <= i < |q.constraints| ==> IsTrimmed(q.constraints[i]))
    && IsTrimmed(q.example.input) && q.example.input != ""
    && IsTrimmed(q.example.output) && q.example.output != ""
    && IsTrimmed(q.example.explanation) && q.example.explanation != ""
  }

  /** Processing five lines is five steps. */
  lemma RunFive(d: Draft, lines: seq<string>)
    requires |lines| == 5
    ensures Run(d, lines) == Step(Step(Step(Step(Step(d, lines[0]), lines[1]), lines[2]), lines[3]), lines[4])
  {
    var d1 := Step(d, lines[0]);
    var d2 := Step(d1, lines[1]);
    var d3 := Step(d2, lines[2]);
    var d4 := Step(d3, lines[3]);
    assert Run(d, lines) == Run(d1, lines[1..]);
    assert Run(d1, lines[1..]) == Run(d2, lines[2..]) by { RunFrom(d1, lines, 1); }
    assert Run(d2, lines[2..]) == Run(d3, lines[3..]) by { RunFrom(d2, lines, 2); }
    assert Run(d3, lines[3..]) == Run(d4, lines[4..]) by { RunFrom(d3, lines, 3); }
    assert Run(d4, lines[4..]) == Run(Step(d4, lines[4]), []) by { RunFrom(d4, lines, 4); }
  }

  /** The lines up to the constraints heading fill the title and the
      description and leave the parser in the constraints section. */
  lemma HeadParsed(title: string, description: string)
    requires IsTrimmed(title) && IsTrimmed(description) && description != "" && Plain(description)
    ensures Run(EmptyDraft, [TitleKey + " " + title, "", DescriptionKey, description, "", ConstraintsKey])
      == Draft(title, description, [], "", "", "", ConstraintsSection)
  {
    var h := [TitleKey + " " + title, "", DescriptionKey, description, "", ConstraintsKey];
    var d1 := Step(EmptyDraft, h[0]);
    assert d1 == EmptyDraft.(title := title) by {
      FieldLine(EmptyDraft, Title, title);
    }
    RunFrom(EmptyDraft, h, 0);
    RunFive(d1, h[1..]);
    BlankLine(d1);
    HeadingLine(d1, Description);
    var d3 := d1.(section := DescriptionSection);
    TrimTrimmed(description);
    assert Step(d3, description) == d3.(description := description);
    BlankLine(d3.(description := description));
    HeadingLine(d3.(description := description), Constraints);
  }

  /** The lines after the constraints fill the example's three fields. */
  lemma TailParsed(d: Draft, input: string, output: string, explanation: string)
    requires IsTrimmed(input) && IsTrimmed(output) && IsTrimmed(explanation)
    ensures Run(d, ["", ExampleKey, InputKey + " " + input, OutputKey + " " + output,
      ExplanationKey + " " + explanation])
      == d.(section := ExampleSection, input := input, output := output, explanation := explanation)
  {
    var t := ["", ExampleKey, InputKey + " " + input, OutputKey + " " + output,
      ExplanationKey + " " + explanation];
    RunFive(d, t);
    BlankLine(d);
    var d2 := d.(section := ExampleSection);
    HeadingLine(d, ExampleHeading);
    FieldLine(d2, Input, input);
    FieldLine(d2.(input := input), Output, output);
    FieldLine(d2.(input := input, output := output), Explanation, explanation);
  }

  /** Saving the text that editing produced gives back the question,
      whatever the previous question was, for every well-formed question. */
  lemma RoundTrip(q: Question, previous: Question)
    requires WellFormed(q)
    ensures Saved(EditText(q), previous) == q
  {
    var h, b, t := HeadLines(q), Bullets(q.constraints), TailLines(q);
    var e := q.example;
    var d := Draft(q.title, q.description, [], "", "", "", ConstraintsSection);
    var dc := d.(constraints := q.constraints);
    var final := Draft(q.title, q.description, q.constraints, e.input, e.output, e.explanation, ExampleSection);
    assert Run(EmptyDraft, h) == d by {
      HeadParsed(q.title, q.description);
    }
    assert Run(d, b) == dc by {
      forall i | 0 <= i < |b|
        ensures Plain(b[i])
      {
        BulletIsPlain(q.constraints[i]);
      }
      ConstraintsCollected(d, b);
      DashedBullets(q.constraints);
    }
    assert Run(dc, t) == final by {
      TailParsed(dc, e.input, e.output, e.explanation);
    }
    assert Run(EmptyDraft, h + b + t) == final by {
      RunAppend(EmptyDraft, h + b, t);
      RunAppend(EmptyDraft, h, b);
    }
    EditTextLines(q);
    assert Split(EditText(q), '\n') == h + b + t;
    assert Merge(final, previous) == q;
  }

  /** The question panel's state: the question shown, whether the edit box
      is open, and the edit box's text. */
  class QuestionPanel {
    var question: Question
    var isEditing: bool
    var questionText: string

    constructor()
      ensures question == DefaultQuestion && !isEditing && questionText == ""
    {
      question := DefaultQuestion;
      isEditing := false;
      questionText := "";
    }

    /** handleQuestionEdit: fill the edit box from the question and open
        it. */
    method Edit()
      modifies this
      ensures question == old(question)
      ensures questionText == EditText(question) && isEditing
    {
      questionText := Join(HeadLines(question) + [Join(Bullets(question.constraints), "\n")] + TailLines(question), "\n");
      isEditing := true;
    }

    /** handleQuestionSave: parse the edit box line by line, keep the
        previous value of every field the text left empty, and close the
        box. After Edit, a well-formed question survives unchanged
        (RoundTrip). */
    method Save()
      modifies this
      ensures question == Saved(old(questionText), old(question))
      ensures questionText == old(questionText) && !isEditing
    {
      var parsed := ParseLines(Split(questionText, '\n'));
      question := Question(
        if parsed.title != "" then parsed.title else question.title,
        if parsed.description != "" then parsed.description else question.description,
        if |parsed.constraints| > 0 then parsed.constraints else question.constraints,
        Example(
          if parsed.input != "" then parsed.input else question.example.input,
          if parsed.output != "" then parsed.output else question.example.output,
          if parsed.explanation != "" then parsed.explanation else question.example.explanation));
      isEditing := false;
    }
  }

  /** The loop of handleQuestionSave over the edit box's lines; the draft
      holds its local variables. */
  method ParseLines(lines: seq<string>) returns (parsed: Draft)
    ensures parsed == Run(EmptyDraft, lines)
  {
    parsed := EmptyDraft;
    for i := 0 to |lines|
      invariant parsed == Run(EmptyDraft, lines[..i])
    {
      var next := ParseLine(parsed, lines[i]);
      RunExtends(lines, i, parsed, next);
      parsed := next;
    }
    assert lines[..|lines|] == lines;
  }

  /** One more iteration of the loop extends the run by the next line. */
  lemma RunExtends(lines: seq<string>, i: nat, parsed: Draft, next: Draft)
    requires i < |lines| && parsed == Run(EmptyDraft, lines[..i]) && next == Step(parsed, lines[i])
    ensures next == Run(EmptyDraft, lines[..i + 1])
  {
    TakeOneMore(lines, i);
    RunSnoc(EmptyDraft, lines[..i], lines[i]);
  }

  /** One iteration: the keyword checks in order, then the section
      rules. */
  method ParseLine(d: Draft, line: string) returns (next: Draft)
    ensures next == Step(d, line)
  {
    if StartsWith(line, TitleKey) {
      ReplaceKeepsRest(line, TitleKey);
      next := d.(title := Trim(ReplaceFirst(line, TitleKey, "")));
    } else if StartsWith(line, DescriptionKey) {
      next := d.(section := DescriptionSection);
    } else if StartsWith(line, ConstraintsKey) {
      next := d.(section := ConstraintsSection);
    } else if StartsWith(line, ExampleKey) {
      next := d.(section := ExampleSection);
    } else if StartsWith(line, InputKey) {
      ReplaceKeepsRest(line, InputKey);
      next := d.(input := Trim(ReplaceFirst(line, InputKey, "")));
    } else if StartsWith(line, OutputKey) {
      ReplaceKeepsRest(line, OutputKey);
      next := d.(output := Trim(ReplaceFirst(line, OutputKey, "")));
    } else if StartsWith(line, ExplanationKey) {
      ReplaceKeepsRest(line, ExplanationKey);
      next := d.(explanation := Trim(ReplaceFirst(line, ExplanationKey, "")));
    } else if d.section == DescriptionSection && Trim(line) != "" {
      next := d.(description := d.description + (if d.description != "" then " " else "") + Trim(line));
    } else if d.section == ConstraintsSection && StartsWith(line, "-") {
      ReplaceKeepsRest(line, "-");
      next := d.(constraints := d.constraints + [Trim(ReplaceFirst(line, "-", ""))]);
    } else {
      next := d;
    }
  }
}
