/**
 * The template registry and the output formatter of the feedback mail
 * generator: four fixed templates, each an ordered list of form fields, and
 * the function that turns a template name and the entered field values into
 * one text block with fixed labels.
 */
module Templates {
  import opened Wrappers
  import opened Strings

  /** How a field is entered: a drop-down list, a multi-line or a one-line text box. */
  datatype FieldKind = Select | TextArea | Text

  /** A form field, shown under its label (`caption`); `options` lists a drop-down's choices and is empty for text fields. */
  datatype Field = Field(key: string, caption: string, kind: FieldKind, options: seq<string>)

  datatype Template = Template(name: string, fields: seq<Field>)

  /** The entered values: a field key maps to its text once the user has edited that field. */
  type Values = map<string, string>

  /** The registry, in the order its switcher buttons appear. */
  const Formats: seq<Template> := [
    Template("Interview", [
      Field("taskStatus", "Task Status", Select, ["Completed", "Cancelled", "Rescheduled", "Not Done"]),
      Field("interviewRound", "Interview Round", Select,
            ["Screening", "1st", "2nd", "Technical", "Managerial", "Final", "HR", "Loop"]),
      Field("feedback", "Feedback", TextArea, []),
      Field("questions", "Interview Questions Asked", TextArea, [])
    ]),
    Template("Mock Interview", [
      Field("taskStatus", "Task Status", Select, ["Completed", "Not Done", "Cancelled"]),
      Field("feedback", "Feedback", TextArea, []),
      Field("questions", "Mock Interview Questions", TextArea, [])
    ]),
    Template("Resume Understanding", [
      Field("taskStatus", "Task Status", Select, ["Completed", "Not Done", "Cancelled"]),
      Field("feedback", "Feedback", TextArea, [])
    ]),
    Template("Assessment", [
      Field("taskStatus", "Task Status", Select, ["Completed", "Not Done", "Cancelled"]),
      Field("assessmentType", "Assessment Type", Select, ["Behavioral", "Technical"]),
      Field("feedback", "Feedback", TextArea, [])
    ])
  ]

  // ---------------------------------------------------------------------
  // registry

  function Names(ts: seq<Template>): seq<string> {
    seq(|ts|, i requires 0 <= i < |ts| => ts[i].name)
  }

  function Keys(t: Template): set<string> {
    set f | f in t.fields :: f.key
  }

  predicate NamesDistinct(ts: seq<Template>) {
    forall i, j :: 0 <= i < j < |ts| ==> ts[i].name != ts[j].name
  }

  predicate KeysUnique(t: Template) {
    forall i, j :: 0 <= i < j < |t.fields| ==> t.fields[i].key != t.fields[j].key
  }

  predicate SelectsHaveOptions(t: Template) {
    forall f :: f in t.fields && f.kind == Select ==> |f.options| > 0
  }

  /** What the application relies on of every template in the registry. */
  predicate WellFormed(t: Template) {
    && KeysUnique(t)
    && SelectsHaveOptions(t)
    && "taskStatus" in Keys(t)
    && "feedback" in Keys(t)
  }

  /** The registry's invariants: distinct names, and every template well formed. */
  lemma RegistryWellFormed()
    ensures Names(Formats) == ["Interview", "Mock Interview", "Resume Understanding", "Assessment"]
    ensures NamesDistinct(Formats)
    ensures forall t :: t in Formats ==> WellFormed(t)
  {
    assert Formats[0].fields[0].key == "taskStatus";
    assert Formats[0].fields[2].key == "feedback";
    assert Formats[1].fields[0].key == "taskStatus";
    assert Formats[1].fields[1].key == "feedback";
    assert Formats[2].fields[0].key == "taskStatus";
    assert Formats[2].fields[1].key == "feedback";
    assert Formats[3].fields[0].key == "taskStatus";
    assert Formats[3].fields[2].key == "feedback";
  }

  /** `ts.find(t => t.name === name)` as an index: the first template with that name. */
  function FindIndex(ts: seq<Template>, name: string): (r: Option<nat>)
    ensures r.Some? ==> r.value < |ts| && ts[r.value].name == name
    ensures forall j :: 0 <= j < |ts| && (r.None? || j < r.value) ==> ts[j].name != name
  {
    if ts == [] then None
    else if ts[0].name == name then Some(0)
    else match FindIndex(ts[1..], name)
      case None => None
      case Some(i) => Some(i + 1)
  }

  /** The registered template with the given name (the source's `formats.find`). */
  function Lookup(name: string): (r: Option<Template>)
    ensures r.Some? ==> r.value in Formats && r.value.name == name
    ensures r.None? <==> name !in Names(Formats)
  {
    match FindIndex(Formats, name)
    case None => None
    case Some(i) => assert Names(Formats)[i] == name; Some(Formats[i])
  }

  /** Looking up any registered template by its own name finds that template. */
  lemma LookupRegistered(i: nat)
    requires i < |Formats|
    ensures Lookup(Formats[i].name) == Some(Formats[i])
  {
    RegistryWellFormed();
    var r := FindIndex(Formats, Formats[i].name);
    assert r.Some?;
  }

  // ---------------------------------------------------------------------
  // the formatter

  /** `values[key] || ""`: a missing or empty value renders as the empty string. */
  function OrEmpty(values: Values, key: string): string {
    if key in values then values[key] else ""
  }

  /** Line `i` (counting from 0) of the questions, numbered by its position, or blank. */
  function NumberLine(i: nat, line: string): string {
    var t := Trim(line);
    if t != "" then NatToString(i + 1) + ". " + t else ""
  }

  /** `lines.map((q, i) => ...)`: each line numbered by its original index. */
  function NumberedLines(lines: seq<string>): seq<string> {
    seq(|lines|, i requires 0 <= i < |lines| => NumberLine(i, lines[i]))
  }

  /** `text.split("\n").map(...).join("\n")`: the numbered-questions block. */
  function NumberedList(text: string): string {
    Join(NumberedLines(Split(text, '\n')), '\n')
  }

  /**
   * `${values.questions?.split(...)...}`: with no questions entered the
   * optional chain yields `undefined`, which the template literal renders
   * as the text "undefined".
   */
  function QuestionsText(values: Values): string {
    if "questions" in values then NumberedList(values["questions"]) else "undefined"
  }

  /** The text of the `Task Status` line, with which every template's output begins. */
  function StatusLine(values: Values): string {
    "Task Status: " + OrEmpty(values, "taskStatus")
  }

  /** `upper`, a line feed, then `lower`: two consecutive parts of a template literal. */
  function Above(upper: string, lower: string): string {
    upper + "\n" + lower
  }

  /** `formatOutput(selected, values)`: the text block for the selected template. */
  function FormatOutput(selected: string, values: Values): string {
    if selected == "Interview" then
      Above(StatusLine(values),
      Above("Interview Round: " + OrEmpty(values, "interviewRound"),
      Above("Feedback:",
      Above(OrEmpty(values, "feedback"),
      Above("Interview Questions Asked:",
            QuestionsText(values))))))
    else if selected == "Mock Interview" then
      Above(StatusLine(values),
      Above("Feedback:",
      Above(OrEmpty(values, "feedback"),
      Above("Mock Interview Questions:",
            QuestionsText(values)))))
    else if selected == "Resume Understanding" then
      Above(StatusLine(values),
      Above("Feedback:",
            OrEmpty(values, "feedback")))
    else if selected == "Assessment" then
      Above(StatusLine(values),
      Above("Assessment Type: " + OrEmpty(values, "assessmentType"),
      Above("Feedback:",
            OrEmpty(values, "feedback"))))
    else
      ""
  }

  // ---------------------------------------------------------------------
  // properties of the numbered-questions rule

  /** A numbered line is blank exactly when its source line is white space only, and never spans lines. */
  lemma NumberLineShape(i: nat, line: string)
    requires '\n' !in line
    ensures NumberLine(i, line) == "" <==> AllWhitespace(line)
    ensures !AllWhitespace(line) ==> NumberLine(i, line) == NatToString(i + 1) + ". " + Trim(line)
    ensures '\n' !in NumberLine(i, line)
  {
    TrimEmpty(line);
    TrimKeepsAbsent(line, '\n');
    var n := NatToString(i + 1);
    assert '\n' !in n by {
      forall j | 0 <= j < |n| ensures n[j] != '\n' { assert '0' <= n[j] <= '9'; }
    }
    if !AllWhitespace(line) {
      var r := n + ". " + Trim(line);
      forall j | 0 <= j < |r| ensures r[j] != '\n' {
        if j < |n| { assert r[j] == n[j]; }
        else if j >= |n| + 2 { assert r[j] == Trim(line)[j - |n| - 2]; }
      }
    }
  }

  /**
   * The numbered-questions block has exactly one line per input line: line
   * `i` is empty when input line `i` is blank or white space only, and is
   * otherwise `i + 1`, a dot, a space and the trimmed input line, so blank
   * lines leave gaps in the numbering.
   */
  lemma NumberedListShape(text: string)
    ensures var lines, out := Split(text, '\n'), Split(NumberedList(text), '\n');
      && |out| == |lines|
      && forall i :: 0 <= i < |lines| ==>
           && (out[i] == "" <==> AllWhitespace(lines[i]))
           && (!AllWhitespace(lines[i]) ==> out[i] == NatToString(i + 1) + ". " + Trim(lines[i]))
  {
    var lines := Split(text, '\n');
    var numbered := NumberedLines(lines);
    SplitShape(text, '\n');
    forall i | 0 <= i < |lines| ensures '\n' !in numbered[i] {
      NumberLineShape(i, lines[i]);
    }
    SplitJoin(numbered, '\n');
    forall i | 0 <= i < |lines|
      ensures numbered[i] == "" <==> AllWhitespace(lines[i])
      ensures !AllWhitespace(lines[i]) ==> numbered[i] == NatToString(i + 1) + ". " + Trim(lines[i])
    {
      NumberLineShape(i, lines[i]);
    }
  }

  lemma GapExampleLines()
    ensures Split("a\n\nb", '\n') == ["a", "", "b"]
  {
    assert "a\n\nb" == Above("a", Above("", "b"));
    AboveLines("a", Above("", "b"));
    AboveLines("", "b");
    SplitPiece("a", '\n');
    SplitPiece("b", '\n');
  }

  lemma GapExampleNumbered()
    ensures NumberedLines(["a", "", "b"]) == ["1. a", "", "3. b"]
  {
    assert Trim("a") == "a" by { assert Leading("a") == 0; assert BackWhitespace("a", 1) == 1; }
    assert Trim("b") == "b" by { assert Leading("b") == 0; assert BackWhitespace("b", 1) == 1; }
    assert Trim("") == "";
    assert Digit(1) == '1' && Digit(3) == '3';
    assert NatToString(1) == "1" && NatToString(3) == "3";
    assert NumberLine(0, "a") == "1. a";
    assert NumberLine(1, "") == "";
    assert NumberLine(2, "b") == "3. b";
  }

  lemma GapExampleJoined()
    ensures Join(["1. a", "", "3. b"], '\n') == "1. a\n\n3. b"
  {
    var p := ["1. a", "", "3. b"];
    assert p[1..] == ["", "3. b"];
    assert p[1..][1..] == ["3. b"];
    assert Join(p[1..][1..], '\n') == "3. b";
    assert Join(p[1..], '\n') == "\n3. b";
  }

  /** The blank middle line keeps its number: "a", "", "b" become "1. a", "", "3. b". */
  lemma NumberingGapExample()
    ensures NumberedList("a\n\nb") == "1. a\n\n3. b"
  {
    GapExampleLines();
    GapExampleNumbered();
    GapExampleJoined();
  }

  // ---------------------------------------------------------------------
  // properties of the formatter

  /** The lines of two parts one above the other are the lines of each in turn. */
  lemma AboveLines(upper: string, lower: string)
    ensures Split(Above(upper, lower), '\n') == Split(upper, '\n') + Split(lower, '\n')
  {
    assert Above(upper, lower) == upper + ['\n'] + lower;
    SplitAround(upper, '\n', lower);
  }

  /** A fixed heading is one line. */
  lemma HeadingLine(heading: string)
    requires heading in {"Feedback:", "Interview Questions Asked:", "Mock Interview Questions:"}
    ensures Split(heading, '\n') == [heading]
  {
    SplitPiece(heading, '\n');
  }

  /**
   * The Interview output, line by line: the status, the round, the
   * `Feedback:` heading, the feedback's lines, the questions heading and the
   * lines of the questions block.
   */
  lemma InterviewLayout(values: Values)
    ensures Split(FormatOutput("Interview", values), '\n')
      == Split(StatusLine(values), '\n')
       + (Split("Interview Round: " + OrEmpty(values, "interviewRound"), '\n')
       + (["Feedback:"]
       + (Split(OrEmpty(values, "feedback"), '\n')
       + (["Interview Questions Asked:"]
       + Split(QuestionsText(values), '\n')))))
  {
    var a, b, c, d := StatusLine(values), "Interview Round: " + OrEmpty(values, "interviewRound"),
                      OrEmpty(values, "feedback"), QuestionsText(values);
    AboveLines(a, Above(b, Above("Feedback:", Above(c, Above("Interview Questions Asked:", d)))));
    AboveLines(b, Above("Feedback:", Above(c, Above("Interview Questions Asked:", d))));
    AboveLines("Feedback:", Above(c, Above("Interview Questions Asked:", d)));
    AboveLines(c, Above("Interview Questions Asked:", d));
    AboveLines("Interview Questions Asked:", d);
    HeadingLine("Feedback:");
    HeadingLine("Interview Questions Asked:");
  }

  /** The Mock Interview output, line by line: status, feedback, the questions heading and block. */
  lemma MockInterviewLayout(values: Values)
    ensures Split(FormatOutput("Mock Interview", values), '\n')
      == Split(StatusLine(values), '\n')
       + (["Feedback:"]
       + (Split(OrEmpty(values, "feedback"), '\n')
       + (["Mock Interview Questions:"]
       + Split(QuestionsText(values), '\n'))))
  {
    var a, c, d := StatusLine(values), OrEmpty(values, "feedback"), QuestionsText(values);
    AboveLines(a, Above("Feedback:", Above(c, Above("Mock Interview Questions:", d))));
    AboveLines("Feedback:", Above(c, Above("Mock Interview Questions:", d)));
    AboveLines(c, Above("Mock Interview Questions:", d));
    AboveLines("Mock Interview Questions:", d);
    HeadingLine("Feedback:");
    HeadingLine("Mock Interview Questions:");
  }

  /** The Resume Understanding output, line by line: status, the `Feedback:` heading and the feedback. */
  lemma ResumeUnderstandingLayout(values: Values)
    ensures Split(FormatOutput("Resume Understanding", values), '\n')
      == Split(StatusLine(values), '\n') + (["Feedback:"] + Split(OrEmpty(values, "feedback"), '\n'))
  {
    var a, c := StatusLine(values), OrEmpty(values, "feedback");
    AboveLines(a, Above("Feedback:", c));
    AboveLines("Feedback:", c);
    HeadingLine("Feedback:");
  }

  /** The Assessment output, line by line: status, assessment type, the `Feedback:` heading and the feedback. */
  lemma AssessmentLayout(values: Values)
    ensures Split(FormatOutput("Assessment", values), '\n')
      == Split(StatusLine(values), '\n')
       + (Split("Assessment Type: " + OrEmpty(values, "assessmentType"), '\n')
       + (["Feedback:"]
       + Split(OrEmpty(values, "feedback"), '\n')))
  {
    var a, b, c := StatusLine(values), "Assessment Type: " + OrEmpty(values, "assessmentType"),
                   OrEmpty(values, "feedback");
    AboveLines(a, Above(b, Above("Feedback:", c)));
    AboveLines(b, Above("Feedback:", c));
    AboveLines("Feedback:", c);
    HeadingLine("Feedback:");
  }

  /** Resume Understanding and Assessment outputs do not depend on the questions, entered or not. */
  lemma QuestionsIgnored(selected: string, values: Values, questions: string)
    requires selected == "Resume Understanding" || selected == "Assessment"
    ensures FormatOutput(selected, values["questions" := questions]) == FormatOutput(selected, values)
    ensures FormatOutput(selected, values - {"questions"}) == FormatOutput(selected, values)
  {
  }

  /** Lines put below others keep their last two places at the end. */
  lemma KeepsLastTwo(xs: seq<string>, ys: seq<string>)
    requires |ys| >= 2
    ensures |xs + ys| >= 2
    ensures (xs + ys)[|xs + ys| - 1] == ys[|ys| - 1] && (xs + ys)[|xs + ys| - 2] == ys[|ys| - 2]
  {
  }

  /** With no questions entered, the questions block is the single line "undefined". */
  lemma QuestionsTextMissing(values: Values)
    requires "questions" !in values
    ensures Split(QuestionsText(values), '\n') == ["undefined"]
  {
    SplitPiece("undefined", '\n');
  }

  lemma InterviewEndsUndefined(values: Values)
    requires "questions" !in values
    ensures var lines := Split(FormatOutput("Interview", values), '\n');
      |lines| >= 2 && lines[|lines| - 1] == "undefined" && lines[|lines| - 2] == "Interview Questions Asked:"
  {
    InterviewLayout(values);
    QuestionsTextMissing(values);
    var y0 := ["Interview Questions Asked:"] + Split(QuestionsText(values), '\n');
    assert |y0| == 2 && y0[1] == "undefined" && y0[0] == "Interview Questions Asked:";
    var y1 := Split(OrEmpty(values, "feedback"), '\n') + y0;
    KeepsLastTwo(Split(OrEmpty(values, "feedback"), '\n'), y0);
    var y2 := ["Feedback:"] + y1;
    KeepsLastTwo(["Feedback:"], y1);
    var y3 := Split("Interview Round: " + OrEmpty(values, "interviewRound"), '\n') + y2;
    KeepsLastTwo(Split("Interview Round: " + OrEmpty(values, "interviewRound"), '\n'), y2);
    KeepsLastTwo(Split(StatusLine(values), '\n'), y3);
  }

  lemma MockInterviewEndsUndefined(values: Values)
    requires "questions" !in values
    ensures var lines := Split(FormatOutput("Mock Interview", values), '\n');
      |lines| >= 2 && lines[|lines| - 1] == "undefined" && lines[|lines| - 2] == "Mock Interview Questions:"
  {
    MockInterviewLayout(values);
    QuestionsTextMissing(values);
    var y0 := ["Mock Interview Questions:"] + Split(QuestionsText(values), '\n');
    assert |y0| == 2 && y0[1] == "undefined" && y0[0] == "Mock Interview Questions:";
    var y1 := Split(OrEmpty(values, "feedback"), '\n') + y0;
    KeepsLastTwo(Split(OrEmpty(values, "feedback"), '\n'), y0);
    var y2 := ["Feedback:"] + y1;
    KeepsLastTwo(["Feedback:"], y1);
    KeepsLastTwo(Split(StatusLine(values), '\n'), y2);
  }

  /** With no questions entered, the Interview and Mock Interview outputs end in the text "undefined". */
  lemma MissingQuestionsRenderUndefined(selected: string, values: Values)
    requires selected == "Interview" || selected == "Mock Interview"
    requires "questions" !in values
    ensures var lines := Split(FormatOutput(selected, values), '\n');
      |lines| >= 2 && lines[|lines| - 1] == "undefined"
      && lines[|lines| - 2] == (if selected == "Interview" then "Interview Questions Asked:" else "Mock Interview Questions:")
  {
    if selected == "Interview" { InterviewEndsUndefined(values); } else { MockInterviewEndsUndefined(values); }
  }

  /** Every registered template's output begins with its status line; any other name yields "". */
  lemma FormatOutputRegistered(selected: string, values: Values)
    ensures Lookup(selected).Some? ==> StatusLine(values) <= FormatOutput(selected, values)
    ensures Lookup(selected).None? ==> FormatOutput(selected, values) == ""
  {
    RegistryWellFormed();
    if Lookup(selected).Some? {
      FindIndexName(selected);
    }
  }

  /** The keys of the four registered templates. */
  lemma InterviewKeys()
    ensures Keys(Formats[0]) == {"taskStatus", "interviewRound", "feedback", "questions"}
  {
    var fs := Formats[0].fields;
    assert fs[0].key == "taskStatus" && fs[1].key == "interviewRound" && fs[2].key == "feedback" && fs[3].key == "questions";
  }

  lemma MockInterviewKeys()
    ensures Keys(Formats[1]) == {"taskStatus", "feedback", "questions"}
  {
    var fs := Formats[1].fields;
    assert fs[0].key == "taskStatus" && fs[1].key == "feedback" && fs[2].key == "questions";
  }

  lemma ResumeUnderstandingKeys()
    ensures Keys(Formats[2]) == {"taskStatus", "feedback"}
  {
    var fs := Formats[2].fields;
    assert fs[0].key == "taskStatus" && fs[1].key == "feedback";
  }

  lemma AssessmentKeys()
    ensures Keys(Formats[3]) == {"taskStatus", "assessmentType", "feedback"}
  {
    var fs := Formats[3].fields;
    assert fs[0].key == "taskStatus" && fs[1].key == "assessmentType" && fs[2].key == "feedback";
  }

  /** Two value maps that agree on the keys in `keys`. */
  predicate AgreeOn(v1: Values, v2: Values, keys: set<string>) {
    forall k :: k in keys ==> OrEmpty(v1, k) == OrEmpty(v2, k) && (k in v1 <==> k in v2)
  }

  /**
   * The output depends only on the values of the selected template's own
   * fields: value maps that agree on those keys give the same text.
   */
  lemma ReadsOnlyTemplateFields(i: nat, v1: Values, v2: Values)
    requires i < |Formats|
    requires AgreeOn(v1, v2, Keys(Formats[i]))
    ensures FormatOutput(Formats[i].name, v1) == FormatOutput(Formats[i].name, v2)
  {
    if i == 0 {
      InterviewKeys();
      assert QuestionsText(v1) == QuestionsText(v2) by { assert "questions" in Keys(Formats[0]); }
    } else if i == 1 {
      MockInterviewKeys();
      assert QuestionsText(v1) == QuestionsText(v2) by { assert "questions" in Keys(Formats[1]); }
    } else if i == 2 {
      ResumeUnderstandingKeys();
    } else {
      AssessmentKeys();
    }
  }

  /** A name the formatter accepts is one of the four in the registry, and which one it is fixes the lookup. */
  lemma FindIndexName(selected: string)
    requires Lookup(selected).Some?
    ensures Lookup(selected).value == Formats[FindIndex(Formats, selected).value]
    ensures selected in {"Interview", "Mock Interview", "Resume Understanding", "Assessment"}
  {
    RegistryWellFormed();
  }

  /**
   * An Assessment whose status and type are single-line choices renders as
   * three labelled lines in fixed order followed by the feedback's lines,
   * with no questions section.
   */
  lemma AssessmentLines(values: Values)
    requires '\n' !in OrEmpty(values, "taskStatus") && '\n' !in OrEmpty(values, "assessmentType")
    ensures Split(FormatOutput("Assessment", values), '\n')
         == ["Task Status: " + OrEmpty(values, "taskStatus"),
             "Assessment Type: " + OrEmpty(values, "assessmentType"),
             "Feedback:"]
          + Split(OrEmpty(values, "feedback"), '\n')
  {
    AssessmentLayout(values);
    SplitPiece("Task Status: " + OrEmpty(values, "taskStatus"), '\n');
    SplitPiece("Assessment Type: " + OrEmpty(values, "assessmentType"), '\n');
  }
}
