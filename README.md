# Feedback mail generator: a Dafny model

The application is a small React front end. Recruiters use it to write status mails about interviews, mock interviews, resume reviews and assessments. This project models its three pieces of logic and proves properties of them:

- **Template registry and formatter** (`src/App.jsx`). Four templates (Interview, Mock Interview, Resume Understanding, Assessment) each list their fields. `formatOutput` turns the selected template and the entered values into a text block. In that block a missing value other than the questions renders as the empty string (a missing questions value renders `undefined`, see below), and the free-text questions become a numbered list. Each question keeps the number of its original line, and blank lines stay blank.
- **The form's state** (`src/App.jsx`). The selected template, the entered values and the generated output are fields of the class `FormApp.App`. Its methods are the three event handlers: change a field, switch template, generate.
- **Quality meter** (`src/FeedbackQualityMeter.jsx`). A table maps the five quality labels to levels 1 to 5. Any other quality is meant to fall back to Neutral; the code misses this for inherited object member names (see "## Findings"). Five segments light up to the level.
- **Feedback analysis** (`src/Gemini.jsx`). Non-empty feedback is put into a fixed prompt and sent to a language-model service. From the reply's text, the code takes:
  1. the content of a json-tagged code fence if there is one;
  2. otherwise the content of an untagged fence;
  3. otherwise the whole text.

  That substring is parsed as JSON. A failed parse yields the sentinel object "AI did not return valid JSON.". A failed call yields "Error calling Gemini API.".

The Dafny modules are as follows:

- `Wrappers`: `Option`.
- `Strings`: the JavaScript string operations the code relies on, each with its laws:
  - `trim`;
  - `split` and `join` on one character;
  - decimal rendering of a number;
  - substring search.
- `Templates`: the registry and `formatOutput`.
- `FormApp`: the form's state.
- `QualityMeter`: the meter.
- `FeedbackAnalysis`: the analysis.

Three points where the code behaves differently from what a reader might expect. The model follows the code in each:

- **Missing questions.** The other fields fall back to `""` through `|| ""` (src/App.jsx:56-59, 79-82). The questions field has no such fallback: it is `values.questions?.split(...)` inside a template literal (src/App.jsx:61-64, 70-73). So when the questions field of an Interview or Mock Interview was never edited, the output ends in the text `undefined`. `Templates.MissingQuestionsRenderUndefined` states this.
- **Non-2xx responses.** `fetch` does not reject on a non-2xx status. An error body's JSON has no candidate text, so the text is `""` and the analysis ends with the invalid-JSON sentinel, not the API-error sentinel. The API-error sentinel comes only from a rejected request, a body that is not JSON, or a candidate text that is truthy but not a string (it has no `match` method).
- **Layout per template.** The formatter is a `switch` with one fixed layout per template name. It is not driven by the registry's field list. The model keeps that structure. `Templates.ReadsOnlyTemplateFields` proves that each layout reads only its own template's fields.

## Model

| member | source | states |
|---|---|---|
| Templates.RegistryWellFormed | src/App.jsx:4-51 | The registry holds exactly Interview, Mock Interview, Resume Understanding and Assessment, in that order. The names are distinct. Within each template the field keys are unique, every select field has options, and the fields include taskStatus and feedback. |
| Templates.InterviewKeys | src/App.jsx:5-27 | The Interview template's fields are taskStatus, interviewRound, feedback and questions. |
| Templates.MockInterviewKeys | src/App.jsx:28-35 | The Mock Interview template's fields are taskStatus, feedback and questions. |
| Templates.ResumeUnderstandingKeys | src/App.jsx:36-42 | The Resume Understanding template's fields are taskStatus and feedback. |
| Templates.AssessmentKeys | src/App.jsx:43-50 | The Assessment template's fields are taskStatus, assessmentType and feedback. |
| Templates.FindIndex | src/App.jsx:93 | `find` returns the first template with the given name. No template before it has that name, and None means that no template has it. |
| Templates.Lookup | src/App.jsx:93 | A lookup by name returns a registered template with exactly that name. It fails exactly when the name is not registered. |
| Templates.LookupRegistered | src/App.jsx:93 | Looking up any registered template's own name returns that template. |
| Templates.FindIndexName | src/App.jsx:93 | A name the lookup accepts is one of the four template names, and the lookup returns the template at the index `find` reports. |
| Templates.NumberLineShape | src/App.jsx:63 | A question line renders blank exactly when it is all white space. Otherwise it renders as its 1-based index, ". " and the trimmed line. It never contains a line feed. |
| Templates.NumberedListShape | src/App.jsx:61-64 | The numbered block has as many lines as the questions text. Each line is blank exactly when its question line is white space only, and otherwise is number, ". ", trimmed text. Numbers count original lines, so blank lines leave gaps. |
| Templates.NumberingGapExample | src/App.jsx:61-64 | "a", blank, "b" is numbered "1. a", blank, "3. b". |
| Templates.InterviewLayout | src/App.jsx:55-64 | The Interview output, line by line, is as follows. (1) "Task Status: " and the status. (2) "Interview Round: " and the round. (3) "Feedback:". (4) The feedback's own lines. (5) "Interview Questions Asked:". (6) The numbered block or "undefined". A missing value renders as "". |
| Templates.MockInterviewLayout | src/App.jsx:65-73 | The Mock Interview output, line by line: the status line, "Feedback:", the feedback's lines, "Mock Interview Questions:", then the numbered block or "undefined". |
| Templates.ResumeUnderstandingLayout | src/App.jsx:74-77 | The Resume Understanding output, line by line: the status line, "Feedback:", then the feedback's lines. |
| Templates.AssessmentLayout | src/App.jsx:78-82 | The Assessment output, line by line: the status line, "Assessment Type: " and the type, "Feedback:", then the feedback's lines. |
| Templates.AssessmentLines | src/App.jsx:78-82 | When status and type are single-line, the Assessment output's lines are exactly the three fixed lines followed by the feedback's lines. |
| Templates.QuestionsIgnored | src/App.jsx:74-82 | The Resume Understanding and Assessment outputs do not change when questions are entered, changed or removed. |
| Templates.MissingQuestionsRenderUndefined | src/App.jsx:60-73 | For Interview and Mock Interview with no questions entered, the last line is "undefined", right under the questions heading. |
| Templates.FormatOutputRegistered | src/App.jsx:53-86 | A registered template's output begins with its "Task Status: " line. Every other name yields "" (the `default` branch). |
| Templates.ReadsOnlyTemplateFields | src/App.jsx:53-86 | A template's output depends only on the values of that template's own fields. |
| FormApp.App.constructor | src/App.jsx:89-91 | The form starts on Interview, with no values and an empty output. |
| FormApp.App.Current | src/App.jsx:93 | The current template is a registered template whose name is the selected one. |
| FormApp.App.HandleFieldChange | src/App.jsx:95-97 | The key gets the new value and every other key keeps its value. The selection and the output are unchanged. If all entered keys belong to the current template and the key does too, that still holds afterwards. |
| FormApp.App.SwitchTemplate | src/App.jsx:114-122 | The chosen registered template becomes the current one. The values are cleared and the output is emptied, so every entered key belongs to the new template. |
| FormApp.App.HandleGenerate | src/App.jsx:99-101 | The output becomes the formatted text for the current selection and values, beginning with the status line. The selection and the values are unchanged. |
| Strings.Trim | src/App.jsx:63 | The trimmed text is the slice of the input that starts after the leading white space and ends at the trailing white space. Everything after it is white space, and it neither begins nor ends with white space. |
| Strings.TrimEmpty | src/App.jsx:63 | Trimming gives "" exactly when the text is white space only (the falsy test on `q.trim()`). |
| Strings.TrimIdempotent | src/App.jsx:63 | Trimming twice is trimming once. |
| Strings.SplitShape | src/App.jsx:62 | Splitting on a character gives one piece more than the character's occurrences, and no piece contains it. |
| Strings.JoinSplit | src/App.jsx:62-64 | Joining the pieces of a split with the same separator gives back the text. |
| Strings.SplitJoin | src/App.jsx:62-64 | Splitting a join of separator-free pieces gives back the pieces. |
| Strings.SplitAround | src/App.jsx:56-64 | The lines of `a`, a line feed, then `b` are the lines of `a` followed by those of `b`. |
| Strings.NatToString | src/App.jsx:63 | The line number is rendered as a non-empty decimal numeral with no leading zero. |
| Strings.NatToStringValue | src/App.jsx:63 | The rendered numeral denotes the number. |
| Strings.SkipWhitespace | src/Gemini.jsx:27 | The greedy `\s*` stops at the first character that is not white space, and everything it skipped is white space. |
| Strings.FindFrom | src/Gemini.jsx:27-28 | The result is the first occurrence of the pattern at or after the start. None means that there is none. |
| QualityMeter.Info | src/FeedbackQualityMeter.jsx:2-52 | The level is between 1 and 5. The label is the quality itself when it is one of the five labels, and "Neutral" otherwise. The result is that label's table entry. |
| QualityMeter.LabelLevels | src/FeedbackQualityMeter.jsx:2-48 | Very Bad, Bad, Neutral, Good and Very Good are levels 1 to 5, and the table has exactly those five labels. |
| QualityMeter.FallbackIsNeutral | src/FeedbackQualityMeter.jsx:52 | Any other quality, or none, is shown as Neutral at level 3. |
| QualityMeter.LevelsInjective | src/FeedbackQualityMeter.jsx:2-48 | No two labels share a level. |
| QualityMeter.CountBelow | src/FeedbackQualityMeter.jsx:89-90 | Of `n` segments, the number lit is the level, clamped to between 0 and `n`. |
| QualityMeter.MeterSegments | src/FeedbackQualityMeter.jsx:51-90 | There are five segments, segment `i` is lit exactly when `i` is below the level, and exactly `level` of them are lit. |
| QualityMeter.InheritedNameEscapesFallback | src/FeedbackQualityMeter.jsx:52 | As written, a quality naming an inherited object member (such as "constructor") gets no level and no label and lights no segment. The intended lookup shows Neutral at level 3. |
| QualityMeter.AsWrittenAgreesElsewhere | src/FeedbackQualityMeter.jsx:52 | For every other quality, the code's lookup and the intended lookup agree. |
| FeedbackAnalysis.PromptInjective | src/Gemini.jsx:7-9 | Different feedback gives different prompts. |
| FeedbackAnalysis.JsonFenceAt | src/Gemini.jsx:27 | The json-tagged pattern matches at a position exactly when a fence with a case-insensitive "json" stands there and some fence follows the tag. The capture then starts after all the white space after the tag and ends at the first fence after that. |
| FeedbackAnalysis.JsonFenceMatchUnique | src/Gemini.jsx:27 | A match at a given position has only one possible capture. |
| FeedbackAnalysis.JsonFenceFrom | src/Gemini.jsx:27 | The match found is the leftmost one: the pattern matches at no earlier position. None means that it matches nowhere. |
| FeedbackAnalysis.PlainFenceAt | src/Gemini.jsx:28 | The untagged pattern matches at a fence exactly when another fence follows it. The capture is everything in between, up to the first closing fence. |
| FeedbackAnalysis.PlainFenceMatchUnique | src/Gemini.jsx:28 | An untagged match at a given position has only one capture. |
| FeedbackAnalysis.PlainFenceFrom | src/Gemini.jsx:28 | The untagged match found is the leftmost one. None means that there is none. |
| FeedbackAnalysis.JsonFencePreferred | src/Gemini.jsx:26-32 | The leftmost json-tagged match supplies the text parsed, wherever untagged fences appear. |
| FeedbackAnalysis.PlainFenceUsed | src/Gemini.jsx:26-32 | When nothing matches the json-tagged pattern, the leftmost untagged fence pair supplies the text parsed. |
| FeedbackAnalysis.NoFencePairKeepsText | src/Gemini.jsx:29 | A reply without two fences is parsed unchanged. |
| FeedbackAnalysis.FenceSampleUntagged | src/Gemini.jsx:28 | In the reply "```x```json\n1```", the untagged pattern alone would capture "x". |
| FeedbackAnalysis.FenceSampleTagged | src/Gemini.jsx:26-32 | In the same reply, the text parsed is "1": the later json-tagged fence wins over the earlier untagged one, and its newline is skipped. |
| FeedbackAnalysis.Analyze | src/Gemini.jsx:5-42 | No request is built or sent exactly when the feedback is empty or absent, and then the result is the early-return `null` (`NoAnalysis`). A sent request never yields `NoAnalysis`. Otherwise the request sent is the prompt for that feedback. |
| FeedbackAnalysis.SentOutcomes | src/Gemini.jsx:17-41 | Once a request is sent, the result is a parsed value or one of the two sentinels. Nothing propagates as an error. |
| FeedbackAnalysis.CallFailureSentinel | src/Gemini.jsx:39-40 | A failed call, or a truthy non-string candidate text, gives the API-error sentinel. |
| FeedbackAnalysis.DeliveredTextParsed | src/Gemini.jsx:26-38 | A delivered text is parsed after extraction. A successful parse is returned as it is, whatever its keys, and a failed one gives the invalid-JSON sentinel. |
| FeedbackAnalysis.MissingTextIsEmpty | src/Gemini.jsx:24-37 | A missing or falsy candidate text is parsed as "", giving the invalid-JSON sentinel. |

## Left out

- Rendering is not modelled: JSX, Tailwind class strings, the colour fields of the meter's table, inline styles, aria attributes and segment titles are presentation only.
- The copy button and its message are not modelled: `navigator.clipboard` and the `toast` (src/App.jsx:103-106) are browser I/O.
- The request itself is not modelled: `fetch`, the URL, the API key, `import.meta.env` and `res.json()` are network and configuration I/O. The model receives what the call delivered as the parameter `send`. `CallFailed` covers a rejected request and a body that is not JSON.
- FeedbackAnalysis.Analyze: keeps the early return (`NoAnalysis`) apart from a sent request whose text parses to JSON `null` (`Parsed` of the null value). The code returns `null` in both cases (src/Gemini.jsx:6, 34-35), and its caller treats them alike (src/Gemini.jsx:72). The model does not identify the two.
- `JSON.parse` is the parameter `parse`, with `None` for a parse that throws. `FeedbackAnalysis.MissingTextIsEmpty` takes as a precondition that the empty text does not parse, which is true of `JSON.parse`.
- The `GeminiFeedbackAnalysis` component is not modelled: its effect, its `cancelled` flag and its loading state (src/Gemini.jsx:44-82) are asynchronous React lifecycle behaviour.
- Browser `required` validation on the inputs is not modelled. The platform enforces it, and the handlers accept any value.
- A value the form stores is a string, and the formatter's `|| ""` treats the empty string like a missing one. `OrEmpty` models that. Other falsy JavaScript values cannot reach the form.
- Strings are sequences of Unicode scalar values, not UTF-16 code units. White space is the fixed ECMAScript set that `trim` and `\s` share. Case-insensitive "json" compares ASCII letters only, as `/i` does without the `u` flag.
- FormApp.App.SwitchTemplate: takes the index of the button that was pressed, not its name, because the buttons are rendered from the registry.
- Templates.FormatOutput: its literal outputs are stated line by line in the layout lemmas, not as one string equality per template.

## Findings

| source | as written | input that shows it | evidently intended | confidence | as-written member | corrected member |
|---|---|---|---|---|---|---|
| src/FeedbackQualityMeter.jsx:52 | `qualityMap[quality]` also finds the members every object inherits from `Object.prototype`. These are truthy, so the Neutral fallback is skipped, and `info.level` and `info.label` are undefined. | quality = "constructor" (or "toString", "valueOf", "__proto__", …): no label is shown and no segment is lit | Any quality that is not one of the five labels is shown as Neutral at level 3 | not executed | QualityMeter.InheritedNameEscapesFallback | QualityMeter.Info |
