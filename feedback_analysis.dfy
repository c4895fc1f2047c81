/**
 * Feedback analysis: the prompt sent to the language-model service, the
 * choice of the substring of its reply that is parsed as JSON, and the
 * outcomes the analysis settles on. The service call and the JSON parser
 * are parameters: `send` yields what the call delivered for a prompt, and
 * `parse` is `JSON.parse`, with `None` for a parse that throws.
 */
module FeedbackAnalysis {
  import opened Wrappers
  import opened Strings

  // ---------------------------------------------------------------------
  // the prompt

  const Preamble: string :=
    "Analyze the following feedback and classify the quality as one of: Very Bad, Bad, Neutral, Good, Very Good. "
    + "Explain the reasoning concisely in a sentence. Return JSON with keys Quality and Reason.\n\nFeedback: \""

  /** The prompt: the fixed instructions, then the feedback between double quotes. */
  function Prompt(feedback: string): string {
    Preamble + feedback + "\""
  }

  /** Different feedback gives different prompts, so the prompt carries the whole feedback. */
  lemma PromptInjective(a: string, b: string)
    requires Prompt(a) == Prompt(b)
    ensures a == b
  {
    assert a == Prompt(a)[|Preamble|..|Prompt(a)| - 1];
  }

  // ---------------------------------------------------------------------
  // code fences in the reply

  const Fence: string := "```"

  lemma FenceStartsWithBacktick(s: string, q: nat)
    requires OccursAt(s, Fence, q)
    ensures q < |s| && s[q] == '`'
  {
    assert s[q..q + 3][0] == s[q];
  }

  /** At `p`: a fence followed by "json" in any mix of ASCII case (the `/i` flag). */
  predicate JsonTagAt(s: string, p: nat) {
    && OccursAt(s, Fence, p) && p + 7 <= |s|
    && (s[p + 3] == 'j' || s[p + 3] == 'J')
    && (s[p + 4] == 's' || s[p + 4] == 'S')
    && (s[p + 5] == 'o' || s[p + 5] == 'O')
    && (s[p + 6] == 'n' || s[p + 6] == 'N')
  }

  /**
   * Where a match begins (`open`) and where its capture group begins
   * (`start`) and ends (`end`, the position of the closing fence).
   */
  datatype Span = Span(open: nat, start: nat, end: nat)

  /** No fence begins in `[lo, hi)`. */
  predicate NoFenceBetween(s: string, lo: nat, hi: nat) {
    forall q :: lo <= q < hi ==> !OccursAt(s, Fence, q)
  }

  /** No fence begins at or after `lo`. */
  predicate NoFenceFrom(s: string, lo: nat) {
    forall q :: lo <= q <= |s| ==> !OccursAt(s, Fence, q)
  }

  /**
   * `/```json\s*([\s\S]*?)```/i` matching at `sp.open`: the tag, then all
   * the white space after it (the greedy `\s*`), then the shortest capture
   * that a fence closes (the lazy group).
   */
  predicate JsonFenceMatch(s: string, sp: Span) {
    && JsonTagAt(s, sp.open)
    && sp.open + 7 <= sp.start <= sp.end && sp.end + 3 <= |s|
    && WhitespaceBetween(s, sp.open + 7, sp.start)
    && (sp.start == |s| || !IsWhitespace(s[sp.start]))
    && OccursAt(s, Fence, sp.end)
    && NoFenceBetween(s, sp.start, sp.end)
  }

  /** `/```([\s\S]*?)```/` matching at `sp.open`: a fence and the shortest capture another fence closes. */
  predicate PlainFenceMatch(s: string, sp: Span) {
    && OccursAt(s, Fence, sp.open)
    && sp.start == sp.open + 3 <= sp.end && sp.end + 3 <= |s|
    && OccursAt(s, Fence, sp.end)
    && NoFenceBetween(s, sp.start, sp.end)
  }

  /** White space skipped after a tag holds no fence, so a closing fence after the tag lies after the white space. */
  lemma WhitespaceHasNoFence(s: string, lo: nat, hi: nat)
    requires lo <= hi <= |s| && WhitespaceBetween(s, lo, hi)
    ensures NoFenceBetween(s, lo, hi)
  {
    forall q | lo <= q < hi && OccursAt(s, Fence, q)
      ensures false
    {
      FenceStartsWithBacktick(s, q);
    }
  }

  /** A match begins at most one way: the white space skipped and the closing fence are both determined. */
  lemma JsonFenceMatchUnique(s: string, a: Span, b: Span)
    requires JsonFenceMatch(s, a) && JsonFenceMatch(s, b) && a.open == b.open
    ensures a == b
  {
    FenceEndsUnique(s, a.start, a.end, b.end);
  }

  lemma PlainFenceMatchUnique(s: string, a: Span, b: Span)
    requires PlainFenceMatch(s, a) && PlainFenceMatch(s, b) && a.open == b.open
    ensures a == b
  {
    FenceEndsUnique(s, a.start, a.end, b.end);
  }

  /** The first fence at or after `lo` is unique. */
  lemma FenceEndsUnique(s: string, lo: nat, e1: nat, e2: nat)
    requires lo <= e1 && OccursAt(s, Fence, e1) && NoFenceBetween(s, lo, e1)
    requires lo <= e2 && OccursAt(s, Fence, e2) && NoFenceBetween(s, lo, e2)
    ensures e1 == e2
  {
  }

  /** The json-tagged pattern tried at `p`: it matches exactly when a fence follows the tag somewhere. */
  function JsonFenceAt(s: string, p: nat): (r: Option<Span>)
    ensures r.Some? ==> r.value.open == p && JsonFenceMatch(s, r.value)
    ensures r.None? <==> !JsonTagAt(s, p) || NoFenceFrom(s, p + 7)
  {
    if !JsonTagAt(s, p) then None
    else
      var k := SkipWhitespace(s, p + 7);
      WhitespaceHasNoFence(s, p + 7, k);
      match FindFrom(s, Fence, k)
      case None => None
      case Some(m) => Some(Span(p, k, m))
  }

  /** The untagged pattern tried at `p`: it matches exactly when a second fence follows the one at `p`. */
  function PlainFenceAt(s: string, p: nat): (r: Option<Span>)
    ensures r.Some? ==> r.value.open == p && PlainFenceMatch(s, r.value)
    ensures r.None? <==> !OccursAt(s, Fence, p) || NoFenceFrom(s, p + 3)
  {
    if !OccursAt(s, Fence, p) then None
    else
      match FindFrom(s, Fence, p + 3)
      case None => None
      case Some(m) => Some(Span(p, p + 3, m))
  }

  /** The leftmost json-tagged match at or after `from`, as `String.prototype.match` finds it. */
  function JsonFenceFrom(s: string, from: nat): (r: Option<Span>)
    ensures r.Some? ==> from <= r.value.open && JsonFenceAt(s, r.value.open) == r
    ensures forall p :: from <= p && (r.None? || p < r.value.open) ==> JsonFenceAt(s, p).None?
    decreases |s| - from
  {
    if from + 7 > |s| then None
    else if JsonFenceAt(s, from).Some? then JsonFenceAt(s, from)
    else JsonFenceFrom(s, from + 1)
  }

  /** The leftmost untagged match at or after `from`. */
  function PlainFenceFrom(s: string, from: nat): (r: Option<Span>)
    ensures r.Some? ==> from <= r.value.open && PlainFenceAt(s, r.value.open) == r
    ensures forall p :: from <= p && (r.None? || p < r.value.open) ==> PlainFenceAt(s, p).None?
    decreases |s| - from
  {
    if from + 3 > |s| then None
    else if PlainFenceAt(s, from).Some? then PlainFenceAt(s, from)
    else PlainFenceFrom(s, from + 1)
  }

  /** The capture group of a match. */
  function Capture(s: string, sp: Span): string {
    if sp.start <= sp.end <= |s| then s[sp.start..sp.end] else ""
  }

  /** `jsonStr`: the capture of the json-tagged match, else that of the untagged match, else the whole text. */
  function Extract(text: string): string {
    match JsonFenceFrom(text, 0)
    case Some(sp) => Capture(text, sp)
    case None =>
      match PlainFenceFrom(text, 0)
      case Some(sp) => Capture(text, sp)
      case None => text
  }

  /**
   * The leftmost json-tagged fence wins, wherever untagged fences stand: the
   * text parsed is what follows the tag and its white space, up to the first
   * fence after that.
   */
  lemma JsonFencePreferred(text: string, sp: Span)
    requires JsonFenceMatch(text, sp)
    requires forall other :: JsonFenceMatch(text, other) ==> sp.open <= other.open
    ensures Extract(text) == text[sp.start..sp.end]
  {
    assert JsonFenceAt(text, sp.open).Some?;
    JsonFenceMatchUnique(text, JsonFenceAt(text, sp.open).value, sp);
    var r := JsonFenceFrom(text, 0);
    assert r.Some? && r.value.open == sp.open;
  }

  /** With no json-tagged match, the first untagged fence pair gives the capture. */
  lemma PlainFenceUsed(text: string, sp: Span)
    requires forall other :: !JsonFenceMatch(text, other)
    requires PlainFenceMatch(text, sp)
    requires forall other :: PlainFenceMatch(text, other) ==> sp.open <= other.open
    ensures Extract(text) == text[sp.start..sp.end]
  {
    assert PlainFenceAt(text, sp.open).Some?;
    PlainFenceMatchUnique(text, PlainFenceAt(text, sp.open).value, sp);
    var r := PlainFenceFrom(text, 0);
    assert r.Some? && r.value.open == sp.open;
  }

  /** A text with no two fences is parsed unchanged. */
  lemma NoFencePairKeepsText(text: string)
    requires forall p, q :: p + 3 <= q && OccursAt(text, Fence, p) ==> !OccursAt(text, Fence, q)
    ensures Extract(text) == text
  {
    assert JsonFenceFrom(text, 0).None? by {
      forall p | JsonFenceAt(text, p).Some?
        ensures false
      {
      }
    }
    assert PlainFenceFrom(text, 0).None? by {
      forall p | PlainFenceAt(text, p).Some?
        ensures false
      {
      }
    }
  }

  /** A reply with an untagged fence pair before a json-tagged one. */
  const FenceSample: string := "```x```json\n1```"

  lemma FenceSamplePositions()
    ensures OccursAt(FenceSample, Fence, 0) && OccursAt(FenceSample, Fence, 4) && OccursAt(FenceSample, Fence, 13)
    ensures forall q :: 1 <= q < 4 || 5 <= q < 13 ==> !OccursAt(FenceSample, Fence, q)
    ensures FenceSample[3] == 'x'
  {
    forall q | 1 <= q < 4 || 5 <= q < 13
      ensures !OccursAt(FenceSample, Fence, q)
    {
      var i := if q < 4 then 3 else if q < 7 then 7 else q;
      assert FenceSample[i] != '`';
    }
  }

  /** The untagged pattern alone would capture "x" ... */
  lemma FenceSampleUntagged()
    ensures PlainFenceFrom(FenceSample, 0) == Some(Span(0, 3, 4))
    ensures Capture(FenceSample, Span(0, 3, 4)) == "x"
  {
    FenceSamplePositions();
    assert FindFrom(FenceSample, Fence, 3) == Some(4);
  }

  /** ... but the later json-tagged fence is the one used, with its newline skipped. */
  lemma FenceSampleTagged()
    ensures Extract(FenceSample) == "1"
  {
    FenceSamplePositions();
    assert JsonTagAt(FenceSample, 4);
    assert SkipWhitespace(FenceSample, 11) == 12;
    assert FindFrom(FenceSample, Fence, 12) == Some(13);
    assert JsonFenceAt(FenceSample, 4) == Some(Span(4, 12, 13));
    assert JsonFenceFrom(FenceSample, 0) == Some(Span(4, 12, 13));
  }

  // ---------------------------------------------------------------------
  // the analysis

  /**
   * `data?.candidates?.[0]?.content?.parts?.[0]?.text` as the reply envelope
   * has it: absent, a string, or some other value that is truthy or not.
   */
  datatype Candidate = NoText | StringText(text: string) | OtherText(truthy: bool)

  /** What the call yields: it fails (the request is rejected or the body is not JSON), or it delivers an envelope. */
  datatype Reply = CallFailed | Delivered(candidate: Candidate)

  /** What the analysis returns: `null`, the parsed value, or a fixed object with `Quality` and `Reason`. */
  datatype Analysis<V> = NoAnalysis | Parsed(value: V) | Sentinel(quality: string, reason: string)

  /** The request that was sent, if any, and the analysis returned. */
  datatype Outcome<V> = Outcome(request: Option<string>, result: Analysis<V>)

  function ApiError<V>(): Analysis<V> {
    Sentinel("Unknown", "Error calling Gemini API.")
  }

  function InvalidJson<V>(): Analysis<V> {
    Sentinel("Unknown", "AI did not return valid JSON.")
  }

  /**
   * `aiText`: a falsy or missing candidate text becomes "", and a truthy
   * value that is not a string has no `match` method, so calling it throws
   * (`None`).
   */
  function ResponseText(c: Candidate): Option<string> {
    match c
    case NoText => Some("")
    case StringText(s) => Some(s)
    case OtherText(truthy) => if truthy then None else Some("")
  }

  /** Everything after the request: read the reply, extract, parse, and turn each failure into its sentinel. */
  function Interpret<V>(reply: Reply, parse: string -> Option<V>): Analysis<V> {
    match reply
    case CallFailed => ApiError()
    case Delivered(c) =>
      match ResponseText(c)
      case None => ApiError()
      case Some(text) =>
        match parse(Extract(text))
        case None => InvalidJson()
        case Some(v) => Parsed(v)
  }

  /** `analyzeFeedbackWithGemini`. */
  function Analyze<V>(feedback: Option<string>, send: string -> Reply, parse: string -> Option<V>): (o: Outcome<V>)
    ensures o.request.None? <==> feedback.None? || feedback.value == ""
    ensures o.request.Some? ==> o.request.value == Prompt(feedback.value)
    ensures o.result.NoAnalysis? <==> o.request.None?
  {
    if feedback.None? || feedback.value == "" then Outcome(None, NoAnalysis)
    else
      var prompt := Prompt(feedback.value);
      Outcome(Some(prompt), Interpret(send(prompt), parse))
  }

  /** Once a request is sent, the outcome is the parsed value or one of the two sentinels, never an error. */
  lemma SentOutcomes<V>(feedback: string, send: string -> Reply, parse: string -> Option<V>)
    requires feedback != ""
    ensures var r := Analyze(Some(feedback), send, parse).result;
      || r.Parsed?
      || r == ApiError()
      || r == InvalidJson()
  {
  }

  /** A failed call, or a candidate text that is truthy but not a string, gives the API-error sentinel. */
  lemma CallFailureSentinel<V>(feedback: string, send: string -> Reply, parse: string -> Option<V>)
    requires feedback != ""
    requires send(Prompt(feedback)) == CallFailed || send(Prompt(feedback)) == Delivered(OtherText(true))
    ensures Analyze(Some(feedback), send, parse).result == ApiError()
  {
  }

  /**
   * A delivered text is parsed after extraction: a successful parse is
   * returned as it is, whichever keys it has, and a failed one gives the
   * invalid-JSON sentinel.
   */
  lemma DeliveredTextParsed<V>(feedback: string, send: string -> Reply, parse: string -> Option<V>, text: string)
    requires feedback != ""
    requires send(Prompt(feedback)) == Delivered(StringText(text))
    ensures var r := Analyze(Some(feedback), send, parse).result;
      && (parse(Extract(text)).Some? ==> r == Parsed(parse(Extract(text)).value))
      && (parse(Extract(text)).None? ==> r == InvalidJson())
  {
  }

  /**
   * A missing or falsy candidate text is read as "", which has no fence and
   * is parsed as it is; since `JSON.parse("")` throws, the result is the
   * invalid-JSON sentinel.
   */
  lemma MissingTextIsEmpty<V>(feedback: string, send: string -> Reply, parse: string -> Option<V>)
    requires feedback != ""
    requires send(Prompt(feedback)) == Delivered(NoText) || send(Prompt(feedback)) == Delivered(OtherText(false))
    requires parse("").None?
    ensures Analyze(Some(feedback), send, parse).result == InvalidJson()
  {
    NoFencePairKeepsText("");
  }
}
