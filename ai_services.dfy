/** The deterministic parts of the back end's AI services: cutting the JSON
    span out of a model reply, the fallbacks when there is none, the three-insight
    cap, the pending-component summary and the passed-test count. The model call
    itself is a parameter (its reply or the error it raised), and so is JSON
    decoding (with the validation of the decoded records). */
module AiServices {
  import opened Models

  /** `str.find(c)`: the first index of c, or -1. */
  function Find(s: string, c: char): (r: int)
    ensures -1 <= r < |s|
    ensures r == -1 <==> c !in s
    ensures r >= 0 ==> s[r] == c && c !in s[..r]
  {
    if s == [] then -1
    else if s[0] == c then 0
    else
      var k := Find(s[1..], c);
      assert s[1..] == s[..|s|][1..];
      if k == -1 then -1
      else
        assert s[..k + 1] == [s[0]] + s[1..][..k];
        k + 1
  }

  /** `str.rfind(c)`: the last index of c, or -1. */
  function RFind(s: string, c: char): (r: int)
    ensures -1 <= r < |s|
    ensures r == -1 <==> c !in s
    ensures r >= 0 ==> s[r] == c && c !in s[r + 1..]
  {
    if s == [] then -1
    else if s[|s| - 1] == c then |s| - 1
    else
      var k := RFind(s[..|s| - 1], c);
      assert s == s[..|s| - 1] + [s[|s| - 1]];
      assert k >= 0 ==> s[k + 1..] == s[..|s| - 1][k + 1..] + [s[|s| - 1]];
      k
  }

  /** A `close` after index i lies at or before the last `close`, and not on i
      when i holds a different character. */
  lemma CloseAfter(response: string, close: char, i: nat)
    requires i < |response| && response[i] != close && close in response[i..]
    ensures RFind(response, close) > i
  {
    var j := RFind(response, close);
    var d :| 0 <= d < |response[i..]| && response[i..][d] == close;
    var k := i + d;
    assert response[k] == close;
    forall m | j < m < |response|
      ensures response[m] != close
    {
      assert response[m] == response[j + 1..][m - j - 1];
    }
  }

  /** The first `open` and the last `close` delimit a span exactly when some
      `close` follows the first `open`; the span then starts with `open` and
      ends with `close`. */
  lemma SpanEnds(response: string, open: char, close: char)
    requires open != close
    ensures var i := Find(response, open); var j := RFind(response, close);
      (i != -1 && j > i) <==> (open in response && close in response[i..])
    ensures var i := Find(response, open); var j := RFind(response, close);
      i != -1 && j > i ==>
        |response[i..j + 1]| >= 2 && response[i..j + 1][0] == open && response[i..j + 1][j - i] == close
  {
    var i := Find(response, open);
    var j := RFind(response, close);
    if i != -1 {
      if close in response[i..] {
        CloseAfter(response, close, i);
      }
      if j > i {
        assert response[i..][j - i] == close;
        assert response[i..j + 1][0] == response[i];
        assert response[i..j + 1][j - i] == response[j];
      }
    }
  }

  /** `response[response.find(open) : response.rfind(close) + 1]`, taken only
      when `open` occurs and the last `close` lies after the first `open`. The
      span runs from the first `open` to the last `close`, both included. */
  function ExtractSpan(response: string, open: char, close: char): (span: Option<string>)
    requires open != close
    ensures span.None? <==> (open !in response || close !in response[Find(response, open)..])
    ensures span.Some? ==>
      var i := Find(response, open);
      var j := RFind(response, close);
      0 <= i < j && span.value == response[i..j + 1]
    ensures span.Some? ==> |span.value| >= 2 && span.value[0] == open && span.value[|span.value| - 1] == close
  {
    var start := Find(response, open);
    var end := RFind(response, close) + 1;
    SpanEnds(response, open, close);
    if start != -1 && end > start then Some(response[start..end]) else None
  }

  /** What the model call gave back: its reply, or the message of the exception it raised. */
  datatype Reply = Answered(text: string) | Raised(error: string)

  /** What decoding a JSON span into records gave: the records, a JSON syntax
      error, or another exception (a record that fails validation). */
  datatype Decoded<T> = Decoded(value: T) | DecodeError | Invalid(error: string)

  const UnclearImage := "Unable to parse screenshot. Please ensure the image is clear and contains visible marks."
  const RetryWithClearerImage := "Unable to parse screenshot data. Please try again with a clearer image."
  const ScreenshotErrorPrefix := "Error analyzing screenshot: "

  /** A screenshot analysis that found nothing, with one message for the student. */
  function Fallback(message: string): ScreenshotAnalysisResult {
    ScreenshotAnalysisResult([], [message])
  }

  /** `analyze_screenshot` after the model call: the `{`…`}` span is decoded;
      without a span, on a syntax error and on any other exception the result
      has no subjects and exactly one explanatory message. */
  function AnalyzeScreenshot(reply: Reply, loads: string -> Decoded<ScreenshotAnalysisResult>): (r: ScreenshotAnalysisResult)
    ensures reply.Raised? ==> r == Fallback(ScreenshotErrorPrefix + reply.error)
    ensures reply.Answered? && ExtractSpan(reply.text, '{', '}').None? ==> r == Fallback(UnclearImage)
    ensures reply.Answered? && ExtractSpan(reply.text, '{', '}').Some? ==>
      match loads(ExtractSpan(reply.text, '{', '}').value)
      case Decoded(v) => r == v
      case DecodeError => r == Fallback(RetryWithClearerImage)
      case Invalid(e) => r == Fallback(ScreenshotErrorPrefix + e)
  {
    match reply
    case Raised(e) => Fallback(ScreenshotErrorPrefix + e)
    case Answered(text) =>
      match ExtractSpan(text, '{', '}')
      case None => Fallback(UnclearImage)
      case Some(json) =>
        match loads(json)
        case Decoded(v) => v
        case DecodeError => Fallback(RetryWithClearerImage)
        case Invalid(e) => Fallback(ScreenshotErrorPrefix + e)
  }

  /** `items[:3]`: the first three items, or all of them when there are fewer. */
  function FirstThree<T>(items: seq<T>): (r: seq<T>)
    ensures |r| <= 3 && |r| <= |items|
    ensures |r| == 3 || |r| == |items|
    ensures r == items[..|r|]
  {
    if |items| < 3 then items else items[..3]
  }

  /** Every one of these raw items validated as an insight. */
  predicate AllValid(items: seq<Option<TacticalInsight>>) {
    forall i :: 0 <= i < |items| ==> items[i].Some?
  }

  function Values(items: seq<Option<TacticalInsight>>): (r: seq<TacticalInsight>)
    requires AllValid(items)
    ensures |r| == |items| && forall i :: 0 <= i < |items| ==> r[i] == items[i].value
  {
    seq(|items|, i requires 0 <= i < |items| => items[i].value)
  }

  /** `generate_tactical_insights` after the model call: the `[`…`]` span is
      decoded into raw items (None for one that fails validation; decoding gives
      None on a syntax error); at most the first three are validated and
      returned, in order. Every failure yields no insight. */
  function TacticalInsights(reply: Reply, loads: string -> Option<seq<Option<TacticalInsight>>>): (r: seq<TacticalInsight>)
    ensures |r| <= 3
    ensures reply.Raised? ==> r == []
    ensures reply.Answered? && ExtractSpan(reply.text, '[', ']').None? ==> r == []
    ensures reply.Answered? && ExtractSpan(reply.text, '[', ']').Some? ==>
      match loads(ExtractSpan(reply.text, '[', ']').value)
      case None => r == []
      case Some(items) =>
        if AllValid(FirstThree(items)) then
          |r| == |FirstThree(items)| && forall i :: 0 <= i < |r| ==> r[i] == items[i].value
        else r == []
  {
    match reply
    case Raised(_) => []
    case Answered(text) =>
      match ExtractSpan(text, '[', ']')
      case None => []
      case Some(json) =>
        match loads(json)
        case None => []
        case Some(items) =>
          var first := FirstThree(items);
          if AllValid(first) then Values(first) else []
  }

  /** `[c for c in components if c.get("pending")]`. */
  function PendingComponents(comps: seq<Component>): (r: seq<Component>)
    ensures |r| <= |comps|
    ensures forall c :: c in r <==> c in comps && c.pending
  {
    if comps == [] then []
    else
      var last := comps[|comps| - 1];
      assert comps == comps[..|comps| - 1] + [last];
      PendingComponents(comps[..|comps| - 1]) + (if last.pending then [last] else [])
  }

  /** The filter keeps the original order: it distributes over concatenation. */
  lemma {:induction false} PendingComponentsAppend(a: seq<Component>, b: seq<Component>)
    ensures PendingComponents(a + b) == PendingComponents(a) + PendingComponents(b)
  {
    if b != [] {
      var n := |b| - 1;
      assert (a + b)[..|a + b| - 1] == a + b[..n];
      PendingComponentsAppend(a, b[..n]);
    } else {
      assert a + b == a;
    }
  }

  /** What the prompt is told about one subject. */
  datatype SubjectSummary = SubjectSummary(name: Option<string>, compliance: Option<real>, pendingComponents: seq<Component>)

  function Summarize(subject: SubjectDocument): (r: SubjectSummary)
    ensures r.name == subject.name && r.compliance == subject.compliance
    ensures subject.components.None? ==> r.pendingComponents == []
    ensures forall c :: c in r.pendingComponents <==>
      subject.components.Some? && c in subject.components.value && c.pending
  {
    SubjectSummary(subject.name, subject.compliance, PendingComponents(subject.components.GetOr([])))
  }

  /** The `subjects_summary` loop: one summary per subject, in order; a subject
      stored without components has no pending component. */
  method SubjectsSummary(subjects: seq<SubjectDocument>) returns (summary: seq<SubjectSummary>)
    ensures |summary| == |subjects|
    ensures forall i :: 0 <= i < |subjects| ==> summary[i] == Summarize(subjects[i])
    ensures forall i :: 0 <= i < |subjects| && subjects[i].components.None? ==> summary[i].pendingComponents == []
  {
    summary := [];
    for k := 0 to |subjects|
      invariant |summary| == k
      invariant forall i :: 0 <= i < k ==> summary[i] == Summarize(subjects[i])
    {
      var subject := subjects[k];
      summary := summary + [SubjectSummary(subject.name, subject.compliance, PendingComponents(subject.components.GetOr([])))];
    }
  }

  /** `sum(1 for r in test_results if r.get('passed'))`. */
  function PassedCount(results: seq<TestResult>): (n: nat)
    ensures n <= |results|
    ensures n == |results| <==> forall i :: 0 <= i < |results| ==> results[i].passed
  {
    if results == [] then 0
    else
      var init := results[..|results| - 1];
      assert forall i :: 0 <= i < |init| ==> init[i] == results[i];
      PassedCount(init) + (if results[|results| - 1].passed then 1 else 0)
  }

  /** The "passed/total" figures of the mentor prompt. */
  function MentorCounts(results: seq<TestResult>): (counts: (nat, nat))
    ensures counts.0 <= counts.1 == |results|
  {
    (PassedCount(results), |results|)
  }
}
