/**
 * The trace route (server/routes/trace.ts): the model is asked where a news
 * item came from, the call is retried while the service is busy, and the
 * reply is read as JSON through three tiers — the whole text, a fenced code
 * block, the span between the first `{` and the last `}`. Whatever goes
 * wrong, the route answers with a fully populated default report.
 */
module Trace {
  import opened Wrappers
  import opened Text
  import opened JsonValue
  import Analysis
  import TracePrompt

  const DefaultMaxRetries: int := 3
  const BusyStatus: int := 503
  const BusyMessage: string := "AI service is busy, please try again later"
  const UnavailableMessage: string := "Analysis temporarily unavailable"
  const DefaultSource: string := "Unknown"
  const DefaultLocale: string := "en"
  const Fence: string := "```"
  const JsonTag: string := "json"
  const PreviewLength: nat := 100

  /**
   * One call to the model: it resolves with a reply whose text may be
   * absent, or throws an error whose `status` may be absent.
   */
  datatype Outcome = Reply(text: Option<string>) | Failure(status: Option<int>)

  /** The model as the route sees it: the outcome of attempt `i` (from 0) for a prompt. */
  type Model = (string, nat) -> Outcome

  /** How `callWithRetry` settles: with a string, or by rethrowing an error. */
  datatype CallResult = Returned(text: string) | Thrown(status: Option<int>)

  /** A settled `callWithRetry`: its result, the calls it made and the waits between them. */
  datatype RetryRun = RetryRun(result: CallResult, calls: nat, delays: seq<nat>)

  /** The wait after failed attempt `i` (from 0): 2000 ms times the attempt's number. */
  function BackoffMs(i: nat): nat {
    2000 * (i + 1)
  }

  /** `callWithRetry` from attempt `i` on. */
  function Retry(prompt: string, maxRetries: int, model: Model, i: nat): RetryRun
    decreases if maxRetries > i then maxRetries - i else 0
  {
    if maxRetries <= i then RetryRun(Returned(""), 0, [])
    else match model(prompt, i)
      case Reply(text) => RetryRun(Returned(text.GetOr("")), 1, [])
      case Failure(status) =>
        if status == Some(BusyStatus) && i < maxRetries - 1 then
          var rest := Retry(prompt, maxRetries, model, i + 1);
          RetryRun(rest.result, rest.calls + 1, [BackoffMs(i)] + rest.delays)
        else RetryRun(Thrown(status), 1, [])
  }

  /**
   * `callWithRetry(prompt, maxRetries)`: returns the result, the number of
   * calls made and the waits made between them.
   */
  method CallWithRetry(prompt: string, maxRetries: int, model: Model)
    returns (result: CallResult, calls: nat, delays: seq<nat>)
    ensures RetryRun(result, calls, delays) == Retry(prompt, maxRetries, model, 0)
  {
    var i: nat := 0;
    calls := 0;
    delays := [];
    while i < maxRetries
      invariant calls == i
      invariant var rest := Retry(prompt, maxRetries, model, i);
        Retry(prompt, maxRetries, model, 0) == RetryRun(rest.result, calls + rest.calls, delays + rest.delays)
      decreases maxRetries - i
    {
      var outcome := model(prompt, i);
      calls := calls + 1;
      match outcome {
        case Reply(text) =>
          assert delays + [] == delays;
          return Returned(text.GetOr("")), calls, delays;
        case Failure(status) =>
          if status == Some(BusyStatus) && i < maxRetries - 1 {
            ghost var rest := Retry(prompt, maxRetries, model, i + 1);
            assert delays + ([BackoffMs(i)] + rest.delays) == (delays + [BackoffMs(i)]) + rest.delays;
            delays := delays + [BackoffMs(i)];
            i := i + 1;
          } else {
            assert delays + [] == delays;
            return Thrown(status), calls, delays;
          }
      }
    }
    assert delays + [] == delays;
    return Returned(""), calls, delays;
  }

  /**
   * The shape of every run: no call at all when no attempt is allowed, else
   * at most the allowed attempts; one wait between consecutive calls, the
   * `k`-th of `2000 * (k + 1)` ms; and every call but the last was a busy error.
   */
  lemma {:induction false} RetryShape(prompt: string, maxRetries: int, model: Model, i: nat)
    ensures var run := Retry(prompt, maxRetries, model, i);
      && (run.calls == 0 <==> maxRetries <= i)
      && (maxRetries > i ==> run.calls <= maxRetries - i)
      && (run.calls == 0 ==> run.result == Returned("") && run.delays == [])
      && (run.calls > 0 ==> |run.delays| == run.calls - 1)
      && (forall k :: 0 <= k < |run.delays| ==> run.delays[k] == BackoffMs(i + k))
      && (forall j :: i <= j < i + |run.delays| ==> model(prompt, j) == Failure(Some(BusyStatus)))
    decreases if maxRetries > i then maxRetries - i else 0
  {
    if maxRetries > i {
      match model(prompt, i)
      case Reply(_) =>
      case Failure(status) =>
        if status == Some(BusyStatus) && i < maxRetries - 1 {
          RetryShape(prompt, maxRetries, model, i + 1);
          var rest := Retry(prompt, maxRetries, model, i + 1);
          var run := Retry(prompt, maxRetries, model, i);
          forall k | 0 < k < |run.delays|
            ensures run.delays[k] == BackoffMs(i + k)
          {
            assert run.delays[k] == rest.delays[k - 1];
          }
        }
    }
  }

  /**
   * The last call decides the result: a reply is returned (`''` for an
   * absent text), an error is rethrown, and a busy error is rethrown only
   * when it came from the last allowed attempt.
   */
  lemma {:induction false} RetryLastCall(prompt: string, maxRetries: int, model: Model, i: nat)
    requires maxRetries > i
    ensures Retry(prompt, maxRetries, model, i).calls >= 1
    ensures var run := Retry(prompt, maxRetries, model, i);
      var last := model(prompt, i + run.calls - 1);
      && (last.Reply? ==> run.result == Returned(last.text.GetOr("")))
      && (last.Failure? ==> run.result == Thrown(last.status))
      && (last == Failure(Some(BusyStatus)) ==> i + run.calls == maxRetries)
    decreases maxRetries - i
  {
    match model(prompt, i)
    case Reply(_) =>
    case Failure(status) =>
      if status == Some(BusyStatus) && i < maxRetries - 1 {
        RetryLastCall(prompt, maxRetries, model, i + 1);
        var rest := Retry(prompt, maxRetries, model, i + 1);
        assert i + 1 + rest.calls - 1 == i + (rest.calls + 1) - 1;
      }
  }

  /** A model busy twice and then answering is called three times, with waits of 2 s and 4 s. */
  lemma BusyTwiceThenAnswer(prompt: string, model: Model, answer: string)
    requires model(prompt, 0) == Failure(Some(BusyStatus))
    requires model(prompt, 1) == Failure(Some(BusyStatus))
    requires model(prompt, 2) == Reply(Some(answer))
    ensures Retry(prompt, DefaultMaxRetries, model, 0) == RetryRun(Returned(answer), 3, [2000, 4000])
  {
    assert Retry(prompt, DefaultMaxRetries, model, 2) == RetryRun(Returned(answer), 1, []);
    assert Retry(prompt, DefaultMaxRetries, model, 1) == RetryRun(Returned(answer), 2, [4000]);
  }

  /** A model busy on every attempt is called three times and its busy error is rethrown. */
  lemma BusyThroughout(prompt: string, model: Model)
    requires forall i: nat :: model(prompt, i) == Failure(Some(BusyStatus))
    ensures Retry(prompt, DefaultMaxRetries, model, 0) == RetryRun(Thrown(Some(BusyStatus)), 3, [2000, 4000])
  {
    assert Retry(prompt, DefaultMaxRetries, model, 2) == RetryRun(Thrown(Some(BusyStatus)), 1, []);
    assert Retry(prompt, DefaultMaxRetries, model, 1) == RetryRun(Thrown(Some(BusyStatus)), 2, [4000]);
  }

  /** Any error other than a busy one ends the run after the first call, without waiting. */
  lemma OtherErrorNotRetried(prompt: string, maxRetries: int, model: Model, status: Option<int>)
    requires maxRetries >= 1 && status != Some(BusyStatus)
    requires model(prompt, 0) == Failure(status)
    ensures Retry(prompt, maxRetries, model, 0) == RetryRun(Thrown(status), 1, [])
  {
  }

  /** `/```(?:json)?\s*([\s\S]*?)```/` matches: a fence at `p` and another at `q` clear of it. */
  predicate FencePair(text: string, p: int, q: int) {
    OccursAt(text, Fence, p) && OccursAt(text, Fence, q) && p + |Fence| <= q
  }

  /** Where the captured text starts: after the first fence and its optional `json` tag. */
  function FenceBodyStart(text: string, p: nat): nat {
    if OccursAt(text, JsonTag, p + |Fence|) then p + |Fence| + |JsonTag| else p + |Fence|
  }

  /**
   * `text.match(/```(?:json)?\s*([\s\S]*?)```/)[1].trim()`: the text between
   * the first fence (and its `json` tag) and the next fence, trimmed. The
   * whitespace the pattern's `\s*` takes is whitespace `trim` removes too.
   */
  function FenceContent(text: string): (r: Option<string>)
    ensures r.None? <==> !exists p, q :: FencePair(text, p, q)
    ensures r.Some? ==> forall j :: !OccursAt(r.value, Fence, j)
  {
    match IndexOf(text, Fence)
    case None => None
    case Some(p) =>
      var start := FenceBodyStart(text, p);
      match IndexOfFrom(text, Fence, start)
      case None =>
        NoLaterFence(text, p);
        None
      case Some(q) =>
        assert FencePair(text, p, q);
        TrimmedBodyHasNoFence(text, start, q);
        Some(Trim(text[start..q]))
  }

  /** A body with no fence starting inside it keeps none once trimmed. */
  lemma TrimmedBodyHasNoFence(text: string, start: nat, q: nat)
    requires start <= q <= |text|
    requires forall j :: start <= j < q ==> !OccursAt(text, Fence, j)
    ensures forall j :: !OccursAt(Trim(text[start..q]), Fence, j)
  {
    var a, b := TrimOfSlice(text, start, q);
    NoOccurrenceInSlice(text, Fence, a, b, Trim(text[start..q]));
  }

  /** When no fence follows the first one's body start, the pattern matches nowhere. */
  lemma NoLaterFence(text: string, p: nat)
    requires IndexOf(text, Fence) == Some(p)
    requires IndexOfFrom(text, Fence, FenceBodyStart(text, p)).None?
    ensures !exists p', q :: FencePair(text, p', q)
  {
    var start := FenceBodyStart(text, p);
    forall p', q | OccursAt(text, Fence, p') && p' + |Fence| <= q
      ensures !OccursAt(text, Fence, q)
    {
      assert p <= p';
      if q < start {
        assert text[p + 3..p + 7] == JsonTag;
        assert text[q] == JsonTag[q - p - 3];
        assert q + |Fence| > |text| || text[q..q + |Fence|][0] == text[q];
      }
    }
  }

  /**
   * `text.indexOf('{')` and `text.lastIndexOf('}')`, both found, and
   * `text.slice(start, end + 1)`, which is `""` when the last `}` comes
   * before the first `{`.
   */
  function BraceSlice(text: string): (r: Option<string>)
    ensures r.None? <==> '{' !in text || '}' !in text
  {
    match FirstIndexOfChar(text, '{')
    case None => None
    case Some(start) =>
      match LastIndexOfChar(text, '}')
      case None => None
      case Some(end) => if start <= end then Some(text[start..end + 1]) else Some("")
  }

  /**
   * The brace tier agrees with the analysis route's `/\{[\s\S]*\}/` whenever
   * that pattern matches; when it does not but both braces occur, the last
   * `}` comes before the first `{` and the slice is empty.
   */
  lemma BraceSliceMatchesPattern(text: string)
    ensures Analysis.BraceMatch(text).Some? ==> BraceSlice(text) == Analysis.BraceMatch(text)
    ensures Analysis.BraceMatch(text).None? && BraceSlice(text).Some? ==> BraceSlice(text) == Some("")
  {
  }

  /** How the three tiers end: a parsed value, nothing to parse, or a parse that throws. */
  datatype Extraction = Parsed(value: Json) | NotFound | Threw

  /**
   * `JSON.parse(text)`; if that throws, the fenced block, else the brace
   * span. A fenced block or a brace span that does not parse throws out of
   * the extraction: there is no further tier.
   */
  function Extract(text: string, parse: string -> Option<Json>): (r: Extraction)
    ensures parse(text).Some? ==> r == Parsed(parse(text).value)
    ensures r.NotFound? <==> parse(text).None? && FenceContent(text).None? && BraceSlice(text).None?
    ensures FenceContent(text).Some? && parse(text).None? ==>
      r == (if parse(FenceContent(text).value).Some? then Parsed(parse(FenceContent(text).value).value) else Threw)
    ensures parse(text).None? && FenceContent(text).None? && BraceSlice(text).Some? ==>
      r == (if parse(BraceSlice(text).value).Some? then Parsed(parse(BraceSlice(text).value).value) else Threw)
  {
    match parse(text)
    case Some(v) => Parsed(v)
    case None =>
      match FenceContent(text)
      case Some(body) => (match parse(body) case Some(v) => Parsed(v) case None => Threw)
      case None =>
        match BraceSlice(text)
        case Some(span) => (match parse(span) case Some(v) => Parsed(v) case None => Threw)
        case None => NotFound
  }

  datatype Credibility = Credibility(score: real, level: string, reason: string)
  datatype Origin = Origin(source: string, time: string, kind: string, detail: string)
  datatype Spread = Spread(path: seq<string>, speed: string, scope: string, detail: string)
  datatype Distortion = Distortion(hasDistortion: bool, level: string, examples: seq<string>)

  /** The report the route sends when it has nothing better. */
  datatype TraceReport = TraceReport(
    summary: string,
    credibility: Credibility,
    origin: Origin,
    spread: Spread,
    keyPlayers: seq<Json>,
    timeline: seq<Json>,
    distortion: Distortion,
    relatedLinks: seq<Json>)

  /**
   * `getDefaultResponse(source, message)`: every field filled; the summary
   * is the message and the origin the source, when those are non-empty.
   */
  function DefaultResponse(source: Option<string>, message: Option<string>): (d: TraceReport)
    ensures d.summary == OrElse(message, "Unable to trace this news source")
    ensures d.origin.source == OrElse(source, DefaultSource)
    ensures d.summary != "" && d.origin.source != ""
    ensures d.credibility == Credibility(5.0, "Unknown", "Insufficient data for analysis")
    ensures d.keyPlayers == [] && d.timeline == [] && d.relatedLinks == []
    ensures d.origin.time == "Unknown" && d.origin.kind == "Unknown" && d.origin.detail == "Could not determine origin"
    ensures d.spread == Spread([], "Unknown", "Unknown", "No spread data available")
    ensures d.distortion == Distortion(false, "None", [])
  {
    TraceReport(
      OrElse(message, "Unable to trace this news source"),
      Credibility(5.0, "Unknown", "Insufficient data for analysis"),
      Origin(OrElse(source, DefaultSource), "Unknown", "Unknown", "Could not determine origin"),
      Spread([], "Unknown", "Unknown", "No spread data available"),
      [],
      [],
      Distortion(false, "None", []),
      [])
  }

  /** The body of a `/trace` answer: 400 for a missing title, else 200 with a parsed value or the default. */
  datatype TraceResponse = MissingTitle | Traced(value: Json) | Fallback(report: TraceReport)

  /**
   * What the route makes of a settled `callWithRetry`: a thrown error, a
   * blank reply, a parse that throws, or a value that is not truthy all
   * end in the default report.
   */
  function Respond(call: CallResult, source: Option<string>, parse: string -> Option<Json>): (r: TraceResponse)
    ensures r != MissingTitle
    ensures r.Traced? ==> Truthy(r.value)
    ensures r.Traced? ==> call.Returned? && Extract(call.text, parse).Parsed? && r.value == Extract(call.text, parse).value
    ensures r.Traced? <==> call.Returned? && Trim(call.text) != "" && Extract(call.text, parse).Parsed?
                           && Truthy(Extract(call.text, parse).value)
    ensures r.Fallback? ==> r.report.origin.source == OrElse(source, DefaultSource)
    ensures call.Thrown? ==> r == Fallback(DefaultResponse(source,
      Some(if call.status == Some(BusyStatus) then BusyMessage else UnavailableMessage)))
    ensures call.Returned? && Trim(call.text) == "" ==> r == Fallback(DefaultResponse(source, None))
    ensures call.Returned? && Trim(call.text) != "" && Extract(call.text, parse).Threw? ==>
      r == Fallback(DefaultResponse(source, Some(UnavailableMessage)))
    ensures call.Returned? && Trim(call.text) != ""
            && (Extract(call.text, parse).NotFound?
                || (Extract(call.text, parse).Parsed? && !Truthy(Extract(call.text, parse).value))) ==>
      r == Fallback(DefaultResponse(source, Some(Take(call.text, PreviewLength))))
  {
    match call
    case Thrown(status) =>
      Fallback(DefaultResponse(source, Some(if status == Some(BusyStatus) then BusyMessage else UnavailableMessage)))
    case Returned(text) =>
      if Trim(text) == "" then Fallback(DefaultResponse(source, None))
      else match Extract(text, parse)
        case Threw => Fallback(DefaultResponse(source, Some(UnavailableMessage)))
        case Parsed(v) =>
          if Truthy(v) then Traced(v) else Fallback(DefaultResponse(source, Some(Take(text, PreviewLength))))
        case NotFound => Fallback(DefaultResponse(source, Some(Take(text, PreviewLength))))
  }

  /**
   * `POST /trace`: a missing or empty title is refused without calling the
   * model; otherwise the prompt (locale `en` when none is given, source
   * `Unknown` when empty) goes through `callWithRetry` with three attempts.
   */
  method HandleTrace(title: Option<string>, source: Option<string>, locale: Option<string>,
                     model: Model, parse: string -> Option<Json>)
    returns (response: TraceResponse, calls: nat)
    ensures !Present(title) ==> response == MissingTitle && calls == 0
    ensures response == MissingTitle <==> !Present(title)
    ensures Present(title) ==>
      var prompt := TracePrompt.GetTracePrompt(locale.GetOr(DefaultLocale), title.value, OrElse(source, DefaultSource));
      var run := Retry(prompt, DefaultMaxRetries, model, 0);
      response == Respond(run.result, source, parse) && calls == run.calls
  {
    if !Present(title) {
      return MissingTitle, 0;
    }
    var prompt := TracePrompt.GetTracePrompt(locale.GetOr(DefaultLocale), title.value, OrElse(source, DefaultSource));
    var result, delays;
    result, calls, delays := CallWithRetry(prompt, DefaultMaxRetries, model);
    response := Respond(result, source, parse);
  }

  /** An empty or blank reply is answered with the default report and its own summary. */
  lemma BlankReplyGivesDefault(text: string, source: Option<string>, parse: string -> Option<Json>)
    requires forall k :: 0 <= k < |text| ==> IsWhitespace(text[k])
    ensures Respond(Returned(text), source, parse) == Fallback(DefaultResponse(source, None))
    ensures DefaultResponse(source, None).summary == "Unable to trace this news source"
  {
    TrimEmptyIffBlank(text);
  }

  /** A model busy on all three attempts ends in the default report with the busy message. */
  lemma BusyModelGivesBusyDefault(prompt: string, model: Model, source: Option<string>, parse: string -> Option<Json>)
    requires forall i: nat :: model(prompt, i) == Failure(Some(BusyStatus))
    ensures Respond(Retry(prompt, DefaultMaxRetries, model, 0).result, source, parse)
      == Fallback(DefaultResponse(source, Some(BusyMessage)))
    ensures DefaultResponse(source, Some(BusyMessage)).summary == BusyMessage
  {
    BusyThroughout(prompt, model);
  }

  /**
   * What the pattern captures: with `p` the first fence and `q` the first
   * fence at or after the body start, the trimmed text between them.
   * Backticks that do not form a fence (inline code) may occur anywhere.
   */
  lemma FenceContentOf(text: string, p: nat, q: nat)
    requires OccursAt(text, Fence, p) && forall j :: 0 <= j < p ==> !OccursAt(text, Fence, j)
    requires FenceBodyStart(text, p) <= q && OccursAt(text, Fence, q)
    requires forall j :: FenceBodyStart(text, p) <= j < q ==> !OccursAt(text, Fence, j)
    ensures FenceContent(text) == Some(Trim(text[FenceBodyStart(text, p)..q]))
  {
    var r := IndexOfFrom(text, Fence, 0);
    assert r.Some? && r.value == p;
    var r2 := IndexOfFrom(text, Fence, FenceBodyStart(text, p));
    assert r2.Some? && r2.value == q;
  }

  /** The body starts after the tag: `json` is skipped, and without a tag nothing is. */
  lemma BodyStartAfterTag(text: string, p: nat, tag: string)
    requires OccursAt(text, Fence, p) && (tag == "" || tag == JsonTag)
    requires tag == JsonTag ==> OccursAt(text, JsonTag, p + |Fence|)
    requires tag == "" ==> p + |Fence| == |text| || text[p + |Fence|] != 'j'
    ensures FenceBodyStart(text, p) == p + |Fence| + |tag|
  {
    var i := p + |Fence|;
    if tag == "" {
      assert !OccursAt(text, JsonTag, i) by {
        assert i + |JsonTag| > |text| || text[i..i + |JsonTag|][0] == text[i];
      }
    }
  }

  /**
   * A fenced reply is read through its body, with or without the `json`
   * tag, when the text before the fence and the body have no backtick.
   */
  lemma FencedBodyIsExtracted(pre: string, tag: string, body: string, post: string)
    requires '`' !in pre && '`' !in body && (tag == "" || tag == JsonTag)
    requires tag == "" ==> |body| == 0 || body[0] != 'j'
    ensures FenceContent(pre + Fence + tag + body + Fence + post) == Some(Trim(body))
  {
    var text := pre + Fence + tag + body + Fence + post;
    var p := |pre|;
    var start := p + |Fence| + |tag|;
    var q := start + |body|;
    assert text[p..p + |Fence|] == Fence;
    assert text[q..q + |Fence|] == Fence;
    assert text[start..q] == body;
    forall j | 0 <= j < p ensures !OccursAt(text, Fence, j) {
      assert text[j] == pre[j];
      assert j + |Fence| > |text| || text[j..j + |Fence|][0] == text[j];
    }
    forall j | start <= j < q ensures !OccursAt(text, Fence, j) {
      assert text[j] == body[j - start];
      assert j + |Fence| > |text| || text[j..j + |Fence|][0] == text[j];
    }
    if tag == JsonTag {
      assert text[p + |Fence|..p + |Fence| + |JsonTag|] == JsonTag;
    } else {
      assert text[start] == if |body| == 0 then '`' else body[0];
    }
    BodyStartAfterTag(text, p, tag);
    FenceContentOf(text, p, q);
    assert FenceBodyStart(text, p) == start;
    assert FenceContent(text) == Some(Trim(body));
  }

  /** An object wrapped in prose without backticks: the brace tier finds exactly the object. */
  lemma BraceSpanInProse(pre: string, obj: string, post: string)
    requires '`' !in pre + obj + post && '{' !in pre && '}' !in post
    requires |obj| >= 2 && obj[0] == '{' && obj[|obj| - 1] == '}'
    ensures FenceContent(pre + obj + post).None?
    ensures BraceSlice(pre + obj + post) == Some(obj)
  {
    var text := pre + obj + post;
    NoLeadCharNoOccurrence(text, Fence);
    var start := |pre|;
    var end := |pre| + |obj| - 1;
    assert text[start] == '{';
    assert text[end] == '}';
    forall k | 0 <= k < start ensures text[k] != '{' {
      assert text[k] == pre[k];
    }
    forall k | end < k < |text| ensures text[k] != '}' {
      assert text[k] == post[k - end - 1];
    }
    assert text[start..end + 1] == obj;
  }

  /**
   * Text with neither a backtick nor a brace that does not parse as a whole
   * is answered with the default report and its first 100 characters.
   */
  lemma PlainTextGivesPreview(text: string, source: Option<string>, parse: string -> Option<Json>)
    requires Trim(text) != "" && parse(text).None?
    requires '`' !in text && '{' !in text
    ensures Respond(Returned(text), source, parse)
      == Fallback(DefaultResponse(source, Some(Take(text, PreviewLength))))
  {
    NoLeadCharNoOccurrence(text, Fence);
  }
}
