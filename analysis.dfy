/**
 * The analysis routes (server/routes/analysis.ts): a per-locale cache of
 * analysis bundles, each the JSON object extracted from one model reply.
 */
module Analysis {
  import opened Wrappers
  import opened Text
  import opened JsonValue

  const DefaultLocale: string := "zh"
  /** The locales that have a combined-analysis prompt. */
  const PromptLocales: set<string> := {"zh", "en", "ja"}
  const AnalysisFailed: string := "Analysis failed"

  /** One cached result set: the parsed reply and its display timestamp. */
  datatype Bundle = Bundle(results: Json, generatedAt: string)

  datatype RunResponse =
    | TaskResult(taskId: string, taskName: string, content: Json, generatedAt: string)
    | AllResults(results: Json, generatedAt: string)
    | Failed   // 500 { error: 'Analysis failed' }

  /** `x || 'zh'` on an optional request field. */
  function LocaleOr(locale: Option<string>): string {
    OrElse(locale, DefaultLocale)
  }

  /** `PROMPTS[locale] || PROMPTS.zh`: the locale whose prompt template is sent. */
  function PromptLocale(locale: string): (l: string)
    ensures l in PromptLocales
    ensures l == locale || l == DefaultLocale
    ensures l == locale <==> locale in PromptLocales
  {
    if locale in PromptLocales then locale else DefaultLocale
  }

  /** The `toLocaleString` tag for the display timestamp. */
  function DateTag(locale: string): string {
    if locale == "zh" then "zh-CN" else if locale == "ja" then "ja-JP" else "en-US"
  }

  /**
   * `s[i..j + 1]` is what the regular expression matches: `i` is the first
   * `{`, and `j` the last `}`, which lies after it.
   */
  predicate IsBraceSpan(s: string, i: int, j: int) {
    && 0 <= i < j < |s| && s[i] == '{' && s[j] == '}'
    && (forall k :: 0 <= k < i ==> s[k] != '{')
    && (forall k :: j < k < |s| ==> s[k] != '}')
  }

  /**
   * `response.match(/\{[\s\S]*\}/)`: the text from the first `{` to the last
   * `}`, when some `}` follows the first `{`.
   */
  function BraceMatch(s: string): (r: Option<string>)
    ensures r.None? <==> !exists i, j :: 0 <= i < j < |s| && s[i] == '{' && s[j] == '}'
    ensures r.Some? ==> exists i, j :: IsBraceSpan(s, i, j) && r.value == s[i..j + 1]
  {
    match FirstIndexOfChar(s, '{')
    case None => None
    case Some(i) =>
      match LastIndexOfChar(s, '}')
      case None => None
      case Some(j) =>
        if i < j then
          assert IsBraceSpan(s, i, j);
          Some(s[i..j + 1])
        else None
  }

  /** The extracted text always starts with `{` and ends with `}`. */
  lemma BraceMatchDelimited(s: string)
    requires BraceMatch(s).Some?
    ensures var m := BraceMatch(s).value; |m| >= 2 && m[0] == '{' && m[|m| - 1] == '}'
  {
  }

  /**
   * The bundle a recompute stores: `None` when the model call throws, the
   * reply has no braces, or the extracted text does not parse (all 500).
   */
  function Recompute(reply: Option<string>, parse: string -> Option<Json>, generatedAt: string): Option<Bundle> {
    if reply.None? then None
    else match BraceMatch(reply.value)
      case None => None
      case Some(m) => match parse(m)
        case None => None
        case Some(v) => Some(Bundle(v, generatedAt))
  }

  /** `/run` answers from the cache: a bundle exists and holds a truthy result for `taskId`. */
  predicate ServesFromCache(bundles: map<string, Bundle>, taskId: Option<string>, locale: string) {
    locale in bundles && Present(taskId) && HasTruthy(bundles[locale].results, taskId.value)
  }

  /** `results[taskId] || 'Analysis failed'`. */
  function TaskContent(results: Json, taskId: string): (content: Json)
    ensures Truthy(content)
    ensures HasTruthy(results, taskId) ==> Some(content) == Get(results, taskId)
    ensures !HasTruthy(results, taskId) ==> content == Str(AnalysisFailed)
  {
    if HasTruthy(results, taskId) then Get(results, taskId).value else Str(AnalysisFailed)
  }

  const TaskNames: map<string, map<string, string>> := map[
    "zh" := map[
      "hot_keywords" := "🔥 热词分析",
      "sentiment" := "😊 情感分析",
      "trending" := "📈 趋势预测",
      "summary" := "📋 综合摘要",
      "cross_platform" := "🔗 跨板块分析"],
    "en" := map[
      "hot_keywords" := "🔥 Hot Keywords",
      "sentiment" := "😊 Sentiment",
      "trending" := "📈 Trending",
      "summary" := "📋 Summary",
      "cross_platform" := "🔗 Cross Platform"],
    "ja" := map[
      "hot_keywords" := "🔥 キーワード",
      "sentiment" := "😊 感情分析",
      "trending" := "📈 トレンド",
      "summary" := "📋 サマリー",
      "cross_platform" := "🔗 クロス分析"]]

  /** `getTaskName`: the localised name, or `taskId` itself when there is none. */
  function TaskName(taskId: string, locale: string): (name: string)
    ensures locale in TaskNames && taskId in TaskNames[locale] ==> name == TaskNames[locale][taskId] && name != ""
    ensures !(locale in TaskNames && taskId in TaskNames[locale]) ==> name == taskId
  {
    if locale in TaskNames && taskId in TaskNames[locale] && TaskNames[locale][taskId] != "" then TaskNames[locale][taskId]
    else taskId
  }

  class AnalysisCache {
    /** `cachedAnalysis`: one bundle per locale. */
    var bundles: map<string, Bundle>

    constructor ()
      ensures bundles == map[]
    {
      bundles := map[];
    }

    /**
     * POST /analysis/run. `reply(l)` is the model's answer to the prompt
     * built from locale `l`'s template (`None`: the database or the model
     * throws); `formatNow(tag)` is the current time as `toLocaleString(tag)`
     * prints it. `recomputed` says whether the model was asked.
     */
    method Run(taskId: Option<string>, locale: Option<string>, reply: string -> Option<string>,
               parse: string -> Option<Json>, formatNow: string -> string)
      returns (response: RunResponse, recomputed: bool)
      modifies this
      ensures var loc := locale.GetOr(DefaultLocale);
        ServesFromCache(old(bundles), taskId, loc) ==>
          && !recomputed && bundles == old(bundles)
          && response == TaskResult(taskId.value, TaskName(taskId.value, loc),
                                    Get(old(bundles)[loc].results, taskId.value).value, old(bundles)[loc].generatedAt)
      ensures var loc := locale.GetOr(DefaultLocale);
        !ServesFromCache(old(bundles), taskId, loc) ==>
          && recomputed
          && match Recompute(reply(PromptLocale(loc)), parse, formatNow(DateTag(loc)))
             case None => response == Failed && bundles == old(bundles)
             case Some(b) =>
               && bundles == old(bundles)[loc := b]
               && response == if Present(taskId)
                              then TaskResult(taskId.value, TaskName(taskId.value, loc), TaskContent(b.results, taskId.value), b.generatedAt)
                              else AllResults(b.results, b.generatedAt)
    {
      var loc := locale.GetOr(DefaultLocale);
      if loc in bundles && Present(taskId) && HasTruthy(bundles[loc].results, taskId.value) {
        var cached := bundles[loc];
        return TaskResult(taskId.value, TaskName(taskId.value, loc), Get(cached.results, taskId.value).value, cached.generatedAt), false;
      }
      recomputed := true;
      var text := reply(PromptLocale(loc));
      if text.None? {
        return Failed, recomputed;
      }
      var jsonMatch := BraceMatch(text.value);
      if jsonMatch.None? {
        return Failed, recomputed;
      }
      var results := parse(jsonMatch.value);
      if results.None? {
        return Failed, recomputed;
      }
      var generatedAt := formatNow(DateTag(loc));
      bundles := bundles[loc := Bundle(results.value, generatedAt)];
      if Present(taskId) {
        response := TaskResult(taskId.value, TaskName(taskId.value, loc), TaskContent(results.value, taskId.value), generatedAt);
      } else {
        response := AllResults(results.value, generatedAt);
      }
    }

    /** GET /analysis/all: any cached bundle for the locale, whatever its age; otherwise a recompute. */
    method All(locale: Option<string>, reply: string -> Option<string>,
               parse: string -> Option<Json>, formatNow: string -> string)
      returns (response: Option<Bundle>, recomputed: bool)
      modifies this
      ensures var loc := LocaleOr(locale);
        loc in old(bundles) ==> !recomputed && bundles == old(bundles) && response == Some(old(bundles)[loc])
      ensures var loc := LocaleOr(locale);
        loc !in old(bundles) ==>
          && recomputed
          && response == Recompute(reply(PromptLocale(loc)), parse, formatNow(DateTag(loc)))
          && bundles == if response.None? then old(bundles) else old(bundles)[loc := response.value]
    {
      var loc := LocaleOr(locale);
      if loc in bundles {
        return Some(bundles[loc]), false;
      }
      recomputed := true;
      response := Recompute(reply(PromptLocale(loc)), parse, formatNow(DateTag(loc)));
      if response.Some? {
        bundles := bundles[loc := response.value];
      }
    }

    /** POST /analysis/refresh: drops the bundle of that one locale. */
    method Refresh(locale: Option<string>)
      modifies this
      ensures bundles == old(bundles) - {LocaleOr(locale)}
    {
      bundles := bundles - {LocaleOr(locale)};
    }
  }

  /**
   * A recompute that yields the requested task makes the next `/run` for the
   * same task and locale a cache hit, and leaves other locales' bundles alone.
   */
  method RunThenHit(cache: AnalysisCache, taskId: string, locale: string, other: string,
                    reply: string -> Option<string>, parse: string -> Option<Json>, formatNow: string -> string)
    returns (second: RunResponse, recomputedAgain: bool)
    requires taskId != "" && other != locale
    requires var b := Recompute(reply(PromptLocale(locale)), parse, formatNow(DateTag(locale)));
      b.Some? && HasTruthy(b.value.results, taskId)
    modifies cache
    ensures !recomputedAgain
    ensures second.TaskResult? && Truthy(second.content)
    ensures other in old(cache.bundles) ==> other in cache.bundles && cache.bundles[other] == old(cache.bundles)[other]
  {
    var first, _ := cache.Run(Some(taskId), Some(locale), reply, parse, formatNow);
    second, recomputedAgain := cache.Run(Some(taskId), Some(locale), reply, parse, formatNow);
  }
}
