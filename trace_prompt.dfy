/**
 * The trace prompt (server/i18n.ts): a template per locale with a `{title}`
 * and a `{source}` placeholder, filled by two string replacements.
 */
module TracePrompt {
  import opened Wrappers
  import opened Text

  const TitlePlaceholder: string := "{title}"
  const SourcePlaceholder: string := "{source}"
  const FallbackLocale: string := "zh"

  /**
   * A template is `intro + "{title}" + middle + "{source}" + schema`; the
   * schema is the JSON shape the model is asked to return.
   */
  datatype Template = Template(intro: string, middle: string, schema: string)

  function TemplateText(t: Template): string {
    t.intro + TitlePlaceholder + t.middle + SourcePlaceholder + t.schema
  }

  /** `tracePromptTemplate`. */
  const ZhIntro: string := "分析这条新闻的溯源信息。请用中文回答。\n\n新闻："
  const ZhMiddle: string := "\n平台："
  const ZhSchema: string :=
    "\n\n返回以下JSON结构（只返回JSON，不要其他文字）：\n{\"summary\":\"一句话总结(15字)\",\"credibility\":{\"score\":7,\"level\":\"中\",\"reason\":\"判断理由(20字)\"},\"origin\":{\"source\":\"最早来源\",\"time\":\"首发时间\",\"type\":\"官方/媒体/网友\",\"detail\":\"说明(30字)\"},\"spread\":{\"path\":[\"微博\",\"知乎\"],\"speed\":\"快速/中等/缓慢\",\"scope\":\"全网热议/局部传播/小范围讨论\",\"detail\":\"说明(30字)\"},\"keyPlayers\":[{\"name\":\"传播者\",\"role\":\"首发/转发/评论\",\"influence\":\"高/中/低\"}],\"timeline\":[{\"time\":\"12月20日\",\"event\":\"事件(15字)\"}],\"distortion\":{\"hasDistortion\":false,\"level\":\"严重/轻微/无\",\"examples\":[]},\"relatedLinks\":[]}"

  // Two fragments: as one literal, its lack of `{` is beyond the solver.
  const EnIntro: string := "Analyze the source of this news. " + "Please respond in English.\n\nNews: "
  const EnMiddle: string := "\nPlatform: "
  const EnSchema: string :=
    "\n\nReturn the following JSON structure (return JSON only, no other text):\n{\"summary\":\"One sentence summary (15 words)\",\"credibility\":{\"score\":7,\"level\":\"Medium\",\"reason\":\"Reason (20 words)\"},\"origin\":{\"source\":\"Original source\",\"time\":\"First published time\",\"type\":\"Official/Media/User\",\"detail\":\"Detail (30 words)\"},\"spread\":{\"path\":[\"Twitter\",\"Reddit\"],\"speed\":\"Fast/Medium/Slow\",\"scope\":\"Viral/Regional/Limited\",\"detail\":\"Detail (30 words)\"},\"keyPlayers\":[{\"name\":\"Player name\",\"role\":\"Original/Repost/Comment\",\"influence\":\"High/Medium/Low\"}],\"timeline\":[{\"time\":\"Dec 20\",\"event\":\"Event (15 words)\"}],\"distortion\":{\"hasDistortion\":false,\"level\":\"Severe/Mild/None\",\"examples\":[]},\"relatedLinks\":[]}"

  const JaIntro: string := "このニュースのソースを分析してください。日本語で回答してください。\n\nニュース："
  const JaMiddle: string := "\nプラットフォーム："
  const JaSchema: string :=
    "\n\n以下のJSON構造を返してください（JSONのみ、他のテキストなし）：\n{\"summary\":\"一文要約(15文字)\",\"credibility\":{\"score\":7,\"level\":\"中\",\"reason\":\"理由(20文字)\"},\"origin\":{\"source\":\"最初のソース\",\"time\":\"初出時間\",\"type\":\"公式/メディア/ユーザー\",\"detail\":\"説明(30文字)\"},\"spread\":{\"path\":[\"Twitter\",\"Yahoo\"],\"speed\":\"速い/普通/遅い\",\"scope\":\"全国的/地域的/限定的\",\"detail\":\"説明(30文字)\"},\"keyPlayers\":[{\"name\":\"名前\",\"role\":\"発信/転載/コメント\",\"influence\":\"高/中/低\"}],\"timeline\":[{\"time\":\"12月20日\",\"event\":\"イベント(15文字)\"}],\"distortion\":{\"hasDistortion\":false,\"level\":\"深刻/軽微/なし\",\"examples\":[]},\"relatedLinks\":[]}"

  const Templates: map<string, Template> := map[
    "zh" := Template(ZhIntro, ZhMiddle, ZhSchema),
    "en" := Template(EnIntro, EnMiddle, EnSchema),
    "ja" := Template(JaIntro, JaMiddle, JaSchema)]

  /**
   * No placeholder can start before the template's own: the intro and the
   * middle hold no `{`, and the middle starts with a line break.
   */
  predicate WellFormed(t: Template) {
    '{' !in t.intro && '{' !in t.middle && |t.middle| > 0 && t.middle[0] == '\n'
  }

  lemma ZhWellFormed()
    ensures '{' !in ZhIntro && '{' !in ZhMiddle && ZhMiddle[0] == '\n'
  {
  }

  lemma EnWellFormed()
    ensures '{' !in EnIntro && '{' !in EnMiddle && EnMiddle[0] == '\n'
  {
  }

  lemma JaWellFormed()
    ensures '{' !in JaIntro && '{' !in JaMiddle && JaMiddle[0] == '\n'
  {
  }

  lemma TemplatesWellFormed()
    ensures FallbackLocale in Templates
    ensures forall l :: l in Templates ==> WellFormed(Templates[l])
  {
    ZhWellFormed();
    EnWellFormed();
    JaWellFormed();
  }

  /** `tracePromptTemplate[locale] || tracePromptTemplate.zh`. */
  function TemplateFor(locale: string): (t: Template)
    ensures WellFormed(t)
    ensures locale in Templates ==> t == Templates[locale]
    ensures locale !in Templates ==> t == Templates[FallbackLocale]
  {
    TemplatesWellFormed();
    if locale in Templates then Templates[locale] else Templates[FallbackLocale]
  }

  /** The first `{title}`, then the first `{source}` of the result, are replaced. */
  function Fill(t: Template, title: string, source: string): string {
    ReplaceFirst(ReplaceFirst(TemplateText(t), TitlePlaceholder, title), SourcePlaceholder, source)
  }

  /** `getTracePrompt`. */
  function GetTracePrompt(locale: string, title: string, source: string): string {
    Fill(TemplateFor(locale), title, source)
  }

  /** The title goes where the template's `{title}` stood. */
  lemma FillTitle(t: Template, title: string)
    requires WellFormed(t)
    ensures ReplaceFirst(TemplateText(t), TitlePlaceholder, title)
      == t.intro + title + t.middle + SourcePlaceholder + t.schema
  {
    var rest := t.middle + SourcePlaceholder + t.schema;
    ReplaceFirstSkipping(t.intro, "", "", TitlePlaceholder, rest, title);
    assert TemplateText(t) == t.intro + "" + "" + TitlePlaceholder + rest;
    assert t.intro + "" + "" + title + rest == t.intro + title + t.middle + SourcePlaceholder + t.schema;
  }

  /**
   * For a title without `{source}`, both placeholders of a well-formed
   * template are filled, each with its own value.
   */
  lemma FillFillsBothPlaceholders(t: Template, title: string, source: string)
    requires WellFormed(t)
    requires forall j :: !OccursAt(title, SourcePlaceholder, j)
    ensures Fill(t, title, source) == t.intro + title + t.middle + source + t.schema
  {
    FillTitle(t, title);
    assert t.middle[0] !in SourcePlaceholder;
    ReplaceFirstSkipping(t.intro, title, t.middle, SourcePlaceholder, t.schema, source);
  }

  /**
   * A title that itself contains `{source}` takes the substitution; the
   * template's own `{source}` is left in the prompt.
   */
  lemma FillSourceInTitle(t: Template, title: string, source: string)
    requires WellFormed(t)
    requires IndexOf(title, SourcePlaceholder).Some?
    ensures Fill(t, title, source)
      == t.intro + ReplaceFirst(title, SourcePlaceholder, source) + t.middle + SourcePlaceholder + t.schema
  {
    FillTitle(t, title);
    var rest := t.middle + SourcePlaceholder + t.schema;
    assert t.intro + title + t.middle + SourcePlaceholder + t.schema == t.intro + title + rest;
    ReplaceFirstInside(t.intro, title, rest, SourcePlaceholder, source);
  }

  /**
   * For a title without `{source}`, the prompt is the locale's template
   * (the zh one for an unknown locale) with both placeholders filled.
   */
  lemma PromptFillsBothPlaceholders(locale: string, title: string, source: string)
    requires forall j :: !OccursAt(title, SourcePlaceholder, j)
    ensures var t := TemplateFor(locale);
      GetTracePrompt(locale, title, source) == t.intro + title + t.middle + source + t.schema
  {
    FillFillsBothPlaceholders(TemplateFor(locale), title, source);
  }
}
