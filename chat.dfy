/**
 * The chat route (server/routes/chat.ts): the compact news summary sent to
 * the model, the refresh of the snapshot cache and the staleness rule that
 * decides when the cached snapshot is reused.
 */
module Chat {
  import opened Wrappers
  import opened Text
  import NewsCache

  /** A news row as the chat route reads it: title `t` and section `s`. */
  datatype AiArticle = AiArticle(t: string, s: Option<string>)

  /** The bucket for rows without a section. */
  const OtherSection: string := "其他"
  /** Titles kept per section in the compact summary. */
  const TitlesPerSection: nat := 20
  /** A snapshot older than this (10 minutes, in milliseconds) is refreshed. */
  const MaxAgeMs: int := 10 * 60 * 1000
  /** The window used when a request gives no `hours`. */
  const DefaultHours: int := 24

  // ----- order-preserving de-duplication (a `Set` built by insertion, or the keys of a dictionary) -----

  predicate Distinct<T(==)>(s: seq<T>) {
    forall i, j :: 0 <= i < j < |s| ==> s[i] != s[j]
  }

  /** The elements of `xs` in order of first appearance, each once. */
  function Dedup<T(==)>(xs: seq<T>): seq<T> {
    if |xs| == 0 then []
    else
      var prev := Dedup(xs[..|xs| - 1]);
      if xs[|xs| - 1] in prev then prev else prev + [xs[|xs| - 1]]
  }

  lemma {:induction false} DedupSpec<T>(xs: seq<T>)
    ensures Distinct(Dedup(xs))
    ensures forall x :: x in Dedup(xs) <==> x in xs
  {
    if |xs| > 0 {
      var init := xs[..|xs| - 1];
      DedupSpec(init);
      assert xs == init + [xs[|xs| - 1]];
    }
  }

  /** A sequence without duplicates has as many elements as the set of its elements. */
  lemma {:induction false} DistinctCardinality<T>(s: seq<T>)
    requires Distinct(s)
    ensures |set x | x in s| == |s|
  {
    if |s| > 0 {
      var init := s[..|s| - 1];
      DistinctCardinality(init);
      assert (set x | x in s) == (set x | x in init) + {s[|s| - 1]};
      assert s[|s| - 1] !in init;
    }
  }

  // ----- buildCompactSummary -----

  /** `a.s || '其他'`: the group an article is filed under. */
  function SectionKey(a: AiArticle): string {
    if a.s.Some? && a.s.value != "" then a.s.value else OtherSection
  }

  function SectionKeys(articles: seq<AiArticle>): (keys: seq<string>)
    ensures |keys| == |articles|
  {
    seq(|articles|, i requires 0 <= i < |articles| => SectionKey(articles[i]))
  }

  /** The groups of the summary, in the order their first article appears. */
  function SectionOrder(articles: seq<AiArticle>): seq<string> {
    Dedup(SectionKeys(articles))
  }

  /** The titles filed under `section`, in input order. */
  function TitlesIn(articles: seq<AiArticle>, section: string): seq<string> {
    if |articles| == 0 then []
    else
      var last := articles[|articles| - 1];
      TitlesIn(articles[..|articles| - 1], section) + (if SectionKey(last) == section then [last.t] else [])
  }

  /** One line of the summary: `[section]` and the first 20 titles joined by `|`. */
  function SummaryLine(section: string, titles: seq<string>): string {
    "[" + section + "]" + Join(Take(titles, TitlesPerSection), "|")
  }

  function SummaryLines(articles: seq<AiArticle>): seq<string> {
    var order := SectionOrder(articles);
    seq(|order|, i requires 0 <= i < |order| => SummaryLine(order[i], TitlesIn(articles, order[i])))
  }

  /** The summary `buildCompactSummary` returns: one line per section, joined by newlines. */
  function CompactSummary(articles: seq<AiArticle>): string {
    Join(SummaryLines(articles), "\n")
  }

  lemma SectionKeysSnoc(articles: seq<AiArticle>, i: nat)
    requires i < |articles|
    ensures SectionKeys(articles[..i + 1]) == SectionKeys(articles[..i]) + [SectionKey(articles[i])]
  {
  }

  /** A section that no article is filed under has no titles. */
  lemma {:induction false} UnknownSectionHasNoTitles(articles: seq<AiArticle>, section: string)
    requires section !in SectionOrder(articles)
    ensures TitlesIn(articles, section) == []
  {
    DedupSpec(SectionKeys(articles));
    if |articles| > 0 {
      var init := articles[..|articles| - 1];
      DedupSpec(SectionKeys(init));
      assert SectionKeys(articles) == SectionKeys(init) + [SectionKey(articles[|articles| - 1])];
      UnknownSectionHasNoTitles(init, section);
    }
  }

  /** `buildCompactSummary`: groups the titles by section, then writes one line per group. */
  method BuildCompactSummary(articles: seq<AiArticle>) returns (summary: string)
    ensures summary == CompactSummary(articles)
  {
    var bySection: map<string, seq<string>> := map[];
    var keys: seq<string> := [];
    for i := 0 to |articles|
      invariant keys == SectionOrder(articles[..i])
      invariant forall k :: k in bySection <==> k in keys
      invariant forall k :: k in bySection ==> bySection[k] == TitlesIn(articles[..i], k)
    {
      assert articles[..i + 1][..i] == articles[..i];
      SectionKeysSnoc(articles, i);
      var section := SectionKey(articles[i]);
      if section !in bySection {
        UnknownSectionHasNoTitles(articles[..i], section);
        bySection := bySection[section := []];
        keys := keys + [section];
      }
      bySection := bySection[section := bySection[section] + [articles[i].t]];
    }
    assert articles[..|articles|] == articles;
    var parts: seq<string> := [];
    for j := 0 to |keys|
      invariant parts == SummaryLines(articles)[..j]
    {
      var titles := bySection[keys[j]];
      parts := parts + ["[" + keys[j] + "]" + Join(Take(titles, TitlesPerSection), "|")];
    }
    assert SummaryLines(articles)[..|keys|] == SummaryLines(articles);
    summary := Join(parts, "\n");
  }

  /** Σ |TitlesIn(articles, k)| over the sections `ks`. */
  function GroupSizes(articles: seq<AiArticle>, ks: seq<string>): nat {
    if |ks| == 0 then 0 else GroupSizes(articles, ks[..|ks| - 1]) + |TitlesIn(articles, ks[|ks| - 1])|
  }

  lemma {:induction false} GroupSizesAppend(articles: seq<AiArticle>, a: AiArticle, ks: seq<string>)
    ensures GroupSizes(articles + [a], ks) == GroupSizes(articles, ks) + multiset(ks)[SectionKey(a)]
  {
    var all := articles + [a];
    assert all[..|all| - 1] == articles;
    if |ks| > 0 {
      var init := ks[..|ks| - 1];
      GroupSizesAppend(articles, a, init);
      assert ks == init + [ks[|ks| - 1]];
    }
  }

  lemma {:induction false} GroupSizesUnchanged(articles: seq<AiArticle>, ks: seq<string>, extra: string)
    requires TitlesIn(articles, extra) == []
    ensures GroupSizes(articles, ks + [extra]) == GroupSizes(articles, ks)
  {
    assert (ks + [extra])[..|ks|] == ks;
  }

  /**
   * The groups partition the input: every article is filed in exactly one
   * line's group, so the group sizes add up to the number of articles.
   */
  lemma {:induction false} GroupsPartitionArticles(articles: seq<AiArticle>)
    ensures GroupSizes(articles, SectionOrder(articles)) == |articles|
  {
    if |articles| > 0 {
      var init := articles[..|articles| - 1];
      var a := articles[|articles| - 1];
      var k := SectionKey(a);
      assert articles == init + [a];
      GroupsPartitionArticles(init);
      SectionKeysSnoc(articles, |articles| - 1);
      assert articles[..|articles| - 1 + 1] == articles;
      var order := SectionOrder(init);
      DedupSpec(SectionKeys(init));
      GroupSizesAppend(init, a, order);
      if k in order {
        var i :| 0 <= i < |order| && order[i] == k;
        DistinctCount(order, i);
      } else {
        assert multiset(order)[k] == 0;
        GroupSizesAppend(init, a, order + [k]);
        UnknownSectionHasNoTitles(init, k);
        GroupSizesUnchanged(init, order, k);
        assert multiset(order + [k])[k] == 1;
      }
    }
  }

  lemma DistinctCount<T>(s: seq<T>, i: nat)
    requires Distinct(s) && i < |s|
    ensures multiset(s)[s[i]] == 1
  {
    assert s == s[..i] + [s[i]] + s[i + 1..];
    assert s[i] !in s[..i] && s[i] !in s[i + 1..];
    assert multiset(s) == multiset(s[..i]) + multiset{s[i]} + multiset(s[i + 1..]);
  }

  /** There is exactly one summary line per distinct section key. */
  lemma OneLinePerSection(articles: seq<AiArticle>)
    ensures |SummaryLines(articles)| == |set i | 0 <= i < |articles| :: SectionKey(articles[i])|
    ensures Distinct(SectionOrder(articles))
    ensures forall k :: k in SectionOrder(articles) <==> exists i :: 0 <= i < |articles| && SectionKey(articles[i]) == k
  {
    var keys := SectionKeys(articles);
    DedupSpec(keys);
    DistinctCardinality(SectionOrder(articles));
    forall k ensures k in keys <==> exists i :: 0 <= i < |articles| && SectionKey(articles[i]) == k {
      if k in keys {
        var i :| 0 <= i < |keys| && keys[i] == k;
        assert SectionKey(articles[i]) == k;
      }
      if exists i :: 0 <= i < |articles| && SectionKey(articles[i]) == k {
        var i :| 0 <= i < |articles| && SectionKey(articles[i]) == k;
        assert keys[i] == k;
      }
    }
    assert (set x | x in SectionOrder(articles)) == (set i | 0 <= i < |articles| :: SectionKey(articles[i]));
  }

  /** The summary is empty exactly when there are no articles. */
  lemma CompactSummaryEmptyIff(articles: seq<AiArticle>)
    ensures CompactSummary(articles) == "" <==> |articles| == 0
  {
    var lines := SummaryLines(articles);
    if |articles| > 0 {
      DedupSpec(SectionKeys(articles));
      assert SectionKeys(articles)[0] == SectionKey(articles[0]);
      assert |lines| > 0 && lines[0][0] == '[';
      if |lines| > 1 {
        assert CompactSummary(articles) == lines[0] + "\n" + Join(lines[1..], "\n");
      }
    }
  }

  // ----- refreshCache -----

  /** `articles.map(a => a.s).filter(Boolean)`. */
  function NonEmptySections(articles: seq<AiArticle>): seq<string> {
    if |articles| == 0 then []
    else
      var last := articles[|articles| - 1];
      NonEmptySections(articles[..|articles| - 1]) + (if last.s.Some? && last.s.value != "" then [last.s.value] else [])
  }

  lemma {:induction false} NonEmptySectionsSpec(articles: seq<AiArticle>)
    ensures forall x :: x in NonEmptySections(articles) <==> x != "" && exists i :: 0 <= i < |articles| && articles[i].s == Some(x)
  {
    if |articles| > 0 {
      var init := articles[..|articles| - 1];
      NonEmptySectionsSpec(init);
      forall x ensures (exists i :: 0 <= i < |articles| && articles[i].s == Some(x))
                   <==> (exists i :: 0 <= i < |init| && init[i].s == Some(x)) || articles[|articles| - 1].s == Some(x)
      {
        if exists i :: 0 <= i < |articles| && articles[i].s == Some(x) {
          var i :| 0 <= i < |articles| && articles[i].s == Some(x);
          if i < |init| { assert init[i] == articles[i]; }
        }
        if exists i :: 0 <= i < |init| && init[i].s == Some(x) {
          var i :| 0 <= i < |init| && init[i].s == Some(x);
          assert articles[i] == init[i];
        }
      }
    }
  }

  /** `[...new Set(...)]`: the non-empty sections, each once, in order of first appearance. */
  function DistinctSections(articles: seq<AiArticle>): (sections: seq<string>)
    ensures Distinct(sections)
    ensures forall x :: x in sections <==> x != "" && exists i :: 0 <= i < |articles| && articles[i].s == Some(x)
  {
    DedupSpec(NonEmptySections(articles));
    NonEmptySectionsSpec(articles);
    Dedup(NonEmptySections(articles))
  }

  /** The snapshot `refreshCache` stores for `articles` fetched at time `now`. */
  function FreshSnapshot(articles: seq<AiArticle>, hours: int, now: int): NewsCache.Snapshot {
    NewsCache.Snapshot(CompactSummary(articles), |articles|, DistinctSections(articles), now, hours)
  }

  /**
   * `refreshCache`: reads the articles of the last `hours` (`rows`, `None`
   * when the database query throws) and replaces the cached snapshot.
   */
  method RefreshCache(slot: NewsCache.Slot, rows: Option<seq<AiArticle>>, hours: int, now: int)
    returns (result: Option<(string, nat)>)
    modifies slot
    ensures rows.None? ==> result.None? && slot.entry == old(slot.entry)
    ensures rows.Some? ==> slot.entry == Some(FreshSnapshot(rows.value, hours, now))
    ensures rows.Some? ==> result == Some((CompactSummary(rows.value), |rows.value|))
  {
    if rows.None? {
      return None;
    }
    var articles := rows.value;
    var sections := DistinctSections(articles);
    var summary := BuildCompactSummary(articles);
    slot.Set(NewsCache.Snapshot(summary, |articles|, sections, now, hours));
    result := Some((summary, |articles|));
  }

  // ----- the /chat handler -----

  /**
   * The cached snapshot must be rebuilt: there is none, it is more than ten
   * minutes old, or it was built for another window.
   */
  predicate NeedsRefresh(cache: Option<NewsCache.Snapshot>, hours: int, now: int) {
    cache.None? || now - cache.value.updatedAt > MaxAgeMs || cache.value.hours != hours
  }

  datatype ChatResponse =
    | MissingQuestion                                         // 400
    | Answer(answer: string, articleCount: nat, hours: int)   // 200 with cacheInfo
    | ChatFailed                                              // 500

  /**
   * POST /chat. `rows` is what the database would return if queried,
   * `reply` what the model answers (`None`: the call throws).
   * `queriedDb` says whether the articles were fetched.
   */
  method HandleChat(slot: NewsCache.Slot, question: Option<string>, hours: Option<int>, now: int,
                    rows: Option<seq<AiArticle>>, reply: Option<string>)
    returns (response: ChatResponse, queriedDb: bool)
    modifies slot
    ensures !Present(question) ==> response == MissingQuestion && !queriedDb && slot.entry == old(slot.entry)
    ensures Present(question) ==> queriedDb == NeedsRefresh(old(slot.entry), hours.GetOr(DefaultHours), now)
    ensures !queriedDb ==> slot.entry == old(slot.entry)
    ensures queriedDb && rows.Some? ==> slot.entry == Some(FreshSnapshot(rows.value, hours.GetOr(DefaultHours), now))
    ensures queriedDb && rows.None? ==> response == ChatFailed && slot.entry == old(slot.entry)
    ensures Present(question) && (!queriedDb || rows.Some?) ==>
      response == if reply.None? then ChatFailed
                  else Answer(reply.value, slot.entry.value.articleCount, hours.GetOr(DefaultHours))
    ensures response.Answer? ==> slot.entry.Some? && slot.entry.value.hours == response.hours == hours.GetOr(DefaultHours)
  {
    if !Present(question) {
      return MissingQuestion, false;
    }
    var h := hours.GetOr(DefaultHours);
    var cache := slot.Get();
    queriedDb := NeedsRefresh(cache, h, now);
    if queriedDb {
      var refreshed := RefreshCache(slot, rows, h, now);
      if refreshed.None? {
        return ChatFailed, queriedDb;
      }
      cache := slot.Get();
    }
    if reply.None? {
      return ChatFailed, queriedDb;
    }
    response := Answer(reply.value, cache.value.articleCount, h);
  }

  /**
   * Two questions with the same window, the second within ten minutes of the
   * first, query the database once: the second reuses the snapshot.
   */
  method AskTwiceWithinTenMinutes(rows: seq<AiArticle>, question: string, hours: int,
                                  first: int, second: int, reply1: string, reply2: string)
    returns (dbQueries: nat)
    requires question != ""
    requires first <= second <= first + MaxAgeMs
    ensures dbQueries == 1
  {
    var slot := new NewsCache.Slot();
    var _, q1 := HandleChat(slot, Some(question), Some(hours), first, Some(rows), Some(reply1));
    var _, q2 := HandleChat(slot, Some(question), Some(hours), second, Some(rows), Some(reply2));
    dbQueries := (if q1 then 1 else 0) + (if q2 then 1 else 0);
  }
}
