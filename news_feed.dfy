/**
 * The news feed's data shaping (src/components/NewsFeed.tsx): trend icons,
 * the heat label, and the grouping of articles into per-section lists
 * sorted by rank, with sections of fewer than four articles merged into
 * one list.
 */
module NewsFeed {
  import opened Wrappers
  import opened Text
  import opened Store

  const Unclassified: string := "未分类"
  const MergeThreshold: nat := 4
  const MissingRank: int := 999
  const CardLimit: nat := 15

  /** `getTrendIcon`. */
  function TrendIcon(trend: Option<string>): (icon: string)
    ensures trend == Some("new") ==> icon == "🆕"
    ensures trend == Some("rising") ==> icon == "🔥"
    ensures trend == Some("falling") ==> icon == "📉"
    ensures trend == Some("returning") ==> icon == "🔄"
    ensures icon == "" <==> trend !in {Some("new"), Some("rising"), Some("falling"), Some("returning")}
  {
    match trend
    case Some("new") => "🆕"
    case Some("rising") => "🔥"
    case Some("stable") => ""
    case Some("falling") => "📉"
    case Some("returning") => "🔄"
    case _ => ""
  }

  /** How `formatHeat` renders a value; the `toFixed(1)` text itself is not modelled. */
  datatype HeatLabel = NoHeat | Millions(value: int) | Thousands(value: int) | Plain(value: int)

  /** `heat ?? score`. */
  function HeatValue(heat: Option<int>, score: Option<int>): Option<int> {
    if heat.Some? then heat else score
  }

  /** `formatHeat`: nothing for a null or zero value, else a label by magnitude. */
  function FormatHeat(heat: Option<int>, score: Option<int>): (shown: HeatLabel)
    ensures shown.NoHeat? <==> HeatValue(heat, score) in {None, Some(0)}
    ensures !shown.NoHeat? ==> Some(shown.value) == HeatValue(heat, score)
    ensures shown.Millions? <==> HeatValue(heat, score).Some? && HeatValue(heat, score).value >= 1000000
    ensures shown.Thousands? <==> HeatValue(heat, score).Some? && 1000 <= HeatValue(heat, score).value < 1000000
  {
    match HeatValue(heat, score)
    case None => NoHeat
    case Some(v) =>
      if v == 0 then NoHeat
      else if v >= 1000000 then Millions(v)
      else if v >= 1000 then Thousands(v)
      else Plain(v)
  }

  /** A zero heat hides the score: `??` only falls back on null. */
  lemma ZeroHeatHidesScore(score: Option<int>)
    ensures FormatHeat(Some(0), score) == NoHeat
  {
  }

  /** `article.section || '未分类'`. */
  function SectionOf(a: Article): string {
    OrElse(a.section, Unclassified)
  }

  /** `a.rank ?? 999`, the sort key. */
  function RankKey(a: Article): int {
    a.rank.GetOr(MissingRank)
  }

  predicate SortedByRank(s: seq<Article>) {
    forall i, j :: 0 <= i < j < |s| ==> RankKey(s[i]) <= RankKey(s[j])
  }

  /** The articles of `s` whose sort key is `k`, in order. */
  function WithKey(s: seq<Article>, k: int): seq<Article> {
    if |s| == 0 then []
    else (if RankKey(s[0]) == k then [s[0]] else []) + WithKey(s[1..], k)
  }

  /** Puts `x` before the first element whose key is not smaller. */
  function Insert(x: Article, t: seq<Article>): (r: seq<Article>)
    ensures |r| == |t| + 1
    ensures multiset(r) == multiset(t) + multiset{x}
  {
    if |t| == 0 || RankKey(x) <= RankKey(t[0]) then [x] + t
    else
      assert t == [t[0]] + t[1..];
      [t[0]] + Insert(x, t[1..])
  }

  /**
   * `list.sort((a, b) => (a.rank ?? 999) - (b.rank ?? 999))`. The engine's
   * sort is stable, so it equals this insertion sort.
   */
  function SortByRank(s: seq<Article>): (r: seq<Article>)
    ensures multiset(r) == multiset(s)
    ensures |r| == |s|
  {
    if |s| == 0 then []
    else
      assert s == [s[0]] + s[1..];
      Insert(s[0], SortByRank(s[1..]))
  }

  lemma {:induction false} InsertSorted(x: Article, t: seq<Article>)
    requires SortedByRank(t)
    ensures SortedByRank(Insert(x, t))
  {
    if |t| > 0 && RankKey(x) > RankKey(t[0]) {
      InsertSorted(x, t[1..]);
      var r := Insert(x, t);
      assert r[1..] == Insert(x, t[1..]);
      forall j | 0 < j < |r| ensures RankKey(r[0]) <= RankKey(r[j]) {
        assert r[j] in multiset(Insert(x, t[1..]));
        assert r[j] in multiset(t[1..]) + multiset{x};
        if r[j] in multiset(t[1..]) {
          var m :| 0 <= m < |t[1..]| && t[1..][m] == r[j];
          assert t[m + 1] == r[j];
        }
      }
    }
  }

  /** The sort orders by rank, a missing rank counting as 999. */
  lemma {:induction false} SortByRankSorted(s: seq<Article>)
    ensures SortedByRank(SortByRank(s))
  {
    if |s| > 0 {
      SortByRankSorted(s[1..]);
      InsertSorted(s[0], SortByRank(s[1..]));
    }
  }

  lemma {:induction false} InsertKeepsTies(x: Article, t: seq<Article>, k: int)
    ensures WithKey(Insert(x, t), k) == (if RankKey(x) == k then [x] else []) + WithKey(t, k)
  {
    var r := Insert(x, t);
    if |t| == 0 || RankKey(x) <= RankKey(t[0]) {
      assert r[0] == x && r[1..] == t;
    } else {
      InsertKeepsTies(x, t[1..], k);
      assert r[0] == t[0] && r[1..] == Insert(x, t[1..]);
      assert WithKey(t, k) == (if RankKey(t[0]) == k then [t[0]] else []) + WithKey(t[1..], k);
    }
  }

  /** Stability: articles of equal rank keep their input order. */
  lemma {:induction false} SortByRankStable(s: seq<Article>, k: int)
    ensures WithKey(SortByRank(s), k) == WithKey(s, k)
  {
    if |s| > 0 {
      SortByRankStable(s[1..], k);
      InsertKeepsTies(s[0], SortByRank(s[1..]), k);
    }
  }

  /** The articles whose section is `k`, in input order. */
  function Group(articles: seq<Article>, k: string): seq<Article> {
    if |articles| == 0 then []
    else
      var last := articles[|articles| - 1];
      Group(articles[..|articles| - 1], k) + (if SectionOf(last) == k then [last] else [])
  }

  /** Each article is in the group of its own section, and in no other. */
  lemma {:induction false} GroupMembership(articles: seq<Article>, k: string, a: Article)
    ensures a in Group(articles, k) <==> a in articles && SectionOf(a) == k
  {
    if |articles| > 0 {
      var init := articles[..|articles| - 1];
      GroupMembership(init, k, a);
      assert articles == init + [articles[|articles| - 1]];
    }
  }

  /** The positions of the articles of section `k`. */
  function Positions(articles: seq<Article>, k: string): set<nat> {
    set i: nat | i < |articles| && SectionOf(articles[i]) == k
  }

  /** The positions in `articles` are those of its prefix, plus the last one when it belongs. */
  lemma PositionsOfLast(articles: seq<Article>, k: string)
    requires |articles| > 0
    ensures var n := |articles| - 1;
      && n !in Positions(articles[..n], k)
      && Positions(articles, k)
        == Positions(articles[..n], k) + (if SectionOf(articles[n]) == k then {n} else {})
  {
    var n := |articles| - 1;
    forall i: nat | i < n ensures articles[..n][i] == articles[i] {}
  }

  /** Every article is counted in exactly one group: a group's size is the number of positions of its section. */
  lemma {:induction false} GroupSizeCounts(articles: seq<Article>, k: string)
    ensures |Group(articles, k)| == |Positions(articles, k)|
  {
    if |articles| > 0 {
      var n := |articles| - 1;
      GroupSizeCounts(articles[..n], k);
      PositionsOfLast(articles, k);
    }
  }

  /** One more article extends its own section's group and no other. */
  lemma GroupStep(articles: seq<Article>, i: nat)
    requires i < |articles|
    ensures forall k ::
      Group(articles[..i + 1], k) == Group(articles[..i], k) + (if SectionOf(articles[i]) == k then [articles[i]] else [])
  {
    assert articles[..i + 1][..i] == articles[..i];
  }

  /**
   * The `reduce` into `groupedBySection` followed by the in-place sort of
   * every list: one list per section present, sorted by rank.
   */
  method GroupBySection(articles: seq<Article>) returns (groups: map<string, seq<Article>>)
    ensures forall k :: k in groups <==> Group(articles, k) != []
    ensures forall k :: k in groups ==> groups[k] == SortByRank(Group(articles, k))
  {
    var acc: map<string, seq<Article>> := map[];
    for i := 0 to |articles|
      invariant forall k :: k in acc <==> Group(articles[..i], k) != []
      invariant forall k :: k in acc ==> acc[k] == Group(articles[..i], k)
    {
      var a := articles[i];
      var section := SectionOf(a);
      GroupStep(articles, i);
      var list := if section in acc then acc[section] else [];
      acc := acc[section := list + [a]];
    }
    assert articles[..|articles|] == articles;
    groups := acc;
    var pending := acc.Keys;
    while pending != {}
      invariant pending <= acc.Keys && groups.Keys == acc.Keys
      invariant forall k :: k in groups && k !in pending ==> groups[k] == SortByRank(acc[k])
      invariant forall k :: k in pending ==> groups[k] == acc[k]
      decreases |pending|
    {
      var k :| k in pending;
      groups := groups[k := SortByRank(groups[k])];
      pending := pending - {k};
    }
  }

  /** `groupedBySection[p]?.length ?? 0`. */
  function Count(groups: map<string, seq<Article>>, p: string): nat {
    if p in groups then |groups[p]| else 0
  }

  /** The platforms, in order, with between one and three articles. */
  function SmallSections(platforms: seq<string>, groups: map<string, seq<Article>>): seq<string> {
    if |platforms| == 0 then []
    else
      var p := platforms[|platforms| - 1];
      SmallSections(platforms[..|platforms| - 1], groups)
        + (if 0 < Count(groups, p) < MergeThreshold then [p] else [])
  }

  /** The platforms, in order, with at least four articles. */
  function LargeSections(platforms: seq<string>, groups: map<string, seq<Article>>): seq<string> {
    if |platforms| == 0 then []
    else
      var p := platforms[|platforms| - 1];
      LargeSections(platforms[..|platforms| - 1], groups)
        + (if Count(groups, p) >= MergeThreshold then [p] else [])
  }

  /**
   * A platform with no article is in neither list; any other is in exactly
   * one, by its count.
   */
  lemma {:induction false} PartitionSpec(platforms: seq<string>, groups: map<string, seq<Article>>, p: string)
    ensures p in SmallSections(platforms, groups) <==> p in platforms && 0 < Count(groups, p) < MergeThreshold
    ensures p in LargeSections(platforms, groups) <==> p in platforms && Count(groups, p) >= MergeThreshold
  {
    if |platforms| > 0 {
      var init := platforms[..|platforms| - 1];
      PartitionSpec(init, groups, p);
      assert platforms == init + [platforms[|platforms| - 1]];
    }
  }

  /** The `platforms.forEach` that fills `smallSections` and `largeSections`. */
  method Partition(platforms: seq<string>, groups: map<string, seq<Article>>)
    returns (small: seq<string>, large: seq<string>)
    ensures small == SmallSections(platforms, groups)
    ensures large == LargeSections(platforms, groups)
  {
    small, large := [], [];
    for i := 0 to |platforms|
      invariant small == SmallSections(platforms[..i], groups)
      invariant large == LargeSections(platforms[..i], groups)
    {
      var p := platforms[i];
      var count := if p in groups then |groups[p]| else 0;
      assert platforms[..i + 1][..i] == platforms[..i];
      if count == 0 {
        continue;
      }
      if count < MergeThreshold {
        small := small + [p];
      } else {
        large := large + [p];
      }
    }
    assert platforms[..|platforms|] == platforms;
  }

  /** `{ ...article, section }` for every article of a list. */
  function Relabel(list: seq<Article>, section: string): (r: seq<Article>)
    ensures |r| == |list|
    ensures forall i :: 0 <= i < |r| ==> r[i] == list[i].(section := Some(section))
  {
    seq(|list|, i requires 0 <= i < |list| => list[i].(section := Some(section)))
  }

  /** The small sections' articles, relabelled with their platform, section after section. */
  function Collected(small: seq<string>, groups: map<string, seq<Article>>): seq<Article> {
    if |small| == 0 then []
    else
      var p := small[|small| - 1];
      Collected(small[..|small| - 1], groups) + Relabel(if p in groups then groups[p] else [], p)
  }

  /** Every merged article carries the name of one of the small sections. */
  lemma {:induction false} CollectedLabels(small: seq<string>, groups: map<string, seq<Article>>)
    ensures forall a :: a in Collected(small, groups) ==> a.section.Some? && a.section.value in small
  {
    if |small| > 0 {
      var init := small[..|small| - 1];
      CollectedLabels(init, groups);
      forall a | a in Collected(small, groups) ensures a.section.Some? && a.section.value in small {
        if a !in Collected(init, groups) {
          var p := small[|small| - 1];
          var list := if p in groups then groups[p] else [];
          var i :| 0 <= i < |Relabel(list, p)| && Relabel(list, p)[i] == a;
        } else {
          assert a.section.value in init;
        }
      }
    }
  }

  /** `mergedArticles`: the small sections' articles, relabelled, then sorted by rank. */
  method MergeSmallSections(small: seq<string>, groups: map<string, seq<Article>>) returns (merged: seq<Article>)
    ensures merged == SortByRank(Collected(small, groups))
  {
    var acc: seq<Article> := [];
    for i := 0 to |small|
      invariant acc == Collected(small[..i], groups)
    {
      var section := small[i];
      var list := if section in groups then groups[section] else [];
      for j := 0 to |list|
        invariant acc == Collected(small[..i], groups) + Relabel(list[..j], section)
      {
        assert Relabel(list[..j + 1], section) == Relabel(list[..j], section) + [list[j].(section := Some(section))];
        acc := acc + [list[j].(section := Some(section))];
      }
      assert list[..|list|] == list;
      assert small[..i + 1][..i] == small[..i];
    }
    assert small[..|small|] == small;
    merged := SortByRank(acc);
  }

  /** `displaySections`: the selected platform alone, when one is selected. */
  function DisplaySections(selected: Option<string>, large: seq<string>): (r: seq<string>)
    ensures Present(selected) ==> r == [selected.value]
    ensures !Present(selected) ==> r == large
  {
    if Present(selected) then [selected.value] else large
  }

  /** `articles.slice(0, 15)` on each card. */
  function CardArticles(list: seq<Article>): (r: seq<Article>)
    ensures |r| == if |list| < CardLimit then |list| else CardLimit
    ensures r == list[..|r|]
    ensures |list| <= CardLimit ==> r == list
  {
    Take(list, CardLimit)
  }

  datatype FeedLayout = FeedLayout(
    groups: map<string, seq<Article>>,
    small: seq<string>,
    large: seq<string>,
    merged: seq<Article>,
    display: seq<string>)

  /** The whole shaping step of the `NewsFeed` component. */
  method Layout(articles: seq<Article>, platforms: seq<string>, selected: Option<string>) returns (l: FeedLayout)
    ensures forall k :: k in l.groups <==> Group(articles, k) != []
    ensures forall k :: k in l.groups ==> l.groups[k] == SortByRank(Group(articles, k))
    ensures l.small == SmallSections(platforms, l.groups)
    ensures l.large == LargeSections(platforms, l.groups)
    ensures l.merged == SortByRank(Collected(l.small, l.groups))
    ensures l.display == DisplaySections(selected, l.large)
  {
    var groups := GroupBySection(articles);
    var small, large := Partition(platforms, groups);
    var merged := MergeSmallSections(small, groups);
    l := FeedLayout(groups, small, large, merged, DisplaySections(selected, large));
  }
}
