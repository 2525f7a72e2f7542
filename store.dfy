/**
 * The client's application store (src/store.ts) and the records it holds
 * (src/types.ts). Every action replaces one field; the analysis history is
 * newest-first and capped at 20 entries, the chat log grows at the end.
 */
module Store {
  import opened Wrappers
  import opened Text

  /** The fields of a news record that the feed reads; the other columns are not modelled. */
  datatype Article = Article(
    id: int,
    title: string,
    section: Option<string>,
    rank: Option<int>,
    heat: Option<int>,
    score: Option<int>,
    trend: Option<string>)

  datatype AnalysisResult = AnalysisResult(taskId: string, taskName: string, content: string, generatedAt: string)

  datatype Role = User | Assistant
  datatype ChatMessage = ChatMessage(role: Role, content: string, timestamp: string)

  const MaxResults: nat := 20
  const InitialTimeRange: int := 1

  /** All fields of the store at one moment. */
  datatype State = State(
    articles: seq<Article>,
    platforms: seq<string>,
    selectedPlatform: Option<string>,
    analysisResults: seq<AnalysisResult>,
    chatMessages: seq<ChatMessage>,
    chatTimeRange: int,
    isLoading: bool,
    lastUpdated: Option<string>)

  /** `[result, ...history].slice(0, 20)`. */
  function PushCapped(history: seq<AnalysisResult>, result: AnalysisResult): (h: seq<AnalysisResult>)
    ensures 1 <= |h| <= MaxResults
    ensures h[0] == result
    ensures h[1..] == Take(history, MaxResults - 1)
  {
    var h := Take([result] + history, MaxResults);
    assert h[1..] == Take(history, MaxResults - 1);
    h
  }

  class AppStore {
    var articles: seq<Article>
    var platforms: seq<string>
    var selectedPlatform: Option<string>
    var analysisResults: seq<AnalysisResult>
    var chatMessages: seq<ChatMessage>
    var chatTimeRange: int
    var isLoading: bool
    var lastUpdated: Option<string>

    function Snapshot(): State
      reads this
    {
      State(articles, platforms, selectedPlatform, analysisResults, chatMessages, chatTimeRange, isLoading, lastUpdated)
    }

    /** The history never holds more than 20 results. */
    predicate Valid()
      reads this
    {
      |analysisResults| <= MaxResults
    }

    /** The initial state: everything empty or null, a one-hour chat range, not loading. */
    constructor ()
      ensures Snapshot() == State([], [], None, [], [], InitialTimeRange, false, None)
      ensures Valid()
    {
      articles := [];
      platforms := [];
      selectedPlatform := None;
      analysisResults := [];
      chatMessages := [];
      chatTimeRange := InitialTimeRange;
      isLoading := false;
      lastUpdated := None;
    }

    method SetArticles(a: seq<Article>)
      requires Valid()
      modifies this
      ensures Snapshot() == old(Snapshot()).(articles := a)
      ensures Valid()
    {
      articles := a;
    }

    method SetPlatforms(p: seq<string>)
      requires Valid()
      modifies this
      ensures Snapshot() == old(Snapshot()).(platforms := p)
      ensures Valid()
    {
      platforms := p;
    }

    method SetSelectedPlatform(p: Option<string>)
      requires Valid()
      modifies this
      ensures Snapshot() == old(Snapshot()).(selectedPlatform := p)
      ensures Valid()
    {
      selectedPlatform := p;
    }

    /** The new result goes first; the history keeps at most 20 entries. */
    method AddAnalysisResult(r: AnalysisResult)
      modifies this
      ensures Snapshot() == old(Snapshot()).(analysisResults := PushCapped(old(analysisResults), r))
      ensures Valid()
    {
      analysisResults := PushCapped(analysisResults, r);
    }

    /** The message is appended; earlier messages stay as they were. */
    method AddChatMessage(m: ChatMessage)
      requires Valid()
      modifies this
      ensures Snapshot() == old(Snapshot()).(chatMessages := old(chatMessages) + [m])
      ensures Valid()
    {
      chatMessages := chatMessages + [m];
    }

    method SetChatTimeRange(hours: int)
      requires Valid()
      modifies this
      ensures Snapshot() == old(Snapshot()).(chatTimeRange := hours)
      ensures Valid()
    {
      chatTimeRange := hours;
    }

    method SetIsLoading(loading: bool)
      requires Valid()
      modifies this
      ensures Snapshot() == old(Snapshot()).(isLoading := loading)
      ensures Valid()
    {
      isLoading := loading;
    }

    method SetLastUpdated(time: string)
      requires Valid()
      modifies this
      ensures Snapshot() == old(Snapshot()).(lastUpdated := Some(time))
      ensures Valid()
    {
      lastUpdated := Some(time);
    }
  }

  function Reverse<T>(s: seq<T>): (r: seq<T>)
    ensures |r| == |s|
    ensures forall k :: 0 <= k < |s| ==> r[k] == s[|s| - 1 - k]
  {
    if |s| == 0 then [] else [s[|s| - 1]] + Reverse(s[..|s| - 1])
  }

  /** The history after adding `rs` in order to `history`. */
  function AddAll(history: seq<AnalysisResult>, rs: seq<AnalysisResult>): seq<AnalysisResult> {
    if |rs| == 0 then history else PushCapped(AddAll(history, rs[..|rs| - 1]), rs[|rs| - 1])
  }

  lemma TakeOfPrefix<T>(x: T, s: seq<T>, n: nat)
    ensures Take([x] + Take(s, n), n + 1) == Take([x] + s, n + 1)
  {
  }

  /** After adding results one by one to an empty history, it holds the last 20, newest first. */
  lemma {:induction false} HistoryIsNewestTwenty(rs: seq<AnalysisResult>)
    ensures AddAll([], rs) == Take(Reverse(rs), MaxResults)
  {
    if |rs| > 0 {
      var init := rs[..|rs| - 1];
      var last := rs[|rs| - 1];
      HistoryIsNewestTwenty(init);
      TakeOfPrefix(last, Reverse(init), MaxResults - 1);
      assert Reverse(rs) == [last] + Reverse(init);
    }
  }

  /** A fresh store fed `rs` through `addAnalysisResult` holds the last 20 of them, newest first. */
  method ReplayResults(rs: seq<AnalysisResult>) returns (history: seq<AnalysisResult>)
    ensures history == Take(Reverse(rs), MaxResults)
    ensures |history| <= MaxResults
  {
    var store := new AppStore();
    var i := 0;
    while i < |rs|
      invariant 0 <= i <= |rs|
      invariant store.analysisResults == AddAll([], rs[..i])
    {
      store.AddAnalysisResult(rs[i]);
      assert rs[..i + 1][..i] == rs[..i];
      i := i + 1;
    }
    assert rs[..i] == rs;
    HistoryIsNewestTwenty(rs);
    history := store.analysisResults;
  }

  /** The chat log after a run of `addChatMessage` calls is the messages in order. */
  method ReplayChat(ms: seq<ChatMessage>) returns (log: seq<ChatMessage>)
    ensures log == ms
  {
    var store := new AppStore();
    var i := 0;
    while i < |ms|
      invariant 0 <= i <= |ms|
      invariant store.chatMessages == ms[..i]
      invariant store.Valid()
    {
      store.AddChatMessage(ms[i]);
      assert ms[..i + 1] == ms[..i] + [ms[i]];
      i := i + 1;
    }
    assert ms[..i] == ms;
    log := store.chatMessages;
  }
}
