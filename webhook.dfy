/**
 * The automatic analysis slot (server/routes/webhook.ts): a crawler's
 * webhook starts a run, a successful run overwrites the single slot, a
 * failed one leaves it alone, and `/auto-analysis` reads it.
 */
module AutoAnalysis {
  import opened Wrappers

  /** `latestAutoAnalysis` when set: the generated text and its display timestamp. */
  datatype AutoResult = AutoResult(content: string, generatedAt: string)

  /** The webhook's immediate answer. */
  datatype Ack = Ack(status: string, message: string)

  const Received: Ack := Ack("received", "Analysis started")

  class Slot {
    var latest: Option<AutoResult>

    /** The module starts with `latestAutoAnalysis = null`. */
    constructor ()
      ensures latest == None
    {
      latest := None;
    }

    /**
     * `runAutoAnalysis`: `outcome` is the generated text, or `None` when
     * fetching the articles or the model call threw. Only a success
     * overwrites the slot, whatever text it carries.
     */
    method RunAutoAnalysis(outcome: Option<string>, generatedAt: string)
      modifies this
      ensures outcome.Some? ==> latest == Some(AutoResult(outcome.value, generatedAt))
      ensures outcome.None? ==> latest == old(latest)
    {
      if outcome.Some? {
        latest := Some(AutoResult(outcome.value, generatedAt));
      }
    }

    /** `GET /auto-analysis`: the stored pair, or two nulls before any run has succeeded. */
    method Read() returns (content: Option<string>, generatedAt: Option<string>)
      ensures latest.None? ==> content.None? && generatedAt.None?
      ensures latest.Some? ==> content == Some(latest.value.content) && generatedAt == Some(latest.value.generatedAt)
    {
      match latest
      case None => content, generatedAt := None, None;
      case Some(r) => content, generatedAt := Some(r.content), Some(r.generatedAt);
    }

    /**
     * `POST /webhook/crawl-complete`: the acknowledgement is sent first and
     * does not depend on the run, which then proceeds on its own.
     */
    method CrawlComplete(outcome: Option<string>, generatedAt: string) returns (ack: Ack)
      modifies this
      ensures ack == Received
      ensures outcome.Some? ==> latest == Some(AutoResult(outcome.value, generatedAt))
      ensures outcome.None? ==> latest == old(latest)
    {
      ack := Received;
      RunAutoAnalysis(outcome, generatedAt);
    }
  }

  /** Before any run has succeeded, the read gives two nulls, even after failed runs. */
  method NullsUntilSuccess(failures: nat, generatedAt: string)
    returns (content: Option<string>, stamp: Option<string>)
    ensures content.None? && stamp.None?
  {
    var slot := new Slot();
    var k := 0;
    while k < failures
      invariant slot.latest.None?
    {
      var ack := slot.CrawlComplete(None, generatedAt);
      k := k + 1;
    }
    content, stamp := slot.Read();
  }

  /** A success, then a failure: the read still gives the successful run's text and time. */
  method FailureKeepsPrevious(text: string, first: string, second: string)
    returns (content: Option<string>, stamp: Option<string>)
    ensures content == Some(text) && stamp == Some(first)
  {
    var slot := new Slot();
    slot.RunAutoAnalysis(Some(text), first);
    slot.RunAutoAnalysis(None, second);
    content, stamp := slot.Read();
  }

  /** Two successes: only the later one is kept. */
  method LaterSuccessOverwrites(a: string, b: string, first: string, second: string)
    returns (content: Option<string>, stamp: Option<string>)
    ensures content == Some(b) && stamp == Some(second)
  {
    var slot := new Slot();
    slot.RunAutoAnalysis(Some(a), first);
    slot.RunAutoAnalysis(Some(b), second);
    content, stamp := slot.Read();
  }
}
