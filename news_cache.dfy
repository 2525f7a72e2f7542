/**
 * The process-wide news snapshot cache (server/cache.ts): a single slot
 * holding the most recent compacted news summary, replaced wholesale on
 * every write.
 */
module NewsCache {
  import opened Wrappers

  /** One cached snapshot. `updatedAt` is the capture time in milliseconds. */
  datatype Snapshot = Snapshot(
    summary: string,
    articleCount: nat,
    sections: seq<string>,
    updatedAt: int,
    hours: int)

  class Slot {
    /** The module variable `newsCache`; `None` is `null`. */
    var entry: Option<Snapshot>

    /** The slot starts empty. */
    constructor ()
      ensures entry == None
    {
      entry := None;
    }

    /** `setNewsCache`: the new snapshot replaces the old one entirely. */
    method Set(snapshot: Snapshot)
      modifies this
      ensures entry == Some(snapshot)
    {
      entry := Some(snapshot);
    }

    /** `getNewsCache`: reads the slot and changes nothing. */
    method Get() returns (snapshot: Option<Snapshot>)
      ensures snapshot == entry
    {
      snapshot := entry;
    }

    /** `clearNewsCache`: empties the slot. */
    method Clear()
      modifies this
      ensures entry == None
    {
      entry := None;
    }
  }
}
