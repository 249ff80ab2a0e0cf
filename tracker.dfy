/** The registry object: two lists of entries that its methods update in place. */
module Tracker {
  import opened ThreadEntries

  /** `threadIdsToProcess` holds the threads still waiting for their debounce timer to
      run out; `trackedThreads` the threads the registry still knows. The two lists are
      filled together and emptied independently, and nothing keeps their ids unique. */
  class ThreadTracker {
    var threadIdsToProcess: seq<Entry>
    var trackedThreads: seq<Entry>

    constructor ()
      ensures threadIdsToProcess == [] && trackedThreads == []
    {
      threadIdsToProcess := [];
      trackedThreads := [];
    }

    /** Appends one entry to the end of each list. The clock default of the source is
        the caller's `now`, passed as `timestamp`. */
    method AddThread(threadId: string, channelId: string, timestamp: int)
      modifies this
      ensures threadIdsToProcess == old(threadIdsToProcess) + [Entry(timestamp, threadId, channelId)]
      ensures trackedThreads == old(trackedThreads) + [Entry(timestamp, threadId, channelId)]
    {
      threadIdsToProcess := threadIdsToProcess + [Entry(timestamp, threadId, channelId)];
      trackedThreads := trackedThreads + [Entry(timestamp, threadId, channelId)];
    }

    /** The index of the first pending entry carrying `threadId`, or -1. */
    method FindThreadToProcess(threadId: string) returns (idx: int)
      ensures idx == IndexOf(threadIdsToProcess, threadId)
      ensures idx == -1 <==> !HasThread(threadIdsToProcess, threadId)
      ensures 0 <= idx ==>
        idx < |threadIdsToProcess| && threadIdsToProcess[idx].threadId == threadId &&
        forall i :: 0 <= i < idx ==> threadIdsToProcess[i].threadId != threadId
    {
      idx := IndexOf(threadIdsToProcess, threadId);
    }

    /** Overwrites the timestamp of the first pending entry carrying `threadId`; reports
        whether there was one. */
    method UpdateThreadTimestamp(threadId: string, timestamp: int) returns (updated: bool)
      modifies this
      ensures updated == HasThread(old(threadIdsToProcess), threadId)
      ensures threadIdsToProcess == Retimed(old(threadIdsToProcess), threadId, timestamp)
      ensures !updated ==> threadIdsToProcess == old(threadIdsToProcess)
      ensures trackedThreads == old(trackedThreads)
    {
      var foundIdx := FindThreadToProcess(threadId);
      if foundIdx != -1 {
        threadIdsToProcess := threadIdsToProcess[foundIdx := threadIdsToProcess[foundIdx].(timestamp := timestamp)];
        return true;
      }
      return false;
    }

    /** Deletes the first pending entry carrying `threadId`, if any. */
    method RemoveThreadFromProcessing(threadId: string)
      modifies this
      ensures threadIdsToProcess == RemoveFirst(old(threadIdsToProcess), threadId)
      ensures trackedThreads == old(trackedThreads)
    {
      var idx := FindThreadToProcess(threadId);
      if idx != -1 {
        threadIdsToProcess := threadIdsToProcess[..idx] + threadIdsToProcess[idx + 1..];
      }
    }

    /** Deletes the first tracked entry carrying `threadId`, if any. */
    method RemoveThreadFromTracking(threadId: string)
      modifies this
      ensures trackedThreads == RemoveFirst(old(trackedThreads), threadId)
      ensures threadIdsToProcess == old(threadIdsToProcess)
    {
      var trackedIdx := IndexOf(trackedThreads, threadId);
      if trackedIdx != -1 {
        trackedThreads := trackedThreads[..trackedIdx] + trackedThreads[trackedIdx + 1..];
      }
    }

    /** Sorts the pending list in place, oldest first, and returns the entries that are
        strictly more than `timeout` milliseconds old at `now`, in that order. */
    method GetThreadsDueForProcessing(timeout: int, now: int) returns (dueThreads: seq<Entry>)
      modifies this
      ensures threadIdsToProcess == SortByTimestamp(old(threadIdsToProcess))
      ensures multiset(threadIdsToProcess) == multiset(old(threadIdsToProcess))
      ensures SortedByTimestamp(threadIdsToProcess)
      ensures dueThreads == DueEntries(threadIdsToProcess, now, timeout)
      ensures forall e ::
        multiset(dueThreads)[e] == (if IsDue(e, now, timeout) then multiset(old(threadIdsToProcess))[e] else 0)
      ensures |dueThreads| <= |threadIdsToProcess| && dueThreads == threadIdsToProcess[..|dueThreads|]
      ensures trackedThreads == old(trackedThreads)
    {
      threadIdsToProcess := SortByTimestamp(threadIdsToProcess);
      dueThreads := DueEntries(threadIdsToProcess, now, timeout);
      DueEntriesExactly(threadIdsToProcess, now, timeout);
      DueIsPrefixOfSorted(threadIdsToProcess, now, timeout);
    }
  }
}
