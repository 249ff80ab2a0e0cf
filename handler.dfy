/** The event handler, the per-thread processing pipeline and the periodic timeout scan,
    all working on one ThreadTracker. The chat service and the text generator enter as
    function parameters that return a value or a failure; the clock enters as `now`. */
module MessageHandler {
  import opened Discord
  import opened ThreadEntries
  import opened Tracker
  import opened Formatter

  datatype Option<T> = None | Some(value: T)

  // ---------------------------------------------------------------------------
  // Message events
  // ---------------------------------------------------------------------------

  /** The three outcomes of a message event. */
  datatype HandleResult = BotMessage | TimerReset(threadId: string) | NotTracked
  {
    /** The `handled` flag of the result: only a timer reset handles the message. */
    predicate Handled()
    {
      TimerReset?
    }
  }

  /** Ignores bot authors; otherwise, when the message's channel is a pending thread,
      resets that thread's timer to `now`. */
  method HandleMessageCreate(message: Message, threadTracker: ThreadTracker, now: int) returns (result: HandleResult)
    modifies threadTracker
    ensures message.authorIsBot ==> result == BotMessage
    ensures !message.authorIsBot && HasThread(old(threadTracker.threadIdsToProcess), message.channelId) ==>
      result == TimerReset(message.channelId)
    ensures !message.authorIsBot && !HasThread(old(threadTracker.threadIdsToProcess), message.channelId) ==>
      result == NotTracked
    ensures threadTracker.threadIdsToProcess ==
      if result.TimerReset? then Retimed(old(threadTracker.threadIdsToProcess), message.channelId, now)
      else old(threadTracker.threadIdsToProcess)
    ensures threadTracker.trackedThreads == old(threadTracker.trackedThreads)
  {
    if message.authorIsBot {
      return BotMessage;
    }
    var foundIdx := threadTracker.FindThreadToProcess(message.channelId);
    if foundIdx != -1 {
      var updated := threadTracker.UpdateThreadTimestamp(message.channelId, now);
      return TimerReset(message.channelId);
    }
    return NotTracked;
  }

  /** The debounce: after a timer reset at `now`, the reset entry is among the entries a
      scan at a later instant `later` reports exactly when more than `timeout`
      milliseconds have passed since the reset. */
  lemma {:induction false} TimerResetDefersDue(s: seq<Entry>, id: string, now: int, later: int, timeout: int)
    requires HasThread(s, id)
    ensures var reset := Retimed(s, id, now);
      reset[IndexOf(s, id)].threadId == id &&
      (multiset(DueEntries(SortByTimestamp(reset), later, timeout))[reset[IndexOf(s, id)]] > 0 <==>
       later - now > timeout)
  {
    var reset := Retimed(s, id, now);
    RetimedEffect(s, id, now);
    DueEntriesExactly(SortByTimestamp(reset), later, timeout);
    assert reset[IndexOf(s, id)] in multiset(reset);
  }

  // ---------------------------------------------------------------------------
  // Processing one thread
  // ---------------------------------------------------------------------------

  /** The error tags of a failed processing run. */
  datatype ProcessError = FetchFailed | ChannelNotAllowed | MessagesFetchFailed | NoMessages | ProcessingFailed

  datatype ProcessResult =
    | Processed(threadId: string, channelName: string, response: string)
    | Failed(error: ProcessError)
  {
    /** The `success` flag of the result. */
    predicate Success()
    {
      Processed?
    }
  }

  /** A collaborator call the pipeline made. */
  datatype Call =
    | FetchThread(threadId: string)
    | FetchMessages(thread: ThreadChannel, limit: nat)
    | Generate(text: string)

  /** What a processing run does to the registry. */
  datatype Effect = RemoveFromProcessing | RemoveFromTracking | NoEffect
  {
    function OnPending(id: string, pending: seq<Entry>): seq<Entry>
    {
      if RemoveFromProcessing? then RemoveFirst(pending, id) else pending
    }

    function OnTracked(id: string, tracked: seq<Entry>): seq<Entry>
    {
      if RemoveFromTracking? then RemoveFirst(tracked, id) else tracked
    }
  }

  datatype Run = Run(result: ProcessResult, effect: Effect, calls: seq<Call>)

  /** The page size of the message fetch. */
  const MESSAGE_FETCH_LIMIT: nat := 100

  /** What processing `threadId` returns, does to the registry and asks of its
      collaborators: fetch the thread, check its parent channel against the allow-list,
      fetch its messages, check they are not empty, then format and generate. */
  function ProcessRun(
    threadId: string,
    fetchThread: string -> Outcome<ThreadChannel>,
    fetchMessages: (ThreadChannel, nat) -> Outcome<seq<Message>>,
    allowedChannels: map<string, string>,
    generate: string -> Outcome<string>,
    iso: int -> string): (run: Run)
    // The calls made are a prefix of the fixed order: thread, messages, generator.
    ensures 1 <= |run.calls| <= 3 && run.calls[0] == FetchThread(threadId)
    ensures 2 <= |run.calls| <==>
      fetchThread(threadId).Resolved? && fetchThread(threadId).value.parentId in allowedChannels.Values
    ensures 2 <= |run.calls| ==> run.calls[1] == FetchMessages(fetchThread(threadId).value, MESSAGE_FETCH_LIMIT)
    // The generator runs exactly when the messages arrived and are not empty, on their transcript.
    ensures |run.calls| == 3 <==>
      2 <= |run.calls| &&
      fetchMessages(fetchThread(threadId).value, MESSAGE_FETCH_LIMIT).Resolved? &&
      |fetchMessages(fetchThread(threadId).value, MESSAGE_FETCH_LIMIT).value| > 0
    ensures |run.calls| == 3 ==>
      run.calls[2] == Generate(Transcript(fetchMessages(fetchThread(threadId).value, MESSAGE_FETCH_LIMIT).value, iso))
    // Success is the generator answering; it reports the thread, its channel's name and the answer.
    ensures run.result.Success() <==> |run.calls| == 3 && generate(run.calls[2].text).Resolved?
    ensures run.result.Success() ==>
      run.result == Processed(threadId, fetchThread(threadId).value.parentName, generate(run.calls[2].text).value)
    // Each failure names the step that failed.
    ensures run.result == Failed(FetchFailed) <==> fetchThread(threadId).Rejected?
    ensures run.result == Failed(ChannelNotAllowed) <==> |run.calls| == 1 && fetchThread(threadId).Resolved?
    ensures run.result == Failed(MessagesFetchFailed) <==>
      |run.calls| == 2 && fetchMessages(fetchThread(threadId).value, MESSAGE_FETCH_LIMIT).Rejected?
    ensures run.result == Failed(NoMessages) <==>
      |run.calls| == 2 && fetchMessages(fetchThread(threadId).value, MESSAGE_FETCH_LIMIT).Resolved?
    ensures run.result == Failed(ProcessingFailed) <==> |run.calls| == 3 && !run.result.Success()
    // The registry effect of each outcome.
    ensures run.effect == RemoveFromTracking <==> run.result == Failed(NoMessages)
    ensures run.effect == NoEffect <==> run.result == Failed(ProcessingFailed)
  {
    match fetchThread(threadId)
    case Rejected => Run(Failed(FetchFailed), RemoveFromProcessing, [FetchThread(threadId)])
    case Resolved(thread) =>
      if thread.parentId !in allowedChannels.Values then
        Run(Failed(ChannelNotAllowed), RemoveFromProcessing, [FetchThread(threadId)])
      else
        var calls := [FetchThread(threadId), FetchMessages(thread, MESSAGE_FETCH_LIMIT)];
        match fetchMessages(thread, MESSAGE_FETCH_LIMIT)
        case Rejected => Run(Failed(MessagesFetchFailed), RemoveFromProcessing, calls)
        case Resolved(messages) =>
          if |messages| == 0 then
            Run(Failed(NoMessages), RemoveFromTracking, calls)
          else
            var text := Transcript(messages, iso);
            match generate(text)
            case Rejected => Run(Failed(ProcessingFailed), NoEffect, calls + [Generate(text)])
            case Resolved(response) =>
              Run(Processed(threadId, thread.parentName, response), RemoveFromProcessing, calls + [Generate(text)])
  }

  /** Processes one thread, calling the collaborators in the fixed order and updating
      the registry as each outcome demands. */
  method ProcessThread(
    threadId: string,
    fetchThread: string -> Outcome<ThreadChannel>,
    fetchMessages: (ThreadChannel, nat) -> Outcome<seq<Message>>,
    allowedChannels: map<string, string>,
    threadTracker: ThreadTracker,
    generate: string -> Outcome<string>,
    iso: int -> string)
    returns (result: ProcessResult, calls: seq<Call>)
    modifies threadTracker
    ensures var run := ProcessRun(threadId, fetchThread, fetchMessages, allowedChannels, generate, iso);
      result == run.result && calls == run.calls &&
      threadTracker.threadIdsToProcess == run.effect.OnPending(threadId, old(threadTracker.threadIdsToProcess)) &&
      threadTracker.trackedThreads == run.effect.OnTracked(threadId, old(threadTracker.trackedThreads))
  {
    calls := [FetchThread(threadId)];
    var fetched := fetchThread(threadId);
    if fetched.Rejected? {
      threadTracker.RemoveThreadFromProcessing(threadId);
      return Failed(FetchFailed), calls;
    }
    var thread := fetched.value;

    var channelId := thread.parentId;
    if channelId !in allowedChannels.Values {
      threadTracker.RemoveThreadFromProcessing(threadId);
      return Failed(ChannelNotAllowed), calls;
    }

    calls := calls + [FetchMessages(thread, MESSAGE_FETCH_LIMIT)];
    var fetchedMessages := fetchMessages(thread, MESSAGE_FETCH_LIMIT);
    if fetchedMessages.Rejected? {
      threadTracker.RemoveThreadFromProcessing(threadId);
      return Failed(MessagesFetchFailed), calls;
    }
    var messages := fetchedMessages.value;

    if |messages| == 0 {
      threadTracker.RemoveThreadFromTracking(threadId);
      return Failed(NoMessages), calls;
    }

    var formattedMessages := FormatThreadMessages(messages, iso);

    calls := calls + [Generate(formattedMessages)];
    var response := generate(formattedMessages);
    if response.Rejected? {
      return Failed(ProcessingFailed), calls;
    }

    threadTracker.RemoveThreadFromProcessing(threadId);
    result := Processed(threadId, thread.parentName, response.value);
  }

  // ---------------------------------------------------------------------------
  // The periodic timeout scan
  // ---------------------------------------------------------------------------

  /** Sorts the pending list; when some entry is due, removes the first (oldest) due
      entry from the pending list and processes its thread; otherwise returns None. */
  method CheckForTimeout(
    fetchThread: string -> Outcome<ThreadChannel>,
    fetchMessages: (ThreadChannel, nat) -> Outcome<seq<Message>>,
    allowedChannels: map<string, string>,
    threadTracker: ThreadTracker,
    timeout: int,
    now: int,
    generate: string -> Outcome<string>,
    iso: int -> string)
    returns (result: Option<ProcessResult>, calls: seq<Call>)
    modifies threadTracker
    ensures var sorted := SortByTimestamp(old(threadTracker.threadIdsToProcess));
      var due := DueEntries(sorted, now, timeout);
      due == [] ==>
        result == None && calls == [] &&
        threadTracker.threadIdsToProcess == sorted &&
        threadTracker.trackedThreads == old(threadTracker.trackedThreads)
    ensures var sorted := SortByTimestamp(old(threadTracker.threadIdsToProcess));
      var due := DueEntries(sorted, now, timeout);
      due != [] ==>
        var id := due[0].threadId;
        var run := ProcessRun(id, fetchThread, fetchMessages, allowedChannels, generate, iso);
        result == Some(run.result) && calls == run.calls &&
        threadTracker.threadIdsToProcess == run.effect.OnPending(id, RemoveFirst(sorted, id)) &&
        threadTracker.trackedThreads == run.effect.OnTracked(id, old(threadTracker.trackedThreads))
  {
    var dueThreads := threadTracker.GetThreadsDueForProcessing(timeout, now);

    if |dueThreads| > 0 {
      var threadToProcess := dueThreads[0];
      threadTracker.RemoveThreadFromProcessing(threadToProcess.threadId);
      var processed;
      processed, calls := ProcessThread(threadToProcess.threadId, fetchThread, fetchMessages, allowedChannels,
                                        threadTracker, generate, iso);
      return Some(processed), calls;
    }

    return None, [];
  }

  /** With distinct pending ids, a tick that finds a due thread leaves the pending list
      with exactly that thread's entry gone, whatever processing returns, and still
      sorted, so the next tick drains the next oldest; a thread found to have no
      messages is, with distinct tracked ids, in neither list afterwards. */
  lemma {:induction false} DrainRemovesOneEntry(
    pending: seq<Entry>, tracked: seq<Entry>, now: int, timeout: int, effect: Effect)
    requires DistinctIds(pending)
    requires DueEntries(SortByTimestamp(pending), now, timeout) != []
    ensures var sorted := SortByTimestamp(pending);
      var id := DueEntries(sorted, now, timeout)[0].threadId;
      var after := effect.OnPending(id, RemoveFirst(sorted, id));
      after == RemoveFirst(sorted, id) &&
      |after| == |pending| - 1 &&
      !HasThread(after, id) &&
      SortedByTimestamp(after)
    ensures var id := DueEntries(SortByTimestamp(pending), now, timeout)[0].threadId;
      DistinctIds(tracked) && effect == RemoveFromTracking ==> !HasThread(effect.OnTracked(id, tracked), id)
  {
    var sorted := SortByTimestamp(pending);
    var due := DueEntries(sorted, now, timeout);
    var id := due[0].threadId;
    SortKeepsDistinctIds(pending);
    RemoveFirstDistinct(sorted, id);
    RemoveFirstKeepsSorted(sorted, id);
    DueIsPrefixOfSorted(sorted, now, timeout);
    assert sorted[0] == due[0];
    assert HasThread(sorted, id);
    RemoveFirstEffect(sorted, id);
    assert |sorted| == |pending| by {
      assert |multiset(sorted)| == |multiset(pending)|;
    }
    if DistinctIds(tracked) {
      RemoveFirstDistinct(tracked, id);
    }
  }
}
