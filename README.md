# Thread debounce scheduler — a Dafny model

This project models the core of a chat bot that watches discussion threads and hands
each thread's conversation to a text generator once the thread has been quiet for a
while. The core is `lib/messageHandler.js`:

- `ThreadTracker`, the registry: two lists of `{timestamp, threadId, channelId}` entries,
  `threadIdsToProcess` (threads waiting for their debounce timer) and `trackedThreads`
  (threads the registry still knows), with append, first-match lookup, timestamp
  overwrite, first-match removal, and a sort-then-filter that reports the due threads;
- `handleMessageCreate`, which ignores bot authors and resets the timer of a pending thread;
- `formatThreadMessages`, which builds the transcript handed to the generator;
- `processThread`, the fixed-order pipeline (fetch thread, allow-list check, fetch
  messages, emptiness check, generate) with one error tag per failing step and a fixed
  effect on the registry for each outcome;
- `checkForTimeout`, the periodic tick that drains at most one overdue thread, the oldest.

Files:

- `discord.dfy` (module `Discord`): the collaborators' data — messages, attachments,
  thread channels — and `Outcome<T>`, the outcome of an awaited call (a value or a failure).
- `entries.dfy` (module `ThreadEntries`): the `Entry` datatype and the list operations the
  tracker performs, as functions (`IndexOf` is `findIndex`, `RemoveFirst` the guarded
  `splice`, `Retimed` the timestamp overwrite, `SortByTimestamp` the stable sort,
  `DueEntries` the filter), with the lemmas about them.
- `tracker.dfy` (module `Tracker`): the class `ThreadTracker` whose two `seq` fields the
  methods reassign, each method's postcondition stating the whole new state.
- `formatter.dfy` (module `Formatter`): the transcript as a function and the source's
  nested string-building loop as a method proved equal to it.
- `handler.dfy` (module `MessageHandler`): the message handler, the processing pipeline
  (a specification function `ProcessRun` and the method `ProcessThread` that follows it)
  and the tick `CheckForTimeout`.

The clock (`Date.now()`) is an explicit `now` (or `timestamp`) parameter. The ISO-8601
rendering of an instant is a parameter `iso: int -> string`. The thread fetch, the message
fetch and the generator are function parameters returning `Outcome<T>`; the pipeline also
returns the list of collaborator calls it made, so the order of the steps and where they
stop are part of its contract.

Two behaviours of the code that a reader might not expect, modelled as written:

- On the "no messages" outcome the code removes the thread from `trackedThreads` only
  (lib/messageHandler.js:140-144); a direct call leaves its pending entry in place.
  `ProcessRun` gives the effect `RemoveFromTracking` and nothing else. Through the tick the
  entry has already left the pending list (line 179), and `DrainRemovesOneEntry` proves the
  thread is then in neither list (given distinct ids).
- A timer reset overwrites the timestamp with the value it is given (line 27); nothing
  makes it larger. `Retimed` does the same.

The member names are those of the class (`threadIdsToProcess`, `findThreadToProcess`,
`removeThreadFromProcessing`, ...).

## Model

| member | source | states |
|---|---|---|
| Tracker.ThreadTracker.constructor | lib/messageHandler.js:10-13 | both lists start empty |
| Tracker.ThreadTracker.AddThread | lib/messageHandler.js:15-18 | exactly one entry `{timestamp, threadId, channelId}` is appended to the end of each list; earlier entries are unchanged; no uniqueness check |
| ThreadEntries.IndexOf | lib/messageHandler.js:20-22 | the result is -1 exactly when no entry carries the id; otherwise it is the smallest index whose entry carries the id |
| Tracker.ThreadTracker.FindThreadToProcess | lib/messageHandler.js:20-22 | returns -1 exactly when no pending entry has the id, otherwise the first pending index with that id; changes nothing |
| ThreadEntries.IndexOfAppended | lib/messageHandler.js:15-22 | after appending an entry with a new id, the lookup finds it at the old length |
| ThreadEntries.IndexOfAppendedFound | lib/messageHandler.js:15-22 | appending an entry does not move the first match of an id already present |
| Tracker.ThreadTracker.UpdateThreadTimestamp | lib/messageHandler.js:24-31 | returns true exactly when the id is pending; then only the first match's timestamp is overwritten; otherwise nothing changes; `trackedThreads` never changes |
| ThreadEntries.RetimedEffect | lib/messageHandler.js:24-31 | the overwrite keeps the length, every id and channel id, every entry except the first match, sets that entry's timestamp, and keeps the first match where it was |
| ThreadEntries.RetimedTwice | lib/messageHandler.js:24-31 | two overwrites of the same id: the last one wins |
| Tracker.ThreadTracker.RemoveThreadFromProcessing | lib/messageHandler.js:33-38 | the pending list loses its first entry with the id (no-op when absent); `trackedThreads` is untouched |
| Tracker.ThreadTracker.RemoveThreadFromTracking | lib/messageHandler.js:40-45 | the tracked list loses its first entry with the id (no-op when absent); the pending list is untouched |
| ThreadEntries.RemoveFirstEffect | lib/messageHandler.js:33-45 | removal is a no-op when the id is absent; otherwise the list is one shorter, loses exactly the first matching entry, and entries with other ids keep their multiplicity |
| ThreadEntries.RemoveFirstUndoesAppend | lib/messageHandler.js:15-38 | adding a thread with a new id and removing it restores the list |
| ThreadEntries.RemoveFirstKeepsSorted | lib/messageHandler.js:33-38 | removing the first match from a sorted list leaves it sorted |
| ThreadEntries.RemoveFirstDistinct | lib/messageHandler.js:33-45 | with distinct ids, after one removal no entry carries the id, a second removal changes nothing, and the ids stay distinct |
| ThreadEntries.DuplicateSurvivesRemoval | lib/messageHandler.js:15-38 | adding the same id twice gives two entries: one removal deletes the first and the lookup then finds the second |
| ThreadEntries.SortByTimestamp | lib/messageHandler.js:49 | the sorted list is a permutation of the input and ascending by timestamp |
| ThreadEntries.InsertKeepsSorted | lib/messageHandler.js:49 | one insertion step keeps a sorted list sorted |
| ThreadEntries.SortKeepsTies | lib/messageHandler.js:49 | the sort is stable: for every timestamp, the entries with that timestamp keep their order |
| ThreadEntries.SortKeepsDistinctIds | lib/messageHandler.js:49 | sorting keeps the ids distinct |
| ThreadEntries.DueEntriesExactly | lib/messageHandler.js:51-53 | the filter keeps each entry with `now - timestamp > timeout` as often as it occurs, and no other entry |
| ThreadEntries.DueIsPrefixOfSorted | lib/messageHandler.js:47-55 | over a sorted list the due entries are a prefix of it, so they come out oldest first |
| ThreadEntries.NothingDueIff | lib/messageHandler.js:47-55 | nothing is due after the sort exactly when no pending entry is due |
| ThreadEntries.OldestDueFirst | lib/messageHandler.js:47-55 | the first due entry is a pending, due entry that no pending entry is older than, and the first-added among the oldest |
| Tracker.ThreadTracker.GetThreadsDueForProcessing | lib/messageHandler.js:47-56 | the pending list becomes its stable sort (a sorted permutation); the result is exactly the entries strictly older than the timeout, as a prefix of the sorted list; `trackedThreads` is untouched |
| MessageHandler.HandleMessageCreate | lib/messageHandler.js:63-80 | a bot author gives `bot_message` and changes nothing; otherwise a pending thread gives `timer_reset` with its id and its first entry's timestamp becomes `now`; otherwise `not_tracked` and nothing changes; `trackedThreads` never changes |
| MessageHandler.TimerResetDefersDue | lib/messageHandler.js:72-75 | after a reset at `now`, a scan at any instant `later` reports the reset entry exactly when `later - now > timeout`: it stays out of the due list for the whole timeout and comes due once it has passed |
| Formatter.FormatThreadMessages | lib/messageHandler.js:85-102 | the nested loop builds exactly the transcript: one line per message in order, `"<iso>; <id>; <tag>; <content> "`, then `"Attachment/s: "` and each `"<contentType>; <url>"` only when there is an attachment, then a newline; the empty collection gives `""` |
| Formatter.TranscriptAppend | lib/messageHandler.js:88-99 | the transcript of two batches is the concatenation of their transcripts: each message contributes its own line and nothing else |
| Formatter.LineIsOneLine | lib/messageHandler.js:89-98 | a message whose parts hold no newline renders as exactly one line |
| Formatter.OneLinePerMessage | lib/messageHandler.js:85-102 | for messages whose parts hold no newline, the transcript has exactly one newline per message |
| MessageHandler.ProcessRun | lib/messageHandler.js:108-168 | the collaborator calls are a prefix of the order thread fetch, message fetch (limit 100), generator; messages are fetched only for an allow-listed parent; the generator runs exactly when the messages arrived and are non-empty, on their transcript; success is the generator answering and reports thread id, parent name and answer; each error tag names the failing step; `no_messages` removes from tracked only, `processing_failed` changes nothing, every other outcome removes from pending |
| MessageHandler.ProcessThread | lib/messageHandler.js:108-168 | the result and the calls are those of `ProcessRun`, and the registry's two lists are changed by exactly its effect |
| MessageHandler.CheckForTimeout | lib/messageHandler.js:174-184 | nothing due: returns none and the pending list is left sorted; otherwise the first (oldest) due entry is removed from pending, then exactly one thread is processed, and the result, calls and registry follow `ProcessRun` for it |
| MessageHandler.DrainRemovesOneEntry | lib/messageHandler.js:174-184 | with distinct pending ids, a tick that drains a thread leaves the pending list one shorter, without that thread, and still sorted in every outcome; a thread found empty is then in neither list |

## Left out

- The chat client and its wiring (`app.js`): client construction, event subscription, the
  one-second `setInterval` tick and the login. They are transport and timer plumbing.
- The generator (`langchain/router.js`, `langchain/agent.js`) and the configuration
  file (`config.js`): foreign library calls and file reading. The generator is the
  parameter `generate`, and `allowedChannels` is a given map whose values are the allow-list.
- `Date.now()`: an explicit `now` or `timestamp` parameter. `toISOString()`: the parameter
  `iso`; its format is not modelled.
- Default arguments: `addThread` and `updateThreadTimestamp` default their timestamp to
  the clock, and the timeout defaults to five minutes. Callers of the model pass these
  values explicitly.
- `async`/`await`, promise rejection and logging (`console.log`, `console.error`): an
  awaited call is an `Outcome<T>`, a caught rejection is `Rejected`, and logging is
  dropped.
- Concurrency: ticks interleaving with message events. The model is single-threaded.
- A fetched channel without a parent: `thread.parent.name` (lib/messageHandler.js:156, 165)
  throws outside every `try`. Every thread channel in the model has a parent name.
- FormatThreadMessages: does not model the `RangeError` that `new Date(...).toISOString()`
  (lib/messageHandler.js:89) throws for an out-of-range creation instant, because the
  rendering is the total parameter `iso`. In the source that error is raised from
  `processThread` at line 146, outside every `try`, so the whole call rejects;
  `ProcessRun` and `ProcessThread` do not have that outcome.
- An attachment whose content type is missing: the template renders the text `null` for it.
  Every attachment in the model has a content type string, so that rendering is not modelled.
- Number semantics: timestamps and timeouts are unbounded integers; the millisecond
  values the source handles are exact in its floating-point numbers, and a non-numeric
  timestamp is not modelled.
- The collections of messages and attachments are `Map`s in the source; the model takes
  them as sequences in the order `values()` yields them.
