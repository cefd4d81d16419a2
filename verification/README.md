# Enkeep channels: a verified model

Dafny model of the event replication of `packages/channel-jarvis` and of four stateful stream
processors of `packages/channel-lark`. `dafny verify dfyconfig.toml` checks the whole project.

Operations that update state in place are classes or methods whose contracts equate the new state
with a specification function of the old one; what the system promises is proved about those
functions, for every input, every run and every interleaving. Loops of the source are loops here,
with the invariants that carry their contracts.

| files | what they model |
|---|---|
| `Numbers`, `Options`, `Utf8`, `Decimal`, `Mapper`, `MapperLaws`, `MapperBlocks` | text truncation by UTF-8 size (section 3 of RFC 3629), item ids, the light and full mapping of events to items |
| `EventLog`, `Pages`, `PagingTail`, `PagingBack`, `PagingForward`, `PagingRange` | bounded log reads, backward pages, forward pages and ranges, and what repeated pages add up to |
| `WatchProtocol`, `WatchState`, `WatchSafety`, `WatchRuns`, `WatchEvents`, `WatchDrops`, `WatchFirstDrain`, `WatchTheorems`, `WatchCatchUp` | the watch: queue, sorting, deduplication, gap repair, catch-up, over growing and replaced logs |
| `Cards`, `CardRuns`, `CardLaws` | approval and question cards as concurrent ask loops |
| `Sends`, `RpcPeer` | send deduplication; the pending calls of the RPC peer |
| `StreamTracker`, `StreamRuns`, `StreamText`, `StreamTimeline`, `StreamWindow` | the polled fold of stream events, its text and its tool timeline |
| `CotPump`, `CotRuns`, `CotTheorems`, `CotReading`, `CotLateEntry` | the single-flight pump of the thinking bubble |
| `MarkdownFences`, `MarkdownSplit`, `MarkdownCuts`, `MarkdownBound` | fenced blocks and the chunking of long markdown |
| `RangedDownload` | download in byte ranges with retries, a deadline and a size limit |

The environment is explicit. A log is a sequence of events numbered from 0 that only grows; replacing
it gives it another history name. `readEvents` is any function that answers as `Answers` says
(`EventLog`), and may fail. Timers, responses, aborts and failures are steps that may come in any
order; file and API calls succeed or fail as a parameter says.

## Where the code differs from what one might expect

Each point is proved, with the exact condition.

- A watch without a history cannot tell histories apart, and takes its position to be one of whatever log
  comes. Its next push carries the queued events up to the next gap exactly when they share one history and
  none lies below the position (`FirstDrainNeedsOneHistory`). All its pushes are right, and no event is
  lost, when behind every gap that is skipped the queue moreover keeps to one history, or turns away from
  the one last pushed, or comes back to it only behind another gap (`FirstDrainIsRight`, which is exact).
  Otherwise a push can name a log that does not hold its events (`MixedFirstQueueIsWrong`, behind a gap
  `MixedBehindGapIsWrong`, after a right push `MixedBehindFirstPushIsWrong`), or an event is dropped that no
  push carries (`MixedFirstQueueLoses`). The theorems about runs therefore let only events of one log be
  queued until the watch has a history.
- An announced event can vanish without the node being told. In a drain that happens exactly when nothing
  has been pushed yet, the event lies below the position the watch started from, and it comes first among
  the queued histories (`DroppedUnseen`). A log that was replaced by a shorter one, together with a failed
  first read, leads there (`AnnouncedButNeverShown`). Once something has been pushed no event is lost
  (`NothingStranded`).
- The mark that a repair was tried outlives its gap, so a later gap can be skipped without a read
  (`GapIsReadOrShown`, `LaterGapIsNotRead`). The node sees the jump in `from_seq`.
- An update that arrives while the closing events of a thinking bubble are on their way is sent behind
  RUN_FINISHED, exactly when it has something to show beyond what was sent (`EntriesAfterTheFinish`);
  `ThoughtAfterTheFinish` is such a run. A finish request during the create call is lost
  (`FinalizeTakesEffect`, and `LostFinish` for the call itself).
- The comment of `chunkMarkdown` says chunks do not exceed `maxLen`. A chunk does exactly when its cut
  closes a block, one that opens within the first three tenths of the limit, behind text that without its
  trailing white space is less than four characters below the limit (`ChunkExceedsLimit`, for a whole text
  `LongChunks`); it can be four characters longer (`LongestChunk`).
- A backward page can be empty and still announce older items, so that a reader cannot go on from it: only
  when a work cap or a replaced log ended the scan before any item was found (`ReadTail`).
- The loop of `chunkMarkdown` ends for all texts in which no word right behind three ticks is longer than
  `n` exactly when `10 * (n + 3) < 3 * maxLen` (`CuttingEnds`); other words may be of any length. Beyond
  that some text is cut for ever. What the chunks hold is stated for every text for which the loop ends.

## Model

| member | source | states |
|---|---|---|
| Utf8.CutUtf8 | packages/channel-jarvis/src/mapper.ts:197-203 | the byte scan back to a character boundary keeps exactly the longest run of whole characters that fits |
| Utf8.DecodeEncode | packages/channel-jarvis/src/mapper.ts:193-203 | decoding the UTF-8 encoding of any characters gives them back |
| Utf8.CharsOfUnits | packages/channel-jarvis/src/mapper.ts:193-203 | characters survive being written as UTF-16 units |
| Utf8.UnitsBoundBytes | packages/channel-jarvis/src/mapper.ts:210-211 | a text has at most three UTF-8 bytes a UTF-16 unit, so the length shortcut never changes the result |
| Utf8.FitIsLongest | packages/channel-jarvis/src/mapper.ts:197-203 | the prefix kept fits the budget, the next character would not, and at most three bytes are wasted |
| Utf8.BoundaryByte | packages/channel-jarvis/src/mapper.ts:197-203 | a byte at a character boundary is not a continuation byte |
| Utf8.InsideByte | packages/channel-jarvis/src/mapper.ts:197-203 | a byte inside a character is a continuation byte |
| Mapper.TruncationIsLongestPrefix | packages/channel-jarvis/src/mapper.ts:205-216 | a text within its budget is unchanged; a longer one keeps its longest whole-character prefix and tells its full size |
| Mapper.LightenValue | packages/channel-jarvis/src/mapper.ts:218-236 | strings at any depth of a value are cut, and the mark is set exactly when one was too long |
| Mapper.LightenToolInput | packages/channel-jarvis/src/mapper.ts:238-243 | a tool input carries its full size exactly when a string in it was cut, and is otherwise unchanged |
| Mapper.LightValueKeepsShort | packages/channel-jarvis/src/mapper.ts:218-236 | a value without long strings is unchanged |
| Mapper.Build | packages/channel-jarvis/src/mapper.ts:484-577 | building the items step by step gives the rendering of the event's drafts, numbered in order |
| Mapper.ItemBuilder.AddUserMessage | packages/channel-jarvis/src/mapper.ts:491-511 | the blocks of a user message become text, picture and file items in order |
| Mapper.ItemBuilder.AddAssistantMessage | packages/channel-jarvis/src/mapper.ts:512-529 | the blocks of an assistant message become text, thinking and tool items in order |
| Mapper.ItemBuilder.AddToolOutput | packages/channel-jarvis/src/mapper.ts:530-553 | a tool result becomes its output item and its pictures |
| Mapper.ItemBuilder.AddListed | packages/channel-jarvis/src/mapper.ts:446-457 | listed attachments become pictures, and one text naming the other files |
| MapperBlocks.UserItemsAre | packages/channel-jarvis/src/mapper.ts:446-511 | a message of the person becomes its non-blank texts and pictures in order, its first text without the listing, then the listed images and one text naming the other files; attachment guidance only the latter, a hidden message nothing |
| MapperBlocks.AssistantItemsAre | packages/channel-jarvis/src/mapper.ts:512-529 | the items of an assistant message are its visible blocks, one each, in order and in full |
| MapperBlocks.ResultItemsAre | packages/channel-jarvis/src/mapper.ts:530-553 | a tool result is one output item with its texts line by line, or the reason of a failure that says nothing, and then its pictures |
| MapperBlocks.NoticesAre | packages/channel-jarvis/src/mapper.ts:554-573 | an interrupted, cut-off or failed turn and a successful compaction are noticed by one text each; other ends and events show nothing |
| MapperLaws.ItemSeqOfId | packages/channel-jarvis/src/mapper.ts:143-148 | reading the seq off an item id inverts making the id, for positive safe integers and no others |
| MapperLaws.ItemIdInjective | packages/channel-jarvis/src/mapper.ts:405-409 | two ids are equal only for the same seq and position |
| MapperLaws.ItemShape | packages/channel-jarvis/src/mapper.ts:405-409 | every item carries its event's seq, its position in its id, and the event's person mark |
| MapperLaws.LightAlignsWithFull | packages/channel-jarvis/src/mapper.ts:580-595 | light and full mapping agree in number, order, ids, kinds and roles; light texts are the truncated full ones; full sizes are set exactly on a cut |
| MapperLaws.LightIsCut | packages/channel-jarvis/src/mapper.ts:218-236 | the light form of a value is the value with every string at any depth cut, and nothing else changed |
| MapperLaws.LongStringIsFound | packages/channel-jarvis/src/mapper.ts:218-243 | a value counts as cut exactly when a string at some depth is longer than 24 KB |
| MapperLaws.FullItemOfListed | packages/channel-jarvis/src/mapper.ts:592-595 | the full lookup of a listed id finds the same item, untruncated |
| MapperLaws.FullItemOfUnlisted | packages/channel-jarvis/src/mapper.ts:592-595 | the full lookup of an id that is not listed finds nothing |
| MapperLaws.MapEventsOrdered | packages/channel-jarvis/src/mapper.ts:585-590 | items of a log come in seq order within the numbers of its events |
| MapperLaws.IdsAreUnique | packages/channel-jarvis/src/mapper.ts:405-409 | no id is used twice in a log |
| Pages.FindEventStart | packages/channel-jarvis/src/paging.ts:125-129 | the first item of the event an item belongs to |
| Pages.EventStartOfSuffix | packages/channel-jarvis/src/paging.ts:125-129 | older items of other events do not change where an event starts |
| Pages.FindTurnStarts | packages/channel-jarvis/src/paging.ts:132-138 | the turn starts found, in order |
| Pages.TurnStartsAre | packages/channel-jarvis/src/paging.ts:132-138 | they are exactly the person's items behind one that is not the person's; the very first item counts only when nothing older exists |
| Pages.LastTurnsAre | packages/channel-jarvis/src/paging.ts:185-189 | from where the last turns begin there are exactly as many turn starts as asked for, or all items when there are fewer |
| Pages.LastTurnsHold | packages/channel-jarvis/src/paging.ts:185-189 | the last turns begin with the person's item behind another's and hold exactly the asked number of runs of the person's items, or are all items |
| Pages.StartsOfSuffix | packages/channel-jarvis/src/paging.ts:132-138 | reading only newer items finds the same turn starts, their first item aside |
| Pages.SkipEvent | packages/channel-jarvis/src/paging.ts:145-149 | the next event boundary, or the start of the newest event |
| Pages.FitBytes | packages/channel-jarvis/src/paging.ts:141-153 | the first event boundary from which the page fits its bytes or is just the newest event |
| Pages.BoundaryIsBetweenEvents | packages/channel-jarvis/src/paging.ts:15-16 | an event boundary among items is a position between events |
| PagingTail.ScanBack | packages/channel-jarvis/src/paging.ts:160-183 | the chunked backward scan collects exactly the items of the newest events read, knows whether older ones exist, and stopped because the log began, enough was read, a cap was hit, or the next read found another log |
| PagingTail.PageStart | packages/channel-jarvis/src/paging.ts:185-191 | a page starts at the wanted turn, or at the event that reaches the item limit |
| PagingTail.WantedTurns | packages/channel-jarvis/src/paging.ts:181-189 | turns counted on the collected items are the turns counted on the whole log |
| PagingTail.WantedItems | packages/channel-jarvis/src/paging.ts:181-191 | the newest items counted on the collected items are those of the whole log |
| PagingTail.AskedIsWanted | packages/channel-jarvis/src/paging.ts:155-191 | what a query asks for, said with its fields and the person marks alone, is nothing but the wanted items |
| PagingTail.WantedIsAsked | packages/channel-jarvis/src/paging.ts:155-191 | the wanted items are what the query asks for |
| PagingTail.ReadTail | packages/channel-jarvis/src/paging.ts:155-202 | a page is whole newest events below its position, within its limits, from the first event on from which the collected items fit; when the scan stopped because the log began or enough was read, and a page can hold what the query asks for (the last so many turns, each beginning with the person's items, or the fewest whole events with so many items), it is exactly that, whatever the chunk size and however the log grows between reads; it is empty only when nothing was collected |
| PagingBack.BackwardEnumeration | packages/channel-jarvis/src/paging.ts:15-16 | pages chained by `before_seq` join up to a suffix of the log's items, each once and in order, and each reaches at least one event further back; to all of them when the last says nothing is older |
| PagingForward.AppendWhole | packages/channel-jarvis/src/paging.ts:255-276 | the items of as many whole events as fit are appended, at least one to an empty page |
| PagingForward.OverflowMeans | packages/channel-jarvis/src/paging.ts:259-276 | an event is left for the next page exactly when the page would get too long or too large with it |
| PagingForward.ReadAfter | packages/channel-jarvis/src/paging.ts:204-253 | a forward page is exactly the next whole events, bounded unless one event is larger; it stops early only when the next event does not fit, at the scan cap, or when the next read finds another log; without `more_after` it reaches the log's end |
| PagingRange.ReadRange | packages/channel-jarvis/src/paging.ts:278-327 | a range page is exactly the whole events of the range, with the same bounds and reasons to stop |
| PagingRange.RangeIsRestriction | packages/channel-jarvis/src/paging.ts:278-327 | it holds exactly the items of the whole log with seqs in the range, up to where it stopped |
| PagingRange.ForwardEnumeration | packages/channel-jarvis/src/paging.ts:15-16 | repeated forward pages strictly advance and add up to exactly the items of the log after the first position |
| WatchState.SortRuns | packages/channel-jarvis/src/runtime.ts:170-178 | events are sorted within each run of one history, runs keeping their order |
| WatchSafety.SortWithinSorts | packages/channel-jarvis/src/runtime.ts:170-178 | seqs ascend within each run of one history |
| WatchSafety.SortWithinKeeps | packages/channel-jarvis/src/runtime.ts:170-178 | sorting loses and adds no event |
| WatchSafety.SortKeepsPlaces | packages/channel-jarvis/src/runtime.ts:170-178 | events move only within the runs of one history |
| WatchState.WatchState.constructor | packages/channel-jarvis/src/runtime.ts:582-599 | a watch starts at `since_seq` with a catch-up due, or anywhere without one |
| WatchState.WatchState.PushBatch | packages/channel-jarvis/src/runtime.ts:723-739 | a push runs from the position, or from its first event, to behind its last, and moves position and history |
| WatchState.WatchState.TakeEvent | packages/channel-jarvis/src/runtime.ts:670-694 | one queued event: a new history, an old event, a gap to read or to skip, or the next event |
| WatchState.WatchState.DrainQueue | packages/channel-jarvis/src/runtime.ts:662-697 | one drain of the sorted queue |
| WatchState.WatchState.Pump | packages/channel-jarvis/src/runtime.ts:632-649 | one pump at a time; a second one only marks the first |
| WatchState.WatchState.OnSessionEvent | packages/channel-jarvis/src/runtime.ts:619-629 | an event is queued and the coalesce timer armed |
| WatchState.WatchState.OnPage | packages/channel-jarvis/src/runtime.ts:699-721 | a catch-up page is pushed, or ends the catch-up, with an empty push when the log is shorter or replaced |
| WatchState.WatchState.OnReadFailed | packages/channel-jarvis/src/runtime.ts:652-661 | a failed read ends the catch-up |
| WatchState.WatchState.OnCaughtUp | packages/channel-jarvis/src/runtime.ts:652-664 | after a catch-up the repair counts as tried and the queue is drained |
| WatchState.WatchState.OnDrained | packages/channel-jarvis/src/runtime.ts:639-648 | the pump goes round again when marked or when a catch-up is due |
| WatchState.WatchState.Close | packages/channel-jarvis/src/runtime.ts:610-617 | a closed watch drops its queue and timers |
| WatchSafety.DrainLoopExact | packages/channel-jarvis/src/runtime.ts:664-696 | every push of a drain carries exactly the log slice it names |
| WatchSafety.DrainLoopChain | packages/channel-jarvis/src/runtime.ts:664-696 | its pushes continue one another, except where a repair had been tried |
| WatchSafety.DrainLoopCovers | packages/channel-jarvis/src/runtime.ts:664-696 | every event of the queue ends up pushed, at or below the position, or still queued behind a gap to read |
| WatchRuns.StepKeeps | packages/channel-jarvis/src/runtime.ts:574-739 | every step in every interleaving keeps all pushes exact, linked and complete |
| WatchTheorems.NodeHoldsASlice | packages/channel-jarvis/src/runtime.ts:574-739 | page-then-watch: a node that appends or restarts by `from_seq` always holds exactly the items of one slice of the log it names |
| WatchCatchUp.WatchStartsWithARead | packages/channel-jarvis/src/runtime.ts:582-599 | a watch from a position pushes nothing before its first read has come back, and that read is due or under way |
| WatchCatchUp.DueReadIsIssued | packages/channel-jarvis/src/runtime.ts:632-661 | a catch-up that is due stays due until its read is issued, from where the node stands |
| WatchCatchUp.CatchUpReadsOn | packages/channel-jarvis/src/runtime.ts:699-721 | every page is followed by the next read, from where it ended, until the log ended when the last read was issued |
| WatchCatchUp.CaughtUpNodeHoldsTheEnd | packages/channel-jarvis/src/runtime.ts:699-721 | page-then-watch: after a catch-up without failure the node holds a slice that reaches at least to where the log ended when the last read was issued |
| WatchCatchUp.UpToDateIsQuiet | packages/channel-jarvis/src/runtime.ts:709-718 | a node that stands at the end of the log is told nothing |
| WatchCatchUp.GapAfterADrainIsRead | packages/channel-jarvis/src/runtime.ts:679-696 | once a drain took its whole queue, the next gap is read for again |
| WatchCatchUp.UnwatchedSaysNothing | packages/channel-jarvis/src/runtime.ts:602-617 | after an unwatch nothing is queued or pushed any more |
| WatchTheorems.PushesContinue | packages/channel-jarvis/src/runtime.ts:651-739 | consecutive pushes of one history join, skip ahead only when a repair was tried, and never go back |
| WatchTheorems.NothingStranded | packages/channel-jarvis/src/runtime.ts:619-721 | from any moment on at which something was pushed (from the start, without a position), every event queued, announced later or behind a push of its history stays behind one or is queued with a drain on its way, as long as the watch is open |
| WatchEvents.StepKeepsEvent | packages/channel-jarvis/src/runtime.ts:574-739 | no step of any kind loses an event that is behind a push or queued, once something was pushed |
| WatchDrops.DroppedUnseen | packages/channel-jarvis/src/runtime.ts:664-696 | a drain drops an event that no push carries or carried exactly when nothing was pushed before, it lies below the start position, and no copy waits behind another history |
| WatchDrops.AnnouncedButNeverShown | packages/channel-jarvis/src/runtime.ts:651-696 | a run with a replaced log and a failed first read: an announced event is dropped, and the open watch rests without having pushed anything |
| WatchTheorems.PumpEnds | packages/channel-jarvis/src/runtime.ts:632-721 | a run of the pump's own steps is no longer than what was left to do, asks for a repair at most once, and ends with an empty queue |
| WatchFirstDrain.FirstDrainNeedsOneHistory | packages/channel-jarvis/src/runtime.ts:670-694 | without a history, the next push carries the queued events up to the next gap (behind the gap it skips, when a repair was tried) exactly when they share one history and none lies below the position |
| WatchFirstDrain.FirstDrainIsRight | packages/channel-jarvis/src/runtime.ts:664-696 | without a history, each event of a drain is carried by the push that goes out next exactly when the queue is clear, a scan of its histories, gaps and the position; then every push is a slice of the log it names and no event is lost |
| WatchFirstDrain.MixedFirstQueueIsWrong | packages/channel-jarvis/src/runtime.ts:670-675 | two histories in the first queue: a push that is not a slice of the log it names |
| WatchFirstDrain.MixedFirstQueueLoses | packages/channel-jarvis/src/runtime.ts:676-678 | two histories in the first queue: an event is dropped that no push carries |
| WatchFirstDrain.MixedBehindGapIsWrong | packages/channel-jarvis/src/runtime.ts:672-694 | after a failed first read a gap is skipped and two histories go out as one log |
| WatchFirstDrain.MixedBehindFirstPushIsWrong | packages/channel-jarvis/src/runtime.ts:672-694 | the first push is right, and the one behind a skipped gap mixes two histories |
| WatchTheorems.GapIsReadOrShown | packages/channel-jarvis/src/runtime.ts:679-690 | with or without a history, a gap is read for exactly when no repair was tried, and is otherwise shown in `from_seq` |
| WatchTheorems.LaterGapIsNotRead | packages/channel-jarvis/src/runtime.ts:659-696 | a later gap is skipped without a read of its own after a catch-up that found nothing |
| CardDesk.CardDesk.AddCard | packages/channel-jarvis/src/runtime.ts:777-790 | a new card is stored and asked at once when the phone can be reached |
| CardDesk.CardDesk.SettleCard | packages/channel-jarvis/src/runtime.ts:792-801 | a settled card leaves the table; an asking one is aborted and cancelled |
| CardDesk.CardDesk.AskWaitingCards | packages/channel-jarvis/src/runtime.ts:803-808 | waiting and failed cards are asked in the order they were added |
| CardDesk.CardDesk.Ask | packages/channel-jarvis/src/runtime.ts:854-862 | a card not asking starts an ask loop with its own controller |
| CardDesk.CardDesk.Head | packages/channel-jarvis/src/runtime.ts:862-875 | the loop stops when the card is gone, fails when it has expired, or sends one create |
| CardDesk.CardDesk.Continue | packages/channel-jarvis/src/runtime.ts:869-896 | after a call: nothing for a card gone, a retry within two minutes for a node gone, a failure, or the resolution |
| CardDesk.CardDesk.Resolve | packages/channel-jarvis/src/runtime.ts:899-917 | a dismissal, a malformed resolution, or one answer to the source with what the reply says |
| CardDesk.CardDesk.Replied | packages/channel-jarvis/src/runtime.ts:917-924 | an accepted answer removes the card if it is still in the table; a refused one fails it |
| CardDesk.CardDesk.OnHello | packages/channel-jarvis/src/runtime.ts:320-330 | hello makes the runtime ready and asks the waiting cards |
| CardDesk.CardDesk.OnHub | packages/channel-jarvis/src/runtime.ts:375-383 | a hub that comes back gets the waiting cards |
| CardDesk.CardDesk.Stop | packages/channel-jarvis/src/runtime.ts:332-348 | stopping aborts every open card's loop and empties the table |
| CardRuns.StepKeeps | packages/channel-jarvis/src/runtime.ts:777-925 | every step in every interleaving keeps the links between cards, table, loops and what was sent |
| CardRuns.AskingHasOneLoop | packages/channel-jarvis/src/runtime.ts:854-898 | a card in the table is asking exactly when one ask loop waits for it |
| CardRuns.OneOutstandingCall | packages/channel-jarvis/src/runtime.ts:862-880 | at most one create is outstanding for a card key, and its card is open |
| CardRuns.NothingAfterTheLastWord | packages/channel-jarvis/src/runtime.ts:792-925 | after a cancel, or once an answer was taken, nothing more is sent about that card |
| CardRuns.OnlyOpenCardsSpeak | packages/channel-jarvis/src/runtime.ts:777-925 | creates and answers go out only for cards in the table at that moment, cancels and taken answers only for cards that left it |
| CardLaws.ReplyReachesTheSource | packages/channel-jarvis/src/runtime.ts:894-917 | the phone's reply to an open card is given to the source, once and as it is; a dismissal leaves the card dismissed, a malformed reply failed, both without an answer |
| CardLaws.LateReplyIsDropped | packages/channel-jarvis/src/runtime.ts:876-896 | a response for a card that left the table changes nothing |
| CardLaws.ResponseIsHeard | packages/channel-jarvis/src/runtime.ts:869-876 | a loop goes on with what its call was settled with |
| CardLaws.SourceDecides | packages/channel-jarvis/src/runtime.ts:919-924 | an accepted answer ends the card, a refused one leaves it to be asked again |
| CardLaws.RetriesForTwoMinutes | packages/channel-jarvis/src/runtime.ts:876-891 | a node gone is asked again for exactly two minutes from when it was first found gone; any other refusal fails the card |
| CardLaws.WakesToAsk | packages/channel-jarvis/src/runtime.ts:862-875 | a loop whose pause is over asks again, unless its card left the table or its time is up |
| CardLaws.HelloAsksAll | packages/channel-jarvis/src/runtime.ts:320-330 | hello asks every waiting and failed card, once each, in the order they were added, and nobody else |
| CardLaws.HubAsksAll | packages/channel-jarvis/src/runtime.ts:375-383 | so does a hub that comes back, and only that |
| CardLaws.NewCardIsAsked | packages/channel-jarvis/src/runtime.ts:777-790 | a new card is in the table, and asked at once exactly when the phone can be reached |
| CardLaws.SettledElsewhere | packages/channel-jarvis/src/runtime.ts:792-801 | a card settled elsewhere leaves the table; the phone is told, and its call given up, exactly when it was being asked |
| CardLaws.StopEndsAll | packages/channel-jarvis/src/runtime.ts:333-348 | stopping leaves no card and no call under way |
| CardLaws.StoppedSaysNothing | packages/channel-jarvis/src/runtime.ts:333-348 | after that nothing is sent any more |
| Sends.SendTable.Send | packages/channel-jarvis/src/runtime.ts:483-497 | a remembered id gets its earlier delivery; a new one is delivered and remembered, the oldest forgotten beyond 500 |
| Sends.SendTable.Settle | packages/channel-jarvis/src/runtime.ts:488-490 | a failed delivery forgets its own entry |
| Sends.SecondDelivery | packages/channel-jarvis/src/runtime.ts:476-498 | an id is delivered again only after its delivery failed or 500 newer distinct ids were accepted |
| Sends.TableStaysSmall | packages/channel-jarvis/src/runtime.ts:491-494 | the table never holds more than 500 entries, one an id |
| Sends.LateFailure | packages/channel-jarvis/src/runtime.ts:488-490 | a late failure removes exactly its own delivery's entry, never a newer retry |
| Sends.FreshIdIsDelivered | packages/channel-jarvis/src/runtime.ts:483-490 | an id never sent, or whose deliveries all failed, is delivered, and sending it again waits for that delivery |
| RpcPeer.Peer.Call | packages/channel-jarvis/src/rpc.ts:117-158 | a call is refused, fails at once when it cannot be written, or is pending under a fresh id |
| RpcPeer.Peer.Receive | packages/channel-jarvis/src/rpc.ts:195-244 | a response settles the pending call of its id; anything else is ignored |
| RpcPeer.Peer.OnTimeout | packages/channel-jarvis/src/rpc.ts:143-149 | a timer that runs out settles its call |
| RpcPeer.Peer.OnAbort | packages/channel-jarvis/src/rpc.ts:127-133 | an aborted signal settles its call |
| RpcPeer.Peer.Close | packages/channel-jarvis/src/rpc.ts:167-176 | closing rejects every pending call |
| RpcPeer.PendingIsUnsettled | packages/channel-jarvis/src/rpc.ts:117-176 | calls settle at most once; the table holds exactly the unsettled ones; settled ones keep no timer or listener |
| RpcPeer.IdsNeverRepeat | packages/channel-jarvis/src/rpc.ts:122 | no two calls share an id |
| RpcPeer.ResponseReachesItsCall | packages/channel-jarvis/src/rpc.ts:231-244 | a response settles its own call and no other; late and unknown ones change nothing |
| RpcPeer.VerdictIsFinal | packages/channel-jarvis/src/rpc.ts:117-244 | no later step settles a settled call again |
| RpcPeer.ClosedSettlesAll | packages/channel-jarvis/src/rpc.ts:167-176 | after close every call is settled once and nothing is pending |
| RpcPeer.NewCallIs | packages/channel-jarvis/src/rpc.ts:117-158 | a new call is refused as closed or aborted, fails as closed when it cannot be written, or waits under the next number with the timer and listener it asked for |
| RpcPeer.WaitingKeepsItsTimer | packages/channel-jarvis/src/rpc.ts:125-152 | nothing takes the timer or the listener of a waiting call away |
| RpcPeer.EndsAsItShould | packages/channel-jarvis/src/rpc.ts:127-176 | a waiting call is settled by its timer as timed out, by its signal as aborted, by the end as closed |
| StreamTracker.StreamingReplyTracker.ProcessEvents | packages/channel-lark/src/streaming-tracker.ts:559-757 | one batch is consumed up to the terminal event and not past another turn's running event |
| StreamTracker.StreamingReplyTracker.OnEvent | packages/channel-lark/src/streaming-tracker.ts:590-755 | what one event does to cursor, text, thinking, timeline and end |
| StreamTracker.StreamingReplyTracker.OnToolStatus | packages/channel-lark/src/streaming-tracker.ts:634-728 | a tool report opens an entry, closes the latest running one, or adds a closed one |
| StreamTracker.StreamingReplyTracker.FindLastRunning | packages/channel-lark/src/streaming-tracker.ts:698-702 | the last running entry of a tool |
| StreamTracker.StreamingReplyTracker.OnTurnEnded | packages/channel-lark/src/streaming-tracker.ts:729-753 | the end closes every running entry |
| StreamTracker.StreamingReplyTracker.OnAssistantDelta | packages/channel-lark/src/streaming-tracker.ts:612-628 | text is appended, with a paragraph break between streams |
| StreamRuns.ScheduleIndependence | packages/channel-lark/src/streaming-tracker.ts:816-831 | however rows arrive and are polled for, the tracker ends as after one pass over all rows |
| StreamRuns.QuietMeansDone | packages/channel-lark/src/streaming-tracker.ts:816-831 | when a poll of the whole table changes nothing, everything one pass takes has been taken |
| StreamRuns.PollsTake | packages/channel-lark/src/streaming-tracker.ts:816-831 | any polls have taken some first rows, each once and in order |
| StreamRuns.ForeignAbsorbs | packages/channel-lark/src/streaming-tracker.ts:575-589 | another turn's running event ends the window for good |
| StreamWindow.WindowIs | packages/channel-lark/src/streaming-tracker.ts:574-589 | the rows of a turn go up to the first end of a turn and stop only in front of an event that opens another one; the turn is over exactly at an end, and reported as that end says |
| StreamText.TextIsOfTheRows | packages/channel-lark/src/streaming-tracker.ts:610-633 | text and thinking are exactly the deltas of the rows taken, in order; the text has a paragraph break in front of a delta exactly where a named stream follows the end of another, and is the joined deltas without them |
| StreamTimeline.TimelineFromStart | packages/channel-lark/src/streaming-tracker.ts:634-751 | each counter is the number of running entries of its tool until the end; then none runs; questions are never listed |
| StreamTimeline.CompletionClosesTheLatest | packages/channel-lark/src/streaming-tracker.ts:696-727 | a completion closes the most recent running entry of its tool, or adds a closed one; the entry is done or broken as reported, and says what the report adds |
| StreamTimeline.StartOpensARun | packages/channel-lark/src/streaming-tracker.ts:634-695 | a start adds a running entry with what it reports; other reports and questions change nothing |
| StreamTimeline.EndClosesTheRest | packages/channel-lark/src/streaming-tracker.ts:729-751 | the end closes what still runs, as done exactly when the turn completed, and leaves the rest |
| CotState.CotState.Loop | packages/channel-lark/src/cot.ts:297-335 | the pump's loop up to its next await |
| CotState.CotState.Collect | packages/channel-lark/src/cot.ts:308-314 | the events of the entries not sent yet |
| CotState.CotState.OnCreated | packages/channel-lark/src/cot.ts:235-263 | a created bubble gets its prologue; a failure disables the turn |
| CotState.CotState.OnAppended | packages/channel-lark/src/cot.ts:265-348 | the next slice of at most 50 events, or what follows the append |
| CotState.CotState.Fail | packages/channel-lark/src/cot.ts:336-342 | a failure disables the turn and completes a bubble asked to finish |
| CotState.CotState.HandleThinkingUpdate | packages/channel-lark/src/cot.ts:382-404 | an update replaces the pending snapshot and starts the pump, unless disabled or finished |
| CotState.CotState.FinalizeTurn | packages/channel-lark/src/cot.ts:411-431 | the first finish request of an existing bubble is recorded and pumped |
| CotState.CotState.AbortTurn | packages/channel-lark/src/cot.ts:436-451 | an abort finishes as interrupted |
| CotRuns.StepKeeps | packages/channel-lark/src/cot.ts:293-451 | in every interleaving what was requested is the beginning of one script |
| CotTheorems.OneScript | packages/channel-lark/src/cot.ts:293-348 | at most one bubble; prologue first, then every entry once and in index order, one finish; all of it when the pump rests |
| CotTheorems.FinishedOnce | packages/channel-lark/src/cot.ts:320-333 | RUN_FINISHED is requested at most once |
| CotTheorems.NothingStranded | packages/channel-lark/src/cot.ts:343-348 | a resting pump has taken every update and every finish request |
| CotTheorems.SettledIsFinal | packages/channel-lark/src/cot.ts:355-451 | once finished and with the pump at rest nothing happens again |
| CotTheorems.EverythingAcceptedIsSent | packages/channel-lark/src/cot.ts:293-348 | with snapshots that extend one another and no failure, no accepted entry is skipped |
| CotReading.ScriptReads | packages/channel-lark/src/cot.ts:129-177 | the events of a script read back as the entries with something to show, in order and in full, and as the finish |
| CotReading.BubbleReadsBack | packages/channel-lark/src/cot.ts:293-348 | so does a resting bubble: texts, ids, names, arguments, results and finish come back from its events alone |
| CotReading.LatestReadsBack | packages/channel-lark/src/cot.ts:293-348 | without failures it reads as the whole latest accepted snapshot |
| CotReading.OneRequestAtATime | packages/channel-lark/src/cot.ts:265-282 | at most one request is under way, and it carries at most 50 events |
| CotReading.FailureEndsTheBubble | packages/channel-lark/src/cot.ts:335-342 | a failed request ends the bubble; one asked to finish is completed once, at the failure or at the request |
| CotReading.AskedIsNoted | packages/channel-lark/src/cot.ts:355-451 | an update or a finish request is noted while the pump is busy, and opens a bubble when there is none |
| CotTheorems.FinishFollowsEverything | packages/channel-lark/src/cot.ts:320-333 | everything accepted until the finish goes out is in front of it |
| CotTheorems.EntriesAfterTheFinish | packages/channel-lark/src/cot.ts:342-346 | something is sent behind RUN_FINISHED exactly when an update that came while it was on its way shows something beyond the entries sent |
| CotLateEntry.ThoughtAfterTheFinish | packages/channel-lark/src/cot.ts:342-346 | a run whose second thought is sent behind RUN_FINISHED |
| CotTheorems.FinalizeTakesEffect | packages/channel-lark/src/cot.ts:411-431 | a finish request takes effect exactly for an existing bubble not asked before; never during the create call |
| MarkdownFences.FindCodeBlockRanges | packages/channel-lark/src/markdown-card.ts:100-132 | fences are paired in order; an unclosed block reaches the end of the text |
| MarkdownFences.FenceAt | packages/channel-lark/src/markdown-card.ts:102 | a fence line: three ticks at a line start, a word, and white space to a line end |
| MarkdownCuts.FenceIs | packages/channel-lark/src/markdown-card.ts:102 | there is a fence exactly where a line starts with ticks, a maximal word and white space up to a line's end, and it reaches to the last such end |
| MarkdownCuts.BlocksArePairs | packages/channel-lark/src/markdown-card.ts:100-132 | the blocks are the fences, each looked for behind the one before, in pairs |
| MarkdownFences.FindContainingBlock | packages/channel-lark/src/markdown-card.ts:137-142 | the first block a position lies strictly inside of |
| MarkdownFences.BlocksOk | packages/channel-lark/src/markdown-card.ts:100-132 | every block starts at a fence with its language tag |
| MarkdownSplit.CutOnce | packages/channel-lark/src/markdown-card.ts:158-187 | one round of the loop |
| MarkdownCuts.SplitPointIsBest | packages/channel-lark/src/markdown-card.ts:161-164 | the split point is the last blank line behind three tenths of the limit, else the last line end there, else the limit |
| MarkdownCuts.CutFalls | packages/channel-lark/src/markdown-card.ts:161-186 | a cut falls there, or in front of a block that opens behind three tenths of the limit, at the last line end if that lies far enough |
| MarkdownCuts.CutLeavesOut | packages/channel-lark/src/markdown-card.ts:168-186 | a cut leaves out exactly the white space at the end of the chunk and the line feeds in front of the rest, and puts in exactly a closing and a reopening fence |
| MarkdownBound.CutShrinks | packages/channel-lark/src/markdown-card.ts:158-187 | with short words right behind three ticks every round leaves less text |
| MarkdownSplit.CutHolds | packages/channel-lark/src/markdown-card.ts:158-187 | a round moves the text up to the cut into its chunk, white space and inserted fences aside, whenever the fence in front is within the limit |
| MarkdownSplit.ChunkMarkdown | packages/channel-lark/src/markdown-card.ts:150-194 | whenever the loop ends: the chunks are those of its rounds, at most `maxLen + 4` long, longer than `maxLen` exactly when a round closes a block too close to the limit, and hold the text, white space and the inserted close and reopen fences aside |
| MarkdownBound.CuttingEnds | packages/channel-lark/src/markdown-card.ts:157-188 | all texts with words of at most `n` right behind three ticks are split in finitely many rounds exactly when `10 * (n + 3) < 3 * maxLen` |
| MarkdownBound.LongTagsNeedNotEnd | packages/channel-lark/src/markdown-card.ts:157-188 | beyond the bound some text is cut for ever |
| MarkdownSplit.LongTagNeverEnds | packages/channel-lark/src/markdown-card.ts:157-188 | every text that starts with a fence whose tag does not fit the limit is cut for ever |
| MarkdownSplit.ChunkExceedsLimit | packages/channel-lark/src/markdown-card.ts:145-149 | a chunk exceeds the limit exactly when the split point lies in a block opened within three tenths of the limit and the text before it, trimmed, is less than four characters below the limit |
| MarkdownSplit.LongChunks | packages/channel-lark/src/markdown-card.ts:145-188 | some chunk of a text exceeds the limit exactly when some round meets that condition |
| MarkdownSplit.SeamIsClosedBlock | packages/channel-lark/src/markdown-card.ts:166-186 | a block is closed and reopened, with its own language, exactly when it holds the split point and opens too early to retreat to |
| MarkdownBound.LongestChunk | packages/channel-lark/src/markdown-card.ts:145-149 | for every limit above ten some chunk exceeds it by four |
| RangedDownload.Download | packages/channel-lark/src/transport.ts:2672-2815 | the file is always a prefix within the limit; a normal return leaves the whole resource; when no three requests in a row fail, no stream breaks and there is time, it succeeds exactly for resources within the limit; nothing is written of one announced as too large |
| RangedDownload.Request | packages/channel-lark/src/transport.ts:2706-2750 | up to three attempts before the deadline: all but a successful last one had no reply; a timeout needs a late clock, giving up needs three failed attempts or a late clock |
| RangedDownload.PipeStream | packages/channel-lark/src/transport.ts:2817-2890 | a streamed body is written up to the limit; a break leaves a first part of it |
| RangedDownload.WriteChunk | packages/channel-lark/src/transport.ts:2766-2795 | a buffered or streamed body is written when it fits |

## Left out

- User messages: their classification (shown, attachments only, hidden) comes with the event, and so does the choice of a message for an error.
- Attachment lines: their pattern is not modelled; a user message comes with its listed attachments, and image blocks with their descriptions. `imageSource` only repeats the lookup of an id.
- JSON values: objects keep their key order; numbers are plain integers and a `__proto__` key is an ordinary one. The size of a tool input is a parameter.
- Parsing of request parameters and dispatch between the three paging forms (`paging.ts:82-115`): they would only add easy members.
- The rough size of an item is an arbitrary function, so the paging results hold for any size estimate.
- Pushes: a push is kept with its events, and its items are their mapping.
- The in-place array sort: inside a run it is insertion by seq, which stands for the built-in stable sort.
- A watch's deltas, its `closed` checks for a stopped runtime, and errors thrown by sending are not modelled.
- Cards: content refreshes, interaction payloads, the choice of answers a reply of each kind stands for and session listings are left out; card objects are handles in creation order, so a key that comes back is a new card. The time left is a parameter, and the window for a node gone is its default of two minutes.
- RPC: frames, serving of incoming requests and events; a write succeeds or fails as a whole and never re-enters the peer. Rejections of one close have no order.
- Stream tracker: card pushes, status lines, waiting for a queued turn, wall-clock times of entries, and the choice among a tool report's description fields are left out; lower case is exact only for comparing with ASCII words.
- Thinking bubble: icons, titles and placement; updates are those with substance in chats where the bubble is enabled; the client is present throughout. `dispose` is left out. What happens between a response and the code behind its await is one step: updates and finish requests commute with it.
- Markdown: tables, images and other rewriting; `maxLen * 0.3` is exact, as its rounding never changes a comparison with an integer position.
- Download: HTTP details; the server answers a range with exactly the bytes that exist there, and a total it announces is right. A failed request and a stream that times out are failures without their messages.
- MarkdownSplit.ChunkMarkdown: says nothing of texts for which the loop of the source never ends; `CuttingEnds` gives the bound on language tags under which it always does.
- WatchTheorems.NodeHoldsASlice: assumes that only one log's events are queued until the watch has a history, because the code can be wrong otherwise; `WatchFirstDrain.FirstDrainIsRight` gives the exact condition for a drain.
- PagingTail.ReadTail: the exact page is stated when neither a cap nor a replaced log stopped the scan and the wanted items fit the page; otherwise a page is still a bounded block of whole newest events, from the first event on from which the collected items fit.
