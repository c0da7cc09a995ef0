# Verified model of the WhatsApp bridge

The bridge moves messages between WhatsApp and three tables: `wa_outbound`
(what the web inbox queued), `wa_chats` (the chat list) and `wa_messages` (the
threads). This project models what it does to them, and its self-contained
text and byte pieces, and proves what its design promises. WhatsApp, the
database's failures, other bridge processes and the clock are an environment
that may do anything within stated bounds.

`dafny verify dfyconfig.toml` checks everything.

## Parts

- **Tables.** `Base`, `Text`, `Tables`, `Database`: values, text helpers, the
  rows, and every SQL statement as a method on maps. A statement can commit
  and still report an error (`Fault`: `Done`, `Refused`, `Lost`).
- **New chats by phone number.** `NewChatSteps` is the protocol as a state
  machine: lookup, claim of a message ID, send, stamp, chat, message, pointer.
  Any number of processes interleave, crash and are replaced; a step that is not
  enabled changes nothing, so every sequence of events is a run and the theorems
  hold for all of them. `NewChatSafety` (identifiers), `NewChatTruth` (what the
  tables say is true), `NewChatPacing` (guard, deadlines, rate),
  `NewChatBackoff` (attempts), `NewChatProgress` (sends and acknowledgements) and
  `NewChatPasses` (what a pass over a row uses up) are about whole runs.
  `NewChatBridge` is the code as it is written, with `newChatState` as fields; it passes only through states of
  the machine (`world == Exec(EMPTY, trace)` is its invariant).
- **Existing chats.** `OutboundQueue` is the queue as a machine, `OutboundPosts` what
  a send adds to the threads and the chat list, `OutboundBridge` the code over
  both, `Attempts` what the two queues share about counting.
- **The inbox.** `Inbox` says what each event does to the tables; `Previews` has the
  chat-list labels; `ChatHistory` (what upserts leave), `InboxRuns` (unread count
  and tail over whole runs), `Reactions`, `ReactionEvents` (the same over the
  handlers' events), `MessageHistory` (edits, deletes, receipts) and `Addresses`
  (phone and LID forms) prove what that amounts to; `InboxBridge` is the code of
  the handlers, with its retries.
- **Schema fallback.** `Fallback`: statements over a database that lacks an unknown
  set of columns, while other goroutines switch features off.
- **Text and bytes.** `Quotes` (replies built and read back), `Coordinates` (positions
  printed and parsed), `Utf8` (clipping), `LogFile` (stamped, rotated log).

## Assumptions

Each is stated where it is used.

- Message IDs are fresh: an ID is named by the process that made it and a serial
  number there, and nobody else writes `wa_outbound.whatsapp_message_id`. WhatsApp
  answers a send with the ID it was asked to use.
- One clock serves the database and the bridge; it never goes back. A WhatsApp
  call returns within its 45 s deadline.
- One bridge works the existing-chat queue (`OutboundQueue`); the web inbox only
  adds rows to it.
- For the unread count: message IDs are distinct, and a stored message is newer
  than every message before it and every row a read receipt has named
  (`InboxRuns.Admissible`).
- Where `ORDER BY timestamp DESC, id DESC LIMIT 1` meets rows of the same
  second, the model allows any of them (`Ties`), so what is proved holds for
  MySQL's choice.
- Outside `Fallback` the schema is complete.

## Where the code does not do what it says

- `outboundMaxAttempts` is documented as about 520 s of retries. A row is failed at
  its fifth attempt, so the 300 s branch is for nobody: four waits, more than
  220 s (`FiveAttemptsTakeLong`, `QueueIsPaced`, `NobodyIsStuck`).
- A step breaks the backoff of a row exactly when a process records on a row that
  is no longer as it read it (`AttemptsAreApart`). That never happens while no
  bridge reads a row that another is at, so never while one bridge runs at a
  time, restarts included (`ExclusiveIsTimely`, `SoloIsExclusive`). Two at the
  same row can record attempts one second apart (`OverlapBreaksBackoff`), and of
  two that read the same count the second counts nothing up
  (`SecondCountsNothing`).
- `UpsertChat` overwrites `last_message_from_me` even when it leaves
  `last_message_at` alone, so a history conversation that inserts no message flips
  it; and the delete of a newest message in such a conversation leaves its old
  label (`EmptyHistoryKeepsTail`).
- A delete inside a history conversation can flag a message that is stored under
  another form of the chat, whose tail is not recomputed (`OtherTails`).
- A reaction event delivered again changes nothing if it was stored the first time
  and no other of its very time came since (`StoredRedelivery`). A removal that
  came before the reaction it is newer than stored nothing, and removes it when
  delivered again (`Redelivery` has the exact condition,
  `EarlyRemovalComesBack` the two events).
- A sent message of an existing chat is inserted before its chat row is written, so
  when the canonical chat has no row yet it is in the chat list and not in the
  thread (`SentIsInThread`). Videos and audios without a caption, and documents with
  long names, get another label than a recomputation gives (`SentLabelAgrees`).
- A message that is delivered again is not stored again but is counted as unread
  again (`RedeliveryOvercounts`).
- An edit applied twice, because the report of the first was lost, keeps its
  original text exactly when there was one to keep (`RetriedEdit`).
- Below the cap `markAttempt` cuts its message at 500 bytes, which may leave half a
  character; at the cap `FailOutbound` removes it again (`AttemptTextIsValid`,
  `HalfACharacter`).
- An existing-chat row whose stamp does not commit is sent again
  (`LostStampSendsAgain`): it is acknowledged once for every such stamp, and once
  more if it ends `sent` (`AcksAreExact`).
- A document whose file could not be stored loses its name in a recomputed tail
  (`LostNameShows`).
- `openRotating` starts as if at a line's start even when the file it finds ends
  inside a line, which then goes on with a date. That makes no difference exactly
  when the file ends with a whole line or nothing is stamped after it
  (`FoundMidLine`).

## Model

| member | source | states |
|---|---|---|
| `NewChatSafety.AtMostOnce` | internal/wabridge/newchat.go:170-284 | over every run of any processes, two sends carry the same ID exactly when they are for the same row, and it is the ID stored on that row |
| `NewChatSafety.IdsAlways` | internal/store/store.go:951-966 | in every reachable state each ID on a row was minted by a process that has moved on since, different rows have different IDs, and every snapshot, pending write and past send agrees with its row |
| `NewChatSafety.StepKeepsIds` | internal/wabridge/newchat.go:170-311 | one step of anybody keeps that, including a claim that commits and reports an error |
| `NewChatSafety.StepGrows` | internal/store/store.go:951-993 | no step takes an ID off a row or a row out of the table: the column is written once |
| `NewChatTruth.WritesAreSound` | internal/wabridge/newchat.go:199-311 | in every reachable state `sent` implies an acknowledged send with the row's ID to a confirmed address, a chat made by this path had such a send, every message has its chat, a set `chat_jid` names an existing chat |
| `NewChatTruth.TruthAlways` | internal/wabridge/newchat.go:286-311 | the invariant behind it holds between any two writes of any process, crashes included |
| `NewChatPacing.SentRowIsLeftAlone` | internal/wabridge/newchat.go:174-188 | once WhatsApp acknowledged a row to a process, no later step makes that process look it up, send it or fail it (EXPIRED or otherwise) |
| `NewChatPacing.GuardAlways` | internal/wabridge/newchat.go:100-117 | in every reachable state a row sent by a live process is in its guard until it has left `resolve` |
| `NewChatPacing.ExpiryBound` | internal/wabridge/newchat.go:59-63 | no lookup or send starts for a row read as older than 23 h; a send returns within 23 h + 1 s + two deadlines + the time the process itself took in between |
| `NewChatPacing.TimeAlways` | internal/wabridge/newchat.go:179-248 | in every reachable state the calls of a process are in order: lookups a gap apart, each send right after its own answered lookup, each return in time |
| `NewChatPacing.PacingWindow` | internal/wabridge/newchat.go:121-140 | any window of length T holds at most floor(T/20 s)+1 lookups of a process, and no more sends started on them |
| `NewChatPacing.LookupsSpan` | internal/wabridge/newchat.go:121-126 | n lookups inside a window span at least n-1 gaps |
| `NewChatPacing.SendsFollowLookups` | internal/wabridge/newchat.go:190-260 | each send of a process uses up a lookup of its own |
| `NewChatBackoff.NobodyIsStuck` | internal/wabridge/wabridge.go:2197-2221 | over every run, whatever the faults, a row that can still be sent has fewer than five attempts and a backoff of at most 120 s |
| `NewChatBackoff.AttemptsAreApart` | internal/wabridge/wabridge.go:1632-1641 | over every run a step leaves the record of a row alone, or adds to it later than the last attempt by more than its backoff and counts one up (unless it fails the row outright), if and only if it is not a process recording on a row that has changed since it read it |
| `NewChatBackoff.ExclusiveIsTimely` | internal/wabridge/newchat.go:142-166 | no process does that in a run in which no bridge reads the row while another is at it |
| `NewChatBackoff.SecondCountsNothing` | internal/wabridge/wabridge.go:2197-2221 | in every state, of two processes about to record the same count the second counts nothing up, however much later |
| `NewChatBackoff.RowAlways` | internal/wabridge/newchat.go:142-166 | while no bridge reads the row when another is at it, one process at most is at it, its backoff is over, and its attempts are those that were read |
| `NewChatBackoff.SoloIsExclusive` | internal/wabridge/newchat.go:121-166 | a run in which one bridge at a time is alive, restarted or replaced, is such a run for every row |
| `NewChatBackoff.FiveAttemptsTakeLong` | internal/wabridge/wabridge.go:1643-1646 | in every run without such a record a row failed by five attempts took at least 224 s from the first to the last recorded one |
| `NewChatBackoff.OverlapBreaksBackoff` | internal/wabridge/wabridge.go:1632-1641 | a run of two overlapping bridges in which attempts 1 and 2 are recorded one second apart |
| `NewChatProgress.AtMostFiveSends` | internal/wabridge/wabridge.go:1643-1646 | when besides nothing is lost: at most five sends, and at most one acknowledged |
| `NewChatProgress.SendsAreBounded` | internal/wabridge/newchat.go:170-311 | over every run in which no bridge reads the row while another is at it, all processes together send it at most five times, and once more for each crash at it and each write of it that does not commit; acknowledged sends are one, and one more for each of those |
| `NewChatProgress.SendsAreAccounted` | internal/wabridge/newchat.go:248-311 | over every run, overlap and failures included, the sends of a row are those still open, those acknowledged, those recorded as attempts and those lost with their process or their write, each once |
| `NewChatProgress.TallyAlways` | internal/wabridge/newchat.go:170-311 | the invariant behind both bounds, by what the row shows and where the process at it stands |
| `NewChatPasses.EveryPassCounts` | internal/wabridge/newchat.go:121-311 | when nothing is lost during the pass, from reading a row to being idle again a process lowers (live, tries left), also when the row refused its claim; a claim not reported as stored does not raise it |
| `NewChatProgress.SendsAreRecorded` | internal/wabridge/newchat.go:248-260 | what any set of processes has on record for a row is no more than was sent over the run |
| `NewChatProgress.OneGoodBridgeIsSteady` | internal/wabridge/newchat.go:121-140 | one bridge at a time, stopped only between two rows, whose writes commit loses nothing on any row and never reads one that another is at |
| `Tables.PickExists` | internal/wabridge/newchat.go:142-166 | when any row waits with its backoff over, `ORDER BY id LIMIT 1` finds one |
| `Attempts.ComesUp` | internal/wabridge/wabridge.go:1632-1641 | a row comes up at once when new and again later than 10, 30, 60 and 120 s after its first four attempts, never after the fifth |
| `NewChatBridge.Bridge.constructor` | internal/wabridge/newchat.go:100-117 | a process starts with an empty guard in the middle of any run |
| `NewChatBridge.Bridge.ProcessNewChats` | internal/wabridge/newchat.go:121-140 | every state of a tick is a state of the machine; within the gap, or with no row eligible, nothing happens; otherwise exactly the first eligible row is read, and while this process's writes succeed it advances (leaves `resolve`, uses up an attempt, or was claimed by another), for certain if nobody else writes it |
| `NewChatBridge.Bridge.QueryResolveOutbound` | internal/wabridge/newchat.go:142-166 | the first waiting row if there is one, nothing only if there is none |
| `NewChatBridge.Bridge.SendNewChatRow` | internal/wabridge/newchat.go:170-284 | a row in the guard is stored and not called about again; a row read within 23 h of its creation, of kind `text` with something to see in it and with +52 and ten digits, is looked up at once; any other is failed for the first of the three it misses and uses up no call and no gap. While this process's writes succeed and nobody else writes the row, it leaves `resolve` or uses up an attempt |
| `NewChatBridge.Bridge.LookedUp` | internal/wabridge/newchat.go:200-284 | no answer is one attempt with LOOKUP_FAILED at the fifth, no account and a bad address are failures with their codes, none of them a send; a hit makes progress; all while this process's writes succeed |
| `NewChatBridge.Bridge.ClaimId` | internal/wabridge/newchat.go:224-242 | a send is allowed only with the row's own ID, or the one just minted when its claim was reported as stored; refused only if the row no longer takes one |
| `NewChatBridge.Bridge.Send` | internal/wabridge/newchat.go:244-276 | an acknowledged send to the chosen address enters the guard at once with what is to be stored: a text of ours with the row's body, in the chat it went to, with the name and number the lookup has or else the row; any other result is an attempt |
| `NewChatBridge.Bridge.SendAndFinish` | internal/wabridge/newchat.go:244-311 | while its writes succeed an acknowledged send ends as exactly that message in the thread, that chat in the list and the row `sent` with its chat, as far as nobody else wrote them; any other send is one attempt, with SEND_FAILED at the fifth |
| `NewChatBridge.Bridge.FinishNewChat` | internal/wabridge/newchat.go:292-311 | stamp, chat, message, pointer in that order through the machine. When the writes succeed the message is in its thread, its chat in the list with the columns given or else known, and the row is `sent`, without an error, and points at the chat, unless somebody else wrote them |
| `NewChatBridge.Bridge.Stamp` | internal/wabridge/newchat.go:292-298 | the guard gives the row up exactly when the stamp was reported, within three tries |
| `NewChatBridge.Bridge.MarkAttempt` | internal/wabridge/wabridge.go:2197-2221 | when its write succeeds the row has one attempt more than was read, at this time; it waits on below the fifth and has failed with the code at the fifth |
| `NewChatBridge.Bridge.FailNewChat` | internal/wabridge/newchat.go:315-320 | the row is failed with all attempts used |
| `OutboundQueue.AtMostFiveSends` | internal/wabridge/wabridge.go:1710-1784 | while writes succeed a row is sent at most five times, acknowledged exactly when it ends `sent` and then once, and each handling lowers (live, tries left) |
| `OutboundQueue.QueueIsPaced` | internal/wabridge/wabridge.go:1632-1646 | over every run, faults included, no pending row is at the cap, none waits the 300 s, and one that used up its attempts took at least 224 s |
| `OutboundQueue.HandledRecords` | internal/wabridge/wabridge.go:1671-1708 | handling a row that was read as eligible records nothing, or an attempt later than the last by more than its backoff; no other row moves |
| `OutboundQueue.AcksAreExact` | internal/wabridge/wabridge.go:1774-1784 | over every run, whatever the faults, a row's acknowledged sends are its stamps that did not commit, and one more if it is `sent` |
| `OutboundQueue.LostStampSendsAgain` | internal/wabridge/wabridge.go:1774-1784 | a run in which a stamp does not commit and one row has two acknowledged sends |
| `OutboundBridge.Bridge.ProcessOutboundBatch` | internal/wabridge/wabridge.go:1648-1669 | each of the first ten eligible rows is handled once, as it was read: it ends as its outcome says, or as it was when the write failed to commit; exactly their calls are made; the acknowledged ones are posted in order; no other row changes |
| `OutboundBridge.Bridge.QueryPendingOutbound` | internal/wabridge/wabridge.go:1671-1708 | the batch is the first ten eligible rows in order, each once |
| `OutboundBridge.Bridge.SendOutboundRow` | internal/wabridge/wabridge.go:1710-1847 | each permanent code is on the row if and only if its cause holds (bad chat_jid; unsupported kind; bad media; bad place), an unreadable target, unavailable media or an unacknowledged send is one attempt more with the row still pending below the fifth and failed with SEND_FAILED at it, an acknowledged one stamps it; SendMessage is called exactly when nothing stood before it, and no other row moves. What was acknowledged is posted as far as those writes commit |
| `OutboundBridge.Bridge.SendReactionRow` | internal/wabridge/wabridge.go:1901-1953 | the same for reactions, which fail for good without a usable target, and the reaction row |
| `OutboundPosts.SentIs` | internal/wabridge/wabridge.go:1786-1823 | column by column what is stored of a sent message, when its chat has a row and its ID is new; nothing otherwise, and no other message changes |
| `OutboundPosts.SentChatIs` | internal/wabridge/wabridge.go:1825-1845 | its chat gets the label (a place, the text as far as it fits, the kind), the time and our side, and keeps its names |
| `OutboundPosts.SentReactionCounts` | internal/wabridge/wabridge.go:1940-1951 | a sent reaction is one more event of ours on its target, at WhatsApp's time |
| `OutboundPosts.SentIsInThread` | internal/wabridge/wabridge.go:1786-1847 | with its writes done, a sent message is in its thread if and only if the canonical chat had a row (or it was there); the chat list shows it in any case, nothing unread |
| `OutboundPosts.SentLabelAgrees` | internal/wabridge/wabridge.go:2168-2183 | the label of a sent message is the recomputed one if and only if it is a place, has a caption, or is no video, no audio and no document with a name too long |
| `OutboundPosts.SentTailAgrees` | internal/wabridge/wabridge.go:1825-1845 | so the cached tail is exact after a send of the newest message if and only if the label, or the old one where that is empty, is the recomputed one |
| `OutboundBridge.Bridge.MarkOutboundAttempt` | internal/wabridge/wabridge.go:2190-2221 | one more attempt on the row that was read, or its failure at the cap |
| `OutboundBridge.Bridge.MarkOutboundPermanentlyFailed` | internal/wabridge/wabridge.go:2230-2237 | the row is failed with all attempts used and its code |
| `OutboundBridge.Bridge.StampSent` | internal/wabridge/wabridge.go:1774-1784 | an acknowledged row is marked sent with the answered ID, or stays as it was when the write does not commit |
| `Database.Store.ClaimNewChatMessageID` | internal/store/store.go:951-966 | writes the ID only on a waiting row without one, and says claimed only when that was reported |
| `Database.Store.MarkNewChatSent` | internal/store/store.go:972-993 | sets status and ID whatever the old status, clears the error |
| `Database.Store.FailOutbound` | internal/store/store.go:921-943 | a reported failure is final: neither query returns the row, no claim takes it, its ID stays, its code is set |
| `Database.Store.BumpAttempts` | internal/wabridge/wabridge.go:2209-2219 | a reported attempt leaves the row in its queue with its ID, to come up again exactly when the backoff after it is over |
| `Database.Store.SetOutboundChat` | internal/store/store.go:998-1004 | points only at a chat that exists |
| `Database.Store.UpsertChat` | internal/store/store.go:214-254 | insert, or the COALESCE update: whether it commits or not no chat goes or changes kind, a NULL erases nothing, at most one more is unread, other chats stay |
| `Database.Store.InsertMessage` | internal/store/store.go:453-510 | INSERT IGNORE: stores the row as it is under a new key in an existing chat, and nothing otherwise |
| `Database.Store.LocateMessage` | internal/store/store.go:534-558 | finds the row exactly when it is stored under one of the given chats |
| `Database.Store.ApplyEdit` | internal/store/store.go:567-592 | the author's edit gives the row the new text and its time and keeps the first text replaced, anybody else's changes nothing, and the answer says which |
| `Database.Store.RevokeMessage` | internal/store/store.go:600-626 | the same for deletes, which in a group anybody may make |
| `Database.Store.UpsertReaction` | internal/store/store.go:658-738 | updates the row the lookup found unless it is newer, inserts a first reaction, stores no first removal |
| `Database.Store.ClearUnreadUpTo` | internal/store/store.go:819-844 | never raises unread_count; what is left is the lower of it and the number of inbound messages newer than every stored one that was named |
| `Database.Store.LowerStatuses` | internal/store/store.go:1023-1048 | lists exactly the statuses of a lower rank |
| `Database.Store.MarkMessagesStatus` | internal/store/store.go:1023-1065 | raises the named messages of ours whose status is NULL or lower, touches nothing else |
| `Database.Store.RecomputeChatTail` | internal/store/store.go:1087-1130 | writes time, label and side of the tail row, or leaves a chat without one |
| `InboxRuns.UnreadIsExact` | internal/wabridge/wabridge.go:602-645 | after every event of every run unread_count is the number of stored inbound messages above the high-water mark; with history at most that; receipts may name any row |
| `InboxRuns.ClearCounts` | internal/store/store.go:819-844 | a read receipt leaves exactly the messages above the raised mark unread |
| `InboxRuns.StoreCounts` | internal/store/store.go:214-254 | a stored message moves unread_count with the exact count, ours to nothing |
| `InboxRuns.HistoryKeepsInv` | internal/wabridge/wabridge.go:335-485 | a conversation of rows, deletes and reactions keeps unread_count at most the exact count |
| `InboxRuns.TailIsExact` | internal/store/store.go:1087-1130 | after every run whose history conversations each insert a message, leave times distinct and delete no other chat's newest message, recomputing any chat's tail changes nothing |
| `InboxRuns.HistoryKeepsTails` | internal/wabridge/wabridge.go:335-485 | such a conversation leaves every tail exact, its own recomputed, the others not touched |
| `InboxRuns.OtherTails` | internal/wabridge/wabridge.go:401-480 | of any other chat an exact tail stays exact through a conversation if and only if no delete changed what its newest message shows |
| `InboxRuns.InboxAlways` | internal/wabridge/wabridge.go:508-645 | the invariant behind both, over messages, edits, deletes, reactions, receipts and history |
| `InboxRuns.RewriteKeepsTails` | internal/wabridge/wabridge.go:651-745 | an edit or delete followed by a recomputation leaves every tail exact |
| `InboxRuns.RedeliveryOvercounts` | internal/wabridge/wabridge.go:602-645 | a message delivered again leaves unread_count one too high if it is inbound, and exact only if it is ours and nothing is unread |
| `InboxRuns.EmptyHistoryKeepsTail` | internal/store/store.go:214-254 | a history conversation that inserts nothing keeps an exact tail exact if and only if the newest message is not ours and no delete changed what it shows |
| `ChatHistory.ChatsRemember` | internal/store/store.go:214-254 | over any sequence of upserts each chat's name, phone, time and preview are the last non-NULL ones given, the tail's side is the last call's, no chat disappears or changes kind |
| `Previews.PreviewsAgree` | internal/wabridge/wabridge.go:1395-1438 | the stored row of a message is labelled as the live message was, when its file name was kept and its place fits the column |
| `Previews.LabelsAre` | internal/wabridge/wabridge.go:1395-1438 | the label of each kind: a place by its name, a text as far as 160 characters, a message without text by its kind |
| `Previews.LostNameShows` | internal/wabridge/wabridge.go:749-758 | for a document that was not kept the labels agree exactly when a caption or a missing name hides the loss |
| `Reactions.OneReactionEach` | internal/store/store.go:658-738 | over any interleaving of events each reactor has at most one row on a target, and it shows the fold of that reactor's events |
| `Reactions.NewestWins` | internal/store/store.go:700-738 | the fold shows the newest event since the first shown one, the later arrival among equals |
| `Reactions.OrderDoesNotMatter` | internal/store/store.go:700-738 | with distinct times the order of arrival does not matter |
| `Reactions.Redelivery` | internal/store/store.go:700-738 | from any start and after any events, one delivered again changes nothing if and only if nothing is shown, or something newer, or what the event sets |
| `Reactions.StoredRedelivery` | internal/store/store.go:700-738 | so one that showed when it first came changes nothing if and only if no different event of its very time replaced it |
| `Reactions.EarlyRemovalComesBack` | internal/store/store.go:700-738 | a removal that came before the older reaction stored nothing and removes it when delivered again |
| `ReactionEvents.OneReactionPerReactor` | internal/wabridge/wabridge.go:788-804 | over any run of incoming reaction events the tables end as those reactions make them, each in the chat its target is found in: one row for each reactor and target, showing the fold |
| `ReactionEvents.CountsWhereStored` | internal/wabridge/wabridge.go:788-804 | a reaction counts for the chat its target is stored under if and only if the sender is the same contact and the form or the pair is known by then |
| `ReactionEvents.FormsMeet` | internal/wabridge/wabridge.go:788-829 | then two events of one reactor are the same reactor's, whichever forms they came in and whenever |
| `Reactions.FoldSince` | internal/store/store.go:658-738 | the fold of a whole history is the fold of what came after any moment, from what was shown then |
| `MessageHistory.EditHistory` | internal/store/store.go:567-626 | body is the newest text, original_body the first non-NULL text an edit replaced, edited_at the last edit, revoked_at the first delete, the rest stays |
| `MessageHistory.AttemptsAreHistories` | internal/wabridge/wabridge.go:651-715 | over any interleaving of edits, deletes and retries of both sides, any of them lost, no row comes or goes and each is the history of what its author was permitted |
| `MessageHistory.RetriedEdit` | internal/wabridge/wabridge.go:768-782 | applying an edit again keeps the body, and keeps original_body if and only if a text was replaced, one was already kept, or the new text is NULL |
| `MessageHistory.RetriedRevoke` | internal/store/store.go:600-626 | applying a delete again changes nothing |
| `MessageHistory.ReceiptsJoin` | internal/store/store.go:1023-1065 | a row ends at the greatest rank of its status and the receipts, `failed` stays |
| `MessageHistory.ReceiptOrderDoesNotMatter` | internal/store/store.go:1023-1065 | only the set of receipts matters |
| `MessageHistory.ReceiptsOnTable` | internal/wabridge/wabridge.go:943-964 | over any sequence of receipts each message of ours ends at the join of those that named it; nothing else moves |
| `Addresses.CanonicalIsIdempotent` | internal/wabridge/wabridge.go:998-1011 | canonicalising again, also later, changes nothing more |
| `Addresses.ChatAliases` | internal/wabridge/wabridge.go:809-829 | canonical form first, no repeats, exactly the known forms |
| `Addresses.Add` | internal/wabridge/wabridge.go:811-822 | appends a usable form that is not there yet, and nothing else |
| `Addresses.FoundLater` | internal/wabridge/wabridge.go:809-829 | a chat stored under its canonical form is among the aliases of a later event of the contact if and only if the event came in the same form or the pair is known by then |
| `Addresses.StrangersNeverMeet` | internal/store/store.go:526-533 | an event of one contact never reaches a chat of another |
| `Addresses.ActsWhereStored` | internal/wabridge/wabridge.go:651-715 | an edit, delete or reaction finds its target under exactly those conditions, then changes only the chat it is stored in, and otherwise only its own |
| `InboxBridge.Bridge.HandleMessage` | internal/wabridge/wabridge.go:508-645 | with no write failing, the tables end as the event's meaning says; an ordinary message, or the delete of one not stored, is there under its chat with its sender, side, kind, text, file, place, time and status if its ID is new, its chat has the name and number that came or else those it had, and nothing else changed |
| `InboxBridge.Bridge.ApplyProtocolAction` | internal/wabridge/wabridge.go:651-715 | edits and deletes are carried out and answered for as the event's meaning says |
| `InboxBridge.Bridge.HandleEdit` | internal/wabridge/wabridge.go:664-688 | under any failures the messages are those after at most three attempts of this one edit, which stop at the first that is reported; with none the tables end as the event's meaning says |
| `InboxBridge.Bridge.HandleDelete` | internal/wabridge/wabridge.go:690-713 | the same for a delete; the event is used up only if its message was found and, where the sender may delete it, the delete was reported; a found message it leaves had every attempt fail |
| `InboxBridge.Bridge.EditWithRetry` | internal/wabridge/wabridge.go:768-782 | at most three attempts, all of this edit; one when nothing fails |
| `InboxBridge.Bridge.RevokeWithRetry` | internal/wabridge/wabridge.go:768-782 | at most three attempts, all of this delete; one when nothing fails |
| `InboxBridge.Bridge.RecomputeTail` | internal/wabridge/wabridge.go:739-745 | with no write failing, the tail is what a recomputation writes |
| `InboxBridge.Bridge.StoreReaction` | internal/wabridge/wabridge.go:788-804 | the reaction is stored in the chat its target is in |
| `InboxBridge.Bridge.SyncConversation` | internal/wabridge/wabridge.go:389-480 | with no write failing, a history conversation ends as its meaning says, its chat with the name and number that came or else those it had |
| `InboxRuns.HistoryStores` | internal/wabridge/wabridge.go:401-473 | of every message of a conversation: a new one is stored as it is but for a later delete, a delete flags a target that is found if its sender may, and is stored itself where it is not |
| `InboxBridge.Bridge.HandleReceipt` | internal/wabridge/wabridge.go:922-964 | a read receipt of ours lowers the unread count and touches no message; of any other, a delivery moves NULL, `received` and `sent` to `delivered`, a read or played one these and `delivered` to `read`, of our named messages only, and the rest moves nothing |
| `Fallback.Store.Absorb` | internal/store/store.go:75-99 | an unknown-column error is absorbed exactly when its column has no other owner; the feature goes off and is logged if it was on |
| `Fallback.Store.Inner` | internal/store/store.go:464-510 | at most two statements; it ends with the inner columns unless the feature is off; what it returns is the database's answer to the last statement it ran |
| `Fallback.Store.Nested` | internal/store/store.go:1087-1119 | whichever column an error names and whatever others do: at most three statements, one once settled, it returns the answer to the last one, succeeds unless a statement fails for another reason, the largest column groups the schema allows, and only features with a missing column go off, each logged once |
| `Fallback.Store.InsertMessage` | internal/store/store.go:453-510 | that, for the reply and location columns |
| `Fallback.Store.SelectTail` | internal/store/store.go:1087-1119 | that, for the edit and location columns of the tail query |
| `Fallback.RefRoundTrip` | internal/store/store.go:146-161 | the column written into MySQL's message is read back from it |
| `Fallback.Owners` | internal/store/store.go:107-131 | a location feature's own columns are its own, those of the other features nobody's |
| `Fallback.BareOwner` | internal/store/store.go:107-161 | an error naming any bare column is the location feature's if it is one of the three place columns, and nobody's otherwise |
| `Fallback.QualifiedOwner` | internal/store/store.go:107-161 | with any qualifier: the queue's own three are the queue's feature's, another place column the location feature's, no other anybody's |
| `Quotes.UnwrapMessage` | internal/wabridge/messages.go:38-66 | takes off up to eight wrappers; what is left has none exactly when there were at most eight |
| `Quotes.UnwrapIsStable` | internal/wabridge/messages.go:38-66 | unwrapping twice is unwrapping once if and only if there are at most eight wrappers |
| `Quotes.PeelWrapped` | internal/wabridge/messages.go:38-66 | unwrapping undoes any sequence of the eight kinds of wrapper |
| `Quotes.ContextComesBack` | internal/wabridge/messages.go:222-256 | the context attached to any supported message is the one read from it, through up to eight wrappers in all |
| `Quotes.PreviewComesBack` | internal/wabridge/messages.go:287-304 | the quote synthesized from a stored row previews as that row |
| `Quotes.QuoteRoundTrip` | internal/wabridge/messages.go:267-415 | a reply reads back as its target, its author and exactly the stored preview, for every row, shape, ID and author within the length limits, and as no reply or no author beyond them |
| `Quotes.QuotedAsStored` | internal/wabridge/messages.go:287-304 | quoting a received message and quoting its stored row give the same preview if and only if it names no place and can be shown |
| `Quotes.LabelsShow` | internal/wabridge/messages.go:307-338 | a quote label is empty or not blank |
| `Quotes.QuoteLabelsAre` | internal/wabridge/messages.go:307-338 | a quote never shows the coordinates of a place; of other messages the text if there is something to see in it, else the label of the kind |
| `Quotes.KindsAreTold` | internal/wabridge/wabridge.go:1112-1230 | through up to eight wrappers each content is told for what it is, with its text, file name, position and place |
| `Quotes.ContentStays` | internal/wabridge/messages.go:222-256 | attaching a quote leaves kind, text, file and place of what is sent as they are |
| `Coordinates.RoundTrip` | internal/wabridge/wabridge.go:1332-1334 | reading a printed position gives it back for exactly the positions on the globe, and nothing for any other |
| `Coordinates.GroupsAreMatches` | internal/wabridge/sendlocation.go:33-41 | splitting at the comma finds the two numbers if and only if the regular expression matches with them |
| `Coordinates.ParseIs` | internal/wabridge/sendlocation.go:36-50 | where the expression matches, what is read are its two numbers if and only if both are on the globe, and nothing otherwise |
| `Coordinates.ParseNeedsMatch` | internal/wabridge/sendlocation.go:37-41 | nothing is read where it does not match |
| `Coordinates.NumeralReads` | internal/wabridge/sendlocation.go:33 | one to three digits with a fraction or without, signed or not, read as their digits over the power of the decimals |
| `Coordinates.ReadIsNumeral` | internal/wabridge/sendlocation.go:33 | and nothing else is read as a number |
| `Coordinates.Normalised` | internal/wabridge/wabridge.go:1816-1822 | a body whose two numbers have at most six decimals and are on the globe, printed anew, is the place of these numbers, and printing that again changes nothing |
| `Coordinates.NumberReadsBack` | internal/wabridge/sendlocation.go:36-50 | a printed number reads back as itself below a thousand degrees and not at all above |
| `Utf8.Clip` | internal/store/store.go:1007-1015 | of valid text, the longest valid prefix within the limit, fewer than four bytes short of it when cut |
| `Utf8.Boundary` | internal/store/store.go:1011-1013 | valid text may be cut exactly before a byte that starts a character |
| `Utf8.FailTextReads` | internal/store/store.go:921-922 | the failure text is the longest valid prefix of "code: detail" that 500 bytes hold, all of it when it fits, and starts with the code and ": " |
| `Utf8.ValidIsEncoded` | internal/store/store.go:1007-1015 | the text the clip keeps valid is exactly what encodes Unicode scalar values (section 3 of RFC 3629) |
| `Utf8.CutDoesNotShow` | internal/wabridge/wabridge.go:2197-2204 | the byte cut before it makes no difference to a failed row's text |
| `Utf8.AttemptTextIsValid` | internal/wabridge/wabridge.go:2197-2221 | the text an attempt records is valid if and only if it is the last, or byte 500 starts a character, or there is none |
| `Utf8.HalfACharacter` | internal/wabridge/wabridge.go:2198-2200 | a message on which an attempt below the cap leaves half a character |
| `LogFile.RotatingFile.Write` | internal/logfile/logfile.go:100-129 | all output so far is the found file and the stamped input; returns len(p); rotates exactly when the file is long enough and a line has ended; what was rotated out ends with a whole line |
| `LogFile.RotatingFile.Append` | internal/logfile/logfile.go:104-128 | appends the input with a stamp before each line, keeps size and line state right |
| `LogFile.RotatingFile.Rotate` | internal/logfile/logfile.go:90-98 | the open file becomes the previous one and an empty one is opened |
| `LogFile.RotatingFile.constructor` | internal/logfile/logfile.go:68-88 | appends to the file it finds, as if at a line's start |
| `LogFile.FoundMidLine` | internal/logfile/logfile.go:68-88 | for any file found and any writes after it: starting at a line's start gives what looking at the file would have given if and only if the file ends with a whole line, or nothing is stamped |
| `LogFile.FirstLine` | internal/logfile/logfile.go:113-120 | the input up to and with its first newline, or all of it |
| `LogFile.OneLine` | internal/logfile/logfile.go:105-121 | a line gets the stamp before it and nothing inside it |
| `LogFile.StampedJoin` | internal/logfile/logfile.go:100-129 | stamping goes through the input once, whatever the pieces |
| `LogFile.ChunksDoNotShow` | internal/logfile/logfile.go:56-66 | two sequences of writes on one date give the same log if and only if they write the same bytes |
| `LogFile.AllTogether` | internal/logfile/logfile.go:100-129 | on one date the log of many writes is the log of one |
| `LogFile.RoundTrip` | internal/logfile/logfile.go:56-58 | the input can be read back from the stamped log |

## Left out

- NewChatBackoff.FiveAttemptsTakeLong: needs a run in which nothing was recorded on a changed row; `OverlapBreaksBackoff` is the run that shows why.
- NewChatProgress.SendsAreBounded: where bridges read a row that another is at, every send is accounted for (`SendsAreAccounted`) but not bounded by the attempts.
- NewChatBridge.Bridge.SendNewChatRow: one function of the source in several methods (the checks, the answer, the send, what it stores).
- NewChatPacing.ExpiryBound: the bound on a returned send also counts the time between reading the row and starting its lookup, which the code does not limit.
- OutboundQueue.AtMostFiveSends: the bound on sends needs writes that succeed; without them `AcksAreExact` counts the acknowledged ones.
- InboxRuns.TailIsExact: conversations that insert nothing, or delete another chat's newest message, are not followed by the recomputation it needs (`EmptyHistoryKeepsTail` and `OtherTails` say what they do). What the web inbox sends is not part of these runs (`SentTailAgrees` is about one send).
- Quotes.QuoteRoundTrip: messages are values, so setting the context in place (and who else holds the message) is not captured.
- Coordinates.RoundTrip: positions are whole micro-degrees without a negative zero; rounding of floats is not modelled.
- Coordinates.Normalised: bodies with more than six decimals are rounded by the code and are not modelled.
- LogFile.RotatingFile.Write: the loop is split into three methods (the tick of rotation, the lines, the newline scan); OS errors, which only shorten the log, are not modelled.
- OutboundBridge.Bridge.SendOutboundRow: the quote, media and request columns of the message row; what follows the stamp is a method of its own.
- `senderAliases`: which stored forms belong to a group member is a hypothesis of `Reactions` (`AliasesKnown`).
- A stored statement on an overlapping instance may flip a `sent` row to `failed`: the statements have no condition on the old status, and the model keeps that.
- The tunnel, uploads, thumbnails, PDF rendering, QR pairing, service wiring, heartbeat, typing, profile pictures: plumbing and timing without invariants between them.
- WhatsApp itself, decryption, address parsing and history parsing: answers of the environment.
- The label tables of `classifyMessage` and `classifyProtocol` beyond what previews and quotes read.
- Edits on a schema without the edit columns (`storeEditAsRow`), and `status_updated_at`.
