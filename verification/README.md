# Conversation email service: what its state machines guarantee

The repository is an Express service that keeps email conversations in PostgreSQL, sends through
Resend and publishes conversation events to NATS. This project models the state machines under
it and proves what holds over all their runs.

One committed database transaction is one atomic step; aborted transactions change nothing. There
is one clock, and it never runs back; but the service reads it before its transactions, and the
database stamps rows when a transaction begins, so the times that a step writes are parameters that
only have to be no later than its commit. A worker is a claim that may stall, crash, lose an answer
or outlive its lease at any point, and any number of them run at once.

| file | what it models |
|---|---|
| `Text.dfy` | string functions, optional values, query results |
| `Routing.dfy` | the printer and the two parsers of Reply-To addresses |
| `States.dfy` | conversation states and the rule that combines them in a merge |
| `Delivery.dfy` | the webhook ledger, its reduction, and the stored delivery view |
| `Threads.dfy`, `ThreadInvariant.dfy`, `ThreadHistory.dfy` | conversations, messages and aliases; every step, the invariant, whole runs |
| `ThreadConvergence.dfy`, `ThreadConfluence.dfy` | thread reconciliation as an online connected-components algorithm |
| `ThreadSteps.dfy` | the rows that each step of the thread tables writes, column by column |
| `ThreadExamples.dfy` | two runs from the empty store that show where promises about threads end |
| `ThreadStore.dfy` | the same transactions on mutable tables, in the order of the statements |
| `Provider.dfy` | the email provider behind its idempotency keys |
| `Outbox.dfy`, `OutboxStore.dfy` | the two outbox tables: specification functions, and the transactions on mutable tables |
| `Sending.dfy`, `SendingInvariant.dfy`, `SendingSafety.dfy` | all three ways to send, with workers and requests in flight |
| `SendingSteps.dfy` | the rows that each step of the three lanes writes, for every answer of the provider |
| `EventFeed.dfy`, `EventStore.dfy` | sequence allocation and ordered publishing; the tables and one runtime |
| `Intents.dfy` | idempotent intent across lanes |

Transactions that change tables are methods of a class with the tables as fields; each is proved
equal to a step function, and the promises are lemmas about runs of steps. Rows that a query
returns in no promised order are parameters constrained to be exactly the queried rows.

## What the proofs found

- Reopening a failed topic writes `lastMessageAt` without the GREATEST that a reply uses, and the
  request took its time before the transaction. When another request reopened in between and failed
  too, the time is set back before the latest message: `ReopeningMaySetBack` is such a run.
  `ReopenedLastIsLatestIff` gives the exact condition, and `LastMessageIsLatest` shows that nothing
  else ever makes the last-message time wrong.
- Recording a late Message-ID always merges into the conversation of the outbound message. If
  that one has no topic and a waiting reply sits in one that has, the two are never joined or
  linked, although the inbound path would have preferred the assigned one. `RecordJoinsReplyIff`
  gives the exact condition and `AssignedReplyStaysApart` a run from the empty store where it fails.
- In the synchronous lane INDETERMINATE is not final: the age check in `recoverPendingMessage`
  takes no lock, so a delivery in progress overwrites it. `GivenUpMayStillBeAccepted` is a run;
  `SyncOutcomeIsFinalIff` shows that an outcome is final if and only if no delivery holds the lock.
- Batches are first in, first out as far as a drain can see (`NoBatchPassesOver`). A message is stamped
  when its transaction begins and visible when it commits, so a batch cut in between may hold a
  later one: `MessageMayBePassed` is a run, `BatchesAreFifoIff` the exact condition.
- Without a configured API key a synchronous message is FAILED at once, so that its topic may be reopened
  (`SyncSettlementIs`), while a queued one is retried for 23 hours and then INDETERMINATE (`OwnerSettles`).
- Two delivery webhooks of one instant that disagree are resolved by order of arrival.
  `ViewIndependentOfArrivalIff` says exactly when the view does not depend on it.
- 24 hours of provider retention are needed to the millisecond: `ResubmissionIsSafeIff`. They are
  enough because 23 hours are checked and one hour from claim to arrival is assumed.
- The clean-up deletes and the "changed before completion" and "invalid message state" guards of
  the outbox can never fire (`PruningRemovesNothing`, `LiveClaimIsPending`).

## Model

| member | source | states |
|---|---|---|
| Routing.ExtractRoutingCandidates | src/lib/email/routing.ts:107-130 | the loop over the addresses computes the candidate list of the specification |
| Routing.CandidatesListOnce | src/lib/email/routing.ts:107-130 | that list holds exactly the candidates that some address yields, each once, in the order of their first occurrences |
| Routing.ExtractRoutingTokens | src/lib/email/routing.ts:76-105 | the loop computes the token list for the base; an invalid base is an error |
| Routing.TokensListOnce | src/lib/email/routing.ts:76-105 | that list holds exactly the tokens that some address yields under the base, each once, in the order of their first occurrences |
| Text.ListsOnceIsUnique | src/lib/email/routing.ts:76-130 | there is only one list with these three properties, so they determine what the two loops return |
| Text.NormalizeIs | src/lib/email/routing.ts:18-18 | trimming and lower-casing removes exactly the outer white space of ECMAScript and replaces A to Z by a to z |
| Routing.LocalCharsAre | src/lib/email/routing.ts:36-36 | the permitted characters of a local part are exactly the lower-case letters, the digits and 19 signs; the plus sign is none of them |
| Routing.BaseIsValidIff | src/lib/email/routing.ts:17-58 | a base address is valid if and only if, trimmed and in lower case, it is a local part of at most 29 permitted characters without outer or double dots, an at sign, and at least two labels of at most 63 characters, at most 218 characters together |
| Routing.BuiltAddressIs | src/lib/email/routing.ts:64-74 | an address is built if and only if the base is valid and the token, hyphens aside, is 32 hexadecimal digits; it is the base with `+c_` and those digits before the at sign |
| Routing.HyphenatedIs | src/lib/email/routing.ts:99-101 | the stored token is those digits in groups of 8, 4, 4, 4 and 12 |
| Routing.ExtractUndoesBuild | src/lib/email/routing.ts:64-74 | extracting from a built address returns exactly its normalized base and canonical token |
| Routing.BuildUndoesExtract | src/lib/email/routing.ts:112-127 | an address that yields a candidate is, trimmed and lower-cased, the address built from that candidate |
| Routing.BuiltAddressFits | src/lib/email/routing.ts:32-49 | a built address has a local part of at most 64 and a total of at most 254 characters (sections 4.5.3.1.1 and 4.5.3.1.3 of RFC 5321) |
| Routing.ExtractorsAgree | src/lib/email/routing.ts:76-130 | for every address list and valid base, the tokens are those of the candidates filtered to that base, in the same order, although one function matches a prefix and the other the last marker |
| Routing.CompactUndoesHyphenate | src/lib/email/routing.ts:69-73 | the token printed into an address and the token read back are the same UUID |
| States.MergePicksFirst | src/lib/email/conversation-state.ts:90-109 | find, filter and reduce together pick the least row of a total order |
| States.MergeDependsOnSet | src/lib/email/conversation-state.ts:90-109 | the result depends on the set of rows: order and repetition do not matter |
| States.NestedMergeIsFlat | src/lib/email/conversation-state.ts:85-109 | merging in any nesting of steps gives the state and timestamp of one flat merge |
| States.MergePrecedes | src/lib/email/conversation-state.ts:90-109 | the merged row precedes every row that took part |
| States.InboundKeepsClock | src/lib/email/conversation-state.ts:17-43 | taking part in a merge and then receiving mail neither restarts the wait clock nor leaves TERMINATED |
| States.TurnAfterMail | src/lib/email/conversation-state.ts:35-42 | after a merge and inbound mail the state is TERMINATED if any row was, and otherwise AWAITING_US, CONCLUDED included, with the earliest time of the rows that waited for us or else the time of the mail |
| States.AutomaticKeepsClock | src/lib/email/conversation-state.ts:17-76 | no automatic transition restarts the clock of a state that persists or leaves TERMINATED |
| Delivery.ReduceDeliveryEvents | src/lib/email/delivery.ts:168-203 | the loop computes the fold over the events |
| Delivery.ReduceClosedForm | src/lib/email/delivery.ts:176-198 | in closed form: the last event that is not a delay if there is one, else the last delay, with the minimum delivered time |
| Delivery.SortedLedgerIsQuery | src/lib/email/delivery.ts:86-96 | the sorted ledger holds exactly the delivery events of the email in the order of the query |
| Delivery.SortedByColumns | src/lib/email/delivery.ts:91-95 | of two rows in that order the first has the earlier event time, then the earlier arrival, then the smaller id |
| Delivery.CurrentIsTop | src/lib/email/delivery.ts:176-198 | what the view shows is one of the latest deciding webhooks |
| Delivery.DeliveredAtIndependent | src/lib/email/delivery.ts:181-183 | the delivered time never depends on the order of arrival |
| Delivery.ViewIndependentOfArrivalIff | src/lib/email/delivery.ts:86-97 | the view is independent of arrival order if and only if the latest deciding webhooks agree |
| Delivery.DistinctTimesAgree | src/lib/email/delivery.ts:91-95 | distinct event times are enough for that |
| Delivery.SameInstantDependsOnArrival | src/lib/email/delivery.ts:91-95 | two disagreeing webhooks of one instant: the last to arrive is shown |
| Delivery.ViewEqualsFoldAlways | src/lib/email/delivery.ts:78-119 | after any sequence of webhooks, duplicates and late acceptances the stored view equals the fold of the sorted ledger |
| Delivery.ViewStaysOnceSet | src/lib/email/delivery.ts:98-119 | a view that was set is never unset |
| Delivery.DeliveryStore.ProjectOutboundDeliveryState | src/lib/email/delivery.ts:78-119 | the projection writes the fold to the message with that provider id, ends its conversation if the fold shows an unreachable participant, and writes nothing else |
| Delivery.ProjectionShows | src/lib/email/delivery.ts:33-48 | event type by event type: the message shows the state, detail and time of one of the latest deciding webhooks; a bounce, complaint or suppression leaves its conversation TERMINATED, since that time unless it was so before; a delivery, delay or failure leaves the conversation row as it was; no other row changes |
| Delivery.NothingToProject | src/lib/email/delivery.ts:97-100 | without a delivery event of the email a projection changes nothing |
| Delivery.WebhookIsRecordedOnce | src/routes/webhooks/resend/v1/route.ts:30-85 | a webhook is recorded with its columns if its Svix id is new; a known one changes nothing |
| Delivery.DeliveryStore.ReceiveWebhook | src/lib/email/delivery.ts:78-119 | storing a webhook and projecting is the step of the delivery machine |
| Delivery.DeliveryStore.AcceptMessage | src/lib/outbox-service.ts:215-231 | accepting a message resets its view and projects the events that came before |
| Threads.SourcesAreOther | src/lib/email/conversations.ts:526-536 | the merged-away conversations are exactly the other, unassigned conversations of the related rows, each once |
| Threads.ReferencesEndWithParent | src/lib/email/conversations.ts:341-354 | in either form of the headers the stored references end with the effective parent, name In-Reply-To once, keep at most 100 header references of at most 998 characters and invent none |
| Threads.HeaderIsKept | src/lib/email/conversations.ts:340-354 | by position in the References header: of its Message-IDs of at most 998 characters the last hundred are stored in header order, and without In-Reply-To the last of all is the parent; an In-Reply-To is the parent, and is stored last instead of its occurrences among them |
| Threads.NearestAncestorIsNearest | src/lib/email/conversations.ts:417-423 | the nearest ancestor is the stored message of the last reference that has one |
| Threads.PickPrefersAssigned | src/lib/email/conversations.ts:440-458 | a topic-assigned conversation wins wherever it is found; otherwise the parent's, then the nearest ancestor's, then a waiting reply's |
| Threads.PickIsFirstAssigned | src/lib/email/conversations.ts:440-458 | in the order parent, nearest ancestor, waiting replies: the first that lies in a topic-assigned conversation decides, or else the first of all |
| Threads.RelatedBeatRouting | src/lib/email/conversations.ts:450-509 | mail with a stored ancestor or a waiting reply goes to the conversation of one of these; only other mail goes where its addresses point |
| Threads.RoutedIffUnique | src/lib/email/conversations.ts:486-508 | addresses decide a conversation if and only if exactly one of the sender fits, by its base, the configured base if it has none, or an alias |
| Threads.ReplyReferences | src/lib/email/threading.ts:34-39 | the references of a reply are its parent's and its parent, each once, a new parent last |
| Threads.ChosenIsLive | src/lib/email/conversations.ts:404-509 | the chosen conversation exists and belongs to the sender |
| ThreadSteps.MailGivesUsTheTurn | src/lib/email/conversations.ts:636-640 | after mail it is our turn, unless the conversation or one that it absorbs is TERMINATED; a wait that had begun keeps its earliest time |
| ThreadSteps.QueriesAre | src/lib/email/conversations.ts:394-439 | the rows read are exactly the stored mail that a reference names and the parentless replies to this mail, in conversations of the sender |
| ThreadSteps.ReceivedIs | src/lib/email/conversations.ts:570-589 | the row of received mail in all its columns, and the turn of its conversation; mail with a known provider id or Message-ID changes nothing |
| ThreadSteps.NewMailIs | src/lib/email/conversations.ts:511-589 | mail that nothing relates to and no address routes starts a conversation of its own, AWAITING_US since its creation time, and changes nothing else |
| ThreadSteps.MergedColumns | src/lib/email/conversations.ts:89-113 | base, version and allowlist flag of the survivor: its own, then the first V2 source with a base, then the first source that has one |
| ThreadSteps.OpenedIs | src/lib/conversation-v2.ts:132-191 | a topic is opened if and only if no conversation has it; then one conversation and its first message are new, in all columns, and nothing else changes |
| ThreadSteps.ReopenedIs | src/lib/conversation-v2.ts:346-433 | a topic is reopened if and only if its base fits and every message there is FAILED; the row is rewritten and a message added, and nothing else changes |
| ThreadSteps.RepliedIs | src/lib/conversation-v2.ts:537-632 | a reply is stored if and only if the base fits and the parent lies in the conversation with a Message-ID; its references are the parent's in their order and then the parent, each once; it is then the participant's turn unless the conversation is TERMINATED, and nothing else changes |
| ThreadSteps.RecordedIs | src/lib/email/conversations.ts:237-251 | a Message-ID is recorded if and only if the message is outbound and no other has it; the other columns of the row stay, and so does a parent |
| ThreadSteps.AssignedIs | src/routes/conversations/v2/[conversationId]/route.ts:56-81 | a topic goes exactly to a conversation that has none and is not V1, if the topic is free |
| ThreadSteps.StateSetIs | src/lib/email/conversation-state.ts:57-76 | a bounce ends a conversation that has not ended; an operator sets any state; nothing else changes |
| ThreadSteps.SettledIs | src/lib/conversation-service.ts:45-73 | a send outcome changes the state and the provider id of its message and nothing else |
| ThreadInvariant.MergeConserves | src/lib/email/conversations.ts:526-568 | the cascade of the merge loses no message and no alias; only the source rows go |
| ThreadInvariant.MergedRowKeeps | src/lib/email/conversations.ts:89-115 | the survivor keeps token, topic, participant and base, is V2 with a base if any row was V2, and its clock precedes all |
| ThreadInvariant.InboundSourcesAre | src/lib/email/conversations.ts:526-548 | an inbound merge absorbs only unassigned conversations of the same participant |
| ThreadInvariant.InboundParentIs | src/lib/email/conversations.ts:410-416 | the parent is the stored message with the effective parent's Message-ID, if the sender has one |
| ThreadInvariant.AttachShape | src/lib/email/conversations.ts:537-635 | every row after a merge, insert and link: who moved, who was linked, who is untouched |
| ThreadInvariant.InboundKeepsSound | src/lib/email/conversations.ts:370-658 | the inbound projection keeps the invariant of the thread tables, and the conversation it stores into has the right last-message time whatever it had before |
| ThreadInvariant.RecordKeepsSound | src/lib/email/conversations.ts:226-330 | so does recording a Message-ID |
| ThreadInvariant.OpenKeepsSound | src/lib/conversation-v2.ts:128-191 | opening a topic keeps it, for any time the request took before |
| ThreadInvariant.ReopenKeepsSound | src/lib/conversation-v2.ts:346-433 | reopening keeps it although it rewrites the participant (every message there is FAILED), except that a request older than one of these messages may leave the last-message time of this conversation too early |
| ThreadInvariant.ReopenedLastIsLatestIff | src/lib/conversation-v2.ts:374-388 | after a reopening the last-message time is that of the latest message if and only if no failed message there is later than the request |
| ThreadInvariant.ReplyKeepsSound | src/lib/conversation-v2.ts:541-632 | a reply keeps it, for any time the request took before: the last-message time only moves forward |
| ThreadInvariant.SettleKeepsSound | src/lib/conversation-service.ts:46-75 | the outcome of a send keeps it |
| ThreadInvariant.StepKeepsSound | src/lib/email/conversations.ts:226-658 | every step keeps: parents in the same conversation with the In-Reply-To's Message-ID, senders equal participants, unique tokens, printed addresses owned, no conversation empty, last-message times the latest wherever they were; only a backdated reopening can spoil one |
| ThreadInvariant.StepKeepsValid | src/lib/email/conversations.ts:226-658 | with last-message times no later than the latest message, every step keeps all of it without exception |
| ThreadInvariant.RunKeepsValid | src/lib/email/conversations.ts:226-658 | that invariant holds in every reachable state |
| ThreadInvariant.LastMessageIsLatest | src/lib/conversation-v2.ts:374-388 | in every reachable state the last-message time is that of the latest message, unless a backdated reopening of this conversation came before |
| ThreadHistory.StepEvolves | src/lib/email/conversations.ts:54-115 | one step takes back nothing that was stored, fixed or joined |
| ThreadHistory.RunEvolves | src/lib/email/conversations.ts:54-115 | over any run no message or alias is lost, a topic-assigned conversation is never absorbed, and base, topic, parent link, Message-ID and V2 stay once set |
| ThreadHistory.ParentReadStaysValid | src/lib/conversation-v2.ts:504-541 | a reply parent read before the transaction is still valid in it |
| ThreadHistory.RepeatedMailChangesNothing | src/lib/email/conversations.ts:381-392 | a second arrival of an email or of its Message-ID changes nothing |
| ThreadHistory.EmittedAddressResolves | src/lib/email/conversations.ts:486-509 | the address printed on a stored message resolves to exactly the conversation that holds it, whatever the configured base |
| ThreadHistory.AddressesKeepResolving | src/lib/email/conversations.ts:70-115 | every address ever emitted keeps resolving to the conversation that holds its message by then, through merges, reopening and assignment |
| ThreadHistory.TerminatedIsAbsorbing | src/lib/email/conversation-state.ts:57-76 | a message in a TERMINATED conversation stays in one under all automatic steps and merges |
| ThreadHistory.WaitClockNeverRestarts | src/lib/email/conversation-state.ts:12-33 | while the state of a message's conversation persists its timestamp never moves forward |
| ThreadConvergence.UpperBoundKept | src/lib/email/conversations.ts:537-567 | a merge puts only mail connected by replies into one conversation |
| ThreadConvergence.LowerBoundKept | src/lib/email/conversations.ts:617-624 | a reply to a known mail is in its conversation and linked to it |
| ThreadConvergence.OneTopicKept | src/lib/email/conversations.ts:450-458 | at most one topic-assigned conversation per component, in all states |
| ThreadConfluence.ReceiveJoins | src/lib/email/conversations.ts:394-624 | receiving a mail joins its parent, its stored ancestors and the replies that wait for it |
| ThreadConfluence.RecordJoins | src/lib/email/conversations.ts:252-309 | a recorded Message-ID joins the replies that wait for it |
| ThreadConfluence.DeliveryKeepsBetween | src/lib/email/conversations.ts:226-658 | a delivery keeps both bounds and puts its mail on record |
| ThreadConfluence.RunKeepsBetween | src/lib/email/conversations.ts:226-658 | both bounds hold at every moment of a run of deliveries |
| ThreadConfluence.ConversationsAreComponents | src/lib/email/conversations.ts:394-567 | once all mail has arrived the conversations are the connected components of the reply relation (section 3.6.4 of RFC 5322) |
| ThreadConfluence.ParentsAreLinked | src/lib/email/conversations.ts:617-624 | once all mail has arrived every reply is linked to its parent if that is one of the mails and to nothing otherwise |
| ThreadConfluence.DraftIsWith | src/lib/email/conversations.ts:537-567 | once all mail has arrived a conversation holds, besides its component, exactly the unsent messages that stood with mail of the component at the start |
| ThreadConfluence.LastIsLatest | src/lib/email/conversations.ts:626-635 | once all mail has arrived the last-message time is the latest among the mail of the component and those unsent messages |
| ThreadConfluence.DeliveriesConverge | src/lib/email/conversations.ts:226-658 | for one participant's mail without routing candidates, at most one topic-assigned conversation per component (holding the sent mail whose Message-ID is still unknown) and references drawn from the component, any two orders of arrival with any repetitions, even from different stores, end in the same partition and the same links; the reply relation may be cyclic |
| ThreadConfluence.LastMessagesConverge | src/lib/email/conversations.ts:626-635 | two such deliveries from one store, or from any two without unsent messages, end in the same last-message times |
| ThreadConfluence.RecordJoinsReplyIff | src/lib/email/conversations.ts:262-314 | a waiting reply is brought together with the recorded mail if and only if it is there already or its conversation has no topic |
| ThreadExamples.AssignedReplyStaysApart | src/lib/email/conversations.ts:262-314 | a run from the empty store, for any mail that fits: received, replied to, the reply accepted, its answer received and given a topic, then the Message-ID recorded; the answer stays in another conversation without a parent |
| ThreadExamples.ReopeningMaySetBack | src/lib/conversation-v2.ts:374-388 | a run from the empty store after which the last-message time of a topic is before its latest message |
| ThreadStore.OrderDoesNotMatter | src/lib/email/conversations.ts:245-327 | row first, links before the deletion: the result is that of merge, store, link |
| ThreadStore.ThreadTables.PreserveAliases | src/lib/email/conversations.ts:70-86 | aliases follow their conversation; source pairs are added unless taken |
| ThreadStore.ThreadTables.PreserveMergedConversationState | src/lib/email/conversations.ts:54-115 | the statements produce the specified alias table and surviving row |
| ThreadStore.ThreadTables.LatestEmail | src/lib/email/conversations.ts:626-629 | the aggregate is the latest creation time in the conversation, if it has a message |
| ThreadStore.ThreadTables.ForeignUnassigned | src/lib/email/conversations.ts:526-536 | the Set built from the rows is the source list of the specification |
| ThreadStore.ThreadTables.ApplyAutomatic | src/lib/email/conversation-state.ts:17-33 | the guarded UPDATE is the automatic transition |
| ThreadStore.ThreadTables.ProjectInboundEmail | src/lib/email/conversations.ts:333-658 | the transaction is the receiving step, returns the stored message, and keeps the invariant |
| ThreadStore.ThreadTables.RecordOutboundInternetMessageId | src/lib/email/conversations.ts:226-330 | the transaction is the recording step; it refuses an inbound message and a taken Message-ID without effect |
| ThreadStore.ThreadTables.ReopenFailedConversation | src/lib/conversation-v2.ts:324-434 | reopens if and only if the base fits and every message failed, with the time that the request took before |
| ThreadStore.ThreadTables.CreateConversationV2 | src/lib/conversation-v2.ts:78-288 | a free topic is opened; the holder of a taken one is reopened or the request conflicts |
| ThreadStore.ThreadTables.CreateMessageV2 | src/lib/conversation-v2.ts:436-632 | the transaction is the reply step |
| Provider.ProcessKeepsSentOnce | tests/fake-resend-server.ts:181-206 | an honest submission sends nothing twice, is no conflict, and is answered with the ids on record |
| Provider.ResubmissionIsSafeIff | tests/fake-resend-server.ts:181-206 | resubmitting is safe if and only if the provider still remembers the key |
| SendingInvariant.PruningRemovesNothing | src/lib/outbox-service.ts:103-109 | the clean-up before a claim never removes anything |
| SendingInvariant.ReclaimedRosterIsFrozen | src/lib/outbox-service.ts:161-182 | every claim of a batch reads the member list that the first claim froze |
| SendingInvariant.OwnedArePending | src/lib/outbox-service.ts:186-191 | the members of a live claim are all PENDING |
| SendingInvariant.SubmissionIsHonest | src/lib/outbox-service.ts:47-61 | 23 hours to the claim and one hour from its clock reading to the arrival stay within retention, and the payload under a key never changes |
| SendingInvariant.SlotIsOver | src/lib/outbox-service.ts:286-298 | a job due again has waited 60 s after the first and 120 s after each later attempt |
| SendingInvariant.CompletedIs | src/lib/outbox-service.ts:202-335 | what a finalizing transaction does to every table, row by row |
| SendingInvariant.AcceptedIdIsSent | src/lib/outbox-service.ts:209-224 | the id stored for a member is the one under which the provider sent that member |
| SendingInvariant.StepKeepsValid | src/lib/outbox-service.ts:39-379 | every step of the three lanes and the provider keeps the invariant |
| SendingSafety.NothingIsSentTwice | src/lib/outbox-service.ts:39-92 | for every interleaving in all three lanes the provider sends no message twice and reports no changed payload |
| SendingSafety.StoredIdIsTheOneSent | src/lib/outbox-service.ts:209-224 | a stored provider id is the only one under which the message was ever sent |
| SendingSafety.StaleWorkerChangesNothing | src/lib/outbox-service.ts:356-379 | a worker whose token was replaced changes nothing |
| SendingSafety.StaleStaysStale | src/lib/outbox-service.ts:98-100 | a lost lease is lost for good |
| SendingSafety.QueuedMessageFinishesOnce | src/lib/outbox-service.ts:207-268 | a queued message leaves PENDING only in the owner's transaction, which removes its row, for exactly one of three outcomes |
| SendingSafety.FailedMeansRefused | src/lib/outbox-service.ts:78-91 | a queued message becomes FAILED only on a definite refusal by the provider: never on a lost or unusable answer, a server error, a rate limit, a concurrent request or a changed payload |
| SendingSafety.OutcomeIsFinal | src/lib/attachment-outbox-service.ts:182-218 | the outcome of a queued message never changes |
| SendingSafety.LiveClaimIsPending | src/lib/outbox-service.ts:186-191 | the invalid-state error is unreachable in every run |
| SendingSafety.SubmissionsAreBounded | src/lib/outbox-service.ts:47-53 | at most 691 requests are ever made under one key |
| SendingSafety.ClaimsAreSpaced | src/lib/outbox-service.ts:111-119 | any later claim of a job comes at least 60 s after its first and 120 s after any other claim, whether the retry ladder or the lease ended that claim |
| SendingSafety.LateClaimIsTerminal | src/lib/attachment-outbox-service.ts:67-75 | a repeated claim after the window can only give up |
| SendingSafety.GivingUpEnds | src/lib/outbox-service.ts:318-335 | giving up marks every member INDETERMINATE and removes the row |
| SendingSafety.RosterNeverChanges | src/lib/outbox-service.ts:142-159 | the members under a key and their order never change |
| SendingSafety.MessageIsUnderOneKey | src/lib/outbox-service.ts:142-159 | a message joins at most one batch ever and is only ever submitted under one key |
| SendingSafety.PositionsFollowTheQueue | src/lib/outbox-service.ts:122-159 | in every run a live batch occupies the positions 0, 1, ... without gaps, all its messages PENDING, and the members of every batch stand in the order queued_at, message_id |
| SendingSafety.NoBatchPassesOver | src/lib/outbox-service.ts:122-131 | in every run each message of a new batch comes, in the order queued_at, message_id, before every message left waiting at that time |
| SendingSafety.BatchesAreFifoIff | src/lib/outbox-service.ts:122-131 | throughout a run no message waits while a later one was already batched, if and only if no message became visible after a batch with a later one had been cut |
| SendingSafety.MessageMayBePassed | prisma/migrations/20260720000000_add_email_outbox/migration.sql:18-23 | a run from the start in which a message stamped earlier becomes visible after such a batch |
| SendingSafety.SyncOutcomeIsFinal | src/lib/conversation-service.ts:24-77 | whichever outcome a synchronous message has, it never changes in a run from where no delivery of it is in progress |
| SendingSafety.SyncOutcomeIsFinalIff | src/lib/conversation-service.ts:24-152 | a finished synchronous message keeps its row in every continuation if and only if no delivery holds its lock |
| SendingSafety.GivenUpMayStillBeAccepted | src/lib/conversation-service.ts:124-152 | a run in which INDETERMINATE is overwritten by ACCEPTED |
| SendingSteps.OwnerSettles | src/lib/outbox-service.ts:62-91 | what the owner of a job does, answer by answer: an error response below 500 that is no plain rate limit, concurrent request or changed payload leaves every member FAILED and the row gone; a changed payload, or an open answer 23 hours after the first attempt, leaves them INDETERMINATE; usable ids leave them ACCEPTED in order; any other answer changes no message and makes the job due again after 1, 2 or 5 minutes |
| SendingSteps.DecisionIs | src/lib/outbox-service.ts:381-399 | each of the four decisions if and only if, in statuses, codes and milliseconds |
| SendingSteps.MaySubmitIff | src/lib/outbox-service.ts:47-53 | a claimed job may be sent if and only if it is the first attempt or less than 23 hours after it, and is given up if and only if not; a synchronous message if and only if it is PENDING and its lock is free |
| SendingSteps.MayOpenIff | src/lib/outbox-service.ts:111-136 | a batch may be opened if and only if no batch is due, from the waiting messages that come first in the order queued_at, message_id: as many as the limit or all there are |
| SendingSteps.OpenedIs | src/lib/outbox-service.ts:142-159 | its messages take the positions 0, 1, ... in that order and its row is leased for two minutes; no other entry changes |
| SendingSteps.MayReclaimIff | src/lib/attachment-outbox-service.ts:139-152 | a job may be claimed again if and only if it is due, not leased, and comes first of these in its lane: of batches the one due first, of attachment entries the one queued first, of equal ones the one with the smaller id |
| SendingSteps.ReclaimedIs | src/lib/outbox-service.ts:161-172 | it is then leased for two minutes as the next attempt, and keeps the time of its first one; nothing else changes |
| SendingSteps.QueuedIs | src/lib/attachments/claim.ts:122-129 | a queued message is PENDING and due at once in the table of its lane |
| SendingSteps.IntendedIs | src/lib/conversation-v2.ts:280-320 | a message of the synchronous lane is stored as PENDING in no outbox table, and its delivery begins |
| SendingSteps.SyncSettlementIs | src/lib/conversation-service.ts:36-73 | a synchronous delivery stores the provider's id on success, FAILED if and only if an error response or a missing API key was seen, INDETERMINATE if and only if nothing conclusive was, changes no other row, and gives up its lock |
| SendingSteps.RecoveryIs | src/lib/conversation-service.ts:128-152 | recovery leaves a settled message alone, gives up a PENDING one 23 hours after its creation, and delivers any other again |
| OutboxStore.OutboxTables.CreateQueued | src/lib/attachments/claim.ts:122-129 | queueing is the step of the machine that creates the entry of exactly one lane, and keeps its invariant |
| OutboxStore.OutboxTables.AssignSlots | src/lib/outbox-service.ts:143-159 | the picked messages get the positions of their order |
| OutboxStore.OutboxTables.ClaimRows | src/lib/outbox-service.ts:102-183 | the statements lease the due batch, or open one from the queue head, or claim nothing |
| OutboxStore.OutboxTables.ClaimOutboxBatch | src/lib/outbox-service.ts:94-200 | the transaction is the claiming step and keeps the invariant; the check of the claimed batch never fails |
| OutboxStore.OutboxTables.ClaimEntry | src/lib/attachment-outbox-service.ts:128-180 | the transaction is the claiming step of the attachment lane, and keeps the invariant |
| OutboxStore.OutboxTables.CountPending | src/lib/outbox-service.ts:209-227 | the update count tells whether all members are PENDING |
| OutboxStore.OutboxTables.FinalizeAccepted | src/lib/outbox-service.ts:202-233 | ids go to the members by position, or nothing changes |
| OutboxStore.OutboxTables.Finalize | src/lib/attachment-outbox-service.ts:205-218 | the PENDING members get the state and the row goes, or nothing changes |
| OutboxStore.OutboxTables.ScheduleRetry | src/lib/outbox-service.ts:286-301 | the lease is released and the ladder's delay added, or nothing changes |
| OutboxStore.OutboxTables.HandleAnswer | src/lib/outbox-service.ts:64-91 | the branches after a request do what the decision table says; nothing is rescheduled after the window |
| OutboxStore.OutboxTables.BeginDelivery | src/lib/attachment-outbox-service.ts:67-75 | a late repeated claim gives up without a request, any other sends: each is the step of the machine and keeps the invariant |
| OutboxStore.OutboxTables.EndDelivery | src/lib/attachment-outbox-service.ts:77-126 | what the worker saw, whoever acted meanwhile, is settled as the step of the machine, which keeps the invariant; it fails exactly when the lease is lost |
| EventFeed.StepKeepsValid | src/lib/conversation-event-runtime.ts:281-365 | every step keeps the numbering and the order of the stream |
| EventFeed.OrderSurvivesDuplicates | src/lib/conversation-event-runtime.ts:297-330 | dropping repeated ids from the stream leaves exactly the sequences 1..k of a conversation in order |
| EventFeed.PublishedMeansComplete | src/lib/conversation-event-runtime.ts:334-348 | once every delivery is marked published the consumer has seen every sequence |
| EventFeed.PublishedStaysPublished | src/lib/conversation-event-runtime.ts:83-113 | a delivery marked published was published at least once and stays marked |
| EventFeed.StaleWorkerChangesNothing | src/lib/conversation-event-runtime.ts:334-365 | an acknowledgement or retry under a replaced token changes nothing |
| EventFeed.ClaimsAreExclusive | src/lib/conversation-event-runtime.ts:285-332 | of two claims that share an event the later reads its clock at least 30 s after the earlier, unless the first worker rescheduled the event in between (an acknowledged one is never claimed again) |
| EventFeed.ClaimedIs | src/lib/conversation-event-runtime.ts:297-330 | a claim takes at most 50 unpublished, due and unleased deliveries, each the oldest unpublished one of its conversation, leases them for 30 s and counts an attempt; no other delivery changes |
| EventFeed.AppendedIs | src/lib/conversation-events.ts:87-138 | an event gets the next number of its conversation, from 1, and a delivery that is due at once |
| EventFeed.AcknowledgedIs | src/lib/conversation-event-runtime.ts:339-347 | the owner's acknowledgement marks its delivery published, frees it and changes nothing else |
| EventFeed.RetriedIs | src/lib/conversation-event-runtime.ts:356-369 | the owner's retry frees its delivery, due again after 1, 5, 30, 120 or 300 s, and changes nothing else |
| EventStore.EventTables.AppendConversationEvent | src/lib/conversation-events.ts:67-140 | one number and one delivery per event; no sink, no number |
| EventStore.EventTables.LeaseRows | src/lib/conversation-event-runtime.ts:316-330 | the rows are leased one by one and returned with their attempt numbers |
| EventStore.EventTables.ClaimDeliveries | src/lib/conversation-event-runtime.ts:281-332 | the transaction is the claiming step |
| EventStore.EventTables.AcknowledgeDelivery | src/lib/conversation-event-runtime.ts:334-348 | the guarded update is the acknowledging step |
| EventStore.EventTables.RetryDelivery | src/lib/conversation-event-runtime.ts:350-370 | the guarded update is the retrying step with the ladder's delay |
| EventStore.ConversationEventRuntime.PublishAll | src/lib/conversation-event-runtime.ts:92-103 | with no other runtime acting meanwhile, each claimed delivery in claim order ends published, rescheduled or still leased as its publication, acknowledgement and rescheduling succeed or throw, with or without effect; a rescheduling that throws ends the loop |
| EventStore.ConversationEventRuntime.Drain | src/lib/conversation-event-runtime.ts:83-113 | a stopped or busy runtime does nothing; afterwards it is healthy if and only if neither the claim nor any publication, acknowledgement or rescheduling failed |
| Intents.KeyNamesOneMessage | src/lib/conversation-v2.ts:97-119 | over any interleaving an idempotency key names at most one message, created at most once, for one request |
| Intents.ReplayReturnsOrRejects | src/lib/conversation-v2.ts:464-486 | a request under a taken key creates and moves nothing, and gets the message exactly when it is the request that created it (for a reply: still in that conversation) |
| Intents.LaneIsFixed | src/lib/attachments/claim.ts:122-129 | the lane of a message is decided at creation; it is queued in no other |
| Intents.RecoveryIsSynchronous | src/lib/direct-email-v2.ts:104-121 | recovery is only ever tried for a message of the synchronous lane |
| Intents.CreatedIs | src/lib/attachments/claim.ts:122-129 | a free key creates one message of the kind and conversation of the request, queued with attachments in the one table, without in the other, and unqueued in neither |
| Intents.RecoversIff | src/lib/conversation-v2.ts:104-119 | a repeated request goes on to recovery if and only if it gets its message again and is synchronous |

## Left out

- Conversation DELETE: its cascade can shrink a live batch and purge events; none of the promises above is made across it.
- Isolation below the transaction: advisory locks, row locks, SKIP LOCKED and Serializable are taken to make transactions atomic. In particular a claim that holds queue rows locked and then aborts is not seen by others.
- Advisory-lock hash collisions and the retry loop for serialization failures.
- Lower-casing covers ASCII letters only; addresses are validated to be ASCII where they are printed.
- Direct email rows in the thread tables: they belong to no conversation.
- Subjects, titles, names, bodies, tags and the MIME header parser; an email enters with its headers extracted.
- The provider calls in `hydrateReferencedOutboundMessages` and `ensureInternetMessageId`: only their effect, the recording step, is modelled. The provider is assumed to report one Message-ID per email.
- Conversations of API version V1 occur only in the initial store, which may be any valid one. Valid includes that every printed Reply-To address belongs to its conversation by the stored base or an alias; this excludes a legacy conversation without a base whose addresses were printed from the configured base.
- The payload of a message is a fixed function of its row and stored attachments; it is represented by the message itself.
- SHA-256 is an injective function, and generated UUIDs are fresh values.
- Arrival of a request more than one hour after its claim; the 15 s client timeout makes the worker give up earlier but not the network.
- Drain totals and the loop of `drainAttachmentOutbox`: one claim and its delivery at a time.
- Sinks other than one; the order in which `claimDeliveries` prefers claimable rows.
- The rows of the event tables inside the thread transactions, HTTP routing, authentication, validation, telemetry, attachment ingest.
- Acyclicity of parent links (a self or cyclic In-Reply-To is linked as given), and independence of `stateChangedAt`, surviving ids and titles from the order of arrival: not true of the code.
- EventStore.ConversationEventRuntime.PublishAll: no other runtime acts between the claim and the end of the loop; what holds when others do is stated for the steps of the event feed.
- Clocks that differ between the service and the database.
