# The durable inbox and outbox of a2hmarket-cli

This project models the part of a2hmarket-cli that must not lose, repeat or misroute a message: the
SQLite event store, the three outbox flushers, the reply-route table, the message intake, and the
canonical envelope codec that signing rests on. `dafny verify dfyconfig.toml` checks all of it.

## How it is built

- **Tables** (`Tables.dfy`) has the six tables as values and one function per SQL statement or
  transaction. Ids come from an AUTOINCREMENT counter that may skip values; nothing is deleted.
- **System** (`System.dfy`) is the running system: database, clock, and three flushers, each working from
  the snapshot its listing took. A run is any sequence of labels: a store call by a message handler
  or an inbox command, one step of a flusher, the passing of time, or the death of the listener
  process between any two steps. A store call of a handler or a command is one step, whether or not
  the code runs it in a transaction. The flushers' writes are split where the code has no
  transaction: a crash, or anybody's step, can fall between the row and the event of a push mark,
  between the SENT update of an a2a row and the bind of its route, between marking a push in
  flight and sending it, and between a delivery and its mark. Delivery results are arbitrary.
  Logs of what was delivered, and of what a crash interrupted, are kept beside the tables for the
  theorems to speak of.
- **Store** (`Store.dfy`) is the class `EventStore`, one method per store call, proved to do exactly what
  the table functions say, and, in the columns of the tables, what that is; `InsertIncomingEvent` rolls
  back explicitly. **Dispatchers**, **MediaFlush** and **PushFlush** hold the flush loops as they are executed,
  **Commands** the message handler and the inbox commands. Every flush loop returns the labels of a run
  that ends in the very state the loop leaves, so what is proved of runs holds of the loops,
  whatever others write to the store meanwhile. What a flush does is also said outright, row by row,
  from an arbitrary `world` of outcomes and cancellations (`Batches.dfy` has the shape).
- The remaining files hold the theorems, one subject each. Invariants are proved step by step
  and hold in every state reachable from an empty database. All inductions are written out; no
  lemma relies on automatic induction.

The codec (`Canonical.dfy`, `Envelope.dfy`, `Signing.dfy`) prints JSON trees of any depth. Its texts are pinned
character by character (`WireText.dfy`, `EnvelopeText.dfy`), and its reader by a grammar (`JsonGrammar.dfy`). The
reader is defined beside the printer (objects, arrays, numbers and strings as in sections 4
to 7 of RFC 8259, strings escaped as Go does, including `<`, `>`, `&`, U+2028 and U+2029). It is not
RFC 8785. A number is the text it is printed as; decoding it to float64 and printing it again is
an uninterpreted function on such texts, and a payload is `Stable` when that function changes none of its
numbers. SHA-256 and HMAC are uninterpreted; where a theorem needs them collision-free it says so.

## What is not as documented

The model follows the code.

- The first delay is 2000 ms, doubled per attempt, without jitter (internal/dispatcher/backoff.go:8);
  docs/architecture.md:132 says otherwise.
- Exhausted a2a rows are skipped but never marked FAILED (internal/dispatcher/a2a_outbox.go:57). They stay due
  and keep their place in the listing, so a batch of them blocks every later row for good:
  `BlockedForever`, `FirstLiveRowIsTriedIff` for exactly when, and `BlockingIsReachable` for a run that
  gets there under every retry limit.
- A failed push leaves its event PUSHED (internal/store/push_outbox.go:156).
- Phase 1 of a push flush acknowledges every SENT row, including one whose delivery a crash cut off:
  `CrashLosesDelivery` gives the run, `AckedUndeliveredIffCut` the exact condition.
- `MarkPushSent` and `MarkPushAcked` are two updates without a transaction. A death between them tears the
  row from its event: `CrashTearsInFlightMark` and `CrashTearsAckMark` give the runs, `EventAndPushAgree` says
  that nothing else does, and `OnlyAnAckRepairs` that an event left PUSHED under an ACKED row stays so
  unless somebody acks it.
- A peer bind reads and upserts without a transaction. Of two at once, the one that writes first can be
  lost: `RaceIsSerialIff` says exactly when.
- The push statistics count failed deliveries as sent, and `Retried` stays 0.
- Peer bindings with a missing field do not converge: `ConvergesIffComplete` says exactly which do.
- A payload number that float64 changes makes the signed envelope fail verification on arrival:
  `SignedEnvelopeSurvivesTransport` is an equivalence.
- The deduplication hash is taken over the message id, and the signature over the whole canonical
  envelope; docs/architecture.md describes both differently.

## Model

| member | source | states |
|---|---|---|
| Canonical.CanonicalText | internal/protocol/a2a.go:159-197 | filling slices and sorting keys in place yields the one canonical text of the tree, whatever order the map is iterated in |
| WireText.StringText | internal/protocol/a2a.go:172-174 | a string is printed between quotes, each character in its one spelling: a two-character escape, four lower-case hex digits for the other control characters and for <, >, &, U+2028 and U+2029, and else itself |
| WireText.CanonicalIsClean | internal/protocol/a2a.go:159-197 | no character of a canonical text, keys included, is a control character, <, >, &, U+2028 or U+2029 |
| WireText.ObjectIsMembers | internal/protocol/a2a.go:181-193 | an object is its members in the one ascending order of keys, each its key as a string, a colon and its value |
| WireText.LessIff | internal/protocol/a2a.go:186 | that order: the smaller code point where two keys first differ, and a proper prefix first |
| JsonGrammar.ParseIff | internal/protocol/a2a.go:144-150 | a text is read as a value exactly when the grammar writes it and it means that value, the last of equal keys counting |
| WireText.StringReadsIff | internal/protocol/a2a.go:144-150 | what stands between quotes is read as a string exactly when it spells it, in any of the spellings of section 7 of RFC 8259 |
| WireText.NumbersAreLiterals | internal/protocol/a2a.go:144-150 | every number of section 6 of RFC 8259 is read as a number |
| KeyOrder.SortStrings | internal/protocol/a2a.go:181-187 | the keys come out ascending and are the keys that went in |
| Canonical.ParseInvertsCanonicalize | internal/protocol/a2a.go:159-197 | reading a canonical text gives the tree back, up to what float64 does to its numbers; any depth, any strings |
| Canonical.CanonicalTextIdentifies | internal/protocol/a2a.go:153-197 | two trees have the same canonical text exactly when they are equal, which is what signing a text relies on |
| Canonical.ParseInvertsPrintObject | internal/protocol/a2a.go:201-206 | an object printed in any member order, such as struct order, reads back to the same object |
| Canonical.StableIffUnchanged | internal/protocol/a2a.go:201-206 | a decode changes a tree exactly when it changes one of its numbers |
| Envelopes.MarshalledReads | internal/protocol/a2a.go:145-151 | a marshalled envelope parses, as a struct and as a generic map, to the same envelope with settled numbers |
| Envelopes.StructReadsIff | internal/protocol/a2a.go:144-150 | an object is read as an envelope exactly when every field can hold what stands under its name, and then holds it; null and missing leave the zero value |
| EnvelopeText.MarshalledText | internal/protocol/a2a.go:30-43 | the published text: twelve named fields in the order of the struct, a nil payload as null |
| EnvelopeText.SignedText | internal/protocol/a2a.go:201-216 | the signed text: every field but the signature, in the order of the names |
| EnvelopeText.SignatureText | internal/protocol/a2a.go:84-91 | the signature is the HMAC of that text and nothing else changes |
| Envelopes.OutboxIsTransparent | internal/dispatcher/a2a_outbox.go:94-107 | store, reload into a map, re-marshal and publish is invisible to the receiver |
| Envelopes.SignedEnvelopeSurvivesTransport | internal/protocol/a2a.go:46-141 | an envelope built, signed and sent directly or through the outbox verifies exactly when sender and type are set, the clock is within tolerance and float64 keeps the payload's numbers |
| Envelopes.SettledSignedVerifies | internal/protocol/a2a.go:104-141 | the receiver's verdict on any signed envelope, as an equivalence over all its checks |
| Envelopes.SignatureSurvives | internal/protocol/a2a.go:210-216 | the HMAC of an envelope is the HMAC of what arrives |
| Envelopes.SignatureBindsEnvelope | internal/protocol/a2a.go:104-141 | without collisions, two envelopes accepted under one key with one signature are equal in every field |
| Signing.MarshalText | internal/protocol/a2a.go:30-43 | struct fields in declaration order, nested maps in key order |
| Signing.MapOf | internal/protocol/a2a.go:201-208 | the JSON round trip into a map, without the signature |
| Signing.BuildEnvelope | internal/protocol/a2a.go:46-80 | a nil payload becomes an empty one and the hash is taken of the canonical payload |
| Signing.SignEnvelope | internal/protocol/a2a.go:84-91 | the copy carries the HMAC of the unsigned envelope |
| Signing.VerifyEnvelope | internal/protocol/a2a.go:104-141 | the executed checks, in order, give the verdict the theorems speak of |
| Backoff.CalculateBackoffMs | internal/dispatcher/backoff.go:15-28 | the float64 doubling loop returns min(2000 * 2^(attempt-1), cap) exactly, with no rounding and no overflow, for every attempt and every cap up to 2000 * 2^52 |
| Backoff.BaseShiftIsExact | internal/dispatcher/backoff.go:21 | 2000 * 2^k is a float64 for every k |
| Backoff.LargestCapIsSharp | internal/dispatcher/backoff.go:21 | above 2000 * 2^52 the doubling leaves int64, so the cap in the contract is the largest possible |
| Sessions.ResolvePushSession | internal/openclaw/session.go:117-170 | the three scans find the first feishu-then-recency maximum, else the first most recent non-main session, else the first usable one |
| Sessions.ChoiceIsDetermined | internal/openclaw/session.go:112-170 | that description leaves no freedom; the choice has a non-blank session id and is missing exactly when no session has one |
| Sessions.BestChannelMeans | internal/openclaw/session.go:122-144 | the best channel session by the columns of the list: a channel and a target in its key, feishu before others, then the more recent, then the earlier |
| Sessions.BestNonMainMeans | internal/openclaw/session.go:146-160 | the best of the others likewise: not the main session, with an id that is not blank, the most recent such and of those the first |
| Sessions.KeyParses | internal/openclaw/session.go:185-194 | a key of four parts without colons and a target names its third part and that target |
| Sessions.NamingKeysParse | internal/openclaw/session.go:185-194 | and a key that names anything has that form |
| Sessions.SpacesAre | internal/openclaw/session.go:142-164 | what trimming removes is the 25 code points with the property White_Space |
| Sessions.ParsedKeyRebuilds | internal/openclaw/session.go:181-194 | a key that parses is its parts joined again, the target keeping its own colons |
| Preview.NormalizeWS | internal/a2a/message.go:32-51 | the flag-driven loop squeezes every run of white space to one space |
| Preview.SqueezedIsClean | internal/a2a/message.go:32-51 | the result has single spaces only and all letters, in order |
| Preview.PreviewIsStable | internal/a2a/message.go:15-30 | a preview is one trimmed line within its limit, and previewing it again changes nothing |
| Preview.PreviewShows | internal/a2a/message.go:15-30 | it is the trimmed line if that fits, and else its front and three dots, exactly filling the limit |
| Preview.TrimTakesEnds | internal/a2a/message.go:20 | trimming takes white space off both ends and nothing else |
| Tables.Query | internal/store/a2a_outbox.go:112-142 | the row loop collects the first hits in id order, up to the limit |
| Schema.RunKeepsWf | internal/store/schema.go:14-117 | every run keeps keys unique and ascending, push rows and acks attached to events, and rows and recorded acks in place |
| Indexes.RunKeepsIndexes | internal/store/schema.go:14-73 | the unique indexes, checked only on insert, hold in every run: no later update brings two rows into conflict |
| PushDelivery.CleanupListsAllSent | internal/store/push_outbox.go:26-34 | with at most a batch of SENT rows, neither the limit nor the join drops one from the cleanup listing |
| PushDelivery.RunPushSteady | internal/dispatcher/push_outbox.go:37-113 | every step keeps the flusher's snapshot true, the delivery accounts balanced and the SENT rows bounded |
| PushDelivery.PushDeliveryAccounting | internal/dispatcher/push_outbox.go:47-168 | in every reachable state no row was delivered twice; between flushes successes and failures are what status and attempt say, up to deliveries cut by crashes |
| PushDelivery.CrashFreeAccounting | internal/dispatcher/push_outbox.go:47-168 | without crashes: delivered once exactly when SENT or ACKED, and attempt counts the failures |
| PushDelivery.AckedUndeliveredIffCut | internal/dispatcher/push_outbox.go:47-64 | a row is ACKED without a delivery exactly when a crash cut its delivery |
| PushDelivery.CrashLosesDelivery | internal/dispatcher/push_outbox.go:47-64 | for any first message, a run in which this happens and the event ends CONSUMED with no ack |
| PushDelivery.InFlightIsBounded | internal/dispatcher/push_outbox.go:47-113 | at most a batch of rows is ever SENT, and phase 1 leaves none |
| EventStates.EventAndPushAgree | internal/store/push_outbox.go:132-161 | in every reachable state, crashes between any two updates included, each event whose mark is neither under way nor torn agrees with its acks and push row: NEW exactly when neither acked nor picked up, PUSHED only over SENT or RETRY, CONSUMED only with an ack or an ACKED row; any other is at most one mark behind |
| EventStates.RunJoint | internal/store/ack.go:76-107 | handlers, ackers, the flusher and its deaths keep that, with the torn rows logged, from any state that has it |
| EventStates.CrashFreeAgreement | internal/store/push_outbox.go:132-161 | without crashes every event agrees whenever no mark is half done |
| TornMarks.CrashTearsInFlightMark | internal/store/push_outbox.go:132-141 | for any first message, a run that ends with its row SENT over a NEW event |
| TornMarks.CrashTearsAckMark | internal/store/push_outbox.go:144-153 | and one that delivers it and ends with its row ACKED over a PUSHED event and no ack |
| TornMarks.OnlyAnAckRepairs | internal/store/push_outbox.go:144-153 | the event of an ACKED row no longer being marked becomes CONSUMED exactly in the runs that ack it, and otherwise keeps its state |
| EventStates.NewEventIsUntouched | internal/store/event.go:97-158 | an event id new to the store has neither a push row nor an ack |
| PushTargets.OnlyDeliveredAreTargeted | internal/dispatcher/push_outbox.go:138-149 | in every reachable state an event that carries a session has a push row that was delivered, since the handler stores none |
| A2ADelivery.A2AAccounting | internal/dispatcher/a2a_outbox.go:36-91 | publishes and decode failures of a row are its attempt counter plus one if SENT, plus those a crash left unmarked; the counter stays within MaxRetries |
| A2ADelivery.CrashFreeTries | internal/dispatcher/a2a_outbox.go:53-88 | without crashes a row gets at most MaxRetries tries |
| A2ADelivery.SentIsNeverRepublished | internal/store/a2a_outbox.go:19-37 | a SENT row stays SENT and is never tried again, in any run |
| A2AProgress.FlushTriesFirstDue | internal/dispatcher/a2a_outbox.go:36-91 | a whole flush tries each unexhausted row among the first due ones exactly once and changes no other row, whatever others do meanwhile |
| A2AProgress.FlushProgress | internal/dispatcher/a2a_outbox.go:53-88 | it lowers the tries owed by at least the rows it tries, and changes nothing if it tries none |
| A2AProgress.TriesIffReached | internal/store/a2a_outbox.go:19-25 | it tries something exactly when fewer than a batch of due rows precede the first live one |
| A2AProgress.ProgressWhileFewStuck | internal/dispatcher/a2a_outbox.go:55-61 | while fewer than a batch of due rows are exhausted, a flush with a live due row makes strict progress |
| A2AProgress.BlockedForever | internal/dispatcher/a2a_outbox.go:55-61 | behind a batch of exhausted due rows no row is ever tried or changed again, in any run |
| A2AProgress.FirstLiveRowIsTriedIff | internal/dispatcher/a2a_outbox.go:48-61 | a count decides whether the first live due row is tried by the next flush or by none of any run |
| A2ABlocking.BlockingIsReachable | internal/dispatcher/a2a_outbox.go:48-61 | for every retry limit and any batch of messages and one more, a run from the empty store to that blockage, with a live due row behind it that no continuation tries |
| A2AFifo.PublishedInOrder | internal/dispatcher/a2a_outbox.go:53-88 | while publishing works the publish log is the id column up to the last SENT row: strictly ascending, each once |
| A2AFifo.QueueDrains | internal/dispatcher/a2a_outbox.go:44-88 | n queued rows are all SENT after ceil(n / batch) whole flushes, with enqueues and cancelled flushes in between |
| A2ASpacing.RetriesAreSpaced | internal/dispatcher/a2a_outbox.go:64-82 | in every run, the (n+1)-th try of a row that no crash cut comes at least the sum of the first n backoffs after its first |
| MediaDelivery.MediaAccounting | internal/dispatcher/media_outbox.go:32-89 | PENDING means attempt 0, RETRY 1 up to MaxRetries - 1, FAILED exactly MaxRetries - 1; deliveries are counted exactly, up to those a crash left unmarked |
| MediaDelivery.MediaTriesAreBounded | internal/dispatcher/media_outbox.go:69-86 | without crashes a row gets at most MaxRetries deliveries, all of them if FAILED |
| MediaDelivery.MediaWorkIsBounded | internal/dispatcher/media_outbox.go:32-89 | deliveries made and still possible never exceed MaxRetries per queued row plus one per interrupted delivery; none is possible exactly when every row is SENT or FAILED |
| MediaDelivery.FlushDeliversBatch | internal/dispatcher/media_outbox.go:40-66 | a whole flush delivers the first due rows, each once, in id order |
| MediaDelivery.FlushPays | internal/dispatcher/media_outbox.go:49-87 | it lowers the deliveries still possible by at least the rows it delivers |
| MediaDrain.MediaDrains | internal/dispatcher/media_outbox.go:32-89 | every row queued in any reachable state is SENT or FAILED after MaxRetries rounds per batch of rows, a round being a pause of at least the longest delay, with anything in it, and a whole flush |
| Routes.BindPeerIsRebind | internal/store/peer_session.go:61-106 | a bind is one step of the peer's register and touches no other peer |
| Routes.UpdatedAtIsMax | internal/store/peer_session.go:75-102 | over any sequence of well-formed binds, updated_at is their maximum |
| Routes.RoutesOnlyAdvance | internal/store/peer_session.go:79-94 | a known session id or key is never erased and time never goes back |
| Routes.NewestWins | internal/store/peer_session.go:75-94 | the newest bind's fields win, its gaps filled from before it |
| Routes.ConvergesIffComplete | internal/store/peer_session.go:61-106 | binds with distinct times end in the same route for every permutation exactly when the newest has each field that any has |
| Routes.GapDiverges | internal/store/peer_session.go:79-94 | the two orders that differ when it does not |
| Routes.RaceIsSerialIff | internal/store/peer_session.go:61-106 | when a bind writes between the read and the write of another, the outcome is that of one order or the other, except when both are accepted and the overwritten one is newer, or as new and alone in knowing a field |
| ReplyRoutes.Latest | internal/store/peer_session.go:26-46 | the last sent row by creation time, then id |
| ReplyRoutes.LookupAnswers | internal/store/peer_session.go:26-46 | which level answers and with what, in columns: the newest SENT row to the peer in the trace that names a session, else the peer's bound session, else the newest such row of any trace, else nothing |
| ReplyRoutes.SentRowsHaveRoutes | internal/store/a2a_outbox.go:145-170 | in every reachable state a SENT row with target and session reference has a usable route at least as new as itself, unless its bind is next or was lost in a crash |
| ReplyRoutes.FallbackIsNeverReached | internal/store/peer_session.go:132-176 | without crashes and between binds, the peer-latest lookup never answers |
| ReplyRoutes.FallbackMeansLostBind | internal/store/peer_session.go:163-175 | when it does answer, a row sent to that peer lost its bind or is about to get it |
| ReplyRoutes.LookupAlwaysFinds | internal/store/peer_session.go:132-176 | once a row with a session reference is SENT to a peer, the lookup finds a session for it, whatever the trace and whatever crashed |
| Inbox.UnreadConservation | internal/store/ack.go:26-40 | unread plus acks make all events; PeekUnread, CheckStatus and an unlimited pull agree; the oldest time is the minimum over that pull |
| Inbox.UnlimitedPull | internal/store/event.go:24-31 | an unlimited pull from the start is exactly the unread events |
| Inbox.PullIsBatch | internal/store/event.go:24-40 | a pull holds only events past the cursor, not acked by the consumer and of the peer if one is named; in order, at most the limit, all of them up to where it stops, and all there are if it is not full |
| Inbox.PullIsGapless | internal/store/event.go:24-40 | a pull skips no matching unread event at or below its new cursor |
| Inbox.PullsLoseNothing | internal/store/event.go:218-258 | with anything interleaved, delivered sequence numbers strictly increase and every matching event between first and last cursor was delivered or already acked when passed; nothing else is delivered |
| Inbox.AckAgainChangesNothing | internal/store/ack.go:109-142 | a repeated ack reports the first time and changes neither acks nor routes |
| Inbox.OneFirstAck | internal/store/ack.go:76-142 | over any run exactly one ack of a (consumer, event) pair reports Inserted |
| Inbox.OneNotificationPerEvent | internal/store/media_outbox.go:76-98 | across all consumers and retries an event has at most one media row |
| Intake.AdmittedIff | internal/a2a/router.go:38-56 | a message is admitted exactly when its topic starts with the prefix and /p2p/, it parses, has the protocol and schema and the three ids, and, if there is a secret, verifies |
| Intake.FaultIsFirst | internal/a2a/router.go:112-131 | the fault named is the first that applies |
| Intake.RequestColumns | internal/a2a/router.go:58-89 | what is asked to be stored: peer, time, preview, payload, ids, hash of the message id, push target, each from where |
| Intake.ExactlyOnce | internal/a2a/router.go:38-103 | for any stream of deliveries the stored events are, row for row, the first admitted delivery of each message id |
| Intake.OneEventPerMessage | internal/a2a/router.go:75-95 | stored events and distinct admitted message ids are in bijection |
| Intake.ClashIffSeen | internal/store/schema.go:32-37 | the unique indexes refuse a request exactly when its message id came before |
| Intake.InsertIsAllOrNothing | internal/store/event.go:97-158 | push_outbox_conflict is unreachable, and Created=false leaves every table as it was |
| Commands.HandleA2AMessage | internal/a2a/router.go:38-103 | the first failing check decides and leaves the store alone; otherwise the store gains the envelope's event or reports a duplicate |
| Commands.InboxPull | cmd/a2hmarket-cli/inbox.go:99-163 | long polling returns one pull of the store at one moment, limited to 20 by default and 200 at most, the cursor that belongs to it, the routes it bound and their number; it returns nothing only when it may not wait longer |
| Commands.InboxAck | cmd/a2hmarket-cli/inbox.go:169-320 | one ack with its binding, and a notification queued exactly when the ack is the first, there is something and somebody to notify, and the event has none yet |
| Commands.WhoMayBind | cmd/a2hmarket-cli/inbox.go:210-235 | the openclaw consumer binds by its key alone, anybody else only with a session id |
| Commands.WhatIsQueued | cmd/a2hmarket-cli/inbox.go:199-317 | nothing without a request, a text or a picture, a channel and a recipient; each from the first place that has it |
| Commands.AckAgainNotifiesNobody | cmd/a2hmarket-cli/inbox.go:242-249 | a retried ack changes neither acks nor routes nor the media queue |
| Store.EventStore.InsertIncomingEvent | internal/store/event.go:97-158 | both inserts or neither, with the reason; created, the new rows hold the input column by column and the push row is due; not created means unchanged |
| Store.EventStore.FindClash | internal/store/schema.go:14-37 | exactly the violations of the declared unique indexes |
| Store.EventStore.GetEvent | internal/store/event.go:181-183 | the event with that id, or none if there is none |
| Store.EventStore.PullEvents | internal/store/event.go:218-258 | only events past the cursor, unread by the consumer and of the peer named, in order, gapless and within the limit |
| Store.EventStore.UpdateEventTargetSession | internal/store/event.go:294-307 | only that event's session columns and time change |
| Store.EventStore.ListPendingPushOutbox | internal/store/push_outbox.go:73-83 | the first rows, by id, that are PENDING or RETRY, due, and have their event |
| Store.EventStore.ListSentPushOutbox | internal/store/push_outbox.go:86-96 | the first rows, by id, that are SENT and have their event |
| Store.EventStore.MarkPushSent | internal/store/push_outbox.go:132-141 | that row becomes SENT with its deadline, that event PUSHED, every other row, event and table is as it was, and the row is no longer due |
| Store.EventStore.MarkPushAcked | internal/store/push_outbox.go:144-153 | that row becomes ACKED, that event CONSUMED, everything else is as it was, and neither listing will show the row |
| Store.EventStore.MarkPushRetry | internal/store/push_outbox.go:156-161 | that row becomes RETRY with its attempt, error and due time and is due exactly from then on; no event changes |
| Store.EventStore.BindPeerSession | internal/store/peer_session.go:61-106 | stale check, field-wise merge and upsert, with the reason when nothing is bound |
| Store.EventStore.BindPeerSessionForEvent | internal/store/peer_session.go:110-128 | the same through the event's peer |
| Store.EventStore.FindA2aReplyRoute | internal/store/peer_session.go:132-176 | what LookupAnswers says: trace, then bound session, then latest, or nothing |
| Store.EventStore.EnqueueA2aOutbox | internal/store/a2a_outbox.go:66-97 | one new PENDING row, holding the input column by column, exactly when the id is non-empty and unknown; a repeated id and a missing one are told apart |
| Store.EventStore.ListPendingA2aOutbox | internal/store/a2a_outbox.go:112-142 | the first rows, by id, that are PENDING or RETRY and due |
| Store.EventStore.MarkA2aOutboxSent | internal/store/a2a_outbox.go:145-170 | the row SENT, then its target's route bound with the row as read before |
| Store.EventStore.MarkA2aOutboxRetry | internal/store/a2a_outbox.go:173-178 | that row becomes RETRY with its attempt, error and due time and is due exactly from then on; nothing else changes |
| Store.EventStore.AckEvent | internal/store/ack.go:76-142 | ack recorded once, event CONSUMED, route bound on the first ack only, and the result of each case |
| Store.EventStore.IsEventAckedByConsumer | internal/store/ack.go:145-152 | whether the event is among the consumer's acks |
| Store.EventStore.PeekUnread | internal/store/ack.go:155-164 | unread plus the consumer's acks make all events; pending pushes plus ACKED and FAILED rows make all push rows |
| Store.EventStore.CheckStatus | internal/store/ack.go:167-180 | the same, and the oldest time is the minimum over the unread events, 0 if there is none |
| Store.EventStore.EnqueueMediaOutbox | internal/store/media_outbox.go:76-98 | one new PENDING row, holding the input column by column, exactly when the event has none |
| Store.EventStore.ListPendingMediaOutbox | internal/store/media_outbox.go:101-129 | the first rows, by id, that are PENDING or RETRY and due |
| Store.EventStore.MarkMediaSent | internal/store/media_outbox.go:132-136 | that row becomes SENT with its attempt as it was, is never due again, and nothing else changes |
| Store.EventStore.MarkMediaRetry | internal/store/media_outbox.go:139-144 | that row becomes RETRY with its attempt, error and due time and is due exactly from then on; nothing else changes |
| Store.EventStore.MarkMediaFailed | internal/store/media_outbox.go:147-151 | that row becomes FAILED with its attempt as it was, is never due again, and nothing else changes |
| Dispatchers.FlushA2AOutbox | internal/dispatcher/a2a_outbox.go:36-91 | the loop is a run of the system that goes through the first due rows up to the first cancelled turn, finished exactly when none is; each row is skipped if exhausted, else tried once, SENT or put off by its delay as the world has it, and counted so; nothing else changes |
| MediaFlush.FlushMediaOutbox | internal/dispatcher/media_outbox.go:32-89 | the same for media rows: each delivered once, in order, then SENT, put off by its delay, or FAILED on its last attempt, and counted so |
| PushFlush.FlushPushOutbox | internal/dispatcher/push_outbox.go:37-113 | the flush is a run that first acknowledges the first SENT rows (from a steady state, all of them), then delivers the first due rows, each once and in order, up to the first cancelled turn; sent is their number, the rows and the targets of their events say how each went, nothing else changes, and without a usable session all are skipped |
| PushFlush.CleanUp | internal/dispatcher/push_outbox.go:47-64 | phase 1 reaches the end of its list: those rows are ACKED, every other row is as it was, and nothing is sent |
| PushFlush.DispatchRow | internal/dispatcher/push_outbox.go:119-168 | mark in flight, deliver, bind the session, mark by outcome: one delivery of that row, which alone changes |
| PushFlush.MarkDelivered | internal/dispatcher/push_outbox.go:138-168 | after a delivery the row is SENT with its deadline and its event targeted, or RETRY with its delay and no event targeted |
| PushFlush.ChooseSession | internal/dispatcher/push_outbox.go:75-92 | the session the three scans choose, or none exactly when the list cannot be had or has no usable one |

## Left out

- Leases and roles: the lease server is not part of this model, and nothing is claimed about which instance flushes.
- MQTT, HTTP, the gateway, subprocesses, downloads and uploads: a delivery is an arbitrary success or failure.
- Failed store updates: a statement succeeds unless the process dies; a flush context that expires during an update is not modelled apart from cancellation between rows.
- Several flushers at once: one listener flushes; inserts, acks, binds and enqueues by others interleave freely.
- The image that dual-channel delivery sends straight to the channel, and again on each retry of the row: only the delivery to the session is counted.
- Inserts of event and push row, acks and enqueues are one step each: the first two are transactions in the code, the last is one statement.
- Store.EventStore.AckEvent: its transaction and the bind after it are one step, so a command that dies between them, leaving an ack without its route, is not modelled.
- Store.EventStore.BindPeerSession: its SELECT and UPSERT are one step of every run; Routes.RaceIsSerialIff is about what a bind in between does.
- Store.EventStore.BindPeerSessionForEvent: the same, and so is the read of the event's peer before it.
- Routes.BindPeerIsRebind: a bind that no other bind of the peer comes between; likewise Routes.UpdatedAtIsMax, Routes.RoutesOnlyAdvance, Routes.NewestWins and Routes.ConvergesIffComplete.
- ReplyRoutes.SentRowsHaveRoutes: a bind lost to another at the same time is outside the runs it speaks of; such a loss can leave the route older than the row.
- Sleeping inside OpenClaw's session listing: sessions are an input of the flush, and its two outcomes are one label of the system.
- SHA-256, HMAC, random ids, timestamp formats, float64 printing, strings.ToLower: uninterpreted inputs. Event ids are fresh; the fallback suffix used when randomness fails is not modelled.
- NaN and infinite payload numbers, which JSON cannot carry; duplicate, differently cased or unknown JSON keys in a received envelope are read by exact name, the last duplicate winning.
- Invalid UTF-8: strings are sequences of Unicode scalars, and error texts are truncated by characters, where the code counts bytes.
- NULL and the empty string are one value, as nullableText and fromNullableText exchange them.
- Preview extraction from a payload, payment codes, and delivery hints in a session key: inputs of the handler and of the ack.
- Invalid stored envelopes: which of them cannot be rebuilt is an input; the ones that fail are counted as failed tries.
- Inbox.PullsLoseNothing: speaks of one consumer and one peer filter, since a cursor is only meaningful for the pair it came from.
- EventStates.EventAndPushAgree: assumes inserts with state NEW, the only state the handler passes.
- A2ASpacing.RetriesAreSpaced: leaves out rows with a try that a crash left unmarked, which are due again at once, and caps above 2000 * 2^52 ms, where the code's conversion overflows; push and media rows use the same delays and are left out as easier.
- Commands.HandleA2AMessage: its reader takes no white space between tokens and no surrogate-pair escapes, so that such texts count as invalid JSON, where json.Unmarshal accepts them, and any run of number characters that starts like a number as a number; Intake.ExactlyOnce speaks of the messages it admits.
- A2AFifo.QueueDrains: assumes publishing succeeds and envelopes decode, as its source property does; the general progress bound is A2AProgress.FlushProgress.
- Intake.ExactlyOnce: assumes SHA-256 free of collisions and fresh event ids.
- GetLatestEvents, `inbox get`, `inbox peek` and `inbox check` output, schema migration of old databases, statement preparation.
- Command wrappers, doctor, update, notification texts, MIME tables and the token cache.
