# reign, verified

reign gives Go programs Erlang-style mailboxes, inside one process and across a
cluster of nodes. This project is a Dafny model of the parts of it whose
correctness depends on the order of small steps, and the proofs of what those
parts are for. Check it with `dafny verify dfyconfig.toml`.

The model has five parts.

**One mailbox.** A mailbox is a queue split between a channel of capacity one
and a slice under a mutex. Receivers take from the channel without the mutex and
refill it later. `mailbox_steps.dfy` is a machine in which every channel
operation and every mutex operation of `send`, `Receive`, `ReceiveAsync`,
`ReceiveMatch` and `Close` is a step of its own, with any number of goroutines.
`mailbox_order.dfy` proves that no message is lost or made up,
`mailbox_linear.dfy` that the whole thing is a plain queue from which `Receive`
takes the head and `ReceiveMatch` the first match, and `mailbox_pass.dfy` what
whole passes of `ReceiveMatch` without a match do while senders are at work.
`mailbox_answers.dfy` has what each operation answers, and exactly when it has to
wait.
`mailbox_leak.dfy` says exactly when `ReceiveMatch` leaves the mutex locked,
`mailbox_nil.dfy` exactly when it loses a message. `mailbox_alone.dfy` and
`mailbox.dfy` carry the critical sections over to an object whose methods update
the fields in place.

**Closing.** `close_steps.dfy` is a second machine: many mailboxes that watch
each other in any way, the table of mailboxes with its read and write lock, and
goroutines that close, watch, unwatch and use them. `close_progress.dfy` and
`close_hang.dfy` prove that every schedule ends with every goroutine finished if
and only if no circle of closed mailboxes passes through a cached target,
`close_notices.dfy` that a watcher gets exactly one notice. `ReceiveMatch` is not
among the operations of this machine: a mutex that it leaked (see below) hangs a
`Close` without any circle.

**Remote links.** `links.dfy` says what each message does to the link table of a
`remoteMailboxes`, `link_requests.dfy` proves that over whole runs every link is
answered as the requests alone have it, `remote_mailboxes.dfy` is the object with
its dispatch loop,
and `link_protocol.dfy` joins two nodes by a FIFO each way, with mailboxes on the
far side closing at any moment.

**The name registry.** `claims.dfy` and `registry.dfy` have the registry's two
maps and counter, updated in place, and prove that together they stand for one
relation between names and mailboxes. `replay.dfy`, `replication.dfy`,
`delivery_orders.dfy` and `own_claims.dfy` treat the way a new peer is brought up
to date: a snapshot written straight to the connection, and updates that travel
through two link managers, some of which are dropped before the connection is up.

**Ids and addresses.** `ids.dfy`, `mailbox_ids.dfy` and `allocation.dfy` have the
allocation of mailbox ids, `decimal.dfy`, `varint.dfy` and `codec.dfy` the text,
JSON and binary forms of an address.

## Where the code and its documentation part

Each of these is kept as the code has it, with a proof of what follows.

- `ReceiveMatch` returns with the mutex held when the mailbox is closed between
  its take and its lock (mailbox.go:728-730). `MailboxLeak.LeaksIffClosedAfterTake`
  is the exact condition over whole runs; after it, every later `send` and
  `Close` waits for ever.
- `ReceiveMatch` drops a nil message that a concurrent `send` put on the channel
  (mailbox.go:733). `MailboxNil.NilIsDropped` is a schedule that loses one,
  `MailboxNil.DroppedIffDrained` says exactly when it happens, and without nil
  messages it never does. It is the event `Lost` of the plain queue, and the only
  departure from a queue.
- `MessageCount` leaves out the message on the channel (mailbox.go:614).
- The comment in `getAddress` calls marshalling the address of a closed local
  mailbox a success, but the pointer it stores matches no case of the marshal
  switches (mailbox.go:139-149, 360). `AddressCodec.MarshalsIffNotClosedHere` is
  the exact condition, for addresses used before and not.
- `MarshalJSON` of the closed mailbox X yields a bare X, which is not JSON
  (mailbox.go:359-360, 388-403). `AddressCodec.Address.MarshalJSON` states that
  this is the one form without quotes.
- `Register` takes the address of a closed mailbox when the mailbox is still
  cached in it (mailbox.go:91-98, 547-549; registry.go:537).
  `OwnClaims.CallsAreFromHere` is the exact condition.
- `OnCloseNotify`, asked of a closed mailbox, sends while holding that mailbox's
  mutex, and a target whose mailbox is cached is not looked up first.
  `CloseHang.CachedCycleHangs` makes every circle of closed mailboxes that passes
  through such a target hang, and `CloseHang.AlwaysFinishesIff` shows that
  nothing else can.
- `newLocalMailbox` increments its counter a second time without atomicity
  (mailbox.go:444-445). `Allocation.OverlappingCallsRepeat` gives one id to two
  mailboxes, `Allocation.RepeatsIffBehindOrBusy` is the exact condition on a
  state, and `Allocation.OneByOneIsEven` the discipline of callers that avoids it.
- The snapshot of claims is generated and encoded in two steps (node.go:385-386).
  A withdrawal that gets onto the connection in between is undone at the peer by
  the snapshot. `Replication.PeerAgreesIffNoneOvertaken` is the exact condition.
- The comment that one address can have a claim on a name per node
  (registry.go:149-151 and 556-558) is stale: claims are sets, and are modelled as sets.

## Model

| member | source | states |
|---|---|---|
| MailboxSteps.RunKeepsInv | mailbox.go:527-817 | in every reachable state of any number of goroutines one of them at most is inside a critical section, and what that section relies on about channel and slice holds |
| MailboxSteps.HolderNeverBlocks | mailbox.go:531-544 | the goroutine that holds the mutex can always go on: each of its puts finds the channel empty and open, so none blocks and none panics |
| MailboxSteps.MessagesNeverStranded | mailbox.go:642-651 | an empty open channel over a non-empty slice means that some goroutine is between its take and its refill |
| MailboxSteps.QuiescentEmptyChannelIsEmptyMailbox | mailbox.go:659-686 | with nobody in the middle of an operation, an empty channel means that no message is waiting at all |
| MailboxAnswers.GoesOnIffNotWaiting | mailbox.go:527-817 | in every reachable state without a leaked mutex a goroutine in an operation can go on exactly unless it waits for a held mutex, or in Receive or ReceiveMatch for a message of an open mailbox with an empty channel; and exactly there it can be cancelled |
| MailboxAnswers.RunKeepsOperations | mailbox.go:527-817 | each goroutine stands where the operation it began last, with its message or matcher, may stand |
| MailboxAnswers.OperationsAnswerRightly | mailbox.go:626-686 | in every run: a receiver answers exactly when it returns, with the message it is counted to have received and, in ReceiveMatch, a matching one; with the closing exactly at a closed empty channel; with nothing only in ReceiveAsync at an open empty one; a send is refused exactly by a closed mailbox |
| MailboxAnswers.BeginTouchesNothing | mailbox.go:527-817 | beginning an operation only leads to one of its positions |
| MailboxAnswers.CloseCloses | mailbox.go:784-817 | once a Close has returned the channel is closed, and stays so |
| MailboxAnswers.ClosedIsReported | mailbox.go:632-639 | from then on a Receive, ReceiveAsync or ReceiveMatch that is to take a message returns the closing at once |
| MailboxAnswers.ReceivedAreAnswered | mailbox.go:626-770 | the messages counted as received are the messages answered, in order |
| MailboxOrder.MessagesConserved | mailbox.go:527-770 | under any mix of senders and receivers, until a Close, each message was received as often as it was sent, counting those in hand, on the channel, in the slice, and the nil messages dropped |
| MailboxOrder.ConservedAsMultiset | mailbox.go:527-770 | the same of all messages at once, as an equation of multisets |
| MailboxOrder.StepConserves | mailbox.go:527-770 | one step of any operation only moves messages between goroutine, channel and slice |
| MailboxLinear.MailboxIsAQueue | mailbox.go:527-770 | without ReceiveMatch, or with a single receiver, every run is a history of a plain queue, and hand, channel and slice together hold what is left of that queue |
| MailboxLinear.FirstInFirstOut | mailbox.go:527-686 | with any number of send, Receive and ReceiveAsync calls, taken messages followed by what is held, on the channel and in the slice are the messages sent, in the order of their sends |
| MailboxLinear.MatchedIsOldest | mailbox.go:740-766 | what ReceiveMatch returns was the oldest message accepted by its matcher, none before it was accepted, and all others keep their order |
| MailboxPass.StillLookingKeepsQueue | mailbox.go:706-770 | from when the one receiver is in ReceiveMatch, through any number of passes without a match and with senders in between: every event since is an arrival or a dropped nil, and they alone make the queue now out of the queue then |
| MailboxPass.MissedPassChangesNothing | mailbox.go:712-769 | at the end of a pass that goes round again, nothing in the queue matches, and the queue is the one at the start of the pass with what was sent since, less what the drain dropped |
| MailboxPass.MissedPassOnlyGains | mailbox.go:712-769 | without nil messages it is the queue at the start followed by what was sent since, in order |
| MailboxLinear.CallerSeesEventOrder | mailbox.go:706-770 | a single receiver gets messages in exactly the order in which they left the queue |
| MailboxNil.DroppedIffDrained | mailbox.go:725-737 | over every run the number of messages dropped is the number of times a ReceiveMatch that held a message drained a nil from the channel |
| MailboxNil.NilIsDropped | mailbox.go:733-735 | a schedule of two sends and one ReceiveMatch on an open mailbox that loses a message |
| MailboxNil.NothingIsMadeUp | mailbox.go:527-817 | in every run, before and after a Close, whatever is received, held, on the channel or in the slice was sent |
| MailboxNil.OnlyNilIsDropped | mailbox.go:725-737 | as long as no nil message is sent, ReceiveMatch drops none, closed or not |
| MailboxLeak.LeaksIffClosedAfterTake | mailbox.go:712-737 | over every run: the mutex was leaked, or a ReceiveMatch is about to leak it, exactly when a Close took effect while some ReceiveMatch stood between its take and its lock |
| MailboxLeak.LeakingStep | mailbox.go:724-730 | the leaking steps are those in which a ReceiveMatch that holds a message finds the channel closed |
| MailboxLeak.LeakIsForever | mailbox.go:726-730 | after that the mutex stays locked on every continuation |
| MailboxLeak.LeakBlocksEveryLock | mailbox.go:527-529 | so every goroutine that waits for the mutex is stuck |
| MailboxLeak.ClosingBetweenTakeAndLockLeaks | mailbox.go:712-730 | a schedule of one send, one ReceiveMatch and one Close that leaks the mutex |
| MailboxAlone.SendAlone | mailbox.go:527-545 | the steps of an uninterrupted send bring channel and slice to AfterSend |
| MailboxAlone.RefillAlone | mailbox.go:642-653 | the steps of an uninterrupted refill bring them to AfterRefill, and the message taken is received |
| MailboxAlone.CloseAlone | mailbox.go:790-816 | the steps of an uninterrupted Close, apart from its notices, bring them to AfterClose |
| MailboxAlone.MatchAlone | mailbox.go:722-769 | the steps of an uninterrupted critical section of ReceiveMatch bring them to AfterMatch, and the caller receives the message that AfterMatch names, if any |
| MailboxObject.PassRemovesFirstMatch | mailbox.go:706-770 | with nobody else at work one pass removes the first match of the queue and keeps the rest in order, or changes nothing when there is no match |
| MailboxObject.Mailbox.constructor | mailbox.go:447-452 | a new mailbox is open and empty |
| MailboxObject.Mailbox.Send | mailbox.go:527-545 | appends to the queue unless the mailbox is closed, and says which |
| MailboxObject.Mailbox.Refill | mailbox.go:645-651 | moves the head of the slice to the channel and leaves the queue as it was |
| MailboxObject.Mailbox.ReceiveAsync | mailbox.go:659-686 | takes the head of the queue, or reports an empty or a closed mailbox |
| MailboxObject.Mailbox.Scan | mailbox.go:757-766 | takes the first match out of the slice, if there is one |
| MailboxObject.Mailbox.MatchLocked | mailbox.go:722-769 | the critical section of ReceiveMatch, as AfterMatch |
| MailboxObject.Mailbox.MatchPass | mailbox.go:712-769 | removes the first match of the queue, or leaves the mailbox as it was |
| MailboxObject.Mailbox.MessageCount | mailbox.go:609-618 | the count is one less than the number of messages of an open non-empty mailbox |
| MailboxObject.Mailbox.OnCloseNotify | mailbox.go:559-574 | puts the target on record, or, when closed, yields the one notice to send at once |
| MailboxObject.Mailbox.RemoveNotify | mailbox.go:597-604 | takes exactly the target off the record |
| MailboxObject.Mailbox.Close | mailbox.go:784-817 | sends one notice to each watcher, once, and drops queue and watchers; a second Close does nothing |
| CloseProgress.RunKeepsInv | mailbox.go:784-817 | in every reachable state, a closer that holds its own mutex and is committed to a target went out of the table before that target did |
| CloseProgress.MutexHolderMoves | mailbox.go:790-812 | along any chain of goroutines that wait for each other's mutex no mailbox comes twice, since without a cached target the times of unregistering increase, so the chain ends at one that can step |
| CloseProgress.SomeoneMoves | mailbox.go:784-817 | whenever a goroutine is in the middle of an operation, one that is in the middle of an operation can step |
| CloseProgress.NoWaitCycle | mailbox.go:784-812 | waiting closes no circle unless it passes through a cached target |
| CloseProgress.EveryScheduleFinishes | mailbox.go:784-817 | when no circle of closed mailboxes passes through a cached target, a schedule that cannot be continued has finished every operation, and every schedule has at most (number of goroutines) times (8 times number of mailboxes plus 11) steps |
| CloseHang.CachedCycleHangs | mailbox.go:559-574 | every circle of closed mailboxes that passes through a cached target, among any watchers and any other operations, has a schedule that comes to a halt unfinished |
| CloseHang.HungForEver | mailbox.go:559-574 | once such a circle has closed, nothing that anybody does moves it again |
| CloseHang.AlwaysFinishesIff | mailbox.go:784-817 | for any watchers and operations: all of them return on every schedule if and only if no circle of closed mailboxes passes through a cached target |
| CloseHang.CachedSelfTargetDeadlocks | mailbox.go:559-574 | any mailbox that is closed and is asked to notify its own cached address has a schedule in which the asker waits for ever |
| CloseNotices.RunKeepsOnce | mailbox.go:559-574 | at each point of each schedule the one request is on its way, or on record, or on a closer's list, or answered, and only one of these |
| CloseNotices.NoticeExactlyOnce | mailbox.go:784-838 | a watcher is told at most once at any time, and when everyone is done exactly once if the mailbox was closed, and is still on record if not, whichever way the notice took |
| CloseNotices.NoticeAtMostOnce | mailbox.go:559-574 | whatever closes, the watcher included, it never gets a second notice for its one request |
| CloseNotices.NotToldUnlessGone | mailbox.go:784-812 | no notice is sent about a mailbox that nobody closes |
| CloseNotices.GoneIsNotFound | mailbox.go:127-151 | whoever begins to look up a mailbox that has left the table never comes to its mutex, on any continuation |
| LinkTable.HandleKeepsSettled | remoteMailboxes.go:234-311 | each message keeps the balance: links asked for are live, withdrawn, or told, once each |
| LinkTable.ServeAnswersEveryLink | remoteMailboxes.go:157-180 | however Serve ends, the table is empty and each link ever asked for was either withdrawn or told of the closing, exactly once, also the one whose subscribe failed |
| LinkTable.SubscriptionFollowsLinks | remoteMailboxes.go:234-311 | over any run with successful sends, subscribes and unsubscribes for one remote mailbox strictly alternate between close notices, and the last of them agrees with the table |
| LinkTable.WireEdges | remoteMailboxes.go:234-292 | a subscribe is sent exactly for the first link, an unsubscribe exactly for the withdrawal of the last |
| LinkRequests.NotifyLinks | remoteMailboxes.go:234-270 | a link asked for is in the table afterwards next to all others, whoever else is linked |
| LinkRequests.FailedNotifyTells | remoteMailboxes.go:254-269 | when the first subscribe fails the requester is told once, nothing is linked, and Serve panics |
| LinkRequests.UnnotifyUnlinks | remoteMailboxes.go:272-292 | a link withdrawn is out of the table, whoever else is linked, and no other link is |
| LinkRequests.ClosingTells | remoteMailboxes.go:294-311 | exactly the links to the closed mailbox are told, once each, and gone |
| LinkRequests.FailedSendsLeaveTheWire | remoteMailboxes.go:120-151 | what fails to be sent is not on the wire |
| LinkRequests.OthersAreForwarded | remoteMailboxes.go:209-210 | messages and close notices for the other node go out as they are and change nothing else |
| LinkRequests.DispatchHandles | remoteMailboxes.go:182-362 | the dispatch loop does what the messages before its end do, one after the other |
| LinkRequests.HandledIsPrefix | remoteMailboxes.go:195-199 | they are all messages up to the first that stops the manager or makes it panic |
| LinkRequests.ServeTellsAsAsked | remoteMailboxes.go:157-311 | for every pair, by the requests alone: told once for each closing while linked and once more if linked, or failed, at the end; and each asking was answered by one telling or one withdrawal |
| LinkRequests.NotToldAfterWithdrawal | remoteMailboxes.go:272-311 | who withdrew and did not ask again is told of no closing after that |
| RemoteMailboxes.Manager.NotifyRemote | remoteMailboxes.go:234-270 | updates table and wire in place as LinkTable.AfterNotify says, with a failed subscribe told and followed by the panic |
| RemoteMailboxes.Manager.UnnotifyRemote | remoteMailboxes.go:272-292 | updates them as LinkTable.AfterUnnotify says |
| RemoteMailboxes.Manager.RemoteMailboxClosed | remoteMailboxes.go:294-311 | tells every linked local mailbox once and forgets them |
| RemoteMailboxes.Manager.TellAll | remoteMailboxes.go:300-308 | the loop tells each local mailbox exactly once |
| RemoteMailboxes.Manager.Flush | remoteMailboxes.go:158-180 | tells every live link exactly once and empties the table |
| RemoteMailboxes.Manager.Process | remoteMailboxes.go:208-360 | one turn of the dispatch is LinkTable.Handle; a link asked for is in the table afterwards, one withdrawn is not, and all others stay |
| RemoteMailboxes.Manager.Serve | remoteMailboxes.go:157-363 | the whole loop is LinkTable.Dispatch followed by LinkTable.Flush, and tells every pair as often as its requests have it |
| LinkProtocol.RunKeepsCover | remoteMailboxes.go:234-340 | the invariant of the two-node protocol in every reachable state |
| LinkProtocol.NoNoticeIsLost | remoteMailboxes.go:294-340 | whatever crosses in flight: a remote mailbox that A waits for is or will be watched by B, and if it has closed, its notice, or a subscribe that will be answered by one, is on its way |
| LinkProtocol.NoNoticeIsInvented | remoteMailboxes.go:332-340 | nobody is told of the closing of an open mailbox |
| LinkProtocol.NoticesAnswerSubscriptions | mailbox.go:559-574 | B's manager hears of a closing exactly when the closing mailbox has it on record, or when its subscribe comes to a mailbox that is gone or closed |
| LinkProtocol.QuietStateAgrees | remoteMailboxes.go:234-340 | with nothing in flight, A has watchers of an open mailbox exactly when B's manager is on its record; and of a closed one A has none, every link answered or withdrawn once |
| LinkProtocol.DeliveryShrinksBacklog | remoteMailboxes.go:313-340 | each delivery makes the weighted backlog smaller |
| LinkProtocol.NoDeliveryLeftIsQuiet | remoteMailboxes.go:313-340 | where no delivery can be made, nothing is in flight |
| LinkProtocol.DeliveryEnds | remoteMailboxes.go:313-340 | deliveries alone come to an end after a bounded number |
| Claims.AddIsUnion | registry.go:604-612 | adding to the map of sets is union on the relation |
| Claims.AddContested | registry.go:610-649 | the counter's test is right: contested names grow exactly when a name goes from at most one claimant to more |
| Claims.DropIsDifference | registry.go:673-690 | removing is difference on the relation and leaves no empty set behind |
| Claims.DropContested | registry.go:679-685 | contested names shrink exactly when a name goes from more than one claimant to at most one |
| Claims.RelDeterminesMap | registry.go:185-192 | the relation determines the map, so nothing else is in it |
| Registry.EntriesOf | registry.go:695-706 | the reverse index finds every claim of a mailbox, and removing its entries, stale ones included, removes those claims and no others |
| Registry.BroadcastsReachPeers | registry.go:460-468 | each peer is sent each update as often as it is broadcast |
| Registry.NoticesAre | registry.go:616-643 | exactly what one more claim sends: one MultipleClaim to each claimant when the claim is local and another mailbox claims the name, one withdrawal for each of this node's found closed, nothing else |
| Registry.AllNoticesAre | registry.go:600-651 | over a sequence of claims each mailbox is told once for each claim that concerns it |
| Registry.FiledInOrder | registry.go:605 | the reverse index lists, for each mailbox, its entries in the order of registration |
| Registry.StepKeepsClaim | registry.go:305-337 | for each message and each single claim, whether the claim is there afterwards; a node coming up changes none |
| Registry.FoldStops | registry.go:342-343 | nothing after a stop has any effect |
| Registry.Names.AddNodeRegistry | registry.go:255-265 | exactly this peer is added, or its address replaced |
| Registry.Names.TellClaimants | registry.go:619-643 | each claimant of a contested name is told once, and those of this node found closed are withdrawn by a message to itself |
| Registry.Names.RegisterOne | registry.go:604-650 | one claim is added, counter and index stay right, and, said of the relation, exactly the mailboxes concerned are told, once each |
| Registry.Names.RegisterAll | registry.go:600-651 | union with the entries, counter kept, index extended in order, and each mailbox told once for each entry that concerns it |
| Registry.Names.UnregisterAll | registry.go:669-692 | difference with the entries, counter kept |
| Registry.Names.ToOtherNodes | registry.go:460-468 | one message to each peer |
| Registry.Names.UnregisterMailbox | registry.go:695-716 | all claims of the mailbox go and no others, and every peer is sent the removal of each |
| Registry.Names.HandleConnectionStatus | registry.go:428-458 | a node going down takes precisely its claims, and its entry among the peers, with it; a node coming up changes nothing |
| Registry.Names.GenerateAllNodeClaims | registry.go:366-394 | the snapshot is exactly this node's own claims |
| Registry.Names.HandleAllNodeClaims | registry.go:396-419 | adds the snapshot's claims of the sending node, leaves out foreign ones |
| Registry.Names.LookupAll | registry.go:496-520 | the claimants of a name, each once |
| Registry.Names.AddressCount | registry.go:742-753 | the number of claims |
| Registry.Names.SeenNames | registry.go:768-778 | for each name whether anybody claims it |
| Registry.Names.MultipleClaimCount | registry.go:522-527 | the counter is the number of names with two different claimants |
| Registry.Names.Process | registry.go:305-354 | one message changes relation, peers and outgoing messages exactly as the relation-level definitions say, snapshots included, with maps, index and counter in step |
| Registry.Names.Serve | registry.go:285-356 | over any run of messages each one has its effect on claims, peers and messages sent, and the object stands for the relation that the messages make |
| Registry.ContestedByRelation | registry.go:522-527 | contested names, said of the relation alone |
| Registry.ResyncIsExact | registry.go:396-458 | a node-down message and the node's next snapshot leave exactly the node's own claims for it and all other claims alone |
| OwnClaims.CallsAreFromHere | registry.go:536-585 | the message each call posts, and when: Register exactly for a mailbox cached as local, closed or not, and for an open local one, Unregister for all but other nodes' mailboxes, UnregisterMailbox for this node's but the registry's own |
| OwnClaims.OwnClaimsFollowAnnounced | registry.go:305-327 | each message changes this node's own claims exactly as the updates it announces to the peers do |
| OwnClaims.PeerClaimsFollowStream | registry.go:316-337 | at a peer, an update or a snapshot changes the claims held for the node as the replication machine says, and leaves other nodes' claims alone |
| Replay.ApplyByLast | registry.go:600-692 | whether a claim holds is decided by the last update about it |
| Replay.CatchesUpIffNoneOvertaken | registry.go:396-419 | updates lost before, overtaking, and following a snapshot give the sender's claims if and only if no overtaking update withdrew one of them |
| Replay.SnapshotCatchesUp | registry.go:396-419 | in particular always, when no update from after the snapshot arrives before it |
| Replay.FewerOvertaken | registry.go:396-419 | a snapshot that overtakes more of the updates on its way only does better |
| Replay.SnapshotTooEarlyLosesUpdates | node.go:345-354 | were the snapshot taken before updates start to flow, a registration would be missing at the peer for good |
| Replication.RunKeepsInv | node.go:149-162 | over any interleaving of the steps of a connection, all updates not dropped, and the snapshot, are in the stream in order |
| Replication.InFlightCatchesUp | node.go:384-389 | once the snapshot is sent, the peer's claims with everything in flight applied, in the order it was handed over, equal the node's current claims if and only if no withdrawal overtook the snapshot |
| DeliveryOrders.EveryOrderCatchesUpIff | listener.go:397-418 | every order in which a run can deliver what is in flight leaves the peer with the node's claims, if and only if no withdrawal is ahead of the snapshot; and some order delivers all of it |
| DeliveryOrders.DeliveriesOvertake | listener.go:397-418 | on its way the snapshot only ever moves ahead of updates |
| Replication.PeerAgreesIffNoneOvertaken | listener.go:351-418 | the same of the peer's claims themselves, when nothing is in flight |
| Replication.PromptSnapshotConverges | node.go:384-389 | so the peer always converges when no update is put on the connection between generating and encoding the snapshot |
| Replication.WithdrawalOvertakesSnapshot | node.go:384-389 | a schedule in which one is, and the peer keeps a claim that the node has withdrawn |
| MailboxIds.IdParts | mailbox.go:443-446 | with the wrap-around of 64 bits, each id decodes to its node and an even number within the bound |
| MailboxIds.IdsMeetIff | mailbox.go:443-446 | ids are equal exactly on the same node at a distance that is a multiple of 2 to the 55th |
| MailboxIds.FirstIdsAreDistinct | mailbox.go:27-30 | the first 2 to the 55th ids of all nodes are pairwise distinct |
| MailboxIds.Mailboxes.NewLocalMailbox | mailbox.go:443-463 | a fresh open mailbox under an id never given out before |
| MailboxIds.Mailboxes.UnregisterMailbox | mailbox.go:473-478 | exactly this id leaves the table; again is harmless |
| MailboxIds.Mailboxes.MailboxByID | mailbox.go:488-502 | the mailbox that carries the id, or which of the two errors applies |
| Allocation.OneByOneIsEven | mailbox.go:443-446 | in any schedule, by any goroutines, in which no call starts while another is in progress, the k-th number given out is 2k |
| Allocation.InTimeIsDistinct | mailbox.go:443-446 | overlapping calls give out distinct numbers as long as no stored increment takes the counter below a number already given out |
| Allocation.RepeatsIffBehindOrBusy | mailbox.go:443-446 | from a state without repeats, the calls in progress and any new atomic adds give out no number twice if and only if no number given out is above the counter and no call is in progress |
| Allocation.OverlappingCallsRepeat | mailbox.go:444-445 | a schedule of overlapping calls that repeats one |
| Decimal.ParseUintReads | mailbox.go:322-329 | the strings read as n are the printed form of n behind any number of zeros, and no others |
| Decimal.DigitIsCharacter | mailbox.go:357 | the ten digits are the characters 0 to 9 |
| Varint.UvarintIsLEB128 | mailbox.go:257-260 | any bytes: the LEB128 number if it takes at most ten bytes and fits 64 bits, else zero, and no bytes read only if none ends the number |
| Varint.UvarintInverts | mailbox.go:226-238 | each 64-bit number takes at most ten bytes and is read back, whatever follows |
| AddressCodec.TextReads | mailbox.go:289-344 | exactly which texts are read as an id, and which as the closed mailbox |
| AddressCodec.JsonReads | mailbox.go:375-385 | exactly which JSON forms are read as an id |
| AddressCodec.BinaryReads | mailbox.go:246-272 | exactly which bytes are read as an id |
| AddressCodec.TextErrors | mailbox.go:289-344 | which texts are refused with the error of strconv, and that all others are an illegal format |
| AddressCodec.BinaryErrors | mailbox.go:246-272 | which bytes are read as the closed mailbox, and which are refused with which error |
| AddressCodec.TextIsAscii | mailbox.go:349-403 | the three forms in ASCII characters |
| AddressCodec.FirstMailboxReads | mailbox.go:349-403 | the forms of the id 257 are <1:1>, its quoted form, and the bytes 60, 129, 2 |
| AddressCodec.TextInverts | mailbox.go:349-372 | for each 64-bit id the text is at most 23 bytes and is read back |
| AddressCodec.JsonInverts | mailbox.go:388-403 | the JSON form is a quoted string with nothing to escape and is read back |
| AddressCodec.BinaryInverts | mailbox.go:222-243 | the binary form is at most 11 bytes and is read back, whatever follows |
| AddressCodec.PanicsIffUnknown | mailbox.go:109-158 | getting at the mailbox panics exactly for an address with none cached, without a connection server or on a node that is not in the cluster |
| AddressCodec.MarshalsIffNotClosedHere | mailbox.go:109-151 | for any address, used before or not: marshalling fails if and only if it found its mailbox closed, when it was first used or now, and otherwise every form reads back to its id |
| AddressCodec.Address.GetAddress | mailbox.go:109-160 | resolves once and keeps the result; where it panics nothing is cached |
| AddressCodec.Address.MarshalText | mailbox.go:349-372 | fails exactly for the stored pointer, else yields a text that reads back to this address |
| AddressCodec.Address.MarshalJSON | mailbox.go:388-403 | the same for JSON, in quotes at both ends except exactly for the closed mailbox, which is a bare X |
| AddressCodec.Address.MarshalBinary | mailbox.go:222-243 | the same for the binary form, at most 11 bytes |
| AddressCodec.Address.UnmarshalText | mailbox.go:289-344 | replaces the whole address by what the text says, or by the zero address and the error |
| AddressCodec.Address.UnmarshalJSON | mailbox.go:375-385 | the same for JSON, with the caller's quotes replaced in place |
| AddressCodec.Address.UnmarshalBinary | mailbox.go:246-272 | the same for the binary form |

## Left out

- CloseNotices.NoticeExactlyOnce: for one request by one goroutine and a local watcher that stays open; one that closes as well may miss its notice, and NoticeAtMostOnce is what remains. What several requests or a RemoveNotify do together is not stated, as the documentation leaves it open.
- CloseHang.AlwaysFinishesIff: ReceiveMatch is not part of this machine; a mutex it leaked stays locked whatever the watchers (MailboxLeak.LeakBlocksEveryLock), and MailboxLeak.LeaksIffClosedAfterTake says when that is.
- LinkProtocol.NoNoticeIsLost: over one uninterrupted connection without failed sends; losing a connection does not flush the link table. The stopping of a manager in the middle of the protocol is covered only by LinkTable.ServeAnswersEveryLink.
- LinkProtocol.RunKeepsCover: the closing of a mailbox takes one step for leaving the table and one for its critical section; the finer steps are those of CloseSteps.
- Replication.PeerAgreesIffNoneOvertaken: one connection, which starts with no claims of the node at the peer and no updates left over from an earlier one; late disconnect messages of an earlier connection are not modelled.
- Replication.PromptSnapshotConverges: the condition is sufficient, the exact one is that of PeerAgreesIffNoneOvertaken.
- Allocation.InTimeIsDistinct: sufficient for a given schedule, and about the counter; what callers can see to is in OneByOneIsEven, the exact condition on states in RepeatsIffBehindOrBusy. The data race is modelled as a load and a store that other calls may come between.
- MailboxAlone.CloseAlone: the notices of Close are not part of this machine; CloseSteps and MailboxObject.Mailbox.Close have them.
- Registry.Names.Serve: the order of messages to peers is not kept in the outbox, which is a multiset; OwnClaims and Replication have the order. The order in which a snapshot's claims are registered is that of a Go map, so any.
- Registry.Names.MultipleClaimCount: the counter is an integer without the bound of 32 bits.
- MailboxObject.Mailbox.ReceiveAsync: Receive, which blocks, is a method only in the step machine, where contexts appear as a cancellation before a take.
- MailboxLinear.MailboxIsAQueue: with several receivers of which one uses ReceiveMatch the order can be lost, as the documentation of ReceiveMatch warns; only MailboxOrder.MessagesConserved covers that.
- Matchers are pure predicates, given by the messages they accept; a matcher that panics leaves the mutex locked and is not modelled.
- Varint.UvarintIsLEB128: binary.Uvarint as in Go 1.7, which .travis.yml names; later versions stop after ten continuation bytes and report an overflow, so that UnmarshalBinary accepts some unfinished numbers as id zero.
- The two kinds of error of strconv.ParseUint are one error.
- AddressCodec.Address.GetAddress: which connection server is in force (the address's own or the global one) is a parameter, and what it resolves is a value taken at the time of the call.
- A sync.RWMutex lets in the readers that a writer held up before the next writer; in CloseSteps they and the next writer may come in any order.
- LinkTable and RemoteMailboxes: messages from the wire for local mailboxes, and requests of the other node to be told of a closing, change neither table nor wire and are not inputs here; LinkProtocol has the latter. The messages only tests send (PanicHandler, DestroyConnection and the hooks) have no case.
- TLS, certificates, the cluster specification, handshakes, ping timers, gob, sockets, suture restarts, loggers and debugging hooks: input, output and plumbing.
- Lookup's random choice, AllNames, DumpClaims and DumpJSON: read-only views of claims for which nothing beyond LookupAll is proved.
