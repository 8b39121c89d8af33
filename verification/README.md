# YPF Ruta: a verified model

YPF Ruta lets the cars of a company pay for fuel on a shared account. Pumps ask their station's
node to charge a card; the nodes form a cluster with one leader, which replicates every request
to the others; each node keeps the accounts and cards as actors that exchange messages.

This project models five parts of the system and proves what they promise.

* **The ledger.** `Cards`, `Accounts` and `Routers` hold one class per actor, whose methods are
  the message handlers, each proved against a function of the actor's state and the message.
  `Network` puts the actors together: one FIFO mailbox each, and a step delivers the message
  at the head of any mailbox, so a schedule is any interleaving the mailboxes allow. On top:
  the card-account handshake (`Handshake`), limits (`Limits`), conservation of money
  (`Conservation`), the sequential ledger `Apply` and its billing law (`Ledgers`), the refinement
  of that ledger under every interleaving (`Stages`, `Updates`, `LimitChanges`, `Queries`,
  `Snapshots`, `Restores`, `Normal`, `Refinement`, `Recovery`), what restores do to the limits
  (`RestoredLimits`), billing as the node sees it (`Billing`), termination (`Termination`) and
  exactly one answer per operation while operations overlap (`Traces`, `Tokens`, `Questions`,
  `Rounds`, `Dumps`, `DumpSteps`, `Traffic`, `ExactlyOne`), and what overlapping charges and limit
  changes amount to: `Apply` in the order of the actors' verdicts (`Verdicts`, `Standings`,
  `Reports`, `Linear`, `Concurrent`).
* **Log replication.** `Leaders` and `Replicas` hold the two roles as classes. `Replication` is
  the state machine of one term: a leader, a fixed set of replicas, their links and databases.
  `Commits` shows that every step keeps its books, `Agreement` draws the conclusions. The
  database of a node is the ledger's `Apply`, which the first part justifies.
* **The Bully election.** `Bully` is the cluster as a state machine over deliveries, timers and
  failures; `BullyEnds` weighs its traffic; `Runtimes` holds the runtime that swaps role objects,
  and proves that its handlers take the steps of that machine.
* **The wire.** `Encoding` and `Decoding` build and read messages byte by byte (`Bytes`, `Utf8`),
  `RoundTrips` says exactly what comes back, `Framing` does so for a stream of frames, and
  `WireFormat` says in figures where every byte stands.
* **The forwarding client of a station**, with its offline queue: `Clients`.

`Protocol` and `Messages` hold the values these parts exchange, `Nodes` what both roles share,
`Counting`, `Sums` and `Wrappers` are helpers.

Choices that hold throughout:

* Amounts are exact reals in the ledger, because sums of 32-bit floats depend on their order; the
  wire codec moves raw 32-bit patterns.
* A panic is a value: `Panicked` among the router's events, `ok == false` in the node and in the
  election, `Panic` in the decoder. The theorems say when it does not happen.
* The order of a hash map is any order: lists of cards and accounts are compared as multisets.
* Timers, failures and the order of deliveries are choices of the schedule.
* `Wired`, `Safe`, `Ready`, `Kept`, `TermOk` and `Sound` are the invariants of the state machines. Each
  holds in the machine's initial state and is kept by every step, so a lemma that requires one
  speaks about every reachable state.

Where the code does less than its comments or one's expectation say, the model follows the code
and a lemma says exactly when it falls short: a limit of -1.0 reads back as no limit
(`WireFormat.CardLimitReplicated`, `RoundTrips.RoundTrip`); a message of 65536 bytes or more is
framed with a truncated length, after which the stream is out of step
(`Framing.InStepExactlyWhenShort`, `Framing.LongViewsGetOutOfStep`); a restored row beyond its
limit is put in place as it is (`RestoredLimits.LimitsHoldIffRestoresFit`,
`RestoredLimits.OverLimitRow`, `RestoredLimits.OverLimitRun`); and the ids of replays, which start
at 1000000 and are said to be kept clearly separate, are not separate from those of pumps: a station
draws its ids at random from all 32-bit numbers but 0 (common/src/station.rs:401-414). `Clients.Run`
says exactly when they stay apart, `Clients.SharedId` what happens when they meet.

Check everything with `dafny verify dfyconfig.toml`.

## Model

| member | source | states |
|---|---|---|
| Cards.CardActor.StartCurrentTask | server/src/node/actors/card.rs:98-144 | The current task is started as `StartTask` says: an online charge over the limit and every limit change finish at once, any other charge goes to the account; terminates although it and the next method call each other |
| Cards.CardActor.FinishCurrentTask | server/src/node/actors/card.rs:146-166 | One completion is reported, then the queue is worked off until a charge has to wait for its account or nothing is left |
| Cards.CardActor.HandleMsg | server/src/node/actors/card.rs:183-326 | Card state and mail of the account and the router after any message |
| Accounts.AccountActor.HandleMsg | server/src/node/actors/account.rs:87-273 | Account state, reply to the card and mail of the router after any message: approval, limit, start of a query or bill, snapshot, restore |
| Accounts.AccountActor.CollectReply | server/src/node/actors/account.rs:202-250 | A card's answer is collected only for the pending query; the last one reports the sum, clears the query and resets a billed account |
| Routers.ActorRouter.GetOrCreateCard | server/src/node/actors/actor_router.rs:83-100 | A card is created once, after its account, with an empty mailbox |
| Routers.ActorRouter.CardIdsOf | server/src/node/actors/actor_router.rs:203-210 | Lists each card of the account exactly once |
| Routers.ActorRouter.AskCards | server/src/node/actors/actor_router.rs:216-224 | Every card of the account, and nobody else, gets the question once |
| Routers.ActorRouter.HandleExecute | server/src/node/actors/actor_router.rs:162-344 | Actors, mailboxes, records and events after dispatching any operation |
| Routers.ActorRouter.TryCompleteDbSnapshot | server/src/node/actors/actor_router.rs:103-144 | A snapshot is emitted, and its record removed, exactly when both counters are full |
| Routers.ActorRouter.HandleMsg | server/src/node/actors/actor_router.rs:364-519 | Events and records after any report from an actor, the `expect` that would fail included |
| Network.NextWired | server/src/node/actors/actor_router.rs:83-100 | Every step keeps a mailbox for each actor and an account for each card |
| Handshake.NextSafe | server/src/node/actors/card.rs:208-231 | Every step keeps, for each card: busy exactly while one matching request or reply is in flight, only ever with a charge, and nothing queued when idle |
| Handshake.RunSafe | server/src/node/actors/card.rs:98-166 | The same along every run without ReplaceDatabase |
| Handshake.RunInOrder | server/src/node/actors/card.rs:208-231 | What a card owed plus what arrived is what it reported plus what it owes, as sequences: completions come once each and in arrival order |
| Handshake.HandshakeHolds | server/src/node/actors/card.rs:300-327 | From an empty database, after any interleaving: idle exactly when nothing of its charge is in flight, never more than one message in flight, and that one the request of the current charge as it was sent or the reply to it; the reports are a prefix of the arrivals, all of them when idle |
| Limits.NextBounded | server/src/node/actors/card.rs:79-144 | The bounds below are kept by every step: an approved online charge still fits the card's limit when the approval arrives |
| Limits.LimitsHold | server/src/node/actors/account.rs:54-73 | In every run without ReplaceDatabase and with non-negative amounts consumption stays within the limit plus the total of replayed offline charges, for cards and for accounts; without such charges, within the limit |
| RestoredLimits.RestoreKeepsBound | server/src/node/actors/actor_router.rs:309-342 | A restore keeps every row within its bound if and only if the rows it leaves in place are within their own limits |
| RestoredLimits.LimitsHoldIffRestoresFit | server/src/node/actors/card.rs:274-285 | Over every run with restores at quiescent points: what operations find is always within the limits, plus the charges replayed since a row was last restored, if and only if every restore leaves only rows in place that are within their limits |
| RestoredLimits.OverLimitRow | server/src/node/actors/card.rs:274-285 | The input that breaks it: a restored card with limit 50 and consumption 100 |
| RestoredLimits.OverLimitRun | server/src/node/actors/actor_router.rs:309-342 | And a run with it: restoring that row into an empty database is an admissible run at whose end operations find a card beyond its limit |
| RestoredLimits.FoundInPlace | server/src/node/actors/card.rs:274-285 | What operations find at an actor without a waiting ReplaceState is its own state |
| Conservation.MoneyConserved | server/src/node/actors/account.rs:89-132 | In every state reached without Bill and ReplaceDatabase an account's consumption is the sum of its cards' plus the accepted charges whose reply is undelivered |
| Ledgers.ApplyBalanced | server/src/node/actors/account.rs:179-250 | No operation but a restore breaks the equality of an account's consumption and the sum of its cards' |
| Ledgers.FoldBilling | server/src/node/actors/actor_router.rs:227-260 | Over any sequence of operations: consumption before plus charges accepted is totals billed plus consumption after |
| Ledgers.BillingConserved | server/src/node/actors/card.rs:234-259 | From the empty ledger: all charges accepted are all totals billed plus the current consumption, which is the sum over the cards |
| Billing.RunBillingConserved | server/src/node/actors/account.rs:179-250 | Over every one-at-a-time run from an empty router, whatever its interleavings: the charges reported accepted are the totals of the bills reported plus the account's consumption in the final network |
| Ledgers.RestoreSnapshot | server/src/node/actors/actor_router.rs:309-342 | Restoring the dump of a ledger into an empty one gives that ledger back |
| Ledgers.CardLimitAnswer | server/src/node/actors/card.rs:89-95 | In plain arithmetic: removing a card's limit always succeeds, setting one exactly when it is not below the card's consumption; on success the row has it, on refusal the row stays, and no other row changes |
| Ledgers.AccountLimitAnswer | server/src/node/actors/account.rs:64-73 | The same for an account's limit |
| Ledgers.ChargeAnswer | server/src/node/actors/account.rs:54-62 | A replayed charge is always accepted, any other exactly when consumption plus amount is within the card's limit and within the account's, a refusal blaming the card first; accepted, it is added to both rows, refused, to neither |
| Ledgers.ReportAnswer | server/src/node/actors/card.rs:234-259 | A query and a bill list each card of the account once with its consumption; a bill leaves zero on the account and its cards and nothing else changes |
| Ledgers.DumpAnswer | server/src/node/actors/actor_router.rs:261-307 | A dump lists each account and each card once as it is on record and changes nothing |
| Ledgers.RestoreAnswer | server/src/node/actors/actor_router.rs:309-342 | A restore into any ledger sets what the snapshot lists to its last row there and leaves the figures of everything else |
| Normal.ReplaceKeepsNorm | server/src/node/actors/card.rs:274-285 | Delivering a ReplaceState changes nothing that anyone can observe: the normal form, in which all of them are delivered, stays the same |
| Normal.CardStepCommutes | server/src/node/actors/card.rs:183-295 | Every other step of a card commutes with delivering all ReplaceStates first |
| Normal.AccountStepCommutes | server/src/node/actors/account.rs:263-271 | The same for a step of an account |
| Normal.RouterStepCommutes | server/src/node/actors/actor_router.rs:157-344 | The same for a step of the router that routes no ReplaceDatabase |
| Updates.ChargeRuns | server/src/node/actors/account.rs:89-132 | A charge alone has one delivery possible at any time; it leads on, or finishes with the ledger, and the one answer, that `Apply` gives |
| LimitChanges.CardLimitRuns | server/src/node/actors/card.rs:128-142 | The same for a card's limit change |
| LimitChanges.AccountLimitRuns | server/src/node/actors/account.rs:134-156 | The same for an account's limit change |
| Queries.QuerySteps | server/src/node/actors/account.rs:158-250 | A query or bill alone: every delivery, in any order the mailboxes allow, keeps the round of questions or finishes it as `Apply` says |
| Queries.QueryLive | server/src/node/actors/account.rs:158-200 | And until then some delivery is possible |
| Queries.AllAnswered | server/src/node/actors/account.rs:222-232 | In whatever order the cards answered, the collected list is all cards once each and its sum the ledger's total |
| Snapshots.DumpSteps | server/src/node/actors/actor_router.rs:261-307 | GetDatabase alone: every delivery keeps the gathering or finishes it with the whole ledger, each account and card once |
| Snapshots.DumpLive | server/src/node/actors/actor_router.rs:103-144 | And until then some delivery is possible |
| Snapshots.CountersFull | server/src/node/actors/actor_router.rs:103-112 | The two counters are full exactly when everyone was heard, and the lists then are the ledger's |
| Restores.RoutesRestore | server/src/node/actors/actor_router.rs:309-342 | Right after the early result of ReplaceDatabase the mailboxes already stand for the restored ledger |
| Refinement.NormSteps | server/src/node/actors/actor_router.rs:309-342 | Every step is a step of the normal form or invisible in it |
| Refinement.ReadySteps | server/src/node/actors/card.rs:274-285 | Late deliveries of a restore change neither the ledger nor the events |
| Refinement.OneOperation | server/src/node/actors/actor_router.rs:157-344 | From any quiescent state, any order of delivering one operation's messages ends quiescent, with the ledger of `Apply` and exactly one result equal to its answer |
| Refinement.SequentialRefinement | server/src/node/actors/actor_router.rs:157-344 | Every one-at-a-time run, whatever its interleavings, is the fold of `Apply`, and its results are that fold's answers in order |
| Recovery.SnapshotRestores | server/src/node/actors/actor_router.rs:261-342 | The snapshot of a router, restored into a fresh one, gives the same ledger as soon as the restore has reported |
| Recovery.SameLedgerAnswersAlike | server/src/node/actors/actor_router.rs:309-342 | Two routers with the same ledger answer every later one-at-a-time run alike, also while a restore is still being delivered |
| Termination.Decreases | server/src/node/actors/actor_router.rs:157-344 | Every delivery makes the pair of unrouted operations and mail weight smaller |
| Termination.Drains | server/src/node/actors/card.rs:98-166 | From every state some schedule delivers everything |
| Termination.NoEndlessDelivery | server/src/node/actors/actor_router.rs:361-520 | No infinite run consists of deliveries only |
| Questions.RepliesExpected | server/src/node/actors/account.rs:207-217 | An answer reaching an account always belongs to its pending query: the branch for unexpected ones is unreachable |
| Questions.AnsweredLeavesNothing | server/src/node/actors/account.rs:224-250 | Once a query is answered no question and no answer of it is left anywhere |
| Dumps.DumpedLeavesNothing | server/src/node/actors/actor_router.rs:493-513 | An emitted snapshot names each account and card that existed when it was requested exactly once, and nothing of it is left in flight |
| Tokens.CardStepPlaces | server/src/node/actors/card.rs:146-166 | A card's step moves the one token of an operation but neither loses nor doubles it |
| Tokens.AccountStepPlaces | server/src/node/actors/account.rs:87-200 | The same for an account's step |
| Tokens.RouterStepPlaces | server/src/node/actors/actor_router.rs:364-491 | The same for the router's step, routing and reporting |
| Traffic.AnsweredIsIdle | server/src/node/actors/actor_router.rs:361-520 | Once every operation of a stretch of traffic has been answered nothing of any of them is in flight anywhere |
| Traffic.EventsOf | server/src/node/actors/actor_router.rs:361-520 | In a stretch of traffic every event answers its operation, in kind and completely, none twice, and each once when the mail has drained |
| ExactlyOne.NextSince | server/src/node/actors/actor_router.rs:60-63 | No step depends on the events emitted before |
| ExactlyOne.ExactlyOneResult | server/src/node/actors/actor_router.rs:361-520 | From any quiescent network, whatever it did before, in any interleaving with distinct ids, at most one query or bill per account at a time, and restores that wait for every earlier answer and are answered before the next operation, their ReplaceStates still queued or not: at most one new event per operation, of its kind, naming each card or account existing at its request exactly once; exactly one when the mail has drained; no fallback, debug or panic event |
| Verdicts.HandleDecides | server/src/node/actors/card.rs:79-166 | Whatever a card does on one message, its verdicts are those `Apply` gives on the card's row one after the other, and leave that row at the card's new limit and consumption; the charge it then waits for passed its check |
| Verdicts.ChargeDecided | server/src/node/actors/account.rs:89-132 | The account's verdict on a charge is `Apply`'s although the card made its own check earlier: the check still holds |
| Standings.CardStepStands | server/src/node/actors/card.rs:183-326 | A card's step takes the ledger that the network stands for, undelivered approvals included, to the one after its verdicts |
| Standings.AccountStepStands | server/src/node/actors/account.rs:87-273 | The same for an account's step |
| Reports.DecidedOnce | server/src/node/actors/actor_router.rs:364-390 | No charge or limit change gets two verdicts |
| Concurrent.Linearizable | server/src/node/actors/actor_router.rs:157-344 | From any quiescent network, in any interleaving of charges and limit changes with distinct ids, also beside queries and snapshots: every answer is the one the operation gets from `Apply` in the order of the verdicts, at most one verdict each; when all is answered each has one, the network is quiescent, and its ledger is the fold of `Apply` over that permutation, up to accounts that were only queried |
| Concurrent.RealTime | server/src/node/actors/card.rs:98-166 | That order respects time: an operation answered before another is submitted comes first |
| Nodes.Connection.SendAll | server/src/node/leader.rs:177-186 | The loop over peers: the link to each member named is what it was with the message at its end, every other link is unchanged |
| Nodes.StartRules | server/src/node/replica.rs:170-210 | Member by member: who waits already sends nothing; else every higher member gets an Election and the node waits, or, with nobody above, every other member gets a Coordinator and a replica promotes itself |
| Nodes.TimeoutRules | server/src/node/replica.rs:449-472 | A node announces itself exactly when it waits and its two seconds are over; before that nothing is sent and nothing changes |
| Nodes.TransmitAt | server/src/node/leader.rs:381-420 | After a verdict each member's link is what it was, then its Election, then its Coordinator, under the node's own id and address; nobody else's link changes |
| Leaders.Leader.HandleRequest | server/src/node/leader.rs:155-191 | The request is kept under the next id with its client and request id; with peers, each peer's link is what it was followed by that log entry, other links and the database are untouched and the counter grows by one; a lone leader executes at once and keeps its counter |
| Leaders.HandleRequests | server/src/node/leader.rs:155-191 | Over any n requests to a leader with peers: every peer's link is what it was followed by n log entries under consecutive ids, in order and once each, every other link is unchanged, all n are pending and nothing is executed |
| Leaders.Leader.HandleAck | server/src/node/leader.rs:227-245 | An ack raises the count of its own entry by one; the command goes out when the count is half the cluster's size, rounded down, or always with one peer; an unknown id does nothing |
| Leaders.Leader.HandleOperationResult | server/src/node/leader.rs:247-328 | A result goes to whoever asked, written out: a view to the newcomer, a response under the client's own request id, a verdict to the own station, or nothing; and when the `expect` would fail |
| Leaders.Leader.Elect | server/src/node/leader.rs:381-420 | Verdict of the Bully rules, sent to exactly the members it names |
| Leaders.Leader.HandleElection | server/src/node/leader.rs:330-351 | Only a higher node answers ElectionOk, and then starts its own election |
| Leaders.Leader.HandleCoordinator | server/src/node/leader.rs:360-379 | A leader steps down for an id not below its own |
| Leaders.Leader.HandleElectionTimeout | server/src/node/leader.rs:495-514 | Once the time is over the leader reaffirms itself to everybody else; before that, or when no election is under way, links and flag stay and no role changes |
| Replicas.Replica.HandleLog | server/src/node/replica.rs:306-324 | Entry k is stored, and entry k-1, if it is held, executed and forgotten; only entry 1 is acked at once, nothing else is sent |
| Replicas.Replica.CommitOperation | server/src/node/replica.rs:519-531 | A stored entry goes to the database and is forgotten; an unknown id does nothing |
| Replicas.Replica.HandleOperationResult | server/src/node/replica.rs:212-234 | A finished entry is acked under the next id; a restore instead releases the queue: behind what was on the leader's link, message i is the request with queued operation i, other links are unchanged, and the queue is empty |
| Replicas.Replica.HandleConnectionLost | server/src/node/replica.rs:89-106 | The peer is forgotten; only the loss of the leader starts an election |
| Replicas.Replica.Elect | server/src/node/replica.rs:170-210 | Verdict of the Bully rules; with nobody above it the replica announces and promotes itself |
| Replicas.Replica.HandleCoordinator | server/src/node/replica.rs:366-392 | A higher leader is followed, its own id promotes, a lower one panics |
| Replicas.Replica.HandleElectionTimeout | server/src/node/replica.rs:449-472 | Once the time is over the replica announces and promotes itself; before that, or when no election is under way, links and flag stay and no role changes |
| Commits.QuorumIsCeiling | server/src/node/leader.rs:227-245 | For n >= 2 the rounded half of n-1 is its ceiling, and at least one |
| Commits.AckCommits | server/src/node/leader.rs:227-245 | In every reachable state, the ack that completes a quorum commits exactly the next entry, and no other ack commits anything |
| Agreement.NextKeepsTerm | server/src/node/leader.rs:155-245 | Every step of a term keeps its books: links, stores, counts, commits and replies; no `expect` fails |
| Agreement.CommitOrder | server/src/node/leader.rs:227-245 | In every run from a new term the leader issues entries 1, 2, 3, ... without gap, repeat or reordering |
| Agreement.ReplicaOneBehind | server/src/node/replica.rs:306-324 | A replica has issued exactly the entries before the last one it received, in order, and holds only that one |
| Agreement.PrefixAgreement | server/src/node/replica.rs:519-531 | Of what two nodes have executed, the leader included, one is a prefix of the other; equal lengths mean equal ledgers |
| Agreement.CommittedIsHeld | server/src/node/leader.rs:227-245 | Whenever the leader has issued entry k, a quorum of replicas has stored it, with the leader a strict majority |
| Agreement.MajorityKnows | server/src/node/leader.rs:227-245 | Once an entry is issued, every strict majority made up of replicas alone contains one that has stored it |
| Agreement.Quiescence | server/src/node/leader.rs:247-328 | When nothing is left to deliver the leader has executed all n entries, every replica n-1 and holds entry n, and each entry got exactly one reply, in log order, which reached whoever asked and equals `Apply` on the log before it |
| Agreement.ReplyAddressed | server/src/node/leader.rs:262-326 | Every reply recorded in a run reached whoever asked: a snapshot the newcomer, any other result the remote client under its own request id, the leader's own charge its station under its own request id and with its verdict |
| Agreement.DeliveriesEnd | server/src/node/replica.rs:212-234 | Without new requests only so many deliveries are possible |
| Bully.NextSound | server/src/node/replica.rs:331-392 | Every delivery, timeout, tick of the timer before its time, failure or start keeps: Coordinators name the highest live node, no panic, and an election once under way stays so until it is settled |
| Bully.TickIsSilent | server/src/node/node.rs:428-430 | A tick at any live node before its two seconds are over leaves the whole cluster as it is |
| Bully.FreshIsSound | server/src/node/leader.rs:381-420 | Live nodes with full views and nothing under way are a sound start |
| Bully.Convergence | server/src/node/node.rs:477-519 | In every run each Coordinator names the highest live id and the panic is unreachable; once an election's traffic has drained the highest node is the only leader, all others follow it and nobody waits |
| BullyEnds.Lighter | server/src/node/replica.rs:170-210 | Each delivery or timeout makes the weighted traffic lighter by one or more |
| BullyEnds.TrafficEnds | server/src/node/replica.rs:331-358 | Without new starts or losses there are no more deliveries and timeouts than that weight, however many ticks come between them |
| Runtimes.Largest | server/src/node/replica.rs:477-480 | The largest id held, or 1 |
| Runtimes.NodeRuntime.OnRoleChange | server/src/node/node.rs:489-517 | Exactly one role object; a swap keeps identity, view and queue, numbers on from the highest entry held or points to the new leader, and starts without pending operations or election |
| Runtimes.NodeRuntime.HandleElectionMsg | server/src/node/node.rs:296-372 | An election message handled by the role in charge, with the role change it causes, is the step of the election's state machine at that node, panic included, and sends what that step sends |
| Runtimes.NodeRuntime.HandleElectionTimeout | server/src/node/node.rs:373-460 | The same for the election timer; before its time is over the role object, its flag and all links stay as they are |
| Runtimes.NodeRuntime.HandleConnectionLost | server/src/node/node.rs:441-452 | The same for a lost peer |
| Bytes.ReadsBack | common/src/network/serials/deserialization/helpers.rs:40-79 | Reading a big-endian field gives back the number written |
| WireFormat.BigEndian16 | common/src/network/serials/serialization/helpers.rs:3-12 | The two bytes of a 16-bit number, the high one first |
| WireFormat.BigEndian32 | common/src/network/serials/serialization/message.rs:109-149 | The four bytes of a 32-bit number, the highest first |
| WireFormat.BigEndian64 | common/src/network/serials/serialization/operation.rs:51-110 | The eight bytes of a 64-bit number, the highest first |
| WireFormat.LimitInBytes | common/src/network/serials/protocol.rs:58 | No limit is written BF 80 00 00, the bits of -1.0; a limit is written as its own bits |
| WireFormat.CardLimitReplicated | common/src/network/serials/deserialization/helpers.rs:15-21 | A logged limit change of a card decodes to itself for every bit pattern of the limit but 0xBF800000, which decodes to no limit; no limit decodes to no limit |
| WireFormat.AccountLimitReplicated | common/src/network/serials/deserialization/helpers.rs:15-21 | The same for an account |
| WireFormat.RowsReplicated | common/src/network/serials/deserialization/database_snapshot.rs:38-110 | A logged snapshot decodes to as many rows in the same order, each with its own ids and consumption, and its limit but for that pattern |
| WireFormat.DumpInBytes | common/src/network/serials/serialization/database_snapshot.rs:25-91 | Where everything stands in an encoded snapshot: account i at 14 + 16 i, card i behind a second count, 24 bytes each, and nothing after them |
| WireFormat.OperationInBytes | common/src/network/serials/protocol.rs:27-36 | The literal first byte of every operation and the place of each of its fields |
| WireFormat.OutcomeInBytes | common/src/network/serials/serialization/operation_result.rs:103-132 | The literal bytes of every outcome: 2, or 3 and the two bytes of the reason |
| WireFormat.ResultInBytes | common/src/network/serials/protocol.rs:38-44 | The literal first byte of every result and the place of its fields, card i of a query at 21 + 12 i |
| WireFormat.MessageInBytes | common/src/network/serials/protocol.rs:9-25 | The literal first byte of every message and the place of its fields, member i of a view at 9 + 14 i |
| WireFormat.FrameInBytes | common/src/network/handler/sender.rs:42-76 | Heartbeats are 00 01 FE and 00 01 FF; a message is preceded by its length modulo 65536, high byte first |
| WireFormat.OperationSizes | common/src/network/serials/deserialization/operation.rs:22-160 | Which payloads decode as a charge, a limit change, a query or a request for the database, by their length alone and a charge's flag byte, everything else being an error |
| WireFormat.OutcomesRead | common/src/network/serials/deserialization/operation_result.rs:102-175 | Exactly which bytes are read as which outcome, for every payload, errors and panics included |
| WireFormat.BillTexts | common/src/network/serials/deserialization/operation.rs:163-192 | What a bill is read as, for every text behind the account: no period, a period, an error, or the panic of a slice inside a wider first character |
| WireFormat.ShortViews | common/src/network/serials/deserialization/message.rs:143-169 | A view shorter than the members it declares is an error as long as their size fits 64 bits |
| WireFormat.WrappedViews | common/src/network/serials/deserialization/message.rs:143-169 | The input beyond that: 2^63 declared members pass the length check, whose product wraps to 0, and the first of them panics |
| WireFormat.CutFrames | common/src/network/handler/receiver.rs:71-88 | A stream that ends anywhere inside a frame gives no item, only a lost connection |
| Encoding.SerializeDump | common/src/network/serials/serialization/database_snapshot.rs:25-91 | The two loops build address, counted accounts and counted cards |
| Encoding.SerializeQueryResult | common/src/network/serials/serialization/operation_result.rs:47-80 | The loop builds the counted list of cards |
| Encoding.SerializeClusterView | common/src/network/serials/serialization/message.rs:151-170 | The loop builds the counted members, followed by leader and snapshot |
| Encoding.SerializeOperation | common/src/network/serials/serialization/operation.rs:7-125 | The bytes of every operation, field by field |
| Encoding.SerializeResult | common/src/network/serials/serialization/operation_result.rs:14-134 | The bytes of every result |
| Encoding.SerializeMessage | common/src/network/serials/serialization/message.rs:9-40 | The bytes of every message |
| Decoding.ReadRecords | common/src/network/serials/deserialization/database_snapshot.rs:38-65 | The counted loop reads record by record, stops at the first that fails, and ends with the pointer behind the last |
| Decoding.DeserializeDump | common/src/network/serials/deserialization/database_snapshot.rs:35-70 | The snapshot decoder, short input and panics included |
| Decoding.DeserializeQueryResult | common/src/network/serials/deserialization/operation_result.rs:56-87 | The decoder of a query's result |
| Decoding.DeserializeClusterView | common/src/network/serials/deserialization/message.rs:143-169 | The decoder of a cluster view, with its length check in 64-bit arithmetic that wraps |
| Decoding.DeserializeCharge | common/src/network/serials/deserialization/operation.rs:73-94 | The charge decoder, field by field behind its length check |
| Decoding.DeserializeLimitAccount | common/src/network/serials/deserialization/operation.rs:101-116 | The same for an account's limit |
| Decoding.DeserializeLimitCard | common/src/network/serials/deserialization/operation.rs:124-142 | The same for a card's limit |
| Decoding.DeserializeBill | common/src/network/serials/deserialization/operation.rs:163-192 | The bill decoder: UTF-8 of the length byte and the period together, the empty period, and the slice that panics |
| Decoding.DeserializeOperation | common/src/network/serials/deserialization/operation.rs:19-36 | The dispatch over all operations |
| Decoding.DeserializeResult | common/src/network/serials/deserialization/operation_result.rs:24-38 | The dispatch over all results, with the one that is not decoded yet |
| Decoding.DeserializeRequest | common/src/network/serials/deserialization/message.rs:88-100 | The request decoder, field by field |
| Decoding.DeserializeLog | common/src/network/serials/deserialization/message.rs:102-108 | The log decoder |
| Decoding.DeserializeResponse | common/src/network/serials/deserialization/message.rs:80-86 | The response decoder |
| Decoding.DeserializeIdAndAddr | common/src/network/serials/deserialization/message.rs:36-64 | The fields of a coordinator and of an election message |
| Decoding.DeserializeMessage | common/src/network/serials/deserialization/message.rs:10-34 | The dispatch over all messages |
| Utf8.Prefixed | common/src/network/serials/deserialization/operation.rs:163-192 | The length byte a bill's decoder reads as part of its text leaves it valid UTF-8 exactly below 128 |
| Utf8.ValidExactlyWhenEncoded | common/src/network/serials/deserialization/operation.rs:163-192 | The byte sequences a period may consist of are exactly the UTF-8 encodings of sequences of Unicode characters |
| RoundTrips.DumpReads | common/src/network/serials/deserialization/database_snapshot.rs:38-65 | An encoded snapshot reads back with every account and card in order, limits of -1.0 lost |
| RoundTrips.OpReads | common/src/network/serials/deserialization/operation.rs:19-192 | What an encoded operation reads back as |
| RoundTrips.ResultReads | common/src/network/serials/deserialization/operation_result.rs:24-178 | What an encoded result reads back as |
| RoundTrips.MessageReads | common/src/network/serials/deserialization/message.rs:10-169 | What every encoded message reads back as: itself but for limits of -1.0 and empty periods, an error or a panic for the variants without a decoder |
| RoundTrips.RoundTrip | common/src/network/serials/deserialization/message.rs:10-169 | Decoding gives the message back if and only if no limit has the bits 0xBF800000 of -1.0, a period is absent or non-empty with a length byte below 128, and the variant has a decoder |
| RoundTrips.Injective | common/src/network/serials/serialization/message.rs:9-40 | Two such messages never share an encoding |
| RoundTrips.SentinelIsLost | common/src/network/serials/deserialization/helpers.rs:15-25 | The input that breaks it: an account's limit with the bits 0xBF800000 comes back as no limit |
| Framing.StreamSender.SendHeartbeatRequest | common/src/network/handler/sender.rs:42-50 | Appends the frame of a heartbeat request |
| Framing.StreamSender.SendHeartbeatReply | common/src/network/handler/sender.rs:52-57 | Appends the frame of a heartbeat reply |
| Framing.StreamSender.Send | common/src/network/handler/sender.rs:64-76 | Takes one message from the channel and appends its frame, or reports that the channel is closed |
| Framing.StreamReceiver.Recv | common/src/network/handler/receiver.rs:71-105 | Reads one frame, tells heartbeats from messages, and forwards only what decodes |
| Framing.NeverAHeartbeat | common/src/network/handler/receiver.rs:89-94 | No encoded message is a one-byte heartbeat |
| Framing.FrameReads | common/src/network/handler/receiver.rs:71-105 | A frame below 65536 bytes is read back with its own kind and leaves exactly what follows |
| Framing.InStepExactlyWhenShort | common/src/network/handler/sender.rs:64-76 | The reader takes a message's frame for exactly one item and nothing more if and only if its encoding is below 65536 bytes |
| Framing.LongViewsGetOutOfStep | common/src/network/handler/sender.rs:64-76 | Such messages exist: the cluster view of a database with 3000 cards is encodable and its frame is never read back in step |
| Framing.StreamReads | common/src/network/handler/receiver.rs:71-105 | Any sequence of heartbeats and short messages written to a stream is read back as the same sequence |
| Framing.KeptArrive | common/src/network/handler/receiver.rs:96-104 | A message that survives the codec arrives unchanged |
| Clients.NodeClient.EnqueueOfflineCharge | client/src/node_client/node_client.rs:270-294 | The charge is queued last and then answered, under its own request id, unless the station is gone |
| Clients.NodeClient.ForwardOnlineCharge | client/src/node_client/node_client.rs:302-352 | Known nodes are tried in order, each with the pump's own request id and the client's address, until one takes the charge; it is queued exactly when all refused, and tracked exactly when one took it |
| Clients.NodeClient.ForwardOrEnqueueCharge | client/src/node_client/node_client.rs:231-264 | While disconnected nothing is tried and the charge is queued; no charge is both sent and queued |
| Clients.NodeClient.ReplayCharge | client/src/node_client/node_client.rs:376-412 | The inner retry loop: every attempt goes to the next node under the next replay id, modulo 2^32 |
| Clients.NodeClient.FlushOfflineQueue | client/src/node_client/node_client.rs:361-422 | Every queued charge is offered in order; exactly those nobody took stay queued, in their order |
| Clients.NodeClient.HandleStationMsg | client/src/node_client/node_client.rs:180-222 | Mode, queue, answers, the balance of charges, the numbering of replays and the requests tracked after any station message |
| Clients.NodeClient.HandleNodeMsg | client/src/node_client/node_client.rs:429-500 | A response is relayed exactly when it answers a tracked request, and only once |
| Clients.TriesSend | client/src/node_client/node_client.rs:320-352 | A charge offered to several nodes is delivered once or not at all |
| Clients.ReplaysSend | client/src/node_client/node_client.rs:361-422 | A flush delivers, once each and marked as replayed, exactly the charges it does not keep |
| Clients.ReplaysAt | client/src/node_client/node_client.rs:376-412 | Attempt by attempt: offer j of charge i comes behind all offers of the charges before it, goes to node j, carries that charge marked as replayed under the first id plus its position modulo 2^32, and is the last one exactly when the node takes it |
| Clients.PickAt | client/src/node_client/node_client.rs:413-422 | What a flush keeps stays in the order of the queue |
| Clients.ReplayIdTaken | client/src/node_client/node_client.rs:107-117 | A request id is among the first n replay ids of a new client if and only if it lies less than n after 1000000, modulo 2^32 |
| Clients.SharedId | client/src/node_client/node_client.rs:433-448 | Where they meet: a new client queues a charge while disconnected and replays it under 1000000; once a pump's request of that id is tracked, the response to the replay is told to the station as the verdict on the pump's charge, and the pump's own response is ignored |
| Clients.Run | client/src/node_client/node_client.rs:134-172 | Over every run and pattern of failures, as multisets: charges asked for, each under its own request id, are those delivered fresh under that id plus those queued; every offer goes to the known nodes in order under the client's address until one takes it; those queued are those replayed plus the queue left; the station was told `allowed` for each queued one under its own request id, in order, but for a last one it could not be told; replays are numbered consecutively; verdicts are relayed only under ids pumps asked for; and for a new client the ids of replays and of pumps stay apart if and only if no pump's id lies less than the number of replays offered after 1000000, modulo 2^32, in which case no replay is ever tracked or its response relayed |

## Left out

- Rounding of 32-bit floats: the ledger adds exact numbers, so a limit that is only exceeded by rounding is not seen.
- The 128-slot channel for events, which drops events when full: the model's channel is unbounded.
- `RouterCmd::GetLog`, `CardMsg::Debug` and all texts: they change no state; texts are reduced to one `DebugEvent`.
- Commits.AckCommits: says what acks do in a term with fixed members and at least one replica; joins while entries are under way are not modelled.
- Agreement.CommitOrder: assumes reliable FIFO links, databases that report in submission order, ids below 2^32 - 1 and no logged ReplaceDatabase; the program hands ReplaceDatabase to its database only directly, because replicas do not ack it.
- Agreement.Quiescence: requests under the leader's own address that are not charges are owed no reply, as in the code.
- Leaders.Leader.HandleRequest: the lone leader's path is modelled in the class but not in the term's state machine, which needs a replica; the class requires that the 32-bit counter does not overflow.
- Replicas.Replica.HandleLog: entry 0, whose predecessor would underflow, is excluded; no leader logs it.
- Bully.Convergence: assumes distinct ids, views that contain every live node, no node that fails or joins during the run, and an election timer that runs out only at the highest live node, whom no answer can reach first; before its time it may tick anywhere.
- Runtimes.NodeRuntime.HandleElectionMsg: dispatches election messages only; the other kinds go straight to the role's own handler, specified in `Leaders` and `Replicas`.
- Failover of the log: a promoted replica restarts at the highest id it holds and a demoted leader drops its pending operations, so replication is stated within one term.
- Joins and cluster views: `handle_join`, `handle_cluster_view` and `handle_cluster_update` on both roles, all of which use operation id 0.
- Offline mode of a cluster node: disconnecting and reconnecting, apart from the release of the queue after a restore and its move across a role change.
- Overlapping queries or bills on one account, bills or restores that overlap other operations, and what a query or snapshot shows of operations it overlaps: the code makes no promise there.
- Ids from addresses: `get_id_given_addr` is taken to be injective.
- Encoding.SerializeMessage: requires IPv4 addresses, because the program panics on IPv6, and lengths below 2^64.
- Decoding.ReadRecords: one method stands for the program's four loops over counted records, which differ only in record size and reader.
- Decoding.DeserializeMessage: a slice out of range and `todo!()` are both the value `Panic`.
- Decoding.DeserializeClusterView: the product in the length check wraps, as in a release build; a debug build panics there for declared lengths of 2^64 / 14 or more.
- Clients.NodeClient.HandleNodeMsg: a response to a replay whose id a pump's pending request shares is relayed to the pump, as in the code; `Clients.Run` says exactly when ids are shared.
- Clients.Run: the closing of the station's channel and errors of the network's receive end, which the loop only logs, are not events of the model.
- TCP, tokio, Actix and real time: links and mailboxes are sequences, timers are steps.
- The LRU map of connections, the pump table of the station, the administrator's console and the map: correct but easy.
