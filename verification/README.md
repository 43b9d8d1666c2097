# A verified model of the PArSEC transaction engine and its supporting code

OpenCBDC's PArSEC runs transactions over many shards. Each transaction has a *ticket* number. A
*runtime locking shard* locks keys for tickets by wound-wait two-phase locking. A *broker* takes a
ticket through locking, prepare, commit and finish over all shards it touches, and recovers tickets
after a crash from what the shards report. A *replicated shard* keeps prepared and committed tickets
in a log, from which a shard is rebuilt. An *agent* drives one ticket for a client. A *ticket
machine* hands out the numbers. Beside the engine, the project models code that is fast or
imperative against a simple specification: SHA-256, Bech32 with its base conversion, and the
wallet's coin selection with the value checks on transactions.

All files are checked together by `dafny verify dfyconfig.toml`.

## How the model is built

Operations that update state in place are methods of classes with the fields of the source
(`RuntimeLockingShard`, `Broker`, `ReplicatedShard`, `AgentProcess`, `TicketClient`, `Hasher`,
`Wallet`), or methods on arrays. Each is proved to compute a function on values, for example
`ShardSpec.TryLock` or `BrokerSpec.Commit`, and the properties of whole runs are proved of those
functions.

| files | contents |
|---|---|
| `LockTable`, `ShardSpec`, `ShardSteps`, `ShardWaiting`, `ShardRuns` | one shard: its operations on values, what a step does to every ticket, waiting, whole runs |
| `RuntimeLockingShard` | the shard's methods on its two tables |
| `BrokerSpec`, `Recovery`, `Brokers` | the broker's steps on values, what it makes of reports, and its methods |
| `Links`, `BrokerLinks`, `ShardLinks` | what broker record, messages under way and shard say about one ticket, and that every step keeps it |
| `Systems`, `Serializability`, `SystemRuns` | clients, brokers, links and shards together, with crashes and recoveries |
| `Progress`, `RecoveryRuns`, `SilentCommits` | what can complete and what cannot, what the success of a recovery means |
| `Worlds`, `WorldRuns` | agents as the clients of that system |
| `SystemWaiting`, `Patience`, `AgentWaiting`, `DeadlockFreedom` | deadlock over several shards: the demands on clients and runners, and that they are exact |
| `RunSteps`, `WaitCycles`, `AgentSteps`, `AgentCycles` | single steps of runs, and from them the runs that end in a circle |
| `Replication`, `Rebuilding`, `Failover`, `AgentFailover` | the replicated log, rebuilding a shard, a server and its failover, what agents make of it |
| `AgentSpec`, `Agents` | the agent as a state machine and its methods |
| `TicketMachine`, `TicketClients` | number ranges and the clients that hand them out |
| `Sha256Spec`, `Sha256`, `Sha256D64` | FIPS 180-4, the streaming hasher and its transform, the specialised double hash |
| `Bech32`, `Bech32Field`, `Bech32Errors`, `BaseConversion` | the checksum code of BIP 173, the field of its roots, the errors it detects, and power-of-two base conversion |
| `Transactions`, `Wallets` | value checks and coin selection |

The system of `Systems` is a step relation. An event is a request of a client, the handling of the
next request at a shard, the handling of the next response at a broker, the crash of a ticket's
broker, or a fresh broker taking up a ticket that shards report. Events come in any order. Requests
and responses of a ticket at a shard are delivered in order, and nothing is assumed about the order
between tickets or shards. The directory is an arbitrary fixed function from keys to shards.

The *order* of a system lists the tickets in the order in which their brokers found all shards
prepared. Serializability is stated by replaying that order on the initial database: each ticket
must have been told what the replay yields at its place, and the shards must hold what the replay
ends with.

The runs of `WorldRuns` add agents. An agent is told of a success once its broker has reported it,
may be told of any failure at any time, and makes its requests in any order that its acts allow. It
is proved that it never asks for what `Systems` does not allow a client to ask.

## What holds only under a condition

- Executing an agent while its function is being fetched fails an assertion; nothing else does
  (`AgentSpec.FailsExactlyWhen`, `AgentSpec.FailingRun`).
- A commit that the server submits twice overwrites the replicated values with empty ones. The values
  survive failovers if and only if no commit is repeated when a key it wrote has a value
  (`Failover.ValuesExactlyWhen`; a run is `Failover.WipedValue`).
- Log and shard stay related if and only if no ticket is prepared while a rollback of it is
  outstanding, nor finished while it is prepared (`Failover.RelatedExactlyWhen`; runs are
  `Failover.LostPrepare` and `Failover.FinishedTooSoon`).
- Agents and brokers do not meet these demands on a server, except that a finish never meets a
  prepared ticket (`AgentFailover.FinishMeetsNoPrepared`). An agent that is executed again repeats its
  commit or its rollback (src/parsec/agent/impl.cpp:58-71), and a server that gets the requests which
  follow loses a value or a prepare (`AgentFailover.AgentsWipe`, `AgentFailover.AgentsLosePrepare`).
- Recovery of a shard goes ahead on leftover values. It is exact if and only if they are the
  replicated ones (`Replication.RebuiltOnto`, `Failover.StaleValue`). The controller recovers a fresh
  shard (src/parsec/runtime_locking_shard/controller.cpp:92-97).
- When the recovery of a broker finds no tickets, the reports are not cleared
  (src/parsec/broker/impl.cpp:952-956). A second recovery on the same object then reports success at
  its first report, whatever the shards hold. Success at once is true if and only if no reports were
  left behind, or some name a ticket (`Recovery.SuccessIsTrueExactlyWhen`, `Brokers.RecoverTwice`).
  With nothing left behind success means that no shard holds a ticket that the crash left behind
  (`RecoveryRuns.RecoverySuccessIsTrue`).
- A commit that touched no shard gets no reply (src/parsec/broker/impl.cpp:450-489). Every other
  commit of a ticket in progress is refused or sent to a shard
  (`SilentCommits.SilentCommitExactlyWhen`, `SilentCommits.SilentCommit`).
- A late response to a repeated rollback makes the broker list a shard on which the ticket has no
  locks (src/parsec/broker/impl.cpp:677). It does no harm to values, but a later rollback waits for
  that shard for ever: it never completes unless the broker crashes. A rollback can complete if and
  only if no such shard is listed (`Progress.RollbackCompletesExactlyWhen`, `Progress.HungRollback`).
- Each shard is free of deadlock. Over several shards tickets never wait in a circle if and only if
  clients ask for no lock once a commit was accepted, and for no commit while a lock is unanswered,
  or all keys are on one shard (`DeadlockFreedom.ClientsAreFreeExactlyWhen`). Each demand has a run
  that breaks only it: `WaitCycles.LateDeadlock` and `AgentCycles.HastyDeadlock`. In the second an
  answer to an earlier request for the same key marks the key as locked
  (src/parsec/broker/impl.cpp:99-104) while a later one waits, so the broker accepts the commit. Agents
  keep the first demand, and for the second it is the runners that decide: no run of agents reaches a
  circle if and only if runners wait for all answers before they end, or all keys are on one shard
  (`DeadlockFreedom.AgentsAreFreeExactlyWhen`).
- A crash may lose a decision that no shard has acted on yet. The ticket then leaves the order
  (`SystemRuns.OrderStep`), and recovery rolls it back. Once success was reported, it stays
  (`SystemRuns.CommittedIsFinal`).
- Debits leave the wallet's index but not its queue, so that the size assertion holds if and only if
  no debit was in the index (`Wallets.DebitsMustBeOut`, `Wallets.DebitStillIn`).
- The amount of a fan-out is a product in 64 bits of a 64-bit number of outputs and a 32-bit value:
  values are conserved if and only if it does not overflow (`Wallets.Wallet.Fan`; the input of
  `Wallets.FanOverflows` is 2^33 outputs of 2^31).

## Model

| member | source | states |
|---|---|---|
| `SystemRuns.Serializable` | src/parsec/broker/impl.cpp:223-307 | In every reachable state of every run of clients, brokers, links and shards, with broker crashes and recoveries, of clients that keep the demands which `WorldRuns` discharges for agents: replaying the decided tickets one at a time, in the order of their decisions, gives each of them exactly the values it was told, cached values included, and the value of every key at its shard is the replayed one up to decided writes still on their way to that shard |
| `SystemRuns.RestingSystemIsSerial` | src/parsec/broker/impl.cpp:281-374 | Once no decided commit is under way, every shard holds exactly the values of the serial replay |
| `SystemRuns.AllOrNothing` | src/parsec/broker/impl.cpp:281-374 | Atomic commit in every reachable state: a shard has committed a ticket only if it was decided; each shard of a decided ticket has committed it or holds it prepared with the commit on its way or to be recovered; an aborted ticket is unknown to every shard and undecided |
| `SystemRuns.AtomicOutcome` | src/parsec/broker/impl.cpp:571-729 | Over whole runs with crashes: a ticket that no broker and no shard knows any more was decided and every one of its writes was applied at its shard, or it was not and none of its writes ever was |
| `SystemRuns.WritesArrive` | src/parsec/broker/impl.cpp:309-374 | Every write of every decided ticket was applied by its shard at some earlier step, or waits there prepared |
| `SystemRuns.AppliedIsFinal` | src/parsec/broker/impl.cpp:973-1030 | Once a shard has applied a write of a ticket, the ticket stays decided in every later state, whatever crashes and is recovered |
| `SystemRuns.CommittedIsFinal` | src/parsec/broker/impl.cpp:309-374 | Once a broker has counted a ticket as committed everywhere, which is when it reports success, the ticket stays in the order in every later state, read-only tickets included, whatever crashes and is recovered |
| `SystemRuns.NoFatalError` | src/parsec/runtime_locking_shard/impl.cpp:30-35 | No request a broker sends, in any run, meets the fatal error of a first lock on a known ticket |
| `SystemRuns.ReachableSystem` | src/parsec/broker/impl.cpp:132-180 | The invariant that ties broker records, links, shards and the serial order together holds in every reachable state |
| `SystemRuns.EventKeepsSystem` | src/parsec/broker/impl.cpp:74-130 | Every event keeps that invariant: client requests, shard steps, responses, crashes, recoveries |
| `SystemRuns.InitialInv` | src/parsec/broker/impl.cpp:13-24 | Empty shards that hold an initial database, without tickets, satisfy the invariant |
| `SystemRuns.OrderStep` | src/parsec/broker/impl.cpp:223-307 | A ticket enters the order only when its broker handles the last prepare response, and leaves it only when its broker crashes before any shard acted on the decision |
| `SystemRuns.ClientStays` | src/parsec/broker/impl.cpp:376-443 | What a client was told and asked to write does not change once its ticket is decided |
| `SystemRuns.LinkFate` | src/parsec/broker/impl.cpp:223-374 | What the link invariant says of one ticket at one shard: committed only if decided; decided means neither begun nor wounded; prepared and decided means the commit is under way; aborted or forgotten means unknown |
| `SystemRuns.CommittedStays` | src/parsec/broker/impl.cpp:492-569 | A decided ticket stays committed at a shard until it is committed everywhere |
| `SystemRuns.PendingStep` | src/parsec/broker/impl.cpp:309-374 | A decided write that waits at its shard still waits after any event, or that event is the shard applying it |
| `SystemRuns.NewlyPending` | src/parsec/broker/impl.cpp:223-307 | At the moment of a decision every write of the ticket waits prepared at its shard |
| `Systems.EventKeepsWired` | src/parsec/broker/impl.cpp:74-130 | Every event keeps the relation between each broker record, each link and each shard |
| `Systems.AskCommitGood` | src/parsec/broker/impl.cpp:376-490 | A commit request keeps the relation: every shard is sent exactly its share of the update, and only shards not prepared yet |
| `Systems.ReceiveGood` | src/parsec/broker/impl.cpp:182-374 | Handling any response keeps the relation for every shard of the ticket |
| `Systems.ShardedWired` | src/parsec/runtime_locking_shard/impl.cpp:14-117 | Handling any request at a shard keeps the relation for the ticket it is about and for every ticket it wounds, grants or refuses |
| `Systems.CrashWired` | src/parsec/broker/impl.cpp:882-905 | A broker crash, which drops everything still under way, keeps the relation |
| `Systems.CrashWhole` | src/parsec/broker/impl.cpp:882-905 | After a crash, a decided ticket that some shard committed and another still holds prepared is known to every shard it concerns, each with its share of the update |
| `Systems.ReportsTell` | src/parsec/broker/impl.cpp:907-971 | What the shards report of a ticket tells a fresh broker whether it was decided: it was if and only if some shard reports it committed |
| `Systems.RecoverShape` | src/parsec/broker/impl.cpp:973-1030 | Recovery finishes if all shards report committed, commits the rest if some do, and rolls back otherwise, with the matching record and request for each shard |
| `Systems.TakeUpWired` | src/parsec/broker/impl.cpp:907-1030 | Taking up a reported ticket keeps the relation, so that everything proved of runs holds after recovery |
| `Systems.TakeUpTicket` | src/parsec/broker/impl.cpp:973-1030 | The record made from the reports is decided exactly when the crashed broker had decided for good |
| `Serializability.DecisionShards` | src/parsec/broker/impl.cpp:223-279 | When a broker decides, every shard it lists holds the ticket prepared |
| `Serializability.DecisionKeys` | src/parsec/broker/impl.cpp:223-279 | When a broker decides, every key the client was told about or writes is locked by the ticket at its own shard, with the value told |
| `Serializability.DecisionReads` | src/parsec/broker/impl.cpp:223-279 | What a ticket was told is what the serial run of the tickets decided before it yields |
| `Serializability.DecisionValue` | src/parsec/broker/impl.cpp:281-307 | A decision keeps the values of shards and of the serial run in step |
| `Serializability.WriterIsSole` | src/parsec/runtime_locking_shard/impl.cpp:482-540 | Two tickets that hold a key, one of them prepared to write it, are the same ticket |
| `Serializability.HeldIsSettled` | src/parsec/runtime_locking_shard/impl.cpp:180-245 | A key that a ticket holds at its decision has no other decided write waiting |
| `Serializability.CommitIsDecided` | src/parsec/runtime_locking_shard/impl.cpp:247-299 | A commit request reaches a prepared ticket only once it is decided |
| `Serializability.DecidedStays` | src/parsec/runtime_locking_shard/impl.cpp:119-154 | A decided ticket stays prepared with the same update until its own commit |
| `Serializability.ShardedKey` | src/parsec/runtime_locking_shard/impl.cpp:247-299 | A shard step keeps the value of every key serial: only commits of decided tickets change values, each to the replayed value |
| `Serializability.ReceiveSerial` | src/parsec/broker/impl.cpp:223-307 | Handling a response, which may decide the ticket, keeps all reads and values serial |
| `Serializability.CrashSerial` | src/parsec/broker/impl.cpp:882-905 | Losing a decision that no shard has acted on keeps the remaining order serial |
| `Serializability.ReplaySkips` | src/parsec/broker/impl.cpp:882-905 | Leaving one ticket out of the serial run changes no key that it does not write |
| `BrokerLinks.PartIsShare` | src/parsec/broker/impl.cpp:445-490 | The part of an update sent to a shard, split by the keys tracked under it, is exactly the part whose keys the directory places there |
| `BrokerLinks.SharesPartition` | src/parsec/broker/impl.cpp:399-490 | The parts sent to different shards are disjoint, and every key of the update, with its value, is in one of them |
| `BrokerLinks.AskLockOwn` | src/parsec/broker/impl.cpp:731-802 | A lock request keeps the link to its own shard in order: a first request goes out exactly when the shard has not been asked before, and a cached value is still current |
| `BrokerLinks.CachedIsCurrent` | src/parsec/broker/impl.cpp:731-802 | A value served from the key cache is still the value at the shard, and the key is still locked there, unless the ticket was wounded |
| `BrokerLinks.NextLock` | src/parsec/broker/impl.cpp:763-795 | Sending a further lock request keeps an active link in order |
| `BrokerLinks.AskCommitTicket` | src/parsec/broker/impl.cpp:376-443 | A commit request keeps the ticket record consistent with what the client was told and asked |
| `BrokerLinks.AskRollbackLink` | src/parsec/broker/impl.cpp:571-650 | A rollback request turns a link in progress into one that is being undone |
| `BrokerLinks.AskFinishLink` | src/parsec/broker/impl.cpp:492-569 | A finish request keeps the link of a committed or aborted ticket in order |
| `BrokerLinks.ReceiveLockValue` | src/parsec/broker/impl.cpp:74-130 | Handling a granted lock records a current value |
| `BrokerLinks.ReceivePrepare` | src/parsec/broker/impl.cpp:182-279 | Handling a prepare response: prepared everywhere leads to the decision, an error does not |
| `BrokerLinks.ReceiveUndoing` | src/parsec/broker/impl.cpp:652-729 | Handling a rollback response keeps the link in order, also when it answers a repeated rollback |
| `BrokerLinks.ReceiveDeciding` | src/parsec/broker/impl.cpp:309-374 | Handling a commit response keeps the link in order; no commit of a decided ticket is ever refused |
| `BrokerLinks.ReceiveEnding` | src/parsec/broker/impl.cpp:804-880 | Handling a finish response keeps the link in order |
| `BrokerLinks.ReceiveOther` | src/parsec/broker/impl.cpp:182-374 | Handling a response of one shard keeps the links of all other shards in order |
| `BrokerLinks.ValueFromOwnShard` | src/parsec/broker/impl.cpp:74-130 | A value handled by the broker comes from the shard that owns its key |
| `ShardLinks.ServeOwn` | src/parsec/runtime_locking_shard/impl.cpp:14-117 | Whatever request a shard handles, the link of its ticket stays in order |
| `ShardLinks.ServeOther` | src/parsec/runtime_locking_shard/impl.cpp:119-154 | Whatever request a shard handles, the links of all other tickets stay in order, with the answers they receive |
| `ShardLinks.ActiveLock` | src/parsec/runtime_locking_shard/impl.cpp:14-117 | A lock request keeps an active link in order: answers carry current values, and nothing is granted to a prepared ticket |
| `ShardLinks.ActivePrepare` | src/parsec/runtime_locking_shard/impl.cpp:180-245 | A prepare stores the share of the update that the client asked for |
| `ShardLinks.UndoingRollback` | src/parsec/runtime_locking_shard/impl.cpp:357-396 | A rollback leaves the ticket unknown to the shard |
| `ShardLinks.DecidingRequest` | src/parsec/runtime_locking_shard/impl.cpp:247-299 | The commit of a decided ticket succeeds |
| `Links.ForwardTurnsBack` | src/parsec/broker/impl.cpp:571-650 | A rollback may follow any requests of a ticket in progress |
| `Links.ForwardAppend` | src/parsec/broker/impl.cpp:763-795 | The first-lock flag is set on exactly the first lock request of a ticket to a shard |
| `WorldRuns.AgentsAreSerializable` | src/parsec/agent/impl.cpp:354-383 | Serializability of every run of agents, brokers and shards, with crashes, failing calls and replies in any order, and with no assumption about clients |
| `WorldRuns.AgentsAreNeverHeld` | src/parsec/agent/impl.cpp:191-383 | In every reachable state, whatever an agent is told and however its calls go, all it then asks of its broker meets the demands on clients: no lock and no commit while the ticket is rolled back, one update per attempt |
| `WorldRuns.ReportedIsCommitted` | src/parsec/agent/impl.cpp:480-550 | What an agent reports to its caller as committed is a transaction of the serial order with exactly those writes, none for a read-only run, and stays one in every later state |
| `WorldRuns.WorldIsHistory` | src/parsec/agent/impl.cpp:38-109 | What broker and shards go through while agents act is a run of the system, so that everything proved of such runs holds of agents |
| `WorldRuns.MoveKeeps` | src/parsec/agent/impl.cpp:38-655 | Every happening keeps every agent in step with the record, the client and the replies of its ticket |
| `WorldRuns.BeginGoes` | src/parsec/agent/impl.cpp:111-170 | A broker may begin any fresh number for an agent that waits for one, and what the agent then asks is allowed |
| `Worlds.TurnPath` | src/parsec/agent/impl.cpp:191-655 | The requests of one turn of an agent, in any order of its locks, are all possible at the broker, and its ticket fits it again |
| `Worlds.MayAsk` | src/parsec/agent/impl.cpp:354-383 | What an agent may rely on when it asks: locks only without a commit or rollback under way, a commit only with the update asked before, a finish only of what is decided |
| `Worlds.ResponseFits` | src/parsec/broker/impl.cpp:182-374 | A response handled by the broker keeps ticket and agent in step |
| `Worlds.CommitFits` | src/parsec/broker/impl.cpp:376-490 | So does a commit asked by the agent |
| `Worlds.RollbackFits` | src/parsec/broker/impl.cpp:571-650 | So does a rollback |
| `AgentSpec.AgentSteers` | src/parsec/agent/impl.cpp:38-655 | In every state and for every event: locks are asked for only before a commit and not while rolling back, one update is committed, a rollback is repeated until one has succeeded, and only what is decided is finished |
| `AgentSpec.AgentRemembers` | src/parsec/agent/impl.cpp:425-550 | What is reported as committed is what was asked to be committed, in the attempt whose commit succeeded |
| `Progress.EveryTicketCanEnd` | src/parsec/broker/impl.cpp:882-1030 | From every reachable state every ticket can be brought to its end by events of its own, if need be a crash of its broker and recovery; then all of its writes were applied, or none ever was |
| `Progress.RecoveryCanComplete` | src/parsec/broker/impl.cpp:907-1083 | From every reachable state in which the broker of a ticket has crashed, recovery can take it to where no shard knows it |
| `Progress.CommitCanComplete` | src/parsec/broker/impl.cpp:281-374 | From every state with a decided ticket deliveries alone lead to its commit everywhere |
| `Progress.FinishCanComplete` | src/parsec/broker/impl.cpp:492-569 | A ticket committed everywhere can be finished |
| `Progress.DecidedCanEnd` | src/parsec/broker/impl.cpp:492-729 | A decided or aborted ticket can be brought to its end by events of its own |
| `Progress.RollbackCompletesExactlyWhen` | src/parsec/broker/impl.cpp:571-729 | In every reachable state with a ticket in progress that is not being rolled back: a rollback asked for can complete without a crash, whatever else happens, if and only if every shard the broker lists for the ticket has keys of it |
| `Progress.HungRollback` | src/parsec/broker/impl.cpp:652-679 | A run with a client that keeps to the rules after which no events but a crash of the broker can complete the rollback |
| `Progress.LateResponse` | src/parsec/broker/impl.cpp:671-679 | A late answer to a repeated rollback makes the broker list a shard without keys |
| `Progress.StuckForever` | src/parsec/broker/impl.cpp:652-729 | Once a rollback waits for such a shard it waits in every later state without a crash |
| `Progress.RequestsAreServed` | src/parsec/runtime_locking_shard/impl.cpp:14-117 | Every request under way can be handled by its shard |
| `Progress.ShardConfirms` | src/parsec/runtime_locking_shard/impl.cpp:247-429 | A shard that owes a confirmation can be brought to give it by deliveries of that ticket |
| `Progress.AllConfirm` | src/parsec/broker/impl.cpp:309-374 | So can all of them, one after the other |
| `Progress.ForgottenIsGone` | src/parsec/broker/impl.cpp:804-880 | A ticket that no broker manages and no crash has left behind is unknown to every shard |
| `RecoveryRuns.RecoverySuccessIsTrue` | src/parsec/broker/impl.cpp:882-1065 | Over every run: when a broker that recovers has entered what each shard reported, at whatever times, and its table is empty, which is when it reports success, no shard holds any ticket that the crash left behind, reported or not |
| `RecoveryRuns.LostStaysUnknown` | src/parsec/broker/impl.cpp:907-971 | A shard that does not know a ticket whose broker has crashed does not learn of it before it is taken up |
| `SilentCommits.SilentCommitExactlyWhen` | src/parsec/broker/impl.cpp:445-490 | In every reachable state: a commit of a ticket in progress that is not refused sends nothing and replies nothing if and only if the ticket has touched no shard |
| `SilentCommits.SilentCommit` | src/parsec/broker/impl.cpp:445-490 | The run that reaches it: begin a ticket and commit it; nothing is under way afterwards |
| `SilentCommits.ReachableUnsettled` | src/parsec/broker/impl.cpp:223-279 | In every reachable state a ticket in progress that touched a shard has one that is not prepared |
| `DeadlockFreedom.ClientsAreFreeExactlyWhen` | src/parsec/runtime_locking_shard/impl.cpp:119-178 | For every placement of keys on finitely many shards: no run of the system, with crashes and recoveries, reaches a circle of tickets that wait for each other over any shards if and only if the clients keep both of two demands, or all keys are on one shard. The demands are on what a client asks and has been told: it asks for no lock once a commit of the attempt was accepted, and for no commit while a lock it asked for in the attempt is unanswered |
| `DeadlockFreedom.AgentsAreFreeExactlyWhen` | src/parsec/agent/impl.cpp:172-238 | For agents: no run reaches such a circle if and only if a runner ends only once all the locks it asked for were answered, or all keys are on one shard |
| `Patience.PatientNeverDeadlock` | src/parsec/runtime_locking_shard/impl.cpp:119-178 | Clients that keep both demands never get tickets to wait in a circle, in any reachable state |
| `Patience.OneShardNeverDeadlocks` | src/parsec/runtime_locking_shard/impl.cpp:119-178 | Nor do clients that lock late or commit early, when all keys are on one shard |
| `Patience.PatientIsResolved` | src/parsec/broker/impl.cpp:445-490 | Under the demands, in every reachable state, a ticket that a shard holds prepared or is asked to prepare has no lock request under way, queued or answered but not yet told |
| `Patience.OpenBounds` | src/parsec/broker/impl.cpp:132-180 | Over every run: what is under way, queued or on its way back of the lock requests for a key is no more than what the client counts as unanswered |
| `Patience.LoadStep` | src/parsec/broker/impl.cpp:731-802 | Any event adds to the requests under way for a key only if it asks for that lock, and takes one away when the client is told |
| `Patience.ServedLoad` | src/parsec/runtime_locking_shard/impl.cpp:301-396 | A step of a shard leaves, in answers and queue together, no more requests of a ticket for a key than it met |
| `Patience.PreparingStep` | src/parsec/broker/impl.cpp:445-490 | A ticket comes to be prepared, or asked to be, only through a commit that its broker passes on |
| `Patience.AbortedIsUnloaded` | src/parsec/broker/impl.cpp:652-729 | In every reachable state a ticket that was rolled back has no lock request under way |
| `WaitCycles.LateDeadlock` | src/parsec/broker/impl.cpp:132-180 | A run into a circle over any two shards, of clients that keep the second demand: one locks a further key after it has asked to commit |
| `AgentCycles.HastyDeadlock` | src/parsec/broker/impl.cpp:74-130 | A run of agents into such a circle: one asks for a key to read and again to write before the first answer, which then counts for both, so that the commit is accepted while the second request waits |
| `AgentWaiting.AgentsLockInTime` | src/parsec/agent/impl.cpp:191-238 | Agents always keep the first demand |
| `AgentWaiting.AttentiveIsPatient` | src/parsec/agent/impl.cpp:354-383 | With runners that wait for their answers they keep the second |
| `AgentWaiting.AttentiveNeverDeadlock` | src/parsec/agent/impl.cpp:385-423 | So agents with such runners never wait for each other in a circle |
| `AgentWaiting.FlatIsLawful` | src/parsec/agent/impl.cpp:38-655 | Every run of agents is, event by event, a run of the system |
| `AgentSpec.AgentCommits` | src/parsec/agent/impl.cpp:354-423 | An agent first asks for a commit when its function has run to its end |
| `SystemWaiting.DeadlockNeedsStraddling` | src/parsec/runtime_locking_shard/impl.cpp:119-178 | The step from one shard to several: in every reachable state a circle of waiting tickets contains one that is prepared on one shard and queued on another |
| `SystemWaiting.WaitsForOlder` | src/parsec/runtime_locking_shard/impl.cpp:119-178 | Across shards a waiting ticket waits for an older one, for one that waits for nothing, or for one prepared elsewhere |
| `ShardWaiting.WaitsForOlderOrPrepared` | src/parsec/runtime_locking_shard/impl.cpp:119-178 | A ticket waits only for strictly older tickets or for prepared ones, and a prepared ticket waits for nothing |
| `ShardWaiting.NoDeadlock` | src/parsec/runtime_locking_shard/impl.cpp:119-178 | The wait-for graph has no cycle in any state that satisfies the invariant |
| `ShardWaiting.WaitPathAges` | src/parsec/runtime_locking_shard/impl.cpp:156-178 | Along every wait path tickets get older until perhaps a prepared one ends it |
| `ShardWaiting.FrontIsBlocked` | src/parsec/runtime_locking_shard/impl.cpp:482-540 | The front of every queue is blocked by a holder: no front is left grantable |
| `ShardWaiting.SomeHolderCanRun` | src/parsec/runtime_locking_shard/impl.cpp:347-355 | Progress: from every waiting ticket a wait path leads to a lock holder that waits for nothing |
| `ShardRuns.ReachableInv` | src/parsec/runtime_locking_shard/impl.cpp:14-117 | In every reachable state lock table and ticket table agree: a writer excludes readers, queues hold only live unprepared tickets, wounded and committed tickets hold and queue nothing, no queue front is grantable, prepared updates are write-locked |
| `ShardRuns.RunsNeverDeadlock` | src/parsec/runtime_locking_shard/impl.cpp:119-178 | No reachable state has a cycle of waiting tickets |
| `ShardRuns.PreparedImmune` | src/parsec/runtime_locking_shard/impl.cpp:119-154 | Over any run of other operations a prepared ticket keeps its record, its update, its locks and the values it has locked, until its own commit or rollback |
| `ShardRuns.PreparedCommits` | src/parsec/runtime_locking_shard/impl.cpp:247-299 | The commit of a prepared ticket, whenever it comes, succeeds and changes exactly the keys of its update |
| `ShardRuns.WoundedByOlder` | src/parsec/runtime_locking_shard/impl.cpp:119-154 | Only a lock request of a strictly older ticket wounds, and only an unprepared ticket |
| `ShardRuns.RunsAreSerial` | src/parsec/runtime_locking_shard/impl.cpp:180-299 | Every run of a shard equals the serial run of its committed tickets in commit order: final values and the values each ticket was given |
| `ShardRuns.StepAnswersOnce` | src/parsec/runtime_locking_shard/impl.cpp:301-396 | One step answers once, or keeps in one queue, every request that waited before it and the one it brings; none is both answered and waiting |
| `ShardRuns.RequestsAnsweredOnce` | src/parsec/runtime_locking_shard/impl.cpp:90-117 | Over every run each accepted lock request has been answered exactly once or is still in exactly one queue |
| `ShardRuns.HistoryStep` | src/parsec/runtime_locking_shard/impl.cpp:247-299 | A commit appends to the serial history a ticket all of whose reads are current |
| `ShardSteps.StepKeepsInv` | src/parsec/runtime_locking_shard/impl.cpp:14-117 | Every operation keeps the shard invariant |
| `ShardSteps.LockedValueStable` | src/parsec/runtime_locking_shard/impl.cpp:482-540 | Strict two-phase locking: the value of a key does not change while another ticket than the committing one holds a lock on it |
| `ShardSteps.StepValue` | src/parsec/runtime_locking_shard/impl.cpp:247-299 | Only the commit of a prepared ticket changes values, and exactly those of its update |
| `ShardSteps.OthersLocks` | src/parsec/runtime_locking_shard/impl.cpp:301-345 | Another ticket either loses everything or keeps its locks and is at most granted what it queued for |
| `ShardSteps.OthersRecords` | src/parsec/runtime_locking_shard/impl.cpp:119-154 | Another ticket keeps its record, unless it was unprepared and strictly younger and is wounded |
| `ShardSteps.AnswerOrigin` | src/parsec/runtime_locking_shard/impl.cpp:301-396 | Every answer goes to a request that leaves its queue, or refuses the request just made |
| `ShardSteps.GrantedFacts` | src/parsec/runtime_locking_shard/impl.cpp:482-540 | A granted request holds its lock, belongs to a live ticket, and carries the value of the key |
| `ShardSteps.RefusedFacts` | src/parsec/runtime_locking_shard/impl.cpp:301-345 | A queued request is refused only because its ticket was wounded or rolled back |
| `ShardSpec.TryLockKeepsInv` | src/parsec/runtime_locking_shard/impl.cpp:14-117 | Locking, with its wounding and granting, keeps the invariant |
| `ShardSpec.PrepareKeepsInv` | src/parsec/runtime_locking_shard/impl.cpp:180-245 | Preparing keeps the invariant |
| `ShardSpec.CommitKeepsInv` | src/parsec/runtime_locking_shard/impl.cpp:247-299 | Committing keeps the invariant |
| `ShardSpec.RollbackKeepsInv` | src/parsec/runtime_locking_shard/impl.cpp:357-396 | Rolling back keeps the invariant |
| `ShardSpec.FinishKeepsInv` | src/parsec/runtime_locking_shard/impl.cpp:398-429 | Finishing keeps the invariant |
| `ShardSpec.RelockFacts` | src/parsec/runtime_locking_shard/impl.cpp:301-355 | What releasing and granting does to one lock: victims vanish, others keep what they hold, the queue shrinks from its front, and no front is left grantable |
| `LockTable.SettleFacts` | src/parsec/runtime_locking_shard/impl.cpp:482-540 | Granting a queue until it stops ends with a well-formed lock whose front cannot be granted and in which nobody has lost anything |
| `RuntimeLockingShards.RuntimeLockingShard.TryLock` | src/parsec/runtime_locking_shard/impl.cpp:14-117 | The method on the two tables computes the specified step: same refusals in the same order, same victims, same new tables, one callback per answer; both tables agree before and after |
| `RuntimeLockingShards.RuntimeLockingShard.RefuseLock` | src/parsec/runtime_locking_shard/impl.cpp:30-82 | The errors of a lock request, in the order in which the code checks them |
| `RuntimeLockingShards.RuntimeLockingShard.QueueLock` | src/parsec/runtime_locking_shard/impl.cpp:84-105 | Queueing, wounding and granting give the specified tables and answers |
| `RuntimeLockingShards.RuntimeLockingShard.WoundEach` | src/parsec/runtime_locking_shard/impl.cpp:119-154 | Exactly the blocking tickets that are not prepared are wounded; their queued requests are answered and the keys they gave up returned |
| `RuntimeLockingShards.RuntimeLockingShard.WoundTickets` | src/parsec/runtime_locking_shard/impl.cpp:119-154 | Wounding followed by granting every affected key settles all queues |
| `RuntimeLockingShards.RuntimeLockingShard.RefusePrepare` | src/parsec/runtime_locking_shard/impl.cpp:186-236 | No error if and only if the ticket may prepare this update; otherwise one of the errors that apply |
| `RuntimeLockingShards.RuntimeLockingShard.Prepare` | src/parsec/runtime_locking_shard/impl.cpp:180-245 | The new tables are those of the specified prepare |
| `RuntimeLockingShards.RuntimeLockingShard.WriteUpdate` | src/parsec/runtime_locking_shard/impl.cpp:268-270 | The update is written to exactly its keys |
| `RuntimeLockingShards.RuntimeLockingShard.Commit` | src/parsec/runtime_locking_shard/impl.cpp:247-299 | The tables and callbacks are those of the specified commit; its assertion never fails: no queued request of the ticket is refused |
| `RuntimeLockingShards.RuntimeLockingShard.HandOver` | src/parsec/runtime_locking_shard/impl.cpp:272-279 | Releasing and granting onwards answers each request that leaves a queue once |
| `RuntimeLockingShards.RuntimeLockingShard.ReleaseLocks` | src/parsec/runtime_locking_shard/impl.cpp:301-345 | Every lock and queue entry of the ticket is found and removed, each withdrawn request gets one answer, and exactly the affected keys are returned |
| `RuntimeLockingShards.RuntimeLockingShard.AcquireLock` | src/parsec/runtime_locking_shard/impl.cpp:482-540 | The front of a queue is granted exactly if it is compatible, upgrades included, and the result says whether to go on |
| `RuntimeLockingShards.RuntimeLockingShard.AcquireKey` | src/parsec/runtime_locking_shard/impl.cpp:347-355 | The grant loop ends, with the queue granted as far as possible |
| `RuntimeLockingShards.RuntimeLockingShard.AcquireLocks` | src/parsec/runtime_locking_shard/impl.cpp:347-355 | All given keys are granted as far as possible |
| `RuntimeLockingShards.RuntimeLockingShard.Rollback` | src/parsec/runtime_locking_shard/impl.cpp:357-396 | The tables and callbacks are those of the specified rollback |
| `RuntimeLockingShards.RuntimeLockingShard.Finish` | src/parsec/runtime_locking_shard/impl.cpp:398-429 | The tables are those of the specified finish |
| `RuntimeLockingShards.RuntimeLockingShard.GetTickets` | src/parsec/runtime_locking_shard/impl.cpp:431-447 | The phases of exactly the tickets of one broker |
| `RuntimeLockingShards.RuntimeLockingShard.constructor` | src/parsec/runtime_locking_shard/impl.cpp:11-13 | An empty shard |
| `Brokers.Broker.HandleTicketNumber` | src/parsec/broker/impl.cpp:39-68 | A number range gives the caller its first number, with an empty record unless it has one, and the highest number seen is remembered; without one the caller gets an error and nothing changes |
| `Brokers.Broker.TryLock` | src/parsec/broker/impl.cpp:132-180 | The new record, the request sent and the reply are those of the specified step, cached values and restart of an aborted ticket included |
| `Brokers.Broker.HandleLock` | src/parsec/broker/impl.cpp:74-130 | Likewise for the response to a lock request |
| `Brokers.Broker.Commit` | src/parsec/broker/impl.cpp:376-490 | Likewise for a commit request: waiting for locks, hazard check, prepare or commit |
| `Brokers.Broker.HandlePrepare` | src/parsec/broker/impl.cpp:182-307 | Likewise for a prepare response, up to the decision and the commits it sends |
| `Brokers.Broker.HandleCommit` | src/parsec/broker/impl.cpp:309-374 | Likewise for a commit response |
| `Brokers.Broker.Rollback` | src/parsec/broker/impl.cpp:571-650 | Likewise for a rollback request |
| `Brokers.Broker.HandleRollback` | src/parsec/broker/impl.cpp:652-729 | Likewise for a rollback response |
| `Brokers.Broker.Finish` | src/parsec/broker/impl.cpp:492-569 | Likewise for a finish request |
| `Brokers.Broker.HandleFinish` | src/parsec/broker/impl.cpp:804-880 | Likewise for a finish response, which forgets the ticket once all shards have finished |
| `Brokers.Broker.SendToOthers` | src/parsec/broker/impl.cpp:281-307 | Every shard not yet in the given phase is put into the next one and sent the request, no other shard is |
| `Brokers.Broker.Recover` | src/parsec/broker/impl.cpp:882-905 | Recovery starts if and only if no ticket is in flight and every shard can be asked; the shards are asked in order up to the first that cannot be reached |
| `Brokers.Broker.HandleGetTickets` | src/parsec/broker/impl.cpp:907-971 | A shard that reports an error is passed on and changes nothing. Once there is a report for every shard, every ticket, reported or in flight, has the record and requests that its merged phases call for; it ends with a fatal error if and only if some phase does not belong there, and with success if and only if there is no ticket, in which case the reports stay |
| `Brokers.Broker.RecoverTicket` | src/parsec/broker/impl.cpp:975-1028 | The choice made from counting committed shards is the specified one, fatal if and only if a phase does not belong there |
| `Brokers.Broker.DoRecovery` | src/parsec/broker/impl.cpp:973-1030 | The choice is made for every ticket of the table |
| `Brokers.Broker.HandleRecoveryCommit` | src/parsec/broker/impl.cpp:1032-1049 | A failed commit is reported as a commit error; otherwise the ticket is finished |
| `Brokers.Broker.HandleRecoveryRollback` | src/parsec/broker/impl.cpp:1067-1083 | A failed rollback is reported as a rollback error; otherwise the ticket is dropped, and recovery is reported as done if and only if it was the last one |
| `Brokers.Broker.HandleFinishRecovering` | src/parsec/broker/impl.cpp:1051-1065 | Recovery is reported as done if and only if this is the answer of the last shard about the last ticket |
| `Brokers.CollectKeys` | src/parsec/broker/impl.cpp:399-411 | Whether a lock is still awaited, and otherwise all keys the ticket has locked |
| `Brokers.CheckKeys` | src/parsec/broker/impl.cpp:412-423 | The hazard check passes if and only if every key of the update is locked |
| `Brokers.SplitUpdate` | src/parsec/broker/impl.cpp:463-469 | The part of an update whose keys are tracked under one shard |
| `Brokers.PrepareShards` | src/parsec/broker/impl.cpp:445-490 | The prepare requests and the new record |
| `Brokers.AdvanceShards` | src/parsec/broker/impl.cpp:281-307 | The loop over shards gives the specified record and requests |
| `Brokers.EnterReports` | src/parsec/broker/impl.cpp:922-951 | The table after entering shard by shard and ticket by ticket: old and reported tickets, each with all its reports and with the keys it had |
| `Brokers.CountCommitted` | src/parsec/broker/impl.cpp:976-991 | The number of shards at which a ticket is committed, unless a phase does not belong there |
| `Brokers.CountTells` | src/parsec/broker/impl.cpp:992-1014 | Comparing that number with the number of shards tells whether all, some or none committed |
| `Brokers.RecoverTwice` | src/parsec/broker/impl.cpp:952-956 | For any number of shards: a recovery that finds nothing succeeds, and the next one succeeds at the first report although that report names a ticket |
| `Recovery.DecisionIsFixed` | src/parsec/broker/impl.cpp:917-921 | In whatever order the shards report, and whatever reports were left behind, recovery decides once there is a report for every shard, and always on the same reports |
| `Recovery.DecidesOnFresh` | src/parsec/broker/impl.cpp:917-921 | Those are what the shards report now if and only if the reports left behind agree with that |
| `Recovery.SuccessIsTrueExactlyWhen` | src/parsec/broker/impl.cpp:917-956 | That success at once is true, whatever the shards hold, if and only if no reports were left behind or those left behind name a ticket |
| `Recovery.HiddenTicket` | src/parsec/broker/impl.cpp:952-956 | Otherwise any ticket can be hidden: a shard reports it and recovery decides that there is none |
| `Recovery.FreshIsRecovered` | src/parsec/broker/impl.cpp:922-1030 | For a ticket that was not in flight, entering its reports and choosing is the step that the runs of the system take |
| `Recovery.EnterOne` | src/parsec/broker/impl.cpp:922-951 | One more report changes exactly one phase of one ticket |
| `Failover.FailoverIsSafe` | src/parsec/runtime_locking_shard/impl.cpp:449-480 | In every reachable state of a server, with requests of any kind repeated while others are outstanding, a shard rebuilt from any prefix of the log satisfies the shard invariant, has exactly the replicated values, and its prepared tickets hold write locks on exactly the keys of their updates, no two sharing a key and nobody queueing |
| `Failover.AcknowledgedSurvives` | src/parsec/runtime_locking_shard/server.cpp:88-174 | A failover that keeps what was applied, and any part of the rest, loses no acknowledged prepare or commit |
| `Failover.ValuesSurvive` | src/parsec/runtime_locking_shard/server.cpp:115-174 | Nor does it lose a value: the rebuilt shard has for every key the old value, or the one of a commit that was due |
| `Failover.RelatedExactlyWhen` | src/parsec/runtime_locking_shard/server.cpp:27-174 | Over every run log and shard stay related if and only if no ticket is prepared while a rollback of it is outstanding, nor finished while it is prepared |
| `Failover.ValuesExactlyWhen` | src/parsec/runtime_locking_shard/server.cpp:53-60 | Over such a run the replicated values are those of the shard, up to writes that are due, if and only if no commit is repeated when a key it wrote has a value |
| `Failover.WipedValue` | src/parsec/runtime_locking_shard/server.cpp:53-60 | A run in which a repeated commit destroys an acknowledged value |
| `Failover.LostPrepare` | src/parsec/runtime_locking_shard/server.cpp:43-76 | A run in which a prepare made while a rollback is outstanding is lost, and two tickets prepare the same key |
| `AgentFailover.AgentsWipe` | src/parsec/agent/impl.cpp:38-109 | A run of an agent that is told to execute again while it waits for its commit: a server that gets exactly the requests which the broker then sends to the shard, one for one, loses a value it has acknowledged |
| `AgentFailover.AgentsLosePrepare` | src/parsec/agent/impl.cpp:38-109 | A run of an agent that is told to execute again while it rolls back: a server that gets exactly the requests which the broker then sends loses a prepare, and two tickets prepare the same key |
| `AgentFailover.CommitsTwice` | src/parsec/broker/impl.cpp:281-307 | In that run a shard is asked to lock, to prepare, and twice to commit |
| `AgentFailover.PreparesAnew` | src/parsec/broker/impl.cpp:571-650 | In the other it is asked to lock, twice to roll back, to lock again and to prepare |
| `AgentFailover.FinishMeetsNoPrepared` | src/parsec/broker/impl.cpp:492-569 | In every reachable state a shard that is asked to finish a ticket does not hold it prepared: of the demands on a server, this one is met |
| `Failover.FinishedTooSoon` | src/parsec/runtime_locking_shard/server.cpp:69-76 | A run in which finishing a prepared ticket parts log and shard |
| `Failover.EventKeepsValues` | src/parsec/runtime_locking_shard/server.cpp:27-174 | Every event keeps the replicated values those of the shard if and only if it does not wipe one |
| `Failover.GuardIsNeeded` | src/parsec/runtime_locking_shard/server.cpp:27-174 | Each of the two guarded events breaks the relation whenever it happens |
| `Failover.EventKeepsServer` | src/parsec/runtime_locking_shard/server.cpp:27-174 | Every guarded request, log application, callback and take-over, in any interleaving and repeated at will, keeps the relation between the log and the shard |
| `Failover.ReachableServer` | src/parsec/runtime_locking_shard/server.cpp:27-174 | That relation holds in every reachable state |
| `Failover.PrepareKeeps` | src/parsec/runtime_locking_shard/server.cpp:43-113 | A prepare is submitted only after the shard has prepared, and keeps the relation |
| `Failover.AskKeeps` | src/parsec/runtime_locking_shard/server.cpp:53-76 | Submitting a commit, rollback or finish before the shard acts keeps the relation, also while other calls of the ticket are outstanding |
| `Failover.CallBackKeeps` | src/parsec/runtime_locking_shard/server.cpp:115-174 | The shard step made when the log entry has been applied keeps the relation |
| `Failover.ShardKeepsApart` | src/parsec/runtime_locking_shard/server.cpp:88-113 | Prepared tickets in the replica are kept apart by the locks of the shard |
| `Failover.StartedRelated` | src/parsec/runtime_locking_shard/impl.cpp:449-480 | A server started on a rebuilt shard satisfies the relation |
| `Replication.CommitTwice` | src/parsec/runtime_locking_shard/replicated_shard.cpp:25-42 | A second commit of a ticket leaves the values alone if and only if it wrote nothing but empty values, because its values were moved out |
| `Replication.RebuiltShard` | src/parsec/runtime_locking_shard/impl.cpp:449-480 | A shard rebuilt from a replica whose prepared tickets share no key satisfies the invariant, has the replicated values and the write locks of the prepared tickets, and nothing else |
| `Replication.RebuiltOnto` | src/parsec/runtime_locking_shard/impl.cpp:449-480 | On a shard that holds values but no tickets, recovery is exact if and only if those values are the replicated ones |
| `Failover.StaleValue` | src/parsec/runtime_locking_shard/impl.cpp:449-480 | A reachable shard without tickets on which recovery keeps an old value |
| `ReplicatedShards.ReplicatedShard.Prepare` | src/parsec/runtime_locking_shard/replicated_shard.cpp:9-23 | The replica after a prepare entry: an unknown ticket is recorded, a known one kept |
| `ReplicatedShards.ReplicatedShard.Commit` | src/parsec/runtime_locking_shard/replicated_shard.cpp:25-42 | The replica after a commit entry, with the moved-from update; reports whether the ticket was known |
| `ReplicatedShards.ReplicatedShard.Finish` | src/parsec/runtime_locking_shard/replicated_shard.cpp:44-53 | The replica after a finish entry |
| `ReplicatedShards.MoveInto` | src/parsec/runtime_locking_shard/replicated_shard.cpp:35-37 | Every value of the update is moved into the state |
| `Rebuilding.Recover` | src/parsec/runtime_locking_shard/impl.cpp:449-480 | The tables are rebuilt unless tickets are known; they are the specified ones, and agree if no two prepared tickets share a key |
| `Rebuilding.FillValues` | src/parsec/runtime_locking_shard/impl.cpp:456-459 | Replicated values are entered, values already there stay |
| `Rebuilding.LockUpdate` | src/parsec/runtime_locking_shard/impl.cpp:468-474 | A prepared ticket becomes the writer of exactly the keys of its update |
| `Rebuilding.RebuiltTables` | src/parsec/runtime_locking_shard/impl.cpp:449-480 | Rebuilt lock table and ticket table agree and satisfy the invariant |
| `Rebuilding.StepKeepsPopulated` | src/parsec/runtime_locking_shard/impl.cpp:452-455 | In every shard that knows a ticket the key table is not empty, so the guard of recovery, which asks for both, refuses exactly shards with tickets |
| `AgentSpec.RunsAreSafe` | src/parsec/agent/impl.cpp:38-655 | For every order of broker replies, runner results and retries: no assertion and no fatal branch is reached, no rollback is requested after a successful commit reply, updates are reported only if the commit of that attempt succeeded |
| `AgentSpec.FailsExactlyWhen` | src/parsec/agent/impl.cpp:38-109 | An assertion fails if and only if the agent is told to execute while the function is being fetched |
| `AgentSpec.FailingRun` | src/parsec/agent/impl.cpp:38-109 | The run in which it fails: execute, a ticket number, execute again |
| `AgentSpec.ExecGood` | src/parsec/agent/impl.cpp:38-109 | Every other retry is safe |
| `AgentSpec.CommitReplyGood` | src/parsec/agent/impl.cpp:425-478 | Commit replies, good or bad, are handled safely |
| `AgentSpec.RollbackReplyGood` | src/parsec/agent/impl.cpp:625-655 | Rollback replies, good or bad, are handled safely |
| `AgentSpec.RunGood` | src/parsec/agent/impl.cpp:172-238 | Lock requests of the runner and its results are handled safely |
| `AgentSpec.FetchGood` | src/parsec/agent/impl.cpp:240-322 | Replies to the requests for a ticket and for the function are handled safely |
| `AgentSpec.FinishReplyGood` | src/parsec/agent/impl.cpp:575-595 | Finish replies are handled safely |
| `Agents.AgentProcess.Exec` | src/parsec/agent/impl.cpp:38-109 | The new state and the requests are those of the specified reaction, and the invariant holds again |
| `Agents.AgentProcess.HandleBegin` | src/parsec/agent/impl.cpp:111-130 | Likewise for the reply to begin |
| `Agents.AgentProcess.DoStart` | src/parsec/agent/impl.cpp:132-170 | Likewise for the start of an attempt |
| `Agents.AgentProcess.HandleTryLockResponse` | src/parsec/agent/impl.cpp:172-189 | Likewise for the answer to a lock of the runner, which is passed on to it |
| `Agents.AgentProcess.DoTryLockRequest` | src/parsec/agent/impl.cpp:191-238 | Likewise for a lock the runner asks for: accepted unless no function runs or a read-only one wants to write, answered at once if wounded; the strongest type asked for a key is kept |
| `Agents.AgentProcess.HandleFunction` | src/parsec/agent/impl.cpp:240-322 | Likewise for the function |
| `Agents.AgentProcess.StartFunction` | src/parsec/agent/impl.cpp:250-301 | Likewise for taking earlier locks again, up to the first call that fails |
| `Agents.AgentProcess.DoRunner` | src/parsec/agent/impl.cpp:324-352 | Likewise for the start of the runner |
| `Agents.AgentProcess.DoCommit` | src/parsec/agent/impl.cpp:354-383 | Likewise for the commit request |
| `Agents.AgentProcess.HandleRun` | src/parsec/agent/impl.cpp:385-423 | Likewise for the result of the runner |
| `Agents.AgentProcess.HandleCommit` | src/parsec/agent/impl.cpp:425-478 | Likewise for the commit reply |
| `Agents.AgentProcess.DoResult` | src/parsec/agent/impl.cpp:480-550 | Likewise for reporting |
| `Agents.AgentProcess.DoFinish` | src/parsec/agent/impl.cpp:552-573 | Likewise for the finish request |
| `Agents.AgentProcess.HandleFinish` | src/parsec/agent/impl.cpp:575-595 | Likewise for the finish reply |
| `Agents.AgentProcess.DoRollback` | src/parsec/agent/impl.cpp:597-623 | Likewise for the rollback request |
| `Agents.AgentProcess.HandleRollback` | src/parsec/agent/impl.cpp:625-655 | Likewise for the rollback reply |
| `TicketMachine.TicketsAreUnique` | src/parsec/ticket_machine/client.cpp:19-103 | Over every run with any number of clients no number is handed out twice, each client hands out strictly increasing numbers in request order, never has cached numbers and waiting callbacks at once, and answers accepted requests at most once, in order |
| `TicketMachine.EventKeepsOk` | src/parsec/ticket_machine/client.cpp:19-103 | Every event keeps the invariant behind it |
| `TicketMachine.AllocateApart` | src/parsec/ticket_machine/impl.cpp:13-20 | A new range is apart from every number handed out, cached or on its way |
| `TicketMachine.DeliverKeeps` | src/parsec/ticket_machine/client.cpp:73-102 | A range that arrives serves the waiting callbacks first and keeps each client in order |
| `TicketClients.Machine.GetTicketNumber` | src/parsec/ticket_machine/impl.cpp:13-20 | A range is taken from the counter, which moves past it |
| `TicketClients.TicketClient.GetTicketNumber` | src/parsec/ticket_machine/client.cpp:19-46 | The queues, the answer and whether a range is fetched are those of the specified step |
| `TicketClients.TicketClient.HandleTicketNumbers` | src/parsec/ticket_machine/client.cpp:73-102 | The two drain loops pair waiting callbacks and numbers in order |
| `TicketClients.TicketClient.HandleError` | src/parsec/ticket_machine/client.cpp:48-71 | A failed fetch refuses every waiting callback |
| `Sha256Impl.HashPieces` | 3rdparty/crypto/sha256.cpp:638-679 | For every message and every split of it into writes, the digest is SHA-256 of the whole message (sections 5.1.1, 5.3.3 and 6.2.2 of FIPS 180-4) |
| `Sha256Impl.Hasher.Write` | 3rdparty/crypto/sha256.cpp:638-662 | A write leaves the hasher with everything written so far: registers after the whole blocks, buffer with the rest |
| `Sha256Impl.Hasher.Finalize` | 3rdparty/crypto/sha256.cpp:664-679 | The digest of everything written |
| `Sha256Impl.Hasher.Reset` | 3rdparty/crypto/sha256.cpp:681-686 | The hasher forgets everything written |
| `Sha256Impl.Hasher.FillBuffer` | 3rdparty/crypto/sha256.cpp:642-649 | Filling the buffer and transforming it absorbs the data |
| `Sha256Impl.Hasher.TakeBlocks` | 3rdparty/crypto/sha256.cpp:650-655 | Whole blocks are absorbed straight from the input |
| `Sha256Impl.Hasher.KeepRest` | 3rdparty/crypto/sha256.cpp:656-660 | What does not fill a block is kept |
| `Sha256Impl.Transform` | 3rdparty/crypto/sha256.cpp:78-162 | The transform of a run of blocks is the compression of section 6.2.2 |
| `Sha256Impl.TransformBlock` | 3rdparty/crypto/sha256.cpp:78-162 | The same for one block |
| `Sha256Impl.RunRounds` | 3rdparty/crypto/sha256.cpp:81-150 | 64 rounds with a rolling window of 16 words and rotating register names give the rounds of the standard over its 64-word schedule |
| `Sha256Impl.RoundStep` | 3rdparty/crypto/sha256.cpp:84-150 | One round takes the next word of the schedule and keeps the window |
| `Sha256Impl.RoundInPlace` | 3rdparty/crypto/sha256.cpp:56-62 | A round that writes two of eight registers is, under the renaming, the round of the standard |
| `Sha256Impl.RotateRegisters` | 3rdparty/crypto/sha256.cpp:56-62 | The renaming of registers from one round to the next |
| `Sha256Impl.WindowMoves` | 3rdparty/crypto/sha256.cpp:84-150 | The word computed in place is the next word of the schedule |
| `Sha256Impl.ChooseAgrees` | 3rdparty/crypto/sha256.cpp:48-48 | The short form of Ch is that of the standard |
| `Sha256Impl.MajorityAgrees` | 3rdparty/crypto/sha256.cpp:49-49 | The short form of Maj is that of the standard |
| `Sha256Impl.BigSigmasAgree` | 3rdparty/crypto/sha256.cpp:50-51 | Shifts and ors are the rotations of the standard |
| `Sha256Impl.SmallSigmasAgree` | 3rdparty/crypto/sha256.cpp:52-53 | The same for the small sigmas |
| `Sha256Impl.PaddingIs` | 3rdparty/crypto/sha256.cpp:666-670 | The padding written in two pieces is that of section 5.1.1 |
| `Sha256D64.TransformD64` | 3rdparty/crypto/sha256.cpp:164-418 | For every 64-octet input the specialised double hash is the double hash |
| `Sha256D64.TransformD64Wrapper` | 3rdparty/crypto/sha256.cpp:420-457 | So is the generic three-block form; the two therefore agree |
| `Sha256D64.Sha256D64` | 3rdparty/crypto/sha256.cpp:688-720 | Batches of 8, 4, 2 and 1 blocks, in any combination of available wide routines, give the double hash of every block |
| `Sha256D64.RunWide` | 3rdparty/crypto/sha256.cpp:688-720 | One batch loop |
| `Sha256D64.PadTables` | 3rdparty/crypto/sha256.cpp:254-318 | Each precomputed constant of the second transform is a round constant plus the schedule word of the fixed padding block |
| `Sha256D64.RunPadding` | 3rdparty/crypto/sha256.cpp:254-318 | The second transform with its constants is the rounds over the padding block |
| `Sha256D64.RunDigest` | 3rdparty/crypto/sha256.cpp:329-403 | The third transform with its shortened schedule is the rounds over digest and padding |
| `Sha256D64.ShortAgrees` | 3rdparty/crypto/sha256.cpp:355-370 | Where the padding words are still in the window the shortened schedule step is the general one |
| `Sha256D64.KnownPaddings` | 3rdparty/crypto/sha256.cpp:424-435 | The two padding blocks are those of section 5.1.1 for 64 and 32 octets |
| `Sha256D64.DoubleInBlocks` | 3rdparty/crypto/sha256.cpp:436-456 | The double hash of 64 octets is three compressions |
| `Bech32.DecodeUndoesEncode` | 3rdparty/bech32/bech32.cpp:143-190 | For every legal lower-case prefix and all values that fit 90 characters, decoding an encoding gives both back |
| `Bech32.EncodeUndoesDecode` | 3rdparty/bech32/bech32.cpp:143-190 | Encoding what any accepted string decodes to gives the string back in lower case |
| `Bech32.OneErrorDetected` | 3rdparty/bech32/bech32.cpp:33-90 | Two lists of any length that differ in exactly one symbol have different remainders |
| `Bech32.BurstDetected` | 3rdparty/bech32/bech32.cpp:33-90 | So have two lists that differ only within six consecutive symbols |
| `Bech32Errors.StringsFarApart` | 3rdparty/bech32/bech32.cpp:159-190 | No two accepted strings of the same length and prefix differ in one, two or three characters, but for their case |
| `Bech32Errors.ErrorsDetected` | 3rdparty/bech32/bech32.cpp:40-45 | Any one, two or three errors within a window of 1023 symbols, in lists of any length, change the remainder |
| `Bech32Errors.ThreeErrorsDetected` | 3rdparty/bech32/bech32.cpp:40-45 | Two lists that differ in two or three given symbols within such a window have different remainders |
| `Bech32Errors.TwoErrorsDetected` | 3rdparty/bech32/bech32.cpp:40-45 | So have two that differ in one or two |
| `Bech32Errors.NotBothVerifyThree` | 3rdparty/bech32/bech32.cpp:114-122 | Of two value lists with the same prefix that differ in up to three symbols, at most one verifies |
| `Bech32Errors.ValueStep` | 3rdparty/bech32/bech32.cpp:55-87 | The generator has three consecutive powers of one element of GF(1024) as its roots: at each of them a step of the remainder is a step of Horner's rule |
| `Bech32Errors.ReducesAll` | 3rdparty/bech32/bech32.cpp:77-87 | At each of these roots the five constants amount to multiplying the leading coefficient by the sixth power |
| `Bech32Errors.Vandermonde` | 3rdparty/bech32/bech32.cpp:40-45 | Three terms at different distances below 1023 that vanish at all three roots have no first term |
| `Bech32Field.Period` | 3rdparty/bech32/bech32.cpp:40-45 | No element of GF(1024) but zero comes back to itself after fewer than 1023 multiplications by the generator of the field |
| `Bech32.NotBothVerify` | 3rdparty/bech32/bech32.cpp:114-122 | Two value lists with the same prefix that differ in exactly one symbol do not both verify |
| `Bech32.ChecksumIsUnique` | 3rdparty/bech32/bech32.cpp:124-138 | Exactly one list of six symbols makes a list verify: the checksum |
| `Bech32.ChecksumVerifies` | 3rdparty/bech32/bech32.cpp:124-138 | The created checksum verifies |
| `Bech32.StepPlus` | 3rdparty/bech32/bech32.cpp:33-90 | The remainder step is linear over GF(2) |
| `Bech32.RunPlus` | 3rdparty/bech32/bech32.cpp:33-90 | So is the whole remainder |
| `Bech32.ComputePolyMod` | 3rdparty/bech32/bech32.cpp:33-90 | The loop computes the remainder |
| `Bech32.NextRemainder` | 3rdparty/bech32/bech32.cpp:77-87 | The five conditional additions are one step |
| `Bech32.ExpandHrp` | 3rdparty/bech32/bech32.cpp:99-111 | The high bits, a zero and the low bits of the prefix |
| `Bech32.CreateChecksum` | 3rdparty/bech32/bech32.cpp:124-138 | The checksum of expanded prefix and values |
| `Bech32.Encode` | 3rdparty/bech32/bech32.cpp:143-157 | Prefix, separator, letters of values and checksum |
| `Bech32.Decode` | 3rdparty/bech32/bech32.cpp:159-190 | A string decodes if and only if it has characters in range and of one case, a last separator in place, at most 90 characters, letters only, and a checksum that verifies |
| `Bech32.CheckCase` | 3rdparty/bech32/bech32.cpp:160-167 | Characters in range, and not both cases |
| `Bech32.FindSeparator` | 3rdparty/bech32/bech32.cpp:168-171 | The last separator, or none |
| `Bech32.ReverseAll` | 3rdparty/bech32/bech32.cpp:172-181 | All letters have values, and those values |
| `Bech32.LetterHasValue` | 3rdparty/bech32/bech32.cpp:16-28 | The two tables are inverse to each other |
| `BaseConversion.ConvertBits` | 3rdparty/bech32/util/strencodings.h:176-197 | Output digits hold the bits that the input digits shift in, also when a digit is wider than it should be; a rest is padded with zeros, or without padding must be zeros and less than an input digit; for proper digits those are the bits of the input in order |
| `BaseConversion.PartsOfStream` | 3rdparty/bech32/util/strencodings.h:182-188 | The bits of proper digits are all kept, in order |
| `BaseConversion.TakeDigits` | 3rdparty/bech32/util/strencodings.h:184-188 | The inner loop |
| `BaseConversion.OctetsRoundTrip` | 3rdparty/bech32/util/strencodings.h:176-197 | Converting any octets to 5-bit digits with padding and back without gives the octets |
| `BaseConversion.StreamInjective` | 3rdparty/bech32/util/strencodings.h:176-197 | Digits are determined by their bits |
| `Transactions.CheckTx` | src/uhs/transaction/validation.cpp:36-98 | Without the witness checks, a transaction is accepted if and only if it has inputs, outputs and as many witnesses as inputs, spends no output twice, and has positive values with equal sums below 2^64 |
| `Transactions.CheckInOutSet` | src/uhs/transaction/validation.cpp:111-134 | No error if and only if all values are positive and the integer sums are equal and below 2^64 |
| `Transactions.CheckedSum` | src/uhs/transaction/validation.cpp:113-119 | Summing in 64 bits with the overflow check succeeds if and only if all values are positive and the sum fits |
| `Transactions.OverflowIs` | src/uhs/transaction/validation.cpp:115-117 | A wrapped sum does not exceed its first term exactly if nothing was added or it overflowed |
| `Transactions.CheckInputSet` | src/uhs/transaction/validation.cpp:270-286 | The first repeated output is found, if any |
| `Transactions.FindZero` | src/uhs/transaction/validation.cpp:43-58 | The first zero value is found, if any |
| `Wallets.Wallet.UpdateBalance` | src/uhs/transaction/wallet.cpp:215-234 | The queue gains exactly the unknown credits in order; index and balance are those of the queue without the debits, each taken once; the size assertion holds if and only if no debit is in the index after the credits, and then index, queue and balance agree |
| `Wallets.DebitsMustBeOut` | src/uhs/transaction/wallet.cpp:227-233 | Debits leave the index but not the queue: sizes agree afterwards if and only if no debit was in the index |
| `Wallets.DebitStillIn` | src/uhs/transaction/wallet.cpp:227-233 | A coin that is indexed when a transaction spending it is confirmed: the assertion fails |
| `Wallets.Wallet.PayAndConfirm` | src/uhs/transaction/wallet.cpp:46-80 | A payment that is made and then confirmed: the assertion of the confirmation holds, because the inputs have left the index, and the coins fall in value by exactly what went to others |
| `Wallets.FanOverflows` | src/uhs/transaction/wallet.cpp:454-492 | 2^33 outputs of 2^31 each, an amount that fits its 32 bits: the product overflows to zero, so that the fan-out spends nothing and pays out 2^64 |
| `Wallets.Wallet.ConfirmTransaction` | src/uhs/transaction/wallet.cpp:270-286 | Exactly the outputs that are the wallet's own are credited; the assertion holds if and only if no input is queued afterwards |
| `Wallets.Wallet.ConfirmInputs` | src/uhs/transaction/wallet.cpp:449-452 | Exactly the unknown inputs are credited, and everything agrees |
| `Wallets.Wallet.AccumulateInputs` | src/uhs/transaction/wallet.cpp:494-534 | Coins are taken from the front of what can be spent, or nothing changes; without overflow it succeeds if and only if the coins suffice |
| `Wallets.Wallet.SendTo` | src/uhs/transaction/wallet.cpp:46-80 | A failed send changes nothing; outputs have the value of the inputs; from distinct positive coins without overflow a positive send succeeds if and only if the coins suffice, and the transaction is well formed |
| `Wallets.Wallet.SendMany` | src/uhs/transaction/wallet.cpp:366-447 | Exactly the asked number of inputs and outputs; values conserved; a failed send changes nothing; succeeds if and only if there are enough coins and enough value for positive outputs |
| `Wallets.Wallet.Fan` | src/uhs/transaction/wallet.cpp:454-492 | A failed send changes nothing; values are conserved if and only if count times value fits 64 bits |
| `Wallets.Wallet.Balance` | src/uhs/transaction/wallet.cpp:288-296 | The value modulo 2^64 of everything that can be spent, seeded coins included |
| `Wallets.Wallet.Count` | src/uhs/transaction/wallet.cpp:298-305 | The number of coins that can be spent |
| `Wallets.Wallet.Credit` | src/uhs/transaction/wallet.cpp:219-225 | An unknown input is added to index, queue and balance, a known one ignored |
| `Wallets.Wallet.DropFront` | src/uhs/transaction/wallet.cpp:526-531 | The first input leaves index, queue and balance |
| `Wallets.SplitAmount` | src/uhs/transaction/wallet.cpp:428-440 | The last output takes the rest: the values add up, and all are positive if the total is at least their number |
| `Wallets.HealthySpend` | src/uhs/transaction/wallet.cpp:494-534 | Coins taken from the front of distinct positive coins without overflow are spent for their exact value |
| `Wallets.SizesAgree` | src/uhs/transaction/wallet.cpp:233-233 | Index and queue that hold the same inputs without repeats have the same size |

## Left out

- `Progress.EveryTicketCanEnd`: that every ticket can be brought to its end, not that it will be; no fairness of links, shards or clients is assumed.
- `SystemRuns.Serializable`: of clients that neither lock nor commit while their ticket is rolled back and ask for one update per attempt; for agents this is proved, in `WorldRuns.AgentsAreSerializable`.
- `WorldRuns.AgentsAreSerializable`: runs in which no agent is told to execute while its function is fetched; the other case is `AgentSpec.FailsExactlyWhen`.
- `AgentSpec.RunsAreSafe`: likewise.
- `Failover.FailoverIsSafe`: of one server; the failovers of servers are not events in the runs of the whole system, and the read locks of prepared tickets are not rebuilt, as in the source.
- `BaseConversion.ConvertBits`: has an accumulator without a width, which the mask keeps below 2 to the sum of both widths.
- `Bech32Errors.ErrorsDetected`: up to three errors; that the generator was selected so that four within 89 symbols are detected too, as a comment of the source says, is the result of a search over all of them, and not proved.
- `Sha256Impl.HashPieces`: the unrolled rounds are a loop, and the sixteen words of the window are an array.
- `Sha256D64.Sha256D64`: the wide routines are assumed to agree with the scalar one.
- `Transactions.CheckTx`: not the witnesses themselves.
- Raft, RPC, TCP and the controllers: the log is a sequence, the links are queues.
- Threads and mutexes: each operation is one atomic step, as each holds one lock; callbacks that run inside a call are modelled as later responses.
- Errors of calls that do not reach a shard or the directory.
- secp256k1, keys, signing and randomness: commitments and transaction ids are numbers.
- The SIMD hash routines and their selection.
- Message formats and serialization.
- The EVM and Lua runners: a run of the agent's function is any sequence of lock requests followed by any result.
- The UHS atomizer, coordinator and locking shard.
- SipHash: the directory is an arbitrary function.
- Configuration, logging, command lines, wallet files, benchmarks.
- blocking_queue, thread_pool, cache_set, buffers and index_comparator.
