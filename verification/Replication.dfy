/**
 One term of the replicated log: a leader and a fixed set of replicas, reliable FIFO
 links, and databases that execute and report commands in submission order.
 */
module Replication {
  import opened Wrappers
  import opened Protocol
  import opened Messages
  import opened Ledgers
  import opened Nodes
  import opened Leaders
  import opened Replicas
  import Stages

  /** A request as the leader accepted it. */
  datatype Entry = Entry(op: Op, client: SocketAddr, reqId: u32)

  /** A database: the commands it was sent, the results it has produced, and how many of them its node has handled. */
  datatype Db = Db(commands: seq<Command>, results: seq<Result>, handled: nat)

  const NEW_DB := Db([], [], 0)

  datatype Term = Term(
    address: SocketAddr,
    log: seq<Entry>,
    leader: LeaderLog,
    leaderDb: Db,
    replicas: map<u64, map<u32, Op>>,
    dbs: map<u64, Db>,
    logs: map<u64, seq<(u32, Op)>>,
    acks: map<u64, seq<u32>>,
    replies: seq<Reply>,
    ok: bool)

  datatype Label =
    | Requested(entry: Entry)
    | LogArrives(r: u64)
    | AckArrives(r: u64)
    | LeaderExecutes(result: Result)
    | ReplicaExecutes(r: u64, result: Result)
    | LeaderHears
    | ReplicaHears(r: u64)

  function NewTerm(address: SocketAddr, ids: set<u64>): Term {
    Term(
      address, [], LeaderLog(1, map[]), NEW_DB,
      map r | r in ids :: map[], map r | r in ids :: NEW_DB,
      map r | r in ids :: [], map r | r in ids :: [],
      [], true)
  }

  /** The size of the cluster, the leader included. */
  function Size(t: Term): nat {
    |t.replicas| + 1
  }

  ghost predicate Shaped(t: Term) {
    t.replicas.Keys == t.dbs.Keys == t.logs.Keys == t.acks.Keys && t.replicas != map[]
  }

  // ---- the databases ----

  function OpsOf(commands: seq<Command>): seq<Op> {
    seq(|commands|, i requires 0 <= i < |commands| => commands[i].op)
  }

  /** The ledger after the first `n` commands. */
  ghost function LedgerAfter(db0: Ledger, commands: seq<Command>, n: nat): Ledger
    requires Rooted(db0) && n <= |commands|
  {
    Fold(db0, OpsOf(commands[..n]))
  }

  lemma {:induction false} FoldRooted(db: Ledger, ops: seq<Op>)
    requires Rooted(db)
    ensures Rooted(Fold(db, ops))
    decreases |ops|
  {
    if ops != [] {
      ApplyRooted(db, ops[0]);
      FoldRooted(Apply(db, ops[0]).0, ops[1..]);
    }
  }

  /** `result` is the answer, up to the order of its lists. */
  ghost predicate Gives(result: Result, op: Op, answer: Answer) {
    var failed := answer.Decided? && answer.outcome.Failed?;
    Stages.Matches(
      OperationResultEvent(0, op, result, !failed, if failed then Some(answer.outcome.error) else None), 0, op, answer)
  }

  /** `result` is what the database answers to its next command. */
  ghost predicate Due(db0: Ledger, db: Db, result: Result)
    requires Rooted(db0)
  {
    && |db.results| < |db.commands|
    && (FoldRooted(db0, OpsOf(db.commands[..|db.results|]));
        var op := db.commands[|db.results|].op;
        Gives(result, op, Apply(LedgerAfter(db0, db.commands, |db.results|), op).1))
  }

  /** Every result is the answer on the ledger before it. */
  ghost predicate Executes(db0: Ledger, db: Db)
    requires Rooted(db0)
  {
    && db.handled <= |db.results| <= |db.commands|
    && forall i {:trigger db.results[i]} :: 0 <= i < |db.results| ==> Correct(db0, db.commands, i, db.results[i])
  }

  ghost predicate Correct(db0: Ledger, commands: seq<Command>, i: nat, result: Result)
    requires Rooted(db0) && i < |commands|
  {
    FoldRooted(db0, OpsOf(commands[..i]));
    Gives(result, commands[i].op, Apply(LedgerAfter(db0, commands, i), commands[i].op).1)
  }

  // ---- steps ----

  ghost predicate Enabled(t: Term, db0: Ledger, l: Label)
    requires Rooted(db0)
  {
    match l
    case Requested(e) => !e.op.ReplaceDatabase? && t.leader.currentOpId + 1 < 0x1_0000_0000
    case LogArrives(r) => r in t.logs && t.logs[r] != []
    case AckArrives(r) => r in t.acks && t.acks[r] != []
    case LeaderExecutes(result) => Due(db0, t.leaderDb, result)
    case ReplicaExecutes(r, result) => r in t.dbs && Due(db0, t.dbs[r], result)
    case LeaderHears => t.leaderDb.handled < |t.leaderDb.results|
    case ReplicaHears(r) => r in t.dbs && t.dbs[r].handled < |t.dbs[r].results|
  }

  function AfterRequest(t: Term, e: Entry): Term
    requires t.leader.currentOpId + 1 < 0x1_0000_0000
  {
    var k := t.leader.currentOpId;
    t.(log := t.log + [e],
       leader := Accept(t.leader, e.op, e.client, e.reqId).(currentOpId := k + 1),
       logs := map r | r in t.logs :: t.logs[r] + [(k, e.op)])
  }

  function AfterLog(t: Term, r: u64): Term
    requires Shaped(t) && r in t.logs && t.logs[r] != []
  {
    var e := OnLog(t.replicas[r], t.logs[r][0].0, t.logs[r][0].1);
    t.(replicas := t.replicas[r := e.operations],
       dbs := t.dbs[r := t.dbs[r].(commands := t.dbs[r].commands + e.commands)],
       logs := t.logs[r := t.logs[r][1..]],
       acks := t.acks[r := t.acks[r] + e.acks])
  }

  function AfterAck(t: Term, r: u64): Term
    requires Shaped(t) && r in t.acks && t.acks[r] != []
  {
    var e := OnAck(t.leader, Size(t), t.acks[r][0]);
    t.(leader := e.log,
       leaderDb := t.leaderDb.(commands := t.leaderDb.commands + e.commands),
       acks := t.acks[r := t.acks[r][1..]])
  }

  function AfterLeaderHears(t: Term): Term
    requires t.leaderDb.handled < |t.leaderDb.results| <= |t.leaderDb.commands|
  {
    var i := t.leaderDb.handled;
    var cmd := t.leaderDb.commands[i];
    if cmd.opId != 0 && cmd.opId !in t.leader.operations then t.(ok := false)
    else
      var p := if cmd.opId != 0 then t.leader.operations[cmd.opId] else Pending(cmd.op, t.address, 0, 0);
      t.(leader := t.leader.(operations := t.leader.operations - {cmd.opId}),
         leaderDb := t.leaderDb.(handled := i + 1),
         replies := t.replies + [ReplyFor(t.address, p, cmd.op, t.leaderDb.results[i])])
  }

  function AfterReplicaHears(t: Term, r: u64): Term
    requires Shaped(t) && r in t.dbs && t.dbs[r].handled < |t.dbs[r].results| <= |t.dbs[r].commands|
    requires t.dbs[r].commands[t.dbs[r].handled].opId + 1 < 0x1_0000_0000
  {
    var cmd := t.dbs[r].commands[t.dbs[r].handled];
    t.(dbs := t.dbs[r := t.dbs[r].(handled := t.dbs[r].handled + 1)],
       acks := if cmd.op.ReplaceDatabase? then t.acks else t.acks[r := t.acks[r] + [cmd.opId + 1]])
  }

  // ---- what every run keeps ----

  function Commands(log: seq<Entry>, n: nat): (cs: seq<Command>)
    requires n <= |log| < 0xFFFF_FFFF
    ensures |cs| == n
  {
    seq(n, i requires 0 <= i < n => Command(i + 1, log[i].op))
  }

  /** The number of entries a replica has received. */
  function Received(t: Term, r: u64): int
    requires r in t.logs
  {
    |t.log| - |t.logs[r]|
  }

  /** The number of acks a replica has sent, and the number that arrived. */
  function AcksSent(t: Term, r: u64): nat
    requires r in t.logs && r in t.dbs
  {
    if Received(t, r) <= 0 then 0 else t.dbs[r].handled + 1
  }

  function AcksArrived(t: Term, r: u64): int
    requires r in t.logs && r in t.dbs && r in t.acks
  {
    AcksSent(t, r) - |t.acks[r]|
  }

  /** The replicas whose ack of entry `k` has arrived. */
  function AckedBy(t: Term, k: int): set<u64>
    requires Shaped(t)
  {
    set r | r in t.replicas && AcksArrived(t, r) >= k
  }

  ghost predicate LinkOk(t: Term, r: u64)
    requires r in t.logs
  {
    && |t.logs[r]| <= |t.log|
    && forall i {:trigger t.logs[r][i]} :: 0 <= i < |t.logs[r]| ==>
         t.logs[r][i] == (Received(t, r) + i + 1, t.log[Received(t, r) + i].op)
  }

  /** A replica stores the last entry it received, and has executed or is executing those before it. */
  ghost predicate StoreOk(t: Term, r: u64)
    requires Shaped(t) && r in t.logs && |t.logs[r]| <= |t.log| < 0xFFFF_FFFF
  {
    var m := Received(t, r);
    && t.replicas[r] == (if m == 0 then map[] else map[m := t.log[m - 1].op])
    && t.dbs[r].commands == Commands(t.log, if m == 0 then 0 else m - 1)
  }

  ghost predicate AcksOk(t: Term, r: u64)
    requires Shaped(t) && r in t.logs
  {
    && AcksArrived(t, r) >= 0
    && forall i {:trigger t.acks[r][i]} :: 0 <= i < |t.acks[r]| ==> t.acks[r][i] == AcksArrived(t, r) + i + 1
  }

  ghost predicate ReplicaOk(t: Term, db0: Ledger, r: u64)
    requires Shaped(t) && r in t.logs && Rooted(db0) && |t.log| < 0xFFFF_FFFF
  {
    LinkOk(t, r) && StoreOk(t, r) && AcksOk(t, r) && Executes(db0, t.dbs[r])
  }

  function PendingOf(t: Term, k: int): Pending
    requires Shaped(t) && 1 <= k <= |t.log|
  {
    Pending(t.log[k - 1].op, t.log[k - 1].client, t.log[k - 1].reqId, |AckedBy(t, k)|)
  }

  /** The leader keeps every entry until its result is handled, with the number of acks that arrived. */
  ghost predicate CountsOk(t: Term)
    requires Shaped(t)
  {
    && t.leader.currentOpId == |t.log| + 1
    && (forall k :: k in t.leader.operations <==> t.leaderDb.handled < k <= |t.log|)
    && (forall k :: k in t.leader.operations ==> 1 <= k <= |t.log| && t.leader.operations[k] == PendingOf(t, k))
  }

  /** The leader has sent the database exactly the entries that reached their quorum, in order. */
  ghost predicate CommitsOk(t: Term)
    requires Shaped(t) && |t.log| < 0xFFFF_FFFF
  {
    && |t.leaderDb.commands| <= |t.log|
    && t.leaderDb.commands == Commands(t.log, |t.leaderDb.commands|)
    && forall k {:trigger AckedBy(t, k)} :: 1 <= k <= |t.log| ==>
         (k <= |t.leaderDb.commands| <==> |AckedBy(t, k)| >= Quorum(Size(t)))
  }

  /** What is owed for entry `i`, given its result. */
  function Owed(address: SocketAddr, e: Entry, result: Result): Reply {
    ReplyFor(address, Pending(e.op, e.client, e.reqId, 0), e.op, result)
  }

  ghost predicate RepliesOk(t: Term) {
    && t.ok
    && t.leaderDb.handled <= |t.leaderDb.results| && |t.replies| == t.leaderDb.handled <= |t.log|
    && forall i {:trigger t.replies[i]} :: 0 <= i < |t.replies| ==> t.replies[i] == Owed(t.address, t.log[i], t.leaderDb.results[i])
  }

  ghost predicate TermOk(t: Term, db0: Ledger) {
    && Shaped(t) && Rooted(db0) && |t.log| < 0xFFFF_FFFF
    && (forall e :: e in t.log ==> !e.op.ReplaceDatabase?)
    && (forall r :: r in t.replicas ==> ReplicaOk(t, db0, r))
    && CountsOk(t) && CommitsOk(t) && RepliesOk(t) && Executes(db0, t.leaderDb)
  }
}
