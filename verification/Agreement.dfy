/** The results about one term of the replicated log, over every run. */
module Agreement {
  import opened Wrappers
  import opened Protocol
  import opened Messages
  import opened Ledgers
  import opened Nodes
  import opened Leaders
  import opened Replicas
  import opened Replication
  import opened Commits
  import opened Sums
  import Routers

  ghost function Next(t: Term, db0: Ledger, l: Label): (t': Term)
    requires TermOk(t, db0) && Enabled(t, db0, l)
  {
    match l
    case Requested(e) => AfterRequest(t, e)
    case LogArrives(r) => AfterLog(t, r)
    case AckArrives(r) => AfterAck(t, r)
    case LeaderExecutes(result) => t.(leaderDb := t.leaderDb.(results := t.leaderDb.results + [result]))
    case ReplicaExecutes(r, result) => t.(dbs := t.dbs[r := t.dbs[r].(results := t.dbs[r].results + [result])])
    case LeaderHears =>
      LeaderHearsKeepsTerm(t, db0);
      AfterLeaderHears(t)
    case ReplicaHears(r) =>
      ReplicaHearsKeepsTerm(t, db0, r);
      AfterReplicaHears(t, r)
  }

  /** Every step keeps the books of the term, and no `expect` fails. */
  lemma NextKeepsTerm(t: Term, db0: Ledger, l: Label)
    requires TermOk(t, db0) && Enabled(t, db0, l)
    ensures TermOk(Next(t, db0, l), db0)
  {
    hide TermOk, Enabled;
    match l {
      case Requested(e) => RequestKeepsTerm(t, db0, e);
      case LogArrives(r) => LogKeepsTerm(t, db0, r);
      case AckArrives(r) => AckKeepsTerm(t, db0, r);
      case LeaderExecutes(result) => LeaderExecutesKeepsTerm(t, db0, result);
      case ReplicaExecutes(r, result) => ReplicaExecutesKeepsTerm(t, db0, r, result);
      case LeaderHears => LeaderHearsKeepsTerm(t, db0);
      case ReplicaHears(r) => ReplicaHearsKeepsTerm(t, db0, r);
    }
  }

  /** A new term: nothing logged, every database at the ledger `db0`. */
  ghost function Start(address: SocketAddr, ids: set<u64>, db0: Ledger): (t: Term)
    requires ids != {} && Rooted(db0)
    ensures TermOk(t, db0)
  {
    var r :| r in ids;
    assert r in NewTerm(address, ids).replicas;
    NewTerm(address, ids)
  }

  ghost predicate Schedule(t: Term, db0: Ledger, ls: seq<Label>)
    requires TermOk(t, db0)
    decreases |ls|
  {
    ls != [] ==>
      && Enabled(t, db0, ls[0])
      && (NextKeepsTerm(t, db0, ls[0]); Schedule(Next(t, db0, ls[0]), db0, ls[1..]))
  }

  ghost function Run(t: Term, db0: Ledger, ls: seq<Label>): (t': Term)
    requires TermOk(t, db0) && Schedule(t, db0, ls)
    ensures TermOk(t', db0)
    decreases |ls|
  {
    if ls == [] then t
    else
      NextKeepsTerm(t, db0, ls[0]);
      Run(Next(t, db0, ls[0]), db0, ls[1..])
  }

  // ---- commit order and prefix agreement ----

  /** What a node has executed: the commands whose results exist. */
  function Executed(db: Db): seq<Command>
    requires |db.results| <= |db.commands|
  {
    db.commands[..|db.results|]
  }

  /** The leader issues 1, 2, 3, ... with no gap, repeat or reordering, whatever the schedule. */
  lemma CommitOrder(address: SocketAddr, ids: set<u64>, db0: Ledger, ls: seq<Label>)
    requires ids != {} && Rooted(db0) && Schedule(Start(address, ids, db0), db0, ls)
    ensures var t := Run(Start(address, ids, db0), db0, ls);
      && t.ok && |t.leaderDb.commands| <= |t.log|
      && forall i :: 0 <= i < |t.leaderDb.commands| ==> t.leaderDb.commands[i] == Command(i + 1, t.log[i].op)
  {
    var t := Run(Start(address, ids, db0), db0, ls);
    assert TermOk(t, db0);
    hide Run, Schedule, ReplicaOk, Executes, Start;
  }

  /** A replica has issued exactly the entries before the last one it received, and stores only that one. */
  lemma ReplicaOneBehind(t: Term, db0: Ledger, r: u64)
    requires TermOk(t, db0) && r in t.replicas
    ensures var m := Received(t, r);
      && 0 <= m <= |t.log|
      && |t.dbs[r].commands| == (if m == 0 then 0 else m - 1)
      && (forall i :: 0 <= i < |t.dbs[r].commands| ==> t.dbs[r].commands[i] == Command(i + 1, t.log[i].op))
      && t.replicas[r] == (if m == 0 then map[] else map[m := t.log[m - 1].op])
  {
    hide CountsOk, CommitsOk, RepliesOk, Executes, AcksOk;
    assert ReplicaOk(t, db0, r);
  }

  /** The database of the leader, or of a replica. */
  function DbOf(t: Term, node: Option<u64>): Db
    requires node.Some? ==> node.value in t.dbs
  {
    if node.None? then t.leaderDb else t.dbs[node.value]
  }

  lemma NodeFollowsLog(t: Term, db0: Ledger, node: Option<u64>)
    requires TermOk(t, db0) && (node.Some? ==> node.value in t.replicas)
    ensures var db := DbOf(t, node);
      && |db.results| <= |db.commands| <= |t.log| && db.commands == Commands(t.log, |db.commands|)
  {
    hide CountsOk, RepliesOk, Executes;
    if node.None? {
      LeaderBounds(t, db0);
    } else {
      ReplicaExecutesOk(t, db0, node.value);
      ExecutesBounds(db0, t.dbs[node.value]);
    }
  }

  /** What any two nodes have executed agrees as far as both go; nodes that have executed equally much have equal ledgers. */
  lemma PrefixAgreement(t: Term, db0: Ledger, x: Option<u64>, y: Option<u64>)
    requires TermOk(t, db0) && (x.Some? ==> x.value in t.replicas) && (y.Some? ==> y.value in t.replicas)
    ensures var a, b := DbOf(t, x), DbOf(t, y);
      && |a.results| <= |a.commands| && |b.results| <= |b.commands|
      && (Executed(a) <= Executed(b) || Executed(b) <= Executed(a))
      && (|a.results| == |b.results| ==>
        Executed(a) == Executed(b) && LedgerAfter(db0, a.commands, |a.results|) == LedgerAfter(db0, b.commands, |b.results|))
  {
    hide TermOk;
    TermIsShaped(t, db0);
    NodeFollowsLog(t, db0, x);
    NodeFollowsLog(t, db0, y);
    var a, b := DbOf(t, x), DbOf(t, y);
    SamePrefix(t.log, |a.commands|, |b.commands|, if |a.results| <= |b.results| then |a.results| else |b.results|);
    if |a.results| <= |b.results| {
      assert Executed(a) == Executed(b)[..|a.results|];
    } else {
      assert Executed(b) == Executed(a)[..|b.results|];
    }
  }

  lemma SamePrefix(log: seq<Entry>, m: nat, n: nat, k: nat)
    requires k <= m <= |log| && k <= n <= |log| < 0xFFFF_FFFF
    ensures Commands(log, m)[..k] == Commands(log, n)[..k]
  {
  }

  // ---- quorum ----

  /** The replicas that have stored entry `k`. */
  function Holders(t: Term, k: int): set<u64>
    requires Shaped(t)
  {
    set r | r in t.replicas && Received(t, r) >= k
  }

  /** An entry is committed only when a quorum of replicas holds it; with the leader they are a strict majority. */
  lemma CommittedIsHeld(t: Term, db0: Ledger, k: nat)
    requires TermOk(t, db0) && 1 <= k <= |t.leaderDb.commands|
    ensures |Holders(t, k)| >= Quorum(Size(t)) && 2 * (|Holders(t, k)| + 1) > Size(t)
  {
    hide ReplicaOk, CountsOk, RepliesOk, Executes;
    assert AckedBy(t, k) <= Holders(t, k) by {
      forall r | r in AckedBy(t, k) ensures r in Holders(t, k) {
        AcksWithinReceived(t, db0, r);
      }
    }
    assert |Holders(t, k)| == |AckedBy(t, k)| + |Holders(t, k) - AckedBy(t, k)|;
    SizeAtLeastTwo(t);
    QuorumIsCeiling(Size(t));
  }

  /** Once committed, an entry is known to every majority: without the leader, some replica in it holds the entry. */
  lemma MajorityKnows(t: Term, db0: Ledger, k: nat, q: set<u64>)
    requires TermOk(t, db0) && 1 <= k <= |t.leaderDb.commands|
    requires q <= t.replicas.Keys && 2 * |q| > Size(t)
    ensures exists r :: r in q && r in Holders(t, k)
  {
    hide TermOk;
    TermIsShaped(t, db0);
    CommittedIsHeld(t, db0, k);
    var h := Holders(t, k);
    assert h <= t.replicas.Keys && |t.replicas.Keys| == |t.replicas|;
    assert |q + h| == |q| + |h| - |q * h|;
    assert |t.replicas.Keys| == |q + h| + |t.replicas.Keys - (q + h)|;
    var r :| r in q * h;
  }

  // ---- quiescence ----

  ghost predicate Quiet(t: Term, db0: Ledger)
    requires Rooted(db0)
  {
    forall l :: Enabled(t, db0, l) ==> l.Requested?
  }

  lemma {:induction false} Listing<T>(m: multiset<T>) returns (s: seq<T>)
    ensures multiset(s) == m
    decreases |m|
  {
    if m == multiset{} {
      s := [];
    } else {
      var x :| x in m;
      s := Listing(m - multiset{x});
      s := s + [x];
    }
  }

  /** Every answer of the ledger can be given as a result. */
  lemma Realizable(db: Ledger, op: Op) returns (result: Result)
    requires Rooted(db)
    ensures Gives(result, op, Apply(db, op).1)
  {
    match Apply(db, op).1 {
      case Decided(outcome) =>
        result := Routers.CompletedResult(op, outcome);
      case Spent(total, perCard) =>
        var list := Listing(perCard);
        result := AccountQueryResult(op.accountId, total, list);
      case Dump(addr, accounts, cards) =>
        var xs := Listing(accounts);
        var ys := Listing(cards);
        result := DatabaseSnapshotResult(DatabaseSnapshot(addr, xs, ys));
      case Replaced =>
        result := ReplaceDatabaseResult;
    }
  }

  lemma SomethingDue(db0: Ledger, db: Db) returns (result: Result)
    requires Rooted(db0) && |db.results| < |db.commands|
    ensures Due(db0, db, result)
  {
    FoldRooted(db0, OpsOf(db.commands[..|db.results|]));
    result := Realizable(LedgerAfter(db0, db.commands, |db.results|), db.commands[|db.results|].op);
  }

  lemma QuietDb(t: Term, db0: Ledger, node: Option<u64>)
    requires TermOk(t, db0) && Quiet(t, db0) && (node.Some? ==> node.value in t.replicas)
    ensures var db := DbOf(t, node); db.handled == |db.results| == |db.commands|
  {
    hide TermOk, Due;
    TermIsShaped(t, db0);
    NodeBounds(t, db0, node);
    var db := DbOf(t, node);
    forall result ensures !Due(db0, db, result) {
      assert !Enabled(t, db0, if node.None? then LeaderExecutes(result) else ReplicaExecutes(node.value, result));
    }
    assert !Enabled(t, db0, if node.None? then LeaderHears else ReplicaHears(node.value));
    if |db.results| < |db.commands| {
      var result := SomethingDue(db0, db);
    }
  }

  lemma NodeBounds(t: Term, db0: Ledger, node: Option<u64>)
    requires TermOk(t, db0) && (node.Some? ==> node.value in t.replicas)
    ensures var db := DbOf(t, node); db.handled <= |db.results| <= |db.commands|
  {
    if node.None? {
      LeaderBounds(t, db0);
    } else {
      ReplicaExecutesOk(t, db0, node.value);
      ExecutesBounds(db0, t.dbs[node.value]);
    }
    hide TermOk;
  }

  lemma QuietReplica(t: Term, db0: Ledger, r: u64)
    requires TermOk(t, db0) && Quiet(t, db0) && r in t.replicas
    ensures Received(t, r) == |t.log| && AcksArrived(t, r) == |t.log|
    ensures t.dbs[r].handled == |t.dbs[r].commands| == (if t.log == [] then 0 else |t.log| - 1)
    ensures t.replicas[r] == if t.log == [] then map[] else map[|t.log| := t.log[|t.log| - 1].op]
  {
    hide CountsOk, CommitsOk, RepliesOk, Executes;
    assert !Enabled(t, db0, LogArrives(r)) && !Enabled(t, db0, AckArrives(r));
    assert ReplicaOk(t, db0, r);
    QuietDb(t, db0, Some(r));
  }

  /**
   A snapshot goes to the newcomer it was taken for; any other result to the remote client
   under its own request id; and of the leader's own requests a charge is answered at its
   station, under its own request id and with its verdict.
   */
  ghost predicate Reaches(address: SocketAddr, e: Entry, result: Result, reply: Reply) {
    if e.op.GetDatabase? then result.DatabaseSnapshotResult? && reply == ToNewcomer(e.op.addr, result.snapshot)
    else if e.client != address then reply == ToClient(e.client, e.reqId, result)
    else if e.op.Charge? then
      && result.ChargeResult?
      && reply == ToStation(StationMsg(
           e.reqId, result.outcome.Ok?, if result.outcome.Ok? then None else Some(result.outcome.error)))
    else reply == NoReply
  }

  /**
   When nothing is left to deliver the leader has executed the whole log and every
   replica all but the last entry, which it holds; and for each entry exactly one reply
   was decided, in log order: the one owed to its client, with the ledger's answer.
   */
  lemma Quiescence(t: Term, db0: Ledger)
    requires TermOk(t, db0) && Quiet(t, db0)
    ensures t.ok && t.leader.operations == map[]
    ensures |t.leaderDb.results| == |t.leaderDb.commands| == |t.log| && t.leaderDb.commands == Commands(t.log, |t.log|)
    ensures forall r :: r in t.replicas ==>
      && |t.dbs[r].results| == |t.dbs[r].commands| == (if t.log == [] then 0 else |t.log| - 1)
      && t.replicas[r] == if t.log == [] then map[] else map[|t.log| := t.log[|t.log| - 1].op]
    ensures |t.replies| == |t.log|
    ensures forall i :: 0 <= i < |t.log| ==>
      && Reaches(t.address, t.log[i], t.leaderDb.results[i], t.replies[i])
      && Correct(db0, t.leaderDb.commands, i, t.leaderDb.results[i])
  {
    hide ReplicaOk, AcksArrived, Received, Correct, Quorum, Reaches;
    forall i | 0 <= i < |t.replies| ensures Reaches(t.address, t.log[i], t.leaderDb.results[i], t.replies[i]) {
      ReplyAddressed(t, db0, i);
    }
    forall r | r in t.replicas
      ensures |t.dbs[r].results| == |t.dbs[r].commands| == (if t.log == [] then 0 else |t.log| - 1)
      ensures AcksArrived(t, r) == |t.log|
      ensures t.replicas[r] == if t.log == [] then map[] else map[|t.log| := t.log[|t.log| - 1].op]
    {
      QuietReplica(t, db0, r);
      QuietDb(t, db0, Some(r));
    }
    QuietDb(t, db0, None);
    if t.log != [] {
      EveryoneAcked(t);
    }
    assert forall k :: k !in t.leader.operations;
  }

  lemma EveryoneAcked(t: Term)
    requires Shaped(t) && |t.log| < 0xFFFF_FFFF && CommitsOk(t) && t.log != []
    requires forall r :: r in t.replicas ==> AcksArrived(t, r) == |t.log|
    ensures |t.leaderDb.commands| == |t.log|
  {
    hide AcksArrived, Quorum;
    assert AckedBy(t, |t.log|) == t.replicas.Keys;
    assert |t.replicas| == |t.replicas.Keys|;
    SizeAtLeastTwo(t);
    QuorumIsCeiling(Size(t));
  }

  /** Every reply a leader ever decided reached whoever asked. */
  lemma ReplyAddressed(t: Term, db0: Ledger, i: nat)
    requires TermOk(t, db0) && i < |t.replies|
    ensures i < |t.log| && i < |t.leaderDb.results|
    ensures Reaches(t.address, t.log[i], t.leaderDb.results[i], t.replies[i])
  {
    hide ReplicaOk, CountsOk, LedgerAfter, Apply, Correct;
    LeaderBounds(t, db0);
    assert Correct(db0, t.leaderDb.commands, i, t.leaderDb.results[i]);
    ResultKind(db0, t.leaderDb.commands, i, t.leaderDb.results[i]);
  }

  /** The ledger's answer is of the kind the operation asks for. */
  lemma ResultKind(db0: Ledger, commands: seq<Command>, i: nat, result: Result)
    requires Rooted(db0) && i < |commands| && Correct(db0, commands, i, result)
    ensures commands[i].op.Charge? ==> result.ChargeResult?
    ensures commands[i].op.GetDatabase? ==> result.DatabaseSnapshotResult?
  {
    hide LedgerAfter, Fold;
  }

  // ---- termination ----

  /** What is left to do for one replica, counted in deliveries. */
  function LeftAt(t: Term, r: u64): int
    requires Shaped(t) && r in t.replicas
  {
    var n := |t.log|;
    (n - Received(t, r)) + (n - |t.dbs[r].results|) + (n - t.dbs[r].handled) + (n - AcksArrived(t, r))
  }

  function LeftOver(t: Term): map<u64, real>
    requires Shaped(t)
  {
    map r | r in t.replicas :: LeftAt(t, r) as real
  }

  ghost function Left(t: Term): real
    requires Shaped(t)
  {
    Total(LeftOver(t)) + ((|t.log| - |t.leaderDb.results| + |t.log| - t.leaderDb.handled) as real)
  }

  lemma LeftAtOther(t: Term, t': Term, r: u64)
    requires Shaped(t) && Shaped(t') && r in t.replicas && r in t'.replicas && t'.log == t.log
    requires t'.logs[r] == t.logs[r] && t'.acks[r] == t.acks[r]
    requires |t'.dbs[r].results| == |t.dbs[r].results| && t'.dbs[r].handled == t.dbs[r].handled
    ensures LeftAt(t', r) == LeftAt(t, r)
  {
  }

  /** The replica a delivery belongs to, if it belongs to one. */
  function At(l: Label): Option<u64> {
    match l
    case LogArrives(r) => Some(r)
    case AckArrives(r) => Some(r)
    case ReplicaExecutes(r, _) => Some(r)
    case ReplicaHears(r) => Some(r)
    case _ => None
  }

  lemma ReplicaStepLeft(t: Term, db0: Ledger, l: Label)
    requires TermOk(t, db0) && Enabled(t, db0, l) && At(l).Some?
    ensures var t', r := Next(t, db0, l), At(l).value;
      && Shaped(t') && t'.log == t.log && t'.leaderDb.results == t.leaderDb.results && t'.leaderDb.handled == t.leaderDb.handled
      && r in t.replicas && r in t'.replicas && LeftAt(t', r) == LeftAt(t, r) - 1
  {
    hide TermOk, OnLog, OnAck, Due, AcksArrived;
    TermIsShaped(t, db0);
    match l {
      case LogArrives(r) =>
        LogKeepsOwn(t, db0, r);
        LogKeepsLink(t, db0, r);
      case AckArrives(r) =>
        AckKeepsReplica(t, db0, r, r);
      case ReplicaExecutes(r, result) =>
        ExecutingArrived(t, r, result);
      case ReplicaHears(r) =>
        ReplicaHearsOwn(t, db0, r);
    }
  }

  lemma ExecutingArrived(t: Term, r: u64, result: Result)
    requires Shaped(t) && r in t.dbs
    ensures var t' := t.(dbs := t.dbs[r := t.dbs[r].(results := t.dbs[r].results + [result])]);
      AcksArrived(t', r) == AcksArrived(t, r)
  {
  }

  lemma OthersUntouched(t: Term, db0: Ledger, l: Label, q: u64)
    requires TermOk(t, db0) && Enabled(t, db0, l) && !l.Requested? && q in t.replicas && At(l) != Some(q)
    ensures var t' := Next(t, db0, l);
      && t'.log == t.log && Shaped(t') && q in t'.replicas && t'.replicas.Keys == t.replicas.Keys
      && t'.logs[q] == t.logs[q] && t'.acks[q] == t.acks[q] && t'.dbs[q] == t.dbs[q]
  {
    hide TermOk, CountsOk, CommitsOk, RepliesOk, ReplicaOk, OnLog, OnAck, Due, AfterLog, AfterAck, AfterReplicaHears;
    TermIsShaped(t, db0);
    match l {
      case LogArrives(r) => LogUntouched(t, r, q);
      case AckArrives(r) => AckUntouched(t, r, q);
      case ReplicaHears(r) =>
        ReplicaHearsOwn(t, db0, r);
        HearsUntouched(t, r, q);
      case _ =>
    }
  }

  ghost predicate Untouched(t: Term, t': Term, q: u64) {
    && t'.log == t.log && Shaped(t) && Shaped(t') && q in t'.replicas && t'.replicas.Keys == t.replicas.Keys
    && t'.logs[q] == t.logs[q] && t'.acks[q] == t.acks[q] && t'.dbs[q] == t.dbs[q]
  }

  lemma LogUntouched(t: Term, r: u64, q: u64)
    requires Shaped(t) && r in t.logs && t.logs[r] != [] && q in t.replicas && q != r
    ensures Untouched(t, AfterLog(t, r), q)
  {
    hide OnLog;
  }

  lemma AckUntouched(t: Term, r: u64, q: u64)
    requires Shaped(t) && r in t.acks && t.acks[r] != [] && q in t.replicas && q != r
    ensures Untouched(t, AfterAck(t, r), q)
  {
    hide OnAck;
  }

  lemma HearsUntouched(t: Term, r: u64, q: u64)
    requires Shaped(t) && r in t.dbs && t.dbs[r].handled < |t.dbs[r].results| <= |t.dbs[r].commands| && q in t.replicas && q != r
    requires t.dbs[r].commands[t.dbs[r].handled].opId + 1 < 0x1_0000_0000
    ensures Untouched(t, AfterReplicaHears(t, r), q)
  {
  }

  lemma LeftOverAt(t: Term, t': Term, at: Option<u64>)
    requires Shaped(t) && Shaped(t') && t'.replicas.Keys == t.replicas.Keys
    requires forall q :: q in t.replicas && at != Some(q) ==> LeftAt(t', q) == LeftAt(t, q)
    requires at.Some? ==> at.value in t.replicas && LeftAt(t', at.value) == LeftAt(t, at.value) - 1
    ensures Total(LeftOver(t')) == Total(LeftOver(t)) - if at.Some? then 1.0 else 0.0
  {
    hide LeftAt, Shaped;
    if at.Some? {
      assert LeftOver(t') == LeftOver(t)[at.value := LeftAt(t', at.value) as real];
      TotalUpdate(LeftOver(t), at.value, LeftAt(t', at.value) as real);
    } else {
      assert LeftOver(t') == LeftOver(t);
    }
  }

  /** Every delivery leaves one delivery less to make. */
  lemma OneLess(t: Term, db0: Ledger, l: Label)
    requires TermOk(t, db0) && Enabled(t, db0, l) && !l.Requested?
    ensures Shaped(Next(t, db0, l)) && Left(Next(t, db0, l)) == Left(t) - 1.0
  {
    hide TermOk, LeftAt, LeftOver, Due, Next;
    TermIsShaped(t, db0);
    StillShaped(t, db0, l);
    var t' := Next(t, db0, l);
    forall q | q in t.replicas && At(l) != Some(q) ensures LeftAt(t', q) == LeftAt(t, q) {
      OthersUntouched(t, db0, l, q);
      LeftAtOther(t, t', q);
    }
    if At(l).Some? {
      ReplicaStepLeft(t, db0, l);
    } else {
      LeaderStepLeft(t, db0, l);
    }
    LeftOverAt(t, t', At(l));
  }

  lemma StillShaped(t: Term, db0: Ledger, l: Label)
    requires TermOk(t, db0) && Enabled(t, db0, l)
    ensures Shaped(Next(t, db0, l)) && Next(t, db0, l).replicas.Keys == t.replicas.Keys
  {
    NextKeepsTerm(t, db0, l);
    SameMembers(t, db0, l);
  }

  lemma SameMembers(t: Term, db0: Ledger, l: Label)
    requires TermOk(t, db0) && Enabled(t, db0, l)
    ensures Next(t, db0, l).replicas.Keys == t.replicas.Keys
  {
    hide OnLog, OnAck, Due, CountsOk, CommitsOk, RepliesOk, ReplicaOk;
  }

  lemma LeaderStepLeft(t: Term, db0: Ledger, l: Label)
    requires TermOk(t, db0) && Enabled(t, db0, l) && !l.Requested? && At(l).None?
    ensures var t' := Next(t, db0, l);
      && t'.log == t.log
      && |t'.leaderDb.results| + t'.leaderDb.handled == |t.leaderDb.results| + t.leaderDb.handled + 1
  {
    hide ReplicaOk, Due;
    if l.LeaderHears? {
      LeaderHasEntry(t, db0);
    }
  }

  lemma LeftNotNegative(t: Term, db0: Ledger)
    requires TermOk(t, db0)
    ensures Left(t) >= 0.0
  {
    hide CountsOk, CommitsOk, RepliesOk, Executes;
    LeaderBounds(t, db0);
    forall r | r in t.replicas ensures LeftAt(t, r) >= 0 {
      AcksWithinReceived(t, db0, r);
      NodeFollowsLog(t, db0, Some(r));
      NodeBounds(t, db0, Some(r));
    }
    NotNegative(LeftOver(t));
  }

  lemma {:induction false} NotNegative(m: map<u64, real>)
    requires forall k :: k in m ==> m[k] >= 0.0
    ensures Total(m) >= 0.0
    decreases |m|
  {
    if m != map[] {
      var k :| k in m;
      TotalRemove(m, k);
      NotNegative(m - {k});
    }
  }

  /** Without new requests a run ends after a number of deliveries that its first state determines. */
  lemma {:induction false} DeliveriesEnd(t: Term, db0: Ledger, ls: seq<Label>)
    requires TermOk(t, db0) && Schedule(t, db0, ls) && forall l :: l in ls ==> !l.Requested?
    ensures |ls| as real <= Left(t)
    decreases |ls|
  {
    hide TermOk, Next, Enabled, Left;
    if ls == [] {
      LeftNotNegative(t, db0);
    } else {
      NextKeepsTerm(t, db0, ls[0]);
      OneLess(t, db0, ls[0]);
      DeliveriesEnd(Next(t, db0, ls[0]), db0, ls[1..]);
    }
  }
}
