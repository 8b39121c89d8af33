/** What `Replication` says of a term is kept by every step. */
module Commits {
  import opened Protocol
  import opened Messages
  import opened Ledgers
  import opened Nodes
  import opened Leaders
  import opened Replicas
  import opened Replication

  // ---- quorum arithmetic ----

  /** `round((n - 1) / 2)` is the ceiling of half the number of replicas. */
  lemma QuorumIsCeiling(size: nat)
    requires size >= 2
    ensures Quorum(size) == size / 2
    ensures 2 * Quorum(size) >= size - 1 && 2 * (Quorum(size) - 1) < size - 1
    ensures 1 <= Quorum(size) <= size - 1
  {
    var h := size / 2;
    assert size == 2 * h || size == 2 * h + 1;
  }

  lemma SizeAtLeastTwo(t: Term)
    requires Shaped(t)
    ensures Size(t) >= 2
  {
  }

  // ---- acks are counted in order ----

  lemma AckedByShrinks(t: Term, j: int, k: int)
    requires Shaped(t) && j <= k
    ensures AckedBy(t, k) <= AckedBy(t, j) && |AckedBy(t, k)| <= |AckedBy(t, j)|
  {
    assert |AckedBy(t, j)| == |AckedBy(t, k)| + |AckedBy(t, j) - AckedBy(t, k)|;
  }

  /** Nobody acks what it has not received. */
  lemma AcksWithinReceived(t: Term, db0: Ledger, r: u64)
    requires TermOk(t, db0) && r in t.replicas
    ensures 0 <= AcksArrived(t, r) <= AcksSent(t, r) <= Received(t, r) <= |t.log|
  {
    assert ReplicaOk(t, db0, r);
  }

  lemma SameAcked(t: Term, t': Term, k: int)
    requires Shaped(t) && Shaped(t') && t'.replicas.Keys == t.replicas.Keys
    requires forall r :: r in t.replicas ==> AcksArrived(t', r) == AcksArrived(t, r)
    ensures AckedBy(t', k) == AckedBy(t, k)
  {
  }

  // ---- the databases ----

  lemma MoreCommands(db0: Ledger, db: Db, more: seq<Command>)
    requires Rooted(db0) && Executes(db0, db)
    ensures Executes(db0, db.(commands := db.commands + more))
  {
    var cs := db.commands + more;
    forall i | 0 <= i < |db.results| ensures Correct(db0, cs, i, db.results[i]) {
      assert Correct(db0, db.commands, i, db.results[i]);
      assert cs[..i] == db.commands[..i];
    }
  }

  lemma MoreResults(db0: Ledger, db: Db, result: Result)
    requires Rooted(db0) && Executes(db0, db) && Due(db0, db, result)
    ensures Executes(db0, db.(results := db.results + [result]))
  {
    var rs := db.results + [result];
    forall i | 0 <= i < |rs| ensures Correct(db0, db.commands, i, rs[i]) {
      if i < |db.results| {
        assert Correct(db0, db.commands, i, db.results[i]);
      }
    }
  }

  lemma MoreLog(log: seq<Entry>, e: Entry, n: nat)
    requires n <= |log| && |log| + 1 < 0xFFFF_FFFF
    ensures Commands(log + [e], n) == Commands(log, n)
  {
  }

  // ---- a request ----

  lemma RequestKeepsReplica(t: Term, db0: Ledger, e: Entry, r: u64)
    requires TermOk(t, db0) && Enabled(t, db0, Requested(e)) && r in t.replicas
    ensures Shaped(AfterRequest(t, e)) && |t.log| + 1 < 0xFFFF_FFFF
    ensures ReplicaOk(AfterRequest(t, e), db0, r) && AcksArrived(AfterRequest(t, e), r) == AcksArrived(t, r)
  {
    hide CommitsOk, RepliesOk, Executes, CountsOk, LinkOk, StoreOk, AcksOk, Commands, AcksArrived;
    assert ReplicaOk(t, db0, r);
    RequestLogged(t, db0, e, r);
    RequestLink(t, AfterRequest(t, e), e, r);
  }

  /** What a request leaves as it is, and what it adds to the link of `r`. */
  lemma RequestLogged(t: Term, db0: Ledger, e: Entry, r: u64)
    requires TermOk(t, db0) && Enabled(t, db0, Requested(e)) && r in t.replicas
    ensures var t' := AfterRequest(t, e);
      && Shaped(t') && |t.log| + 1 < 0xFFFF_FFFF
      && t'.log == t.log + [e] && t'.logs[r] == t.logs[r] + [(|t.log| + 1, e.op)]
      && t'.replicas == t.replicas && t'.dbs == t.dbs && t'.acks == t.acks
  {
    hide CommitsOk, RepliesOk, ReplicaOk, Executes;
  }

  lemma RequestLink(t: Term, t': Term, e: Entry, r: u64)
    requires Shaped(t) && Shaped(t') && r in t.replicas && r in t'.replicas && |t.log| + 1 < 0xFFFF_FFFF
    requires t'.log == t.log + [e] && t'.logs[r] == t.logs[r] + [(|t.log| + 1, e.op)]
    requires t'.replicas == t.replicas && t'.dbs == t.dbs && t'.acks == t.acks
    requires LinkOk(t, r) && StoreOk(t, r) && AcksOk(t, r)
    ensures LinkOk(t', r) && StoreOk(t', r) && AcksOk(t', r) && AcksArrived(t', r) == AcksArrived(t, r)
  {
    hide Commands;
    var m := Received(t, r);
    assert Received(t', r) == m;
    MoreLog(t.log, e, if m == 0 then 0 else m - 1);
  }

  /** Nobody has acked an entry that is not in the log yet. */
  lemma NobodyAcked(t: Term, db0: Ledger)
    requires TermOk(t, db0)
    ensures AckedBy(t, |t.log| + 1) == {}
  {
    hide CommitsOk, CountsOk, RepliesOk, ReplicaOk;
    forall r | r in t.replicas ensures AcksArrived(t, r) < |t.log| + 1 {
      AcksWithinReceived(t, db0, r);
    }
  }

  lemma RequestKeepsCounts(t: Term, e: Entry)
    requires t.leader.currentOpId + 1 < 0x1_0000_0000 && Shaped(t) && Shaped(AfterRequest(t, e)) && CountsOk(t)
    requires forall k :: AckedBy(AfterRequest(t, e), k) == AckedBy(t, k)
    requires AckedBy(t, |t.log| + 1) == {} && t.leaderDb.handled <= |t.log|
    ensures CountsOk(AfterRequest(t, e))
  {
    hide AckedBy;
    var t' := AfterRequest(t, e);
    forall k | k in t'.leader.operations ensures 1 <= k <= |t'.log| && t'.leader.operations[k] == PendingOf(t', k) {
      if k != t.leader.currentOpId {
        assert t.leader.operations[k] == PendingOf(t, k);
      }
    }
  }

  lemma RequestKeepsCommits(t: Term, db0: Ledger, e: Entry)
    requires t.leader.currentOpId + 1 < 0x1_0000_0000 && Shaped(t) && Shaped(AfterRequest(t, e)) && |t.log| + 1 < 0xFFFF_FFFF && CommitsOk(t)
    requires forall k :: AckedBy(AfterRequest(t, e), k) == AckedBy(t, k)
    requires AckedBy(t, |t.log| + 1) == {}
    ensures CommitsOk(AfterRequest(t, e))
  {
    hide AckedBy, Quorum;
    SizeAtLeastTwo(t);
    QuorumIsCeiling(Size(t));
    MoreLog(t.log, e, |t.leaderDb.commands|);
  }

  lemma RequestKeepsTerm(t: Term, db0: Ledger, e: Entry)
    requires TermOk(t, db0) && Enabled(t, db0, Requested(e))
    ensures TermOk(AfterRequest(t, e), db0)
  {
    hide ReplicaOk, CountsOk, CommitsOk, Executes, AckedBy, AcksArrived;
    var t' := AfterRequest(t, e);
    var r0 :| r0 in t.replicas;
    RequestKeepsReplica(t, db0, e, r0);
    forall r | r in t.replicas ensures ReplicaOk(t', db0, r) && AcksArrived(t', r) == AcksArrived(t, r) {
      RequestKeepsReplica(t, db0, e, r);
    }
    forall k ensures AckedBy(t', k) == AckedBy(t, k) {
      SameAcked(t, t', k);
    }
    NobodyAcked(t, db0);
    RequestKeepsCounts(t, e);
    RequestKeepsCommits(t, db0, e);
  }

  // ---- a log entry arrives ----

  lemma LogEffectIs(t: Term, db0: Ledger, r: u64)
    requires TermOk(t, db0) && Enabled(t, db0, LogArrives(r))
    ensures var m, e := Received(t, r), OnLog(t.replicas[r], t.logs[r][0].0, t.logs[r][0].1);
      && 0 <= m < |t.log|
      && e.operations == map[m + 1 := t.log[m].op]
      && e.acks == (if m == 0 then [1] else [])
      && Commands(t.log, m) == t.dbs[r].commands + e.commands
  {
    hide CommitsOk, CountsOk, RepliesOk, Executes, AcksOk, ReplicaOk;
    ReplicaExecutesOk(t, db0, r);
    var m := Received(t, r);
    assert t.logs[r][0] == (m + 1, t.log[m].op);
    if m > 0 {
      OneMoreCommand(t.log, m);
      StoresOneMore(t.log[m - 1].op, t.log[m].op, m);
    }
  }

  lemma OneMoreCommand(log: seq<Entry>, m: nat)
    requires 0 < m <= |log| < 0xFFFF_FFFF
    ensures Commands(log, m) == Commands(log, m - 1) + [Command(m, log[m - 1].op)]
  {
  }

  lemma StoresOneMore(stored: Op, arrived: Op, m: u32)
    requires 0 < m < 0xFFFF_FFFF
    ensures OnLog(map[m := stored], m + 1, arrived) == LogEffect(map[m + 1 := arrived], [], [Command(m, stored)])
  {
    assert map[m := stored][m + 1 := arrived] - {m} == map[m + 1 := arrived];
  }

  lemma LogKeepsLink(t: Term, db0: Ledger, r: u64)
    requires TermOk(t, db0) && Enabled(t, db0, LogArrives(r))
    ensures LinkOk(AfterLog(t, r), r) && Received(AfterLog(t, r), r) == Received(t, r) + 1
  {
    hide CommitsOk, CountsOk, RepliesOk, Executes, AcksOk, StoreOk, OnLog;
    assert ReplicaOk(t, db0, r);
    var t' := AfterLog(t, r);
    forall i | 0 <= i < |t'.logs[r]| ensures t'.logs[r][i] == (Received(t', r) + i + 1, t'.log[Received(t', r) + i].op) {
      assert t'.logs[r][i] == t.logs[r][i + 1];
    }
  }

  lemma LogKeepsStore(t: Term, db0: Ledger, r: u64)
    requires TermOk(t, db0) && Enabled(t, db0, LogArrives(r))
    ensures Shaped(AfterLog(t, r)) && LinkOk(AfterLog(t, r), r) && StoreOk(AfterLog(t, r), r) && Executes(db0, AfterLog(t, r).dbs[r])
  {
    hide CommitsOk, CountsOk, RepliesOk, Executes, LinkOk, OnLog, ReplicaOk, Commands;
    LogEffectIs(t, db0, r);
    LogKeepsLink(t, db0, r);
    ReplicaExecutesOk(t, db0, r);
    MoreCommands(db0, t.dbs[r], OnLog(t.replicas[r], t.logs[r][0].0, t.logs[r][0].1).commands);
    LinkBound(AfterLog(t, r), r);
  }

  lemma LinkBound(t: Term, r: u64)
    requires r in t.logs && LinkOk(t, r)
    ensures |t.logs[r]| <= |t.log|
  {
  }

  lemma ReplicaExecutesOk(t: Term, db0: Ledger, r: u64)
    requires TermOk(t, db0) && r in t.replicas
    ensures Executes(db0, t.dbs[r]) && AcksOk(t, r) && StoreOk(t, r) && LinkOk(t, r)
  {
    assert ReplicaOk(t, db0, r);
  }

  lemma LogKeepsAcks(t: Term, db0: Ledger, r: u64)
    requires TermOk(t, db0) && Enabled(t, db0, LogArrives(r)) && Shaped(AfterLog(t, r))
    ensures AcksOk(AfterLog(t, r), r) && AcksArrived(AfterLog(t, r), r) == AcksArrived(t, r)
  {
    hide CommitsOk, CountsOk, RepliesOk, Executes, LinkOk, OnLog, ReplicaOk, Commands;
    LogEffectIs(t, db0, r);
    LogKeepsLink(t, db0, r);
    ReplicaExecutesOk(t, db0, r);
    if Received(t, r) == 0 {
      HandledNothing(t, db0, r);
    } else {
      assert t.acks[r] + [] == t.acks[r];
    }
  }

  lemma HandledNothing(t: Term, db0: Ledger, r: u64)
    requires TermOk(t, db0) && r in t.replicas && Received(t, r) == 0
    ensures t.dbs[r].handled == 0 && t.acks[r] == []
  {
    ReplicaExecutesOk(t, db0, r);
    ExecutesBounds(db0, t.dbs[r]);
  }

  lemma LogKeepsOwn(t: Term, db0: Ledger, r: u64)
    requires TermOk(t, db0) && Enabled(t, db0, LogArrives(r))
    ensures Shaped(AfterLog(t, r)) && ReplicaOk(AfterLog(t, r), db0, r) && AcksArrived(AfterLog(t, r), r) == AcksArrived(t, r)
  {
    hide CommitsOk, CountsOk, RepliesOk, Executes, LinkOk, OnLog, AcksOk, StoreOk, AcksArrived;
    LogKeepsStore(t, db0, r);
    LogKeepsAcks(t, db0, r);
  }

  lemma ExecutesBounds(db0: Ledger, db: Db)
    requires Rooted(db0) && Executes(db0, db)
    ensures db.handled <= |db.results| <= |db.commands|
  {
  }

  lemma LogKeepsOther(t: Term, db0: Ledger, r: u64, q: u64)
    requires TermOk(t, db0) && Enabled(t, db0, LogArrives(r)) && Shaped(AfterLog(t, r)) && q in t.replicas && q != r
    ensures ReplicaOk(AfterLog(t, r), db0, q) && AcksArrived(AfterLog(t, r), q) == AcksArrived(t, q)
  {
    hide CommitsOk, CountsOk, RepliesOk, Executes, OnLog, ReplicaOk;
    ReplicaIsOk(t, db0, q);
    hide TermOk;
    SameReplica(t, AfterLog(t, r), db0, q);
  }

  lemma ReplicaIsOk(t: Term, db0: Ledger, r: u64)
    requires TermOk(t, db0) && r in t.replicas
    ensures Shaped(t) && Rooted(db0) && |t.log| < 0xFFFF_FFFF && ReplicaOk(t, db0, r)
  {
    hide ReplicaOk, CommitsOk, CountsOk, RepliesOk, Executes;
  }

  /** A step among the replicas that delivers no ack leaves the leader's books as they are. */
  lemma SameLeader(t: Term, t': Term, db0: Ledger)
    requires TermOk(t, db0) && Shaped(t')
    requires t' == t.(replicas := t'.replicas, dbs := t'.dbs, logs := t'.logs, acks := t'.acks) && t'.replicas.Keys == t.replicas.Keys
    requires forall r :: r in t.replicas ==> AcksArrived(t', r) == AcksArrived(t, r)
    requires forall r :: r in t.replicas ==> ReplicaOk(t', db0, r)
    ensures TermOk(t', db0)
  {
    hide ReplicaOk, Executes, CountsOk, CommitsOk, AckedBy, AcksArrived;
    forall k ensures AckedBy(t', k) == AckedBy(t, k) {
      SameAcked(t, t', k);
    }
    assert Size(t') == Size(t) by {
      assert |t'.replicas| == |t'.replicas.Keys| && |t.replicas| == |t.replicas.Keys|;
    }
    SameBooks(t, t');
  }

  /** The leader's books depend on its commands and on how many results it has handled, not on the results. */
  lemma SameBooks(t: Term, t': Term)
    requires Shaped(t) && Shaped(t') && t'.log == t.log && t'.leader == t.leader && Size(t') == Size(t)
    requires t'.leaderDb.commands == t.leaderDb.commands && t'.leaderDb.handled == t.leaderDb.handled
    requires |t.log| < 0xFFFF_FFFF && CountsOk(t) && CommitsOk(t)
    requires forall k :: AckedBy(t', k) == AckedBy(t, k)
    ensures CountsOk(t') && CommitsOk(t')
  {
    hide AckedBy, Quorum;
    forall k | k in t'.leader.operations ensures 1 <= k <= |t'.log| && t'.leader.operations[k] == PendingOf(t', k) {
      assert t.leader.operations[k] == PendingOf(t, k);
    }
  }

  lemma LogKeepsTerm(t: Term, db0: Ledger, r: u64)
    requires TermOk(t, db0) && Enabled(t, db0, LogArrives(r))
    ensures TermOk(AfterLog(t, r), db0)
  {
    hide ReplicaOk, CountsOk, CommitsOk, RepliesOk, Executes, AcksArrived;
    var t' := AfterLog(t, r);
    assert t'.log == t.log;
    LogKeepsOwn(t, db0, r);
    forall q | q in t.replicas ensures ReplicaOk(t', db0, q) && AcksArrived(t', q) == AcksArrived(t, q) {
      if q != r {
        LogKeepsOther(t, db0, r, q);
      }
    }
    SameLeader(t, t', db0);
  }

  // ---- an ack arrives ----

  /** The ack at the head of a link is the next one of that replica. */
  lemma NextAck(t: Term, db0: Ledger, r: u64)
    requires TermOk(t, db0) && Enabled(t, db0, AckArrives(r))
    ensures t.acks[r][0] == AcksArrived(t, r) + 1 && 1 <= t.acks[r][0] <= |t.log|
    ensures r !in AckedBy(t, t.acks[r][0])
  {
    hide CommitsOk, CountsOk, RepliesOk, ReplicaOk;
    ReplicaExecutesOk(t, db0, r);
    AcksWithinReceived(t, db0, r);
  }

  /** A replica whose own part of the term does not change stays as it was. */
  lemma SameReplica(t: Term, t': Term, db0: Ledger, q: u64)
    requires Rooted(db0) && Shaped(t) && Shaped(t') && q in t.replicas && q in t'.replicas && t'.log == t.log && |t.log| < 0xFFFF_FFFF
    requires t'.replicas[q] == t.replicas[q] && t'.dbs[q] == t.dbs[q] && t'.logs[q] == t.logs[q]
    requires ReplicaOk(t, db0, q)
    ensures LinkOk(t', q) && StoreOk(t', q) && Executes(db0, t'.dbs[q]) && AcksSent(t', q) == AcksSent(t, q)
    ensures t'.acks[q] == t.acks[q] ==> ReplicaOk(t', db0, q) && AcksArrived(t', q) == AcksArrived(t, q)
  {
    hide Executes;
  }

  lemma AckKeepsReplica(t: Term, db0: Ledger, r: u64, q: u64)
    requires TermOk(t, db0) && Enabled(t, db0, AckArrives(r)) && q in t.replicas
    ensures Shaped(AfterAck(t, r)) && ReplicaOk(AfterAck(t, r), db0, q)
    ensures AcksArrived(AfterAck(t, r), q) == AcksArrived(t, q) + if q == r then 1 else 0
  {
    hide CommitsOk, CountsOk, RepliesOk, Executes, OnAck, LinkOk, StoreOk, AcksSent;
    var t' := AfterAck(t, r);
    SameReplica(t, t', db0, q);
    if q == r {
      ReplicaExecutesOk(t, db0, r);
      forall i | 0 <= i < |t'.acks[q]| ensures t'.acks[q][i] == AcksArrived(t', q) + i + 1 {
        assert t'.acks[q][i] == t.acks[q][i + 1];
      }
    }
  }

  lemma AckAdds(t: Term, db0: Ledger, r: u64, k: int)
    requires TermOk(t, db0) && Enabled(t, db0, AckArrives(r)) && Shaped(AfterAck(t, r))
    requires forall q :: q in t.replicas ==> AcksArrived(AfterAck(t, r), q) == AcksArrived(t, q) + if q == r then 1 else 0
    ensures AckedBy(AfterAck(t, r), k) == AckedBy(t, k) + if k == t.acks[r][0] then {r} else {}
    ensures |AckedBy(AfterAck(t, r), k)| == |AckedBy(t, k)| + if k == t.acks[r][0] then 1 else 0
  {
    hide CommitsOk, CountsOk, RepliesOk, ReplicaOk, OnAck, TermOk, AcksArrived, Shaped;
    TermIsShaped(t, db0);
    NextAck(t, db0, r);
    var k0, before, after := t.acks[r][0], AckedBy(t, k), AckedBy(AfterAck(t, r), k);
    assert r in t.replicas;
    assert r !in AckedBy(t, k0);
    forall q ensures q in after <==> q in before + if k == k0 then {r} else {} {
    }
  }

  lemma AckKeepsCounts(t: Term, db0: Ledger, r: u64)
    requires TermOk(t, db0) && Enabled(t, db0, AckArrives(r)) && Shaped(AfterAck(t, r))
    requires forall k :: |AckedBy(AfterAck(t, r), k)| == |AckedBy(t, k)| + if k == t.acks[r][0] then 1 else 0
    ensures CountsOk(AfterAck(t, r))
  {
    hide CommitsOk, CountsOk, RepliesOk, ReplicaOk, AckedBy, Quorum, OnAck;
    NextAck(t, db0, r);
    AckCounts(t.leader, Size(t), t.acks[r][0]);
    TermCounts(t, db0);
    hide TermOk, Enabled;
    OneMoreAck(t, AfterAck(t, r), t.acks[r][0]);
  }

  lemma TermCounts(t: Term, db0: Ledger)
    requires TermOk(t, db0)
    ensures Shaped(t) && CountsOk(t)
  {
    hide ReplicaOk, CountsOk, CommitsOk, RepliesOk;
  }

  lemma OneMoreAck(t: Term, t': Term, opId: u32)
    requires Shaped(t) && Shaped(t') && CountsOk(t) && t'.log == t.log && t'.leaderDb.handled == t.leaderDb.handled
    requires t'.leader.currentOpId == t.leader.currentOpId && t'.leader.operations.Keys == t.leader.operations.Keys
    requires forall k :: |AckedBy(t', k)| == |AckedBy(t, k)| + if k == opId then 1 else 0
    requires forall k :: k in t.leader.operations ==>
      t'.leader.operations[k] == t.leader.operations[k].(ackCount := t.leader.operations[k].ackCount + if k == opId then 1 else 0)
    ensures CountsOk(t')
  {
    hide AckedBy, PendingOf;
    forall k | k in t'.leader.operations ensures 1 <= k <= |t'.log| && t'.leader.operations[k] == PendingOf(t', k) {
      StaysPending(t, t', k, if k == opId then 1 else 0);
    }
  }

  /** An entry pending with `n` more acks. */
  lemma StaysPending(t: Term, t': Term, k: u32, n: nat)
    requires Shaped(t) && Shaped(t') && t'.log == t.log && 1 <= k <= |t.log| && k in t.leader.operations && k in t'.leader.operations
    requires t.leader.operations[k] == PendingOf(t, k) && |AckedBy(t', k)| == |AckedBy(t, k)| + n
    requires t'.leader.operations[k] == t.leader.operations[k].(ackCount := t.leader.operations[k].ackCount + n)
    ensures t'.leader.operations[k] == PendingOf(t', k)
  {
    hide AckedBy;
  }

  /** An ack only raises the count of its own entry. */
  lemma AckCounts(log: LeaderLog, size: nat, opId: u32)
    ensures var log' := OnAck(log, size, opId).log;
      && log'.currentOpId == log.currentOpId && log'.operations.Keys == log.operations.Keys
      && forall k :: k in log.operations ==>
           log'.operations[k] == log.operations[k].(ackCount := log.operations[k].ackCount + if k == opId then 1 else 0)
  {
    hide Quorum;
  }

  /** The ack that completes a quorum commits the next entry, and no other ack commits anything. */
  lemma AckCommits(t: Term, db0: Ledger, r: u64)
    requires TermOk(t, db0) && Enabled(t, db0, AckArrives(r))
    ensures var k, c := t.acks[r][0], |t.leaderDb.commands|;
      if |AckedBy(t, k)| + 1 == Quorum(Size(t)) then
        k == c + 1 && c < |t.log| && OnAck(t.leader, Size(t), k).commands == [Command(k, t.log[k - 1].op)]
      else OnAck(t.leader, Size(t), k).commands == []
  {
    hide RepliesOk, ReplicaOk, AckedBy, Quorum;
    NextAck(t, db0, r);
    SizeAtLeastTwo(t);
    QuorumIsCeiling(Size(t));
    var k, c := t.acks[r][0], |t.leaderDb.commands|;
    LeaderBounds(t, db0);
    if |AckedBy(t, k)| + 1 == Quorum(Size(t)) {
      if k > 1 {
        AckedByShrinks(t, k - 1, k);
        MoreAcked(t, r, k);
      }
      assert k in t.leader.operations && t.leader.operations[k] == PendingOf(t, k);
    } else if k in t.leader.operations {
      assert t.leader.operations[k] == PendingOf(t, k);
      FewAcks(t, db0, r, k);
    }
  }

  /** Whoever acked entry `k` had acked the one before, and the newcomer has acked that too. */
  lemma MoreAcked(t: Term, r: u64, k: int)
    requires Shaped(t) && r in t.replicas && r !in AckedBy(t, k) && AcksArrived(t, r) == k - 1
    ensures |AckedBy(t, k - 1)| >= |AckedBy(t, k)| + 1
  {
    var s := AckedBy(t, k) + {r};
    assert s <= AckedBy(t, k - 1);
    assert |AckedBy(t, k - 1)| == |s| + |AckedBy(t, k - 1) - s|;
  }

  lemma LeaderBounds(t: Term, db0: Ledger)
    requires TermOk(t, db0)
    ensures t.leaderDb.handled <= |t.leaderDb.results| <= |t.leaderDb.commands| <= |t.log|
  {
    ExecutesBounds(db0, t.leaderDb);
  }

  /** With a single replica the first ack of an entry is its quorum. */
  lemma FewAcks(t: Term, db0: Ledger, r: u64, k: int)
    requires TermOk(t, db0) && r in t.replicas && r !in AckedBy(t, k)
    ensures |AckedBy(t, k)| + 1 <= Size(t) - 1
  {
    var s := AckedBy(t, k) + {r};
    assert s <= t.replicas.Keys;
    assert |t.replicas.Keys| == |s| + |t.replicas.Keys - s|;
    assert |t.replicas| == |t.replicas.Keys|;
  }

  lemma AckKeepsCommits(t: Term, db0: Ledger, r: u64)
    requires TermOk(t, db0) && Enabled(t, db0, AckArrives(r)) && Shaped(AfterAck(t, r))
    requires forall k :: |AckedBy(AfterAck(t, r), k)| == |AckedBy(t, k)| + if k == t.acks[r][0] then 1 else 0
    ensures CommitsOk(AfterAck(t, r))
  {
    hide RepliesOk, ReplicaOk, AckedBy, Quorum, OnAck, Commands;
    AckCommits(t, db0, r);
    var c := |t.leaderDb.commands|;
    if c < |t.log| {
      OneMoreCommand(t.log, c + 1);
    }
  }

  lemma AckKeepsTerm(t: Term, db0: Ledger, r: u64)
    requires TermOk(t, db0) && Enabled(t, db0, AckArrives(r))
    ensures TermOk(AfterAck(t, r), db0)
  {
    hide ReplicaOk, CountsOk, CommitsOk, Executes, AckedBy, AcksArrived, OnAck;
    var t' := AfterAck(t, r);
    AckKeepsReplica(t, db0, r, r);
    forall q | q in t.replicas
      ensures ReplicaOk(t', db0, q) && AcksArrived(t', q) == AcksArrived(t, q) + if q == r then 1 else 0
    {
      AckKeepsReplica(t, db0, r, q);
    }
    forall k ensures |AckedBy(t', k)| == |AckedBy(t, k)| + if k == t.acks[r][0] then 1 else 0 {
      AckAdds(t, db0, r, k);
    }
    AckKeepsCounts(t, db0, r);
    AckKeepsCommits(t, db0, r);
    MoreCommands(db0, t.leaderDb, OnAck(t.leader, Size(t), t.acks[r][0]).commands);
  }

  // ---- the databases and the nodes that listen to them ----

  lemma LeaderExecutesKeepsTerm(t: Term, db0: Ledger, result: Result)
    requires TermOk(t, db0) && Enabled(t, db0, LeaderExecutes(result))
    ensures TermOk(t.(leaderDb := t.leaderDb.(results := t.leaderDb.results + [result])), db0)
  {
    hide ReplicaOk, Executes, Due, AckedBy, Quorum;
    var t' := t.(leaderDb := t.leaderDb.(results := t.leaderDb.results + [result]));
    MoreResults(db0, t.leaderDb, result);
    assert Shaped(t');
    forall k ensures AckedBy(t', k) == AckedBy(t, k) {
      SameAcked(t, t', k);
    }
    forall q | q in t.replicas ensures ReplicaOk(t', db0, q) {
      SameReplica(t, t', db0, q);
    }
    SameBooks(t, t');
  }

  lemma ReplicaExecutesKeepsTerm(t: Term, db0: Ledger, r: u64, result: Result)
    requires TermOk(t, db0) && Enabled(t, db0, ReplicaExecutes(r, result))
    ensures TermOk(t.(dbs := t.dbs[r := t.dbs[r].(results := t.dbs[r].results + [result])]), db0)
  {
    hide CountsOk, CommitsOk, RepliesOk, Executes, Due, AcksOk;
    var t' := t.(dbs := t.dbs[r := t.dbs[r].(results := t.dbs[r].results + [result])]);
    ReplicaExecutesOk(t, db0, r);
    MoreResults(db0, t.dbs[r], result);
    assert t'.dbs.Keys == t.dbs.Keys && Shaped(t');
    forall q | q in t.replicas ensures ReplicaOk(t', db0, q) && AcksArrived(t', q) == AcksArrived(t, q) {
      ExecutingReplica(t, t', db0, q);
    }
    SameLeader(t, t', db0);
  }

  lemma ExecutingReplica(t: Term, t': Term, db0: Ledger, q: u64)
    requires TermOk(t, db0) && Shaped(t') && q in t.replicas && q in t'.replicas
    requires t' == t.(dbs := t'.dbs) && t'.dbs[q].commands == t.dbs[q].commands && t'.dbs[q].handled == t.dbs[q].handled
    requires Executes(db0, t'.dbs[q])
    ensures ReplicaOk(t', db0, q) && AcksArrived(t', q) == AcksArrived(t, q)
  {
    hide CountsOk, CommitsOk, RepliesOk, Executes;
    assert ReplicaOk(t, db0, q);
  }

  /** The leader still has the entry whose result it handles. */
  lemma LeaderHasEntry(t: Term, db0: Ledger)
    requires TermOk(t, db0) && Enabled(t, db0, LeaderHears)
    ensures var i := t.leaderDb.handled;
      && i < |t.leaderDb.results| <= |t.leaderDb.commands| <= |t.log|
      && t.leaderDb.commands[i] == Command(i + 1, t.log[i].op)
      && i + 1 in t.leader.operations && t.leader.operations[i + 1] == PendingOf(t, i + 1)
  {
    hide ReplicaOk, AckedBy, Quorum, Executes;
    LeaderBounds(t, db0);
  }

  lemma LeaderHearsReplies(t: Term, db0: Ledger)
    requires TermOk(t, db0) && Enabled(t, db0, LeaderHears)
    ensures |t.leaderDb.results| <= |t.leaderDb.commands|
    ensures var t' := AfterLeaderHears(t);
      && RepliesOk(t') && t'.log == t.log && t'.leaderDb == t.leaderDb.(handled := t.leaderDb.handled + 1)
      && t'.leader == t.leader.(operations := t.leader.operations - {t.leaderDb.handled + 1})
      && t'.replicas == t.replicas && t'.dbs == t.dbs && t'.logs == t.logs && t'.acks == t.acks
  {
    hide ReplicaOk, AckedBy, Quorum, Executes, Commands, CommitsOk, CountsOk;
    LeaderHasEntry(t, db0);
  }

  lemma LeaderHearsCounts(t: Term, db0: Ledger)
    requires TermOk(t, db0) && Enabled(t, db0, LeaderHears)
    ensures |t.leaderDb.results| <= |t.leaderDb.commands|
    ensures var t' := AfterLeaderHears(t); Shaped(t') && RepliesOk(t') && CountsOk(t') && CommitsOk(t')
  {
    hide ReplicaOk, AckedBy, Quorum, Executes, Commands, RepliesOk, CountsOk, CommitsOk;
    LeaderHasEntry(t, db0);
    LeaderHearsReplies(t, db0);
    var t' := AfterLeaderHears(t);
    assert Shaped(t');
    forall k ensures AckedBy(t', k) == AckedBy(t, k) {
      SameAcked(t, t', k);
    }
    OneHandled(t, t');
  }

  lemma OneHandled(t: Term, t': Term)
    requires Shaped(t) && Shaped(t') && |t.log| < 0xFFFF_FFFF && CountsOk(t) && CommitsOk(t) && t.leaderDb.handled < |t.log|
    requires t'.log == t.log && Size(t') == Size(t) && forall k :: AckedBy(t', k) == AckedBy(t, k)
    requires t'.leaderDb.commands == t.leaderDb.commands && t'.leaderDb.handled == t.leaderDb.handled + 1
    requires t'.leader == t.leader.(operations := t.leader.operations - {t.leaderDb.handled + 1})
    ensures CountsOk(t') && CommitsOk(t')
  {
    hide AckedBy, Quorum, Commands, PendingOf;
    forall k | k in t'.leader.operations ensures 1 <= k <= |t'.log| && t'.leader.operations[k] == PendingOf(t', k) {
      StaysPending(t, t', k, 0);
    }
  }

  lemma LeaderHearsKeepsTerm(t: Term, db0: Ledger)
    requires TermOk(t, db0) && Enabled(t, db0, LeaderHears)
    ensures |t.leaderDb.results| <= |t.leaderDb.commands| && TermOk(AfterLeaderHears(t), db0)
  {
    hide ReplicaOk, AckedBy, CountsOk, CommitsOk, RepliesOk, Correct;
    LeaderHasEntry(t, db0);
    LeaderHearsCounts(t, db0);
    var t' := AfterLeaderHears(t);
    forall q | q in t.replicas ensures ReplicaOk(t', db0, q) {
      SameReplica(t, t', db0, q);
    }
  }

  /** The entry whose result a replica handles comes before the last one it received. */
  lemma ReplicaHasEntry(t: Term, db0: Ledger, r: u64)
    requires TermOk(t, db0) && Enabled(t, db0, ReplicaHears(r))
    ensures var i := t.dbs[r].handled;
      && i < |t.dbs[r].results| <= |t.dbs[r].commands| && i + 2 <= Received(t, r) <= |t.log| < 0xFFFF_FFFF
      && t.dbs[r].commands[i] == Command(i + 1, t.log[i].op) && !t.log[i].op.ReplaceDatabase?
  {
    hide CountsOk, CommitsOk, RepliesOk, Executes, ReplicaOk, AcksOk, LinkOk;
    ReplicaExecutesOk(t, db0, r);
    ExecutesBounds(db0, t.dbs[r]);
    assert t.log[t.dbs[r].handled] in t.log;
  }

  lemma ReplicaHearsOwn(t: Term, db0: Ledger, r: u64)
    requires TermOk(t, db0) && Enabled(t, db0, ReplicaHears(r))
    ensures |t.dbs[r].results| <= |t.dbs[r].commands| && t.dbs[r].commands[t.dbs[r].handled].opId + 1 < 0x1_0000_0000
    ensures Shaped(AfterReplicaHears(t, r)) && t.dbs[r].handled + 2 <= |t.log| < 0xFFFF_FFFF
    ensures ReplicaOk(AfterReplicaHears(t, r), db0, r)
    ensures AcksArrived(AfterReplicaHears(t, r), r) == AcksArrived(t, r)
  {
    hide CountsOk, CommitsOk, RepliesOk, TermOk, LinkOk, StoreOk, Executes, AcksOk;
    ReplicaHasEntry(t, db0, r);
    TermIsShaped(t, db0);
    ReplicaExecutesOk(t, db0, r);
    var t' := AfterReplicaHears(t, r);
    HearsAcks(t, r);
    SameStore(t, t', r);
    HandlesOne(db0, t.dbs[r]);
  }

  lemma TermIsShaped(t: Term, db0: Ledger)
    requires TermOk(t, db0)
    ensures Shaped(t) && Rooted(db0) && |t.log| < 0xFFFF_FFFF
  {
  }

  lemma HandlesOne(db0: Ledger, db: Db)
    requires Rooted(db0) && Executes(db0, db) && db.handled < |db.results|
    ensures Executes(db0, db.(handled := db.handled + 1))
  {
    hide Correct;
  }

  /** The ack of the next entry goes out when the result of this one comes in. */
  lemma HearsAcks(t: Term, r: u64)
    requires Shaped(t) && r in t.dbs && AcksOk(t, r) && t.dbs[r].handled < |t.dbs[r].results| <= |t.dbs[r].commands|
    requires Received(t, r) > 0 && t.dbs[r].handled + 2 < 0xFFFF_FFFF
    requires var cmd := t.dbs[r].commands[t.dbs[r].handled]; cmd.opId == t.dbs[r].handled + 1 && !cmd.op.ReplaceDatabase?
    ensures var t' := AfterReplicaHears(t, r);
      Shaped(t') && AcksOk(t', r) && AcksArrived(t', r) == AcksArrived(t, r)
  {
  }

  lemma SameStore(t: Term, t': Term, r: u64)
    requires Shaped(t) && Shaped(t') && r in t.replicas && r in t'.replicas && t'.log == t.log && |t.log| < 0xFFFF_FFFF
    requires t'.logs[r] == t.logs[r] && t'.replicas[r] == t.replicas[r] && t'.dbs[r].commands == t.dbs[r].commands
    requires LinkOk(t, r) && |t.logs[r]| <= |t.log| && StoreOk(t, r)
    ensures LinkOk(t', r) && StoreOk(t', r)
  {
  }

  lemma ReplicaHearsKeepsTerm(t: Term, db0: Ledger, r: u64)
    requires TermOk(t, db0) && Enabled(t, db0, ReplicaHears(r))
    ensures |t.dbs[r].results| <= |t.dbs[r].commands| && t.dbs[r].commands[t.dbs[r].handled].opId + 1 < 0x1_0000_0000
    ensures TermOk(AfterReplicaHears(t, r), db0)
  {
    hide CountsOk, CommitsOk, RepliesOk, Executes, ReplicaOk, AcksArrived;
    ReplicaHearsOwn(t, db0, r);
    var t' := AfterReplicaHears(t, r);
    forall q | q in t.replicas ensures ReplicaOk(t', db0, q) && AcksArrived(t', q) == AcksArrived(t, q) {
      if q != r {
        SameReplica(t, t', db0, q);
      }
    }
    SameLeader(t, t', db0);
  }
}
