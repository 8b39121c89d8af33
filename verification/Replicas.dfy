/** A replica: it stores each entry, executes the entry before, and acks when that is done. */
module Replicas {
  import opened Protocol
  import opened Messages
  import opened Nodes

  /** What handling a log entry does: an ack, or a command, or neither. */
  datatype LogEffect = LogEffect(operations: map<u32, Op>, acks: seq<u32>, commands: seq<Command>)

  function OnLog(operations: map<u32, Op>, opId: u32, op: Op): LogEffect {
    var operations := operations[opId := op];
    if opId == 1 then LogEffect(operations, [1], [])
    else if opId == 0 || opId - 1 !in operations then LogEffect(operations, [], [])
    else LogEffect(operations - {opId - 1}, [], [Command(opId - 1, operations[opId - 1])])
  }

  /** The links after sending a sequence of messages to one address. */
  function SendSeq(links: Links, addr: SocketAddr, msgs: seq<Msg>): Links {
    if msgs == [] then links
    else Broadcast(SendSeq(links, addr, msgs[..|msgs| - 1]), {addr}, msgs[|msgs| - 1])
  }

  function Requests(queue: seq<Op>, address: SocketAddr): seq<Msg> {
    seq(|queue|, i requires 0 <= i < |queue| => Request(0, address, queue[i]))
  }

  /** `addr`'s link grew by `msgs`, at its end, and no other link changed. */
  ghost predicate Grown(before: Links, after: Links, addr: SocketAddr, msgs: seq<Msg>) {
    && addr in after && after[addr] == (if addr in before then before[addr] else []) + msgs
    && forall a :: a != addr ==> (a in after <==> a in before) && (a in after ==> after[a] == before[a])
  }

  lemma GrownOne(links: Links, addr: SocketAddr, msg: Msg)
    ensures Grown(links, Broadcast(links, {addr}, msg), addr, [msg])
  {
  }

  lemma GrownThen(a: Links, b: Links, c: Links, addr: SocketAddr, msgs: seq<Msg>, more: seq<Msg>)
    requires Grown(a, b, addr, msgs) && Grown(b, c, addr, more)
    ensures Grown(a, c, addr, msgs + more)
  {
  }

  /** Messages sent one after the other arrive in that order, behind what was there. */
  lemma {:induction false} SentInOrder(links: Links, addr: SocketAddr, msgs: seq<Msg>)
    requires msgs != []
    ensures Grown(links, SendSeq(links, addr, msgs), addr, msgs)
    decreases |msgs|
  {
    hide Grown, Broadcast;
    var front, last := msgs[..|msgs| - 1], msgs[|msgs| - 1];
    assert msgs == front + [last];
    GrownOne(SendSeq(links, addr, front), addr, last);
    if front != [] {
      SentInOrder(links, addr, front);
      GrownThen(links, SendSeq(links, addr, front), SendSeq(links, addr, msgs), addr, front, [last]);
    }
  }

  /** A released queue, message by message. */
  lemma ReleasedInOrder(links: Links, leader: SocketAddr, queue: seq<Op>, address: SocketAddr)
    ensures var links' := SendSeq(links, leader, Requests(queue, address));
      var before := if leader in links then links[leader] else [];
      && (queue != [] ==>
        && leader in links' && |links'[leader]| == |before| + |queue| && links'[leader][..|before|] == before
        && forall i :: 0 <= i < |queue| ==> links'[leader][|before| + i] == Request(0, address, queue[i]))
      && forall a :: a != leader ==> (a in links' <==> a in links) && (a in links' ==> links'[a] == links[a])
  {
    if queue != [] {
      SentInOrder(links, leader, Requests(queue, address));
      hide SendSeq;
    }
  }

  lemma RequestsAre(queue: seq<Op>, address: SocketAddr)
    ensures |Requests(queue, address)| == |queue|
    ensures forall i :: 0 <= i < |queue| ==> Requests(queue, address)[i] == Request(0, address, queue[i])
  {
  }

  class Replica {
    const id: u64
    const address: SocketAddr
    var leaderAddr: SocketAddr
    var cluster: map<u64, SocketAddr>
    var operations: map<u32, Op>
    var offlineQueue: seq<Op>
    var electionInProgress: bool

    constructor (id: u64, address: SocketAddr, leaderAddr: SocketAddr, cluster: map<u64, SocketAddr>, offlineQueue: seq<Op>)
      ensures Self() == Me(id, address, cluster) && this.leaderAddr == leaderAddr
      ensures operations == map[] && this.offlineQueue == offlineQueue && !electionInProgress
    {
      this.id, this.address, this.leaderAddr, this.cluster := id, address, leaderAddr, cluster;
      this.offlineQueue, operations, electionInProgress := offlineQueue, map[], false;
    }

    function Self(): Me
      reads this
    {
      Me(id, address, cluster)
    }

    // ---- replication ----

    /** A request from the station or from a client goes to the leader. */
    method HandleRequest(connection: Connection, opId: u32, op: Op, addr: SocketAddr)
      modifies connection
      ensures connection.links == Broadcast(old(connection.links), {leaderAddr}, Request(opId, addr, op))
    {
      connection.Send(Request(opId, addr, op), leaderAddr);
    }

    /** `opId - 1` for entry 0 would underflow in the source; no leader sends it. */
    method HandleLog(connection: Connection, db: Database, opId: u32, newOp: Op)
      requires opId > 0
      modifies this`operations, connection, db
      ensures var e := OnLog(old(operations), opId, newOp);
        && operations == e.operations && db.commands == old(db.commands) + e.commands
        && connection.links == if e.acks == [] then old(connection.links) else Broadcast(old(connection.links), {leaderAddr}, Ack(1))
      ensures opId == 1 ==>
        && operations == old(operations)[1 := newOp] && db.commands == old(db.commands)
        && connection.links == Broadcast(old(connection.links), {leaderAddr}, Ack(1))
      ensures opId > 1 ==>
        && operations == old(operations)[opId := newOp] - {opId - 1} && connection.links == old(connection.links)
        && db.commands == old(db.commands) +
             if opId - 1 in old(operations) then [Command(opId - 1, old(operations)[opId - 1])] else []
    {
      operations := operations[opId := newOp];
      if opId == 1 {
        connection.Send(Ack(1), leaderAddr);
        return;
      }
      CommitOperation(db, opId - 1);
    }

    method CommitOperation(db: Database, opId: u32)
      modifies this`operations, db
      ensures operations == old(operations) - {opId}
      ensures db.commands == old(db.commands) + if opId in old(operations) then [Command(opId, old(operations)[opId])] else []
    {
      if opId !in operations {
        return;
      }
      db.Send(Command(opId, operations[opId]));
      operations := operations - {opId};
    }

    /** A finished entry is acked under the next id; a restored database releases the offline queue, in order. */
    method HandleOperationResult(connection: Connection, opId: u32, operation: Op)
      requires opId + 1 < 0x1_0000_0000
      modifies this`offlineQueue, connection
      ensures if operation.ReplaceDatabase? then
          && offlineQueue == []
          && connection.links == SendSeq(old(connection.links), leaderAddr, Requests(old(offlineQueue), address))
        else
          && offlineQueue == old(offlineQueue)
          && connection.links == Broadcast(old(connection.links), {leaderAddr}, Ack(opId + 1))
      ensures operation.ReplaceDatabase? && old(offlineQueue) != [] ==>
        var before := if leaderAddr in old(connection.links) then old(connection.links)[leaderAddr] else [];
        && leaderAddr in connection.links
        && |connection.links[leaderAddr]| == |before| + |old(offlineQueue)| && connection.links[leaderAddr][..|before|] == before
        && forall i :: 0 <= i < |old(offlineQueue)| ==>
             connection.links[leaderAddr][|before| + i] == Request(0, address, old(offlineQueue)[i])
      ensures operation.ReplaceDatabase? ==> forall a :: a != leaderAddr ==>
        (a in connection.links <==> a in old(connection.links)) &&
        (a in connection.links ==> connection.links[a] == old(connection.links)[a])
    {
      hide Broadcast, Requests;
      if operation.ReplaceDatabase? {
        ghost var all := Requests(offlineQueue, address);
        ghost var done := 0;
        RequestsAre(offlineQueue, address);
        while |offlineQueue| > 0
          invariant 0 <= done <= |old(offlineQueue)| && offlineQueue == old(offlineQueue)[done..]
          invariant connection.links == SendSeq(old(connection.links), leaderAddr, all[..done])
          decreases |offlineQueue|
        {
          var op := offlineQueue[0];
          offlineQueue := offlineQueue[1..];
          assert all[..done + 1][..done] == all[..done];
          HandleRequest(connection, 0, op, address);
          done := done + 1;
        }
        assert all[..done] == all;
        ReleasedInOrder(old(connection.links), leaderAddr, old(offlineQueue), address);
        return;
      }
      connection.Send(Ack(opId + 1), leaderAddr);
    }

    // ---- membership and election ----

    method HandleConnectionLost(connection: Connection, lostId: u64, lostAddress: SocketAddr) returns (change: RoleChange)
      requires DistinctAddresses(cluster) && (lostId in cluster ==> cluster[lostId] == lostAddress)
      modifies this`cluster, this`electionInProgress, this`leaderAddr, connection
      ensures cluster == old(cluster) - {lostId} && leaderAddr == old(leaderAddr)
      ensures var v := if lostAddress == leaderAddr then StartElection(Self(), false, old(electionInProgress))
                       else NOTHING_TO_DO.(electing := old(electionInProgress));
        electionInProgress == v.electing && change == v.change && connection.links == Transmit(old(connection.links), Self(), v)
    {
      cluster := cluster - {lostId};
      if lostAddress == leaderAddr {
        change := Elect(connection);
      } else {
        TransmitNothing(connection.links, Self(), NOTHING_TO_DO.(electing := electionInProgress));
        change := NoChange;
      }
    }

    method AnnounceCoordinator(connection: Connection) returns (change: RoleChange)
      requires DistinctAddresses(cluster)
      modifies this`electionInProgress, this`leaderAddr, connection
      ensures leaderAddr == old(leaderAddr)
      ensures var v := Announce(Self(), false);
        electionInProgress == v.electing && change == v.change && connection.links == Transmit(old(connection.links), Self(), v)
    {
      TransmitOne(connection.links, Self(), Announce(Self(), false));
      connection.SendAll(Coordinator(id, address), cluster, Others(Self()));
      var ok;
      ok, change := HandleCoordinator(id, address);
    }

    method Elect(connection: Connection) returns (change: RoleChange)
      requires DistinctAddresses(cluster)
      modifies this`electionInProgress, this`leaderAddr, connection
      ensures leaderAddr == old(leaderAddr)
      ensures var v := StartElection(Self(), false, old(electionInProgress));
        electionInProgress == v.electing && change == v.change && connection.links == Transmit(old(connection.links), Self(), v)
    {
      TransmitOne(connection.links, Self(), StartElection(Self(), false, electionInProgress));
      if electionInProgress {
        TransmitNothing(connection.links, Self(), StartElection(Self(), false, true));
        return NoChange;
      }
      connection.SendAll(Election(id, address), cluster, Higher(Self()));
      if Higher(Self()) != {} {
        electionInProgress := true;
        return NoChange;
      }
      assert connection.links == old(connection.links) by {
        assert AddressesOf(cluster, {}) == {};
        NobodyToTell(old(connection.links), Election(id, address));
      }
      electionInProgress := false;
      change := AnnounceCoordinator(connection);
    }

    method HandleElection(connection: Connection, candidateId: u64, candidateAddr: SocketAddr) returns (change: RoleChange)
      requires DistinctAddresses(cluster)
      modifies this`electionInProgress, this`leaderAddr, connection
      ensures leaderAddr == old(leaderAddr)
      ensures var v := OnElection(Self(), false, old(electionInProgress), candidateId);
        && electionInProgress == v.electing && change == v.change
        && connection.links == Transmit(
             if id > candidateId then Broadcast(old(connection.links), {candidateAddr}, ElectionOk(id)) else old(connection.links), Self(), v)
      ensures id <= candidateId ==>
        connection.links == old(connection.links) && electionInProgress == old(electionInProgress) && change.NoChange?
    {
      if id > candidateId {
        connection.Send(ElectionOk(id), candidateAddr);
        change := Elect(connection);
      } else {
        TransmitNothing(connection.links, Self(), OnElection(Self(), false, electionInProgress, candidateId));
        change := NoChange;
      }
    }

    method HandleElectionOk()
      modifies this`electionInProgress
      ensures !electionInProgress
    {
      electionInProgress := false;
    }

    /** `ok` is false where the source panics: a leader with a lower id. */
    method HandleCoordinator(newId: u64, newAddr: SocketAddr) returns (ok: bool, change: RoleChange)
      modifies this`electionInProgress, this`leaderAddr
      ensures !electionInProgress && (ok <==> newId >= id)
      ensures change == if newId == id then PromoteToLeader else NoChange
      ensures leaderAddr == if newId > id then newAddr else old(leaderAddr)
    {
      electionInProgress := false;
      if newId == id {
        return true, PromoteToLeader;
      }
      if newId < id {
        return false, NoChange;
      }
      leaderAddr := newAddr;
      return true, NoChange;
    }

    method HandleElectionTimeout(connection: Connection, elapsed: bool) returns (change: RoleChange)
      requires DistinctAddresses(cluster)
      modifies this`electionInProgress, this`leaderAddr, connection
      ensures leaderAddr == old(leaderAddr)
      ensures var v := OnTimeout(Self(), false, old(electionInProgress), elapsed);
        electionInProgress == v.electing && change == v.change && connection.links == Transmit(old(connection.links), Self(), v)
      ensures !elapsed || !old(electionInProgress) ==>
        connection.links == old(connection.links) && electionInProgress == old(electionInProgress) && change.NoChange?
    {
      if !electionInProgress {
        TransmitNothing(connection.links, Self(), OnTimeout(Self(), false, false, elapsed));
        return NoChange;
      }
      if elapsed {
        electionInProgress := false;
        change := AnnounceCoordinator(connection);
      } else {
        TransmitNothing(connection.links, Self(), OnTimeout(Self(), false, true, elapsed));
        change := NoChange;
      }
    }
  }
}
