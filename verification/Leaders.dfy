/** The leader: it replicates requests, counts acks, commits on a quorum and answers clients. */
module Leaders {
  import opened Wrappers
  import opened Protocol
  import opened Messages
  import opened Nodes

  datatype Pending = Pending(op: Op, clientAddr: SocketAddr, requestId: u32, ackCount: nat)

  datatype LeaderLog = LeaderLog(currentOpId: u32, operations: map<u32, Pending>)

  /** `f32::round`: to the nearest integer, halves away from zero; for numbers that are not negative. */
  function RoundHalf(x: real): int {
    (x + 0.5).Floor
  }

  /** The number of acks that commits an entry in a cluster of `size` nodes. */
  function Quorum(size: nat): int {
    RoundHalf((size as real - 1.0) / 2.0)
  }

  /** What handling an ack does: count it, and perhaps commit the entry. */
  datatype AckEffect = AckEffect(log: LeaderLog, commands: seq<Command>)

  function Accept(log: LeaderLog, op: Op, clientAddr: SocketAddr, reqId: u32): LeaderLog {
    log.(operations := log.operations[log.currentOpId := Pending(op, clientAddr, reqId, 0)])
  }

  function OnAck(log: LeaderLog, size: nat, opId: u32): AckEffect {
    if opId !in log.operations then AckEffect(log, [])
    else
      var p := log.operations[opId].(ackCount := log.operations[opId].ackCount + 1);
      var log := log.(operations := log.operations[opId := p]);
      if p.ackCount != Quorum(size) && size - 1 != 1 then AckEffect(log, []) else AckEffect(log, [Command(opId, p.op)])
  }

  /** Whom a result is owed to, and what it is. */
  datatype Reply =
    | ToClient(addr: SocketAddr, reqId: u32, result: Result)
    | ToStation(msg: StationMsg)
    | ToNewcomer(addr: SocketAddr, snapshot: DatabaseSnapshot<real>)
    | NoReply

  function ReplyFor(leaderAddr: SocketAddr, p: Pending, operation: Op, result: Result): Reply {
    if operation.GetDatabase? then
      if result.DatabaseSnapshotResult? then ToNewcomer(operation.addr, result.snapshot) else NoReply
    else if operation.ReplaceDatabase? then NoReply
    else if p.clientAddr != leaderAddr then ToClient(p.clientAddr, p.requestId, result)
    else if operation.Charge? && result.ChargeResult? then
      ToStation(StationMsg(p.requestId, result.outcome.Ok?, if result.outcome.Ok? then None else Some(result.outcome.error)))
    else NoReply
  }

  /** `members` lists the cluster, in some order. */
  ghost predicate Lists(members: seq<(u64, SocketAddr)>, cluster: map<u64, SocketAddr>) {
    && |members| == |cluster|
    && (forall i :: i in cluster ==> (i, cluster[i]) in members)
    && forall m :: m in members ==> m.0 in cluster && cluster[m.0] == m.1
  }

  /** The links and the station after a reply. */
  ghost predicate Delivered(before: Links, after: Links, said: seq<StationMsg>, says: seq<StationMsg>,
                            leaderAddr: SocketAddr, cluster: map<u64, SocketAddr>, reply: Reply) {
    match reply
    case ToClient(addr, reqId, result) => after == Broadcast(before, {addr}, Response(reqId, result)) && says == said
    case ToStation(msg) => after == before && says == said + [msg]
    case ToNewcomer(addr, snapshot) =>
      && says == said
      && exists members :: Lists(members, cluster) && after == Broadcast(before, {addr}, ClusterView(members, leaderAddr, snapshot))
    case NoReply => after == before && says == said
  }

  class Leader {
    const id: u64
    const address: SocketAddr
    var currentOpId: u32
    var cluster: map<u64, SocketAddr>
    var operations: map<u32, Pending>
    var offlineQueue: seq<Op>
    var electionInProgress: bool

    constructor (id: u64, address: SocketAddr, currentOpId: u32, cluster: map<u64, SocketAddr>, offlineQueue: seq<Op>)
      ensures LogState() == LeaderLog(currentOpId, map[]) && Self() == Me(id, address, cluster)
      ensures this.offlineQueue == offlineQueue && !electionInProgress
    {
      this.id, this.address, this.currentOpId, this.cluster := id, address, currentOpId, cluster;
      this.offlineQueue, operations, electionInProgress := offlineQueue, map[], false;
    }

    function LogState(): LeaderLog
      reads this
    {
      LeaderLog(currentOpId, operations)
    }

    function Self(): Me
      reads this
    {
      Me(id, address, cluster)
    }

    // ---- replication ----

    /** A lone leader executes at once and, as it is, keeps its counter. */
    method HandleRequest(connection: Connection, db: Database, reqId: u32, op: Op, clientAddr: SocketAddr)
      requires id in cluster && DistinctAddresses(cluster)
      requires currentOpId + 1 < 0x1_0000_0000
      modifies this`currentOpId, this`operations, connection, db
      ensures var log := Accept(old(LogState()), op, clientAddr, reqId);
        if |cluster| == 1 then
          && LogState() == log && connection.links == old(connection.links)
          && db.commands == old(db.commands) + [Command(old(currentOpId), op)]
        else
          && LogState() == log.(currentOpId := old(currentOpId) + 1) && db.commands == old(db.commands)
          && connection.links == Broadcast(old(connection.links), AddressesOf(cluster, Others(Self())), Log(old(currentOpId), op))
      ensures operations == old(operations)[old(currentOpId) := Pending(op, clientAddr, reqId, 0)]
      ensures |cluster| > 1 ==>
        && currentOpId == old(currentOpId) + 1 && db.commands == old(db.commands)
        && (forall j :: j in cluster && j != id ==>
          cluster[j] in connection.links && connection.links[cluster[j]] ==
            (if cluster[j] in old(connection.links) then old(connection.links)[cluster[j]] else []) + [Log(old(currentOpId), op)])
        && (forall a :: (forall j :: j in cluster && j != id ==> cluster[j] != a) ==>
          (a in connection.links <==> a in old(connection.links)) &&
          (a in connection.links ==> connection.links[a] == old(connection.links)[a]))
    {
      operations := operations[currentOpId := Pending(op, clientAddr, reqId, 0)];
      if |cluster| == 1 {
        db.Send(Command(currentOpId, op));
        return;
      }
      connection.SendAll(Log(currentOpId, op), cluster, Others(Self()));
      currentOpId := currentOpId + 1;
    }

    method HandleAck(db: Database, opId: u32)
      requires |cluster| > 0
      modifies this`operations, db
      ensures var e := OnAck(old(LogState()), |cluster|, opId);
        LogState() == e.log && db.commands == old(db.commands) + e.commands
      ensures opId !in old(operations) ==> operations == old(operations) && db.commands == old(db.commands)
      ensures opId in old(operations) ==>
        var p := old(operations)[opId];
        && operations == old(operations)[opId := Pending(p.op, p.clientAddr, p.requestId, p.ackCount + 1)]
        && db.commands == old(db.commands) +
             if p.ackCount + 1 == |cluster| / 2 || |cluster| == 2 then [Command(opId, p.op)] else []
    {
      if opId !in operations {
        return;
      }
      var pending := operations[opId];
      pending := pending.(ackCount := pending.ackCount + 1);
      operations := operations[opId := pending];
      if pending.ackCount != RoundHalf((|cluster| as real - 1.0) / 2.0) && |cluster| - 1 != 1 {
        return;
      }
      db.Send(Command(opId, pending.op));
    }

    /** `ok` is false where the source's `expect` would panic. */
    method HandleOperationResult(connection: Connection, station: Station, opId: u32, operation: Op, result: Result)
      returns (ok: bool)
      modifies this`operations, connection, station
      ensures ok <==> opId == 0 || opId in old(operations)
      ensures !ok ==> operations == old(operations) && connection.links == old(connection.links) && station.sent == old(station.sent)
      ensures ok ==> operations == if opId == 0 then old(operations) else old(operations) - {opId}
      ensures ok ==>
        var p := if opId != 0 then old(operations)[opId] else Pending(operation, address, 0, 0);
        Delivered(old(connection.links), connection.links, old(station.sent), station.sent, address, cluster,
                  ReplyFor(address, p, operation, result))
      ensures ok && operation.GetDatabase? && result.DatabaseSnapshotResult? ==>
        && station.sent == old(station.sent)
        && exists members :: Lists(members, cluster) &&
             connection.links == Broadcast(old(connection.links), {operation.addr}, ClusterView(members, address, result.snapshot))
      ensures ok && !operation.GetDatabase? && !operation.ReplaceDatabase? ==>
        var client, reqId := if opId != 0 then old(operations)[opId].clientAddr else address, if opId != 0 then old(operations)[opId].requestId else 0;
        if client != address then
          connection.links == Broadcast(old(connection.links), {client}, Response(reqId, result)) && station.sent == old(station.sent)
        else
          && connection.links == old(connection.links)
          && station.sent == old(station.sent) +
               if operation.Charge? && result == ChargeResult(Outcome.Ok) then [StationMsg(reqId, true, None)]
               else if operation.Charge? && result.ChargeResult? then [StationMsg(reqId, false, Some(result.outcome.error))]
               else []
      ensures ok && (operation.ReplaceDatabase? || (operation.GetDatabase? && !result.DatabaseSnapshotResult?)) ==>
        connection.links == old(connection.links) && station.sent == old(station.sent)
    {
      var pending := Pending(operation, address, 0, 0);
      if opId != 0 {
        if opId !in operations {
          return false;
        }
        pending := operations[opId];
        operations := operations - {opId};
      }
      ok := true;
      if operation.GetDatabase? {
        if result.DatabaseSnapshotResult? {
          var members := Members();
          connection.Send(ClusterView(members, address, result.snapshot), operation.addr);
        }
      } else if operation.ReplaceDatabase? {
      } else if pending.clientAddr == address {
        if operation.Charge? && result.ChargeResult? {
          var allowed := result.outcome.Ok?;
          station.Send(StationMsg(pending.requestId, allowed, if allowed then None else Some(result.outcome.error)));
        }
      } else {
        connection.Send(Response(pending.requestId, result), pending.clientAddr);
      }
    }

    method Members() returns (members: seq<(u64, SocketAddr)>)
      ensures Lists(members, cluster)
    {
      members := [];
      var todo := cluster.Keys;
      while todo != {}
        invariant todo <= cluster.Keys
        invariant |members| + |todo| == |cluster|
        invariant forall i :: i in cluster && i !in todo ==> (i, cluster[i]) in members
        invariant forall m :: m in members ==> m.0 in cluster && cluster[m.0] == m.1
      {
        var i :| i in todo;
        members := members + [(i, cluster[i])];
        todo := todo - {i};
      }
    }

    // ---- membership and election ----

    method HandleConnectionLost(lostId: u64)
      modifies this`cluster
      ensures cluster == old(cluster) - {lostId}
    {
      cluster := cluster - {lostId};
    }

    method AnnounceCoordinator(connection: Connection) returns (change: RoleChange)
      requires DistinctAddresses(cluster)
      modifies connection
      ensures var v := Announce(Self(), true); change == v.change && connection.links == Transmit(old(connection.links), Self(), v)
    {
      TransmitOne(connection.links, Self(), Announce(Self(), true));
      connection.SendAll(Coordinator(id, address), cluster, Others(Self()));
      return NoChange;
    }

    method Elect(connection: Connection) returns (change: RoleChange)
      requires DistinctAddresses(cluster)
      modifies this`electionInProgress, connection
      ensures var v := StartElection(Self(), true, old(electionInProgress));
        electionInProgress == v.electing && change == v.change && connection.links == Transmit(old(connection.links), Self(), v)
    {
      TransmitOne(connection.links, Self(), StartElection(Self(), true, electionInProgress));
      if electionInProgress {
        TransmitNothing(connection.links, Self(), StartElection(Self(), true, true));
        return NoChange;
      }
      connection.SendAll(Election(id, address), cluster, Higher(Self()));
      if Higher(Self()) != {} {
        electionInProgress := true;
        return NoChange;
      }
      assert connection.links == old(connection.links) by {
        assert AddressesOf(cluster, {}) == {};
        NobodyToTell(old(connection.links), Election(id, address));
      }
      electionInProgress := false;
      change := AnnounceCoordinator(connection);
    }

    method HandleElection(connection: Connection, candidateId: u64, candidateAddr: SocketAddr) returns (change: RoleChange)
      requires DistinctAddresses(cluster)
      modifies this`electionInProgress, connection
      ensures var v := OnElection(Self(), true, old(electionInProgress), candidateId);
        && electionInProgress == v.electing && change == v.change
        && connection.links == Transmit(
             if id > candidateId then Broadcast(old(connection.links), {candidateAddr}, ElectionOk(id)) else old(connection.links), Self(), v)
      ensures id <= candidateId ==>
        connection.links == old(connection.links) && electionInProgress == old(electionInProgress) && change.NoChange?
    {
      if id > candidateId {
        connection.Send(ElectionOk(id), candidateAddr);
        change := Elect(connection);
      } else {
        TransmitNothing(connection.links, Self(), OnElection(Self(), true, electionInProgress, candidateId));
        change := NoChange;
      }
    }

    method HandleElectionOk()
      modifies this`electionInProgress
      ensures !electionInProgress
    {
      electionInProgress := false;
    }

    method HandleCoordinator(leaderId: u64, leaderAddr: SocketAddr) returns (change: RoleChange)
      modifies this`electionInProgress
      ensures !electionInProgress && change == if leaderId >= id then DemoteToReplica(leaderAddr) else NoChange
    {
      electionInProgress := false;
      if leaderId >= id {
        return DemoteToReplica(leaderAddr);
      }
      return NoChange;
    }

    method HandleElectionTimeout(connection: Connection, elapsed: bool) returns (change: RoleChange)
      requires DistinctAddresses(cluster)
      modifies this`electionInProgress, connection
      ensures var v := OnTimeout(Self(), true, old(electionInProgress), elapsed);
        electionInProgress == v.electing && change == v.change && connection.links == Transmit(old(connection.links), Self(), v)
      ensures !elapsed || !old(electionInProgress) ==>
        connection.links == old(connection.links) && electionInProgress == old(electionInProgress) && change.NoChange?
    {
      if !electionInProgress {
        TransmitNothing(connection.links, Self(), OnTimeout(Self(), true, false, elapsed));
        return NoChange;
      }
      if elapsed {
        electionInProgress := false;
        change := AnnounceCoordinator(connection);
      } else {
        TransmitNothing(connection.links, Self(), OnTimeout(Self(), true, true, elapsed));
        change := NoChange;
      }
    }
  }

  /** A client's request, as the leader gets it. */
  datatype Incoming = Incoming(reqId: u32, op: Op, clientAddr: SocketAddr)

  function PendingFor(request: Incoming): Pending {
    Pending(request.op, request.clientAddr, request.reqId, 0)
  }

  /** A link grew by the log entries of `requests`, numbered from `first`, in order and once each. */
  ghost predicate Logged(before: Links, after: Links, a: SocketAddr, requests: seq<Incoming>, first: nat)
    requires first + |requests| < 0x1_0000_0000
  {
    var link := if a in before then before[a] else [];
    && a in after && |after[a]| == |link| + |requests| && after[a][..|link|] == link
    && forall i :: 0 <= i < |requests| ==> after[a][|link| + i] == Log(first + i, requests[i].op)
  }

  lemma LoggedMore(before: Links, mid: Links, after: Links, a: SocketAddr, requests: seq<Incoming>, n: nat, first: nat)
    requires n < |requests| && first + |requests| < 0x1_0000_0000
    requires if n == 0 then (a in mid <==> a in before) && (a in mid ==> mid[a] == before[a]) else Logged(before, mid, a, requests[..n], first)
    requires a in after && after[a] == (if a in mid then mid[a] else []) + [Log(first + n, requests[n].op)]
    ensures Logged(before, after, a, requests[..n + 1], first)
  {
  }

  /** Every peer's link grew by the entries, and no other link changed. */
  ghost predicate AllLogged(before: Links, after: Links, cluster: map<u64, SocketAddr>, id: u64, requests: seq<Incoming>, first: nat)
    requires first + |requests| < 0x1_0000_0000
  {
    && (requests == [] ==> after == before)
    && (requests != [] ==> forall j :: j in cluster && j != id ==> Logged(before, after, cluster[j], requests, first))
    && (forall a :: (forall j :: j in cluster && j != id ==> cluster[j] != a) ==>
      (a in after <==> a in before) && (a in after ==> after[a] == before[a]))
  }

  lemma AllLoggedMore(before: Links, mid: Links, after: Links, cluster: map<u64, SocketAddr>, id: u64, requests: seq<Incoming>, n: nat, first: nat)
    requires n < |requests| && first + |requests| < 0x1_0000_0000 && AllLogged(before, mid, cluster, id, requests[..n], first)
    requires forall j :: j in cluster && j != id ==>
      cluster[j] in after && after[cluster[j]] == (if cluster[j] in mid then mid[cluster[j]] else []) + [Log(first + n, requests[n].op)]
    requires forall a :: (forall j :: j in cluster && j != id ==> cluster[j] != a) ==>
      (a in after <==> a in mid) && (a in after ==> after[a] == mid[a])
    ensures AllLogged(before, after, cluster, id, requests[..n + 1], first)
  {
    hide Logged;
    forall j | j in cluster && j != id ensures Logged(before, after, cluster[j], requests[..n + 1], first) {
      LoggedMore(before, mid, after, cluster[j], requests, n, first);
    }
  }

  method HandleNext(leader: Leader, connection: Connection, db: Database, request: Incoming)
    requires leader.id in leader.cluster && |leader.cluster| > 1 && DistinctAddresses(leader.cluster)
    requires leader.currentOpId + 1 < 0x1_0000_0000
    modifies leader`currentOpId, leader`operations, connection, db
    ensures leader.currentOpId == old(leader.currentOpId) + 1 && db.commands == old(db.commands)
    ensures leader.operations == old(leader.operations)[old(leader.currentOpId) := PendingFor(request)]
    ensures forall j :: j in leader.cluster && j != leader.id ==>
      var a := leader.cluster[j];
      a in connection.links && connection.links[a] ==
        (if a in old(connection.links) then old(connection.links)[a] else []) + [Log(old(leader.currentOpId), request.op)]
    ensures forall a :: (forall j :: j in leader.cluster && j != leader.id ==> leader.cluster[j] != a) ==>
      (a in connection.links <==> a in old(connection.links)) &&
      (a in connection.links ==> connection.links[a] == old(connection.links)[a])
  {
    hide Broadcast, AddressesOf, Others, Accept;
    leader.HandleRequest(connection, db, request.reqId, request.op, request.clientAddr);
  }

  /**
   The leader of a cluster with peers takes any number of requests: every peer's link is then
   what it was, followed by the entries in order under consecutive ids, and nobody else's
   changed. The entries are pending, nothing is executed yet.
   */
  method HandleRequests(leader: Leader, connection: Connection, db: Database, requests: seq<Incoming>)
    requires leader.id in leader.cluster && |leader.cluster| > 1 && DistinctAddresses(leader.cluster)
    requires requests != [] && leader.currentOpId + |requests| < 0x1_0000_0000
    modifies leader`currentOpId, leader`operations, connection, db
    ensures leader.currentOpId == old(leader.currentOpId) + |requests| && db.commands == old(db.commands)
    ensures forall k: u32 :: old(leader.currentOpId) <= k < old(leader.currentOpId) + |requests| ==>
      k in leader.operations && leader.operations[k] == PendingFor(requests[k - old(leader.currentOpId)])
    ensures forall j :: j in leader.cluster && j != leader.id ==>
      Logged(old(connection.links), connection.links, leader.cluster[j], requests, old(leader.currentOpId))
    ensures forall a :: (forall j :: j in leader.cluster && j != leader.id ==> leader.cluster[j] != a) ==>
      (a in connection.links <==> a in old(connection.links)) &&
      (a in connection.links ==> connection.links[a] == old(connection.links)[a])
  {
    hide Broadcast, Logged, AllLogged, AllPending, AddressesOf, Others, Accept, PendingFor;
    ghost var first, links, cluster := leader.currentOpId, connection.links, leader.cluster;
    NothingLogged(links, cluster, leader.id, leader.operations, first);
    assert requests[..0] == [];
    for n := 0 to |requests|
      invariant leader.currentOpId == first + n && db.commands == old(db.commands) && leader.cluster == cluster
      invariant AllPending(leader.operations, requests[..n], first)
      invariant AllLogged(links, connection.links, cluster, leader.id, requests[..n], first)
    {
      ghost var mid, operations := connection.links, leader.operations;
      HandleNext(leader, connection, db, requests[n]);
      assert leader.cluster == cluster;
      assert forall j :: j in cluster && j != leader.id ==> cluster[j] in connection.links && connection.links[cluster[j]] == (if cluster[j] in mid then mid[cluster[j]] else []) + [Log(first + n, requests[n].op)];
      OneMorePending(operations, requests, n, first);
      AllLoggedMore(links, mid, connection.links, cluster, leader.id, requests, n, first);
    }
    assert requests[..|requests|] == requests;
    LoggedAll(links, connection.links, cluster, leader.id, requests, first);
    PendingAll(leader.operations, requests, first);
  }

  lemma NothingLogged(links: Links, cluster: map<u64, SocketAddr>, id: u64, operations: map<u32, Pending>, first: nat)
    requires first < 0x1_0000_0000
    ensures AllLogged(links, links, cluster, id, [], first) && AllPending(operations, [], first)
  {
  }

  ghost predicate AllPending(operations: map<u32, Pending>, requests: seq<Incoming>, first: nat) {
    forall k: u32 :: first <= k < first + |requests| ==> k in operations && operations[k] == PendingFor(requests[k - first])
  }

  lemma OneMorePending(operations: map<u32, Pending>, requests: seq<Incoming>, n: nat, first: nat)
    requires n < |requests| && first + |requests| < 0x1_0000_0000 && AllPending(operations, requests[..n], first)
    ensures AllPending(operations[first + n := PendingFor(requests[n])], requests[..n + 1], first)
  {
    hide PendingFor;
  }

  lemma PendingAll(operations: map<u32, Pending>, requests: seq<Incoming>, first: nat)
    requires AllPending(operations, requests, first)
    ensures forall k: u32 :: first <= k < first + |requests| ==> k in operations && operations[k] == PendingFor(requests[k - first])
  {
  }

  lemma LoggedAll(before: Links, after: Links, cluster: map<u64, SocketAddr>, id: u64, requests: seq<Incoming>, first: nat)
    requires first + |requests| < 0x1_0000_0000 && requests != [] && AllLogged(before, after, cluster, id, requests, first)
    ensures forall j :: j in cluster && j != id ==> Logged(before, after, cluster[j], requests, first)
    ensures forall a :: (forall j :: j in cluster && j != id ==> cluster[j] != a) ==>
      (a in after <==> a in before) && (a in after ==> after[a] == before[a])
  {
    hide Logged;
  }
}
