/**
 The runtime that hands election traffic to a node's role object and swaps that object when
 the role changes. Each of its handlers is the step the election's state machine takes at
 that node.
 */
module Runtimes {
  import opened Protocol
  import opened Nodes
  import opened Leaders
  import opened Replicas
  import Bully

  /** The largest key, or 1 when there is none. */
  ghost predicate LargestOrOne(keys: set<u32>, k: u32) {
    if keys == {} then k == 1 else k in keys && forall j :: j in keys ==> j <= k
  }

  method Largest(keys: set<u32>) returns (k: u32)
    ensures LargestOrOne(keys, k)
  {
    if keys == {} {
      return 1;
    }
    k :| k in keys;
    var todo := keys - {k};
    while todo != {}
      invariant k in keys && todo <= keys
      invariant forall j :: j in keys && j !in todo ==> j <= k
    {
      var j :| j in todo;
      todo := todo - {j};
      if j > k {
        k := j;
      }
    }
  }

  predicate IsElectionMsg(msg: Msg) {
    msg.Election? || msg.ElectionOk? || msg.Coordinator?
  }

  function NoteOf(msg: Msg): Bully.Note
    requires IsElectionMsg(msg)
  {
    match msg
    case Election(candidateId, _) => Bully.AnElection(candidateId)
    case ElectionOk(_) => Bully.AnOk
    case Coordinator(leaderId, _) => Bully.ACoordinator(leaderId)
  }

  /** The links after the answer to an Election, which only a higher node gives. */
  function Answered(links: Links, id: u64, msg: Msg): Links {
    if msg.Election? && id > msg.candidateId then Broadcast(links, {msg.candidateAddr}, ElectionOk(id)) else links
  }

  class NodeRuntime {
    var leader: Leader?
    var replica: Replica?

    /** Exactly one role object is there. */
    ghost predicate Valid()
      reads this
    {
      (leader == null) != (replica == null)
    }

    constructor (replica: Replica)
      ensures Valid() && this.replica == replica && leader == null
    {
      this.replica, leader := replica, null;
    }

    function Self(): Me
      requires Valid()
      reads this, leader, replica
    {
      if leader != null then leader.Self() else replica.Self()
    }

    /**
     A promoted replica keeps who it is, whom it knows and what it queued, numbers on from the
     last entry it holds and starts with no pending operation; a demoted leader keeps the same
     and points to the new leader; the other two combinations change nothing.
     */
    method OnRoleChange(change: RoleChange)
      requires Valid()
      modifies this
      ensures Valid() && Self() == old(Self())
      ensures change.NoChange? ==> leader == old(leader) && replica == old(replica)
      ensures change.PromoteToLeader? && old(leader) != null ==> leader == old(leader)
      ensures change.PromoteToLeader? && old(leader) == null ==>
        && leader != null && !leader.electionInProgress && leader.operations == map[]
        && leader.offlineQueue == old(replica.offlineQueue)
        && LargestOrOne(old(replica).operations.Keys, leader.currentOpId)
      ensures change.DemoteToReplica? && old(replica) != null ==> replica == old(replica)
      ensures change.DemoteToReplica? && old(replica) == null ==>
        && replica != null && !replica.electionInProgress && replica.operations == map[]
        && replica.leaderAddr == change.newLeaderAddr && replica.offlineQueue == old(leader.offlineQueue)
    {
      match change {
        case NoChange =>
        case PromoteToLeader =>
          if replica != null {
            var k := Largest(replica.operations.Keys);
            leader := new Leader(replica.id, replica.address, k, replica.cluster, replica.offlineQueue);
            replica := null;
          }
        case DemoteToReplica(newLeaderAddr) =>
          if leader != null {
            replica := new Replica(leader.id, leader.address, newLeaderAddr, leader.cluster, leader.offlineQueue);
            leader := null;
          }
      }
    }

    /** The node as the election sees it; `addresses` says which address an id stands for. */
    ghost predicate Mirrors(n: Bully.Node, addresses: map<u64, SocketAddr>)
      reads this, leader, replica
    {
      && Valid() && Self() == n.me && n.isLeader == (leader != null)
      && (leader != null ==> n.electing == leader.electionInProgress)
      && (replica != null ==>
            n.electing == replica.electionInProgress && n.leader in addresses && addresses[n.leader] == replica.leaderAddr)
    }

    /**
     One election message, handled by the role in charge, and the change of role that follows:
     together they are the step `OnNote` of the election, and `ok` is false where a replica panics.
     */
    method HandleElectionMsg(connection: Connection, msg: Msg, ghost s: Bully.Cluster, ghost addresses: map<u64, SocketAddr>)
      returns (ok: bool)
      requires IsElectionMsg(msg) && Valid() && DistinctAddresses(Self().cluster)
      requires s.ok && Self().id in s.nodes && Mirrors(s.nodes[Self().id], addresses)
      requires msg.Coordinator? ==> msg.leaderId in addresses && addresses[msg.leaderId] == msg.leaderAddr
      modifies this, leader, replica, connection
      ensures Valid() && Self() == old(Self())
      ensures ok == Bully.OnNote(s, Self().id, NoteOf(msg)).ok
      ensures ok ==> Mirrors(Bully.OnNote(s, Self().id, NoteOf(msg)).nodes[Self().id], addresses)
      ensures connection.links == Transmit(Answered(old(connection.links), Self().id, msg), Self(), Bully.VerdictOn(s.nodes[Self().id], NoteOf(msg)))
    {
      ghost var n := s.nodes[Self().id];
      ghost var v := Bully.VerdictOn(n, NoteOf(msg));
      var change := NoChange;
      ok := true;
      if msg.Election? {
        if leader != null {
          change := leader.HandleElection(connection, msg.candidateId, msg.candidateAddr);
        } else {
          change := replica.HandleElection(connection, msg.candidateId, msg.candidateAddr);
        }
      } else if msg.ElectionOk? {
        TransmitNothing(connection.links, Self(), v);
        if leader != null {
          leader.HandleElectionOk();
        } else {
          replica.HandleElectionOk();
        }
      } else {
        TransmitNothing(connection.links, Self(), v);
        if leader != null {
          change := leader.HandleCoordinator(msg.leaderId, msg.leaderAddr);
        } else {
          ok, change := replica.HandleCoordinator(msg.leaderId, msg.leaderAddr);
        }
      }
      OnRoleChange(change);
    }

    /** The election timer: the step `Timeout`, once its two seconds are over, and the silent step `Tick` before. */
    method HandleElectionTimeout(connection: Connection, elapsed: bool, ghost s: Bully.Cluster, ghost addresses: map<u64, SocketAddr>)
      requires Valid() && DistinctAddresses(Self().cluster)
      requires Self().id in s.nodes && Mirrors(s.nodes[Self().id], addresses)
      modifies this, leader, replica, connection
      ensures Valid() && Self() == old(Self())
      ensures var n := s.nodes[Self().id];
        var v := OnTimeout(n.me, n.isLeader, n.electing, elapsed);
        && Mirrors(Bully.Carry(s, Self().id, v).nodes[Self().id], addresses)
        && connection.links == Transmit(old(connection.links), Self(), v)
      ensures !elapsed ==>
        && leader == old(leader) && replica == old(replica) && connection.links == old(connection.links)
        && Mirrors(s.nodes[Self().id], addresses)
    {
      var change;
      if leader != null {
        change := leader.HandleElectionTimeout(connection, elapsed);
      } else {
        change := replica.HandleElectionTimeout(connection, elapsed);
      }
      OnRoleChange(change);
    }

    /** A peer is found dead: the step `Lose`; only a replica that lost its leader starts an election. */
    method HandleConnectionLost(connection: Connection, lostId: u64, lostAddress: SocketAddr,
                                ghost s: Bully.Cluster, ghost addresses: map<u64, SocketAddr>)
      requires Valid() && DistinctAddresses(Self().cluster)
      requires Self().id in s.nodes && lostId !in s.nodes && Mirrors(s.nodes[Self().id], addresses)
      requires lostId in Self().cluster ==> Self().cluster[lostId] == lostAddress
      requires DistinctAddresses(addresses) && lostId in addresses && addresses[lostId] == lostAddress
      modifies this, leader, replica, connection
      ensures Valid() && Self() == old(Self()).(cluster := old(Self()).cluster - {lostId})
      ensures Mirrors(Bully.Next(s, Bully.Lose(Self().id, lostId)).nodes[Self().id], addresses)
      ensures connection.links == Transmit(old(connection.links), Self(), Bully.VerdictOnLoss(s.nodes[Self().id], lostId))
    {
      if leader != null {
        TransmitNothing(connection.links, Self().(cluster := Self().cluster - {lostId}), NOTHING_TO_DO);
        leader.HandleConnectionLost(lostId);
        OnRoleChange(NoChange);
      } else {
        var change := replica.HandleConnectionLost(connection, lostId, lostAddress);
        OnRoleChange(change);
      }
    }
  }
}
