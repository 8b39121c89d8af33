/**
 What a node's two roles share: its network, its database, its station, and the rules of
 the Bully election.
 */
module Nodes {
  import opened Wrappers
  import opened Protocol
  import opened Messages

  type Msg = Message<real>

  type Links = map<SocketAddr, seq<Msg>>

  /** A command to the database: `DatabaseCmd::Execute`. */
  datatype Command = Command(opId: u32, op: Op)

  /** A verdict on a pump's charge: `NodeToStationMsg::ChargeResult`. */
  datatype StationMsg = StationMsg(requestId: u32, allowed: bool, error: Option<VerifyError>)

  datatype RoleChange = NoChange | PromoteToLeader | DemoteToReplica(newLeaderAddr: SocketAddr)

  /** The links after sending `msg` to every address in `to`. */
  function Broadcast(links: Links, to: set<SocketAddr>, msg: Msg): Links {
    map a | a in links.Keys + to :: if a in to then Sent(links, a) + [msg] else links[a]
  }

  /** What was sent to an address so far. */
  function Sent(links: Links, a: SocketAddr): seq<Msg> {
    if a in links then links[a] else []
  }

  /** Reliable FIFO links, one per destination. */
  class Connection {
    var links: Links

    constructor ()
      ensures links == map[]
    {
      links := map[];
    }

    method Send(msg: Msg, addr: SocketAddr)
      modifies this
      ensures links == Broadcast(old(links), {addr}, msg)
      ensures addr in links && links[addr] == (if addr in old(links) then old(links)[addr] else []) + [msg]
      ensures forall a :: a != addr ==> (a in links <==> a in old(links)) && (a in links ==> links[a] == old(links)[a])
    {
      links := links[addr := Sent(links, addr) + [msg]];
    }

    /** Send to the members in `ids`, one after the other: each link to one of them grows by the message, at its end. */
    method SendAll(msg: Msg, cluster: map<u64, SocketAddr>, ids: set<u64>)
      requires ids <= cluster.Keys && DistinctAddresses(cluster)
      modifies this
      ensures links == Broadcast(old(links), AddressesOf(cluster, ids), msg)
      ensures forall j :: j in ids ==>
        cluster[j] in links && links[cluster[j]] == (if cluster[j] in old(links) then old(links)[cluster[j]] else []) + [msg]
      ensures forall a :: (forall j :: j in ids ==> cluster[j] != a) ==>
        (a in links <==> a in old(links)) && (a in links ==> links[a] == old(links)[a])
    {
      hide Broadcast, AddressesOf;
      var todo := ids;
      assert ids - todo == {};
      NoAddresses(cluster);
      NobodyToTell(links, msg);
      while todo != {}
        invariant todo <= ids
        invariant links == Broadcast(old(links), AddressesOf(cluster, ids - todo), msg)
      {
        var j :| j in todo;
        ghost var told := ids - todo;
        BroadcastOne(old(links), cluster, told, j, msg);
        Send(msg, cluster[j]);
        todo := todo - {j};
        assert ids - todo == told + {j};
      }
      assert ids - todo == ids;
      BroadcastReaches(old(links), cluster, ids, msg);
    }
  }

  class Database {
    var commands: seq<Command>

    constructor ()
      ensures commands == []
    {
      commands := [];
    }

    method Send(cmd: Command)
      modifies this
      ensures commands == old(commands) + [cmd]
    {
      commands := commands + [cmd];
    }
  }

  class Station {
    var sent: seq<StationMsg>

    constructor ()
      ensures sent == []
    {
      sent := [];
    }

    method Send(msg: StationMsg)
      modifies this
      ensures sent == old(sent) + [msg]
    {
      sent := sent + [msg];
    }
  }

  /** Ids are hashes of addresses, so members have different addresses. */
  ghost predicate DistinctAddresses(cluster: map<u64, SocketAddr>) {
    forall i, j :: i in cluster && j in cluster && i != j ==> cluster[i] != cluster[j]
  }

  function AddressesOf(cluster: map<u64, SocketAddr>, ids: set<u64>): set<SocketAddr> {
    set j | j in ids && j in cluster :: cluster[j]
  }

  lemma NoAddresses(cluster: map<u64, SocketAddr>)
    ensures AddressesOf(cluster, {}) == {}
  {
  }

  lemma BroadcastOne(links: Links, cluster: map<u64, SocketAddr>, ids: set<u64>, j: u64, msg: Msg)
    requires j in cluster && j !in ids && ids <= cluster.Keys && DistinctAddresses(cluster)
    ensures Broadcast(Broadcast(links, AddressesOf(cluster, ids), msg), {cluster[j]}, msg) ==
            Broadcast(links, AddressesOf(cluster, ids + {j}), msg)
  {
    assert cluster[j] !in AddressesOf(cluster, ids);
    assert AddressesOf(cluster, ids + {j}) == AddressesOf(cluster, ids) + {cluster[j]};
    var l, m := Broadcast(Broadcast(links, AddressesOf(cluster, ids), msg), {cluster[j]}, msg), Broadcast(links, AddressesOf(cluster, ids + {j}), msg);
    assert l.Keys == m.Keys;
  }

  lemma BroadcastReaches(links: Links, cluster: map<u64, SocketAddr>, ids: set<u64>, msg: Msg)
    requires ids <= cluster.Keys
    ensures var links' := Broadcast(links, AddressesOf(cluster, ids), msg);
      && (forall j :: j in ids ==>
        cluster[j] in links' && links'[cluster[j]] == (if cluster[j] in links then links[cluster[j]] else []) + [msg])
      && (forall a :: (forall j :: j in ids ==> cluster[j] != a) ==>
        (a in links' <==> a in links) && (a in links' ==> links'[a] == links[a]))
  {
  }

  lemma NobodyToTell(links: Links, msg: Msg)
    ensures Broadcast(links, {}, msg) == links
  {
  }

  // ---- the Bully election ----

  /** Who a node is, and whom it knows. */
  datatype Me = Me(id: u64, address: SocketAddr, cluster: map<u64, SocketAddr>)

  function Higher(me: Me): set<u64> {
    set j | j in me.cluster && j > me.id
  }

  function Others(me: Me): set<u64> {
    set j | j in me.cluster && j != me.id
  }

  /**
   What an election handler decides: whether an election is in progress afterwards, the
   members it sends Election and Coordinator to, and the change of role.
   */
  datatype Verdict = Verdict(electing: bool, electionTo: set<u64>, coordinatorTo: set<u64>, change: RoleChange)

  const NOTHING_TO_DO := Verdict(false, {}, {}, NoChange)

  /** A node announces itself; a replica thereby promotes itself, a leader only reaffirms. */
  function Announce(me: Me, isLeader: bool): Verdict {
    Verdict(false, {}, Others(me), if isLeader then NoChange else PromoteToLeader)
  }

  function StartElection(me: Me, isLeader: bool, electing: bool): Verdict {
    if electing then NOTHING_TO_DO.(electing := true)
    else if Higher(me) != {} then Verdict(true, Higher(me), {}, NoChange)
    else Announce(me, isLeader)
  }

  /** On Election from `candidate`; a higher node also answers ElectionOk. */
  function OnElection(me: Me, isLeader: bool, electing: bool, candidate: u64): Verdict {
    if me.id > candidate then StartElection(me, isLeader, electing) else NOTHING_TO_DO.(electing := electing)
  }

  /** The election timer; `elapsed` says whether its two seconds are over. */
  function OnTimeout(me: Me, isLeader: bool, electing: bool, elapsed: bool): Verdict {
    if electing && elapsed then Announce(me, isLeader) else NOTHING_TO_DO.(electing := electing)
  }

  /** The links after a handler sent what its verdict says. */
  function Transmit(links: Links, me: Me, v: Verdict): Links {
    Broadcast(
      Broadcast(links, AddressesOf(me.cluster, v.electionTo), Election(me.id, me.address)),
      AddressesOf(me.cluster, v.coordinatorTo),
      Coordinator(me.id, me.address))
  }

  lemma TransmitNothing(links: Links, me: Me, v: Verdict)
    requires v.electionTo == {} && v.coordinatorTo == {}
    ensures Transmit(links, me, v) == links
  {
    assert AddressesOf(me.cluster, {}) == {};
    NobodyToTell(links, Election(me.id, me.address));
    NobodyToTell(links, Coordinator(me.id, me.address));
  }

  lemma TransmitOne(links: Links, me: Me, v: Verdict)
    ensures v.electionTo == {} ==>
      Transmit(links, me, v) == Broadcast(links, AddressesOf(me.cluster, v.coordinatorTo), Coordinator(me.id, me.address))
    ensures v.coordinatorTo == {} ==>
      Transmit(links, me, v) == Broadcast(links, AddressesOf(me.cluster, v.electionTo), Election(me.id, me.address))
  {
    assert AddressesOf(me.cluster, {}) == {};
    NobodyToTell(links, Election(me.id, me.address));
    NobodyToTell(Broadcast(links, AddressesOf(me.cluster, v.electionTo), Election(me.id, me.address)), Coordinator(me.id, me.address));
  }

  // ---- the rules of the election, member by member ----

  /**
   Starting an election: whoever waits already does nothing; otherwise every higher member gets an
   Election and the node waits, or, when there is none, every other member gets a Coordinator and
   a replica becomes the leader.
   */
  lemma StartRules(me: Me, isLeader: bool, electing: bool, j: u64)
    ensures var v, above := StartElection(me, isLeader, electing), exists k :: k in me.cluster && k > me.id;
      && (j in v.electionTo <==> !electing && j in me.cluster && j > me.id)
      && (j in v.coordinatorTo <==> !electing && !above && j in me.cluster && j != me.id)
      && (v.electing <==> electing || above)
      && v.change == if !electing && !above && !isLeader then PromoteToLeader else NoChange
  {
    if electing || exists k :: k in me.cluster && k > me.id {
      assert !electing ==> Higher(me) != {} by {
        if !electing {
          var k :| k in me.cluster && k > me.id;
          assert k in Higher(me);
        }
      }
    } else {
      assert Higher(me) == {};
    }
  }

  /** An Election from a node not below leaves everything as it was; one from a lower node starts an election. */
  lemma ElectionRules(me: Me, isLeader: bool, electing: bool, candidate: u64)
    ensures var v := OnElection(me, isLeader, electing, candidate);
      && (me.id <= candidate ==> v == Verdict(electing, {}, {}, NoChange))
      && (me.id > candidate ==> v == StartElection(me, isLeader, electing))
  {
  }

  /** Only a node that waits, and only when its time is over, announces itself. */
  lemma TimeoutRules(me: Me, isLeader: bool, electing: bool, elapsed: bool, j: u64)
    ensures var v := OnTimeout(me, isLeader, electing, elapsed);
      && v.electionTo == {}
      && (j in v.coordinatorTo <==> electing && elapsed && j in me.cluster && j != me.id)
      && (v.electing <==> electing && !elapsed)
      && v.change == if electing && elapsed && !isLeader then PromoteToLeader else NoChange
  {
  }

  /** What a member finds on its link after a verdict: what was there, then its Election, then its Coordinator. */
  lemma TransmitAt(links: Links, me: Me, v: Verdict, j: u64)
    requires DistinctAddresses(me.cluster) && j in me.cluster
    ensures var a, links' := me.cluster[j], Transmit(links, me, v);
      (if a in links' then links'[a] else []) == (if a in links then links[a] else [])
        + (if j in v.electionTo then [Election(me.id, me.address)] else [])
        + (if j in v.coordinatorTo then [Coordinator(me.id, me.address)] else [])
    ensures forall a :: (forall k :: k in me.cluster ==> me.cluster[k] != a) ==>
      (a in Transmit(links, me, v) <==> a in links) && (a in links ==> Transmit(links, me, v)[a] == links[a])
  {
    var a := me.cluster[j];
    assert a in AddressesOf(me.cluster, v.electionTo) <==> j in v.electionTo;
    assert a in AddressesOf(me.cluster, v.coordinatorTo) <==> j in v.coordinatorTo;
  }
}
