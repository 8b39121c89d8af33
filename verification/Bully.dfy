/**
 The Bully election among live nodes. A step is the delivery of any message under way, a
 timer, which may have run out or not, the discovery that a node is dead, or the start of an election; messages to dead
 nodes are lost.
 */
module Bully {
  import opened Protocol
  import opened Nodes

  datatype Note = AnElection(candidate: u64) | AnOk | ACoordinator(leader: u64)

  datatype Envelope = Envelope(to: u64, note: Note)

  /** A node in either role; `leader` is the leader a replica points to. */
  datatype Node = Node(me: Me, isLeader: bool, leader: u64, electing: bool)

  /** `ok` turns false where a replica would panic. */
  datatype Cluster = Cluster(nodes: map<u64, Node>, mail: seq<Envelope>, ok: bool)

  datatype Label =
    | Deliver(i: nat)
    | Timeout(p: u64)
    | Tick(p: u64)
    | Begin(p: u64)
    | Lose(p: u64, dead: u64)

  /** No live node is above `p`. */
  ghost predicate Highest(s: Cluster, p: u64) {
    p in s.nodes && forall q :: q in s.nodes ==> q <= p
  }

  /**
   The two seconds run out only at a node with no higher live node: below it, ElectionOk comes
   first. The timer itself ticks at every node, at any time.
   */
  ghost predicate Enabled(s: Cluster, l: Label) {
    match l
    case Deliver(i) => i < |s.mail| && s.mail[i].to in s.nodes
    case Timeout(p) => Highest(s, p) && s.nodes[p].electing
    case Tick(p) => p in s.nodes
    case Begin(p) => p in s.nodes
    case Lose(p, dead) => p in s.nodes && dead !in s.nodes
  }

  /** One envelope to each member of `to`, in some order. */
  ghost function Envelopes(to: set<u64>, note: Note): seq<Envelope> {
    if to == {} then []
    else
      var p :| p in to;
      [Envelope(p, note)] + Envelopes(to - {p}, note)
  }

  /** Carry out a verdict at node `p`. */
  ghost function Carry(s: Cluster, p: u64, v: Verdict): Cluster
    requires p in s.nodes
  {
    var n := s.nodes[p];
    s.(nodes := s.nodes[p := n.(electing := v.electing, isLeader := n.isLeader || v.change.PromoteToLeader?)],
       mail := s.mail + Envelopes(v.electionTo * s.nodes.Keys, AnElection(p)) + Envelopes(v.coordinatorTo * s.nodes.Keys, ACoordinator(p)))
  }

  function Without(mail: seq<Envelope>, i: nat): seq<Envelope>
    requires i < |mail|
  {
    mail[..i] + mail[i + 1..]
  }

  /** What the handler of `note` decides at node `n`. */
  function VerdictOn(n: Node, note: Note): Verdict {
    if note.AnElection? then OnElection(n.me, n.isLeader, n.electing, note.candidate) else NOTHING_TO_DO
  }

  /** What a node decides when it finds `dead` gone. */
  function VerdictOnLoss(n: Node, dead: u64): Verdict {
    if !n.isLeader && n.leader == dead then StartElection(n.me.(cluster := n.me.cluster - {dead}), false, n.electing)
    else NOTHING_TO_DO.(electing := n.electing)
  }

  ghost function OnNote(s: Cluster, p: u64, note: Note): Cluster
    requires p in s.nodes
  {
    var n := s.nodes[p];
    match note
    case AnElection(c) =>
      var s1 := if n.me.id > c && c in s.nodes then s.(mail := s.mail + [Envelope(c, AnOk)]) else s;
      Carry(s1, p, VerdictOn(n, note))
    case AnOk => s.(nodes := s.nodes[p := n.(electing := false)])
    case ACoordinator(l) =>
      if n.isLeader then
        s.(nodes := s.nodes[p := if l >= n.me.id then n.(electing := false, isLeader := false, leader := l) else n.(electing := false)])
      else if l == n.me.id then s.(nodes := s.nodes[p := n.(electing := false, isLeader := true)])
      else if l < n.me.id then s.(ok := false)
      else s.(nodes := s.nodes[p := n.(electing := false, leader := l)])
  }

  ghost function Next(s: Cluster, l: Label): Cluster
    requires Enabled(s, l)
  {
    match l
    case Deliver(i) => OnNote(s.(mail := Without(s.mail, i)), s.mail[i].to, s.mail[i].note)
    case Timeout(p) => Carry(s, p, OnTimeout(s.nodes[p].me, s.nodes[p].isLeader, true, true))
    case Tick(p) => Carry(s, p, OnTimeout(s.nodes[p].me, s.nodes[p].isLeader, s.nodes[p].electing, false))
    case Begin(p) => Carry(s, p, StartElection(s.nodes[p].me, s.nodes[p].isLeader, s.nodes[p].electing))
    case Lose(p, dead) =>
      var n := s.nodes[p];
      var n' := n.(me := n.me.(cluster := n.me.cluster - {dead}));
      var s1 := s.(nodes := s.nodes[p := n']);
      if !n.isLeader && n.leader == dead then Carry(s1, p, VerdictOnLoss(n, dead)) else s1
  }

  // ---- what every run keeps ----

  /** Every node knows itself and every live node, and perhaps dead ones. */
  ghost predicate Views(s: Cluster) {
    forall p :: p in s.nodes ==> s.nodes[p].me.id == p && s.nodes.Keys <= s.nodes[p].me.cluster.Keys
  }

  /** Every Coordinator names the highest live node `m`, which never gets one, nor an ElectionOk. */
  ghost predicate MailOk(s: Cluster, m: u64) {
    forall e :: e in s.mail ==>
      && e.to in s.nodes
      && (e.note.ACoordinator? ==> e.note.leader == m && e.to != m)
      && (e.note.AnOk? ==> e.to != m)
      && (e.note.AnElection? ==> e.note.candidate in s.nodes && e.note.candidate < e.to)
  }

  /** The leadership of `m` is known, or on its way, to every other node. */
  ghost predicate Settled(s: Cluster, m: u64) {
    && m in s.nodes && s.nodes[m].isLeader
    && forall p :: p in s.nodes && p != m ==>
      Envelope(p, ACoordinator(m)) in s.mail || (!s.nodes[p].isLeader && s.nodes[p].leader == m)
  }

  ghost predicate AskedAbove(s: Cluster, m: u64) {
    exists e :: e in s.mail && e.to == m && e.note.AnElection?
  }

  /** An election has reached, or will reach, the highest node. */
  ghost predicate Underway(s: Cluster, m: u64) {
    m in s.nodes && (Settled(s, m) || AskedAbove(s, m) || s.nodes[m].electing)
  }

  /** A node that waits for an answer has its Election under way to `m`, or the answer under way to it. */
  ghost predicate Waiting(s: Cluster, m: u64) {
    forall p :: p in s.nodes && p != m && s.nodes[p].electing ==>
      Envelope(m, AnElection(p)) in s.mail || Envelope(p, AnOk) in s.mail
  }

  ghost predicate Sound(s: Cluster, m: u64) {
    && s.ok && Highest(s, m) && Views(s) && MailOk(s, m) && Waiting(s, m)
    && ((exists p :: p in s.nodes && s.nodes[p].electing) ==> Underway(s, m))
  }

  lemma {:induction false} EnvelopesAre(to: set<u64>, note: Note)
    ensures forall e :: e in Envelopes(to, note) <==> e.to in to && e.note == note
    decreases |to|
  {
    if to != {} {
      var p :| p in to && Envelopes(to, note) == [Envelope(p, note)] + Envelopes(to - {p}, note);
      EnvelopesAre(to - {p}, note);
    }
  }

  lemma CarryMail(s: Cluster, p: u64, v: Verdict)
    requires p in s.nodes
    ensures forall e :: e in Carry(s, p, v).mail <==>
      || e in s.mail
      || (e.to in v.electionTo && e.to in s.nodes && e.note == AnElection(p))
      || (e.to in v.coordinatorTo && e.to in s.nodes && e.note == ACoordinator(p))
  {
    EnvelopesAre(v.electionTo * s.nodes.Keys, AnElection(p));
    EnvelopesAre(v.coordinatorTo * s.nodes.Keys, ACoordinator(p));
  }

  // ---- taking an envelope out ----

  lemma TakenOut(mail: seq<Envelope>, i: nat)
    requires i < |mail|
    ensures forall e :: e in mail ==> e == mail[i] || e in Without(mail, i)
    ensures forall e :: e in Without(mail, i) ==> e in mail
  {
  }

  /** A state like `s` but for a node that heard the leader named, and for mail it no longer needs. */
  lemma HeardLeader(s: Cluster, m: u64, i: nat)
    requires Sound(s, m) && i < |s.mail| && s.mail[i].note.ACoordinator?
    ensures Sound(OnNote(s.(mail := Without(s.mail, i)), s.mail[i].to, s.mail[i].note), m)
    ensures Underway(s, m) ==> Underway(OnNote(s.(mail := Without(s.mail, i)), s.mail[i].to, s.mail[i].note), m)
  {
    hide Underway, Settled, AskedAbove, Without, Views, MailOk, Waiting, OnNote;
    TakenOut(s.mail, i);
    HearsLeader(s, m, i);
    var e := s.mail[i];
    var s' := OnNote(s.(mail := Without(s.mail, i)), e.to, e.note);
    HeardStays(s, s', m, e);
    HeardSound(s, s', m, e);
    assert (exists q :: q in s'.nodes && s'.nodes[q].electing) ==> exists q :: q in s.nodes && s.nodes[q].electing;
  }

  /** The node that hears the leader named follows it and waits no more; the rest stays. */
  lemma HearsLeader(s: Cluster, m: u64, i: nat)
    requires s.ok && Highest(s, m) && Views(s) && MailOk(s, m) && i < |s.mail| && s.mail[i].note.ACoordinator?
    ensures var e := s.mail[i];
      && e in s.mail && e.to in s.nodes && e.to != m
      && var s' := OnNote(s.(mail := Without(s.mail, i)), e.to, e.note);
      && s'.ok && s'.mail == Without(s.mail, i) && s'.nodes.Keys == s.nodes.Keys
      && (forall p :: p in s.nodes && p != e.to ==> s'.nodes[p] == s.nodes[p])
      && s'.nodes[e.to] == Node(s.nodes[e.to].me, false, m, false)
  {
    hide Without, Waiting;
    assert s.mail[i] in s.mail;
  }

  lemma HeardSound(s: Cluster, s': Cluster, m: u64, e: Envelope)
    requires Highest(s, m) && Views(s) && MailOk(s, m) && Waiting(s, m)
    requires s'.nodes.Keys == s.nodes.Keys && e.note.ACoordinator? && e.to in s.nodes
    requires forall f :: f in s.mail ==> f == e || f in s'.mail
    requires forall f :: f in s'.mail ==> f in s.mail
    requires forall p :: p in s.nodes && p != e.to ==> s'.nodes[p] == s.nodes[p]
    requires s'.nodes[e.to].me == s.nodes[e.to].me && !s'.nodes[e.to].electing
    ensures Highest(s', m) && Views(s') && MailOk(s', m) && Waiting(s', m)
  {
  }

  lemma HeardStays(s: Cluster, s': Cluster, m: u64, e: Envelope)
    requires Highest(s, m) && s'.nodes.Keys == s.nodes.Keys && s'.nodes[m] == s.nodes[m]
    requires e.note.ACoordinator? && e.to in s.nodes && e.to != m
    requires forall f :: f in s.mail ==> f == e || f in s'.mail
    requires forall p :: p in s.nodes && p != e.to ==> s'.nodes[p] == s.nodes[p]
    requires !s'.nodes[e.to].isLeader && s'.nodes[e.to].leader == m
    ensures Settled(s, m) ==> Settled(s', m)
    ensures AskedAbove(s, m) ==> AskedAbove(s', m)
    ensures Underway(s, m) ==> Underway(s', m)
  {
  }

  /** A node other than the highest hears that a higher node is alive. */
  lemma HeardOk(s: Cluster, m: u64, i: nat)
    requires Sound(s, m) && i < |s.mail| && s.mail[i].note.AnOk?
    ensures Sound(OnNote(s.(mail := Without(s.mail, i)), s.mail[i].to, s.mail[i].note), m)
    ensures Underway(s, m) ==> Underway(OnNote(s.(mail := Without(s.mail, i)), s.mail[i].to, s.mail[i].note), m)
  {
    TakenOut(s.mail, i);
    var e := s.mail[i];
    var s' := OnNote(s.(mail := Without(s.mail, i)), e.to, e.note);
    assert e in s.mail;
    assert AskedAbove(s, m) ==> AskedAbove(s', m);
    assert Settled(s, m) ==> Settled(s', m);
  }

  // ---- starting an election ----

  /** Below the highest node an election is never won on the spot. */
  lemma NotHighest(s: Cluster, m: u64, p: u64)
    requires Highest(s, m) && Views(s) && p in s.nodes && p != m
    ensures m in Higher(s.nodes[p].me)
  {
  }

  /** A node below the highest starts, or goes on with, an election. */
  lemma StartsBelow(s: Cluster, m: u64, p: u64)
    requires s.ok && Highest(s, m) && Views(s) && MailOk(s, m) && p in s.nodes && p != m
    requires forall q :: q in s.nodes && q != m && q != p && s.nodes[q].electing ==>
      Envelope(m, AnElection(q)) in s.mail || Envelope(q, AnOk) in s.mail
    requires s.nodes[p].electing ==> Underway(s, m) && (Envelope(m, AnElection(p)) in s.mail || Envelope(p, AnOk) in s.mail)
    ensures var s' := Carry(s, p, StartElection(s.nodes[p].me, s.nodes[p].isLeader, s.nodes[p].electing));
      Sound(s', m) && Underway(s', m)
  {
    hide Underway, Settled, AskedAbove, Envelopes;
    NotHighest(s, m, p);
    var v := StartElection(s.nodes[p].me, s.nodes[p].isLeader, s.nodes[p].electing);
    var s' := Carry(s, p, v);
    CarryMail(s, p, v);
    if s.nodes[p].electing {
      MoreMail(s, s', m);
    } else {
      assert Envelope(m, AnElection(p)) in s'.mail;
      NowAsked(s', m, p);
    }
  }

  lemma NowAsked(s: Cluster, m: u64, p: u64)
    requires m in s.nodes && Envelope(m, AnElection(p)) in s.mail
    ensures Underway(s, m)
  {
  }

  /** More mail, and nodes that only differ in waiting, leave an election under way. */
  lemma MoreMail(s: Cluster, s': Cluster, m: u64)
    requires s'.nodes.Keys == s.nodes.Keys && (forall e :: e in s.mail ==> e in s'.mail)
    requires forall p :: p in s.nodes ==> s'.nodes[p].isLeader == s.nodes[p].isLeader && s'.nodes[p].leader == s.nodes[p].leader
    requires m in s.nodes && (s.nodes[m].electing ==> s'.nodes[m].electing)
    ensures Settled(s, m) ==> Settled(s', m)
    ensures AskedAbove(s, m) ==> AskedAbove(s', m)
    ensures Underway(s, m) ==> Underway(s', m)
  {
  }

  /** The highest node announces itself. */
  lemma Announces(s: Cluster, m: u64)
    requires s.ok && Highest(s, m) && Views(s) && MailOk(s, m) && Waiting(s, m)
    ensures var s' := Carry(s, m, Announce(s.nodes[m].me, s.nodes[m].isLeader));
      Sound(s', m) && Settled(s', m) && Underway(s', m)
  {
    var v := Announce(s.nodes[m].me, s.nodes[m].isLeader);
    var s' := Carry(s, m, v);
    CarryMail(s, m, v);
    assert Settled(s', m) by {
      forall p | p in s'.nodes && p != m ensures Envelope(p, ACoordinator(m)) in s'.mail {
        assert p in Others(s.nodes[m].me);
      }
    }
  }

  /** The highest node starts an election: it waits if it knows of dead nodes above it, and announces itself otherwise. */
  lemma StartsHighest(s: Cluster, m: u64)
    requires s.ok && Highest(s, m) && Views(s) && MailOk(s, m) && Waiting(s, m)
    ensures var s' := Carry(s, m, StartElection(s.nodes[m].me, s.nodes[m].isLeader, s.nodes[m].electing));
      Sound(s', m) && Underway(s', m)
  {
    var n := s.nodes[m];
    var v := StartElection(n.me, n.isLeader, n.electing);
    if !n.electing && Higher(n.me) == {} {
      Announces(s, m);
    } else {
      CarryMail(s, m, v);
      assert v.electionTo * s.nodes.Keys == {};
    }
  }

  lemma Starts(s: Cluster, m: u64, p: u64)
    requires Sound(s, m) && p in s.nodes
    ensures var s' := Carry(s, p, StartElection(s.nodes[p].me, s.nodes[p].isLeader, s.nodes[p].electing));
      Sound(s', m) && Underway(s', m)
  {
    if p == m {
      StartsHighest(s, m);
    } else {
      StartsBelow(s, m, p);
    }
  }

  // ---- an Election is delivered ----

  lemma HeardElection(s: Cluster, m: u64, i: nat)
    requires Sound(s, m) && i < |s.mail| && s.mail[i].note.AnElection?
    ensures var s' := OnNote(s.(mail := Without(s.mail, i)), s.mail[i].to, s.mail[i].note); Sound(s', m) && Underway(s', m)
  {
    TakenOut(s.mail, i);
    var e := s.mail[i];
    assert e in s.mail;
    var p, c := e.to, e.note.candidate;
    var s1 := s.(mail := Without(s.mail, i) + [Envelope(c, AnOk)]);
    assert forall f :: f in s1.mail <==> f in Without(s.mail, i) || f == Envelope(c, AnOk);
    assert MailOk(s1, m);
    if p == m {
      StartsHighest(s1, m);
    } else {
      assert AskedAbove(s, m) ==> AskedAbove(s1, m);
      assert Settled(s, m) ==> Settled(s1, m);
      StartsBelow(s1, m, p);
    }
  }

  // ---- any step ----

  /** A timer that has not run out changes nothing, whoever waits. */
  lemma TickIsSilent(s: Cluster, p: u64)
    requires Enabled(s, Tick(p))
    ensures Next(s, Tick(p)) == s
  {
    var n := s.nodes[p];
    var v := OnTimeout(n.me, n.isLeader, n.electing, false);
    assert v.electionTo * s.nodes.Keys == {} && v.coordinatorTo * s.nodes.Keys == {};
    assert s.nodes[p := n] == s.nodes && s.mail + [] + [] == s.mail;
  }

  lemma NextSound(s: Cluster, m: u64, l: Label)
    requires Sound(s, m) && Enabled(s, l)
    ensures Sound(Next(s, l), m)
    ensures Underway(s, m) ==> Underway(Next(s, l), m)
  {
    match l {
      case Deliver(i) =>
        match s.mail[i].note {
          case AnElection(_) => HeardElection(s, m, i);
          case AnOk => HeardOk(s, m, i);
          case ACoordinator(_) => HeardLeader(s, m, i);
        }
      case Timeout(p) =>
        Announces(s, m);
      case Tick(p) =>
        TickIsSilent(s, p);
      case Begin(p) =>
        Starts(s, m, p);
      case Lose(p, dead) =>
        LosesDead(s, m, p, dead);
    }
  }

  ghost function Forget(s: Cluster, p: u64, dead: u64): Cluster
    requires p in s.nodes
  {
    var n := s.nodes[p];
    s.(nodes := s.nodes[p := n.(me := n.me.(cluster := n.me.cluster - {dead}))])
  }

  lemma Forgets(s: Cluster, m: u64, p: u64, dead: u64)
    requires Sound(s, m) && p in s.nodes && dead !in s.nodes
    ensures Sound(Forget(s, p, dead), m)
    ensures Underway(s, m) ==> Underway(Forget(s, p, dead), m)
  {
    hide Underway;
    var s1 := Forget(s, p, dead);
    MoreMail(s, s1, m);
    assert (exists q :: q in s1.nodes && s1.nodes[q].electing) ==> exists q :: q in s.nodes && s.nodes[q].electing;
  }

  lemma LosesDead(s: Cluster, m: u64, p: u64, dead: u64)
    requires Sound(s, m) && p in s.nodes && dead !in s.nodes
    ensures Sound(Next(s, Lose(p, dead)), m)
    ensures Underway(s, m) || (!s.nodes[p].isLeader && s.nodes[p].leader == dead) ==> Underway(Next(s, Lose(p, dead)), m)
  {
    hide Sound, Underway, Carry;
    Forgets(s, m, p, dead);
    var n := s.nodes[p];
    if !n.isLeader && n.leader == dead {
      Starts(Forget(s, p, dead), m, p);
    }
  }

  // ---- runs ----

  ghost predicate Schedule(s: Cluster, ls: seq<Label>)
    decreases |ls|
  {
    ls != [] ==> Enabled(s, ls[0]) && Schedule(Next(s, ls[0]), ls[1..])
  }

  ghost function Run(s: Cluster, ls: seq<Label>): Cluster
    requires Schedule(s, ls)
    decreases |ls|
  {
    if ls == [] then s else Run(Next(s, ls[0]), ls[1..])
  }

  /** Does this step start an election that was not already in progress somewhere? */
  predicate Triggers(s: Cluster, l: Label) {
    || l.Begin?
    || (l.Lose? && l.p in s.nodes && !s.nodes[l.p].isLeader && s.nodes[l.p].leader == l.dead)
  }

  ghost predicate Triggered(s: Cluster, ls: seq<Label>)
    requires Schedule(s, ls)
    decreases |ls|
  {
    ls != [] && (Triggers(s, ls[0]) || Triggered(Next(s, ls[0]), ls[1..]))
  }

  lemma {:induction false} RunSound(s: Cluster, m: u64, ls: seq<Label>)
    requires Sound(s, m) && Schedule(s, ls)
    ensures Sound(Run(s, ls), m)
    ensures Underway(s, m) || Triggered(s, ls) ==> Underway(Run(s, ls), m)
    decreases |ls|
  {
    hide Sound, Underway, Next, Enabled;
    if ls != [] {
      NextSound(s, m, ls[0]);
      if Triggers(s, ls[0]) {
        TriggerStarts(s, m, ls[0]);
      }
      RunSound(Next(s, ls[0]), m, ls[1..]);
    }
  }

  lemma TriggerStarts(s: Cluster, m: u64, l: Label)
    requires Sound(s, m) && Enabled(s, l) && Triggers(s, l)
    ensures Underway(Next(s, l), m)
  {
    if l.Begin? {
      Starts(s, m, l.p);
    } else {
      LosesDead(s, m, l.p, l.dead);
    }
  }

  /** Nothing is under way and no timer can run out. */
  ghost predicate Drained(s: Cluster) {
    forall l :: Enabled(s, l) ==> l.Begin? || l.Lose? || l.Tick?
  }

  /** The highest live node is the only leader, and every other node is a replica that points to it. */
  ghost predicate Converged(s: Cluster, m: u64) {
    && m in s.nodes && s.nodes[m].isLeader
    && (forall p :: p in s.nodes && p != m ==> !s.nodes[p].isLeader && s.nodes[p].leader == m)
    && forall p :: p in s.nodes ==> !s.nodes[p].electing
  }

  /**
   In every run every Coordinator under way names the highest live node and no replica
   panics; and if an election was started, then once everything is delivered the highest
   live node is the only leader, all others follow it, and nobody waits for an answer.
   */
  lemma Convergence(s: Cluster, m: u64, ls: seq<Label>)
    requires Sound(s, m) && Schedule(s, ls)
    ensures var s' := Run(s, ls);
      && s'.ok
      && (forall e :: e in s'.mail && e.note.ACoordinator? ==> e.note.leader == m)
      && (Triggered(s, ls) && Drained(s') ==> Converged(s', m))
  {
    hide Triggered, Schedule, Run;
    RunSound(s, m, ls);
    var s' := Run(s, ls);
    if Triggered(s, ls) && Drained(s') {
      DrainedMail(s', m);
      assert !Enabled(s', Timeout(m));
    }
  }

  lemma HeadDeliverable(s: Cluster, m: u64)
    requires Sound(s, m) && s.mail != []
    ensures Enabled(s, Deliver(0))
  {
    assert s.mail[0] in s.mail;
  }

  lemma DrainedMail(s: Cluster, m: u64)
    requires Sound(s, m) && Drained(s)
    ensures s.mail == []
  {
    if s.mail != [] {
      HeadDeliverable(s, m);
    }
  }

  /** Live nodes with full views, nothing under way and nobody waiting: a sound start. */
  lemma FreshIsSound(s: Cluster, m: u64)
    requires s.ok && Highest(s, m) && Views(s) && s.mail == [] && forall p :: p in s.nodes ==> !s.nodes[p].electing
    ensures Sound(s, m)
  {
  }
}
