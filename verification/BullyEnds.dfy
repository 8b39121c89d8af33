/**
 Bully traffic dies out. An Election to a node weighs (N + 3) times two to the number of
 live nodes above it, any other message one, and a node that waits for an answer N: every
 delivery and every timeout makes the cluster lighter.
 */
module BullyEnds {
  import opened Protocol
  import opened Nodes
  import opened Counting
  import opened Sums
  import opened Bully

  function Above(live: set<u64>, p: u64): set<u64> {
    set q | q in live && q > p
  }

  function Pow2(n: nat): nat {
    if n == 0 then 1 else 2 * Pow2(n - 1)
  }

  function EnvelopeWeight(live: set<u64>): Envelope -> nat {
    (e: Envelope) => if e.note.AnElection? then (|live| + 3) * Pow2(|Above(live, e.to)|) else 1
  }

  function Flags(s: Cluster): map<u64, real> {
    map p | p in s.nodes :: if s.nodes[p].electing then |s.nodes.Keys| as real else 0.0
  }

  ghost function Weight(s: Cluster): real {
    Weigh(s.mail, EnvelopeWeight(s.nodes.Keys)) as real + Total(Flags(s))
  }

  lemma PowPositive(n: nat)
    ensures Pow2(n) >= 1
  {
  }

  // ---- weights of what is sent ----

  ghost function Costs(live: set<u64>, to: set<u64>, note: Note): map<u64, real> {
    map p | p in to :: EnvelopeWeight(live)(Envelope(p, note)) as real
  }

  lemma {:induction false} EnvelopesWeigh(live: set<u64>, to: set<u64>, note: Note)
    ensures Weigh(Envelopes(to, note), EnvelopeWeight(live)) as real == Total(Costs(live, to, note))
    decreases |to|
  {
    if to == {} {
      assert Costs(live, to, note) == map[];
    } else {
      var p :| p in to && Envelopes(to, note) == [Envelope(p, note)] + Envelopes(to - {p}, note);
      EnvelopesWeigh(live, to - {p}, note);
      WeighAppend([Envelope(p, note)], Envelopes(to - {p}, note), EnvelopeWeight(live));
      WeighOne(Envelope(p, note), EnvelopeWeight(live));
      TotalRemove(Costs(live, to, note), p);
      assert Costs(live, to, note) - {p} == Costs(live, to - {p}, note);
    }
  }

  lemma {:induction false} TotalOfOnes(m: map<u64, real>)
    requires forall k :: k in m ==> m[k] == 1.0
    ensures Total(m) == |m| as real
    decreases |m|
  {
    if m != map[] {
      var k :| k in m;
      TotalRemove(m, k);
      TotalOfOnes(m - {k});
      assert |m - {k}| == |m| - 1 by {
        assert (m - {k}).Keys == m.Keys - {k};
        assert |m.Keys| == |m| && |(m - {k}).Keys| == |m - {k}|;
      }
    }
  }

  /** Coordinators to every other live node weigh less than the cluster has nodes. */
  lemma CoordinatorsWeigh(live: set<u64>, p: u64, note: Note)
    requires p in live && !note.AnElection?
    ensures Weigh(Envelopes(live - {p}, note), EnvelopeWeight(live)) == |live| - 1
  {
    var to := live - {p};
    EnvelopesWeigh(live, to, note);
    TotalOfOnes(Costs(live, to, note));
    assert Costs(live, to, note).Keys == to && |Costs(live, to, note)| == |to| && |to| == |live| - 1;
  }

  lemma {:induction false} LeastOf(xs: set<u64>) returns (m: u64)
    requires xs != {}
    ensures m in xs && forall x :: x in xs ==> m <= x
    decreases |xs|
  {
    m :| m in xs;
    assert forall x :: x in xs ==> x == m || x in xs - {m};
    if xs - {m} != {} {
      var l := LeastOf(xs - {m});
      if l < m {
        m := l;
      }
    }
  }

  /** Two to the number of nodes above each node above `p`, added up, is one less than two to the number of nodes above `p`. */
  lemma {:induction false} ElectionsWeigh(live: set<u64>, p: u64, note: Note)
    requires note.AnElection?
    ensures Total(Costs(live, Above(live, p), note)) == ((|live| + 3) * (Pow2(|Above(live, p)|) - 1)) as real
    decreases |Above(live, p)|
  {
    var up := Above(live, p);
    if up == {} {
      assert Costs(live, up, note) == map[];
      hide Costs, Above;
    } else {
      hide Costs, Above, Pow2, Total;
      var m := LeastAbove(live, p, note);
      ElectionsWeigh(live, m, note);
      TotalRemove(Costs(live, up, note), m);
      Distribute(|live| + 3, Pow2(|Above(live, m)|));
    }
  }

  lemma LeastAbove(live: set<u64>, p: u64, note: Note) returns (m: u64)
    requires note.AnElection? && Above(live, p) != {}
    ensures m in Above(live, p) && |Above(live, p)| == |Above(live, m)| + 1
    ensures Pow2(|Above(live, p)|) == 2 * Pow2(|Above(live, m)|)
    ensures var costs := Costs(live, Above(live, p), note);
      && m in costs && costs[m] == ((|live| + 3) * Pow2(|Above(live, m)|)) as real
      && costs - {m} == Costs(live, Above(live, m), note)
  {
    m := LeastOf(Above(live, p));
    assert Above(live, m) == Above(live, p) - {m};
  }

  lemma Distribute(k: nat, x: nat)
    ensures k * (x - 1) + k * x == k * (2 * x - 1)
  {
  }

  // ---- weights of states ----

  lemma {:induction false} WeighWithout(mail: seq<Envelope>, i: nat, w: Envelope -> nat)
    requires i < |mail|
    ensures Weigh(Without(mail, i), w) == Weigh(mail, w) - w(mail[i])
  {
    assert mail == mail[..i] + ([mail[i]] + mail[i + 1..]);
    WeighAppend(mail[..i], [mail[i]] + mail[i + 1..], w);
    WeighAppend([mail[i]], mail[i + 1..], w);
    WeighAppend(mail[..i], mail[i + 1..], w);
    WeighOne(mail[i], w);
  }

  /** The weight after one node and the mail changed. */
  lemma WeightAt(s: Cluster, s': Cluster, p: u64)
    requires p in s.nodes && p in s'.nodes && s'.nodes == s.nodes[p := s'.nodes[p]]
    ensures Weight(s') == Weigh(s'.mail, EnvelopeWeight(s.nodes.Keys)) as real + Total(Flags(s))
      + (if s'.nodes[p].electing then |s.nodes.Keys| as real else 0.0) - (if s.nodes[p].electing then |s.nodes.Keys| as real else 0.0)
  {
    assert s'.nodes.Keys == s.nodes.Keys;
    assert Flags(s') == Flags(s)[p := Flags(s')[p]];
    TotalUpdate(Flags(s), p, Flags(s')[p]);
  }

  // ---- every delivery and every timeout ----

  /** Announcing costs fewer Coordinators than there are nodes. */
  lemma AnnounceCosts(s: Cluster, p: u64)
    requires Views(s) && p in s.nodes
    ensures var n := s.nodes[p];
      Weight(Carry(s, p, Announce(n.me, n.isLeader))) ==
      Weight(s) + (|s.nodes.Keys| - 1) as real - if n.electing then |s.nodes.Keys| as real else 0.0
  {
    var n, live := s.nodes[p], s.nodes.Keys;
    var v := Announce(n.me, n.isLeader);
    var s' := Carry(s, p, v);
    assert v.electionTo * live == {};
    assert v.coordinatorTo * live == live - {p};
    CoordinatorsWeigh(live, p, ACoordinator(p));
    WeighAppend(s.mail, [], EnvelopeWeight(live));
    WeighAppend(s.mail + [], Envelopes(live - {p}, ACoordinator(p)), EnvelopeWeight(live));
    WeightAt(s, s', p);
  }

  /** The weight of an Election to `p`. */
  function Price(s: Cluster, p: u64): nat {
    (|s.nodes.Keys| + 3) * Pow2(|Above(s.nodes.Keys, p)|)
  }

  lemma PriceIsHigh(s: Cluster, p: u64)
    ensures Price(s, p) >= |s.nodes.Keys| + 3
  {
    PowPositive(|Above(s.nodes.Keys, p)|);
    Grows(|s.nodes.Keys| + 3, Pow2(|Above(s.nodes.Keys, p)|));
  }

  lemma Grows(k: nat, x: nat)
    requires x >= 1
    ensures k * x >= k
  {
  }

  /** Asking every live node above `p` costs less than an Election to `p`. */
  lemma AskCosts(s: Cluster, p: u64)
    requires Views(s) && p in s.nodes && !s.nodes[p].electing && Higher(s.nodes[p].me) != {}
    ensures var n := s.nodes[p];
      Weight(Carry(s, p, StartElection(n.me, n.isLeader, n.electing))) == Weight(s) + Price(s, p) as real - 3.0
  {
    hide Weigh, EnvelopeWeight, Costs, Flags, Views, Above, Pow2;
    var n, live := s.nodes[p], s.nodes.Keys;
    var v := StartElection(n.me, n.isLeader, n.electing);
    var to, s' := Above(live, p), Carry(s, p, v);
    AsksAbove(s, p);
    assert s'.mail == s.mail + Envelopes(to, AnElection(p));
    WeighAppend(s.mail, Envelopes(to, AnElection(p)), EnvelopeWeight(live));
    WeightAt(s, s', p);
    EnvelopesWeigh(live, to, AnElection(p));
    ElectionsWeigh(live, p, AnElection(p));
    Spread(|live| + 3, Pow2(|to|));
  }

  lemma AsksAbove(s: Cluster, p: u64)
    requires Views(s) && p in s.nodes
    ensures Higher(s.nodes[p].me) * s.nodes.Keys == Above(s.nodes.Keys, p)
    ensures {} * s.nodes.Keys == {}
  {
  }

  lemma Spread(k: nat, x: nat)
    ensures k * (x - 1) == k * x - k
  {
  }

  lemma WaitCosts(s: Cluster, p: u64)
    requires p in s.nodes && s.nodes[p].electing
    ensures var n := s.nodes[p]; Weight(Carry(s, p, StartElection(n.me, n.isLeader, n.electing))) == Weight(s)
  {
    var n := s.nodes[p];
    var s' := Carry(s, p, StartElection(n.me, n.isLeader, n.electing));
    assert {} * s.nodes.Keys == {};
    assert s'.mail == s.mail;
    WeightAt(s, s', p);
  }

  /** Starting an election at a node costs less than the Election that made it start. */
  lemma StartCosts(s: Cluster, p: u64)
    requires Views(s) && p in s.nodes
    ensures var n := s.nodes[p];
      Weight(Carry(s, p, StartElection(n.me, n.isLeader, n.electing))) <= Weight(s) + Price(s, p) as real - 2.0
  {
    hide Weight, Views, Price, Carry;
    PriceIsHigh(s, p);
    if s.nodes[p].electing {
      WaitCosts(s, p);
    } else if Higher(s.nodes[p].me) == {} {
      AnnounceCosts(s, p);
    } else {
      AskCosts(s, p);
    }
  }

  /** An Election is used up by the ElectionOk and the election it causes. */
  lemma ElectionCosts(s: Cluster, m: u64, i: nat)
    requires Sound(s, m) && i < |s.mail| && s.mail[i].note.AnElection?
    ensures Weight(Next(s, Deliver(i))) <= Weight(s) - 1.0
  {
    var e, live := s.mail[i], s.nodes.Keys;
    assert e in s.mail;
    var answer := Envelope(e.note.candidate, AnOk);
    var s2 := s.(mail := Without(s.mail, i) + [answer]);
    WeighWithout(s.mail, i, EnvelopeWeight(live));
    WeighAppend(Without(s.mail, i), [answer], EnvelopeWeight(live));
    WeighOne(answer, EnvelopeWeight(live));
    assert EnvelopeWeight(live)(e) == Price(s, e.to);
    assert Weight(s2) == Weight(s) - Price(s, e.to) as real + 1.0;
    hide Weight, Price;
    StartCosts(s2, e.to);
    SamePrice(s, s2, e.to);
  }

  lemma SamePrice(s: Cluster, s': Cluster, p: u64)
    requires s'.nodes == s.nodes
    ensures Price(s', p) == Price(s, p)
  {
  }

  lemma DeliverCosts(s: Cluster, m: u64, i: nat)
    requires Sound(s, m) && i < |s.mail|
    ensures Weight(Next(s, Deliver(i))) <= Weight(s) - 1.0
  {
    var e, live := s.mail[i], s.nodes.Keys;
    assert e in s.mail;
    if e.note.AnElection? {
      ElectionCosts(s, m, i);
    } else {
      WeighWithout(s.mail, i, EnvelopeWeight(live));
      var s1 := s.(mail := Without(s.mail, i));
      WeightAt(s1, Next(s, Deliver(i)), e.to);
      hide Views, MailOk, Waiting, Underway;
    }
  }

  /** Every delivery and every timeout makes the cluster lighter. */
  lemma Lighter(s: Cluster, m: u64, l: Label)
    requires Sound(s, m) && Enabled(s, l) && (l.Deliver? || l.Timeout?)
    ensures Weight(Next(s, l)) <= Weight(s) - 1.0
  {
    if l.Deliver? {
      DeliverCosts(s, m, l.i);
    } else {
      AnnounceCosts(s, l.p);
    }
  }

  lemma {:induction false} NoDebt(m: map<u64, real>)
    requires forall k :: k in m ==> m[k] >= 0.0
    ensures Total(m) >= 0.0
    decreases |m|
  {
    if m != map[] {
      var k :| k in m;
      TotalRemove(m, k);
      NoDebt(m - {k});
    }
  }

  /** The deliveries and the timers that run out. */
  function Moves(ls: seq<Label>): nat {
    if ls == [] then 0 else (if ls[0].Tick? then 0 else 1) + Moves(ls[1..])
  }

  /**
   So the traffic of an election ends: however often timers tick in between, a run makes no more
   deliveries and timeouts than its first state weighs.
   */
  lemma {:induction false} TrafficEnds(s: Cluster, m: u64, ls: seq<Label>)
    requires Sound(s, m) && Schedule(s, ls) && forall l :: l in ls ==> l.Deliver? || l.Timeout? || l.Tick?
    ensures Moves(ls) as real <= Weight(s)
    decreases |ls|
  {
    hide Sound, Next, Enabled;
    if ls == [] {
      NoDebt(Flags(s));
    } else {
      NextSound(s, m, ls[0]);
      if ls[0].Tick? {
        TickIsSilent(s, ls[0].p);
      } else {
        Lighter(s, m, ls[0]);
      }
      TrafficEnds(Next(s, ls[0]), m, ls[1..]);
    }
  }
}
