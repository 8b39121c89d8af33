/**
 A GetDatabase among other traffic: every account and every card that existed when it was
 routed is asked once, and is in the snapshot once.
 */
module Dumps {
  import opened Protocol
  import opened Messages
  import opened Counting
  import opened Network
  import opened Traces
  import opened Tokens
  import opened Questions
  import Routers

  function AccountOf(s: AccountSnapshot<real>): u64 {
    s.accountId
  }

  function CardOf(s: CardSnapshot<real>): CardKey {
    CardKey(s.accountId, s.cardId)
  }

  ghost function Keyed<T(!new), K(!new)>(key: T -> K, k: K): T -> bool {
    (x: T) => key(x) == k
  }

  ghost function AccountSnapOf(id: u32): AccountMsg -> bool {
    (m: AccountMsg) => m.AccountGetSnapshot? && m.opId == id
  }

  ghost function CardSnapOf(id: u32): CardMsg -> bool {
    (m: CardMsg) => m.CardGetSnapshot? && m.opId == id
  }

  ghost function AccountSnapFor(id: u32, a: u64): RouterMsg -> bool {
    (m: RouterMsg) => m.AccountSnapshotCollected? && m.opId == id && AccountOf(m.account) == a
  }

  ghost function CardSnapFor(id: u32, k: CardKey): RouterMsg -> bool {
    (m: RouterMsg) => m.CardSnapshotCollected? && m.opId == id && CardOf(m.card) == k
  }

  predicate DumpOf(e: ActorEvent, id: u32) {
    e.OperationResultEvent? && e.opId == id && e.result.DatabaseSnapshotResult?
  }

  ghost function AccountsDumped(id: u32, a: u64): ActorEvent -> nat {
    (e: ActorEvent) => if DumpOf(e, id) then Count(e.result.snapshot.accounts, Keyed(AccountOf, a)) else 0
  }

  ghost function CardsDumped(id: u32, k: CardKey): ActorEvent -> nat {
    (e: ActorEvent) => if DumpOf(e, id) then Count(e.result.snapshot.cards, Keyed(CardOf, k)) else 0
  }

  ghost function AccountsKept(r: Routers.Router, id: u32, a: u64): nat {
    if id in r.snapshots then Count(r.snapshots[id].accounts, Keyed(AccountOf, a)) else 0
  }

  ghost function CardsKept(r: Routers.Router, id: u32, k: CardKey): nat {
    if id in r.snapshots then Count(r.snapshots[id].cards, Keyed(CardOf, k)) else 0
  }

  /** Where the request to an account, or to a card, is: in its mailbox, on the way back, kept, or reported. */
  ghost function AccountPart(n: Net, id: u32, a: u64): nat {
    Count(AccountMail(n.r, a), AccountSnapOf(id)) + Count(n.mail, AccountSnapFor(id, a))
    + AccountsKept(n.r, id, a) + Weigh(n.r.events, AccountsDumped(id, a))
  }

  ghost function CardPart(n: Net, id: u32, k: CardKey): nat {
    Count(CardMail(n.r, k), CardSnapOf(id)) + Count(n.mail, CardSnapFor(id, k))
    + CardsKept(n.r, id, k) + Weigh(n.r.events, CardsDumped(id, k))
  }

  ghost predicate DumpParts(n: Net, g: Asked, id: u32) {
    && (forall a :: AccountPart(n, id, a) == if a in AskedAccounts(g, id) then 1 else 0)
    && (forall k :: CardPart(n, id, k) == if k in AskedCards(g, id) then 1 else 0)
  }

  ghost predicate DumpSizes(r: Routers.Router, g: Asked, id: u32) {
    && (id in r.snapshots ==>
      var p := r.snapshots[id];
      && p.expectedAccounts == |AskedAccounts(g, id)| && p.expectedCards == |AskedCards(g, id)|
      && !(|p.accounts| == p.expectedAccounts && |p.cards| == p.expectedCards))
    && (forall e :: e in r.events && DumpOf(e, id) ==>
      |e.result.snapshot.accounts| == |AskedAccounts(g, id)| && |e.result.snapshot.cards| == |AskedCards(g, id)|)
  }

  ghost predicate DumpOk(n: Net, g: Asked, id: u32) {
    DumpParts(n, g, id) && DumpSizes(n.r, g, id)
  }

  // ---- pigeonhole ----

  lemma {:induction false} NamedSize<T(!new), K(!new)>(xs: seq<T>, key: T -> K)
    requires forall k :: Count(xs, Keyed(key, k)) <= 1
    ensures |set x | x in xs :: key(x)| == |xs|
  {
    if xs == [] {
      assert (set x | x in xs :: key(x)) == {};
    } else {
      var head, rest := xs[0], xs[1..];
      forall k ensures Count(rest, Keyed(key, k)) <= 1 {
        assert Count(xs, Keyed(key, k)) <= 1;
      }
      NamedSize(rest, key);
      var seen := set x | x in rest :: key(x);
      assert Count(xs, Keyed(key, key(head))) == 1 + Count(rest, Keyed(key, key(head)));
      CountZero(rest, Keyed(key, key(head)));
      assert (set x | x in xs :: key(x)) == seen + {key(head)};
    }
  }

  /** A list that names asked actors only and none twice is no longer than they are many, and if it is as long it names them all. */
  lemma AllNamed<T(!new), K(!new)>(xs: seq<T>, key: T -> K, asked: set<K>)
    requires forall k :: Count(xs, Keyed(key, k)) <= if k in asked then 1 else 0
    ensures |xs| <= |asked|
    ensures |xs| == |asked| ==> forall k :: k in asked ==> Count(xs, Keyed(key, k)) == 1
  {
    NamedSize(xs, key);
    var seen := set x | x in xs :: key(x);
    assert seen <= asked by {
      forall x | x in xs ensures key(x) in asked {
        CountIn(xs, Keyed(key, key(x)), x);
      }
    }
    assert |asked| == |seen| + |asked - seen|;
    if |xs| == |asked| {
      Routers.SameSize(seen, asked);
      forall k | k in asked ensures Count(xs, Keyed(key, k)) == 1 {
        assert k in seen;
        var x :| x in xs && key(x) == k;
        CountIn(xs, Keyed(key, k), x);
      }
    }
  }

  /** A reported dump is complete, and leaves no request and no answer behind. */
  lemma DumpedLeavesNothing(n: Net, g: Asked, id: u32, e: ActorEvent)
    requires DumpOk(n, g, id) && e in n.r.events && DumpOf(e, id)
    ensures forall a :: Count(e.result.snapshot.accounts, Keyed(AccountOf, a)) == if a in AskedAccounts(g, id) then 1 else 0
    ensures forall k :: Count(e.result.snapshot.cards, Keyed(CardOf, k)) == if k in AskedCards(g, id) then 1 else 0
    ensures forall a :: Count(n.mail, AccountSnapFor(id, a)) == 0 && Count(AccountMail(n.r, a), AccountSnapOf(id)) == 0
    ensures forall k :: Count(n.mail, CardSnapFor(id, k)) == 0 && Count(CardMail(n.r, k), CardSnapOf(id)) == 0
  {
    var s := e.result.snapshot;
    forall a ensures Count(s.accounts, Keyed(AccountOf, a)) <= if a in AskedAccounts(g, id) then 1 else 0 {
      WeighMember(n.r.events, AccountsDumped(id, a), e);
      assert AccountPart(n, id, a) == if a in AskedAccounts(g, id) then 1 else 0;
    }
    forall k ensures Count(s.cards, Keyed(CardOf, k)) <= if k in AskedCards(g, id) then 1 else 0 {
      WeighMember(n.r.events, CardsDumped(id, k), e);
      assert CardPart(n, id, k) == if k in AskedCards(g, id) then 1 else 0;
    }
    AllNamed(s.accounts, AccountOf, AskedAccounts(g, id));
    AllNamed(s.cards, CardOf, AskedCards(g, id));
    forall a
      ensures Count(n.mail, AccountSnapFor(id, a)) == 0 && Count(AccountMail(n.r, a), AccountSnapOf(id)) == 0
      ensures Count(s.accounts, Keyed(AccountOf, a)) == if a in AskedAccounts(g, id) then 1 else 0
    {
      WeighMember(n.r.events, AccountsDumped(id, a), e);
      assert AccountPart(n, id, a) == if a in AskedAccounts(g, id) then 1 else 0;
    }
    forall k
      ensures Count(n.mail, CardSnapFor(id, k)) == 0 && Count(CardMail(n.r, k), CardSnapOf(id)) == 0
      ensures Count(s.cards, Keyed(CardOf, k)) == if k in AskedCards(g, id) then 1 else 0
    {
      WeighMember(n.r.events, CardsDumped(id, k), e);
      assert CardPart(n, id, k) == if k in AskedCards(g, id) then 1 else 0;
    }
  }

  // ---- the answer that is read is expected ----

  /** Something collected for `id` is waiting in the router's mailbox. */
  predicate CollectedFor(m: RouterMsg, id: u32) {
    (m.AccountSnapshotCollected? || m.CardSnapshotCollected?) && m.opId == id
  }

  lemma AskedSomeone(n: Net, g: Asked, id: u32, m: RouterMsg)
    requires DumpParts(n, g, id) && m in n.mail && CollectedFor(m, id)
    ensures AskedAccounts(g, id) != {} || AskedCards(g, id) != {}
    ensures m.AccountSnapshotCollected? ==> Count(n.mail, AccountSnapFor(id, AccountOf(m.account))) > 0
    ensures m.CardSnapshotCollected? ==> Count(n.mail, CardSnapFor(id, CardOf(m.card))) > 0
  {
    if m.AccountSnapshotCollected? {
      var a := AccountOf(m.account);
      CountIn(n.mail, AccountSnapFor(id, a), m);
      assert AccountPart(n, id, a) == if a in AskedAccounts(g, id) then 1 else 0;
    } else {
      var k := CardOf(m.card);
      CountIn(n.mail, CardSnapFor(id, k), m);
      assert CardPart(n, id, k) == if k in AskedCards(g, id) then 1 else 0;
    }
  }

  /** Whatever is collected for a dump finds the dump pending. */
  lemma CollectedIsDue(n: Net, ops: Submitted, g: Asked, id: u32, m: RouterMsg)
    requires Traced(n, ops) && m in n.mail && CollectedFor(m, id)
    requires id in ops && ops[id].GetDatabase? && Places(n, id, ops[id]) == 1 && AskedOk(n, ops, g, id) && DumpOk(n, g, id)
    ensures id in n.r.snapshots && Count(n.mail, About(id)) == 0
  {
    hide Traced, DumpParts, DumpSizes;
    AskedSomeone(n, g, id, m);
    if id !in n.r.snapshots {
      if Count(n.mail, About(id)) > 0 {
        var r := Witness(n.mail, About(id));
        AboutDump(n, ops, id, r);
      } else {
        var e := Witness(n.r.events, EventOf(id));
        AnswerOfDump(n, ops, id, e);
        DumpedLeavesNothing(n, g, id, e);
      }
    }
  }

  lemma AboutDump(n: Net, ops: Submitted, id: u32, m: RouterMsg)
    requires Traced(n, ops) && m in n.mail && About(id)(m) && id in ops && ops[id].GetDatabase?
    ensures m.Execute?
  {
    assert RouterTrace(ops)(m);
  }

  lemma AnswerOfDump(n: Net, ops: Submitted, id: u32, e: ActorEvent)
    requires Traced(n, ops) && e in n.r.events && EventOf(id)(e) && id in ops && ops[id].GetDatabase?
    ensures DumpOf(e, id)
  {
    assert EventTrace(ops, e);
  }

  /** The router recognises every message it reads. */
  lemma MailRecognised(n: Net, ops: Submitted, g: Asked)
    requires Wired(n) && Traced(n, ops) && Once(n, ops) && OnRecord(n, ops) && Enabled(n, AtRouter)
    requires forall id :: id in ops ==> AskedOk(n, ops, g, id) && (ops[id].GetDatabase? ==> DumpOk(n, g, id))
    ensures Recognised(n, ops)
  {
    hide Traced, DumpOk, Wired;
    var m := n.mail[0];
    TracedHead(n, ops);
    if !m.Execute? {
      var id := m.opId;
      assert AskedOk(n, ops, g, id) && Places(n, id, ops[id]) == 1;
      if CollectedFor(m, id) {
        CollectedIsDue(n, ops, g, id, m);
      }
      CountZero(n.mail[1..], About(id));
      if Execute(id, ops[id]) in n.mail {
        NotStillWaiting(n.mail, id, Execute(id, ops[id]));
      }
    }
  }

  lemma NotStillWaiting(mail: seq<RouterMsg>, id: u32, m: RouterMsg)
    requires m in mail && m.Execute? && m.opId == id && mail != [] && !mail[0].Execute?
    ensures Count(mail, About(id)) > if About(id)(mail[0]) then 1 else 0
  {
    assert m in mail[1..];
    CountIn(mail[1..], About(id), m);
  }
}
