/** What `Dumps` says of a GetDatabase is kept by every step. */
module DumpSteps {
  import opened Wrappers
  import opened Protocol
  import opened Messages
  import opened Counting
  import opened Network
  import opened Handshake
  import opened Traces
  import opened Tokens
  import opened Questions
  import opened Dumps
  import Cards
  import Accounts
  import Routers

  // ---- a card's step ----

  lemma CardSnaps(k0: CardKey, c: Cards.Card, m: CardMsg, id: u32, k: CardKey, a: u64)
    ensures var e := Cards.Handle(k0, c, m);
      && Count(e.toRouter, CardSnapFor(id, k)) == (if CardSnapOf(id)(m) && k == k0 then 1 else 0)
      && Count(e.toRouter, AccountSnapFor(id, a)) == 0
      && (forall r :: r in e.toAccount ==> !AccountSnapOf(id)(r))
  {
    var e := Cards.Handle(k0, c, m);
    CardKinds(k0, c, m);
    CountZero(e.toRouter, AccountSnapFor(id, a));
    if m.CardGetSnapshot? {
      CountOne(e.toRouter[0], CardSnapFor(id, k));
    } else {
      OnlyCompletions(k0, c, m);
      CountZero(e.toRouter, CardSnapFor(id, k));
    }
  }

  lemma OnlyCompletions(k: CardKey, c: Cards.Card, m: CardMsg)
    requires !m.CardGetSnapshot?
    ensures forall r :: r in Cards.Handle(k, c, m).toRouter ==> r.OperationCompleted? || r.RouterDebug?
  {
    match m {
      case ExecuteCharge(opId, _, _, amount, fromOffline) =>
        StartKinds(k, c.(current := Some(Cards.ChargeTask(Cards.ChargeOp(opId, amount, fromOffline)))));
      case ExecuteLimitChange(opId, newLimit) =>
        StartKinds(k, c.(current := Some(Cards.LimitTask(opId, newLimit))));
      case AccountChargeReply(opId, success, error) =>
        FinishKinds(k, c, opId, success, error);
        if c.current.Some? && c.current.value.ChargeTask? {
          FinishKinds(k, c.(consumed := c.consumed + c.current.value.op.amount), opId, success, error);
        }
      case _ =>
    }
  }

  lemma CardStepDump(n: Net, g: Asked, k0: CardKey, id: u32)
    requires Wired(n) && Enabled(n, AtCard(k0)) && DumpOk(n, g, id)
    ensures DumpOk(CardStep(n, k0), g, id)
  {
    hide Cards.Handle, CardStep, AccountMail, CardMail, CardAt, PendingAt, AccountPart, CardPart;
    var n', m := CardStep(n, k0), n.r.cards[k0][0];
    CardStepOther(n, k0, k0, 0);
    forall a ensures AccountPart(n', id, a) == AccountPart(n, id, a) {
      CardStepAccountPart(n, k0, id, a);
    }
    forall k ensures CardPart(n', id, k) == CardPart(n, id, k) {
      CardStepCardPart(n, k0, id, k);
    }
    assert DumpParts(n', g, id);
  }

  lemma CardStepAccountPart(n: Net, k0: CardKey, id: u32, a: u64)
    requires Wired(n) && Enabled(n, AtCard(k0))
    ensures AccountPart(CardStep(n, k0), id, a) == AccountPart(n, id, a)
  {
    hide Cards.Handle, CardStep, AccountMail, CardMail, CardAt, PendingAt;
    var e := Cards.Handle(k0, n.cards[k0], n.r.cards[k0][0]);
    CardStepOwn(n, k0);
    CardStepOther(n, k0, k0, a);
    CardSnaps(k0, n.cards[k0], n.r.cards[k0][0], id, k0, a);
    CountAppend(n.mail, e.toRouter, AccountSnapFor(id, a));
    CountNone(AccountMail(n.r, a), if a == k0.account then e.toAccount else [], AccountSnapOf(id));
  }

  lemma CardStepCardPart(n: Net, k0: CardKey, id: u32, k: CardKey)
    requires Wired(n) && Enabled(n, AtCard(k0))
    ensures CardPart(CardStep(n, k0), id, k) == CardPart(n, id, k)
  {
    hide Cards.Handle, CardStep, AccountMail, CardMail, CardAt, PendingAt;
    var m := n.r.cards[k0][0];
    CardStepOwn(n, k0);
    CardStepOther(n, k0, k, 0);
    CardSnaps(k0, n.cards[k0], m, id, k, 0);
    CountAppend(n.mail, Cards.Handle(k0, n.cards[k0], m).toRouter, CardSnapFor(id, k));
    CountAppend([m], CardMail(CardStep(n, k0).r, k0), CardSnapOf(id));
    CountOne(m, CardSnapOf(id));
  }

  // ---- an account's step ----

  lemma AccountSnaps(a0: u64, acct: Accounts.Account, m: AccountMsg, id: u32, a: u64, k: CardKey)
    ensures var e := Accounts.Handle(a0, acct, m);
      && Count(e.toRouter, AccountSnapFor(id, a)) == (if AccountSnapOf(id)(m) && a == a0 then 1 else 0)
      && Count(e.toRouter, CardSnapFor(id, k)) == 0
      && (forall r :: r in e.toCard ==> !CardSnapOf(id)(r))
  {
    var e := Accounts.Handle(a0, acct, m);
    CountZero(e.toRouter, CardSnapFor(id, k));
    if e.toRouter != [] {
      assert e.toRouter == [e.toRouter[0]];
      CountOne(e.toRouter[0], AccountSnapFor(id, a));
    }
  }

  lemma AccountStepDump(n: Net, g: Asked, a0: u64, id: u32)
    requires Wired(n) && Enabled(n, AtAccount(a0)) && DumpOk(n, g, id)
    ensures DumpOk(AccountStep(n, a0), g, id)
  {
    hide Accounts.Handle, AccountStep, AccountMail, CardMail, CardAt, PendingAt, AccountPart, CardPart;
    var n' := AccountStep(n, a0);
    AccountStepOther(n, a0, a0, CardKey(0, 0));
    forall a ensures AccountPart(n', id, a) == AccountPart(n, id, a) {
      AccountStepAccountPart(n, a0, id, a);
    }
    forall k ensures CardPart(n', id, k) == CardPart(n, id, k) {
      AccountStepCardPart(n, a0, id, k);
    }
    assert DumpParts(n', g, id);
  }

  lemma AccountStepAccountPart(n: Net, a0: u64, id: u32, a: u64)
    requires Wired(n) && Enabled(n, AtAccount(a0))
    ensures AccountPart(AccountStep(n, a0), id, a) == AccountPart(n, id, a)
  {
    hide Accounts.Handle, AccountStep, AccountMail, CardMail, CardAt, PendingAt;
    var m := n.r.accounts[a0][0];
    AccountStepOwn(n, a0);
    AccountStepOther(n, a0, a, CardKey(0, 0));
    AccountSnaps(a0, n.accounts[a0], m, id, a, CardKey(0, 0));
    CountAppend(n.mail, Accounts.Handle(a0, n.accounts[a0], m).toRouter, AccountSnapFor(id, a));
    CountAppend([m], AccountMail(AccountStep(n, a0).r, a0), AccountSnapOf(id));
    CountOne(m, AccountSnapOf(id));
  }

  lemma AccountStepCardPart(n: Net, a0: u64, id: u32, k: CardKey)
    requires Wired(n) && Enabled(n, AtAccount(a0))
    ensures CardPart(AccountStep(n, a0), id, k) == CardPart(n, id, k)
  {
    hide Accounts.Handle, AccountStep, AccountMail, CardMail, CardAt, PendingAt;
    var e := Accounts.Handle(a0, n.accounts[a0], n.r.accounts[a0][0]);
    AccountStepOwn(n, a0);
    AccountStepOther(n, a0, a0, k);
    AccountSnaps(a0, n.accounts[a0], n.r.accounts[a0][0], id, a0, k);
    CountAppend(n.mail, e.toRouter, CardSnapFor(id, k));
    CountNone(CardMail(n.r, k), e.toCard, CardSnapOf(id));
  }

  // ---- the router's step ----

  lemma RouterAsksNothing(n: Net, k: CardKey, a: u64, id: u32)
    requires Wired(n) && Enabled(n, AtRouter) && (n.mail[0].Execute? ==> n.mail[0].opId != id && !n.mail[0].operation.ReplaceDatabase?)
    ensures var r' := RouterStep(n).r;
      && Count(CardMail(r', k), CardSnapOf(id)) == Count(CardMail(n.r, k), CardSnapOf(id))
      && Count(AccountMail(r', a), AccountSnapOf(id)) == Count(AccountMail(n.r, a), AccountSnapOf(id))
  {
    hide Routers.Handle;
    var r' := RouterStep(n).r;
    HandleRequests(n.r, n.mail[0]);
    RouterGrows(n.r, n.mail[0]);
    if k in r'.cards {
      assert CardGained(n.mail[0], k, CardMail(n.r, k), r'.cards[k]);
      var more := r'.cards[k][|CardMail(n.r, k)|..];
      assert r'.cards[k] == CardMail(n.r, k) + more;
      CountNone(CardMail(n.r, k), more, CardSnapOf(id));
    }
    if a in r'.accounts {
      assert AccountGained(n.mail[0], a, AccountMail(n.r, a), r'.accounts[a]);
      var more := r'.accounts[a][|AccountMail(n.r, a)|..];
      assert r'.accounts[a] == AccountMail(n.r, a) + more;
      CountNone(AccountMail(n.r, a), more, AccountSnapOf(id));
    }
  }

  /** What the router keeps and has reported, after one event more. */
  lemma DumpWeights(events: seq<ActorEvent>, e: ActorEvent, id: u32, a: u64, k: CardKey)
    ensures Weigh(events + [e], AccountsDumped(id, a)) == Weigh(events, AccountsDumped(id, a)) + AccountsDumped(id, a)(e)
    ensures Weigh(events + [e], CardsDumped(id, k)) == Weigh(events, CardsDumped(id, k)) + CardsDumped(id, k)(e)
  {
    WeighAppend(events, [e], AccountsDumped(id, a));
    WeighAppend(events, [e], CardsDumped(id, k));
    WeighOne(e, AccountsDumped(id, a));
    WeighOne(e, CardsDumped(id, k));
  }

  /** A complete dump moves from what is kept to what is reported. */
  lemma TryCompleteParts(r: Routers.Router, opId: u32, id: u32, a: u64, k: CardKey)
    requires opId in r.snapshots && opId in r.operations
    ensures var r' := Routers.TryComplete(r, opId);
      && AccountsKept(r', id, a) + Weigh(r'.events, AccountsDumped(id, a)) == AccountsKept(r, id, a) + Weigh(r.events, AccountsDumped(id, a))
      && CardsKept(r', id, k) + Weigh(r'.events, CardsDumped(id, k)) == CardsKept(r, id, k) + Weigh(r.events, CardsDumped(id, k))
  {
    var r' := Routers.TryComplete(r, opId);
    if r' != r {
      DumpWeights(r.events, r'.events[|r.events|], id, a, k);
    }
  }

  lemma TryCompleteSizes(r: Routers.Router, g: Asked, opId: u32, id: u32)
    requires opId in r.snapshots && opId in r.operations
    requires id in r.snapshots ==>
      var p := r.snapshots[id];
      && p.expectedAccounts == |AskedAccounts(g, id)| && p.expectedCards == |AskedCards(g, id)|
      && (id == opId || !(|p.accounts| == p.expectedAccounts && |p.cards| == p.expectedCards))
    requires forall e :: e in r.events && DumpOf(e, id) ==>
      |e.result.snapshot.accounts| == |AskedAccounts(g, id)| && |e.result.snapshot.cards| == |AskedCards(g, id)|
    ensures DumpSizes(Routers.TryComplete(r, opId), g, id)
  {
  }

  /** The router after it put what was collected on its list. */
  function Kept(r: Routers.Router, m: RouterMsg): Routers.Router
    requires (m.AccountSnapshotCollected? || m.CardSnapshotCollected?) && m.opId in r.snapshots
  {
    var p := r.snapshots[m.opId];
    r.(snapshots := r.snapshots[m.opId :=
      if m.AccountSnapshotCollected? then p.(accounts := p.accounts + [m.account]) else p.(cards := p.cards + [m.card])])
  }

  lemma KeptParts(r: Routers.Router, m: RouterMsg, id: u32, a: u64, k: CardKey)
    requires (m.AccountSnapshotCollected? || m.CardSnapshotCollected?) && m.opId in r.snapshots
    ensures AccountsKept(Kept(r, m), id, a) == AccountsKept(r, id, a) + if AccountSnapFor(id, a)(m) then 1 else 0
    ensures CardsKept(Kept(r, m), id, k) == CardsKept(r, id, k) + if CardSnapFor(id, k)(m) then 1 else 0
  {
    var p := r.snapshots[m.opId];
    if m.AccountSnapshotCollected? {
      CountAppend(p.accounts, [m.account], Keyed(AccountOf, a));
      CountOne(m.account, Keyed(AccountOf, a));
    } else {
      CountAppend(p.cards, [m.card], Keyed(CardOf, k));
      CountOne(m.card, Keyed(CardOf, k));
    }
  }

  /** Reporting moves a part from the message to the list or to the event. */
  lemma ReportParts(n: Net, ops: Submitted, id: u32, a: u64, k: CardKey)
    requires Wired(n) && Traced(n, ops) && Enabled(n, AtRouter) && Recognised(n, ops) && !n.mail[0].Execute?
    ensures var r', m := Routers.Handle(n.r, n.mail[0]), n.mail[0];
      && AccountsKept(r', id, a) + Weigh(r'.events, AccountsDumped(id, a)) ==
         AccountsKept(n.r, id, a) + Weigh(n.r.events, AccountsDumped(id, a)) + (if AccountSnapFor(id, a)(m) then 1 else 0)
      && CardsKept(r', id, k) + Weigh(r'.events, CardsDumped(id, k)) ==
         CardsKept(n.r, id, k) + Weigh(n.r.events, CardsDumped(id, k)) + (if CardSnapFor(id, k)(m) then 1 else 0)
  {
    hide Traced, Routers.TryComplete, Routers.Dispatch, AccountsKept, CardsKept;
    TracedHead(n, ops);
    var r', m := Routers.Handle(n.r, n.mail[0]), n.mail[0];
    if m.AccountSnapshotCollected? || m.CardSnapshotCollected? {
      assert r' == Routers.TryComplete(Kept(n.r, m), m.opId);
      KeptParts(n.r, m, id, a, k);
      TryCompleteParts(Kept(n.r, m), m.opId, id, a, k);
    } else {
      DumpWeights(n.r.events, r'.events[|n.r.events|], id, a, k);
      SameKept(n.r, r', id, a, k);
    }
  }

  lemma SameKept(r: Routers.Router, r': Routers.Router, id: u32, a: u64, k: CardKey)
    requires id in r.snapshots <==> id in r'.snapshots
    requires id in r.snapshots ==> r'.snapshots[id] == r.snapshots[id]
    ensures AccountsKept(r', id, a) == AccountsKept(r, id, a) && CardsKept(r', id, k) == CardsKept(r, id, k)
  {
  }

  lemma ReportSizes(n: Net, ops: Submitted, g: Asked, id: u32)
    requires Wired(n) && Traced(n, ops) && Enabled(n, AtRouter) && Recognised(n, ops) && !n.mail[0].Execute? && DumpSizes(n.r, g, id)
    ensures DumpSizes(RouterStep(n).r, g, id)
  {
    hide Traced, Routers.TryComplete, Routers.Dispatch, MailTraced;
    TracedHead(n, ops);
    var m := n.mail[0];
    if m.AccountSnapshotCollected? || m.CardSnapshotCollected? {
      assert Routers.Handle(n.r, m) == Routers.TryComplete(Kept(n.r, m), m.opId);
      TryCompleteSizes(Kept(n.r, m), g, m.opId, id);
    }
  }

  lemma ReportDump(n: Net, ops: Submitted, g: Asked, id: u32)
    requires Wired(n) && Traced(n, ops) && Enabled(n, AtRouter) && Recognised(n, ops) && !n.mail[0].Execute? && DumpOk(n, g, id)
    ensures DumpOk(RouterStep(n), g, id)
  {
    hide Routers.Handle, RouterStep, Traced, Recognised, CardMail, AccountMail, PendingAt, CardAt, AccountsKept, CardsKept, DumpSizes;
    var n', m := RouterStep(n), n.mail[0];
    ReportSizes(n, ops, g, id);
    forall a ensures AccountPart(n', id, a) == AccountPart(n, id, a) {
      RouterCards(n, CardKey(0, 0), a);
      RouterAsksNothing(n, CardKey(0, 0), a, id);
      ReportParts(n, ops, id, a, CardKey(0, 0));
    }
    forall k ensures CardPart(n', id, k) == CardPart(n, id, k) {
      RouterCards(n, k, 0);
      RouterAsksNothing(n, k, 0, id);
      ReportParts(n, ops, id, 0, k);
    }
    assert DumpParts(n', g, id);
  }

  lemma RouteOtherParts(n: Net, ops: Submitted, id: u32, a: u64, k: CardKey)
    requires Wired(n) && Traced(n, ops) && Enabled(n, AtRouter) && n.mail[0].Execute? && n.mail[0].opId != id
    ensures AccountPart(RouterStep(n), id, a) == AccountPart(n, id, a) && CardPart(RouterStep(n), id, k) == CardPart(n, id, k)
  {
    hide Routers.Dispatch, RouterStep, Traced, CardMail, AccountMail, PendingAt, CardAt;
    TracedHead(n, ops);
    DispatchReports(n.r, n.mail[0].opId, n.mail[0].operation);
    RouterCards(n, k, a);
    RouterAsksNothing(n, k, a, id);
    OtherDumps(n.r.events, RouterStep(n).r.events, id, a, k);
  }

  lemma RouteOtherSizes(n: Net, ops: Submitted, g: Asked, id: u32)
    requires Wired(n) && Traced(n, ops) && Enabled(n, AtRouter) && n.mail[0].Execute? && n.mail[0].opId != id && DumpSizes(n.r, g, id)
    ensures DumpSizes(RouterStep(n).r, NextAsked(n, AtRouter, g), id)
  {
    hide Routers.Dispatch, Traced, AskedCards, AskedAccounts, NextAsked;
    TracedHead(n, ops);
    DispatchReports(n.r, n.mail[0].opId, n.mail[0].operation);
    SameAsked(n, g, id);
  }

  lemma SameAsked(n: Net, g: Asked, id: u32)
    requires Enabled(n, AtRouter) && (n.mail[0].Execute? ==> n.mail[0].opId != id)
    ensures var g' := NextAsked(n, AtRouter, g); AskedCards(g', id) == AskedCards(g, id) && AskedAccounts(g', id) == AskedAccounts(g, id)
  {
  }

  lemma RouteOtherDump(n: Net, ops: Submitted, g: Asked, id: u32)
    requires Wired(n) && Traced(n, ops) && Enabled(n, AtRouter) && n.mail[0].Execute? && n.mail[0].opId != id && DumpOk(n, g, id)
    ensures DumpOk(RouterStep(n), NextAsked(n, AtRouter, g), id)
  {
    hide Wired, Traced, AccountPart, CardPart, DumpSizes, RouterStep, NextAsked, AskedCards, AskedAccounts;
    RouteOtherSizes(n, ops, g, id);
    SameAsked(n, g, id);
    forall a ensures AccountPart(RouterStep(n), id, a) == AccountPart(n, id, a) {
      RouteOtherParts(n, ops, id, a, CardKey(0, 0));
    }
    forall k ensures CardPart(RouterStep(n), id, k) == CardPart(n, id, k) {
      RouteOtherParts(n, ops, id, 0, k);
    }
    assert DumpParts(RouterStep(n), NextAsked(n, AtRouter, g), id);
  }

  lemma OtherDumps(events: seq<ActorEvent>, events': seq<ActorEvent>, id: u32, a: u64, k: CardKey)
    requires events' == events || (|events'| == |events| + 1 && events'[..|events|] == events && !EventOf(id)(events'[|events|]))
    ensures Weigh(events', AccountsDumped(id, a)) == Weigh(events, AccountsDumped(id, a))
    ensures Weigh(events', CardsDumped(id, k)) == Weigh(events, CardsDumped(id, k))
  {
    if events' != events {
      assert events' == events + [events'[|events|]];
      DumpWeights(events, events'[|events|], id, a, k);
    }
  }

  // ---- the dump itself is routed ----

  lemma DumpMails(r: Routers.Router, id: u32, op: Op, a: u64, k: CardKey)
    requires op.GetDatabase?
    ensures var r' := Routers.Dispatch(r, id, op);
      && Count(AccountMail(r', a), AccountSnapOf(id)) == Count(AccountMail(r, a), AccountSnapOf(id)) + (if a in r.accounts then 1 else 0)
      && Count(CardMail(r', k), CardSnapOf(id)) == Count(CardMail(r, k), CardSnapOf(id)) + (if k in r.cards then 1 else 0)
  {
    CountAppend(AccountMail(r, a), [AccountGetSnapshot(id)], AccountSnapOf(id));
    CountAppend(CardMail(r, k), [CardGetSnapshot(id)], CardSnapOf(id));
    CountOne(AccountGetSnapshot(id), AccountSnapOf(id));
    CountOne(CardGetSnapshot(id), CardSnapOf(id));
    assert |r.accounts| == 0 ==> r.accounts == map[];
    assert |r.cards| == 0 ==> r.cards == map[];
  }

  /** An operation still to be routed is nowhere else. */
  lemma NoDumpYet(n: Net, id: u32, op: Op)
    requires n.mail != [] && n.mail[0].Execute? && n.mail[0].opId == id && op.GetDatabase? && Places(n, id, op) == 1
    ensures id !in n.r.snapshots && forall e :: e in n.r.events ==> !EventOf(id)(e)
  {
    CountZero(n.r.events, EventOf(id));
  }

  lemma RouteDumpSizes(n: Net, ops: Submitted, g: Asked, id: u32)
    requires Wired(n) && Traced(n, ops) && Enabled(n, AtRouter) && n.mail[0].Execute? && n.mail[0].opId == id
    requires id in ops && ops[id].GetDatabase? && Places(n, id, ops[id]) == 1
    ensures DumpSizes(RouterStep(n).r, NextAsked(n, AtRouter, g), id)
  {
    hide Routers.Dispatch, Traced;
    TracedHead(n, ops);
    DispatchReports(n.r, id, ops[id]);
    NoDumpYet(n, id, ops[id]);
    assert |n.r.accounts| == |n.r.accounts.Keys| && |n.r.cards| == |n.r.cards.Keys|;
  }

  lemma RouteDumpParts(n: Net, ops: Submitted, id: u32, a: u64, k: CardKey)
    requires Wired(n) && Traced(n, ops) && Enabled(n, AtRouter) && n.mail[0].Execute? && n.mail[0].opId == id
    requires id in ops && ops[id].GetDatabase? && Places(n, id, ops[id]) == 1
    ensures AccountPart(RouterStep(n), id, a) == AccountPart(n, id, a) + if a in n.r.accounts then 1 else 0
    ensures CardPart(RouterStep(n), id, k) == CardPart(n, id, k) + if k in n.r.cards then 1 else 0
  {
    hide Routers.Dispatch, RouterStep, Traced, CardMail, AccountMail, PendingAt, CardAt;
    TracedHead(n, ops);
    DispatchReports(n.r, id, ops[id]);
    RouterCards(n, k, a);
    NoDumpYet(n, id, ops[id]);
    DumpMails(n.r, id, ops[id], a, k);
    NewDump(n.r, RouterStep(n).r, id, a, k);
  }

  lemma NewlyAsked(n: Net, ops: Submitted, g: Asked, id: u32)
    requires Enabled(n, AtRouter) && n.mail[0].Execute? && n.mail[0].opId == id && n.mail[0].operation.GetDatabase? && AskedOk(n, ops, g, id)
    ensures AskedAccounts(g, id) == {} && AskedCards(g, id) == {}
    ensures var g' := NextAsked(n, AtRouter, g); AskedAccounts(g', id) == n.r.accounts.Keys && AskedCards(g', id) == n.r.cards.Keys
  {
    assert n.mail[0] in n.mail;
  }

  lemma RouteDump(n: Net, ops: Submitted, g: Asked, id: u32)
    requires Wired(n) && Traced(n, ops) && Enabled(n, AtRouter) && n.mail[0].Execute? && n.mail[0].opId == id
    requires id in ops && ops[id].GetDatabase? && DumpOk(n, g, id) && AskedOk(n, ops, g, id) && Places(n, id, ops[id]) == 1
    ensures DumpOk(RouterStep(n), NextAsked(n, AtRouter, g), id)
  {
    hide Wired, Traced, AccountPart, CardPart, DumpSizes, RouterStep, NextAsked, AskedCards, AskedAccounts, AskedOk, Places;
    var n', g' := RouterStep(n), NextAsked(n, AtRouter, g);
    TracedHead(n, ops);
    RouteDumpSizes(n, ops, g, id);
    NewlyAsked(n, ops, g, id);
    forall a ensures AccountPart(n', id, a) == if a in AskedAccounts(g', id) then 1 else 0 {
      RouteDumpParts(n, ops, id, a, CardKey(0, 0));
    }
    forall k ensures CardPart(n', id, k) == if k in AskedCards(g', id) then 1 else 0 {
      RouteDumpParts(n, ops, id, 0, k);
    }
    assert DumpParts(n', g', id);
  }

  /** A dump that has just been routed has nothing on its lists. */
  lemma NewDump(r: Routers.Router, r': Routers.Router, id: u32, a: u64, k: CardKey)
    requires r'.events == r.events || exists e :: r'.events == r.events + [e] && (DumpOf(e, id) ==> e.result.snapshot.accounts == [] && e.result.snapshot.cards == [])
    requires id in r'.snapshots ==> r'.snapshots[id].accounts == [] && r'.snapshots[id].cards == []
    ensures AccountsKept(r', id, a) == 0 && CardsKept(r', id, k) == 0
    ensures Weigh(r'.events, AccountsDumped(id, a)) == Weigh(r.events, AccountsDumped(id, a))
    ensures Weigh(r'.events, CardsDumped(id, k)) == Weigh(r.events, CardsDumped(id, k))
  {
    if r'.events != r.events {
      var e :| r'.events == r.events + [e] && (DumpOf(e, id) ==> e.result.snapshot.accounts == [] && e.result.snapshot.cards == []);
      DumpWeights(r.events, e, id, a, k);
    }
  }

  lemma RouterStepDump(n: Net, ops: Submitted, g: Asked, id: u32)
    requires Wired(n) && Traced(n, ops) && Enabled(n, AtRouter) && Recognised(n, ops)
    requires id in ops && ops[id].GetDatabase? && DumpOk(n, g, id) && AskedOk(n, ops, g, id) && Places(n, id, ops[id]) == 1
    ensures DumpOk(RouterStep(n), NextAsked(n, AtRouter, g), id)
  {
    hide Routers.Dispatch, RouterStep, Traced, DumpOk, AskedOk, Places, Recognised, Wired;
    if !n.mail[0].Execute? {
      ReportDump(n, ops, g, id);
    } else if n.mail[0].opId == id {
      RouteDump(n, ops, g, id);
    } else {
      RouteOtherDump(n, ops, g, id);
    }
  }
}
