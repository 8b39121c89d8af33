/**
 Traffic between two restores: operations with distinct ids, at most one query or bill in
 flight per account, in any interleaving. Every step keeps each operation in one place.
 */
module Traffic {
  import opened Protocol
  import opened Messages
  import opened Counting
  import opened Network
  import opened Handshake
  import opened Traces
  import opened Tokens
  import opened Questions
  import opened Dumps
  import Cards
  import Accounts
  import Routers
  import Stages
  import Rounds
  import DumpSteps

  /** An id is new, the operation is not ReplaceDatabase, and earlier queries on the account were answered. */
  ghost predicate Admissible(n: Net, ops: Submitted, l: Label) {
    l.Submit? ==>
      && l.opId !in ops && !l.op.ReplaceDatabase?
      && (IsQuery(l.op) ==>
        forall j :: j in ops && QueryOn(ops[j], l.op.accountId) ==> Count(n.r.events, EventOf(j)) > 0)
  }

  function NextOps(ops: Submitted, l: Label): Submitted {
    if l.Submit? then ops[l.opId := l.op] else ops
  }

  ghost predicate FanOutOk(n: Net, ops: Submitted, g: Asked) {
    forall id :: id in ops ==>
      && AskedOk(n, ops, g, id)
      && (IsQuery(ops[id]) ==> QueryOk(n, ops, g, id))
      && (ops[id].GetDatabase? ==> DumpOk(n, g, id))
  }

  ghost predicate Accounted(n: Net, ops: Submitted, g: Asked) {
    && Safe(n) && Traced(n, ops) && Once(n, ops) && OnRecord(n, ops) && Solo(n, ops)
    && g.cards.Keys <= ops.Keys && g.accounts.Keys <= ops.Keys
    && FanOutOk(n, ops, g)
  }

  // ---- facts every step needs ----

  lemma StartsFree(n: Net, ops: Submitted, a: u64)
    requires Wired(n) && Traced(n, ops) && Once(n, ops) && Solo(n, ops) && Enabled(n, AtAccount(a))
    ensures Free(n, a)
  {
    hide Traced, Count;
    var m := n.r.accounts[a][0];
    if (m.StartAccountQuery? || m.StartAccountBill?) && n.accounts[a].pending.Some? {
      HeadOfAccount(n, ops, a);
      var i, j := m.opId, n.accounts[a].pending.value.opId;
      PendingIsTraced(n, ops, a);
      CountIn(AccountMail(n.r, a), StartOf(i), m);
    }
  }

  lemma PendingIsTraced(n: Net, ops: Submitted, a: u64)
    requires Traced(n, ops) && a in n.accounts && n.accounts[a].pending.Some?
    ensures var j := n.accounts[a].pending.value.opId; j in ops && QueryOn(ops[j], a)
  {
  }

  lemma EventsGrow(n: Net, l: Label)
    requires Wired(n) && Enabled(n, l)
    ensures n.r.events <= Next(n, l).r.events
  {
    match l {
      case AtRouter => HandleEventsGrow(n.r, n.mail[0]);
      case _ =>
    }
  }

  lemma HandleEventsGrow(r: Routers.Router, msg: RouterMsg)
    ensures r.events <= Routers.Handle(r, msg).events
  {
    if msg.Execute? {
      if msg.operation.ReplaceDatabase? {
        var r1 := r.(operations := r.operations[msg.opId := msg.operation]);
        ReplaceAccountsEvents(r1, msg.operation.snapshot.accounts);
        ReplaceCardsEvents(Routers.ReplaceAccounts(r1, msg.operation.snapshot.accounts), msg.operation.snapshot.cards);
      } else {
        DispatchReports(r, msg.opId, msg.operation);
      }
      hide Routers.Query;
    }
  }

  lemma {:induction false} ReplaceAccountsEvents(r: Routers.Router, snaps: seq<AccountSnapshot<real>>)
    ensures Routers.ReplaceAccounts(r, snaps).events == r.events
  {
    if snaps != [] {
      ReplaceAccountsEvents(r, snaps[..|snaps| - 1]);
    }
  }

  lemma {:induction false} ReplaceCardsEvents(r: Routers.Router, snaps: seq<CardSnapshot<real>>)
    ensures Routers.ReplaceCards(r, snaps).events == r.events
  {
    if snaps != [] {
      ReplaceCardsEvents(r, snaps[..|snaps| - 1]);
    }
  }

  lemma NextSolo(n: Net, ops: Submitted, l: Label)
    requires Wired(n) && Enabled(n, l) && Solo(n, ops) && Admissible(n, ops, l)
    ensures Solo(Next(n, l), NextOps(ops, l))
  {
    EventsGrow(n, l);
    var n', ops' := Next(n, l), NextOps(ops, l);
    hide Next;
    forall i ensures Count(n'.r.events, EventOf(i)) >= Count(n.r.events, EventOf(i)) {
      var more := n'.r.events[|n.r.events|..];
      assert n'.r.events == n.r.events + more;
      CountAppend(n.r.events, more, EventOf(i));
    }
  }

  lemma NextOnRecord(n: Net, ops: Submitted, l: Label)
    requires Wired(n) && Enabled(n, l) && Traced(n, ops) && OnRecord(n, ops) && Admissible(n, ops, l)
    ensures OnRecord(Next(n, l), NextOps(ops, l))
  {
    hide Traced, Routers.Dispatch;
    match l {
      case Submit(_, _) =>
      case AtRouter =>
        TracedHead(n, ops);
        if n.mail[0].Execute? {
          DispatchReports(n.r, n.mail[0].opId, n.mail[0].operation);
        } else {
          ReportsOnly(n.r, n.mail[0]);
        }
        hide Routers.Handle;
        assert forall m :: m in n.mail ==> m == n.mail[0] || m in n.mail[1..];
      case AtAccount(a) =>
      case AtCard(k) =>
    }
  }

  lemma RouterAskedOk(n: Net, ops: Submitted, g: Asked, id: u32)
    requires Wired(n) && Enabled(n, AtRouter) && Traced(n, ops) && Once(n, ops) && id in ops && AskedOk(n, ops, g, id)
    ensures AskedOk(RouterStep(n), ops, NextAsked(n, AtRouter, g), id)
  {
    hide Routers.Handle, Traced, Wired, Places;
    TracedHead(n, ops);
    var m := n.mail[0];
    if m.Execute? && m.opId == id {
      RoutedOnce(n, id, ops);
    }
  }

  /** The same operation is not waiting to be routed a second time. */
  lemma RoutedOnce(n: Net, id: u32, ops: Submitted)
    requires n.mail != [] && n.mail[0].Execute? && n.mail[0].opId == id && id in ops && Once(n, ops)
    ensures forall m :: m in n.mail[1..] ==> !(m.Execute? && m.opId == id)
  {
    assert Places(n, id, ops[id]) == 1;
    CountZero(n.mail[1..], About(id));
  }

  lemma NextAskedOk(n: Net, ops: Submitted, g: Asked, l: Label, id: u32)
    requires Wired(n) && Enabled(n, l) && !l.Submit? && Traced(n, ops) && Once(n, ops) && id in ops && AskedOk(n, ops, g, id)
    ensures AskedOk(Next(n, l), ops, NextAsked(n, l, g), id)
  {
    hide Traced, Accounts.Handle, Cards.Handle, Routers.Handle, Once;
    match l {
      case AtRouter =>
        RouterAskedOk(n, ops, g, id);
      case AtAccount(a) =>
        AccountSends(a, n.accounts[a], n.r.accounts[a][0]);
      case AtCard(k) =>
        CardKinds(k, n.cards[k], n.r.cards[k][0]);
    }
  }

  // ---- a delivery ----

  lemma DeliverFanOut(n: Net, ops: Submitted, g: Asked, l: Label, id: u32)
    requires Accounted(n, ops, g) && Enabled(n, l) && !l.Submit? && id in ops
    requires (l.AtRouter? ==> Recognised(n, ops)) && (l.AtAccount? ==> Expected(n, l.a) && Free(n, l.a))
    ensures IsQuery(ops[id]) ==> QueryOk(Next(n, l), ops, NextAsked(n, l, g), id)
    ensures ops[id].GetDatabase? ==> DumpOk(Next(n, l), NextAsked(n, l, g), id)
  {
    hide Safe, Traced, OnRecord, Solo, AskedOk, QueryOk, DumpOk, Places, Recognised, Expected, Free, CardStep, AccountStep, RouterStep;
    SafeIsWired(n);
    if IsQuery(ops[id]) {
      match l {
        case AtRouter => Rounds.RouterStepQuery(n, ops, g, id);
        case AtAccount(a) => Rounds.AccountStepQuery(n, ops, g, a, id);
        case AtCard(k) => Rounds.CardStepQuery(n, ops, g, k, id);
      }
    } else if ops[id].GetDatabase? {
      match l {
        case AtRouter => DumpSteps.RouterStepDump(n, ops, g, id);
        case AtAccount(a) => DumpSteps.AccountStepDump(n, g, a, id);
        case AtCard(k) => DumpSteps.CardStepDump(n, g, k, id);
      }
    }
  }

  lemma DeliverTraced(n: Net, ops: Submitted, l: Label)
    requires Safe(n) && Traced(n, ops) && Once(n, ops) && Enabled(n, l) && !l.Submit?
    requires (l.AtRouter? ==> Recognised(n, ops)) && (l.AtAccount? ==> Expected(n, l.a) && Free(n, l.a))
    ensures Traced(Next(n, l), ops) && Once(Next(n, l), ops)
  {
    hide Traced, Safe, Recognised, Expected, Free, CardStep, AccountStep, RouterStep, Places;
    SafeIsWired(n);
    match l {
      case AtRouter => RouterStepTraced(n, ops);
      case AtAccount(a) => AccountStepTraced(n, ops, a);
      case AtCard(k) => CardStepTraced(n, ops, k);
    }
    forall id | id in ops ensures Places(Next(n, l), id, ops[id]) == 1 {
      match l {
        case AtRouter => RouterStepPlaces(n, ops, id);
        case AtAccount(a) => AccountStepPlaces(n, ops, a, id);
        case AtCard(k) => CardStepPlaces(n, ops, k, id);
      }
    }
  }

  /** Nothing unexpected is ever read. */
  lemma NoSurprise(n: Net, ops: Submitted, g: Asked, l: Label)
    requires Accounted(n, ops, g) && Enabled(n, l)
    ensures l.AtRouter? ==> Recognised(n, ops)
    ensures l.AtAccount? ==> Wired(n) && Expected(n, l.a) && Free(n, l.a)
  {
    hide Safe, Traced, Once, OnRecord, Solo, AskedOk, QueryOk, DumpOk, Recognised, Expected, Free;
    SafeIsWired(n);
    match l {
      case AtRouter => MailRecognised(n, ops, g);
      case AtAccount(a) =>
        RepliesExpected(n, ops, g, a);
        StartsFree(n, ops, a);
      case _ =>
    }
  }

  lemma NextAskedKeys(n: Net, ops: Submitted, g: Asked, l: Label)
    requires Traced(n, ops) && Enabled(n, l) && g.cards.Keys <= ops.Keys && g.accounts.Keys <= ops.Keys
    ensures var g' := NextAsked(n, l, g); g'.cards.Keys <= ops.Keys && g'.accounts.Keys <= ops.Keys
  {
    if l.AtRouter? {
      TracedHead(n, ops);
      hide Traced;
    }
  }

  lemma DeliverAccounted(n: Net, ops: Submitted, g: Asked, l: Label)
    requires Accounted(n, ops, g) && Enabled(n, l) && !l.Submit? && Wired(n)
    ensures Accounted(Next(n, l), ops, NextAsked(n, l, g))
  {
    hide Safe, Traced, Once, OnRecord, Solo, AskedOk, QueryOk, DumpOk, Recognised, Expected, Free, Next, NextAsked;
    NoSurprise(n, ops, g, l);
    NextSafe(n, l);
    DeliverTraced(n, ops, l);
    NextOnRecord(n, ops, l);
    NextSolo(n, ops, l);
    NextAskedKeys(n, ops, g, l);
    forall id | id in ops
      ensures AskedOk(Next(n, l), ops, NextAsked(n, l, g), id)
      ensures IsQuery(ops[id]) ==> QueryOk(Next(n, l), ops, NextAsked(n, l, g), id)
      ensures ops[id].GetDatabase? ==> DumpOk(Next(n, l), NextAsked(n, l, g), id)
    {
      NextAskedOk(n, ops, g, l, id);
      DeliverFanOut(n, ops, g, l, id);
    }
  }

  // ---- a submission ----

  /** An id that was never submitted is nowhere. */
  lemma FreshMail(n: Net, ops: Submitted, id: u32)
    requires Wired(n) && Traced(n, ops) && id !in ops
    ensures forall m :: m in n.mail ==> m.RouterDebug? || m.opId != id
    ensures forall e :: e in n.r.events ==> !EventOf(id)(e)
    ensures id !in n.r.snapshots && forall a :: !Holds(PendingAt(n, a), id)
  {
    forall m | m in n.mail ensures m.RouterDebug? || m.opId != id {
      assert RouterTrace(ops)(m);
    }
    forall e | e in n.r.events ensures !EventOf(id)(e) {
      assert EventTrace(ops, e);
    }
  }

  lemma FreshAccount(n: Net, ops: Submitted, id: u32, a: u64)
    requires Wired(n) && Traced(n, ops) && id !in ops
    ensures forall m :: m in AccountMail(n.r, a) ==>
      !LimitMsg(id)(m) && !StartOf(id)(m) && !AccountSnapOf(id)(m) && (m.CardQueryReply? ==> m.opId != id)
  {
    forall m | m in AccountMail(n.r, a)
      ensures !LimitMsg(id)(m) && !StartOf(id)(m) && !AccountSnapOf(id)(m) && (m.CardQueryReply? ==> m.opId != id)
    {
      assert AccountTrace(ops)(a, m);
    }
  }

  lemma FreshCard(n: Net, ops: Submitted, id: u32, k: CardKey)
    requires Wired(n) && Traced(n, ops) && id !in ops
    ensures forall m :: m in CardMail(n.r, k) ==> !TaskMsg(id)(m) && !QueryOf(id)(m) && !CardSnapOf(id)(m)
    ensures id !in Owed(CardAt(n, k))
  {
    forall m | m in CardMail(n.r, k) ensures !TaskMsg(id)(m) && !QueryOf(id)(m) && !CardSnapOf(id)(m) {
      assert CardTrace(ops)(k, m);
    }
    var c := CardAt(n, k);
    forall x | x in Owed(c) ensures x != id {
      if c.current.None? || x != TaskId(c.current.value) {
        var i :| 0 <= i < |QueueIds(c.queue)| && QueueIds(c.queue)[i] == x;
        assert c.queue[i] in c.queue;
      }
    }
  }

  lemma FreshPlaces(n: Net, ops: Submitted, id: u32, op: Op)
    requires Wired(n) && Traced(n, ops) && id !in ops
    ensures Places(n, id, op) == 0
  {
    hide Traced, AccountMail, CardMail, CardAt, PendingAt, Owed;
    FreshMail(n, ops, id);
    CountZero(n.mail, About(id));
    CountZero(n.r.events, EventOf(id));
    var a := if op.LimitAccount? || IsQuery(op) then op.accountId else 0;
    var k := if op.Charge? || op.LimitCard? then CardKey(op.accountId, op.cardId) else CardKey(0, 0);
    FreshAccount(n, ops, id, a);
    FreshCard(n, ops, id, k);
    CountZero(AccountMail(n.r, a), LimitMsg(id));
    CountZero(AccountMail(n.r, a), StartOf(id));
    CountZero(CardMail(n.r, k), TaskMsg(id));
    CountZero(Owed(CardAt(n, k)), IsId(id));
  }

  lemma FreshPart(n: Net, ops: Submitted, id: u32, k: CardKey)
    requires Wired(n) && Traced(n, ops) && id !in ops
    ensures Part(n, id, k) == 0 && CardPart(n, id, k) == 0
  {
    hide Traced, AccountMail, CardMail, CardAt, PendingAt, Owed;
    FreshMail(n, ops, id);
    FreshAccount(n, ops, id, k.account);
    FreshCard(n, ops, id, k);
    CountZero(CardMail(n.r, k), QueryOf(id));
    CountZero(CardMail(n.r, k), CardSnapOf(id));
    CountZero(AccountMail(n.r, k.account), ReplyFrom(id, k.card));
    CountZero(n.mail, CardSnapFor(id, k));
    WeighZero(n.mail, SpentMail(id, k.card));
    WeighZero(n.r.events, SpentEvent(id, k.card));
    WeighZero(n.r.events, CardsDumped(id, k));
  }

  lemma FreshAccountPart(n: Net, ops: Submitted, id: u32, a: u64)
    requires Wired(n) && Traced(n, ops) && id !in ops
    ensures AccountPart(n, id, a) == 0
  {
    hide Traced, AccountMail, CardMail, CardAt, PendingAt, Owed;
    FreshMail(n, ops, id);
    FreshAccount(n, ops, id, a);
    CountZero(AccountMail(n.r, a), AccountSnapOf(id));
    CountZero(n.mail, AccountSnapFor(id, a));
    WeighZero(n.r.events, AccountsDumped(id, a));
  }

  /** Submitting an operation puts one message in the router's mailbox, and changes no part of any other. */
  lemma SubmitParts(n: Net, id0: u32, op0: Op, id: u32, k: CardKey, a: u64)
    requires Wired(n)
    ensures var n' := Next(n, Submit(id0, op0));
      && Part(n', id, k) == Part(n, id, k) && CardPart(n', id, k) == CardPart(n, id, k) && AccountPart(n', id, a) == AccountPart(n, id, a)
  {
    var m := Execute(id0, op0);
    CountNone(n.mail, [m], CardSnapFor(id, k));
    CountNone(n.mail, [m], AccountSnapFor(id, a));
    WeighAppend(n.mail, [m], SpentMail(id, k.card));
    WeighOne(m, SpentMail(id, k.card));
  }

  lemma SubmitPlaces(n: Net, id0: u32, op0: Op, id: u32, op: Op)
    requires Wired(n)
    ensures Places(Next(n, Submit(id0, op0)), id, op) == Places(n, id, op) + if id == id0 then 1 else 0
  {
    hide CardHeld, QueryHeld;
    var m, n' := Execute(id0, op0), Next(n, Submit(id0, op0));
    CountAppend(n.mail, [m], About(id));
    CountOne(m, About(id));
    assert Held(n', id, op) == Held(n, id, op) by {
      SubmitHeld(n, id0, op0, id, op);
    }
  }

  lemma SubmitHeld(n: Net, id0: u32, op0: Op, id: u32, op: Op)
    requires Wired(n)
    ensures Held(Next(n, Submit(id0, op0)), id, op) == Held(n, id, op)
  {
  }

  lemma FreshSizes(n: Net, ops: Submitted, g: Asked, l: Label, a: u64)
    requires Wired(n) && Traced(n, ops) && l.Submit? && l.opId !in ops
    ensures SizesOk(Next(n, l), g, l.opId, a) && InOrder(AccountMail(Next(n, l).r, a), l.opId)
  {
    hide Traced;
    FreshMail(n, ops, l.opId);
    FreshAccount(n, ops, l.opId, a);
    assert PendingAt(Next(n, l), a) == PendingAt(n, a);
  }

  lemma SubmitFanOut(n: Net, ops: Submitted, g: Asked, l: Label, id: u32)
    requires Accounted(n, ops, g) && l.Submit? && Admissible(n, ops, l) && Wired(n) && id in NextOps(ops, l)
    ensures var n', ops' := Next(n, l), NextOps(ops, l);
      && AskedOk(n', ops', g, id)
      && (IsQuery(ops'[id]) ==> QueryOk(n', ops', g, id))
      && (ops'[id].GetDatabase? ==> DumpOk(n', g, id))
  {
    hide Safe, Traced, Once, OnRecord, Solo, Part, CardPart, AccountPart;
    var n', ops' := Next(n, l), NextOps(ops, l);
    forall k: CardKey ensures Part(n', id, k) == Part(n, id, k) && CardPart(n', id, k) == CardPart(n, id, k) {
      SubmitParts(n, l.opId, l.op, id, k, 0);
    }
    forall a ensures AccountPart(n', id, a) == AccountPart(n, id, a) {
      SubmitParts(n, l.opId, l.op, id, CardKey(0, 0), a);
    }
    if id == l.opId {
      FreshMail(n, ops, id);
      forall k: CardKey ensures Part(n, id, k) == 0 && CardPart(n, id, k) == 0 {
        FreshPart(n, ops, id, k);
      }
      forall a ensures AccountPart(n, id, a) == 0 {
        FreshAccountPart(n, ops, id, a);
      }
      assert AskedCards(g, id) == {} && AskedAccounts(g, id) == {};
      if IsQuery(l.op) {
        FreshSizes(n, ops, g, l, l.op.accountId);
        assert PartsOk(n', g, id, l.op.accountId);
      }
    } else {
      assert AskedOk(n, ops, g, id);
    }
  }

  lemma SubmitAccounted(n: Net, ops: Submitted, g: Asked, l: Label)
    requires Accounted(n, ops, g) && l.Submit? && Admissible(n, ops, l) && Wired(n)
    ensures Accounted(Next(n, l), NextOps(ops, l), g)
  {
    hide Safe, Traced, OnRecord, Solo, AskedOk, QueryOk, DumpOk, Next, Places;
    var n', ops' := Next(n, l), NextOps(ops, l);
    NextSafe(n, l);
    SubmitKeepsTraced(n, ops, l.opId, l.op);
    NextOnRecord(n, ops, l);
    NextSolo(n, ops, l);
    forall id | id in ops' ensures Places(n', id, ops'[id]) == 1 {
      SubmitPlaces(n, l.opId, l.op, id, ops'[id]);
      if id == l.opId {
        FreshPlaces(n, ops, id, l.op);
      }
    }
    forall id | id in ops'
      ensures AskedOk(n', ops', g, id)
      ensures IsQuery(ops'[id]) ==> QueryOk(n', ops', g, id)
      ensures ops'[id].GetDatabase? ==> DumpOk(n', g, id)
    {
      SubmitFanOut(n, ops, g, l, id);
    }
  }

  // ---- a start ----

  /** An idle network with no events yet accounts for nothing submitted. */
  lemma IdleAccounted(n: Net)
    requires Stages.Idle(n) && n.r.events == []
    ensures Accounted(n, map[], NOBODY)
  {
    hide Safe;
    IdleIsSafe(n);
  }

  lemma IdleIsSafe(n: Net)
    requires Stages.Idle(n)
    ensures Safe(n)
  {
    hide CardOk;
    forall k | k in n.cards ensures CardOk(k, n.cards[k], n.r.cards[k], n.r.accounts[k.account]) {
      IdleCardOk(n, k);
    }
  }

  lemma IdleCardOk(n: Net, k: CardKey)
    requires Stages.Idle(n) && k in n.cards
    ensures CardOk(k, n.cards[k], n.r.cards[k], n.r.accounts[k.account])
  {
  }

  // ---- when everything is delivered ----

  lemma DrainedCard(n: Net, k: CardKey)
    requires Safe(n) && forall l :: Enabled(n, l) ==> l.Submit?
    ensures CardMail(n.r, k) == [] && Owed(CardAt(n, k)) == []
  {
    if k in n.cards {
      assert !Enabled(n, AtCard(k)) && !Enabled(n, AtAccount(k.account));
      assert CardOk(k, n.cards[k], n.r.cards[k], n.r.accounts[k.account]);
    }
  }

  lemma DrainedAccount(n: Net, a: u64)
    requires Wired(n) && forall l :: Enabled(n, l) ==> l.Submit?
    ensures AccountMail(n.r, a) == [] && n.mail == []
  {
    assert !Enabled(n, AtAccount(a)) && !Enabled(n, AtRouter);
  }

  /** A query cannot wait when nothing is left to deliver. */
  lemma DrainedQuery(n: Net, ops: Submitted, g: Asked, id: u32)
    requires Safe(n) && (forall l :: Enabled(n, l) ==> l.Submit?)
    requires id in ops && IsQuery(ops[id]) && QueryOk(n, ops, g, id) && AskedOk(n, ops, g, id) && Places(n, id, ops[id]) == 1
    ensures Count(n.r.events, EventOf(id)) == 1
  {
    hide Safe, QueryOk, AskedOk, About, StartOf, AccountMail, PendingAt;
    SafeIsWired(n);
    var a := ops[id].accountId;
    DrainedAccount(n, a);
    CountNothing(About(id));
    CountNothing(StartOf(id));
    if Holds(PendingAt(n, a), id) {
      PendingIsAlive(n, ops, g, id);
    }
  }

  /** Were everything delivered, all cards of a pending query would have answered, and it would not be pending. */
  lemma PendingIsAlive(n: Net, ops: Submitted, g: Asked, id: u32)
    requires Safe(n) && id in ops && IsQuery(ops[id]) && QueryOk(n, ops, g, id) && AskedOk(n, ops, g, id)
    requires Holds(PendingAt(n, ops[id].accountId), id) && Places(n, id, ops[id]) == 1
    ensures exists l :: Enabled(n, l) && !l.Submit?
  {
    hide Safe, About, StartOf, AccountMail, CardMail, PendingAt, Part;
    if forall l :: Enabled(n, l) ==> l.Submit? {
      SafeIsWired(n);
      var a := ops[id].accountId;
      var p := PendingAt(n, a).value;
      forall c
        ensures Count(p.perCardSpent, PairFor(c)) == if CardKey(a, c) in AskedCards(g, id) then 1 else 0
      {
        AllCollected(n, id, CardKey(a, c));
        assert Part(n, id, CardKey(a, c)) == if CardKey(a, c) in AskedCards(g, id) then 1 else 0;
      }
      SeenSize(p.perCardSpent, a);
      AllSeen(p.perCardSpent, AskedCards(g, id), a);
    }
  }

  /** With nothing under way and no event, a card's answer can only be on the pending list. */
  lemma AllCollected(n: Net, id: u32, k: CardKey)
    requires Safe(n) && Holds(PendingAt(n, k.account), id) && Count(n.r.events, EventOf(id)) == 0
    requires forall l :: Enabled(n, l) ==> l.Submit?
    ensures Part(n, id, k) == Count(PendingAt(n, k.account).value.perCardSpent, PairFor(k.card))
  {
    hide Safe, Owed, PendingAt, AccountMail, CardMail;
    SafeIsWired(n);
    DrainedCard(n, k);
    DrainedAccount(n, k.account);
    CountZero(n.r.events, EventOf(id));
    WeighZero(n.r.events, SpentEvent(id, k.card));
  }

  lemma AllSeen(spent: seq<(u64, real)>, asked: set<CardKey>, a: u64)
    requires forall k: CardKey :: k in asked ==> k.account == a && Count(spent, PairFor(k.card)) > 0
    ensures |asked| <= |set p | p in spent :: CardKey(a, p.0)|
  {
    var seen := set p | p in spent :: CardKey(a, p.0);
    assert asked <= seen by {
      forall k | k in asked ensures k in seen {
        var p := Witness(spent, PairFor(k.card));
        assert k == CardKey(a, p.0);
      }
    }
    assert |seen| == |asked| + |seen - asked|;
  }

  /** Nor can a dump. */
  lemma DrainedDump(n: Net, ops: Submitted, g: Asked, id: u32)
    requires Safe(n) && (forall l :: Enabled(n, l) ==> l.Submit?)
    requires id in ops && ops[id].GetDatabase? && DumpOk(n, g, id) && Places(n, id, ops[id]) == 1
    ensures Count(n.r.events, EventOf(id)) == 1
  {
    hide Safe, DumpOk, About, Count;
    SafeIsWired(n);
    DrainedAccount(n, 0);
    CountNothing(About(id));
    if id in n.r.snapshots {
      PendingDumpIsAlive(n, g, id);
    }
  }

  /** Were everything delivered, everybody would have answered a pending dump, and it would not be pending. */
  lemma PendingDumpIsAlive(n: Net, g: Asked, id: u32)
    requires Safe(n) && DumpOk(n, g, id) && id in n.r.snapshots && Count(n.r.events, EventOf(id)) == 0
    ensures exists l :: Enabled(n, l) && !l.Submit?
  {
    hide Safe, AccountPart, CardPart, Count;
    if forall l :: Enabled(n, l) ==> l.Submit? {
      var p := n.r.snapshots[id];
      forall a ensures Count(p.accounts, Keyed(AccountOf, a)) == if a in AskedAccounts(g, id) then 1 else 0 {
        AllDumped(n, id, a, CardKey(a, 0));
        assert AccountPart(n, id, a) == if a in AskedAccounts(g, id) then 1 else 0;
      }
      forall k ensures Count(p.cards, Keyed(CardOf, k)) == if k in AskedCards(g, id) then 1 else 0 {
        AllDumped(n, id, 0, k);
        assert CardPart(n, id, k) == if k in AskedCards(g, id) then 1 else 0;
      }
      NamesAll(p.accounts, AccountOf, AskedAccounts(g, id));
      NamesAll(p.cards, CardOf, AskedCards(g, id));
    }
  }

  lemma AllDumped(n: Net, id: u32, a: u64, k: CardKey)
    requires Safe(n) && id in n.r.snapshots && Count(n.r.events, EventOf(id)) == 0
    requires forall l :: Enabled(n, l) ==> l.Submit?
    ensures AccountPart(n, id, a) == Count(n.r.snapshots[id].accounts, Keyed(AccountOf, a))
    ensures CardPart(n, id, k) == Count(n.r.snapshots[id].cards, Keyed(CardOf, k))
  {
    hide Safe, Owed;
    SafeIsWired(n);
    DrainedAccount(n, a);
    DrainedCard(n, k);
    CountZero(n.r.events, EventOf(id));
    WeighZero(n.r.events, AccountsDumped(id, a));
    WeighZero(n.r.events, CardsDumped(id, k));
  }

  lemma NamesAll<T(!new), K(!new)>(xs: seq<T>, key: T -> K, asked: set<K>)
    requires forall k :: Count(xs, Keyed(key, k)) == if k in asked then 1 else 0
    ensures |xs| == |asked|
  {
    AllNamed(xs, key, asked);
    NamedSize(xs, key);
    var seen := set x | x in xs :: key(x);
    assert asked <= seen by {
      forall k | k in asked ensures k in seen {
        var x := Witness(xs, Keyed(key, k));
      }
    }
    assert |seen| == |asked| + |seen - asked|;
  }

  lemma DrainedUpdate(n: Net, ops: Submitted, id: u32)
    requires Safe(n) && (forall l :: Enabled(n, l) ==> l.Submit?)
    requires id in ops && Routers.IsUpdate(ops[id]) && Places(n, id, ops[id]) == 1
    ensures Count(n.r.events, EventOf(id)) == 1
  {
    hide AccountMail, CardMail, Owed, Safe, CardAt;
    var op := ops[id];
    SafeIsWired(n);
    DrainedAccount(n, op.accountId);
    if op.Charge? || op.LimitCard? {
      DrainedCard(n, CardKey(op.accountId, op.cardId));
    }
  }

  /** The list of a query's event names each card that the account had when it was routed, once. */
  ghost predicate NamesEachCard(e: ActorEvent, asked: set<CardKey>)
    requires e.OperationResultEvent? && e.result.AccountQueryResult?
  {
    && |e.result.perCardSpent| == |asked|
    && forall k :: k in asked ==> k.account == e.result.accountId && Count(e.result.perCardSpent, PairFor(k.card)) == 1
  }

  /** The lists of a dump name each account and each card that existed when it was routed, once, and no others. */
  ghost predicate NamesEverything(e: ActorEvent, accounts: set<u64>, cards: set<CardKey>)
    requires e.OperationResultEvent? && e.result.DatabaseSnapshotResult?
  {
    && (forall a :: Count(e.result.snapshot.accounts, Keyed(AccountOf, a)) == if a in accounts then 1 else 0)
    && (forall k :: Count(e.result.snapshot.cards, Keyed(CardOf, k)) == if k in cards then 1 else 0)
  }

  /** An event names every actor asked. */
  ghost predicate Complete(e: ActorEvent, g: Asked) {
    e.OperationResultEvent? ==>
      && (e.result.AccountQueryResult? ==> NamesEachCard(e, AskedCards(g, e.opId)))
      && (e.result.DatabaseSnapshotResult? ==> NamesEverything(e, AskedAccounts(g, e.opId), AskedCards(g, e.opId)))
  }

  /** What the books say of the events so far. */
  lemma EventsOf(n: Net, ops: Submitted, g: Asked)
    requires Accounted(n, ops, g)
    ensures forall e :: e in n.r.events ==> EventTrace(ops, e) && Complete(e, g)
    ensures forall id :: id in ops ==> Count(n.r.events, EventOf(id)) <= 1
    ensures (forall l :: Enabled(n, l) ==> l.Submit?) ==> forall id :: id in ops ==> Count(n.r.events, EventOf(id)) == 1
  {
    hide Safe, AskedOk, QueryOk, DumpOk, MailTraced, CardsTraced, PendingTraced;
    forall e | e in n.r.events && e.OperationResultEvent? && e.result.AccountQueryResult?
      ensures NamesEachCard(e, AskedCards(g, e.opId))
    {
      EventNamesCards(n, ops, g, e);
    }
    forall e | e in n.r.events && e.OperationResultEvent? && e.result.DatabaseSnapshotResult?
      ensures NamesEverything(e, AskedAccounts(g, e.opId), AskedCards(g, e.opId))
    {
      EventNamesAll(n, ops, g, e);
    }
    if forall l :: Enabled(n, l) ==> l.Submit? {
      forall id | id in ops ensures Count(n.r.events, EventOf(id)) == 1 {
        DrainedAnswered(n, ops, g, id);
      }
    }
    AtMostOnce(n, ops);
  }

  lemma AtMostOnce(n: Net, ops: Submitted)
    requires Once(n, ops)
    ensures forall id :: id in ops ==> Count(n.r.events, EventOf(id)) <= 1
  {
    forall id | id in ops ensures Count(n.r.events, EventOf(id)) <= 1 {
      assert Places(n, id, ops[id]) == 1;
    }
  }

  lemma EventNamesCards(n: Net, ops: Submitted, g: Asked, e: ActorEvent)
    requires EventsTraced(n, ops) && FanOutOk(n, ops, g)
    requires e in n.r.events && e.OperationResultEvent? && e.result.AccountQueryResult?
    ensures NamesEachCard(e, AskedCards(g, e.opId))
  {
    assert EventTrace(ops, e);
    AnsweredLeavesNothing(n, ops, g, e.opId, e);
    assert AskedOk(n, ops, g, e.opId);
  }

  lemma EventNamesAll(n: Net, ops: Submitted, g: Asked, e: ActorEvent)
    requires EventsTraced(n, ops) && FanOutOk(n, ops, g)
    requires e in n.r.events && e.OperationResultEvent? && e.result.DatabaseSnapshotResult?
    ensures NamesEverything(e, AskedAccounts(g, e.opId), AskedCards(g, e.opId))
  {
    assert EventTrace(ops, e);
    DumpedLeavesNothing(n, g, e.opId, e);
  }

  lemma DrainedAnswered(n: Net, ops: Submitted, g: Asked, id: u32)
    requires Accounted(n, ops, g) && id in ops && forall l :: Enabled(n, l) ==> l.Submit?
    ensures Count(n.r.events, EventOf(id)) == 1
  {
    hide Safe, Traced, OnRecord, Solo, AskedOk, QueryOk, DumpOk;
    assert Places(n, id, ops[id]) == 1;
    if IsQuery(ops[id]) {
      DrainedQuery(n, ops, g, id);
    } else if ops[id].GetDatabase? {
      DrainedDump(n, ops, g, id);
    } else if Routers.IsUpdate(ops[id]) {
      DrainedUpdate(n, ops, id);
    } else {
      DrainedAccountOf(n);
    }
  }

  lemma DrainedAccountOf(n: Net)
    requires Safe(n) && forall l :: Enabled(n, l) ==> l.Submit?
    ensures n.mail == []
  {
    DrainedAccount(n, 0);
  }

  // ---- when everything is answered ----

  /** Nothing of an answered operation is left anywhere. */
  lemma Gone(n: Net, ops: Submitted, g: Asked, id: u32)
    requires Accounted(n, ops, g) && id in ops && Count(n.r.events, EventOf(id)) > 0
    ensures Count(n.mail, About(id)) == 0 && Held(n, id, ops[id]) == 0
    ensures IsQuery(ops[id]) ==> forall k: CardKey :: k.account == ops[id].accountId ==>
      Count(CardMail(n.r, k), QueryOf(id)) == 0 && Count(AccountMail(n.r, k.account), ReplyFrom(id, k.card)) == 0
    ensures ops[id].GetDatabase? ==>
      && (forall a :: Count(n.mail, AccountSnapFor(id, a)) == 0 && Count(AccountMail(n.r, a), AccountSnapOf(id)) == 0)
      && (forall k :: Count(n.mail, CardSnapFor(id, k)) == 0 && Count(CardMail(n.r, k), CardSnapOf(id)) == 0)
  {
    hide Safe, AskedOk, QueryOk, DumpOk, Held, MailTraced, CardsTraced, PendingTraced, OnRecord, Solo;
    assert Places(n, id, ops[id]) == 1 && AskedOk(n, ops, g, id);
    var e := Witness(n.r.events, EventOf(id));
    if IsQuery(ops[id]) {
      AnswerOfQuery(n, ops, id, e);
      AnsweredLeavesNothing(n, ops, g, id, e);
    } else if ops[id].GetDatabase? {
      AnswerOfDump(n, ops, id, e);
      DumpedLeavesNothing(n, g, id, e);
    }
  }

  ghost predicate AllAnswered(n: Net, ops: Submitted) {
    forall id :: id in ops ==> Count(n.r.events, EventOf(id)) > 0
  }

  lemma NoMailLeft(n: Net, ops: Submitted, g: Asked)
    requires Accounted(n, ops, g) && AllAnswered(n, ops)
    ensures n.mail == []
  {
    hide Safe, FanOutOk, CardsTraced, PendingTraced, EventsTraced, OnRecord, Solo, Once, Held, Count;
    if n.mail != [] {
      var m := n.mail[0];
      assert RouterTrace(ops)(m);
      Gone(n, ops, g, m.opId);
      if m.AccountSnapshotCollected? {
        CountIn(n.mail, AccountSnapFor(m.opId, AccountOf(m.account)), m);
      } else if m.CardSnapshotCollected? {
        CountIn(n.mail, CardSnapFor(m.opId, CardOf(m.card)), m);
      } else {
        CountIn(n.mail, About(m.opId), m);
      }
    }
  }

  lemma CardLeft(n: Net, ops: Submitted, g: Asked, k: CardKey)
    requires Accounted(n, ops, g) && AllAnswered(n, ops) && k in n.cards
    ensures n.cards[k].current.None?
  {
    hide Safe, FanOutOk, MailTraced, PendingTraced, EventsTraced, OnRecord, Solo, Once;
    if n.cards[k].current.Some? {
      assert CardTraced(ops, k, n.cards[k]);
      var id := TaskId(n.cards[k].current.value);
      Gone(n, ops, g, id);
      CountIn(Owed(CardAt(n, k)), IsId(id), id);
    }
  }

  /** An answered query leaves neither question nor answer at any card of its account. */
  lemma AskedGone(n: Net, ops: Submitted, g: Asked, id: u32, k: CardKey)
    requires Accounted(n, ops, g) && AllAnswered(n, ops) && id in ops && QueryOn(ops[id], k.account)
    ensures Count(CardMail(n.r, k), QueryOf(id)) == 0 && Count(AccountMail(n.r, k.account), ReplyFrom(id, k.card)) == 0
  {
    hide Accounted, Count, CardMail, AccountMail;
    Gone(n, ops, g, id);
  }

  lemma CardMailLeft(n: Net, ops: Submitted, g: Asked, k: CardKey)
    requires Accounted(n, ops, g) && AllAnswered(n, ops) && k in n.cards
    ensures k in n.r.cards && n.r.cards[k] == [] && n.cards[k].queue == []
    ensures k.account in n.r.accounts && Count(n.r.accounts[k.account], IsApply(k.card)) == 0
  {
    hide FanOutOk, CardsTraced, PendingTraced, EventsTraced, OnRecord, Solo, Once, CleanMail, NoReplace, Count;
    CardLeft(n, ops, g, k);
    assert CardOk(k, n.cards[k], n.r.cards[k], n.r.accounts[k.account]);
    var mail := n.r.cards[k];
    if mail != [] {
      var m := mail[0];
      assert m in mail && CardTrace(ops)(k, m);
      hide Safe, CardOk;
      assert CardMail(n.r, k) == mail;
      if m.AccountChargeReply? {
        CountIn(mail, IsReply(), m);
      } else if m.QueryCardState? {
        AskedGone(n, ops, g, m.opId, k);
        CountIn(mail, QueryOf(m.opId), m);
      } else {
        Gone(n, ops, g, m.opId);
        if m.ExecuteCharge? || m.ExecuteLimitChange? {
          CountIn(mail, TaskMsg(m.opId), m);
        } else {
          CountIn(mail, CardSnapOf(m.opId), m);
        }
      }
    }
  }

  lemma AccountLeft(n: Net, ops: Submitted, g: Asked, a: u64)
    requires Accounted(n, ops, g) && AllAnswered(n, ops) && a in n.accounts
    ensures a in n.r.accounts && n.r.accounts[a] == [] && n.accounts[a].pending.None?
  {
    hide FanOutOk, CardsTraced, EventsTraced, OnRecord, Solo, Once, CardOk, NoReplace, Count;
    if n.accounts[a].pending.Some? {
      Gone(n, ops, g, n.accounts[a].pending.value.opId);
    }
    var mail := n.r.accounts[a];
    if mail != [] {
      var m := mail[0];
      assert m in mail && AccountTrace(ops)(a, m);
      assert AccountMail(n.r, a) == mail;
      if m.ApplyChargeFromCard? {
        CardMailLeft(n, ops, g, CardKey(a, m.cardId));
        CountIn(mail, IsApply(m.cardId), m);
      } else if m.CardQueryReply? {
        AskedGone(n, ops, g, m.opId, CardKey(a, m.cardId));
        CountIn(mail, ReplyFrom(m.opId, m.cardId), m);
      } else {
        Gone(n, ops, g, m.opId);
        if m.ApplyAccountLimit? {
          CountIn(mail, LimitMsg(m.opId), m);
        } else if m.AccountGetSnapshot? {
          CountIn(mail, AccountSnapOf(m.opId), m);
        } else {
          CountIn(mail, StartOf(m.opId), m);
        }
      }
    }
  }

  /** Once every operation is answered, nothing is under way: a caller can tell from the events that the network is idle. */
  lemma AnsweredIsIdle(n: Net, ops: Submitted, g: Asked)
    requires Accounted(n, ops, g) && AllAnswered(n, ops)
    ensures Stages.Idle(n)
  {
    hide FanOutOk, MailTraced, CardsTraced, EventsTraced, OnRecord, Solo, Once, CardOk, CleanMail, NoReplace;
    NoMailLeft(n, ops, g);
    forall id | id in n.r.snapshots ensures false {
      Gone(n, ops, g, id);
    }
    assert n.r.snapshots == map[];
    forall a | a in n.accounts ensures n.r.accounts[a] == [] && n.accounts[a].pending.None? {
      AccountLeft(n, ops, g, a);
    }
    forall k | k in n.cards ensures n.r.cards[k] == [] && n.cards[k].current.None? && n.cards[k].queue == [] {
      CardLeft(n, ops, g, k);
      CardMailLeft(n, ops, g, k);
    }
  }
}
