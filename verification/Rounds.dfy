/** What `Questions` says of a query is kept by every step. */
module Rounds {
  import opened Wrappers
  import opened Protocol
  import opened Messages
  import opened Counting
  import opened Network
  import opened Handshake
  import opened Traces
  import opened Tokens
  import opened Questions
  import Cards
  import Accounts
  import Routers

  // ---- a card's step ----

  /** A card answers the question it reads, and nothing else. */
  lemma CardReplies(ops: Submitted, k: CardKey, c: Cards.Card, m: CardMsg, id: u32, card: u64)
    requires CardTrace(ops)(k, m)
    ensures var e := Cards.Handle(k, c, m);
      && Count(e.toAccount, ReplyFrom(id, card)) == (if QueryOf(id)(m) && card == k.card then 1 else 0)
      && Weigh(e.toRouter, SpentMail(id, card)) == 0
      && (forall r :: r in e.toRouter ==> !r.AccountQueryCompleted? && !r.Execute?)
      && (forall r :: r in e.toAccount ==> !StartOf(id)(r))
  {
    var e := Cards.Handle(k, c, m);
    CardKinds(k, c, m);
    WeighZero(e.toRouter, SpentMail(id, card));
    if m.QueryCardState? {
      CountOne(CardQueryReply(m.opId, k.card, c.consumed), ReplyFrom(id, card));
    } else {
      OnlyApplies(k, c, m);
      CountZero(e.toAccount, ReplyFrom(id, card));
    }
  }

  lemma OnlyApplies(k: CardKey, c: Cards.Card, m: CardMsg)
    requires !m.QueryCardState?
    ensures forall r :: r in Cards.Handle(k, c, m).toAccount ==> r.ApplyChargeFromCard?
  {
    match m {
      case ExecuteCharge(opId, _, _, amount, fromOffline) =>
        StartKinds(k, c.(current := Some(Cards.ChargeTask(Cards.ChargeOp(opId, amount, fromOffline)))));
      case ExecuteLimitChange(opId, newLimit) =>
        StartKinds(k, c.(current := Some(Cards.LimitTask(opId, newLimit))));
      case AccountChargeReply(opId, success, error) =>
        FinishKinds(k, c, opId, success, error);
        if c.current.Some? && c.current.value.ChargeTask? {
          FinishKinds(k, c.(consumed := c.consumed + c.current.value.op.amount), opId, success, error);
        }
      case _ =>
    }
  }

  lemma CardStepPart(n: Net, ops: Submitted, k0: CardKey, id: u32, k: CardKey)
    requires Wired(n) && Enabled(n, AtCard(k0)) && CardTrace(ops)(k0, n.r.cards[k0][0])
    ensures Part(CardStep(n, k0), id, k) == Part(n, id, k)
  {
    hide Cards.Handle, CardStep, AccountMail, CardMail, CardAt, PendingAt;
    var n', m := CardStep(n, k0), n.r.cards[k0][0];
    var e := Cards.Handle(k0, n.cards[k0], m);
    CardStepOwn(n, k0);
    CardStepOther(n, k0, k, k.account);
    CardReplies(ops, k0, n.cards[k0], m, id, k.card);
    CountAppend([m], CardMail(n'.r, k0), QueryOf(id));
    CountOne(m, QueryOf(id));
    var out := if k.account == k0.account then e.toAccount else [];
    CountAppend(AccountMail(n.r, k.account), out, ReplyFrom(id, k.card));
    WeighAppend(n.mail, e.toRouter, SpentMail(id, k.card));
    QuestionToOwn(ops, k0, m, id);
    assert k == CardKey(k.account, k.card) && k0 == CardKey(k0.account, k0.card);
  }

  lemma QuestionToOwn(ops: Submitted, k: CardKey, m: CardMsg, id: u32)
    requires CardTrace(ops)(k, m)
    ensures QueryOf(id)(m) ==> id in ops && QueryOn(ops[id], k.account)
  {
  }

  lemma CardStepQuery(n: Net, ops: Submitted, g: Asked, k0: CardKey, id: u32)
    requires Wired(n) && Traced(n, ops) && Enabled(n, AtCard(k0)) && id in ops && IsQuery(ops[id]) && QueryOk(n, ops, g, id)
    ensures QueryOk(CardStep(n, k0), ops, g, id)
  {
    hide Cards.Handle, CardStep, AccountMail, Part, Wired, Traced, PendingAt;
    var n', a := CardStep(n, k0), ops[id].accountId;
    HeadOfCard(n, ops, k0);
    forall k: CardKey | k.account == a ensures Part(n', id, k) == Part(n, id, k) {
      CardStepPart(n, ops, k0, id, k);
    }
    CardReplies(ops, k0, n.cards[k0], n.r.cards[k0][0], id, 0);
    CardStepOwn(n, k0);
    CardStepOther(n, k0, k0, a);
    var e := Cards.Handle(k0, n.cards[k0], n.r.cards[k0][0]);
    MoreAnswers(AccountMail(n.r, a), if a == k0.account then e.toAccount else [], id);
  }

  lemma HeadOfCard(n: Net, ops: Submitted, k: CardKey)
    requires Wired(n) && Traced(n, ops) && Enabled(n, AtCard(k))
    ensures k in n.r.cards && k in n.cards && n.r.cards[k] != [] && CardTrace(ops)(k, n.r.cards[k][0])
  {
    assert n.r.cards[k][0] in n.r.cards[k];
  }

  lemma MoreAnswers(am: seq<AccountMsg>, out: seq<AccountMsg>, id: u32)
    requires InOrder(am, id) && forall r :: r in out ==> !StartOf(id)(r)
    ensures InOrder(am + out, id)
    ensures forall m :: m in am + out && StartOf(id)(m) ==> m in am
  {
  }

  // ---- an account's step ----

  /** An answer read by the account goes on its list, or on the completed list it sends. */
  lemma AccountCounts(a: u64, acct: Accounts.Account, m: AccountMsg, id: u32, c: u64)
    requires m.CardQueryReply? ==> Holds(acct.pending, m.opId)
    requires m.StartAccountQuery? || m.StartAccountBill? ==> acct.pending.None?
    ensures var e := Accounts.Handle(a, acct, m);
      && PendingCount(e.account.pending, id, c) + Weigh(e.toRouter, SpentMail(id, c)) ==
         PendingCount(acct.pending, id, c) + (if ReplyFrom(id, c)(m) then 1 else 0)
      && (forall r :: r in e.toCard ==> !QueryOf(id)(r))
      && (forall r :: r in e.toRouter ==> !r.Execute?)
  {
    hide Count, Weigh;
    var e := Accounts.Handle(a, acct, m);
    if e.toRouter == [] {
      WeighNothing(SpentMail(id, c));
    } else {
      assert e.toRouter == [e.toRouter[0]];
      WeighOne(e.toRouter[0], SpentMail(id, c));
    }
    CountNothing(PairFor(c));
    if m.CardQueryReply? {
      CountAppend(acct.pending.value.perCardSpent, [(m.cardId, m.consumed)], PairFor(c));
      CountOne((m.cardId, m.consumed), PairFor(c));
    }
  }

  lemma AccountStepPart(n: Net, a: u64, id: u32, k: CardKey)
    requires Wired(n) && Enabled(n, AtAccount(a)) && Expected(n, a) && Free(n, a)
    requires k.account == a || (!ReplyFrom(id, k.card)(n.r.accounts[a][0]) && !Holds(n.accounts[a].pending, id) && !StartOf(id)(n.r.accounts[a][0]))
    ensures Part(AccountStep(n, a), id, k) == Part(n, id, k)
  {
    hide Accounts.Handle, AccountStep, AccountMail, CardMail, CardAt, PendingAt, PendingCount;
    var n', m := AccountStep(n, a), n.r.accounts[a][0];
    var e := Accounts.Handle(a, n.accounts[a], m);
    AccountStepOwn(n, a);
    AccountStepOther(n, a, k.account, k);
    AccountCounts(a, n.accounts[a], m, id, k.card);
    CountAppend([m], AccountMail(n'.r, a), ReplyFrom(id, k.card));
    CountOne(m, ReplyFrom(id, k.card));
    CountNone(CardMail(n.r, k), e.toCard, QueryOf(id));
    WeighAppend(n.mail, e.toRouter, SpentMail(id, k.card));
    if k.account != a {
      NotHeld(n, a, id, k.card);
    }
  }

  lemma NotHeld(n: Net, a: u64, id: u32, c: u64)
    requires Wired(n) && Enabled(n, AtAccount(a)) && Expected(n, a) && Free(n, a)
    requires !ReplyFrom(id, c)(n.r.accounts[a][0]) && !Holds(n.accounts[a].pending, id) && !StartOf(id)(n.r.accounts[a][0])
    ensures Weigh(Accounts.Handle(a, n.accounts[a], n.r.accounts[a][0]).toRouter, SpentMail(id, c)) == 0
  {
    AccountCounts(a, n.accounts[a], n.r.accounts[a][0], id, c);
  }

  /** The list and the counter of a query add up to the number of cards asked. */
  lemma AccountSizes(a: u64, acct: Accounts.Account, m: AccountMsg, id: u32, size: nat)
    requires m.CardQueryReply? ==> Holds(acct.pending, m.opId)
    requires m.StartAccountQuery? || m.StartAccountBill? ==> acct.pending.None?
    requires StartOf(id)(m) ==> m.numCards == size
    requires Holds(acct.pending, id) ==> acct.pending.value.remaining > 0 && |acct.pending.value.perCardSpent| + acct.pending.value.remaining == size
    ensures var e := Accounts.Handle(a, acct, m);
      && (Holds(e.account.pending, id) ==>
        e.account.pending.value.remaining > 0 && |e.account.pending.value.perCardSpent| + e.account.pending.value.remaining == size)
      && (forall r :: r in e.toRouter && r.AccountQueryCompleted? && r.opId == id ==> |r.perCardSpent| == size)
  {
  }

  lemma AccountStepSizes(n: Net, ops: Submitted, g: Asked, a: u64, id: u32)
    requires Wired(n) && Traced(n, ops) && Enabled(n, AtAccount(a)) && Expected(n, a) && Free(n, a)
    requires id in ops && IsQuery(ops[id]) && SizesOk(n, g, id, ops[id].accountId) && InOrder(AccountMail(n.r, ops[id].accountId), id)
    ensures SizesOk(AccountStep(n, a), g, id, ops[id].accountId) && InOrder(AccountMail(AccountStep(n, a).r, ops[id].accountId), id)
  {
    hide Accounts.Handle, AccountStep, AccountMail, Traced, PendingAt, CardMail, CardAt;
    var n', m, b, size := AccountStep(n, a), n.r.accounts[a][0], ops[id].accountId, |AskedCards(g, id)|;
    var e := Accounts.Handle(a, n.accounts[a], m);
    AccountFacts(n, ops, a, id);
    AccountStepOwn(n, a);
    AccountStepOther(n, a, b, CardKey(0, 0));
    assert m in AccountMail(n.r, a);
    AccountSizes(a, n.accounts[a], m, id, size);
    if a == b {
      var am, am' := AccountMail(n.r, a), AccountMail(n'.r, a);
      assert am' == am[1..];
      forall i, j | 0 <= i < j < |am'| && am'[i].CardQueryReply? && am'[i].opId == id ensures !StartOf(id)(am'[j]) {
        assert am'[i] == am[i + 1] && am'[j] == am[j + 1];
      }
    }
  }

  lemma AccountStepQuery(n: Net, ops: Submitted, g: Asked, a: u64, id: u32)
    requires Wired(n) && Traced(n, ops) && Enabled(n, AtAccount(a)) && Expected(n, a) && Free(n, a)
    requires id in ops && IsQuery(ops[id]) && QueryOk(n, ops, g, id)
    ensures QueryOk(AccountStep(n, a), ops, g, id)
  {
    hide Accounts.Handle, AccountStep, SizesOk, InOrder, Part, Traced, Free, Expected;
    AccountStepSizes(n, ops, g, a, id);
    forall k: CardKey | k.account == ops[id].accountId ensures Part(AccountStep(n, a), id, k) == Part(n, id, k) {
      Strangers(n, ops, a, id, k);
      AccountStepPart(n, a, id, k);
    }
  }

  lemma Strangers(n: Net, ops: Submitted, a: u64, id: u32, k: CardKey)
    requires Wired(n) && Traced(n, ops) && Enabled(n, AtAccount(a)) && id in ops && QueryOn(ops[id], k.account)
    ensures k.account == a || (!ReplyFrom(id, k.card)(n.r.accounts[a][0]) && !Holds(n.accounts[a].pending, id) && !StartOf(id)(n.r.accounts[a][0]))
  {
    AccountFacts(n, ops, a, id);
    HeadOfAccount(n, ops, a);
  }

  // ---- the router's step ----

  /** Mailboxes gain no question and no answer that is not about the operation being routed. */
  lemma RouterAsksOthers(n: Net, k: CardKey, id: u32)
    requires Wired(n) && Enabled(n, AtRouter) && (n.mail[0].Execute? ==> n.mail[0].opId != id && !n.mail[0].operation.ReplaceDatabase?)
    ensures var r' := RouterStep(n).r;
      && Count(CardMail(r', k), QueryOf(id)) == Count(CardMail(n.r, k), QueryOf(id))
      && (forall m :: m in AccountMail(r', k.account) && StartOf(id)(m) ==> m in AccountMail(n.r, k.account))
  {
    hide Routers.Handle;
    var r' := RouterStep(n).r;
    HandleRequests(n.r, n.mail[0]);
    RouterGrows(n.r, n.mail[0]);
    if k in r'.cards {
      assert CardGained(n.mail[0], k, CardMail(n.r, k), r'.cards[k]);
      var more := r'.cards[k][|CardMail(n.r, k)|..];
      assert r'.cards[k] == CardMail(n.r, k) + more;
      CountNone(CardMail(n.r, k), more, QueryOf(id));
    }
    if k.account in r'.accounts {
      RequestedMembers(n.r, n.mail[0], r');
    }
  }

  /** Routing sends accounts no answers, and starts only what is being routed. */
  lemma RouterAnswersNothing(n: Net, a: u64, id: u32, c: u64)
    requires Wired(n) && Enabled(n, AtRouter) && (n.mail[0].Execute? ==> !n.mail[0].operation.ReplaceDatabase?)
    ensures var am, am' := AccountMail(n.r, a), AccountMail(RouterStep(n).r, a);
      && Count(am', ReplyFrom(id, c)) == Count(am, ReplyFrom(id, c))
      && (InOrder(am, id) && (n.mail[0].Execute? && n.mail[0].opId == id ==> forall c :: Count(am, ReplyFrom(id, c)) == 0) ==> InOrder(am', id))
  {
    hide Routers.Handle;
    var r' := RouterStep(n).r;
    HandleRequests(n.r, n.mail[0]);
    RouterGrows(n.r, n.mail[0]);
    if a in r'.accounts {
      var am := AccountMail(n.r, a);
      assert AccountGained(n.mail[0], a, am, r'.accounts[a]);
      var more := r'.accounts[a][|am|..];
      assert r'.accounts[a] == am + more;
      CountNone(am, more, ReplyFrom(id, c));
      Appended(am, more, n.mail[0], a, id);
    }
  }

  lemma RepliesCounted(am: seq<AccountMsg>, id: u32)
    ensures forall m :: m in am && m.CardQueryReply? && m.opId == id ==> Count(am, ReplyFrom(id, m.cardId)) > 0
  {
    forall m | m in am && m.CardQueryReply? && m.opId == id ensures Count(am, ReplyFrom(id, m.cardId)) > 0 {
      CountIn(am, ReplyFrom(id, m.cardId), m);
    }
  }

  lemma Appended(am: seq<AccountMsg>, more: seq<AccountMsg>, msg: RouterMsg, a: u64, id: u32)
    requires forall m :: m in more ==> AccountSent(msg, a, m)
    requires msg.Execute? ==> !msg.operation.ReplaceDatabase?
    ensures InOrder(am, id) && (msg.Execute? && msg.opId == id ==> forall c :: Count(am, ReplyFrom(id, c)) == 0) ==> InOrder(am + more, id)
  {
    if InOrder(am, id) && (msg.Execute? && msg.opId == id ==> forall c :: Count(am, ReplyFrom(id, c)) == 0) {
      var am' := am + more;
      RepliesCounted(am, id);
      forall i, j | 0 <= i < j < |am'| && am'[i].CardQueryReply? && am'[i].opId == id ensures !StartOf(id)(am'[j]) {
        assert i >= |am| ==> am'[i] in more;
        assert j >= |am| ==> am'[j] in more;
      }
    }
  }

  /** A completed list moves from the message to the event; nothing else the router reports is a list for `id`. */
  lemma ReportWeights(n: Net, ops: Submitted, id: u32, c: u64)
    requires Wired(n) && Traced(n, ops) && Enabled(n, AtRouter) && Recognised(n, ops) && !n.mail[0].Execute?
    ensures var r' := Routers.Handle(n.r, n.mail[0]);
      && Weigh(r'.events, SpentEvent(id, c)) + Weigh(n.mail[1..], SpentMail(id, c)) ==
         Weigh(n.r.events, SpentEvent(id, c)) + Weigh(n.mail, SpentMail(id, c))
      && (forall e :: e in r'.events && e !in n.r.events && EventOf(id)(e) && e.result.AccountQueryResult? ==>
        exists m :: m in n.mail && m.AccountQueryCompleted? && m.opId == id && m.perCardSpent == e.result.perCardSpent)
  {
    hide Traced, Routers.TryComplete, Routers.Dispatch;
    TracedHead(n, ops);
    var r' := Routers.Handle(n.r, n.mail[0]);
    match n.mail[0] {
      case OperationCompleted(opId, success, error) =>
        WeighAppend(n.r.events, [r'.events[|n.r.events|]], SpentEvent(id, c));
        WeighOne(r'.events[|n.r.events|], SpentEvent(id, c));
      case AccountQueryCompleted(opId, a, total, spent) =>
        WeighAppend(n.r.events, [r'.events[|n.r.events|]], SpentEvent(id, c));
        WeighOne(r'.events[|n.r.events|], SpentEvent(id, c));
        assert n.mail[0] in n.mail;
      case AccountSnapshotCollected(opId, snap) =>
        var p := n.r.snapshots[opId];
        DumpWeights(n.r.(snapshots := n.r.snapshots[opId := p.(accounts := p.accounts + [snap])]), opId, id, c);
      case CardSnapshotCollected(opId, snap) =>
        var p := n.r.snapshots[opId];
        DumpWeights(n.r.(snapshots := n.r.snapshots[opId := p.(cards := p.cards + [snap])]), opId, id, c);
    }
  }

  lemma DumpWeights(r: Routers.Router, opId: u32, id: u32, c: u64)
    requires opId in r.snapshots && opId in r.operations
    ensures var r' := Routers.TryComplete(r, opId);
      && Weigh(r'.events, SpentEvent(id, c)) == Weigh(r.events, SpentEvent(id, c))
      && (forall e :: e in r'.events && e !in r.events ==> e.OperationResultEvent? && e.result.DatabaseSnapshotResult?)
  {
    var r' := Routers.TryComplete(r, opId);
    if r' != r {
      var e := r'.events[|r.events|];
      WeighAppend(r.events, [e], SpentEvent(id, c));
      WeighOne(e, SpentEvent(id, c));
    }
  }

  lemma ReportQuery(n: Net, ops: Submitted, g: Asked, id: u32)
    requires Wired(n) && Traced(n, ops) && Enabled(n, AtRouter) && Recognised(n, ops) && !n.mail[0].Execute?
    requires id in ops && IsQuery(ops[id]) && QueryOk(n, ops, g, id)
    ensures QueryOk(RouterStep(n), ops, g, id)
  {
    hide Routers.Handle, RouterStep, Traced, Recognised, CardMail, AccountMail, PendingAt, CardAt;
    var n', a := RouterStep(n), ops[id].accountId;
    forall k: CardKey | k.account == a ensures Part(n', id, k) == Part(n, id, k) {
      RouterCards(n, k, a);
      RouterAsksOthers(n, k, id);
      RouterAnswersNothing(n, a, id, k.card);
      ReportWeights(n, ops, id, k.card);
    }
    RouterCards(n, CardKey(a, 0), a);
    RouterAsksOthers(n, CardKey(a, 0), id);
    RouterAnswersNothing(n, a, id, 0);
    ReportWeights(n, ops, id, 0);
  }

  lemma RouteOtherQuery(n: Net, ops: Submitted, g: Asked, id: u32)
    requires Wired(n) && Traced(n, ops) && Enabled(n, AtRouter) && n.mail[0].Execute? && n.mail[0].opId != id
    requires id in ops && IsQuery(ops[id]) && QueryOk(n, ops, g, id)
    ensures QueryOk(RouterStep(n), ops, NextAsked(n, AtRouter, g), id)
  {
    hide Routers.Dispatch, RouterStep, Traced, CardMail, AccountMail, PendingAt, CardAt, Weigh, Count;
    var n', a := RouterStep(n), ops[id].accountId;
    TracedHead(n, ops);
    DispatchReports(n.r, n.mail[0].opId, n.mail[0].operation);
    RouterCards(n, CardKey(a, 0), a);
    forall k: CardKey | k.account == a ensures Part(n', id, k) == Part(n, id, k) {
      RouterCards(n, k, a);
      RouterAsksOthers(n, k, id);
      RouterAnswersNothing(n, a, id, k.card);
      OtherEvents(n, n', id, k.card);
    }
    RouterAsksOthers(n, CardKey(a, 0), id);
    RouterAnswersNothing(n, a, id, 0);
    assert AskedCards(NextAsked(n, AtRouter, g), id) == AskedCards(g, id);
  }

  lemma OtherEvents(n: Net, n': Net, id: u32, c: u64)
    requires n.mail != [] && n'.mail == n.mail[1..] && n.mail[0].Execute?
    requires n'.r.events == n.r.events || (|n'.r.events| == |n.r.events| + 1 && n'.r.events[..|n.r.events|] == n.r.events && !EventOf(id)(n'.r.events[|n.r.events|]))
    ensures Weigh(n'.mail, SpentMail(id, c)) == Weigh(n.mail, SpentMail(id, c))
    ensures Weigh(n'.r.events, SpentEvent(id, c)) == Weigh(n.r.events, SpentEvent(id, c))
  {
    if n'.r.events != n.r.events {
      var e := n'.r.events[|n.r.events|];
      assert n'.r.events == n.r.events + [e];
      WeighAppend(n.r.events, [e], SpentEvent(id, c));
      WeighOne(e, SpentEvent(id, c));
    }
  }

  // ---- the query itself is routed ----

  lemma QueryMails(r: Routers.Router, id: u32, op: Op, k: CardKey)
    requires IsQuery(op) && op.accountId == k.account
    ensures var r' := Routers.Dispatch(r, id, op);
      && Count(CardMail(r', k), QueryOf(id)) == Count(CardMail(r, k), QueryOf(id)) + (if k in Routers.CardsOf(r, k.account) then 1 else 0)
      && (forall m :: m in AccountMail(r', k.account) && StartOf(id)(m) ==>
        m in AccountMail(r, k.account) || m.numCards == |Routers.CardsOf(r, k.account)|)
  {
    var a := k.account;
    assert Routers.CardsOf(Routers.WithAccount(r, a), a) == Routers.CardsOf(r, a);
    var q := QueryCardState(id, a, op.Bill?);
    CountAppend(CardMail(r, k), [q], QueryOf(id));
    CountOne(q, QueryOf(id));
  }

  lemma RouteQuery(n: Net, ops: Submitted, g: Asked, id: u32)
    requires Wired(n) && Traced(n, ops) && Enabled(n, AtRouter) && n.mail[0].Execute? && n.mail[0].opId == id
    requires id in ops && IsQuery(ops[id]) && QueryOk(n, ops, g, id) && AskedOk(n, ops, g, id) && Places(n, id, ops[id]) == 1
    ensures QueryOk(RouterStep(n), ops, NextAsked(n, AtRouter, g), id)
  {
    hide Routers.Dispatch, RouterStep, Traced, CardMail, AccountMail, PendingAt, CardAt;
    var n', g', op, a := RouterStep(n), NextAsked(n, AtRouter, g), ops[id], ops[id].accountId;
    TracedHead(n, ops);
    assert n.mail[0] in n.mail;
    DispatchReports(n.r, id, op);
    assert AskedCards(g, id) == {} && AskedCards(g', id) == Routers.CardsOf(n.r, a);
    forall k: CardKey | k.account == a ensures Part(n, id, k) == 0 && Part(n', id, k) == if k in AskedCards(g', id) then 1 else 0 {
      assert Part(n, id, k) == 0;
      RouterCards(n, k, a);
      QueryMails(n.r, id, op, k);
      RouterAnswersNothing(n, a, id, k.card);
      OtherEvents(n, n', id, k.card);
    }
    NowhereElse(n, id, op);
    RouterCards(n, CardKey(a, 0), a);
    QueryMails(n.r, id, op, CardKey(a, 0));
    forall c ensures Count(AccountMail(n.r, a), ReplyFrom(id, c)) == 0 {
      assert Part(n, id, CardKey(a, c)) == 0;
    }
    RouterAnswersNothing(n, a, id, 0);
  }

  /** An operation still to be routed is nowhere else. */
  lemma NowhereElse(n: Net, id: u32, op: Op)
    requires n.mail != [] && n.mail[0].Execute? && n.mail[0].opId == id && IsQuery(op) && Places(n, id, op) == 1
    ensures !Holds(PendingAt(n, op.accountId), id)
    ensures forall m :: m in AccountMail(n.r, op.accountId) ==> !StartOf(id)(m)
    ensures forall m :: m in n.mail[1..] ==> !About(id)(m)
    ensures forall e :: e in n.r.events ==> !EventOf(id)(e)
  {
    CountZero(AccountMail(n.r, op.accountId), StartOf(id));
    CountZero(n.mail[1..], About(id));
    CountZero(n.r.events, EventOf(id));
  }

  lemma RouterStepQuery(n: Net, ops: Submitted, g: Asked, id: u32)
    requires Wired(n) && Traced(n, ops) && Enabled(n, AtRouter) && Recognised(n, ops)
    requires id in ops && IsQuery(ops[id]) && QueryOk(n, ops, g, id) && AskedOk(n, ops, g, id) && Places(n, id, ops[id]) == 1
    ensures QueryOk(RouterStep(n), ops, NextAsked(n, AtRouter, g), id)
  {
    hide Routers.Dispatch, RouterStep, Traced, QueryOk, AskedOk, Places, Recognised, Wired;
    if !n.mail[0].Execute? {
      ReportQuery(n, ops, g, id);
    } else if n.mail[0].opId == id {
      RouteQuery(n, ops, g, id);
    } else {
      RouteOtherQuery(n, ops, g, id);
    }
  }
}
