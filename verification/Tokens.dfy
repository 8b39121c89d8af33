/**
 Each submitted operation is in exactly one place: waiting to be routed, in the hands of
 the actors it concerns, on its way back to the router, or reported.
 */
module Tokens {
  import opened Wrappers
  import opened Protocol
  import opened Messages
  import opened Counting
  import opened Network
  import opened Handshake
  import opened Traces
  import Cards
  import Accounts
  import Routers

  ghost function IsId(id: u32): u32 -> bool {
    (x: u32) => x == id
  }

  /** Messages to the router that carry the operation itself or its completion. */
  ghost function About(id: u32): RouterMsg -> bool {
    (m: RouterMsg) => (m.Execute? || m.OperationCompleted? || m.AccountQueryCompleted?) && m.opId == id
  }

  ghost function TaskMsg(id: u32): CardMsg -> bool {
    (m: CardMsg) => (m.ExecuteCharge? || m.ExecuteLimitChange?) && m.opId == id
  }

  ghost function LimitMsg(id: u32): AccountMsg -> bool {
    (m: AccountMsg) => m.ApplyAccountLimit? && m.opId == id
  }

  ghost function StartOf(id: u32): AccountMsg -> bool {
    (m: AccountMsg) => (m.StartAccountQuery? || m.StartAccountBill?) && m.opId == id
  }

  ghost function EventOf(id: u32): ActorEvent -> bool {
    (e: ActorEvent) => e.OperationResultEvent? && e.opId == id
  }

  function PendingAt(n: Net, a: u64): Option<Accounts.PendingQuery> {
    if a in n.accounts then n.accounts[a].pending else None
  }

  predicate Holds(p: Option<Accounts.PendingQuery>, id: u32) {
    p.Some? && p.value.opId == id
  }

  ghost function CardHeld(n: Net, k: CardKey, id: u32): nat {
    Count(CardMail(n.r, k), TaskMsg(id)) + Count(Owed(CardAt(n, k)), IsId(id))
  }

  ghost function QueryHeld(n: Net, a: u64, id: u32): nat {
    Count(AccountMail(n.r, a), StartOf(id)) + if Holds(PendingAt(n, a), id) then 1 else 0
  }

  /** How often the actors that carry out `op` have it. */
  ghost function Held(n: Net, id: u32, op: Op): nat {
    match op
    case Charge(a, c, _, _) => CardHeld(n, CardKey(a, c), id)
    case LimitCard(a, c, _) => CardHeld(n, CardKey(a, c), id)
    case LimitAccount(a, _) => Count(AccountMail(n.r, a), LimitMsg(id))
    case AccountQuery(a) => QueryHeld(n, a, id)
    case Bill(a, _) => QueryHeld(n, a, id)
    case GetDatabase(_) => if id in n.r.snapshots then 1 else 0
    case ReplaceDatabase(_) => 0
  }

  ghost function Places(n: Net, id: u32, op: Op): nat {
    Count(n.mail, About(id)) + Held(n, id, op) + Count(n.r.events, EventOf(id))
  }

  ghost predicate Once(n: Net, ops: Submitted) {
    forall id :: id in ops ==> Places(n, id, ops[id]) == 1
  }

  /** A routed operation is on record. */
  ghost predicate OnRecord(n: Net, ops: Submitted) {
    forall id :: id in ops ==> Execute(id, ops[id]) in n.mail || (id in n.r.operations && n.r.operations[id] == ops[id])
  }

  /** Of two queries on one account, one has been answered. */
  ghost predicate Solo(n: Net, ops: Submitted) {
    forall i, j, a :: i in ops && j in ops && i != j && QueryOn(ops[i], a) && QueryOn(ops[j], a) ==>
      Count(n.r.events, EventOf(i)) > 0 || Count(n.r.events, EventOf(j)) > 0
  }

  lemma CountIn<T(!new)>(s: seq<T>, p: T -> bool, x: T)
    requires x in s && p(x)
    ensures Count(s, p) > 0
  {
    CountZero(s, p);
  }

  lemma CountNone<T(!new)>(s: seq<T>, t: seq<T>, p: T -> bool)
    requires forall x :: x in t ==> !p(x)
    ensures Count(s + t, p) == Count(s, p)
  {
    CountAppend(s, t, p);
    CountZero(t, p);
  }

  lemma CountOne<T(!new)>(x: T, p: T -> bool)
    ensures Count([x], p) == if p(x) then 1 else 0
  {
    assert [x][1..] == [];
  }

  // ---- a card's step ----

  lemma {:induction false} AboutCompletions(out: seq<RouterMsg>, id: u32)
    requires forall m :: m in out ==> !m.Execute? && !m.AccountQueryCompleted?
    ensures Count(out, About(id)) == Count(Completions(out), IsId(id))
  {
    if out != [] {
      AboutCompletions(out[1..], id);
      var head := if out[0].OperationCompleted? then [out[0].opId] else [];
      CountAppend(head, Completions(out[1..]), IsId(id));
      if head != [] {
        CountOne(head[0], IsId(id));
      }
    }
  }

  lemma {:induction false} StartKinds(k: CardKey, c: Cards.Card)
    ensures forall m :: m in Cards.StartTask(k, c).toRouter ==> m.OperationCompleted?
    ensures forall m :: m in Cards.StartTask(k, c).toAccount ==> m.ApplyChargeFromCard?
    decreases |c.queue|, 1
  {
    match c.current {
      case None =>
      case Some(ChargeTask(op)) =>
        FinishKinds(k, c, op.opId, false, Some(ChargeLimit(CardLimitExceeded)));
      case Some(LimitTask(opId, newLimit)) =>
        FinishKinds(k, c.(limit := newLimit), opId, true, None);
        FinishKinds(k, c, opId, false, Some(LimitUpdate(BelowCurrentUsage)));
    }
  }

  lemma {:induction false} FinishKinds(k: CardKey, c: Cards.Card, opId: u32, success: bool, error: Option<VerifyError>)
    ensures forall m :: m in Cards.FinishTask(k, c, opId, success, error).toRouter ==> m.OperationCompleted?
    ensures forall m :: m in Cards.FinishTask(k, c, opId, success, error).toAccount ==> m.ApplyChargeFromCard?
    decreases |c.queue|, 0
  {
    if |c.queue| > 0 {
      StartKinds(k, c.(current := Some(c.queue[0]), queue := c.queue[1..]));
    }
  }

  lemma CardKinds(k: CardKey, c: Cards.Card, m: CardMsg)
    ensures var e := Cards.Handle(k, c, m);
      && (forall r :: r in e.toRouter ==> !r.Execute? && !r.AccountQueryCompleted? && !r.AccountSnapshotCollected?)
      && (forall r :: r in e.toAccount ==> r.ApplyChargeFromCard? || r.CardQueryReply?)
  {
    match m {
      case ExecuteCharge(opId, _, _, amount, fromOffline) =>
        StartKinds(k, c.(current := Some(Cards.ChargeTask(Cards.ChargeOp(opId, amount, fromOffline)))));
      case ExecuteLimitChange(opId, newLimit) =>
        StartKinds(k, c.(current := Some(Cards.LimitTask(opId, newLimit))));
      case AccountChargeReply(opId, success, error) =>
        FinishKinds(k, c, opId, success, error);
        if c.current.Some? && c.current.value.ChargeTask? {
          FinishKinds(k, c.(consumed := c.consumed + c.current.value.op.amount), opId, success, error);
        }
      case _ =>
    }
  }

  /** What a card gives back plus what it still holds is what it held. */
  lemma CardBalance(k: CardKey, c: Cards.Card, m: CardMsg, id: u32)
    requires c.current.None? ==> c.queue == []
    requires !m.CardReplaceState? && (m.ExecuteCharge? ==> m.accountId == k.account && m.cardId == k.card)
    ensures var e := Cards.Handle(k, c, m);
      Count(e.toRouter, About(id)) + Count(Owed(e.card), IsId(id)) ==
      Count(Owed(c), IsId(id)) + if TaskMsg(id)(m) then 1 else 0
  {
    hide Cards.Handle, Completions, Owed;
    var e := Cards.Handle(k, c, m);
    CardKinds(k, c, m);
    AboutCompletions(e.toRouter, id);
    HandleInOrder(k, c, m);
    CountAppend(Owed(c), Arrival(k, m), IsId(id));
    CountAppend(Completions(e.toRouter), Owed(e.card), IsId(id));
    if Arrival(k, m) != [] {
      CountOne(m.opId, IsId(id));
    }
  }

  /** A card owes nothing to an operation of other actors. */
  lemma OwesOwn(ops: Submitted, k: CardKey, c: Cards.Card, id: u32)
    requires CardTraced(ops, k, c) && id in ops && !ForCard(ops[id], k)
    ensures Count(Owed(c), IsId(id)) == 0
  {
    forall x | x in Owed(c) ensures x != id {
      if c.current.None? || x != TaskId(c.current.value) {
        var i :| 0 <= i < |QueueIds(c.queue)| && QueueIds(c.queue)[i] == x;
        assert c.queue[i] in c.queue;
      }
    }
    CountZero(Owed(c), IsId(id));
  }

  lemma CardStepOwn(n: Net, k: CardKey)
    requires Wired(n) && Enabled(n, AtCard(k))
    ensures var n', e := CardStep(n, k), Cards.Handle(k, n.cards[k], n.r.cards[k][0]);
      && CardMail(n.r, k) == [n.r.cards[k][0]] + CardMail(n'.r, k) && CardAt(n', k) == e.card
      && n'.mail == n.mail + e.toRouter
  {
    hide Cards.Handle;
  }

  lemma CardStepOther(n: Net, k: CardKey, k': CardKey, a: u64)
    requires Wired(n) && Enabled(n, AtCard(k))
    ensures var n', e := CardStep(n, k), Cards.Handle(k, n.cards[k], n.r.cards[k][0]);
      && (k' != k ==> CardMail(n'.r, k') == CardMail(n.r, k') && CardAt(n', k') == CardAt(n, k'))
      && AccountMail(n'.r, a) == AccountMail(n.r, a) + (if a == k.account then e.toAccount else [])
      && PendingAt(n', a) == PendingAt(n, a) && n'.r.snapshots == n.r.snapshots && n'.r.events == n.r.events
      && n'.r.operations == n.r.operations
  {
    hide Cards.Handle;
    assert AccountMail(n.r, a) + [] == AccountMail(n.r, a);
  }

  /** What card `k` gives back comes out of what its own operations hold. */
  lemma CardStepHeld(n: Net, ops: Submitted, k: CardKey, id: u32)
    requires Safe(n) && Traced(n, ops) && Enabled(n, AtCard(k)) && id in ops
    ensures Held(CardStep(n, k), id, ops[id]) + Count(Cards.Handle(k, n.cards[k], n.r.cards[k][0]).toRouter, About(id)) ==
            Held(n, id, ops[id])
  {
    hide Cards.Handle, Traced, CardStep, Wired, Safe, Owed, AccountMail, CardMail, CardAt;
    SafeIsWired(n);
    var n', m, op := CardStep(n, k), n.r.cards[k][0], ops[id];
    var e := Cards.Handle(k, n.cards[k], m);
    CardFacts(n, ops, k);
    CardBalance(k, n.cards[k], m, id);
    CardKinds(k, n.cards[k], m);
    if ForCard(op, k) {
      CardStepOwn(n, k);
      CountAppend([m], CardMail(n'.r, k), TaskMsg(id));
      CountOne(m, TaskMsg(id));
      KnownCard(n, k);
    } else {
      OwesOwn(ops, k, n.cards[k], id);
      var a := if op.LimitAccount? || IsQuery(op) then op.accountId else 0;
      var k' := if op.Charge? || op.LimitCard? then CardKey(op.accountId, op.cardId) else CardKey(k.account, if k.card == 0 then 1 else 0);
      CardStepOther(n, k, k', a);
      var out := if a == k.account then e.toAccount else [];
      CountNone(AccountMail(n.r, a), out, LimitMsg(id));
      CountNone(AccountMail(n.r, a), out, StartOf(id));
    }
  }

  lemma KnownCard(n: Net, k: CardKey)
    requires Wired(n) && Enabled(n, AtCard(k))
    ensures CardAt(n, k) == n.cards[k]
  {
  }

  lemma SafeIsWired(n: Net)
    requires Safe(n)
    ensures Wired(n)
  {
  }

  lemma CardFacts(n: Net, ops: Submitted, k: CardKey)
    requires Safe(n) && Traced(n, ops) && Enabled(n, AtCard(k))
    ensures var m := n.r.cards[k][0];
      && CardTrace(ops)(k, m) && !m.CardReplaceState? && (m.ExecuteCharge? ==> m.accountId == k.account && m.cardId == k.card)
      && CardTraced(ops, k, n.cards[k]) && (n.cards[k].current.None? ==> n.cards[k].queue == [])
      && forall id :: id in ops && TaskMsg(id)(m) ==> ForCard(ops[id], k)
  {
    assert n.r.cards[k][0] in n.r.cards[k];
    assert CardOk(k, n.cards[k], n.r.cards[k], n.r.accounts[k.account]);
  }

  lemma CardStepPlaces(n: Net, ops: Submitted, k: CardKey, id: u32)
    requires Safe(n) && Traced(n, ops) && Enabled(n, AtCard(k)) && id in ops
    ensures Places(CardStep(n, k), id, ops[id]) == Places(n, id, ops[id])
  {
    hide Cards.Handle, Held, Safe, Traced;
    SafeIsWired(n);
    CardStepHeld(n, ops, k, id);
    CountAppend(n.mail, Cards.Handle(k, n.cards[k], n.r.cards[k][0]).toRouter, About(id));
  }

  // ---- an account's step ----

  lemma AccountStepOwn(n: Net, a: u64)
    requires Wired(n) && Enabled(n, AtAccount(a))
    ensures var n', e := AccountStep(n, a), Accounts.Handle(a, n.accounts[a], n.r.accounts[a][0]);
      && AccountMail(n.r, a) == [n.r.accounts[a][0]] + AccountMail(n'.r, a)
      && PendingAt(n, a) == n.accounts[a].pending && PendingAt(n', a) == e.account.pending
      && n'.mail == n.mail + e.toRouter
  {
    hide Accounts.Handle;
  }

  lemma AccountStepOther(n: Net, a: u64, b: u64, k: CardKey)
    requires Wired(n) && Enabled(n, AtAccount(a))
    ensures var n', e := AccountStep(n, a), Accounts.Handle(a, n.accounts[a], n.r.accounts[a][0]);
      && (b != a ==> AccountMail(n'.r, b) == AccountMail(n.r, b) && PendingAt(n', b) == PendingAt(n, b))
      && CardAt(n', k) == CardAt(n, k)
      && (CardMail(n'.r, k) == CardMail(n.r, k) || CardMail(n'.r, k) == CardMail(n.r, k) + e.toCard)
      && n'.r.snapshots == n.r.snapshots && n'.r.events == n.r.events && n'.r.operations == n.r.operations
  {
    hide Accounts.Handle;
    if k in n.cards {
      AccountStepMailboxes(n, a, k);
      assert n.r.cards[k] + [] == n.r.cards[k];
    }
  }

  /** A query starts only when the account is not busy with another one. */
  ghost predicate Free(n: Net, a: u64)
    requires Wired(n) && Enabled(n, AtAccount(a))
  {
    var m := n.r.accounts[a][0];
    m.StartAccountQuery? || m.StartAccountBill? ==> n.accounts[a].pending.None?
  }

  /** What an account gives back concerns the operation of the message it read. */
  lemma AccountBalance(a: u64, acct: Accounts.Account, m: AccountMsg, id: u32)
    requires m.CardQueryReply? ==> Holds(acct.pending, m.opId)
    requires m.StartAccountQuery? || m.StartAccountBill? ==> acct.pending.None?
    ensures var e := Accounts.Handle(a, acct, m);
      && Count(e.toRouter, About(id)) + (if Holds(e.account.pending, id) then 1 else 0) ==
         (if Holds(acct.pending, id) then 1 else 0) + (if StartOf(id)(m) || LimitMsg(id)(m) then 1 else 0)
      && (Holds(e.account.pending, id) ==> Holds(acct.pending, id) || StartOf(id)(m))
      && (Holds(acct.pending, id) && !Holds(e.account.pending, id) ==> m.CardQueryReply?)
      && (forall r :: r in e.toCard ==> !TaskMsg(id)(r))
  {
    hide Count;
    AccountSaysOne(a, acct, m);
    CountNothing(About(id));
    var out := Accounts.Handle(a, acct, m).toRouter;
    if out != [] {
      CountOne(out[0], About(id));
    }
    hide Accounts.SumSpent;
  }

  lemma AccountSaysOne(a: u64, acct: Accounts.Account, m: AccountMsg)
    ensures var out := Accounts.Handle(a, acct, m).toRouter; out != [] ==> out == [out[0]]
  {
  }

  lemma AccountStepHeld(n: Net, ops: Submitted, a: u64, id: u32)
    requires Wired(n) && Traced(n, ops) && Enabled(n, AtAccount(a)) && Expected(n, a) && Free(n, a) && id in ops
    ensures Held(AccountStep(n, a), id, ops[id]) + Count(Accounts.Handle(a, n.accounts[a], n.r.accounts[a][0]).toRouter, About(id)) ==
            Held(n, id, ops[id])
  {
    hide Accounts.Handle, Traced, AccountStep, AccountMail, CardMail, CardAt, Owed, PendingAt;
    var n', m, op := AccountStep(n, a), n.r.accounts[a][0], ops[id];
    var e := Accounts.Handle(a, n.accounts[a], m);
    AccountFacts(n, ops, a, id);
    AccountBalance(a, n.accounts[a], m, id);
    AccountStepOwn(n, a);
    CountAppend([m], AccountMail(n'.r, a), LimitMsg(id));
    CountAppend([m], AccountMail(n'.r, a), StartOf(id));
    CountOne(m, LimitMsg(id));
    CountOne(m, StartOf(id));
    var b := if op.LimitAccount? || IsQuery(op) then op.accountId else a;
    var k := if op.Charge? || op.LimitCard? then CardKey(op.accountId, op.cardId) else CardKey(0, 0);
    AccountStepOther(n, a, b, k);
    CountNone(CardMail(n.r, k), e.toCard, TaskMsg(id));
  }

  /** Which operations of `ops` the account can be busy with. */
  lemma AccountFacts(n: Net, ops: Submitted, a: u64, id: u32)
    requires Traced(n, ops) && Wired(n) && Enabled(n, AtAccount(a)) && id in ops
    ensures StartOf(id)(n.r.accounts[a][0]) || Holds(n.accounts[a].pending, id) ==> QueryOn(ops[id], a)
    ensures LimitMsg(id)(n.r.accounts[a][0]) ==> ops[id].LimitAccount? && ops[id].accountId == a
  {
    assert n.r.accounts[a][0] in n.r.accounts[a];
    assert AccountTrace(ops)(a, n.r.accounts[a][0]);
  }

  lemma AccountStepPlaces(n: Net, ops: Submitted, a: u64, id: u32)
    requires Wired(n) && Traced(n, ops) && Enabled(n, AtAccount(a)) && Expected(n, a) && Free(n, a) && id in ops
    ensures Places(AccountStep(n, a), id, ops[id]) == Places(n, id, ops[id])
  {
    hide Accounts.Handle, Held, Traced;
    AccountStepHeld(n, ops, a, id);
    CountAppend(n.mail, Accounts.Handle(a, n.accounts[a], n.r.accounts[a][0]).toRouter, About(id));
  }

  // ---- the router's step ----

  lemma RouterCards(n: Net, k: CardKey, a: u64)
    requires Wired(n) && Enabled(n, AtRouter)
    ensures CardAt(RouterStep(n), k) == CardAt(n, k) && PendingAt(RouterStep(n), a) == PendingAt(n, a)
    ensures RouterStep(n).r == Routers.Handle(n.r, n.mail[0]) && RouterStep(n).mail == n.mail[1..]
  {
    RouterGrows(n.r, n.mail[0]);
    hide Routers.Handle;
  }

  /** Mailboxes gain nothing about operations other than the one being routed. */
  lemma RouterOthers(n: Net, k: CardKey, a: u64, id: u32)
    requires Wired(n) && Enabled(n, AtRouter) && (n.mail[0].Execute? ==> n.mail[0].opId != id && !n.mail[0].operation.ReplaceDatabase?)
    ensures var r' := RouterStep(n).r;
      && Count(CardMail(r', k), TaskMsg(id)) == Count(CardMail(n.r, k), TaskMsg(id))
      && Count(AccountMail(r', a), LimitMsg(id)) == Count(AccountMail(n.r, a), LimitMsg(id))
      && Count(AccountMail(r', a), StartOf(id)) == Count(AccountMail(n.r, a), StartOf(id))
  {
    hide Routers.Handle, CardSent, AccountSent, Requested, Count, TaskMsg, LimitMsg, StartOf;
    var r' := RouterStep(n).r;
    HandleRequests(n.r, n.mail[0]);
    RouterGrows(n.r, n.mail[0]);
    if k in r'.cards {
      CardGainsOther(n.r, n.mail[0], r', k, id);
    }
    if a in r'.accounts {
      AccountGainsOther(n.r, n.mail[0], r', a, id);
    }
  }

  lemma CardGainsOther(r: Routers.Router, msg: RouterMsg, r': Routers.Router, k: CardKey, id: u32)
    requires Requested(r, msg, r') && k in r'.cards && (msg.Execute? ==> msg.opId != id)
    ensures Count(r'.cards[k], TaskMsg(id)) == Count(CardMail(r, k), TaskMsg(id))
  {
    hide Count;
    var before, after := CardMail(r, k), r'.cards[k];
    assert CardGained(msg, k, before, after);
    assert after == before + after[|before|..];
    CountNone(before, after[|before|..], TaskMsg(id));
  }

  lemma AccountGainsOther(r: Routers.Router, msg: RouterMsg, r': Routers.Router, a: u64, id: u32)
    requires Requested(r, msg, r') && a in r'.accounts && (msg.Execute? ==> msg.opId != id)
    ensures Count(r'.accounts[a], LimitMsg(id)) == Count(AccountMail(r, a), LimitMsg(id))
    ensures Count(r'.accounts[a], StartOf(id)) == Count(AccountMail(r, a), StartOf(id))
  {
    hide Count;
    var before, after := AccountMail(r, a), r'.accounts[a];
    assert AccountGained(msg, a, before, after);
    assert after == before + after[|before|..];
    CountNone(before, after[|before|..], LimitMsg(id));
    CountNone(before, after[|before|..], StartOf(id));
  }

  /** Routing an operation hands it over once, or answers it at once. */
  lemma RoutesOnce(r: Routers.Router, id: u32, op: Op)
    requires !op.ReplaceDatabase? && (op.GetDatabase? ==> id !in r.snapshots)
    ensures var r' := Routers.Dispatch(r, id, op);
      match op
      case Charge(a, c, _, _) => Count(CardMail(r', CardKey(a, c)), TaskMsg(id)) == Count(CardMail(r, CardKey(a, c)), TaskMsg(id)) + 1
      case LimitCard(a, c, _) => Count(CardMail(r', CardKey(a, c)), TaskMsg(id)) == Count(CardMail(r, CardKey(a, c)), TaskMsg(id)) + 1
      case LimitAccount(a, _) => Count(AccountMail(r', a), LimitMsg(id)) == Count(AccountMail(r, a), LimitMsg(id)) + 1
      case AccountQuery(a) => Count(AccountMail(r', a), StartOf(id)) == Count(AccountMail(r, a), StartOf(id)) + 1
      case Bill(a, _) => Count(AccountMail(r', a), StartOf(id)) == Count(AccountMail(r, a), StartOf(id)) + 1
      case GetDatabase(_) => true
  {
    match op {
      case Charge(a, c, amount, fromOffline) =>
        CardGainsOne(CardMail(r, CardKey(a, c)), ExecuteCharge(id, a, c, amount, fromOffline), id);
      case LimitCard(a, c, newLimit) =>
        CardGainsOne(CardMail(r, CardKey(a, c)), ExecuteLimitChange(id, newLimit), id);
      case LimitAccount(a, newLimit) =>
        AccountGainsOne(AccountMail(r, a), ApplyAccountLimit(id, newLimit), id);
      case AccountQuery(a) =>
        QueryStarts(r.(operations := r.operations[id := op]), id, a, false);
      case Bill(a, _) =>
        QueryStarts(r.(operations := r.operations[id := op]), id, a, true);
      case GetDatabase(_) =>
    }
  }

  lemma CardGainsOne(mail: seq<CardMsg>, m: CardMsg, id: u32)
    requires TaskMsg(id)(m)
    ensures Count(mail + [m], TaskMsg(id)) == Count(mail, TaskMsg(id)) + 1
  {
    CountAppend(mail, [m], TaskMsg(id));
    CountOne(m, TaskMsg(id));
  }

  lemma AccountGainsOne(mail: seq<AccountMsg>, m: AccountMsg, id: u32)
    ensures LimitMsg(id)(m) ==> Count(mail + [m], LimitMsg(id)) == Count(mail, LimitMsg(id)) + 1
    ensures StartOf(id)(m) ==> Count(mail + [m], StartOf(id)) == Count(mail, StartOf(id)) + 1
  {
    CountAppend(mail, [m], LimitMsg(id));
    CountAppend(mail, [m], StartOf(id));
    CountOne(m, LimitMsg(id));
    CountOne(m, StartOf(id));
  }

  lemma QueryStarts(r: Routers.Router, id: u32, a: u64, billing: bool)
    ensures Count(AccountMail(Routers.Query(r, id, a, billing), a), StartOf(id)) == Count(AccountMail(r, a), StartOf(id)) + 1
  {
    var num := |Routers.CardsOf(Routers.WithAccount(r, a), a)|;
    AccountGainsOne(AccountMail(r, a), if billing then StartAccountBill(id, num) else StartAccountQuery(id, num), id);
  }

  /** A dump that is complete moves from the pending ones to the events. */
  lemma CompletesOnce(r: Routers.Router, opId: u32, id: u32)
    requires opId in r.snapshots && opId in r.operations
    ensures var r' := Routers.TryComplete(r, opId);
      && r'.snapshots.Keys <= r.snapshots.Keys
      && Count(r'.events, EventOf(id)) + (if id in r'.snapshots then 1 else 0) ==
         Count(r.events, EventOf(id)) + (if id in r.snapshots then 1 else 0)
  {
    var r' := Routers.TryComplete(r, opId);
    if r' != r {
      EventAppended(r.events, r'.events[|r.events|], id);
    }
  }

  lemma EventAppended(events: seq<ActorEvent>, e: ActorEvent, id: u32)
    ensures Count(events + [e], EventOf(id)) == Count(events, EventOf(id)) + if EventOf(id)(e) then 1 else 0
  {
    CountAppend(events, [e], EventOf(id));
    CountOne(e, EventOf(id));
  }

  /** Reporting a completion turns the message into the event. */
  lemma ReportsOnce(n: Net, ops: Submitted, id: u32)
    requires Wired(n) && Traced(n, ops) && Enabled(n, AtRouter) && Recognised(n, ops) && !n.mail[0].Execute?
    ensures var r' := Routers.Handle(n.r, n.mail[0]);
      && r'.snapshots.Keys <= n.r.snapshots.Keys
      && Count(r'.events, EventOf(id)) + (if id in r'.snapshots then 1 else 0) ==
         Count(n.r.events, EventOf(id)) + (if id in n.r.snapshots then 1 else 0) + if About(id)(n.mail[0]) then 1 else 0
  {
    hide Traced, MailTraced, Routers.TryComplete, Routers.Dispatch, Routers.CompletedResult;
    TracedHead(n, ops);
    var r' := Routers.Handle(n.r, n.mail[0]);
    match n.mail[0] {
      case OperationCompleted(opId, success, error) =>
        EventAppended(n.r.events, r'.events[|n.r.events|], id);
      case AccountQueryCompleted(opId, a, total, spent) =>
        EventAppended(n.r.events, r'.events[|n.r.events|], id);
      case AccountSnapshotCollected(opId, snap) =>
        var p := n.r.snapshots[opId];
        CompletesOnce(n.r.(snapshots := n.r.snapshots[opId := p.(accounts := p.accounts + [snap])]), opId, id);
      case CardSnapshotCollected(opId, snap) =>
        var p := n.r.snapshots[opId];
        CompletesOnce(n.r.(snapshots := n.r.snapshots[opId := p.(cards := p.cards + [snap])]), opId, id);
    }
  }

  lemma TracedHead(n: Net, ops: Submitted)
    requires Traced(n, ops) && n.mail != []
    ensures RouterTrace(ops)(n.mail[0])
  {
  }

  lemma RouteSelf(n: Net, ops: Submitted, id: u32)
    requires Wired(n) && Traced(n, ops) && Enabled(n, AtRouter) && n.mail[0].Execute? && n.mail[0].opId == id
    requires id in ops && Places(n, id, ops[id]) == 1
    ensures Held(RouterStep(n), id, ops[id]) + Count(RouterStep(n).r.events, EventOf(id)) == 1
    ensures Count(n.mail[1..], About(id)) == 0
  {
    hide Wired, Traced, Routers.Dispatch, CardMail, AccountMail, CardAt, PendingAt, Owed;
    var op := ops[id];
    TracedHead(n, ops);
    RoutesOnce(n.r, id, op);
    DispatchReports(n.r, id, op);
    var k := if op.Charge? || op.LimitCard? then CardKey(op.accountId, op.cardId) else CardKey(0, 0);
    var a := if op.LimitAccount? || IsQuery(op) then op.accountId else 0;
    RouterCards(n, k, a);
    if |RouterStep(n).r.events| > |n.r.events| {
      EventAppended(n.r.events, RouterStep(n).r.events[|n.r.events|], id);
    }
  }

  lemma RouteOther(n: Net, ops: Submitted, id: u32)
    requires Wired(n) && Traced(n, ops) && Enabled(n, AtRouter) && n.mail[0].Execute? && n.mail[0].opId != id && id in ops
    ensures Places(RouterStep(n), id, ops[id]) == Places(n, id, ops[id])
  {
    hide Wired, Traced, Routers.Dispatch, CardMail, AccountMail, CardAt, PendingAt, Owed, Held;
    var op := ops[id];
    TracedHead(n, ops);
    DispatchReports(n.r, n.mail[0].opId, n.mail[0].operation);
    var k := if op.Charge? || op.LimitCard? then CardKey(op.accountId, op.cardId) else CardKey(0, 0);
    var a := if op.LimitAccount? || IsQuery(op) then op.accountId else 0;
    RouterCards(n, k, a);
    RouterOthers(n, k, a, id);
    HeldAlike(n, RouterStep(n), op, k, a, id);
    if |RouterStep(n).r.events| > |n.r.events| {
      EventAppended(n.r.events, RouterStep(n).r.events[|n.r.events|], id);
    }
  }

  lemma HeldAlike(n: Net, n': Net, op: Op, k: CardKey, a: u64, id: u32)
    requires op.Charge? || op.LimitCard? ==> k == CardKey(op.accountId, op.cardId)
    requires op.LimitAccount? || IsQuery(op) ==> a == op.accountId
    requires Count(CardMail(n'.r, k), TaskMsg(id)) == Count(CardMail(n.r, k), TaskMsg(id)) && CardAt(n', k) == CardAt(n, k)
    requires Count(AccountMail(n'.r, a), LimitMsg(id)) == Count(AccountMail(n.r, a), LimitMsg(id))
    requires Count(AccountMail(n'.r, a), StartOf(id)) == Count(AccountMail(n.r, a), StartOf(id)) && PendingAt(n', a) == PendingAt(n, a)
    ensures (op.GetDatabase? ==> (id in n'.r.snapshots <==> id in n.r.snapshots)) ==> Held(n', id, op) == Held(n, id, op)
  {
    hide Count, CardMail, AccountMail, CardAt, PendingAt, Owed;
  }

  /** The same, for a dump up to its record. */
  lemma HeldReported(n: Net, n': Net, op: Op, k: CardKey, a: u64, id: u32)
    requires op.Charge? || op.LimitCard? ==> k == CardKey(op.accountId, op.cardId)
    requires op.LimitAccount? || IsQuery(op) ==> a == op.accountId
    requires Count(CardMail(n'.r, k), TaskMsg(id)) == Count(CardMail(n.r, k), TaskMsg(id)) && CardAt(n', k) == CardAt(n, k)
    requires Count(AccountMail(n'.r, a), LimitMsg(id)) == Count(AccountMail(n.r, a), LimitMsg(id))
    requires Count(AccountMail(n'.r, a), StartOf(id)) == Count(AccountMail(n.r, a), StartOf(id)) && PendingAt(n', a) == PendingAt(n, a)
    requires !op.GetDatabase? ==> id !in n.r.snapshots && id !in n'.r.snapshots
    ensures Held(n', id, op) + (if id in n.r.snapshots then 1 else 0) == Held(n, id, op) + (if id in n'.r.snapshots then 1 else 0)
  {
    hide Count, CardMail, AccountMail, CardAt, PendingAt, Owed;
  }

  lemma ReportPlaces(n: Net, ops: Submitted, id: u32)
    requires Wired(n) && Traced(n, ops) && Enabled(n, AtRouter) && Recognised(n, ops) && !n.mail[0].Execute? && id in ops
    ensures Places(RouterStep(n), id, ops[id]) == Places(n, id, ops[id])
  {
    hide Wired, Routers.Handle, CardMail, AccountMail, CardAt, PendingAt, Owed, Held, MailTraced, CardsTraced, EventsTraced;
    var op := ops[id];
    ReportsOnce(n, ops, id);
    var k := if op.Charge? || op.LimitCard? then CardKey(op.accountId, op.cardId) else CardKey(0, 0);
    var a := if op.LimitAccount? || IsQuery(op) then op.accountId else 0;
    RouterCards(n, k, a);
    RouterOthers(n, k, a, id);
    HeldReported(n, RouterStep(n), op, k, a, id);
  }

  lemma RouterStepPlaces(n: Net, ops: Submitted, id: u32)
    requires Wired(n) && Traced(n, ops) && Enabled(n, AtRouter) && Recognised(n, ops) && id in ops && Places(n, id, ops[id]) == 1
    ensures Places(RouterStep(n), id, ops[id]) == 1
  {
    hide Traced, Wired, Recognised, Held, RouterStep;
    if !n.mail[0].Execute? {
      ReportPlaces(n, ops, id);
    } else if n.mail[0].opId == id {
      RouterRest(n);
      RouteSelf(n, ops, id);
    } else {
      RouteOther(n, ops, id);
    }
  }

  lemma RouterRest(n: Net)
    requires Wired(n) && Enabled(n, AtRouter)
    ensures RouterStep(n).mail == n.mail[1..]
  {
  }
}
