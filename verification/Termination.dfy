/**
 Delivery terminates, whatever is submitted: routing an operation uses it up, and every
 other delivery lowers the total weight of the messages and tasks under way.
 */
module Termination {
  import opened Wrappers
  import opened Protocol
  import opened Messages
  import opened Counting
  import opened Network
  import opened Sums
  import Cards
  import Accounts
  import Routers

  /** A message outweighs everything that handling it can send. */
  function AccountWeight(m: AccountMsg): nat {
    match m
    case ApplyChargeFromCard(_, _, _, _) => 3
    case AccountReplaceState(_, _) => 1
    case _ => 2
  }

  function CardWeight(m: CardMsg): nat {
    match m
    case ExecuteCharge(_, _, _, _, _) => 5
    case ExecuteLimitChange(_, _) => 5
    case QueryCardState(_, _, _) => 3
    case CardReplaceState(_, _) => 1
    case _ => 2
  }

  function Load(c: Cards.Card): nat {
    (if c.current.Some? then 1 else 0) + 4 * |c.queue|
  }

  /** Everything an effect leaves behind. */
  function Left(e: Cards.Effect): nat {
    Load(e.card) + Weigh(e.toAccount, AccountWeight) + |e.toRouter|
  }

  lemma {:induction false} StartLeft(k: CardKey, c: Cards.Card)
    ensures Left(Cards.StartTask(k, c)) <= Load(c) + 3
    decreases |c.queue|, 1
  {
    match c.current {
      case None =>
      case Some(ChargeTask(op)) =>
        WeighOne(ApplyChargeFromCard(op.opId, op.amount, k.card, op.fromOffline), AccountWeight);
        FinishLeft(k, c, op.opId, false, Some(ChargeLimit(CardLimitExceeded)));
      case Some(LimitTask(opId, newLimit)) =>
        FinishLeft(k, c.(limit := newLimit), opId, true, None);
        FinishLeft(k, c, opId, false, Some(LimitUpdate(BelowCurrentUsage)));
    }
  }

  lemma {:induction false} FinishLeft(k: CardKey, c: Cards.Card, opId: u32, success: bool, error: Option<VerifyError>)
    requires c.current.Some?
    ensures Left(Cards.FinishTask(k, c, opId, success, error)) <= Load(c)
    decreases |c.queue|, 0
  {
    if |c.queue| > 0 {
      StartLeft(k, c.(current := Some(c.queue[0]), queue := c.queue[1..]));
    }
  }

  lemma CardHandleLeft(k: CardKey, c: Cards.Card, m: CardMsg)
    ensures Left(Cards.Handle(k, c, m)) < Load(c) + CardWeight(m)
  {
    match m {
      case ExecuteCharge(opId, _, _, amount, fromOffline) =>
        StartLeft(k, c.(current := Some(Cards.ChargeTask(Cards.ChargeOp(opId, amount, fromOffline)))));
      case ExecuteLimitChange(opId, newLimit) =>
        StartLeft(k, c.(current := Some(Cards.LimitTask(opId, newLimit))));
      case AccountChargeReply(opId, success, error) =>
        if c.current.Some? && c.current.value.ChargeTask? {
          FinishLeft(k, c, opId, success, error);
          FinishLeft(k, c.(consumed := c.consumed + c.current.value.op.amount), opId, success, error);
        }
      case QueryCardState(opId, _, _) =>
        WeighOne(CardQueryReply(opId, k.card, c.consumed), AccountWeight);
      case _ =>
    }
  }

  lemma AccountHandleLeft(a: u64, acct: Accounts.Account, m: AccountMsg)
    ensures var e := Accounts.Handle(a, acct, m); Weigh(e.toCard, CardWeight) + |e.toRouter| < AccountWeight(m)
  {
    if m.ApplyChargeFromCard? {
      WeighOne(Accounts.Handle(a, acct, m).toCard[0], CardWeight);
    }
  }

  // ---- the network ----

  ghost function IsExecute(): RouterMsg -> bool {
    (m: RouterMsg) => m.Execute?
  }

  /** Operations waiting to be routed. */
  ghost function Unrouted(n: Net): nat {
    Count(n.mail, IsExecute())
  }

  function AccountLoads(n: Net): map<u64, real> {
    map a | a in n.r.accounts :: Weigh(n.r.accounts[a], AccountWeight) as real
  }

  function CardLoad(n: Net, k: CardKey): nat {
    (if k in n.r.cards then Weigh(n.r.cards[k], CardWeight) else 0) + if k in n.cards then Load(n.cards[k]) else 0
  }

  function CardLoads(n: Net): map<CardKey, real> {
    map k | k in n.r.cards :: CardLoad(n, k) as real
  }

  ghost function Weight(n: Net): real {
    |n.mail| as real + Total(AccountLoads(n)) + Total(CardLoads(n))
  }

  lemma AccountLoadsAt(n: Net, n': Net, a: u64)
    requires a in n.r.accounts && a in n'.r.accounts && n'.r.accounts == n.r.accounts[a := n'.r.accounts[a]]
    ensures AccountLoads(n') == AccountLoads(n)[a := Weigh(n'.r.accounts[a], AccountWeight) as real]
    ensures Total(AccountLoads(n')) ==
      Total(AccountLoads(n)) + (Weigh(n'.r.accounts[a], AccountWeight) as real) - (Weigh(n.r.accounts[a], AccountWeight) as real)
  {
    TotalUpdate(AccountLoads(n), a, Weigh(n'.r.accounts[a], AccountWeight) as real);
  }

  lemma CardLoadsAt(n: Net, n': Net, k: CardKey)
    requires k in n.r.cards && k in n'.r.cards && n'.r.cards == n.r.cards[k := n'.r.cards[k]]
    requires n'.cards == if k in n'.cards then n.cards[k := n'.cards[k]] else n.cards
    ensures CardLoads(n') == CardLoads(n)[k := CardLoad(n', k) as real]
    ensures Total(CardLoads(n')) == Total(CardLoads(n)) + (CardLoad(n', k) as real) - (CardLoad(n, k) as real)
  {
    TotalUpdate(CardLoads(n), k, CardLoad(n', k) as real);
  }

  lemma CardStepLighter(n: Net, k: CardKey)
    requires Wired(n) && Enabled(n, AtCard(k))
    ensures Weight(CardStep(n, k)) <= Weight(n) - 1.0
  {
    hide Cards.Handle, Load, CardWeight, AccountWeight, AccountLoads, CardLoads;
    var n', cm := CardStep(n, k), n.r.cards[k];
    var e := Cards.Handle(k, n.cards[k], cm[0]);
    CardHandleLeft(k, n.cards[k], cm[0]);
    WeighAppend(n.r.accounts[k.account], e.toAccount, AccountWeight);
    AccountLoadsAt(n, n', k.account);
    CardLoadsAt(n, n', k);
  }

  lemma AccountStepCards(n: Net, a: u64)
    requires Wired(n) && Enabled(n, AtAccount(a))
    ensures Total(CardLoads(AccountStep(n, a))) <=
      Total(CardLoads(n)) + (Weigh(Accounts.Handle(a, n.accounts[a], n.r.accounts[a][0]).toCard, CardWeight) as real)
  {
    hide Accounts.Handle, Load, CardWeight, CardLoads;
    var n', msg := AccountStep(n, a), n.r.accounts[a][0];
    var k := if msg.ApplyChargeFromCard? then CardKey(a, msg.cardId) else CardKey(a, 0);
    if k in n.r.cards {
      var out := Accounts.Handle(a, n.accounts[a], msg).toCard;
      WeighAppend(n.r.cards[k], out, CardWeight);
      CardLoadsAt(n, n', k);
    } else {
      SameCardLoads(n, n');
    }
  }

  lemma SameCardLoads(n: Net, n': Net)
    requires n.r.cards == n'.r.cards && n.cards == n'.cards
    ensures CardLoads(n) == CardLoads(n')
  {
  }

  lemma AccountStepLighter(n: Net, a: u64)
    requires Wired(n) && Enabled(n, AtAccount(a))
    ensures Weight(AccountStep(n, a)) <= Weight(n) - 1.0
  {
    hide Accounts.Handle, CardWeight, AccountWeight, AccountLoads, CardLoads;
    var n', am := AccountStep(n, a), n.r.accounts[a];
    AccountHandleLeft(a, n.accounts[a], am[0]);
    AccountStepCards(n, a);
    AccountLoadsAt(n, n', a);
  }

  /** Reporting uses up one message and sends none. */
  lemma ReportLighter(n: Net)
    requires Wired(n) && Enabled(n, AtRouter) && !n.mail[0].Execute?
    ensures Weight(RouterStep(n)) <= Weight(n) - 1.0
  {
    var n' := RouterStep(n);
    ReportsOnly(n.r, n.mail[0]);
    hide Routers.Handle;
    assert n'.cards == n.cards;
    SameCardLoads(n, n');
    assert AccountLoads(n') == AccountLoads(n);
  }

  // ---- no actor routes anything ----

  lemma StepUnrouted(n: Net, l: Label)
    requires Wired(n) && Enabled(n, l) && !l.Submit?
    ensures Unrouted(Next(n, l)) == Unrouted(n) - if l.AtRouter? && n.mail[0].Execute? then 1 else 0
  {
    match l {
      case AtRouter =>
      case AtAccount(a) =>
        var out := Accounts.Handle(a, n.accounts[a], n.r.accounts[a][0]).toRouter;
        AccountSends(a, n.accounts[a], n.r.accounts[a][0]);
        CountAppend(n.mail, out, IsExecute());
        CountZero(out, IsExecute());
      case AtCard(k) =>
        var out := Cards.Handle(k, n.cards[k], n.r.cards[k][0]).toRouter;
        CardReports(k, n.cards[k], n.r.cards[k][0]);
        CountAppend(n.mail, out, IsExecute());
        CountZero(out, IsExecute());
    }
  }

  lemma {:induction false} StartReports(k: CardKey, c: Cards.Card)
    ensures forall m :: m in Cards.StartTask(k, c).toRouter ==> !m.Execute?
    decreases |c.queue|, 1
  {
    match c.current {
      case None =>
      case Some(ChargeTask(op)) =>
        FinishReports(k, c, op.opId, false, Some(ChargeLimit(CardLimitExceeded)));
      case Some(LimitTask(opId, newLimit)) =>
        FinishReports(k, c.(limit := newLimit), opId, true, None);
        FinishReports(k, c, opId, false, Some(LimitUpdate(BelowCurrentUsage)));
    }
  }

  lemma {:induction false} FinishReports(k: CardKey, c: Cards.Card, opId: u32, success: bool, error: Option<VerifyError>)
    ensures forall m :: m in Cards.FinishTask(k, c, opId, success, error).toRouter ==> !m.Execute?
    decreases |c.queue|, 0
  {
    if |c.queue| > 0 {
      StartReports(k, c.(current := Some(c.queue[0]), queue := c.queue[1..]));
    }
  }

  lemma CardReports(k: CardKey, c: Cards.Card, m: CardMsg)
    ensures forall r :: r in Cards.Handle(k, c, m).toRouter ==> !r.Execute?
  {
    match m {
      case ExecuteCharge(opId, _, _, amount, fromOffline) =>
        StartReports(k, c.(current := Some(Cards.ChargeTask(Cards.ChargeOp(opId, amount, fromOffline)))));
      case ExecuteLimitChange(opId, newLimit) =>
        StartReports(k, c.(current := Some(Cards.LimitTask(opId, newLimit))));
      case AccountChargeReply(opId, success, error) =>
        if c.current.Some? && c.current.value.ChargeTask? {
          FinishReports(k, c, opId, success, error);
          FinishReports(k, c.(consumed := c.consumed + c.current.value.op.amount), opId, success, error);
        }
      case _ =>
    }
  }

  /** Every delivery routes one of the waiting operations, or routes none and makes the network lighter. */
  lemma Decreases(n: Net, l: Label)
    requires Wired(n) && Enabled(n, l) && !l.Submit?
    ensures Unrouted(Next(n, l)) < Unrouted(n) || (Unrouted(Next(n, l)) == Unrouted(n) && Weight(Next(n, l)) <= Weight(n) - 1.0)
  {
    StepUnrouted(n, l);
    hide Unrouted, Weight, CardStep, AccountStep, RouterStep;
    match l {
      case AtRouter =>
        if !n.mail[0].Execute? {
          ReportLighter(n);
        }
      case AtAccount(a) =>
        AccountStepLighter(n, a);
      case AtCard(k) =>
        CardStepLighter(n, k);
    }
  }

  lemma {:induction false} TotalNotNegative<K(!new)>(m: map<K, real>)
    requires forall k :: k in m ==> m[k] >= 0.0
    ensures Total(m) >= 0.0
    decreases |m|
  {
    if m != map[] {
      var k :| k in m;
      TotalRemove(m, k);
      TotalNotNegative(m - {k});
    }
  }

  lemma WeightNotNegative(n: Net)
    ensures Weight(n) >= 0.0
  {
    TotalNotNegative(AccountLoads(n));
    TotalNotNegative(CardLoads(n));
  }

  /** From every state deliveries can go on until nothing is left, and `Drains` finds such a schedule by taking any enabled one. */
  lemma {:induction false} Drains(n: Net) returns (ls: seq<Label>)
    requires Wired(n)
    ensures Schedule(n, ls) && (forall l :: l in ls ==> !l.Submit?)
    ensures forall l :: Enabled(Run(n, ls), l) ==> l.Submit?
    decreases Unrouted(n), Weight(n).Floor
  {
    if l :| Enabled(n, l) && !l.Submit? {
      NextWired(n, l);
      Decreases(n, l);
      WeightNotNegative(Next(n, l));
      hide Unrouted, Weight, Next, Enabled;
      var rest := Drains(Next(n, l));
      ls := [l] + rest;
      assert ls[1..] == rest;
    } else {
      ls := [];
    }
  }

  /** No run delivers forever. */
  lemma NoEndlessDelivery(run: nat -> Net, labels: nat -> Label)
    requires forall i: nat :: Wired(run(i)) && Enabled(run(i), labels(i)) && !labels(i).Submit? && run(i + 1) == Next(run(i), labels(i))
    ensures false
  {
    Endless(run, labels, 0);
  }

  lemma {:induction false} Endless(run: nat -> Net, labels: nat -> Label, i: nat)
    requires forall j: nat :: Wired(run(j)) && Enabled(run(j), labels(j)) && !labels(j).Submit? && run(j + 1) == Next(run(j), labels(j))
    ensures false
    decreases Unrouted(run(i)), Weight(run(i)).Floor
  {
    Decreases(run(i), labels(i));
    WeightNotNegative(run(i + 1));
    hide Unrouted, Weight, Next, Enabled;
    Endless(run, labels, i + 1);
  }
}
