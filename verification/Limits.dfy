/**
 Limits survive the gap between the card's check and the account's approval: in every
 run with non-negative amounts and no ReplaceDatabase, consumption stays within the
 limit plus what offline-replayed charges added.
 */
module Limits {
  import opened Wrappers
  import opened Protocol
  import opened Messages
  import opened Network
  import Cards
  import Accounts
  import Routers
  import Handshake

  /** `replays` says whether the run may contain offline-replayed charges at all. */
  predicate Payable(amount: real, fromOffline: bool, replays: bool) {
    amount >= 0.0 && (fromOffline ==> replays)
  }

  predicate Admitted(l: Label, replays: bool) {
    l.Submit? ==> !l.op.ReplaceDatabase? && (l.op.Charge? ==> Payable(l.op.amount, l.op.fromOfflineStation, replays))
  }

  ghost function AccountMsgOk(replays: bool): (u64, AccountMsg) -> bool {
    (_, m: AccountMsg) => m.ApplyChargeFromCard? ==> Payable(m.amount, m.fromOffline, replays)
  }

  ghost function CardMsgOk(replays: bool): (CardKey, CardMsg) -> bool {
    (_, m: CardMsg) => m.ExecuteCharge? ==> Payable(m.amount, m.fromOffline, replays)
  }

  ghost function RouterMsgOk(replays: bool): RouterMsg -> bool {
    (m: RouterMsg) => m.Execute? && m.operation.Charge? ==>
      Payable(m.operation.amount, m.operation.fromOfflineStation, replays)
  }

  predicate TaskOk(t: Cards.Task, replays: bool) {
    t.ChargeTask? ==> Payable(t.op.amount, t.op.fromOffline, replays)
  }

  /** Consumption within the limit plus the replayed total. */
  predicate Within(limit: Option<real>, consumed: real, replayed: real, replays: bool) {
    && consumed >= 0.0
    && replayed >= 0.0
    && (!replays ==> replayed == 0.0)
    && (limit.Some? ==> limit.value >= 0.0 && consumed <= limit.value + replayed)
  }

  /** An online charge that passed the card's check still fits when the approval arrives. */
  predicate Headroom(c: Cards.Card) {
    c.current.Some? && c.current.value.ChargeTask? && !c.current.value.op.fromOffline && c.limit.Some? ==>
      c.consumed + c.current.value.op.amount <= c.limit.value
  }

  ghost predicate TasksOk(c: Cards.Card, replays: bool) {
    && (c.current.Some? ==> TaskOk(c.current.value, replays))
    && forall t :: t in c.queue ==> TaskOk(t, replays)
  }

  ghost predicate CardWithin(c: Cards.Card, replayed: real, replays: bool) {
    Within(c.limit, c.consumed, replayed, replays) && TasksOk(c, replays)
  }

  lemma {:induction false} StartWithin(k: CardKey, c: Cards.Card, replayed: real, replays: bool)
    requires CardWithin(c, replayed, replays)
    ensures var e := Cards.StartTask(k, c);
      && CardWithin(e.card, replayed, replays) && Headroom(e.card)
      && forall m :: m in e.toAccount ==> AccountMsgOk(replays)(k.account, m)
    decreases |c.queue|, 1
  {
    match c.current {
      case None =>
      case Some(ChargeTask(op)) =>
        FinishWithin(k, c, op.opId, false, Some(ChargeLimit(CardLimitExceeded)), replayed, replays);
      case Some(LimitTask(opId, newLimit)) =>
        FinishWithin(k, c, opId, false, Some(LimitUpdate(BelowCurrentUsage)), replayed, replays);
        if CanSetLimit(newLimit, c.consumed) {
          FinishWithin(k, c.(limit := newLimit), opId, true, None, replayed, replays);
        }
    }
  }

  lemma {:induction false} FinishWithin(
    k: CardKey, c: Cards.Card, opId: u32, success: bool, error: Option<VerifyError>, replayed: real, replays: bool)
    requires CardWithin(c, replayed, replays)
    ensures var e := Cards.FinishTask(k, c, opId, success, error);
      && CardWithin(e.card, replayed, replays) && Headroom(e.card)
      && forall m :: m in e.toAccount ==> AccountMsgOk(replays)(k.account, m)
    decreases |c.queue|, 0
  {
    if |c.queue| > 0 {
      StartWithin(k, c.(current := Some(c.queue[0]), queue := c.queue[1..]), replayed, replays);
    }
  }

  lemma HandleWithin(k: CardKey, c: Cards.Card, m: CardMsg, replayed: real, replays: bool)
    requires CardWithin(c, replayed, replays) && Headroom(c)
    requires CardMsgOk(replays)(k, m) && !m.CardReplaceState?
    ensures var e := Cards.Handle(k, c, m);
      && CardWithin(e.card, replayed + CardReplay(c, m), replays) && Headroom(e.card)
      && forall m :: m in e.toAccount ==> AccountMsgOk(replays)(k.account, m)
  {
    match m {
      case ExecuteCharge(opId, _, _, amount, fromOffline) =>
        StartWithin(k, c.(current := Some(Cards.ChargeTask(Cards.ChargeOp(opId, amount, fromOffline)))), replayed, replays);
      case ExecuteLimitChange(opId, newLimit) =>
        StartWithin(k, c.(current := Some(Cards.LimitTask(opId, newLimit))), replayed, replays);
      case AccountChargeReply(opId, success, error) =>
        if c.current.Some? && c.current.value.ChargeTask? && c.current.value.op.opId == opId {
          var c' := if success then c.(consumed := c.consumed + c.current.value.op.amount) else c;
          FinishWithin(k, c', opId, success, error, replayed + CardReplay(c, m), replays);
        }
      case QueryCardState(_, _, _) =>
      case CardGetSnapshot(_) =>
    }
  }

  lemma AccountHandleWithin(a: u64, acct: Accounts.Account, m: AccountMsg, replayed: real, replays: bool)
    requires Within(acct.limit, acct.consumed, replayed, replays)
    requires AccountMsgOk(replays)(a, m) && !m.AccountReplaceState?
    ensures var acct' := Accounts.Handle(a, acct, m).account;
      Within(acct'.limit, acct'.consumed, replayed + AccountReplay(m), replays)
  {
  }

  // ---- the network ----

  /** What card `k` adds to the offline-replayed charges applied to it by handling `msg`. */
  function CardReplay(c: Cards.Card, msg: CardMsg): real {
    if msg.AccountChargeReply? && msg.success && c.current.Some? && c.current.value.ChargeTask?
       && c.current.value.op.opId == msg.opId && c.current.value.op.fromOffline
    then c.current.value.op.amount
    else 0.0
  }

  function AccountReplay(msg: AccountMsg): real {
    if msg.ApplyChargeFromCard? && msg.fromOffline then msg.amount else 0.0
  }

  /** The totals of offline-replayed charges applied so far, at each card and at each account. */
  datatype Replayed = Replayed(cards: map<CardKey, real>, accounts: map<u64, real>)

  const NOTHING_REPLAYED := Replayed(map[], map[])

  function CardTotal(h: Replayed, k: CardKey): real {
    if k in h.cards then h.cards[k] else 0.0
  }

  function AccountTotal(h: Replayed, a: u64): real {
    if a in h.accounts then h.accounts[a] else 0.0
  }

  function Track(n: Net, l: Label, h: Replayed): Replayed
    requires Wired(n) && Enabled(n, l)
  {
    match l
    case AtAccount(a) => h.(accounts := h.accounts[a := AccountTotal(h, a) + AccountReplay(n.r.accounts[a][0])])
    case AtCard(k) => h.(cards := h.cards[k := CardTotal(h, k) + CardReplay(n.cards[k], n.r.cards[k][0])])
    case _ => h
  }

  /** The totals after the schedule `ls`. */
  ghost function TrackRun(n: Net, ls: seq<Label>, h: Replayed): Replayed
    requires Wired(n) && Schedule(n, ls)
    decreases |ls|
  {
    if ls == [] then h
    else
      NextWired(n, ls[0]);
      TrackRun(Next(n, ls[0]), ls[1..], Track(n, ls[0], h))
  }

  ghost predicate MailOk(n: Net, replays: bool) {
    Every(n, AccountMsgOk(replays), CardMsgOk(replays), RouterMsgOk(replays))
  }

  ghost predicate CardsWithin(n: Net, h: Replayed, replays: bool)
  {
    forall k :: k in n.cards ==> CardWithin(n.cards[k], CardTotal(h, k), replays) && Headroom(n.cards[k])
  }

  ghost predicate AccountsWithin(n: Net, h: Replayed, replays: bool)
  {
    forall a :: a in n.accounts ==> Within(n.accounts[a].limit, n.accounts[a].consumed, AccountTotal(h, a), replays)
  }

  ghost predicate TotalsOk(h: Replayed, replays: bool) {
    && (forall k :: k in h.cards ==> h.cards[k] >= 0.0 && (!replays ==> h.cards[k] == 0.0))
    && (forall a :: a in h.accounts ==> h.accounts[a] >= 0.0 && (!replays ==> h.accounts[a] == 0.0))
  }

  ghost predicate Bounded(n: Net, h: Replayed, replays: bool) {
    Wired(n) && TotalsOk(h, replays) && MailOk(n, replays) && CardsWithin(n, h, replays) && AccountsWithin(n, h, replays)
  }

  lemma CardStepMailOk(n: Net, k: CardKey, h: Replayed, replays: bool)
    requires Handshake.Safe(n) && Bounded(n, h, replays) && Enabled(n, AtCard(k))
    ensures MailOk(CardStep(n, k), replays)
  {
    var m := n.r.cards[k][0];
    assert m in n.r.cards[k];
    HandleWithin(k, n.cards[k], m, CardTotal(h, k), replays);
    Handshake.CardSends(k, n.cards[k], m);
    hide Cards.Handle;
    CardStepEvery(n, k, AccountMsgOk(replays), CardMsgOk(replays), RouterMsgOk(replays));
  }

  lemma CardStepCard(n: Net, k: CardKey, h: Replayed, replays: bool)
    requires Handshake.Safe(n) && Bounded(n, h, replays) && Enabled(n, AtCard(k))
    ensures var c', h' := CardStep(n, k).cards[k], Track(n, AtCard(k), h);
      CardWithin(c', CardTotal(h', k), replays) && Headroom(c')
  {
    hide Cards.Handle, TasksOk, CardReplay;
    var m := n.r.cards[k][0];
    assert m in n.r.cards[k];
    HandleWithin(k, n.cards[k], m, CardTotal(h, k), replays);
  }

  lemma TrackedTotal(n: Net, k: CardKey, h: Replayed, replays: bool)
    requires Handshake.Safe(n) && Bounded(n, h, replays) && Enabled(n, AtCard(k))
    ensures var total := CardTotal(Track(n, AtCard(k), h), k); total >= 0.0 && (!replays ==> total == 0.0)
  {
  }

  lemma CardStepTotals(n: Net, k: CardKey, h: Replayed, replays: bool)
    requires Handshake.Safe(n) && Bounded(n, h, replays) && Enabled(n, AtCard(k)) && Wired(CardStep(n, k))
    ensures TotalsOk(Track(n, AtCard(k), h), replays)
    ensures AccountsWithin(CardStep(n, k), Track(n, AtCard(k), h), replays)
  {
    hide Cards.Handle, CardWithin, Headroom, CardReplay, MailOk, Handshake.Safe, Within;
    TrackedTotal(n, k, h, replays);
    assert CardTotal(Track(n, AtCard(k), h), k) == Track(n, AtCard(k), h).cards[k];
  }

  lemma CardStepWithin(n: Net, k: CardKey, h: Replayed, replays: bool)
    requires Handshake.Safe(n) && Bounded(n, h, replays) && Enabled(n, AtCard(k)) && Wired(CardStep(n, k))
    ensures CardsWithin(CardStep(n, k), Track(n, AtCard(k), h), replays)
  {
    hide Cards.Handle, CardWithin, Headroom, CardReplay, MailOk, Handshake.Safe, Within;
    CardStepCard(n, k, h, replays);
  }

  lemma AccountStepMailOk(n: Net, a: u64, h: Replayed, replays: bool)
    requires Bounded(n, h, replays) && Enabled(n, AtAccount(a))
    ensures MailOk(AccountStep(n, a), replays)
  {
    AccountSends(a, n.accounts[a], n.r.accounts[a][0]);
    hide Accounts.Handle;
    AccountStepEvery(n, a, AccountMsgOk(replays), CardMsgOk(replays), RouterMsgOk(replays));
  }

  lemma AccountStepAccount(n: Net, a: u64, h: Replayed, replays: bool)
    requires Bounded(n, h, replays) && Enabled(n, AtAccount(a)) && Handshake.Safe(n)
    ensures var acct', h' := AccountStep(n, a).accounts[a], Track(n, AtAccount(a), h);
      && Within(acct'.limit, acct'.consumed, AccountTotal(h', a), replays)
      && AccountTotal(h', a) >= 0.0 && (!replays ==> AccountTotal(h', a) == 0.0)
  {
    hide Accounts.Handle, TasksOk;
    var m := n.r.accounts[a][0];
    assert m in n.r.accounts[a];
    AccountHandleWithin(a, n.accounts[a], m, AccountTotal(h, a), replays);
  }

  lemma AccountStepWithin(n: Net, a: u64, h: Replayed, replays: bool)
    requires Handshake.Safe(n) && Bounded(n, h, replays) && Enabled(n, AtAccount(a)) && Wired(AccountStep(n, a))
    ensures TotalsOk(Track(n, AtAccount(a), h), replays)
    ensures CardsWithin(AccountStep(n, a), Track(n, AtAccount(a), h), replays) && AccountsWithin(AccountStep(n, a), Track(n, AtAccount(a), h), replays)
  {
    hide Accounts.Handle, CardWithin, Headroom, AccountReplay, MailOk, Handshake.Safe, Within;
    AccountStepAccount(n, a, h, replays);
    assert AccountTotal(Track(n, AtAccount(a), h), a) == Track(n, AtAccount(a), h).accounts[a];
  }

  lemma RouterStepMailOk(n: Net, h: Replayed, replays: bool)
    requires Bounded(n, h, replays) && Enabled(n, AtRouter)
    ensures MailOk(RouterStep(n), replays)
  {
    assert n.mail[0] in n.mail;
    hide Routers.Handle;
    RouterStepEvery(n, AccountMsgOk(replays), CardMsgOk(replays), RouterMsgOk(replays));
  }

  lemma RouterStepWithin(n: Net, h: Replayed, replays: bool)
    requires Bounded(n, h, replays) && Enabled(n, AtRouter) && Wired(RouterStep(n))
    ensures CardsWithin(RouterStep(n), h, replays) && AccountsWithin(RouterStep(n), h, replays)
  {
    hide Routers.Handle;
  }

  lemma NextBounded(n: Net, l: Label, h: Replayed, replays: bool)
    requires Handshake.Safe(n) && Bounded(n, h, replays) && Enabled(n, l) && Admitted(l, replays)
    ensures Bounded(Next(n, l), Track(n, l, h), replays)
  {
    NextWired(n, l);
    match l {
      case Submit(_, _) =>
      case AtRouter =>
        RouterStepMailOk(n, h, replays);
        RouterStepWithin(n, h, replays);
      case AtAccount(a) =>
        AccountStepMailOk(n, a, h, replays);
        AccountStepWithin(n, a, h, replays);
      case AtCard(k) =>
        CardStepMailOk(n, k, h, replays);
        CardStepTotals(n, k, h, replays);
        CardStepWithin(n, k, h, replays);
    }
  }

  lemma {:induction false} RunBounded(n: Net, ls: seq<Label>, h: Replayed, replays: bool)
    requires Handshake.Safe(n) && Bounded(n, h, replays) && Schedule(n, ls)
    requires forall l :: l in ls ==> Admitted(l, replays)
    ensures Bounded(Run(n, ls), TrackRun(n, ls, h), replays)
    decreases |ls|
  {
    if ls != [] {
      NextBounded(n, ls[0], h, replays);
      Handshake.NextSafe(n, ls[0]);
      RunBounded(Next(n, ls[0]), ls[1..], Track(n, ls[0], h), replays);
    }
  }

  /**
   In every reachable state every card and every account is within its limit plus the
   offline-replayed charges applied to it; without such charges, within its limit.
   */
  lemma LimitsHold(ls: seq<Label>, replays: bool)
    requires Schedule(EMPTY_NET, ls) && forall l :: l in ls ==> Admitted(l, replays)
    ensures var n, h := Run(EMPTY_NET, ls), TrackRun(EMPTY_NET, ls, NOTHING_REPLAYED);
      && (forall k :: k in n.cards && n.cards[k].limit.Some? ==>
        n.cards[k].consumed <= n.cards[k].limit.value + if replays then CardTotal(h, k) else 0.0)
      && (forall a :: a in n.accounts && n.accounts[a].limit.Some? ==>
        n.accounts[a].consumed <= n.accounts[a].limit.value + if replays then AccountTotal(h, a) else 0.0)
  {
    RunBounded(EMPTY_NET, ls, NOTHING_REPLAYED, replays);
  }
}
