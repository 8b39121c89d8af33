/**
 Money conservation: in every reachable state of charges, limit changes, queries and
 snapshots, an account's consumption is what its cards have consumed plus the accepted
 charges whose reply has not reached its card.
 */
module Conservation {
  import opened Wrappers
  import opened Protocol
  import opened Messages
  import opened Counting
  import opened Network
  import opened Sums
  import Cards
  import Accounts
  import Routers
  import opened Handshake

  predicate Plain(l: Label) {
    l.Submit? ==> !l.op.ReplaceDatabase? && !l.op.Bill?
  }

  // ---- no bill is under way ----

  ghost function NoBillAccountMsg(): (u64, AccountMsg) -> bool {
    (_, m: AccountMsg) => !m.StartAccountBill?
  }

  ghost function NoBillCardMsg(): (CardKey, CardMsg) -> bool {
    (_, m: CardMsg) => m.QueryCardState? ==> !m.reset
  }

  ghost function NoBillRouterMsg(): RouterMsg -> bool {
    (m: RouterMsg) => m.Execute? ==> !m.operation.Bill?
  }

  ghost predicate BillFree(n: Net) {
    && Every(n, NoBillAccountMsg(), NoBillCardMsg(), NoBillRouterMsg())
    && forall a :: a in n.accounts && n.accounts[a].pending.Some? ==> !n.accounts[a].pending.value.billing
  }

  lemma CardStepBillFree(n: Net, k: CardKey)
    requires Safe(n) && BillFree(n) && Enabled(n, AtCard(k))
    ensures BillFree(CardStep(n, k))
  {
    assert CardOk(k, n.cards[k], n.r.cards[k], n.r.accounts[k.account]);
    CardSends(k, n.cards[k], n.r.cards[k][0]);
    hide Cards.Handle, Safe, CardOk;
    CardStepEvery(n, k, NoBillAccountMsg(), NoBillCardMsg(), NoBillRouterMsg());
  }

  lemma AccountStepBillFree(n: Net, a: u64)
    requires Safe(n) && BillFree(n) && Enabled(n, AtAccount(a))
    ensures BillFree(AccountStep(n, a))
  {
    assert n.r.accounts[a][0] in n.r.accounts[a];
    AccountSends(a, n.accounts[a], n.r.accounts[a][0]);
    AccountStepEvery(n, a, NoBillAccountMsg(), NoBillCardMsg(), NoBillRouterMsg());
  }

  lemma RouterStepBillFree(n: Net)
    requires Wired(n) && BillFree(n) && Enabled(n, AtRouter)
    ensures BillFree(RouterStep(n))
  {
    assert n.mail[0] in n.mail;
    hide Routers.Handle;
    RouterStepEvery(n, NoBillAccountMsg(), NoBillCardMsg(), NoBillRouterMsg());
  }

  lemma NextBillFree(n: Net, l: Label)
    requires Safe(n) && BillFree(n) && Enabled(n, l) && Plain(l)
    ensures BillFree(Next(n, l))
  {
    match l {
      case Submit(_, _) =>
      case AtRouter => RouterStepBillFree(n);
      case AtAccount(a) => AccountStepBillFree(n, a);
      case AtCard(k) => CardStepBillFree(n, k);
    }
  }

  // ---- shares ----

  /** The amount of an accepted charge whose reply is still on its way to the card. */
  ghost function Undelivered(c: Cards.Card, cm: seq<CardMsg>): real {
    if c.current.Some? && c.current.value.ChargeTask? && exists m :: m in cm && m.AccountChargeReply? && m.success then
      c.current.value.op.amount
    else
      0.0
  }

  ghost function Share(c: Cards.Card, cm: seq<CardMsg>): real {
    c.consumed + Undelivered(c, cm)
  }

  ghost function Shares(n: Net, a: u64): map<CardKey, real>
    requires Wired(n)
  {
    map k | k in n.cards && k.account == a :: Share(n.cards[k], n.r.cards[k])
  }

  ghost predicate Conserved(n: Net) {
    && Wired(n)
    && forall a :: a in n.accounts ==> n.accounts[a].consumed == Total(Shares(n, a))
  }

  /** A card never changes its own share: what it adds to `consumed` was undelivered before. */
  lemma HandleKeepsShare(k: CardKey, c: Cards.Card, cm: seq<CardMsg>, am: seq<AccountMsg>)
    requires CardOk(k, c, cm, am) && cm != [] && !cm[0].CardReplaceState?
    requires cm[0].QueryCardState? ==> !cm[0].reset
    ensures Share(Cards.Handle(k, c, cm[0]).card, cm[1..]) == Share(c, cm)
  {
    var m := cm[0];
    var rest := cm[1..];
    CountZero(rest, IsReply());
    assert forall x :: x in cm <==> x == m || x in rest;
    match m {
      case ExecuteCharge(opId, _, _, amount, fromOffline) =>
        StartConsumed(k, c.(current := Some(Cards.ChargeTask(Cards.ChargeOp(opId, amount, fromOffline)))));
      case ExecuteLimitChange(opId, newLimit) =>
        StartConsumed(k, c.(current := Some(Cards.LimitTask(opId, newLimit))));
      case AccountChargeReply(opId, success, error) =>
        assert c.current.Some? && Answers(m, c.current.value.op);
        var c' := if success then c.(consumed := c.consumed + c.current.value.op.amount) else c;
        FinishConsumed(k, c', opId, success, error);
      case QueryCardState(_, _, _) =>
      case CardGetSnapshot(_) =>
    }
  }

  lemma {:induction false} StartConsumed(k: CardKey, c: Cards.Card)
    ensures Cards.StartTask(k, c).card.consumed == c.consumed
    decreases |c.queue|, 1
  {
    match c.current {
      case None =>
      case Some(ChargeTask(op)) =>
        FinishConsumed(k, c, op.opId, false, Some(ChargeLimit(CardLimitExceeded)));
      case Some(LimitTask(opId, newLimit)) =>
        FinishConsumed(k, c.(limit := newLimit), opId, true, None);
        FinishConsumed(k, c, opId, false, Some(LimitUpdate(BelowCurrentUsage)));
    }
  }

  lemma {:induction false} FinishConsumed(k: CardKey, c: Cards.Card, opId: u32, success: bool, error: Option<VerifyError>)
    ensures Cards.FinishTask(k, c, opId, success, error).card.consumed == c.consumed
    decreases |c.queue|, 0
  {
    if |c.queue| > 0 {
      StartConsumed(k, c.(current := Some(c.queue[0]), queue := c.queue[1..]));
    }
  }

  lemma CardStepShares(n: Net, k: CardKey, a: u64)
    requires Safe(n) && BillFree(n) && Enabled(n, AtCard(k)) && Wired(CardStep(n, k))
    ensures Shares(CardStep(n, k), a) == Shares(n, a)
  {
    hide Cards.Handle, CardOk, Share, Safe, BillFree;
    CardHeadOk(n, k);
    NoResetHead(n, k);
    HandleKeepsShare(k, n.cards[k], n.r.cards[k], n.r.accounts[k.account]);
  }

  lemma NoResetHead(n: Net, k: CardKey)
    requires BillFree(n) && Enabled(n, AtCard(k))
    ensures n.r.cards[k][0].QueryCardState? ==> !n.r.cards[k][0].reset
  {
    assert n.r.cards[k][0] in n.r.cards[k];
  }

  lemma CardStepConserved(n: Net, k: CardKey)
    requires Safe(n) && BillFree(n) && Conserved(n) && Enabled(n, AtCard(k))
    ensures Conserved(CardStep(n, k))
  {
    NextWired(n, AtCard(k));
    hide Cards.Handle, Shares;
    forall a | a in n.accounts ensures CardStep(n, k).accounts[a].consumed == Total(Shares(CardStep(n, k), a)) {
      CardStepShares(n, k, a);
    }
  }

  /** Approving a charge adds the same amount to the account and to the card's undelivered share. */
  lemma ApprovalShare(a: u64, acct: Accounts.Account, k: CardKey, c: Cards.Card, cm: seq<CardMsg>, am: seq<AccountMsg>)
    requires CardOk(k, c, cm, am) && am != [] && IsApply(k.card)(am[0])
    ensures var e := Accounts.Handle(a, acct, am[0]);
      Share(c, cm + e.toCard) - Share(c, cm) == e.account.consumed - acct.consumed
  {
    var e := Accounts.Handle(a, acct, am[0]);
    CountZero(am, IsApply(k.card));
    CountZero(cm, IsReply());
    assert forall x :: x in cm + e.toCard <==> x in cm || x in e.toCard;
    assert am[0] in am && e.toCard[0] in cm + e.toCard;
  }

  lemma ApprovalShares(n: Net, a: u64)
    requires Safe(n) && Enabled(n, AtAccount(a)) && n.r.accounts[a][0].ApplyChargeFromCard?
    requires Wired(AccountStep(n, a))
    ensures var k, n' := CardKey(a, n.r.accounts[a][0].cardId), AccountStep(n, a);
      && k in n.cards
      && Shares(n', a) == Shares(n, a)[k := Share(n.cards[k], n.r.cards[k] + Accounts.Handle(a, n.accounts[a], n.r.accounts[a][0]).toCard)]
  {
    assert n.r.accounts[a][0] in n.r.accounts[a];
    hide Accounts.Handle, Share, CardOk;
  }

  lemma ApprovalKeepsBalance(n: Net, a: u64)
    requires Safe(n) && Enabled(n, AtAccount(a)) && n.r.accounts[a][0].ApplyChargeFromCard?
    requires Wired(AccountStep(n, a))
    ensures AccountStep(n, a).accounts[a].consumed - n.accounts[a].consumed
      == Total(Shares(AccountStep(n, a), a)) - Total(Shares(n, a))
  {
    ApprovalShares(n, a);
    var k := CardKey(a, n.r.accounts[a][0].cardId);
    ApprovalShare(a, n.accounts[a], k, n.cards[k], n.r.cards[k], n.r.accounts[a]);
    hide Accounts.Handle, Share, CardOk;
    TotalUpdate(Shares(n, a), k, Share(n.cards[k], n.r.cards[k] + Accounts.Handle(a, n.accounts[a], n.r.accounts[a][0]).toCard));
  }

  /** Without an approval or a bill the account's consumption stands still. */
  lemma QuietAccount(n: Net, a: u64)
    requires Safe(n) && BillFree(n) && Enabled(n, AtAccount(a)) && !n.r.accounts[a][0].ApplyChargeFromCard?
    ensures AccountStep(n, a).accounts[a].consumed == n.accounts[a].consumed
  {
    assert n.r.accounts[a][0] in n.r.accounts[a];
  }

  lemma AccountStepBalance(n: Net, a: u64, b: u64)
    requires Safe(n) && BillFree(n) && Conserved(n) && Enabled(n, AtAccount(a)) && b in n.accounts
    requires Wired(AccountStep(n, a))
    ensures b in AccountStep(n, a).accounts
    ensures AccountStep(n, a).accounts[b].consumed == Total(Shares(AccountStep(n, a), b))
  {
    hide Shares;
    if b == a && n.r.accounts[a][0].ApplyChargeFromCard? {
      ApprovalKeepsBalance(n, a);
    } else {
      OtherShares(n, a, b);
      if b == a {
        QuietAccount(n, a);
      }
    }
    hide Accounts.Handle, Safe, BillFree;
  }

  lemma AccountStepConserved(n: Net, a: u64)
    requires Safe(n) && BillFree(n) && Conserved(n) && Enabled(n, AtAccount(a))
    ensures Conserved(AccountStep(n, a))
  {
    NextWired(n, AtAccount(a));
    hide Accounts.Handle, Shares, Safe, BillFree;
    forall b | b in n.accounts ensures AccountStep(n, a).accounts[b].consumed == Total(Shares(AccountStep(n, a), b)) {
      AccountStepBalance(n, a, b);
    }
  }

  lemma OtherShares(n: Net, a: u64, b: u64)
    requires Wired(n) && Enabled(n, AtAccount(a)) && Wired(AccountStep(n, a))
    requires b != a || !n.r.accounts[a][0].ApplyChargeFromCard?
    ensures Shares(AccountStep(n, a), b) == Shares(n, b)
  {
    forall k | k in n.cards && k.account == b ensures AccountStep(n, a).r.cards[k] == n.r.cards[k] {
      AccountStepMailboxes(n, a, k);
    }
    hide Accounts.Handle;
  }

  lemma RouterStepConserved(n: Net)
    requires Safe(n) && Conserved(n) && Enabled(n, AtRouter)
    ensures Conserved(RouterStep(n))
  {
    var n' := RouterStep(n);
    NextWired(n, AtRouter);
    HandleRequests(n.r, n.mail[0]);
    RouterGrows(n.r, n.mail[0]);
    RequestedMembers(n.r, n.mail[0], n'.r);
    hide Routers.Handle;
    forall a | a in n'.accounts ensures n'.accounts[a].consumed == Total(Shares(n', a)) {
      NewShares(n, a);
    }
  }

  lemma MoreMailSameShare(c: Cards.Card, cm: seq<CardMsg>, cm': seq<CardMsg>)
    requires cm <= cm' && forall m :: m in cm'[|cm|..] ==> !m.AccountChargeReply?
    ensures Share(c, cm') == Share(c, cm)
  {
    assert cm' == cm + cm'[|cm|..];
    assert forall m :: m in cm' <==> m in cm || m in cm'[|cm|..];
  }

  lemma NewShares(n: Net, a: u64)
    requires Safe(n) && Conserved(n) && Enabled(n, AtRouter) && Wired(RouterStep(n)) && a in RouterStep(n).accounts
    ensures Total(Shares(RouterStep(n), a)) == Total(Shares(n, a))
    ensures a !in n.accounts ==> Total(Shares(n, a)) == 0.0
  {
    var n' := RouterStep(n);
    HandleRequests(n.r, n.mail[0]);
    RouterGrows(n.r, n.mail[0]);
    hide Routers.Handle;
    forall k | k in Shares(n', a) ensures Shares(n', a)[k] == if k in Shares(n, a) then Shares(n, a)[k] else 0.0 {
      MoreMailSameShare(n'.cards[k], CardMail(n.r, k), n'.r.cards[k]);
    }
    TotalExtend(Shares(n, a), Shares(n', a));
    if a !in n.accounts {
      assert Shares(n, a) == map[];
    }
  }

  lemma NextConserved(n: Net, l: Label)
    requires Safe(n) && BillFree(n) && Conserved(n) && Enabled(n, l) && Plain(l)
    ensures Conserved(Next(n, l))
  {
    match l {
      case Submit(_, _) =>
        forall a | a in n.accounts ensures Shares(Next(n, l), a) == Shares(n, a) {}
      case AtRouter => RouterStepConserved(n);
      case AtAccount(a) => AccountStepConserved(n, a);
      case AtCard(k) => CardStepConserved(n, k);
    }
  }

  lemma {:induction false} RunConserved(n: Net, ls: seq<Label>)
    requires Safe(n) && BillFree(n) && Conserved(n) && Schedule(n, ls) && forall l :: l in ls ==> Plain(l)
    ensures Safe(Run(n, ls)) && Conserved(Run(n, ls))
    decreases |ls|
  {
    if ls != [] {
      NextConserved(n, ls[0]);
      NextBillFree(n, ls[0]);
      NextSafe(n, ls[0]);
      RunConserved(Next(n, ls[0]), ls[1..]);
    }
  }

  /** In every reachable state money is conserved, account by account. */
  lemma MoneyConserved(ls: seq<Label>)
    requires Schedule(EMPTY_NET, ls) && forall l :: l in ls ==> Plain(l)
    ensures var n := Run(EMPTY_NET, ls);
      forall a :: a in n.accounts ==> n.accounts[a].consumed == Total(Shares(n, a))
  {
    RunConserved(EMPTY_NET, ls);
  }
}
