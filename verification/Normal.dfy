/**
 A ReplaceState at the head of a mailbox is as good as applied. `Norm` applies every
 leading ReplaceState of every mailbox; delivering one leaves the normal form alone, and
 every other step is the same step of the normal form.
 */
module Normal {
  import opened Wrappers
  import opened Protocol
  import opened Messages
  import opened Network
  import Cards
  import Accounts
  import Routers

  function StripAccount(mail: seq<AccountMsg>): seq<AccountMsg> {
    if mail != [] && mail[0].AccountReplaceState? then StripAccount(mail[1..]) else mail
  }

  function StripCard(mail: seq<CardMsg>): seq<CardMsg> {
    if mail != [] && mail[0].CardReplaceState? then StripCard(mail[1..]) else mail
  }

  function SettleAccount(acct: Accounts.Account, mail: seq<AccountMsg>): Accounts.Account
    decreases |mail|
  {
    if mail != [] && mail[0].AccountReplaceState? then
      SettleAccount(Accounts.Account(mail[0].newLimit, mail[0].newConsumed, acct.pending), mail[1..])
    else acct
  }

  function SettleCard(c: Cards.Card, mail: seq<CardMsg>): Cards.Card
    decreases |mail|
  {
    if mail != [] && mail[0].CardReplaceState? then
      SettleCard(Cards.Card(mail[0].newLimit, mail[0].newConsumed, None, []), mail[1..])
    else c
  }

  function StripAccounts(mails: map<u64, seq<AccountMsg>>): map<u64, seq<AccountMsg>> {
    map a | a in mails :: StripAccount(mails[a])
  }

  function StripCards(mails: map<CardKey, seq<CardMsg>>): map<CardKey, seq<CardMsg>> {
    map k | k in mails :: StripCard(mails[k])
  }

  function SettleAccounts(accts: map<u64, Accounts.Account>, mails: map<u64, seq<AccountMsg>>): map<u64, Accounts.Account>
    requires accts.Keys == mails.Keys
  {
    map a | a in accts :: SettleAccount(accts[a], mails[a])
  }

  function SettleCards(cards: map<CardKey, Cards.Card>, mails: map<CardKey, seq<CardMsg>>): map<CardKey, Cards.Card>
    requires cards.Keys == mails.Keys
  {
    map k | k in cards :: SettleCard(cards[k], mails[k])
  }

  function StripRouter(r: Routers.Router): Routers.Router {
    r.(accounts := StripAccounts(r.accounts), cards := StripCards(r.cards))
  }

  function Norm(n: Net): Net
    requires Wired(n)
  {
    n.(r := StripRouter(n.r),
       accounts := SettleAccounts(n.accounts, n.r.accounts),
       cards := SettleCards(n.cards, n.r.cards))
  }

  lemma AccountsAt(accts: map<u64, Accounts.Account>, mails: map<u64, seq<AccountMsg>>, a: u64, acct: Accounts.Account, mail: seq<AccountMsg>)
    requires accts.Keys == mails.Keys
    ensures StripAccounts(mails[a := mail]) == StripAccounts(mails)[a := StripAccount(mail)]
    ensures SettleAccounts(accts[a := acct], mails[a := mail]) == SettleAccounts(accts, mails)[a := SettleAccount(acct, mail)]
  {
  }

  lemma CardsAt(cards: map<CardKey, Cards.Card>, mails: map<CardKey, seq<CardMsg>>, k: CardKey, c: Cards.Card, mail: seq<CardMsg>)
    requires cards.Keys == mails.Keys
    ensures StripCards(mails[k := mail]) == StripCards(mails)[k := StripCard(mail)]
    ensures SettleCards(cards[k := c], mails[k := mail]) == SettleCards(cards, mails)[k := SettleCard(c, mail)]
  {
  }

  lemma NormWired(n: Net)
    requires Wired(n)
    ensures Wired(Norm(n))
  {
  }

  // ---- one mailbox ----

  lemma {:induction false} AccountAppend(acct: Accounts.Account, mail: seq<AccountMsg>, more: seq<AccountMsg>)
    requires forall m :: m in more ==> !m.AccountReplaceState?
    ensures StripAccount(mail + more) == StripAccount(mail) + more
    ensures SettleAccount(acct, mail + more) == SettleAccount(acct, mail)
    decreases |mail|
  {
    if mail == [] {
      assert mail + more == more;
    } else if mail[0].AccountReplaceState? {
      assert (mail + more)[1..] == mail[1..] + more;
      AccountAppend(Accounts.Account(mail[0].newLimit, mail[0].newConsumed, acct.pending), mail[1..], more);
    }
  }

  lemma {:induction false} CardAppend(c: Cards.Card, mail: seq<CardMsg>, more: seq<CardMsg>)
    requires forall m :: m in more ==> !m.CardReplaceState?
    ensures StripCard(mail + more) == StripCard(mail) + more
    ensures SettleCard(c, mail + more) == SettleCard(c, mail)
    decreases |mail|
  {
    if mail == [] {
      assert mail + more == more;
    } else if mail[0].CardReplaceState? {
      assert (mail + more)[1..] == mail[1..] + more;
      CardAppend(Cards.Card(mail[0].newLimit, mail[0].newConsumed, None, []), mail[1..], more);
    }
  }

  /** One more ReplaceState behind others only has the last word. */
  lemma {:induction false} AccountReplaced(acct: Accounts.Account, mail: seq<AccountMsg>, limit: Option<real>, consumed: real)
    requires StripAccount(mail) == []
    ensures StripAccount(mail + [AccountReplaceState(limit, consumed)]) == []
    ensures SettleAccount(acct, mail + [AccountReplaceState(limit, consumed)]) == Accounts.Account(limit, consumed, acct.pending)
    decreases |mail|
  {
    var last := [AccountReplaceState(limit, consumed)];
    if mail == [] {
      assert mail + last == last;
    } else {
      assert (mail + last)[1..] == mail[1..] + last;
      AccountReplaced(Accounts.Account(mail[0].newLimit, mail[0].newConsumed, acct.pending), mail[1..], limit, consumed);
    }
  }

  lemma {:induction false} CardReplaced(c: Cards.Card, mail: seq<CardMsg>, limit: Option<real>, consumed: real)
    requires StripCard(mail) == []
    ensures StripCard(mail + [CardReplaceState(limit, consumed)]) == []
    ensures SettleCard(c, mail + [CardReplaceState(limit, consumed)]) == Cards.Card(limit, consumed, None, [])
    decreases |mail|
  {
    var last := [CardReplaceState(limit, consumed)];
    if mail == [] {
      assert mail + last == last;
    } else {
      assert (mail + last)[1..] == mail[1..] + last;
      CardReplaced(Cards.Card(mail[0].newLimit, mail[0].newConsumed, None, []), mail[1..], limit, consumed);
    }
  }

  // ---- routing ----

  lemma StripAccountsAt(mails: map<u64, seq<AccountMsg>>, a: u64, mail: seq<AccountMsg>)
    ensures StripAccounts(mails[a := mail]) == StripAccounts(mails)[a := StripAccount(mail)]
  {
  }

  lemma StripCardsAt(mails: map<CardKey, seq<CardMsg>>, k: CardKey, mail: seq<CardMsg>)
    ensures StripCards(mails[k := mail]) == StripCards(mails)[k := StripCard(mail)]
  {
  }

  lemma StripWithCard(r: Routers.Router, k: CardKey)
    ensures StripRouter(Routers.WithAccount(r, k.account)) == Routers.WithAccount(StripRouter(r), k.account)
    ensures StripRouter(Routers.WithCard(r, k)) == Routers.WithCard(StripRouter(r), k)
  {
    StripAccountsAt(r.accounts, k.account, []);
    StripCardsAt(r.cards, k, []);
  }

  lemma StripSendAccount(r: Routers.Router, a: u64, m: AccountMsg)
    requires a in r.accounts && !m.AccountReplaceState?
    ensures StripRouter(Routers.ToAccount(r, a, m)) == Routers.ToAccount(StripRouter(r), a, m)
  {
    AccountAppend(Accounts.NEW_ACCOUNT, r.accounts[a], [m]);
    StripAccountsAt(r.accounts, a, r.accounts[a] + [m]);
  }

  lemma StripSendCard(r: Routers.Router, k: CardKey, m: CardMsg)
    requires k in r.cards && !m.CardReplaceState?
    ensures StripRouter(Routers.ToCard(r, k, m)) == Routers.ToCard(StripRouter(r), k, m)
  {
    CardAppend(Cards.NEW_CARD, r.cards[k], [m]);
    StripCardsAt(r.cards, k, r.cards[k] + [m]);
  }

  lemma StripToAccount(r: Routers.Router, a: u64, m: AccountMsg)
    requires !m.AccountReplaceState?
    ensures StripRouter(Routers.ToAccount(r, a, m)) == Routers.ToAccount(StripRouter(r), a, m)
  {
    StripWithCard(r, CardKey(a, 0));
    StripSendAccount(Routers.WithAccount(r, a), a, m);
    hide StripRouter;
  }

  lemma StripToCard(r: Routers.Router, k: CardKey, m: CardMsg)
    requires !m.CardReplaceState?
    ensures StripRouter(Routers.ToCard(r, k, m)) == Routers.ToCard(StripRouter(r), k, m)
  {
    StripWithCard(r, k);
    StripSendCard(Routers.WithCard(r, k), k, m);
    hide StripRouter;
  }

  lemma StripToCards(r: Routers.Router, ks: set<CardKey>, m: CardMsg)
    requires !m.CardReplaceState?
    ensures StripRouter(Routers.ToCards(r, ks, m)) == Routers.ToCards(StripRouter(r), ks, m)
  {
    forall k | k in r.cards ensures StripCard(r.cards[k] + [m]) == StripCard(r.cards[k]) + [m] {
      CardAppend(Cards.NEW_CARD, r.cards[k], [m]);
    }
    assert StripRouter(Routers.ToCards(r, ks, m)).cards == Routers.ToCards(StripRouter(r), ks, m).cards;
  }

  lemma StripToAllAccounts(r: Routers.Router, m: AccountMsg)
    requires !m.AccountReplaceState?
    ensures StripRouter(Routers.ToAllAccounts(r, m)) == Routers.ToAllAccounts(StripRouter(r), m)
  {
    forall a | a in r.accounts ensures StripAccount(r.accounts[a] + [m]) == StripAccount(r.accounts[a]) + [m] {
      AccountAppend(Accounts.NEW_ACCOUNT, r.accounts[a], [m]);
    }
    assert StripRouter(Routers.ToAllAccounts(r, m)).accounts == Routers.ToAllAccounts(StripRouter(r), m).accounts;
  }

  lemma StripQuery(r: Routers.Router, opId: u32, a: u64, billing: bool)
    ensures StripRouter(Routers.Query(r, opId, a, billing)) == Routers.Query(StripRouter(r), opId, a, billing)
  {
    hide StripRouter, Routers.ToCards, Routers.CardsOf, Routers.ToAccount, Routers.WithAccount;
    var ks := Routers.CardsOf(r, a);
    SameCardsOf(r, a);
    var start := if billing then StartAccountBill(opId, |ks|) else StartAccountQuery(opId, |ks|);
    StripToAccount(r, a, start);
    StripToCards(Routers.ToAccount(r, a, start), ks, QueryCardState(opId, a, billing));
    ToAccountTwice(r, a, start);
    ToAccountTwice(StripRouter(r), a, start);
  }

  lemma SameCardsOf(r: Routers.Router, a: u64)
    ensures Routers.CardsOf(Routers.WithAccount(r, a), a) == Routers.CardsOf(r, a)
    ensures Routers.CardsOf(Routers.WithAccount(StripRouter(r), a), a) == Routers.CardsOf(r, a)
  {
  }

  lemma SameSizes(r: Routers.Router)
    ensures |StripRouter(r).accounts| == |r.accounts| && |StripRouter(r).cards| == |r.cards|
    ensures StripRouter(r).cards.Keys == r.cards.Keys
  {
    var q := StripRouter(r);
    assert q.accounts.Keys == r.accounts.Keys && q.cards.Keys == r.cards.Keys;
    assert |q.accounts| == |q.accounts.Keys| && |r.accounts| == |r.accounts.Keys|;
    assert |q.cards| == |q.cards.Keys| && |r.cards| == |r.cards.Keys|;
  }

  lemma StripSnapshot(r: Routers.Router, opId: u32, addr: SocketAddr)
    ensures StripRouter(Routers.Dispatch(r, opId, GetDatabase(addr))) == Routers.Dispatch(StripRouter(r), opId, GetDatabase(addr))
  {
    SameSizes(r);
    var p := Routers.PendingSnapshot(addr, |r.accounts|, |r.cards|, [], []);
    var r2 := r.(operations := r.operations[opId := GetDatabase(addr)], snapshots := r.snapshots[opId := p]);
    StripToAllAccounts(r2, AccountGetSnapshot(opId));
    StripToCards(Routers.ToAllAccounts(r2, AccountGetSnapshot(opId)), r.cards.Keys, CardGetSnapshot(opId));
    hide StripAccounts, StripCards, Routers.ToAllAccounts, Routers.ToCards;
  }

  lemma StripUpdate(r: Routers.Router, opId: u32, op: Op)
    requires Routers.IsUpdate(op)
    ensures StripRouter(Routers.Dispatch(r, opId, op)) == Routers.Dispatch(StripRouter(r), opId, op)
  {
    var r1 := r.(operations := r.operations[opId := op]);
    if op.Charge? {
      StripToCard(r1, CardKey(op.accountId, op.cardId),
                  ExecuteCharge(opId, op.accountId, op.cardId, op.amount, op.fromOfflineStation));
    } else if op.LimitAccount? {
      StripToAccount(r1, op.accountId, ApplyAccountLimit(opId, op.newLimit));
    } else {
      StripToCard(r1, CardKey(op.accountId, op.cardId), ExecuteLimitChange(opId, op.newLimit));
    }
  }

  /** Reporting neither reads nor writes the mailboxes of the actors. */
  lemma ReportIgnoresMail(r: Routers.Router, am: map<u64, seq<AccountMsg>>, cm: map<CardKey, seq<CardMsg>>, msg: RouterMsg)
    requires !msg.Execute?
    ensures Routers.Handle(r.(accounts := am, cards := cm), msg) == Routers.Handle(r, msg).(accounts := am, cards := cm)
  {
    hide Routers.Dispatch, Routers.CompletedResult, Routers.TryComplete;
    if msg.AccountSnapshotCollected? && msg.opId in r.snapshots {
      var p := r.snapshots[msg.opId];
      CompletionIgnoresMail(r.(snapshots := r.snapshots[msg.opId := p.(accounts := p.accounts + [msg.account])]), am, cm, msg.opId);
    } else if msg.CardSnapshotCollected? && msg.opId in r.snapshots {
      var p := r.snapshots[msg.opId];
      CompletionIgnoresMail(r.(snapshots := r.snapshots[msg.opId := p.(cards := p.cards + [msg.card])]), am, cm, msg.opId);
    }
  }

  lemma CompletionIgnoresMail(r: Routers.Router, am: map<u64, seq<AccountMsg>>, cm: map<CardKey, seq<CardMsg>>, opId: u32)
    ensures Routers.TryComplete(r.(accounts := am, cards := cm), opId) == Routers.TryComplete(r, opId).(accounts := am, cards := cm)
  {
  }

  lemma StripReport(r: Routers.Router, msg: RouterMsg)
    requires !msg.Execute?
    ensures StripRouter(Routers.Handle(r, msg)) == Routers.Handle(StripRouter(r), msg)
  {
    ReportIgnoresMail(r, StripRouter(r).accounts, StripRouter(r).cards, msg);
    ReportsOnly(r, msg);
    hide Routers.Handle;
  }

  lemma StripHandle(r: Routers.Router, msg: RouterMsg)
    requires msg.Execute? ==> !msg.operation.ReplaceDatabase?
    ensures StripRouter(Routers.Handle(r, msg)) == Routers.Handle(StripRouter(r), msg)
  {
    if !msg.Execute? {
      StripReport(r, msg);
    } else if msg.operation.AccountQuery? || msg.operation.Bill? {
      StripQuery(r.(operations := r.operations[msg.opId := msg.operation]), msg.opId, msg.operation.accountId, msg.operation.Bill?);
    } else if msg.operation.GetDatabase? {
      StripSnapshot(r, msg.opId, msg.operation.addr);
    } else {
      StripUpdate(r, msg.opId, msg.operation);
    }
  }

  // ---- steps ----

  /** Is the message at the head of the label's mailbox a ReplaceState? */
  predicate Replaces(n: Net, l: Label)
    requires Enabled(n, l)
  {
    match l
    case AtAccount(a) => n.r.accounts[a][0].AccountReplaceState?
    case AtCard(k) => n.r.cards[k][0].CardReplaceState?
    case _ => false
  }

  predicate RoutesReplace(n: Net, l: Label)
    requires Enabled(n, l)
  {
    l.AtRouter? && n.mail[0].Execute? && n.mail[0].operation.ReplaceDatabase?
  }

  lemma AccountReplaceKeepsNorm(n: Net, a: u64)
    requires Wired(n) && Enabled(n, AtAccount(a)) && Replaces(n, AtAccount(a)) && Wired(AccountStep(n, a))
    ensures Norm(AccountStep(n, a)) == Norm(n)
  {
    var n' := AccountStep(n, a);
    forall k | k in n.cards ensures n'.r.cards[k] == n.r.cards[k] {
      AccountStepMailboxes(n, a, k);
      assert n.r.cards[k] + [] == n.r.cards[k];
    }
    assert n'.r.cards == n.r.cards;
    assert n'.mail == n.mail;
    assert Norm(n').r.accounts == Norm(n).r.accounts;
    assert Norm(n').accounts == Norm(n).accounts;
  }

  lemma CardReplaceKeepsNorm(n: Net, k: CardKey)
    requires Wired(n) && Enabled(n, AtCard(k)) && Replaces(n, AtCard(k)) && Wired(CardStep(n, k))
    ensures Norm(CardStep(n, k)) == Norm(n)
  {
    hide StripAccounts, StripCards, SettleAccounts, SettleCards, Cards.StartTask, Cards.FinishTask, Cards.Submit;
    var m := n.r.cards[k][0];
    var c := Cards.Card(m.newLimit, m.newConsumed, None, []);
    assert n.r.accounts[k.account] + [] == n.r.accounts[k.account];
    assert n.mail + [] == n.mail;
    CardsAt(n.cards, n.r.cards, k, c, n.r.cards[k][1..]);
    Present(n, k);
  }

  lemma Present(n: Net, k: CardKey)
    requires Wired(n) && k in n.cards
    ensures n.r.accounts[k.account := n.r.accounts[k.account]] == n.r.accounts
    ensures StripCards(n.r.cards)[k := StripCard(n.r.cards[k])] == StripCards(n.r.cards)
    ensures SettleCards(n.cards, n.r.cards)[k := SettleCard(n.cards[k], n.r.cards[k])] == SettleCards(n.cards, n.r.cards)
    ensures var a := k.account;
      SettleAccounts(n.accounts, n.r.accounts)[a := SettleAccount(n.accounts[a], n.r.accounts[a])] == SettleAccounts(n.accounts, n.r.accounts)
    ensures n.cards[k := n.cards[k]] == n.cards && n.accounts[k.account := n.accounts[k.account]] == n.accounts
  {
  }

  lemma ReplaceKeepsNorm(n: Net, l: Label)
    requires Wired(n) && Enabled(n, l) && Replaces(n, l)
    ensures Wired(Next(n, l)) && Norm(Next(n, l)) == Norm(n)
  {
    NextWired(n, l);
    if l.AtAccount? {
      AccountReplaceKeepsNorm(n, l.a);
    } else {
      CardReplaceKeepsNorm(n, l.k);
    }
  }

  /** ReplaceState messages stand at the head of their mailboxes only. */
  ghost predicate Prefixed(r: Routers.Router) {
    && (forall a, m :: a in r.accounts && m in StripAccount(r.accounts[a]) ==> !m.AccountReplaceState?)
    && (forall k, m :: k in r.cards && m in StripCard(r.cards[k]) ==> !m.CardReplaceState?)
  }

  lemma NoReplaceStrips(am: seq<AccountMsg>, cm: seq<CardMsg>)
    ensures (forall m :: m in am ==> !m.AccountReplaceState?) ==>
      StripAccount(am) == am && forall acct :: SettleAccount(acct, am) == acct
    ensures (forall m :: m in cm ==> !m.CardReplaceState?) ==>
      StripCard(cm) == cm && forall c :: SettleCard(c, cm) == c
  {
  }

  lemma {:induction false} CardSendsPlain(k: CardKey, c: Cards.Card, msg: CardMsg)
    ensures forall m :: m in Cards.Handle(k, c, msg).toAccount ==> !m.AccountReplaceState?
  {
    match msg {
      case ExecuteCharge(opId, _, _, amount, fromOffline) =>
        StartSendsPlain(k, c.(current := Some(Cards.ChargeTask(Cards.ChargeOp(opId, amount, fromOffline)))));
      case ExecuteLimitChange(opId, newLimit) =>
        StartSendsPlain(k, c.(current := Some(Cards.LimitTask(opId, newLimit))));
      case AccountChargeReply(opId, success, error) =>
        FinishSendsPlain(k, c, opId, success, error);
        if c.current.Some? && c.current.value.ChargeTask? {
          FinishSendsPlain(k, c.(consumed := c.consumed + c.current.value.op.amount), opId, success, error);
        }
      case _ =>
    }
  }

  lemma {:induction false} StartSendsPlain(k: CardKey, c: Cards.Card)
    ensures forall m :: m in Cards.StartTask(k, c).toAccount ==> !m.AccountReplaceState?
    decreases |c.queue|, 1
  {
    match c.current {
      case None =>
      case Some(ChargeTask(op)) =>
        FinishSendsPlain(k, c, op.opId, false, Some(ChargeLimit(CardLimitExceeded)));
      case Some(LimitTask(opId, newLimit)) =>
        FinishSendsPlain(k, c.(limit := newLimit), opId, true, None);
        FinishSendsPlain(k, c, opId, false, Some(LimitUpdate(BelowCurrentUsage)));
    }
  }

  lemma {:induction false} FinishSendsPlain(k: CardKey, c: Cards.Card, opId: u32, success: bool, error: Option<VerifyError>)
    ensures forall m :: m in Cards.FinishTask(k, c, opId, success, error).toAccount ==> !m.AccountReplaceState?
    decreases |c.queue|, 0
  {
    if |c.queue| > 0 {
      StartSendsPlain(k, c.(current := Some(c.queue[0]), queue := c.queue[1..]));
    }
  }

  lemma NormAt(n: Net, a: u64, k: CardKey)
    requires Wired(n)
    ensures a in n.accounts ==>
      Norm(n).r.accounts[a] == StripAccount(n.r.accounts[a]) && Norm(n).accounts[a] == SettleAccount(n.accounts[a], n.r.accounts[a])
    ensures k in n.cards ==>
      Norm(n).r.cards[k] == StripCard(n.r.cards[k]) && Norm(n).cards[k] == SettleCard(n.cards[k], n.r.cards[k])
    ensures Norm(n).r.accounts.Keys == n.r.accounts.Keys && Norm(n).r.cards.Keys == n.r.cards.Keys
  {
  }

  lemma CardStepCommutes(n: Net, k: CardKey)
    requires Wired(n) && Prefixed(n.r) && Enabled(n, AtCard(k)) && !Replaces(n, AtCard(k))
    requires Wired(CardStep(n, k)) && Wired(Norm(n))
    ensures Enabled(Norm(n), AtCard(k)) && Norm(CardStep(n, k)) == CardStep(Norm(n), k)
  {
    hide Cards.Handle, StripAccounts, StripCards, SettleAccounts, SettleCards;
    var a, cm, am := k.account, n.r.cards[k], n.r.accounts[k.account];
    NormAt(n, a, k);
    assert StripCard(cm) == cm && SettleCard(n.cards[k], cm) == n.cards[k];
    var e := Cards.Handle(k, n.cards[k], cm[0]);
    CardSendsPlain(k, n.cards[k], cm[0]);
    AccountAppend(n.accounts[a], am, e.toAccount);
    NoReplaceStrips([], cm[1..]);
    CardsAt(n.cards, n.r.cards, k, e.card, cm[1..]);
    AccountsAt(n.accounts, n.r.accounts, a, n.accounts[a], am + e.toAccount);
    Present(n, k);
  }

  lemma AccountStepCommutes(n: Net, a: u64)
    requires Wired(n) && Prefixed(n.r) && Enabled(n, AtAccount(a)) && !Replaces(n, AtAccount(a))
    requires Wired(AccountStep(n, a)) && Wired(Norm(n))
    ensures Enabled(Norm(n), AtAccount(a)) && Norm(AccountStep(n, a)) == AccountStep(Norm(n), a)
  {
    hide Accounts.Handle, StripAccounts, StripCards, SettleAccounts, SettleCards;
    var am := n.r.accounts[a];
    var k := if am[0].ApplyChargeFromCard? then CardKey(a, am[0].cardId) else CardKey(a, 0);
    NormAt(n, a, k);
    assert StripAccount(am) == am && SettleAccount(n.accounts[a], am) == n.accounts[a];
    var e := Accounts.Handle(a, n.accounts[a], am[0]);
    AccountSends(a, n.accounts[a], am[0]);
    NoReplaceStrips(am[1..], []);
    AccountsAt(n.accounts, n.r.accounts, a, e.account, am[1..]);
    if k in n.cards {
      CardAppend(n.cards[k], n.r.cards[k], e.toCard);
      CardsAt(n.cards, n.r.cards, k, n.cards[k], n.r.cards[k] + e.toCard);
      Present(n, k);
    }
  }

  lemma RouterStepNormAccount(n: Net, a: u64)
    requires Wired(n) && Enabled(n, AtRouter) && !RoutesReplace(n, AtRouter) && Wired(RouterStep(n)) && a in RouterStep(n).accounts
    ensures SettleAccount(RouterStep(n).accounts[a], RouterStep(n).r.accounts[a]) ==
            if a in n.accounts then SettleAccount(n.accounts[a], n.r.accounts[a]) else Accounts.NEW_ACCOUNT
  {
    var n' := RouterStep(n);
    HandleRequests(n.r, n.mail[0]);
    hide Routers.Handle;
    var before := AccountMail(n.r, a);
    var more := n'.r.accounts[a][|before|..];
    assert n'.r.accounts[a] == before + more;
    AccountAppend(n'.accounts[a], before, more);
  }

  lemma RouterStepNormCard(n: Net, k: CardKey)
    requires Wired(n) && Enabled(n, AtRouter) && !RoutesReplace(n, AtRouter) && Wired(RouterStep(n)) && k in RouterStep(n).cards
    ensures SettleCard(RouterStep(n).cards[k], RouterStep(n).r.cards[k]) ==
            if k in n.cards then SettleCard(n.cards[k], n.r.cards[k]) else Cards.NEW_CARD
  {
    var n' := RouterStep(n);
    HandleRequests(n.r, n.mail[0]);
    hide Routers.Handle;
    var before := CardMail(n.r, k);
    var more := n'.r.cards[k][|before|..];
    assert n'.r.cards[k] == before + more;
    CardAppend(n'.cards[k], before, more);
  }

  lemma RouterStepCommutes(n: Net)
    requires Wired(n) && Enabled(n, AtRouter) && !RoutesReplace(n, AtRouter)
    requires Wired(RouterStep(n)) && Wired(Norm(n))
    ensures Norm(RouterStep(n)) == RouterStep(Norm(n))
  {
    hide Routers.Handle, StripAccount, StripCard, SettleAccount, SettleCard;
    StripHandle(n.r, n.mail[0]);
    RouterStepAccounts(n);
    RouterStepCards(n);
  }

  lemma SettledAre(cards: map<CardKey, Cards.Card>, mails: map<CardKey, seq<CardMsg>>, m: map<CardKey, Cards.Card>)
    requires cards.Keys == mails.Keys == m.Keys
    requires forall k :: k in m ==> m[k] == SettleCard(cards[k], mails[k])
    ensures SettleCards(cards, mails) == m
  {
  }

  lemma RouterStepAccounts(n: Net)
    requires Wired(n) && Enabled(n, AtRouter) && !RoutesReplace(n, AtRouter)
    requires Wired(RouterStep(n)) && Wired(Norm(n))
    requires RouterStep(Norm(n)).r == StripRouter(RouterStep(n).r)
    ensures Norm(RouterStep(n)).accounts == RouterStep(Norm(n)).accounts
  {
    hide Routers.Handle, StripAccount, StripCard, SettleAccount, SettleCard;
    forall a | a in RouterStep(n).accounts
      ensures SettleAccount(RouterStep(n).accounts[a], RouterStep(n).r.accounts[a]) == RouterStep(Norm(n)).accounts[a]
    {
      RouterStepNormAccount(n, a);
    }
  }

  lemma RouterStepCards(n: Net)
    requires Wired(n) && Enabled(n, AtRouter) && !RoutesReplace(n, AtRouter)
    requires Wired(RouterStep(n)) && Wired(Norm(n))
    requires RouterStep(Norm(n)).r == StripRouter(RouterStep(n).r)
    ensures Norm(RouterStep(n)).cards == RouterStep(Norm(n)).cards
  {
    hide Routers.Handle, StripAccount, StripCard, SettleAccount, SettleCard, SettleCards, SettleAccounts;
    var n', q' := RouterStep(n), RouterStep(Norm(n));
    assert q'.cards.Keys == n'.cards.Keys;
    forall k | k in n'.cards ensures q'.cards[k] == SettleCard(n'.cards[k], n'.r.cards[k]) {
      RouterStepNormCard(n, k);
      NormAt(n, 0, k);
    }
    SettledAre(n'.cards, n'.r.cards, q'.cards);
  }
}
