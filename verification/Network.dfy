/**
 The actors and their FIFO mailboxes as one state machine. A label says which actor
 handles the message at the head of its mailbox, or which operation the node submits;
 every interleaving the mailboxes allow is a sequence of labels.
 */
module Network {
  import opened Protocol
  import opened Messages
  import Cards
  import Accounts
  import Routers

  datatype Net = Net(
    r: Routers.Router,
    mail: seq<RouterMsg>,
    accounts: map<u64, Accounts.Account>,
    cards: map<CardKey, Cards.Card>)

  const EMPTY_NET := Net(Routers.Router(map[], map[], map[], map[], []), [], map[], map[])

  datatype Label =
    | Submit(opId: u32, op: Op)
    | AtRouter
    | AtAccount(a: u64)
    | AtCard(k: CardKey)

  /** Every actor has a mailbox, and every card's account exists. */
  ghost predicate Wired(n: Net) {
    && n.r.accounts.Keys == n.accounts.Keys
    && n.r.cards.Keys == n.cards.Keys
    && (forall k :: k in n.r.cards ==> k.account in n.r.accounts)
  }

  predicate Enabled(n: Net, l: Label) {
    match l
    case Submit(_, _) => true
    case AtRouter => n.mail != []
    case AtAccount(a) => a in n.r.accounts && n.r.accounts[a] != []
    case AtCard(k) => k in n.r.cards && n.r.cards[k] != []
  }

  /** `m` on the keys `ks`, with a default for the new ones. */
  function Extend<K, V>(ks: set<K>, m: map<K, V>, default: V): map<K, V> {
    map k | k in ks :: if k in m then m[k] else default
  }

  function RouterStep(n: Net): Net
    requires n.mail != []
  {
    var msg := n.mail[0];
    var r := Routers.Handle(n.r, msg);
    Net(
      r,
      n.mail[1..],
      Extend(r.accounts.Keys, n.accounts, Accounts.NEW_ACCOUNT),
      Extend(r.cards.Keys, n.cards, Cards.NEW_CARD))
  }

  function AccountStep(n: Net, a: u64): Net
    requires Wired(n) && Enabled(n, AtAccount(a))
  {
    var msg := n.r.accounts[a][0];
    var e := Accounts.Handle(a, n.accounts[a], msg);
    var k := if msg.ApplyChargeFromCard? then CardKey(a, msg.cardId) else CardKey(a, 0);
    n.(
      r := n.r.(
        accounts := n.r.accounts[a := n.r.accounts[a][1..]],
        cards := if k in n.r.cards then n.r.cards[k := n.r.cards[k] + e.toCard] else n.r.cards),
      mail := n.mail + e.toRouter,
      accounts := n.accounts[a := e.account])
  }

  function CardStep(n: Net, k: CardKey): Net
    requires Wired(n) && Enabled(n, AtCard(k))
  {
    var msg := n.r.cards[k][0];
    var e := Cards.Handle(k, n.cards[k], msg);
    n.(
      r := n.r.(
        cards := n.r.cards[k := n.r.cards[k][1..]],
        accounts := n.r.accounts[k.account := n.r.accounts[k.account] + e.toAccount]),
      mail := n.mail + e.toRouter,
      cards := n.cards[k := e.card])
  }

  function Next(n: Net, l: Label): (n': Net)
    requires Wired(n) && Enabled(n, l)
  {
    match l
    case Submit(opId, op) => n.(mail := n.mail + [Execute(opId, op)])
    case AtRouter => RouterStep(n)
    case AtAccount(a) => AccountStep(n, a)
    case AtCard(k) => CardStep(n, k)
  }

  lemma {:induction false} ReplaceAccountsGrows(r: Routers.Router, snaps: seq<AccountSnapshot<real>>)
    ensures var r' := Routers.ReplaceAccounts(r, snaps);
      r'.accounts.Keys >= r.accounts.Keys && r' == r.(accounts := r'.accounts)
  {
    if snaps != [] {
      ReplaceAccountsGrows(r, snaps[..|snaps| - 1]);
    }
  }

  lemma {:induction false} ReplaceCardsGrows(r: Routers.Router, snaps: seq<CardSnapshot<real>>)
    requires forall k :: k in r.cards ==> k.account in r.accounts
    ensures var r' := Routers.ReplaceCards(r, snaps);
      && r'.accounts.Keys >= r.accounts.Keys && r'.cards.Keys >= r.cards.Keys
      && r' == r.(accounts := r'.accounts, cards := r'.cards)
      && forall k :: k in r'.cards ==> k.account in r'.accounts
  {
    if snaps != [] {
      ReplaceCardsGrows(r, snaps[..|snaps| - 1]);
    }
  }

  ghost predicate Grows(r: Routers.Router, r': Routers.Router) {
    && r'.accounts.Keys >= r.accounts.Keys
    && r'.cards.Keys >= r.cards.Keys
    && forall k :: k in r'.cards ==> k.account in r'.accounts
  }

  lemma QueryGrows(r: Routers.Router, opId: u32, a: u64, billing: bool)
    requires Grows(r, r)
    ensures Grows(r, Routers.Query(r, opId, a, billing))
  {
  }

  lemma DispatchGrows(r: Routers.Router, opId: u32, op: Op)
    requires Grows(r, r)
    ensures Grows(r, Routers.Dispatch(r, opId, op))
  {
    hide Routers.Query, Routers.ReplaceAccounts, Routers.ReplaceCards;
    var r1 := r.(operations := r.operations[opId := op]);
    match op {
      case Charge(_, _, _, _) =>
      case LimitAccount(_, _) =>
      case LimitCard(_, _, _) =>
      case AccountQuery(a) =>
        QueryGrows(r1, opId, a, false);
      case Bill(a, _) =>
        QueryGrows(r1, opId, a, true);
      case GetDatabase(_) =>
      case ReplaceDatabase(snapshot) =>
        ReplaceAccountsGrows(r1, snapshot.accounts);
        ReplaceCardsGrows(Routers.ReplaceAccounts(r1, snapshot.accounts), snapshot.cards);
    }
  }

  /** A message that does not dispatch an operation leaves every actor mailbox alone. */
  lemma ReportsOnly(r: Routers.Router, msg: RouterMsg)
    requires !msg.Execute?
    ensures var r' := Routers.Handle(r, msg);
      r'.accounts == r.accounts && r'.cards == r.cards && r'.operations == r.operations
  {
    hide Routers.Dispatch, Routers.CompletedResult, Routers.TryComplete;
    if msg.AccountSnapshotCollected? && msg.opId in r.snapshots {
      var p := r.snapshots[msg.opId];
      CompletionOnlyReports(r.(snapshots := r.snapshots[msg.opId := p.(accounts := p.accounts + [msg.account])]), msg.opId);
    } else if msg.CardSnapshotCollected? && msg.opId in r.snapshots {
      var p := r.snapshots[msg.opId];
      CompletionOnlyReports(r.(snapshots := r.snapshots[msg.opId := p.(cards := p.cards + [msg.card])]), msg.opId);
    }
  }

  lemma CompletionOnlyReports(r: Routers.Router, opId: u32)
    ensures var r' := Routers.TryComplete(r, opId);
      r'.accounts == r.accounts && r'.cards == r.cards && r'.operations == r.operations
  {
  }

  /** Routing only adds actors, and never a card without its account. */
  lemma RouterGrows(r: Routers.Router, msg: RouterMsg)
    requires Grows(r, r)
    ensures Grows(r, Routers.Handle(r, msg))
  {
    if msg.Execute? {
      DispatchGrows(r, msg.opId, msg.operation);
    } else {
      ReportsOnly(r, msg);
    }
  }

  // ---- what routing sends ----

  function AccountMail(r: Routers.Router, a: u64): seq<AccountMsg> {
    if a in r.accounts then r.accounts[a] else []
  }

  function CardMail(r: Routers.Router, k: CardKey): seq<CardMsg> {
    if k in r.cards then r.cards[k] else []
  }

  /** `m` is a message the router sends to account `a` on handling `msg`. */
  predicate AccountSent(msg: RouterMsg, a: u64, m: AccountMsg) {
    msg.Execute? &&
    match msg.operation
    case LimitAccount(a', newLimit) => a == a' && m == ApplyAccountLimit(msg.opId, newLimit)
    case AccountQuery(a') => a == a' && m.StartAccountQuery? && m.opId == msg.opId
    case Bill(a', _) => a == a' && m.StartAccountBill? && m.opId == msg.opId
    case GetDatabase(_) => m == AccountGetSnapshot(msg.opId)
    case ReplaceDatabase(_) => m.AccountReplaceState?
    case _ => false
  }

  predicate CardSent(msg: RouterMsg, k: CardKey, m: CardMsg) {
    msg.Execute? &&
    match msg.operation
    case Charge(a, c, amount, fromOffline) =>
      k == CardKey(a, c) && m == ExecuteCharge(msg.opId, a, c, amount, fromOffline)
    case LimitCard(a, c, newLimit) => k == CardKey(a, c) && m == ExecuteLimitChange(msg.opId, newLimit)
    case AccountQuery(a) => k.account == a && m == QueryCardState(msg.opId, a, false)
    case Bill(a, _) => k.account == a && m == QueryCardState(msg.opId, a, true)
    case GetDatabase(_) => m == CardGetSnapshot(msg.opId)
    case ReplaceDatabase(_) => m.CardReplaceState?
    case _ => false
  }

  ghost predicate AccountGained(msg: RouterMsg, a: u64, before: seq<AccountMsg>, after: seq<AccountMsg>) {
    before <= after && forall i :: |before| <= i < |after| ==> AccountSent(msg, a, after[i])
  }

  ghost predicate CardGained(msg: RouterMsg, k: CardKey, before: seq<CardMsg>, after: seq<CardMsg>) {
    before <= after && forall i :: |before| <= i < |after| ==> CardSent(msg, k, after[i])
  }

  /** From `r` to `r'`, every mailbox kept its messages and gained only what `msg` calls for. */
  ghost predicate Requested(r: Routers.Router, msg: RouterMsg, r': Routers.Router) {
    && (forall a :: a in r'.accounts ==> AccountGained(msg, a, AccountMail(r, a), r'.accounts[a]))
    && (forall k :: k in r'.cards ==> CardGained(msg, k, CardMail(r, k), r'.cards[k]))
  }

  lemma ToAccountRequests(r: Routers.Router, msg: RouterMsg, a: u64, m: AccountMsg)
    requires AccountSent(msg, a, m)
    ensures Requested(r, msg, Routers.ToAccount(r, a, m))
  {
    hide AccountSent, CardSent, AccountGained, CardGained;
    AccountGains(msg, a, AccountMail(r, a), m);
    GainsNothing(r, msg);
  }

  lemma ToCardRequests(r: Routers.Router, msg: RouterMsg, k: CardKey, m: CardMsg)
    requires CardSent(msg, k, m)
    ensures Requested(r, msg, Routers.ToCard(r, k, m))
  {
    hide AccountSent, CardSent, AccountGained, CardGained;
    CardGains(msg, k, CardMail(r, k), m);
    GainsNothing(r, msg);
  }

  lemma AccountGains(msg: RouterMsg, a: u64, mail: seq<AccountMsg>, m: AccountMsg)
    ensures AccountSent(msg, a, m) ==> AccountGained(msg, a, mail, mail + [m])
  {
    hide AccountSent;
  }

  lemma CardGains(msg: RouterMsg, k: CardKey, mail: seq<CardMsg>, m: CardMsg)
    ensures CardSent(msg, k, m) ==> CardGained(msg, k, mail, mail + [m])
  {
    hide CardSent;
  }

  lemma GainsNothing(r: Routers.Router, msg: RouterMsg)
    ensures forall a :: AccountGained(msg, a, AccountMail(r, a), AccountMail(r, a))
    ensures forall k :: CardGained(msg, k, CardMail(r, k), CardMail(r, k))
  {
  }

  lemma ToCardsRequests(r: Routers.Router, msg: RouterMsg, ks: set<CardKey>, m: CardMsg)
    requires forall k :: k in ks ==> CardSent(msg, k, m)
    ensures Requested(r, msg, Routers.ToCards(r, ks, m))
  {
    hide AccountSent, CardSent;
  }

  lemma QueryRequests(r: Routers.Router, msg: RouterMsg, a: u64, billing: bool)
    requires Grows(r, r) && msg.Execute?
    requires if billing then msg.operation.Bill? && msg.operation.accountId == a else msg.operation == AccountQuery(a)
    ensures Requested(r, msg, Routers.Query(r, msg.opId, a, billing))
  {
    hide Requested, Grows;
    var ks := Routers.CardsOf(Routers.WithAccount(r, a), a);
    var start := if billing then StartAccountBill(msg.opId, |ks|) else StartAccountQuery(msg.opId, |ks|);
    var mid := Routers.ToAccount(r, a, start);
    ToAccountRequests(r, msg, a, start);
    ToCardsRequests(mid, msg, ks, QueryCardState(msg.opId, a, billing));
    QueryGrows(r, msg.opId, a, billing);
    ToAccountTwice(r, a, start);
    MidGrows(r, a, start, ks, QueryCardState(msg.opId, a, billing));
    RequestedThen(r, mid, Routers.Query(r, msg.opId, a, billing), msg);
  }

  lemma ToAccountTwice(r: Routers.Router, a: u64, m: AccountMsg)
    ensures Routers.ToAccount(Routers.WithAccount(r, a), a, m) == Routers.ToAccount(r, a, m)
  {
  }

  lemma MidGrows(r: Routers.Router, a: u64, m: AccountMsg, ks: set<CardKey>, cm: CardMsg)
    requires Grows(r, r)
    ensures var mid := Routers.ToAccount(r, a, m); Grows(r, mid) && Grows(mid, Routers.ToCards(mid, ks, cm))
  {
  }

  lemma SnapshotRequests(r: Routers.Router, opId: u32, addr: SocketAddr)
    ensures Requested(r, Execute(opId, GetDatabase(addr)), Routers.Dispatch(r, opId, GetDatabase(addr)))
  {
  }

  lemma RequestedThen(r: Routers.Router, r': Routers.Router, r'': Routers.Router, msg: RouterMsg)
    requires Requested(r, msg, r') && Requested(r', msg, r'') && Grows(r, r') && Grows(r', r'')
    ensures Requested(r, msg, r'')
  {
    hide AccountSent, CardSent;
    forall a | a in r''.accounts ensures AccountGained(msg, a, AccountMail(r, a), r''.accounts[a]) {
      assert AccountGained(msg, a, AccountMail(r', a), r''.accounts[a]);
      if a in r'.accounts {
        assert AccountGained(msg, a, AccountMail(r, a), r'.accounts[a]);
      }
    }
    forall k | k in r''.cards ensures CardGained(msg, k, CardMail(r, k), r''.cards[k]) {
      assert CardGained(msg, k, CardMail(r', k), r''.cards[k]);
      if k in r'.cards {
        assert CardGained(msg, k, CardMail(r, k), r'.cards[k]);
      }
    }
  }

  lemma {:induction false} ReplaceAccountsRequests(r: Routers.Router, msg: RouterMsg, snaps: seq<AccountSnapshot<real>>)
    requires Grows(r, r) && msg.Execute? && msg.operation.ReplaceDatabase?
    ensures var r' := Routers.ReplaceAccounts(r, snaps); Grows(r, r') && Requested(r, msg, r')
  {
    ReplaceAccountsGrows(r, snaps);
    if snaps != [] {
      var last := snaps[|snaps| - 1];
      var mid := Routers.ReplaceAccounts(r, snaps[..|snaps| - 1]);
      ReplaceAccountsRequests(r, msg, snaps[..|snaps| - 1]);
      ToAccountRequests(mid, msg, last.accountId, AccountReplaceState(last.limit, last.consumed));
      RequestedThen(r, mid, Routers.ReplaceAccounts(r, snaps), msg);
    }
  }

  lemma ToCardGrows(r: Routers.Router, k: CardKey, m: CardMsg)
    requires Grows(r, r)
    ensures Grows(r, Routers.ToCard(r, k, m))
  {
  }

  lemma CardReplaces(msg: RouterMsg, k: CardKey, m: CardMsg)
    requires msg.Execute? && msg.operation.ReplaceDatabase? && m.CardReplaceState?
    ensures CardSent(msg, k, m)
  {
  }

  lemma {:induction false} ReplaceCardsRequests(r: Routers.Router, msg: RouterMsg, snaps: seq<CardSnapshot<real>>)
    requires Grows(r, r) && msg.Execute? && msg.operation.ReplaceDatabase?
    ensures var r' := Routers.ReplaceCards(r, snaps); Grows(r, r') && Requested(r, msg, r')
  {
    hide AccountSent, CardSent, AccountGained, CardGained, Routers.ToCard;
    ReplaceCardsGrows(r, snaps);
    if snaps == [] {
      GainsNothing(r, msg);
    } else {
      var last := snaps[|snaps| - 1];
      var mid := Routers.ReplaceCards(r, snaps[..|snaps| - 1]);
      CardReplaces(msg, CardKey(last.accountId, last.cardId), CardReplaceState(last.limit, last.consumed));
      ReplaceCardsRequests(r, msg, snaps[..|snaps| - 1]);
      ToCardRequests(mid, msg, CardKey(last.accountId, last.cardId), CardReplaceState(last.limit, last.consumed));
      ToCardGrows(mid, CardKey(last.accountId, last.cardId), CardReplaceState(last.limit, last.consumed));
      RequestedThen(r, mid, Routers.ReplaceCards(r, snaps), msg);
    }
  }

  lemma SameMailRequested(r: Routers.Router, q: Routers.Router, msg: RouterMsg, r': Routers.Router, q': Routers.Router)
    requires r.accounts == q.accounts && r.cards == q.cards && r'.accounts == q'.accounts && r'.cards == q'.cards
    requires Requested(q, msg, q')
    ensures Requested(r, msg, r')
  {
  }

  lemma ReplaceRequests(r: Routers.Router, opId: u32, snapshot: DatabaseSnapshot<real>)
    requires Grows(r, r)
    ensures Requested(r, Execute(opId, ReplaceDatabase(snapshot)), Routers.Dispatch(r, opId, ReplaceDatabase(snapshot)))
  {
    hide Requested, Routers.ReplaceAccounts, Routers.ReplaceCards;
    var msg := Execute(opId, ReplaceDatabase(snapshot));
    var r1 := r.(operations := r.operations[opId := msg.operation]);
    var mid := Routers.ReplaceAccounts(r1, snapshot.accounts);
    ReplaceAccountsRequests(r1, msg, snapshot.accounts);
    ReplaceCardsRequests(mid, msg, snapshot.cards);
    RequestedThen(r1, mid, Routers.ReplaceCards(mid, snapshot.cards), msg);
    SameMailRequested(r, r1, msg, Routers.Dispatch(r, opId, msg.operation), Routers.ReplaceCards(mid, snapshot.cards));
  }

  lemma UpdateRequests(r: Routers.Router, opId: u32, op: Op)
    requires Routers.IsUpdate(op)
    ensures Requested(r, Execute(opId, op), Routers.Dispatch(r, opId, op))
  {
    var r1 := r.(operations := r.operations[opId := op]);
    var msg := Execute(opId, op);
    if op.Charge? {
      ToCardRequests(r1, msg, CardKey(op.accountId, op.cardId),
                     ExecuteCharge(opId, op.accountId, op.cardId, op.amount, op.fromOfflineStation));
    } else if op.LimitAccount? {
      ToAccountRequests(r1, msg, op.accountId, ApplyAccountLimit(opId, op.newLimit));
    } else {
      ToCardRequests(r1, msg, CardKey(op.accountId, op.cardId), ExecuteLimitChange(opId, op.newLimit));
    }
  }

  lemma DispatchRequests(r: Routers.Router, opId: u32, op: Op)
    requires Grows(r, r)
    ensures Requested(r, Execute(opId, op), Routers.Dispatch(r, opId, op))
  {
    if op.AccountQuery? || op.Bill? {
      QueryRequests(r.(operations := r.operations[opId := op]), Execute(opId, op), op.accountId, op.Bill?);
    } else if op.GetDatabase? {
      SnapshotRequests(r, opId, op.addr);
    } else if op.ReplaceDatabase? {
      ReplaceRequests(r, opId, op.snapshot);
    } else {
      UpdateRequests(r, opId, op);
    }
  }

  lemma HandleRequests(r: Routers.Router, msg: RouterMsg)
    requires Grows(r, r)
    ensures Requested(r, msg, Routers.Handle(r, msg))
  {
    if msg.Execute? {
      DispatchRequests(r, msg.opId, msg.operation);
    } else {
      ReportsOnly(r, msg);
    }
  }

  /** Every message in a mailbox after routing was there before or is called for. */
  lemma RequestedMembers(r: Routers.Router, msg: RouterMsg, r': Routers.Router)
    requires Requested(r, msg, r')
    ensures forall a, m :: a in r'.accounts && m in r'.accounts[a] ==> m in AccountMail(r, a) || AccountSent(msg, a, m)
    ensures forall k, m :: k in r'.cards && m in r'.cards[k] ==> m in CardMail(r, k) || CardSent(msg, k, m)
  {
    hide AccountSent, CardSent;
    forall a, m | a in r'.accounts && m in r'.accounts[a] ensures m in AccountMail(r, a) || AccountSent(msg, a, m) {
      assert AccountGained(msg, a, AccountMail(r, a), r'.accounts[a]);
    }
    forall k, m | k in r'.cards && m in r'.cards[k] ensures m in CardMail(r, k) || CardSent(msg, k, m) {
      assert CardGained(msg, k, CardMail(r, k), r'.cards[k]);
    }
  }

  // ---- what holds of every message ----

  /** Every message under way satisfies the predicate of its mailbox. */
  ghost predicate Every(n: Net, pa: (u64, AccountMsg) -> bool, pc: (CardKey, CardMsg) -> bool, pr: RouterMsg -> bool) {
    && (forall a, m :: a in n.r.accounts && m in n.r.accounts[a] ==> pa(a, m))
    && (forall k, m :: k in n.r.cards && m in n.r.cards[k] ==> pc(k, m))
    && (forall m :: m in n.mail ==> pr(m))
  }

  lemma CardStepEvery(n: Net, k: CardKey, pa: (u64, AccountMsg) -> bool, pc: (CardKey, CardMsg) -> bool, pr: RouterMsg -> bool)
    requires Wired(n) && Enabled(n, AtCard(k)) && Every(n, pa, pc, pr)
    requires forall m :: m in Cards.Handle(k, n.cards[k], n.r.cards[k][0]).toAccount ==> pa(k.account, m)
    requires forall m :: m in Cards.Handle(k, n.cards[k], n.r.cards[k][0]).toRouter ==> pr(m)
    ensures Every(CardStep(n, k), pa, pc, pr)
  {
    var e := Cards.Handle(k, n.cards[k], n.r.cards[k][0]);
    var am := n.r.accounts[k.account];
    assert forall m :: m in am + e.toAccount <==> m in am || m in e.toAccount;
    assert forall m :: m in n.mail + e.toRouter <==> m in n.mail || m in e.toRouter;
  }

  /** Only a charge is answered to a card, and to the card that asked. */
  lemma AccountStepMailboxes(n: Net, a: u64, k: CardKey)
    requires Wired(n) && Enabled(n, AtAccount(a)) && k in n.cards
    ensures var n', msg := AccountStep(n, a), n.r.accounts[a][0];
      n'.r.cards[k] == n.r.cards[k] +
        if msg.ApplyChargeFromCard? && k == CardKey(a, msg.cardId) then Accounts.Handle(a, n.accounts[a], msg).toCard else []
  {
    assert n.r.cards[k] + [] == n.r.cards[k];
  }

  /** An account answers cards, and never asks the router to route. */
  lemma AccountSends(a: u64, acct: Accounts.Account, msg: AccountMsg)
    ensures var e := Accounts.Handle(a, acct, msg);
      && (forall m :: m in e.toCard ==> m.AccountChargeReply?)
      && (forall m :: m in e.toRouter ==> !m.Execute?)
  {
  }

  lemma AccountStepEvery(n: Net, a: u64, pa: (u64, AccountMsg) -> bool, pc: (CardKey, CardMsg) -> bool, pr: RouterMsg -> bool)
    requires Wired(n) && Enabled(n, AtAccount(a)) && Every(n, pa, pc, pr)
    requires forall k, m :: m in Accounts.Handle(a, n.accounts[a], n.r.accounts[a][0]).toCard ==> pc(k, m)
    requires forall m :: m in Accounts.Handle(a, n.accounts[a], n.r.accounts[a][0]).toRouter ==> pr(m)
    ensures Every(AccountStep(n, a), pa, pc, pr)
  {
    var n' := AccountStep(n, a);
    var e := Accounts.Handle(a, n.accounts[a], n.r.accounts[a][0]);
    assert forall m :: m in n.mail + e.toRouter <==> m in n.mail || m in e.toRouter;
    forall k, m | k in n'.r.cards && m in n'.r.cards[k] ensures pc(k, m) {
      AccountStepMailboxes(n, a, k);
    }
  }

  lemma RouterStepEvery(n: Net, pa: (u64, AccountMsg) -> bool, pc: (CardKey, CardMsg) -> bool, pr: RouterMsg -> bool)
    requires Wired(n) && Enabled(n, AtRouter) && Every(n, pa, pc, pr)
    requires forall a, m :: AccountSent(n.mail[0], a, m) ==> pa(a, m)
    requires forall k, m :: CardSent(n.mail[0], k, m) ==> pc(k, m)
    ensures Every(RouterStep(n), pa, pc, pr)
  {
    HandleRequests(n.r, n.mail[0]);
    RequestedMembers(n.r, n.mail[0], Routers.Handle(n.r, n.mail[0]));
  }

  lemma NextWired(n: Net, l: Label)
    requires Wired(n) && Enabled(n, l)
    ensures Wired(Next(n, l))
  {
    if l.AtRouter? {
      RouterGrows(n.r, n.mail[0]);
      var n' := Next(n, l);
      assert n'.accounts.Keys == n'.r.accounts.Keys;
      assert n'.cards.Keys == n'.r.cards.Keys;
    }
  }

  /** `ls` can be taken in order from `n`. */
  ghost predicate Schedule(n: Net, ls: seq<Label>)
    requires Wired(n)
    decreases |ls|
  {
    ls != [] ==>
      && Enabled(n, ls[0])
      && (NextWired(n, ls[0]); Schedule(Next(n, ls[0]), ls[1..]))
  }

  /** The state after the schedule `ls`. */
  ghost function Run(n: Net, ls: seq<Label>): (n': Net)
    requires Wired(n) && Schedule(n, ls)
    ensures Wired(n')
    decreases |ls|
  {
    if ls == [] then n
    else
      NextWired(n, ls[0]);
      Run(Next(n, ls[0]), ls[1..])
  }
}
