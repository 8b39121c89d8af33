/**
 Routing a ReplaceDatabase only queues ReplaceState messages; as far as the normal form
 can tell, the database is already replaced.
 */
module Restores {
  import opened Wrappers
  import opened Protocol
  import opened Messages
  import opened Network
  import opened Ledgers
  import opened Stages
  import opened Normal
  import Cards
  import Accounts
  import Routers

  function AccountOr(accts: map<u64, Accounts.Account>, a: u64): Accounts.Account {
    if a in accts then accts[a] else Accounts.NEW_ACCOUNT
  }

  function CardOr(cards: map<CardKey, Cards.Card>, k: CardKey): Cards.Card {
    if k in cards then cards[k] else Cards.NEW_CARD
  }

  function AccountView(r: Routers.Router, accts: map<u64, Accounts.Account>, a: u64): Row
    requires a in r.accounts
  {
    var s := SettleAccount(AccountOr(accts, a), r.accounts[a]);
    Row(s.limit, s.consumed)
  }

  function CardView(r: Routers.Router, cards: map<CardKey, Cards.Card>, k: CardKey): Row
    requires k in r.cards
  {
    var s := SettleCard(CardOr(cards, k), r.cards[k]);
    Row(s.limit, s.consumed)
  }

  /** The ledger once every queued ReplaceState is applied. */
  function View(r: Routers.Router, accts: map<u64, Accounts.Account>, cards: map<CardKey, Cards.Card>): Ledger {
    Ledger(map a | a in r.accounts :: AccountView(r, accts, a), map k | k in r.cards :: CardView(r, cards, k))
  }

  /** Every mailbox holds ReplaceState messages only, and once they are applied every actor is idle. */
  ghost predicate Quiet(r: Routers.Router, accts: map<u64, Accounts.Account>, cards: map<CardKey, Cards.Card>) {
    && (forall a :: a in r.accounts ==> QuietAccount(AccountOr(accts, a), r.accounts[a]))
    && (forall k :: k in r.cards ==> QuietCard(CardOr(cards, k), r.cards[k]))
  }

  ghost predicate QuietAccount(acct: Accounts.Account, mail: seq<AccountMsg>) {
    StripAccount(mail) == [] && SettleAccount(acct, mail).pending.None?
  }

  ghost predicate QuietCard(c: Cards.Card, mail: seq<CardMsg>) {
    StripCard(mail) == [] && SettleCard(c, mail).current.None? && SettleCard(c, mail).queue == []
  }

  /** No actor is known without a mailbox. */
  ghost predicate Housed(r: Routers.Router, accts: map<u64, Accounts.Account>, cards: map<CardKey, Cards.Card>) {
    accts.Keys <= r.accounts.Keys && cards.Keys <= r.cards.Keys && Grows(r, r)
  }

  lemma {:induction false} SettleKeepsPending(acct: Accounts.Account, mail: seq<AccountMsg>)
    ensures SettleAccount(acct, mail).pending == acct.pending
    decreases |mail|
  {
    if mail != [] && mail[0].AccountReplaceState? {
      SettleKeepsPending(Accounts.Account(mail[0].newLimit, mail[0].newConsumed, acct.pending), mail[1..]);
    }
  }

  lemma AccountViewAt(r: Routers.Router, accts: map<u64, Accounts.Account>, cards: map<CardKey, Cards.Card>, a: u64, mail: seq<AccountMsg>)
    requires Quiet(r, accts, cards) && QuietAccount(AccountOr(accts, a), mail)
    ensures var r', s := r.(accounts := r.accounts[a := mail]), SettleAccount(AccountOr(accts, a), mail);
      && Quiet(r', accts, cards)
      && View(r', accts, cards) == View(r, accts, cards).(accounts := View(r, accts, cards).accounts[a := Row(s.limit, s.consumed)])
  {
    hide StripAccount, StripCard, SettleAccount, SettleCard, AccountOr, CardOr, QuietAccount, QuietCard;
    var r', s := r.(accounts := r.accounts[a := mail]), SettleAccount(AccountOr(accts, a), mail);
    assert View(r', accts, cards).accounts == View(r, accts, cards).accounts[a := Row(s.limit, s.consumed)];
    assert View(r', accts, cards).cards == View(r, accts, cards).cards;
  }

  lemma CardViewAt(r: Routers.Router, accts: map<u64, Accounts.Account>, cards: map<CardKey, Cards.Card>, k: CardKey, mail: seq<CardMsg>)
    requires Quiet(r, accts, cards) && QuietCard(CardOr(cards, k), mail)
    ensures var r', s := r.(cards := r.cards[k := mail]), SettleCard(CardOr(cards, k), mail);
      && Quiet(r', accts, cards)
      && View(r', accts, cards) == View(r, accts, cards).(cards := View(r, accts, cards).cards[k := Row(s.limit, s.consumed)])
  {
    hide StripAccount, StripCard, SettleAccount, SettleCard, AccountOr, CardOr, QuietAccount, QuietCard, AccountView;
    var r', s := r.(cards := r.cards[k := mail]), SettleCard(CardOr(cards, k), mail);
    SameAccountView(r, r', accts, cards);
    assert View(r', accts, cards).cards == View(r, accts, cards).cards[k := Row(s.limit, s.consumed)];
  }

  lemma SameAccountView(r: Routers.Router, r': Routers.Router, accts: map<u64, Accounts.Account>, cards: map<CardKey, Cards.Card>)
    requires r'.accounts == r.accounts
    ensures View(r', accts, cards).accounts == View(r, accts, cards).accounts
    ensures r'.cards == r.cards ==> View(r', accts, cards) == View(r, accts, cards)
  {
    hide SettleAccount, SettleCard;
  }

  /** One more ReplaceState behind the others has the last word. */
  lemma QuietReplaced(r: Routers.Router, accts: map<u64, Accounts.Account>, cards: map<CardKey, Cards.Card>, k: CardKey, limit: Option<real>, consumed: real)
    requires Quiet(r, accts, cards) && Housed(r, accts, cards)
    ensures var acct, mail := AccountOr(accts, k.account), AccountMail(r, k.account) + [AccountReplaceState(limit, consumed)];
      QuietAccount(acct, mail) && SettleAccount(acct, mail).limit == limit && SettleAccount(acct, mail).consumed == consumed
    ensures var c, mail := CardOr(cards, k), CardMail(r, k) + [CardReplaceState(limit, consumed)];
      QuietCard(c, mail) && SettleCard(c, mail) == Cards.Card(limit, consumed, None, [])
  {
    SettleKeepsPending(AccountOr(accts, k.account), AccountMail(r, k.account));
    AccountReplaced(AccountOr(accts, k.account), AccountMail(r, k.account), limit, consumed);
    CardReplaced(CardOr(cards, k), CardMail(r, k), limit, consumed);
  }

  lemma AccountPut(r: Routers.Router, accts: map<u64, Accounts.Account>, cards: map<CardKey, Cards.Card>, s: AccountSnapshot<real>)
    requires Quiet(r, accts, cards) && Housed(r, accts, cards)
    ensures var r' := Routers.ToAccount(r, s.accountId, AccountReplaceState(s.limit, s.consumed));
      && Quiet(r', accts, cards)
      && View(r', accts, cards) == View(r, accts, cards).(accounts := View(r, accts, cards).accounts[s.accountId := Row(s.limit, s.consumed)])
  {
    hide Quiet, QuietAccount, QuietCard, View, StripAccount, SettleAccount, SettleCard, AccountOr, CardOr;
    var a := s.accountId;
    var mail := AccountMail(r, a) + [AccountReplaceState(s.limit, s.consumed)];
    QuietReplaced(r, accts, cards, CardKey(a, 0), s.limit, s.consumed);
    AccountViewAt(r, accts, cards, a, mail);
    assert r.accounts[a := []][a := mail] == r.accounts[a := mail];
    assert Routers.ToAccount(r, a, AccountReplaceState(s.limit, s.consumed)) == r.(accounts := r.accounts[a := mail]);
  }

  lemma {:induction false} AccountsPut(r: Routers.Router, accts: map<u64, Accounts.Account>, cards: map<CardKey, Cards.Card>, snaps: seq<AccountSnapshot<real>>)
    requires Quiet(r, accts, cards) && Housed(r, accts, cards)
    ensures var r' := Routers.ReplaceAccounts(r, snaps);
      && Quiet(r', accts, cards) && Housed(r', accts, cards)
      && View(r', accts, cards) == PutAccounts(View(r, accts, cards), snaps)
  {
    ReplaceAccountsGrows(r, snaps);
    if snaps != [] {
      AccountsPut(r, accts, cards, snaps[..|snaps| - 1]);
      AccountPut(Routers.ReplaceAccounts(r, snaps[..|snaps| - 1]), accts, cards, snaps[|snaps| - 1]);
      hide View, Quiet, Routers.ToAccount;
    }
  }

  lemma CardCreated(r: Routers.Router, accts: map<u64, Accounts.Account>, cards: map<CardKey, Cards.Card>, k: CardKey)
    requires Quiet(r, accts, cards) && Housed(r, accts, cards)
    ensures var r' := Routers.WithCard(r, k);
      && Quiet(r', accts, cards) && Housed(r', accts, cards) && k in r'.cards
      && View(r', accts, cards) == WithCard(View(r, accts, cards), k)
  {
    hide View, Quiet, SettleAccount, SettleCard;
    ViewDomain(r, accts, cards, k);
    if k !in r.cards {
      var r1 := Routers.WithAccount(r, k.account);
      NewQuiet();
      if k.account !in r.accounts {
        AccountViewAt(r, accts, cards, k.account, []);
      }
      CardViewAt(r1, accts, cards, k, []);
    }
  }

  lemma NewQuiet()
    ensures QuietAccount(Accounts.NEW_ACCOUNT, []) && SettleAccount(Accounts.NEW_ACCOUNT, []) == Accounts.NEW_ACCOUNT
    ensures QuietCard(Cards.NEW_CARD, []) && SettleCard(Cards.NEW_CARD, []) == Cards.NEW_CARD
  {
  }

  lemma ViewDomain(r: Routers.Router, accts: map<u64, Accounts.Account>, cards: map<CardKey, Cards.Card>, k: CardKey)
    ensures k in View(r, accts, cards).cards <==> k in r.cards
    ensures k.account in View(r, accts, cards).accounts <==> k.account in r.accounts
  {
  }

  lemma {:induction false} CardsPut(r: Routers.Router, accts: map<u64, Accounts.Account>, cards: map<CardKey, Cards.Card>, snaps: seq<CardSnapshot<real>>)
    requires Quiet(r, accts, cards) && Housed(r, accts, cards)
    ensures var r' := Routers.ReplaceCards(r, snaps);
      && Quiet(r', accts, cards) && Housed(r', accts, cards)
      && View(r', accts, cards) == PutCards(View(r, accts, cards), snaps)
  {
    hide View, Quiet, Routers.WithCard, SettleCard, QuietCard, QuietAccount, SettleAccount, AccountOr;
    ReplaceCardsGrows(r, snaps);
    if snaps != [] {
      var front, last := snaps[..|snaps| - 1], snaps[|snaps| - 1];
      var k := CardKey(last.accountId, last.cardId);
      CardsPut(r, accts, cards, front);
      var mid := Routers.ReplaceCards(r, front);
      CardCreated(mid, accts, cards, k);
      var r1 := Routers.WithCard(mid, k);
      QuietReplaced(r1, accts, cards, k, last.limit, last.consumed);
      CardViewAt(r1, accts, cards, k, r1.cards[k] + [CardReplaceState(last.limit, last.consumed)]);
    }
  }

  // ---- the normal form ----

  /** The view of a network is the ledger of its normal form. */
  lemma ViewOfNorm(n: Net)
    requires Wired(n)
    ensures LedgerOf(Norm(n)) == View(n.r, n.accounts, n.cards)
  {
    assert LedgerOf(Norm(n)).accounts == View(n.r, n.accounts, n.cards).accounts;
    assert LedgerOf(Norm(n)).cards == View(n.r, n.accounts, n.cards).cards;
  }

  /** A network is quiet exactly when its normal form is idle. */
  lemma QuietIffIdle(n: Net)
    requires Wired(n) && n.mail == [] && n.r.snapshots == map[]
    ensures Quiet(n.r, n.accounts, n.cards) <==> Idle(Norm(n))
  {
    hide Norm, StripAccount, StripCard, SettleAccount, SettleCard;
    NormWired(n);
    NormRest(n);
    forall a | a in n.accounts
      ensures QuietAccount(AccountOr(n.accounts, a), n.r.accounts[a]) <==>
              Norm(n).r.accounts[a] == [] && Norm(n).accounts[a].pending.None?
    {
      NormAt(n, a, CardKey(0, 0));
    }
    forall k | k in n.cards
      ensures QuietCard(CardOr(n.cards, k), n.r.cards[k]) <==>
              Norm(n).r.cards[k] == [] && Norm(n).cards[k].current.None? && Norm(n).cards[k].queue == []
    {
      NormAt(n, k.account, k);
    }
  }

  lemma NormRest(n: Net)
    requires Wired(n)
    ensures Norm(n).mail == n.mail && Norm(n).r.snapshots == n.r.snapshots && Norm(n).r.events == n.r.events
    ensures Norm(n).accounts.Keys == n.accounts.Keys && Norm(n).cards.Keys == n.cards.Keys
    ensures Norm(n).r.accounts.Keys == n.accounts.Keys && Norm(n).r.cards.Keys == n.cards.Keys
  {
  }

  /** Actors that routing creates read as new ones. */
  lemma ViewExtends(r: Routers.Router, accts: map<u64, Accounts.Account>, cards: map<CardKey, Cards.Card>)
    ensures var accts', cards' := Extend(r.accounts.Keys, accts, Accounts.NEW_ACCOUNT), Extend(r.cards.Keys, cards, Cards.NEW_CARD);
      View(r, accts', cards') == View(r, accts, cards) && (Quiet(r, accts, cards) <==> Quiet(r, accts', cards'))
  {
    hide SettleAccount, SettleCard, StripAccount, StripCard;
  }

  /** Routing a ReplaceDatabase on a quiet network replaces the ledger. */
  lemma RoutesRestore(n: Net, opId: u32, op: Op)
    requires Wired(n) && op.ReplaceDatabase? && n.mail == [Execute(opId, op)] && Quiet(n.r, n.accounts, n.cards)
    ensures var n' := Next(n, AtRouter);
      && n'.mail == [] && n'.r.snapshots == n.r.snapshots
      && n'.r.events == n.r.events + [OperationResultEvent(opId, op, ReplaceDatabaseResult, true, None)]
      && Quiet(n'.r, n'.accounts, n'.cards)
      && View(n'.r, n'.accounts, n'.cards) == PutCards(PutAccounts(View(n.r, n.accounts, n.cards), op.snapshot.accounts), op.snapshot.cards)
  {
    hide View, Quiet, PutAccounts, PutCards, Routers.ReplaceAccounts, Routers.ReplaceCards;
    var s := op.snapshot;
    var r1 := n.r.(operations := n.r.operations[opId := op]);
    SameView(n.r, r1, n.accounts, n.cards);
    AccountsPut(r1, n.accounts, n.cards, s.accounts);
    ReplaceAccountsGrows(r1, s.accounts);
    var r2 := Routers.ReplaceAccounts(r1, s.accounts);
    CardsPut(r2, n.accounts, n.cards, s.cards);
    ReplaceCardsGrows(r2, s.cards);
    var r3, n' := Routers.ReplaceCards(r2, s.cards), Next(n, AtRouter);
    SameView(r3, n'.r, n.accounts, n.cards);
    ViewExtends(n'.r, n.accounts, n.cards);
  }

  lemma SameView(r: Routers.Router, r': Routers.Router, accts: map<u64, Accounts.Account>, cards: map<CardKey, Cards.Card>)
    requires r'.accounts == r.accounts && r'.cards == r.cards
    ensures View(r', accts, cards) == View(r, accts, cards)
    ensures Quiet(r, accts, cards) ==> Quiet(r', accts, cards)
  {
    SameAccountView(r, r', accts, cards);
  }
}
