/**
 The sequential specification of the database: a ledger of limits and consumptions, and
 what each operation does to it in one step.
 */
module Ledgers {
  import opened Wrappers
  import opened Protocol
  import opened Messages
  import opened Sums

  datatype Row = Row(limit: Option<real>, consumed: real)

  datatype Ledger = Ledger(accounts: map<u64, Row>, cards: map<CardKey, Row>)

  /** An answer; card and account lists are compared up to order. */
  datatype Answer =
    | Decided(outcome: Outcome)
    | Spent(total: real, perCard: multiset<(u64, real)>)
    | Dump(addr: SocketAddr, accounts: multiset<AccountSnapshot<real>>, cards: multiset<CardSnapshot<real>>)
    | Replaced

  const EMPTY_LEDGER := Ledger(map[], map[])

  const NEW_ROW := Row(None, 0.0)

  function WithAccount(db: Ledger, a: u64): Ledger {
    if a in db.accounts then db else db.(accounts := db.accounts[a := NEW_ROW])
  }

  function WithCard(db: Ledger, k: CardKey): Ledger {
    if k in db.cards then db else WithAccount(db, k.account).(cards := db.cards[k := NEW_ROW])
  }

  /** Every card's account exists. */
  ghost predicate Rooted(db: Ledger) {
    forall k :: k in db.cards ==> k.account in db.accounts
  }

  function SpentBy(db: Ledger, a: u64): map<CardKey, real> {
    map k | k in db.cards && k.account == a :: db.cards[k].consumed
  }

  /** The (card, consumption) pairs of a map of cards. */
  function Pairs(m: map<CardKey, real>): set<(u64, real)> {
    set k | k in m :: (k.card, m[k])
  }

  function AccountSnaps(db: Ledger): set<AccountSnapshot<real>> {
    set a | a in db.accounts :: AccountSnapshot(a, db.accounts[a].limit, db.accounts[a].consumed)
  }

  function CardSnaps(db: Ledger): set<CardSnapshot<real>> {
    set k | k in db.cards :: CardSnapshot(k.account, k.card, db.cards[k].limit, db.cards[k].consumed)
  }

  function SetAccountLimit(db: Ledger, a: u64, newLimit: Option<real>): (Ledger, Outcome)
    requires a in db.accounts
  {
    if CanSetLimit(newLimit, db.accounts[a].consumed) then
      (db.(accounts := db.accounts[a := db.accounts[a].(limit := newLimit)]), Outcome.Ok)
    else
      (db, Failed(LimitUpdate(BelowCurrentUsage)))
  }

  function SetCardLimit(db: Ledger, k: CardKey, newLimit: Option<real>): (Ledger, Outcome)
    requires k in db.cards
  {
    if CanSetLimit(newLimit, db.cards[k].consumed) then
      (db.(cards := db.cards[k := db.cards[k].(limit := newLimit)]), Outcome.Ok)
    else
      (db, Failed(LimitUpdate(BelowCurrentUsage)))
  }

  function Pay(db: Ledger, k: CardKey, amount: real, fromOffline: bool): (Ledger, Outcome)
    requires k in db.cards && k.account in db.accounts
  {
    var c, a := db.cards[k], db.accounts[k.account];
    if !fromOffline && Exceeds(c.limit, c.consumed, amount) then (db, Failed(ChargeLimit(CardLimitExceeded)))
    else if !fromOffline && Exceeds(a.limit, a.consumed, amount) then (db, Failed(ChargeLimit(AccountLimitExceeded)))
    else
      (Ledger(db.accounts[k.account := a.(consumed := a.consumed + amount)],
              db.cards[k := c.(consumed := c.consumed + amount)]),
       Outcome.Ok)
  }

  ghost function Report(db: Ledger, a: u64): Answer
    requires a in db.accounts
  {
    var spent := SpentBy(db, a);
    Spent(if spent == map[] then db.accounts[a].consumed else Total(spent), multiset(Pairs(spent)))
  }

  /** A bill leaves nothing consumed on the account and its cards. */
  function Reset(db: Ledger, a: u64): Ledger
    requires a in db.accounts
  {
    Ledger(
      db.accounts[a := db.accounts[a].(consumed := 0.0)],
      map k | k in db.cards :: if k.account == a then db.cards[k].(consumed := 0.0) else db.cards[k])
  }

  function PutAccounts(db: Ledger, snaps: seq<AccountSnapshot<real>>): Ledger {
    if snaps == [] then db
    else
      var last := snaps[|snaps| - 1];
      var db := PutAccounts(db, snaps[..|snaps| - 1]);
      db.(accounts := db.accounts[last.accountId := Row(last.limit, last.consumed)])
  }

  function PutCards(db: Ledger, snaps: seq<CardSnapshot<real>>): Ledger {
    if snaps == [] then db
    else
      var last := snaps[|snaps| - 1];
      var k := CardKey(last.accountId, last.cardId);
      var db := WithCard(PutCards(db, snaps[..|snaps| - 1]), k);
      db.(cards := db.cards[k := Row(last.limit, last.consumed)])
  }

  /** One operation, executed alone. */
  ghost function Apply(db: Ledger, op: Op): (Ledger, Answer)
    requires Rooted(db)
  {
    match op
    case Charge(a, c, amount, fromOffline) =>
      var k := CardKey(a, c);
      var (db', outcome) := Pay(WithCard(db, k), k, amount, fromOffline);
      (db', Decided(outcome))
    case LimitAccount(a, newLimit) =>
      var (db', outcome) := SetAccountLimit(WithAccount(db, a), a, newLimit);
      (db', Decided(outcome))
    case LimitCard(a, c, newLimit) =>
      var k := CardKey(a, c);
      var (db', outcome) := SetCardLimit(WithCard(db, k), k, newLimit);
      (db', Decided(outcome))
    case AccountQuery(a) => (WithAccount(db, a), Report(WithAccount(db, a), a))
    case Bill(a, _) => (Reset(WithAccount(db, a), a), Report(WithAccount(db, a), a))
    case GetDatabase(addr) => (db, Dump(addr, multiset(AccountSnaps(db)), multiset(CardSnaps(db))))
    case ReplaceDatabase(snapshot) => (PutCards(PutAccounts(db, snapshot.accounts), snapshot.cards), Replaced)
  }

  // ---- when an operation succeeds, in plain arithmetic ----

  /** What is on record for a card or an account; a new one has no limit and has consumed nothing. */
  function RowOr<K>(rows: map<K, Row>, k: K): Row {
    if k in rows then rows[k] else Row(None, 0.0)
  }

  /** No row but that of `k` and its account is touched, and what is created is as good as new. */
  ghost predicate OthersKept(db: Ledger, db': Ledger, k: CardKey) {
    && (forall j :: j != k ==> (j in db'.cards <==> j in db.cards) && RowOr(db'.cards, j) == RowOr(db.cards, j))
    && (forall b :: b != k.account ==> (b in db'.accounts <==> b in db.accounts) && RowOr(db'.accounts, b) == RowOr(db.accounts, b))
  }

  /** Removing a card's limit always succeeds; setting one does exactly when it covers what was consumed. */
  lemma CardLimitAnswer(db: Ledger, a: u64, c: u64, newLimit: Option<real>)
    requires Rooted(db)
    ensures var k, (db', answer) := CardKey(a, c), Apply(db, LimitCard(a, c, newLimit));
      var row, fits := RowOr(db.cards, k), newLimit.None? || newLimit.value >= RowOr(db.cards, k).consumed;
      && answer == Decided(if fits then Outcome.Ok else Failed(LimitUpdate(BelowCurrentUsage)))
      && k in db'.cards && db'.cards[k] == Row(if fits then newLimit else row.limit, row.consumed)
      && a in db'.accounts && db'.accounts[a] == RowOr(db.accounts, a) && OthersKept(db, db', k)
  {
  }

  /** The same for an account's limit. */
  lemma AccountLimitAnswer(db: Ledger, a: u64, newLimit: Option<real>)
    requires Rooted(db)
    ensures var (db', answer) := Apply(db, LimitAccount(a, newLimit));
      var row, fits := RowOr(db.accounts, a), newLimit.None? || newLimit.value >= RowOr(db.accounts, a).consumed;
      && answer == Decided(if fits then Outcome.Ok else Failed(LimitUpdate(BelowCurrentUsage)))
      && a in db'.accounts && db'.accounts[a] == Row(if fits then newLimit else row.limit, row.consumed)
      && db'.cards == db.cards && forall c :: OthersKept(db, db', CardKey(a, c))
  {
  }

  /**
   A replayed charge is always accepted; any other exactly when neither the card's limit nor the
   account's would be exceeded, and if both would be, the card is blamed. Accepted, it is added
   to both; refused, to neither.
   */
  lemma ChargeAnswer(db: Ledger, a: u64, c: u64, amount: real, fromOffline: bool)
    requires Rooted(db)
    ensures var k, (db', answer) := CardKey(a, c), Apply(db, Charge(a, c, amount, fromOffline));
      var card, account := RowOr(db.cards, k), RowOr(db.accounts, a);
      var cardFits := fromOffline || card.limit.None? || card.consumed + amount <= card.limit.value;
      var accountFits := fromOffline || account.limit.None? || account.consumed + amount <= account.limit.value;
      var added := if cardFits && accountFits then amount else 0.0;
      && answer == Decided(if !cardFits then Failed(ChargeLimit(CardLimitExceeded))
                           else if !accountFits then Failed(ChargeLimit(AccountLimitExceeded))
                           else Outcome.Ok)
      && k in db'.cards && db'.cards[k] == Row(card.limit, card.consumed + added)
      && a in db'.accounts && db'.accounts[a] == Row(account.limit, account.consumed + added) && OthersKept(db, db', k)
  {
  }

  /** A bill and a query report what each card of the account has consumed; a bill then sets it to zero, a query changes nothing. */
  lemma ReportAnswer(db: Ledger, op: Op)
    requires Rooted(db) && (op.AccountQuery? || op.Bill?)
    ensures var a, (db', answer) := op.accountId, Apply(db, op);
      && answer.Spent? && answer.total == (if forall k :: k in db.cards ==> k.account != a then RowOr(db.accounts, a).consumed else Total(SpentBy(db, a)))
      && (forall c: u64, x: real :: answer.perCard[(c, x)] == if CardKey(a, c) in db.cards && db.cards[CardKey(a, c)].consumed == x then 1 else 0)
      && a in db'.accounts && db'.accounts[a] == Row(RowOr(db.accounts, a).limit, if op.Bill? then 0.0 else RowOr(db.accounts, a).consumed)
      && db'.cards.Keys == db.cards.Keys
      && (forall k :: k in db.cards ==>
        db'.cards[k] == Row(db.cards[k].limit, if op.Bill? && k.account == a then 0.0 else db.cards[k].consumed))
      && forall b :: b != a ==> (b in db'.accounts <==> b in db.accounts) && RowOr(db'.accounts, b) == RowOr(db.accounts, b)
  {
    ReportedFigures(db, op.accountId);
    ReportedRows(db, op);
    hide Report, Reset, WithAccount, RowOr;
  }

  lemma ReportedFigures(db: Ledger, a: u64)
    requires Rooted(db)
    ensures a in WithAccount(db, a).accounts
    ensures var answer := Report(WithAccount(db, a), a);
      && answer.Spent? && answer.total == (if forall k :: k in db.cards ==> k.account != a then RowOr(db.accounts, a).consumed else Total(SpentBy(db, a)))
      && forall c: u64, x: real :: answer.perCard[(c, x)] == if CardKey(a, c) in db.cards && db.cards[CardKey(a, c)].consumed == x then 1 else 0
  {
    SpentPairs(db, a);
    hide Pairs, SpentBy;
  }

  lemma ReportedRows(db: Ledger, op: Op)
    requires Rooted(db) && (op.AccountQuery? || op.Bill?)
    ensures var a, db' := op.accountId, Apply(db, op).0;
      && a in db'.accounts && db'.accounts[a] == Row(RowOr(db.accounts, a).limit, if op.Bill? then 0.0 else RowOr(db.accounts, a).consumed)
      && db'.cards.Keys == db.cards.Keys
      && (forall k :: k in db.cards ==>
        db'.cards[k] == Row(db.cards[k].limit, if op.Bill? && k.account == a then 0.0 else db.cards[k].consumed))
      && forall b :: b != a ==> (b in db'.accounts <==> b in db.accounts) && RowOr(db'.accounts, b) == RowOr(db.accounts, b)
  {
    hide Report;
  }

  lemma SpentPairs(db: Ledger, a: u64)
    ensures var spent := SpentBy(db, a);
      && SpentBy(WithAccount(db, a), a) == spent && (spent == map[] <==> forall k :: k in db.cards ==> k.account != a)
      && forall c: u64, x: real :: (c, x) in Pairs(spent) <==> CardKey(a, c) in db.cards && db.cards[CardKey(a, c)].consumed == x
  {
    var spent := SpentBy(db, a);
    if k :| k in db.cards && k.account == a {
      assert k in spent;
    }
    forall c: u64, x: real ensures (c, x) in Pairs(spent) <==> CardKey(a, c) in db.cards && db.cards[CardKey(a, c)].consumed == x {
      if CardKey(a, c) in db.cards && db.cards[CardKey(a, c)].consumed == x {
        assert CardKey(a, c) in spent;
      }
    }
  }

  /** A dump lists every account and every card once, as it is on record, and changes nothing. */
  lemma DumpAnswer(db: Ledger, addr: SocketAddr)
    requires Rooted(db)
    ensures var (db', answer) := Apply(db, GetDatabase(addr));
      && db' == db && answer.Dump? && answer.addr == addr
      && (forall a: u64, limit: Option<real>, consumed: real ::
        answer.accounts[AccountSnapshot(a, limit, consumed)] == if a in db.accounts && db.accounts[a] == Row(limit, consumed) then 1 else 0)
      && (forall k: CardKey, limit: Option<real>, consumed: real ::
        answer.cards[CardSnapshot(k.account, k.card, limit, consumed)] == if k in db.cards && db.cards[k] == Row(limit, consumed) then 1 else 0)
  {
    forall k: CardKey, limit: Option<real>, consumed: real
      ensures CardSnapshot(k.account, k.card, limit, consumed) in CardSnaps(db) <==> k in db.cards && db.cards[k] == Row(limit, consumed)
    {
      assert k == CardKey(k.account, k.card);
    }
  }

  /** Row `i` is the last of the list with its key. */
  ghost predicate LastAccount(snaps: seq<AccountSnapshot<real>>, i: int, a: u64) {
    0 <= i < |snaps| && snaps[i].accountId == a && forall j :: i < j < |snaps| ==> snaps[j].accountId != a
  }

  ghost predicate LastCard(snaps: seq<CardSnapshot<real>>, i: int, k: CardKey) {
    0 <= i < |snaps| && RowKey(snaps[i]) == k && forall j :: i < j < |snaps| ==> RowKey(snaps[j]) != k
  }

  function RowKey(s: CardSnapshot<real>): CardKey {
    CardKey(s.accountId, s.cardId)
  }

  lemma OneAccountPut(db: Ledger, snaps: seq<AccountSnapshot<real>>, a: u64)
    ensures snaps == [] ==> PutAccounts(db, snaps) == db
    ensures snaps != [] ==>
      var n := |snaps| - 1;
      RowOr(PutAccounts(db, snaps).accounts, a) ==
        if snaps[n].accountId == a then Row(snaps[n].limit, snaps[n].consumed) else RowOr(PutAccounts(db, snaps[..n]).accounts, a)
  {
  }

  lemma {:induction false} AccountRestored(db: Ledger, snaps: seq<AccountSnapshot<real>>, a: u64)
    ensures var row := RowOr(PutAccounts(db, snaps).accounts, a);
      && (forall i :: LastAccount(snaps, i, a) ==> row == Row(snaps[i].limit, snaps[i].consumed))
      && ((forall s :: s in snaps ==> s.accountId != a) ==> row == RowOr(db.accounts, a))
    decreases |snaps|
  {
    hide PutAccounts, RowOr;
    OneAccountPut(db, snaps, a);
    if snaps != [] {
      var n := |snaps| - 1;
      if snaps[n].accountId != a {
        AccountRestored(db, snaps[..n], a);
        forall i | LastAccount(snaps, i, a) ensures LastAccount(snaps[..n], i, a) && snaps[..n][i] == snaps[i] {
        }
      }
    }
  }

  lemma OneCardPut(db: Ledger, snaps: seq<CardSnapshot<real>>, k: CardKey, a: u64)
    ensures snaps == [] ==> PutCards(db, snaps) == db
    ensures snaps != [] ==>
      var n := |snaps| - 1;
      && RowOr(PutCards(db, snaps).cards, k) ==
        (if RowKey(snaps[n]) == k then Row(snaps[n].limit, snaps[n].consumed) else RowOr(PutCards(db, snaps[..n]).cards, k))
      && RowOr(PutCards(db, snaps).accounts, a) == RowOr(PutCards(db, snaps[..n]).accounts, a)
  {
  }

  lemma LastInFront(snaps: seq<CardSnapshot<real>>, k: CardKey)
    requires snaps != [] && RowKey(snaps[|snaps| - 1]) != k
    ensures forall i :: LastCard(snaps, i, k) ==> LastCard(snaps[..|snaps| - 1], i, k) && snaps[..|snaps| - 1][i] == snaps[i]
    ensures (forall s :: s in snaps ==> RowKey(s) != k) ==> forall s :: s in snaps[..|snaps| - 1] ==> RowKey(s) != k
  {
  }

  lemma LastOfAll(snaps: seq<CardSnapshot<real>>, k: CardKey, i: int)
    requires snaps != [] && RowKey(snaps[|snaps| - 1]) == k && LastCard(snaps, i, k)
    ensures i == |snaps| - 1
  {
  }

  lemma {:induction false} CardRestored(db: Ledger, snaps: seq<CardSnapshot<real>>, k: CardKey, a: u64)
    ensures forall i :: LastCard(snaps, i, k) ==> RowOr(PutCards(db, snaps).cards, k) == Row(snaps[i].limit, snaps[i].consumed)
    ensures (forall s :: s in snaps ==> RowKey(s) != k) ==> RowOr(PutCards(db, snaps).cards, k) == RowOr(db.cards, k)
    ensures RowOr(PutCards(db, snaps).accounts, a) == RowOr(db.accounts, a)
    decreases |snaps|
  {
    OneCardPut(db, snaps, k, a);
    if snaps != [] {
      var n := |snaps| - 1;
      CardRestored(db, snaps[..n], k, a);
      if RowKey(snaps[n]) != k {
        LastInFront(snaps, k);
      } else {
        forall i | LastCard(snaps, i, k) ensures i == n {
          LastOfAll(snaps, k, i);
        }
        assert snaps[n] in snaps;
      }
      hide LastCard;
    }
    hide PutCards, RowOr, RowKey;
  }

  /**
   A restore sets what the snapshot lists to its last row there; what it does not list keeps its
   figures, though the account of a listed card may be new.
   */
  lemma RestoreAnswer(db: Ledger, s: DatabaseSnapshot<real>, k: CardKey)
    requires Rooted(db)
    ensures var (db', answer) := Apply(db, ReplaceDatabase(s));
      && answer == Replaced
      && (forall i :: LastAccount(s.accounts, i, k.account) ==>
        RowOr(db'.accounts, k.account) == Row(s.accounts[i].limit, s.accounts[i].consumed))
      && ((forall x :: x in s.accounts ==> x.accountId != k.account) ==> RowOr(db'.accounts, k.account) == RowOr(db.accounts, k.account))
      && (forall i :: LastCard(s.cards, i, k) ==> RowOr(db'.cards, k) == Row(s.cards[i].limit, s.cards[i].consumed))
      && ((forall x :: x in s.cards ==> RowKey(x) != k) ==> RowOr(db'.cards, k) == RowOr(db.cards, k))
  {
    hide RowOr, PutAccounts, PutCards, LastAccount, LastCard;
    PutAccountsKeys(db, s.accounts);
    AccountRestored(db, s.accounts, k.account);
    CardRestored(PutAccounts(db, s.accounts), s.cards, k, k.account);
  }

  // ---- properties of the specification ----

  lemma {:induction false} PutAccountsKeys(db: Ledger, snaps: seq<AccountSnapshot<real>>)
    requires Rooted(db)
    ensures Rooted(PutAccounts(db, snaps)) && PutAccounts(db, snaps).cards == db.cards
  {
    if snaps != [] {
      PutAccountsKeys(db, snaps[..|snaps| - 1]);
    }
  }

  lemma {:induction false} PutCardsRooted(db: Ledger, snaps: seq<CardSnapshot<real>>)
    requires Rooted(db)
    ensures Rooted(PutCards(db, snaps))
  {
    if snaps != [] {
      PutCardsRooted(db, snaps[..|snaps| - 1]);
    }
  }

  lemma ApplyRooted(db: Ledger, op: Op)
    requires Rooted(db)
    ensures Rooted(Apply(db, op).0)
  {
    if op.ReplaceDatabase? {
      PutAccountsKeys(db, op.snapshot.accounts);
      PutCardsRooted(PutAccounts(db, op.snapshot.accounts), op.snapshot.cards);
    }
  }

  /** Each account's consumption is the total of its cards. */
  ghost predicate Balanced(db: Ledger) {
    forall a :: a in db.accounts ==> db.accounts[a].consumed == Total(SpentBy(db, a))
  }

  lemma {:induction false} TotalOfZeros(m: map<CardKey, real>)
    requires forall k :: k in m ==> m[k] == 0.0
    ensures Total(m) == 0.0
  {
    TotalExtend(map[], m);
  }

  lemma WithCardBalanced(db: Ledger, k: CardKey)
    requires Rooted(db) && Balanced(db)
    ensures Rooted(WithCard(db, k)) && Balanced(WithCard(db, k))
    ensures Rooted(WithAccount(db, k.account)) && Balanced(WithAccount(db, k.account))
  {
    hide SpentBy, Total;
    forall a
      ensures Total(SpentBy(WithCard(db, k), a)) == Total(SpentBy(db, a)) == Total(SpentBy(WithAccount(db, k.account), a))
      ensures a !in db.accounts ==> Total(SpentBy(db, a)) == 0.0
    {
      SpentAdded(db, k, a);
      TotalExtend(SpentBy(db, a), SpentBy(WithCard(db, k), a));
      TotalOfZeros(map[]);
    }
  }

  /** New actors have spent nothing. */
  lemma SpentAdded(db: Ledger, k: CardKey, a: u64)
    requires Rooted(db)
    ensures SpentBy(WithAccount(db, k.account), a) == SpentBy(db, a)
    ensures a !in db.accounts ==> SpentBy(db, a) == map[]
    ensures SpentBy(db, a).Keys <= SpentBy(WithCard(db, k), a).Keys
    ensures var m := SpentBy(WithCard(db, k), a);
      forall j :: j in m ==> m[j] == if j in SpentBy(db, a) then SpentBy(db, a)[j] else 0.0
  {
  }

  lemma PayBalanced(db: Ledger, k: CardKey, amount: real, fromOffline: bool)
    requires Rooted(db) && Balanced(db) && k in db.cards
    ensures Balanced(Pay(db, k, amount, fromOffline).0)
  {
    hide SpentBy, Total;
    var db' := Pay(db, k, amount, fromOffline).0;
    if db' != db {
      forall a | a in db.accounts ensures db'.accounts[a].consumed == Total(SpentBy(db', a)) {
        SpentUpdate(db, db', k, a);
        if a == k.account {
          TotalUpdate(SpentBy(db, a), k, db'.cards[k].consumed);
        }
      }
    }
  }

  lemma SpentUpdate(db: Ledger, db': Ledger, k: CardKey, a: u64)
    requires k in db.cards && k in db'.cards && db'.cards == db.cards[k := db'.cards[k]]
    ensures k in SpentBy(db, k.account) && SpentBy(db, k.account)[k] == db.cards[k].consumed
    ensures SpentBy(db', a) == if a == k.account then SpentBy(db, a)[k := db'.cards[k].consumed] else SpentBy(db, a)
  {
  }

  lemma SetLimitBalanced(db: Ledger, k: CardKey, newLimit: Option<real>)
    requires Balanced(db)
    ensures k in db.cards ==> Balanced(SetCardLimit(db, k, newLimit).0)
    ensures k.account in db.accounts ==> Balanced(SetAccountLimit(db, k.account, newLimit).0)
  {
    forall a ensures k in db.cards ==> SpentBy(SetCardLimit(db, k, newLimit).0, a) == SpentBy(db, a) {}
    forall a ensures k.account in db.accounts ==> SpentBy(SetAccountLimit(db, k.account, newLimit).0, a) == SpentBy(db, a) {}
  }

  lemma ResetBalanced(db: Ledger, a: u64)
    requires Balanced(db) && a in db.accounts
    ensures Balanced(Reset(db, a))
  {
    var db' := Reset(db, a);
    TotalOfZeros(SpentBy(db', a));
    forall b | b != a ensures SpentBy(db', b) == SpentBy(db, b) {}
  }

  /** Every operation but ReplaceDatabase keeps the books balanced. */
  lemma ApplyBalanced(db: Ledger, op: Op)
    requires Rooted(db) && Balanced(db) && !op.ReplaceDatabase?
    ensures Balanced(Apply(db, op).0)
  {
    match op {
      case Charge(a, c, amount, fromOffline) =>
        WithCardBalanced(db, CardKey(a, c));
        PayBalanced(WithCard(db, CardKey(a, c)), CardKey(a, c), amount, fromOffline);
      case LimitAccount(a, newLimit) =>
        WithCardBalanced(db, CardKey(a, 0));
        SetLimitBalanced(WithAccount(db, a), CardKey(a, 0), newLimit);
      case LimitCard(a, c, newLimit) =>
        WithCardBalanced(db, CardKey(a, c));
        SetLimitBalanced(WithCard(db, CardKey(a, c)), CardKey(a, c), newLimit);
      case AccountQuery(a) =>
        WithCardBalanced(db, CardKey(a, 0));
      case Bill(a, _) =>
        WithCardBalanced(db, CardKey(a, 0));
        ResetBalanced(WithAccount(db, a), a);
      case GetDatabase(_) =>
    }
  }

  // ---- billing ----

  /** What an operation adds to the accepted charges of `a`, and to the totals billed to it. */
  ghost function Accepted(db: Ledger, op: Op, a: u64): real
    requires Rooted(db)
  {
    if op.Charge? && op.accountId == a && Apply(db, op).1 == Decided(Outcome.Ok) then op.amount else 0.0
  }

  ghost function Billed(db: Ledger, op: Op, a: u64): real
    requires Rooted(db)
  {
    if op.Bill? && op.accountId == a then Apply(db, op).1.total else 0.0
  }

  ghost function Consumed(db: Ledger, a: u64): real {
    if a in db.accounts then db.accounts[a].consumed else 0.0
  }

  lemma ApplyBilling(db: Ledger, op: Op, a: u64)
    requires Rooted(db) && Balanced(db) && !op.ReplaceDatabase?
    ensures Consumed(db, a) + Accepted(db, op, a) == Billed(db, op, a) + Consumed(Apply(db, op).0, a)
  {
    hide Balanced, SpentBy, Total;
    if op.Bill? && op.accountId == a {
      WithCardBalanced(db, CardKey(a, 0));
      BalancedAt(WithAccount(db, a), a);
    }
  }

  lemma BalancedAt(db: Ledger, a: u64)
    requires Balanced(db) && a in db.accounts
    ensures db.accounts[a].consumed == Total(SpentBy(db, a))
  {
  }

  ghost function Fold(db: Ledger, ops: seq<Op>): Ledger
    requires Rooted(db)
    decreases |ops|
  {
    if ops == [] then db
    else
      ApplyRooted(db, ops[0]);
      Fold(Apply(db, ops[0]).0, ops[1..])
  }

  ghost function TotalAccepted(db: Ledger, ops: seq<Op>, a: u64): real
    requires Rooted(db)
    decreases |ops|
  {
    if ops == [] then 0.0
    else
      ApplyRooted(db, ops[0]);
      Accepted(db, ops[0], a) + TotalAccepted(Apply(db, ops[0]).0, ops[1..], a)
  }

  ghost function TotalBilled(db: Ledger, ops: seq<Op>, a: u64): real
    requires Rooted(db)
    decreases |ops|
  {
    if ops == [] then 0.0
    else
      ApplyRooted(db, ops[0]);
      Billed(db, ops[0], a) + TotalBilled(Apply(db, ops[0]).0, ops[1..], a)
  }

  lemma {:induction false} FoldBilling(db: Ledger, ops: seq<Op>, a: u64)
    requires Rooted(db) && Balanced(db) && forall op :: op in ops ==> !op.ReplaceDatabase?
    ensures Balanced(Fold(db, ops))
    ensures Consumed(db, a) + TotalAccepted(db, ops, a) == TotalBilled(db, ops, a) + Consumed(Fold(db, ops), a)
    decreases |ops|
  {
    if ops != [] {
      ApplyRooted(db, ops[0]);
      ApplyBalanced(db, ops[0]);
      ApplyBilling(db, ops[0], a);
      FoldBilling(Apply(db, ops[0]).0, ops[1..], a);
    }
  }

  /**
   From an empty ledger, every accepted charge of an account is either on a bill or still
   consumed, and what is still consumed is what its cards have consumed.
   */
  lemma BillingConserved(ops: seq<Op>, a: u64)
    requires forall op :: op in ops ==> !op.ReplaceDatabase?
    ensures var db := Fold(EMPTY_LEDGER, ops);
      && TotalAccepted(EMPTY_LEDGER, ops, a) == TotalBilled(EMPTY_LEDGER, ops, a) + Consumed(db, a)
      && (a in db.accounts ==> db.accounts[a].consumed == Total(SpentBy(db, a)))
  {
    FoldBilling(EMPTY_LEDGER, ops, a);
  }

  // ---- snapshot and restore ----

  lemma {:induction false} PutAccountsAt(db: Ledger, snaps: seq<AccountSnapshot<real>>, a: u64)
    ensures a in PutAccounts(db, snaps).accounts <==> a in db.accounts || exists s :: s in snaps && s.accountId == a
    ensures a in PutAccounts(db, snaps).accounts && (exists s :: s in snaps && s.accountId == a) ==>
      AccountSnapshot(a, PutAccounts(db, snaps).accounts[a].limit, PutAccounts(db, snaps).accounts[a].consumed) in snaps
  {
    if snaps != [] {
      var n := |snaps| - 1;
      PutAccountsAt(db, snaps[..n], a);
      assert forall s :: s in snaps <==> s in snaps[..n] || s == snaps[n];
    }
  }

  lemma {:induction false} PutCardsAt(db: Ledger, snaps: seq<CardSnapshot<real>>, k: CardKey)
    requires forall s :: s in snaps ==> s.accountId in db.accounts
    ensures PutCards(db, snaps).accounts == db.accounts
    ensures k in PutCards(db, snaps).cards <==> k in db.cards || exists s :: s in snaps && CardKey(s.accountId, s.cardId) == k
    ensures k in PutCards(db, snaps).cards && (exists s :: s in snaps && CardKey(s.accountId, s.cardId) == k) ==>
      var row := PutCards(db, snaps).cards[k];
      CardSnapshot(k.account, k.card, row.limit, row.consumed) in snaps
  {
    if snaps != [] {
      var n := |snaps| - 1;
      assert forall s :: s in snaps <==> s in snaps[..n] || s == snaps[n];
      PutCardsAt(db, snaps[..n], k);
    }
  }

  /** Restoring a snapshot, whatever the order of its lists, into an empty database gives the ledger it was taken from. */
  lemma RestoreSnapshot(db: Ledger, snapshot: DatabaseSnapshot<real>)
    requires Rooted(db)
    requires Apply(db, GetDatabase(snapshot.addr)).1 == Dump(snapshot.addr, multiset(snapshot.accounts), multiset(snapshot.cards))
    ensures Apply(EMPTY_LEDGER, ReplaceDatabase(snapshot)).0 == db
  {
    var xs, ys := snapshot.accounts, snapshot.cards;
    forall s ensures s in xs <==> s in AccountSnaps(db) {
      assert s in xs <==> s in multiset(xs);
    }
    forall s ensures s in ys <==> s in CardSnaps(db) {
      assert s in ys <==> s in multiset(ys);
    }
    var mid := PutAccounts(EMPTY_LEDGER, xs);
    forall a ensures a in mid.accounts <==> a in db.accounts
             ensures a in mid.accounts ==> mid.accounts[a] == db.accounts[a]
    {
      PutAccountsAt(EMPTY_LEDGER, xs, a);
      if a in db.accounts {
        assert AccountSnapshot(a, db.accounts[a].limit, db.accounts[a].consumed) in AccountSnaps(db);
      }
    }
    PutAccountsKeys(EMPTY_LEDGER, xs);
    var db' := PutCards(mid, ys);
    forall k ensures k in db'.cards <==> k in db.cards
             ensures k in db'.cards ==> db'.cards[k] == db.cards[k]
    {
      PutCardsAt(mid, ys, k);
      if k in db.cards {
        assert CardSnapshot(k.account, k.card, db.cards[k].limit, db.cards[k].consumed) in CardSnaps(db);
      }
    }
    PutCardsAt(mid, ys, CardKey(0, 0));
    assert db'.accounts == db.accounts && db'.cards == db.cards;
  }
}
