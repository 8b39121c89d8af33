/**
 Limits when databases are restored in between: the bound of `Limits` holds throughout a run
 exactly when every restored row is within its own limit.
 */
module RestoredLimits {
  import opened Wrappers
  import opened Protocol
  import opened Messages
  import opened Network
  import opened Ledgers
  import opened Normal
  import opened Limits
  import opened Stages
  import Handshake
  import Cards
  import Refinement
  import Recovery
  import ExactlyOne
  import Traffic

  // ---- restored rows ----

  /** The row that a restore leaves in place for an account, or for a card: the last one listed. */
  function AccountRow(snaps: seq<AccountSnapshot<real>>, a: u64): Option<Row> {
    if snaps == [] then None
    else
      var last := snaps[|snaps| - 1];
      if last.accountId == a then Some(Row(last.limit, last.consumed)) else AccountRow(snaps[..|snaps| - 1], a)
  }

  function CardRow(snaps: seq<CardSnapshot<real>>, k: CardKey): Option<Row> {
    if snaps == [] then None
    else
      var last := snaps[|snaps| - 1];
      if CardKey(last.accountId, last.cardId) == k then Some(Row(last.limit, last.consumed)) else CardRow(snaps[..|snaps| - 1], k)
  }

  predicate Fits(row: Row) {
    row.limit.Some? ==> row.consumed <= row.limit.value
  }

  /** Every row that the restore leaves in place is within its limit. */
  ghost predicate RowsFit(s: DatabaseSnapshot<real>) {
    && (forall a :: AccountRow(s.accounts, a).Some? ==> Fits(AccountRow(s.accounts, a).value))
    && (forall k :: CardRow(s.cards, k).Some? ==> Fits(CardRow(s.cards, k).value))
  }

  /** Consumptions, like all amounts, are not negative. */
  predicate RowsPayable(s: DatabaseSnapshot<real>) {
    (forall x :: x in s.accounts ==> x.consumed >= 0.0) && (forall x :: x in s.cards ==> x.consumed >= 0.0)
  }

  lemma {:induction false} AccountRowListed(snaps: seq<AccountSnapshot<real>>, a: u64)
    ensures AccountRow(snaps, a).Some? ==>
      var row := AccountRow(snaps, a).value; AccountSnapshot(a, row.limit, row.consumed) in snaps
    ensures (exists s :: s in snaps && s.accountId == a) <==> AccountRow(snaps, a).Some?
    decreases |snaps|
  {
    if snaps != [] {
      AccountRowListed(snaps[..|snaps| - 1], a);
      assert forall s :: s in snaps <==> s in snaps[..|snaps| - 1] || s == snaps[|snaps| - 1];
    }
  }

  lemma {:induction false} CardRowListed(snaps: seq<CardSnapshot<real>>, k: CardKey)
    ensures CardRow(snaps, k).Some? ==>
      var row := CardRow(snaps, k).value; CardSnapshot(k.account, k.card, row.limit, row.consumed) in snaps
    ensures (exists s :: s in snaps && CardKey(s.accountId, s.cardId) == k) <==> CardRow(snaps, k).Some?
    decreases |snaps|
  {
    if snaps != [] {
      CardRowListed(snaps[..|snaps| - 1], k);
      assert forall s :: s in snaps <==> s in snaps[..|snaps| - 1] || s == snaps[|snaps| - 1];
    }
  }

  // ---- the ledger after a restore ----

  lemma {:induction false} PutAccountsRow(db: Ledger, snaps: seq<AccountSnapshot<real>>, a: u64)
    ensures var db', row := PutAccounts(db, snaps), AccountRow(snaps, a);
      && db'.cards == db.cards
      && (a in db'.accounts <==> a in db.accounts || row.Some?)
      && (a in db'.accounts ==> db'.accounts[a] == if row.Some? then row.value else db.accounts[a])
    decreases |snaps|
  {
    if snaps != [] {
      PutAccountsRow(db, snaps[..|snaps| - 1], a);
    }
  }

  lemma {:induction false} PutCardsRow(db: Ledger, snaps: seq<CardSnapshot<real>>, k: CardKey)
    ensures var db', row := PutCards(db, snaps), CardRow(snaps, k);
      && (k in db'.cards <==> k in db.cards || row.Some?)
      && (k in db'.cards ==> db'.cards[k] == if row.Some? then row.value else db.cards[k])
    ensures var db', a := PutCards(db, snaps), k.account;
      && (a in db.accounts ==> a in db'.accounts)
      && (a in db'.accounts ==> db'.accounts[a] == if a in db.accounts then db.accounts[a] else NEW_ROW)
    decreases |snaps|
  {
    if snaps != [] {
      PutCardsRow(db, snaps[..|snaps| - 1], k);
    }
  }

  /** The ledger a restore leaves, row by row. */
  lemma RestoredRows(db: Ledger, s: DatabaseSnapshot<real>, a: u64, k: CardKey)
    ensures var db', row := PutCards(PutAccounts(db, s.accounts), s.cards), AccountRow(s.accounts, a);
      && (row.Some? ==> a in db'.accounts)
      && (a in db'.accounts ==>
        db'.accounts[a] == if row.Some? then row.value else if a in db.accounts then db.accounts[a] else NEW_ROW)
    ensures var db', row := PutCards(PutAccounts(db, s.accounts), s.cards), CardRow(s.cards, k);
      && (k in db'.cards <==> k in db.cards || row.Some?)
      && (k in db'.cards ==> db'.cards[k] == if row.Some? then row.value else db.cards[k])
  {
    PutAccountsRow(db, s.accounts, a);
    PutCardsRow(PutAccounts(db, s.accounts), s.cards, CardKey(a, 0));
    PutCardsRow(PutAccounts(db, s.accounts), s.cards, k);
  }

  // ---- the bound ----

  /** The totals of replayed charges start anew for restored rows. */
  function Forget(h: Replayed, s: DatabaseSnapshot<real>): Replayed {
    Replayed(
      map k | k in h.cards && CardRow(s.cards, k).None? :: h.cards[k],
      map a | a in h.accounts && AccountRow(s.accounts, a).None? :: h.accounts[a])
  }

  /** Every row is within its limit plus the charges replayed since it was last restored. */
  ghost predicate InLimits(db: Ledger, h: Replayed, replays: bool) {
    && (forall k :: k in db.cards && db.cards[k].limit.Some? ==>
      db.cards[k].consumed <= db.cards[k].limit.value + if replays then CardTotal(h, k) else 0.0)
    && (forall a :: a in db.accounts && db.accounts[a].limit.Some? ==>
      db.accounts[a].consumed <= db.accounts[a].limit.value + if replays then AccountTotal(h, a) else 0.0)
  }

  ghost predicate RowsWithin(db: Ledger, h: Replayed, replays: bool) {
    && TotalsOk(h, replays)
    && (forall k :: k in db.cards ==> Within(db.cards[k].limit, db.cards[k].consumed, CardTotal(h, k), replays))
    && (forall a :: a in db.accounts ==> Within(db.accounts[a].limit, db.accounts[a].consumed, AccountTotal(h, a), replays))
  }

  lemma RowsInLimits(db: Ledger, h: Replayed, replays: bool)
    requires RowsWithin(db, h, replays)
    ensures InLimits(db, h, replays)
  {
  }

  lemma Forgotten(h: Replayed, s: DatabaseSnapshot<real>, replays: bool, a: u64, k: CardKey)
    requires TotalsOk(h, replays)
    ensures TotalsOk(Forget(h, s), replays)
    ensures CardTotal(Forget(h, s), k) == if CardRow(s.cards, k).Some? then 0.0 else CardTotal(h, k)
    ensures AccountTotal(Forget(h, s), a) == if AccountRow(s.accounts, a).Some? then 0.0 else AccountTotal(h, a)
    ensures CardTotal(h, k) >= 0.0 && AccountTotal(h, a) >= 0.0
    ensures !replays ==> CardTotal(h, k) == AccountTotal(h, a) == 0.0
  {
  }

  /** A restore keeps every row within its bound exactly when the rows it leaves in place fit. */
  lemma RestoreKeepsBound(db: Ledger, h: Replayed, replays: bool, s: DatabaseSnapshot<real>)
    requires RowsWithin(db, h, replays) && RowsPayable(s)
    ensures var db', h' := PutCards(PutAccounts(db, s.accounts), s.cards), Forget(h, s);
      && (InLimits(db', h', replays) <==> RowsFit(s))
      && (RowsFit(s) ==> RowsWithin(db', h', replays))
  {
    hide PutCards, PutAccounts, Forget, AccountRow, CardRow, CardTotal, AccountTotal, TotalsOk;
    var db', h' := PutCards(PutAccounts(db, s.accounts), s.cards), Forget(h, s);
    Forgotten(h, s, replays, 0, CardKey(0, 0));
    forall k
      ensures k in db'.cards && RowsFit(s) ==> Within(db'.cards[k].limit, db'.cards[k].consumed, CardTotal(h', k), replays)
      ensures CardRow(s.cards, k).Some? && InLimits(db', h', replays) ==> Fits(CardRow(s.cards, k).value)
    {
      RestoredRows(db, s, 0, k);
      Forgotten(h, s, replays, 0, k);
      CardRowListed(s.cards, k);
    }
    forall a
      ensures a in db'.accounts && RowsFit(s) ==> Within(db'.accounts[a].limit, db'.accounts[a].consumed, AccountTotal(h', a), replays)
      ensures AccountRow(s.accounts, a).Some? && InLimits(db', h', replays) ==> Fits(AccountRow(s.accounts, a).value)
    {
      RestoredRows(db, s, a, CardKey(a, 0));
      Forgotten(h, s, replays, a, CardKey(a, 0));
      AccountRowListed(s.accounts, a);
    }
    if RowsFit(s) {
      RowsInLimits(db', h', replays);
    }
  }

  // ---- along a run ----

  /** The totals after one step: routing a restore forgets those of the rows it replaces. */
  function TrackAll(n: Net, l: Label, h: Replayed): Replayed
    requires Wired(n) && Enabled(n, l)
  {
    if RoutesReplace(n, l) then Forget(h, n.mail[0].operation.snapshot) else Track(n, l, h)
  }

  /** A restore is submitted to a ready network, anything else while no restore waits to be routed; no amount is negative. */
  ghost predicate Spaced(n: Net, l: Label, replays: bool) {
    l.Submit? ==>
      && Handshake.NoReplace(n)
      && if l.op.ReplaceDatabase? then Refinement.Ready(n) && RowsPayable(l.op.snapshot) else Admitted(l, replays)
  }

  ghost predicate SpacedRun(n: Net, ls: seq<Label>, replays: bool)
    requires Wired(n) && Schedule(n, ls)
    decreases |ls|
  {
    ls != [] ==> Spaced(n, ls[0], replays) && (NextWired(n, ls[0]); SpacedRun(Next(n, ls[0]), ls[1..], replays))
  }

  /** In every state of the run, what operations find is within the limits. */
  ghost predicate AlwaysWithin(n: Net, ls: seq<Label>, h: Replayed, replays: bool)
    requires Wired(n) && Schedule(n, ls)
    decreases |ls|
  {
    && InLimits(LedgerOf(Norm(n)), h, replays)
    && (ls != [] ==> (NextWired(n, ls[0]); AlwaysWithin(Next(n, ls[0]), ls[1..], TrackAll(n, ls[0], h), replays)))
  }

  /** Every restore routed in the run leaves only rows in place that are within their limits. */
  ghost predicate RestoresFit(n: Net, ls: seq<Label>)
    requires Wired(n) && Schedule(n, ls)
    decreases |ls|
  {
    ls != [] ==>
      && (RoutesReplace(n, ls[0]) ==> RowsFit(n.mail[0].operation.snapshot))
      && (NextWired(n, ls[0]); RestoresFit(Next(n, ls[0]), ls[1..]))
  }

  /** Traffic, or a restore of the ready network `base` that is not routed yet. */
  datatype Mode = Flowing | Restoring(base: Net, id: u32, op: Op)

  ghost predicate Watched(n: Net, h: Replayed, replays: bool, mode: Mode) {
    && Wired(n) && Prefixed(n.r)
    && match mode
       case Flowing => Wired(Norm(n)) && Handshake.Safe(Norm(n)) && Bounded(Norm(n), h, replays)
       case Restoring(base, id, op) =>
         && op.ReplaceDatabase? && RowsPayable(op.snapshot)
         && Refinement.Ready(base) && Refinement.Working(base, id, op, n)
         && RowsWithin(Refinement.Abs(base), h, replays)
  }

  lemma BoundedRows(n: Net, h: Replayed, replays: bool)
    requires Bounded(n, h, replays)
    ensures RowsWithin(LedgerOf(n), h, replays)
  {
    hide MailOk, Within, Headroom, TasksOk;
  }

  lemma IdleBounded(n: Net, h: Replayed, replays: bool)
    requires Idle(n) && RowsWithin(LedgerOf(n), h, replays)
    ensures Bounded(n, h, replays)
  {
    hide Within, LedgerOf, CardWithin, Headroom, MailOk;
    IdleMailOk(n, replays);
    forall k | k in n.cards ensures CardWithin(n.cards[k], CardTotal(h, k), replays) && Headroom(n.cards[k]) {
      LedgerDomain(n, k);
      IdleCardWithin(n.cards[k], CardTotal(h, k), replays);
    }
    forall a | a in n.accounts ensures Within(n.accounts[a].limit, n.accounts[a].consumed, AccountTotal(h, a), replays) {
      LedgerDomain(n, CardKey(a, 0));
    }
  }

  lemma IdleMailOk(n: Net, replays: bool)
    requires Idle(n)
    ensures Wired(n) && MailOk(n, replays)
  {
  }

  lemma IdleCardWithin(c: Cards.Card, replayed: real, replays: bool)
    requires c.current.None? && c.queue == [] && Within(c.limit, c.consumed, replayed, replays)
    ensures CardWithin(c, replayed, replays) && Headroom(c)
  {
  }

  lemma WatchedInLimits(n: Net, h: Replayed, replays: bool, mode: Mode)
    requires Watched(n, h, replays, mode)
    ensures InLimits(LedgerOf(Norm(n)), h, replays)
  {
    hide Bounded, Handshake.Safe, Norm, Prefixed, RowsWithin, InLimits, Idle;
    match mode {
      case Flowing =>
        BoundedRows(Norm(n), h, replays);
      case Restoring(base, id, op) =>
        SameLedger(Norm(base), Norm(n));
    }
    RowsInLimits(LedgerOf(Norm(n)), h, replays);
  }

  // ---- one step ----

  /** A delivery that the normal form sees counts the same replayed charges there. */
  lemma TrackAlike(n: Net, l: Label, h: Replayed)
    requires Wired(n) && Enabled(n, l) && !l.Submit? && !Replaces(n, l) && Wired(Norm(n)) && Enabled(Norm(n), l)
    ensures Track(Norm(n), l, h) == Track(n, l, h)
  {
    hide CardReplay, AccountReplay, StripCards, StripAccounts, SettleCards, SettleAccounts;
    match l {
      case AtCard(k) => NormAt(n, k.account, k);
      case AtAccount(a) => NormAt(n, a, CardKey(a, 0));
      case AtRouter =>
    }
  }

  /** Delivering a ReplaceState counts nothing. */
  lemma TrackNothing(n: Net, l: Label, h: Replayed, replays: bool)
    requires Wired(n) && Enabled(n, l) && Replaces(n, l) && TotalsOk(h, replays)
    ensures TotalsOk(Track(n, l, h), replays)
    ensures forall k :: CardTotal(Track(n, l, h), k) == CardTotal(h, k)
    ensures forall a :: AccountTotal(Track(n, l, h), a) == AccountTotal(h, a)
  {
  }

  lemma SameTotals(db: Ledger, n: Net, h: Replayed, h': Replayed, replays: bool)
    requires TotalsOk(h', replays)
    requires (forall k :: CardTotal(h', k) == CardTotal(h, k)) && forall a :: AccountTotal(h', a) == AccountTotal(h, a)
    ensures Bounded(n, h, replays) ==> Bounded(n, h', replays)
    ensures RowsWithin(db, h, replays) ==> RowsWithin(db, h', replays)
  {
    hide Within, Headroom, TasksOk, MailOk, TotalsOk, CardTotal, AccountTotal;
  }

  lemma DeliverFlowing(n: Net, h: Replayed, replays: bool, l: Label)
    requires Watched(n, h, replays, Flowing) && Enabled(n, l) && !l.Submit?
    ensures !RoutesReplace(n, l) && Watched(Next(n, l), Track(n, l, h), replays, Flowing)
  {
    hide Bounded, Handshake.Safe, Norm, Prefixed, Next, Track;
    NothingWaits(n, l);
    NextWired(n, l);
    Refinement.NormSteps(n, l);
    if Replaces(n, l) {
      BoundedRows(Norm(n), h, replays);
      TrackNothing(n, l, h, replays);
      SameTotals(LedgerOf(Norm(n)), Norm(n), h, Track(n, l, h), replays);
    } else {
      TrackAlike(n, l, h);
      NextBounded(Norm(n), l, h, replays);
      Handshake.NextSafe(Norm(n), l);
      NormWired(Next(n, l));
    }
  }

  lemma NothingWaits(n: Net, l: Label)
    requires Wired(n) && Wired(Norm(n)) && Handshake.Safe(Norm(n)) && Enabled(n, l)
    ensures !RoutesReplace(n, l)
  {
    Refinement.NormMail(n);
    hide Norm;
  }

  lemma SubmitFlowing(n: Net, h: Replayed, replays: bool, l: Label)
    requires Watched(n, h, replays, Flowing) && l.Submit? && !l.op.ReplaceDatabase? && Admitted(l, replays)
    ensures Watched(Next(n, l), Track(n, l, h), replays, Flowing)
  {
    hide Bounded, Handshake.Safe, Norm, Prefixed, Next;
    ExactlyOne.NormSubmit(n, l);
    NextBounded(Norm(n), l, h, replays);
    Handshake.NextSafe(Norm(n), l);
    NormWired(Next(n, l));
  }

  lemma SubmitRestoring(n: Net, h: Replayed, replays: bool, l: Label)
    requires Watched(n, h, replays, Flowing) && l.Submit? && l.op.ReplaceDatabase? && Spaced(n, l, replays)
    ensures Watched(Next(n, l), Track(n, l, h), replays, Restoring(n, l.opId, l.op))
  {
    hide Bounded, Handshake.Safe, Norm, Prefixed, Next, Idle, RowsWithin;
    BoundedRows(Norm(n), h, replays);
    Refinement.SubmitWorks(n, l.opId, l.op);
  }

  /** While a restore waits to be routed only older ReplaceState messages can be delivered. */
  lemma DeliverRestoring(n: Net, h: Replayed, replays: bool, base: Net, id: u32, op: Op, l: Label)
    requires Watched(n, h, replays, Restoring(base, id, op)) && Enabled(n, l) && !l.Submit? && !RoutesReplace(n, l)
    ensures Watched(Next(n, l), Track(n, l, h), replays, Restoring(base, id, op))
  {
    hide Norm, Prefixed, Next, Idle, RowsWithin, Track;
    NextWired(n, l);
    Refinement.NormSteps(n, l);
    FromRouter(Norm(base), Execute(id, op));
    Refinement.NormMail(n);
    RestoringReplaces(n, base, id, op, l);
    RowsTotals(Refinement.Abs(base), h, replays);
    TrackNothing(n, l, h, replays);
    SameTotals(Refinement.Abs(base), base, h, Track(n, l, h), replays);
  }

  lemma RowsTotals(db: Ledger, h: Replayed, replays: bool)
    requires RowsWithin(db, h, replays)
    ensures TotalsOk(h, replays)
  {
  }

  lemma RestoringReplaces(n: Net, base: Net, id: u32, op: Op, l: Label)
    requires Refinement.Ready(base) && op.ReplaceDatabase? && Refinement.Working(base, id, op, n)
    requires Wired(n) && Enabled(n, l) && !l.Submit? && !RoutesReplace(n, l)
    ensures Replaces(n, l)
  {
    hide Norm, Prefixed, Next, Idle;
    FromRouter(Norm(base), Execute(id, op));
    Refinement.NormMail(n);
    if !Replaces(n, l) {
      Refinement.NormSteps(n, l);
    }
  }

  /** Routing the restore keeps the bound exactly when its rows fit. */
  lemma RouteRestoring(n: Net, h: Replayed, replays: bool, base: Net, id: u32, op: Op, l: Label)
    requires Watched(n, h, replays, Restoring(base, id, op)) && Enabled(n, l) && RoutesReplace(n, l)
    ensures n.mail[0].operation == op && Wired(Next(n, l))
    ensures InLimits(LedgerOf(Norm(Next(n, l))), Forget(h, op.snapshot), replays) <==> RowsFit(op.snapshot)
    ensures RowsFit(op.snapshot) ==> Watched(Next(n, l), Forget(h, op.snapshot), replays, Flowing)
  {
    hide Norm, Prefixed, Next, Idle, RowsWithin, InLimits, RowsFit, RowsPayable, Forget, PutAccounts, PutCards, LedgerOf, Bounded, Handshake.Safe;
    Refinement.NormMail(n);
    NextWired(n, l);
    Refinement.RoutesReplaceExecutes(base, id, op, n);
    var n' := Next(n, l);
    RestoreKeepsBound(Refinement.Abs(base), h, replays, op.snapshot);
    if RowsFit(op.snapshot) {
      Settles(n', Forget(h, op.snapshot), replays);
    }
  }

  lemma Settles(n: Net, h: Replayed, replays: bool)
    requires Refinement.Ready(n) && RowsWithin(Refinement.Abs(n), h, replays)
    ensures Watched(n, h, replays, Flowing)
  {
    hide Norm, Prefixed, Idle, RowsWithin, Bounded, Handshake.Safe;
    NormWired(n);
    IdleBounded(Norm(n), h, replays);
    Traffic.IdleIsSafe(Norm(n));
  }

  lemma StepWatched(n: Net, h: Replayed, replays: bool, mode: Mode, l: Label) returns (mode': Mode)
    requires Watched(n, h, replays, mode) && Enabled(n, l) && Spaced(n, l, replays)
    ensures Wired(Next(n, l))
    ensures (RoutesReplace(n, l) ==> RowsFit(n.mail[0].operation.snapshot)) <==>
      InLimits(LedgerOf(Norm(Next(n, l))), TrackAll(n, l, h), replays)
    ensures (RoutesReplace(n, l) ==> RowsFit(n.mail[0].operation.snapshot)) ==> Watched(Next(n, l), TrackAll(n, l, h), replays, mode')
  {
    hide Watched, Next, Track, Forget, InLimits, RowsFit, Norm, LedgerOf, Handshake.NoReplace, Admitted;
    StillWired(n, h, replays, mode, l);
    mode' := Flowing;
    match mode {
      case Flowing =>
        if !l.Submit? {
          DeliverFlowing(n, h, replays, l);
        } else if l.op.ReplaceDatabase? {
          SubmitRestoring(n, h, replays, l);
          mode' := Restoring(n, l.opId, l.op);
        } else {
          SubmitFlowing(n, h, replays, l);
        }
      case Restoring(base, id, op) =>
        RestoreWaits(n, h, replays, base, id, op, l);
        if RoutesReplace(n, l) {
          RouteRestoring(n, h, replays, base, id, op, l);
        } else {
          DeliverRestoring(n, h, replays, base, id, op, l);
          mode' := mode;
        }
    }
    if !RoutesReplace(n, l) {
      WatchedInLimits(Next(n, l), TrackAll(n, l, h), replays, mode');
    }
  }

  lemma StillWired(n: Net, h: Replayed, replays: bool, mode: Mode, l: Label)
    requires Watched(n, h, replays, mode) && Enabled(n, l)
    ensures Wired(n) && Wired(Next(n, l))
  {
    NextWired(n, l);
  }

  /** Nothing is submitted while a restore waits. */
  lemma RestoreWaits(n: Net, h: Replayed, replays: bool, base: Net, id: u32, op: Op, l: Label)
    requires Watched(n, h, replays, Restoring(base, id, op)) && Spaced(n, l, replays)
    ensures !l.Submit?
  {
    hide Norm, Prefixed, Idle, RowsWithin;
    Refinement.NormMail(n);
    assert Execute(id, op) in n.mail;
  }

  /** What operations find at an actor with no ReplaceState at the head of its mailbox is its own state. */
  lemma FoundInPlace(n: Net, k: CardKey)
    requires Wired(n) && k in n.cards
    ensures k in n.r.cards && k.account in n.accounts && k.account in n.r.accounts
    ensures n.r.cards[k] == [] || !n.r.cards[k][0].CardReplaceState? ==>
      k in LedgerOf(Norm(n)).cards && LedgerOf(Norm(n)).cards[k] == Row(n.cards[k].limit, n.cards[k].consumed)
    ensures n.r.accounts[k.account] == [] || !n.r.accounts[k.account][0].AccountReplaceState? ==>
      && k.account in LedgerOf(Norm(n)).accounts
      && LedgerOf(Norm(n)).accounts[k.account] == Row(n.accounts[k.account].limit, n.accounts[k.account].consumed)
  {
  }

  // ---- the result ----

  lemma {:induction false} WatchedRun(n: Net, ls: seq<Label>, h: Replayed, replays: bool, mode: Mode)
    requires Wired(n) && Schedule(n, ls) && SpacedRun(n, ls, replays) && Watched(n, h, replays, mode)
    ensures AlwaysWithin(n, ls, h, replays) <==> RestoresFit(n, ls)
    decreases |ls|
  {
    hide Watched, Spaced, TrackAll, InLimits, RowsFit, Norm, LedgerOf, Next;
    WatchedInLimits(n, h, replays, mode);
    if ls != [] {
      NextWired(n, ls[0]);
      var mode' := StepWatched(n, h, replays, mode, ls[0]);
      if RoutesReplace(n, ls[0]) ==> RowsFit(n.mail[0].operation.snapshot) {
        WatchedRun(Next(n, ls[0]), ls[1..], TrackAll(n, ls[0], h), replays, mode');
      }
    }
  }

  /**
   From an empty database, over every run with non-negative amounts in which restores are
   submitted when the network is ready and routed before anything else is submitted: what
   operations find is always within the limits, up to the charges replayed since a row was last
   restored, if and only if every restore leaves only rows in place that are within their limits.
   */
  lemma LimitsHoldIffRestoresFit(ls: seq<Label>, replays: bool)
    requires Wired(EMPTY_NET) && Schedule(EMPTY_NET, ls) && SpacedRun(EMPTY_NET, ls, replays)
    ensures AlwaysWithin(EMPTY_NET, ls, NOTHING_REPLAYED, replays) <==> RestoresFit(EMPTY_NET, ls)
  {
    hide SpacedRun, AlwaysWithin, RestoresFit, Schedule, RowsWithin, Watched, Refinement.Ready, Refinement.Abs;
    Recovery.EmptyIsReady();
    EmptyWithin(replays);
    Settles(EMPTY_NET, NOTHING_REPLAYED, replays);
    WatchedRun(EMPTY_NET, ls, NOTHING_REPLAYED, replays, Flowing);
  }

  lemma EmptyWithin(replays: bool)
    ensures RowsWithin(EMPTY_LEDGER, NOTHING_REPLAYED, replays)
  {
  }

  function OverLimit(addr: SocketAddr, k: CardKey): DatabaseSnapshot<real> {
    DatabaseSnapshot(addr, [], [CardSnapshot(k.account, k.card, Some(50.0), 100.0)])
  }

  lemma OverLimitListed(addr: SocketAddr, k: CardKey)
    ensures CardRow(OverLimit(addr, k).cards, k) == Some(Row(Some(50.0), 100.0)) && !RowsFit(OverLimit(addr, k))
  {
  }

  /** A row beyond its own limit is put in place as it is: restoring a card with limit 50 and consumption 100. */
  lemma OverLimitRow(n: Net, opId: u32, k: CardKey, addr: SocketAddr, n': Net)
    requires Refinement.Ready(n)
    requires Refinement.Executed(n, opId, ReplaceDatabase(OverLimit(addr, k)), n')
    ensures k in Refinement.Abs(n').cards && Refinement.Abs(n').cards[k] == Row(Some(50.0), 100.0)
    ensures forall replays, h :: !InLimits(Refinement.Abs(n'), Forget(h, OverLimit(addr, k)), replays)
  {
    hide Refinement.Ready, Refinement.Abs, PutAccounts, PutCards;
    RestoredRows(Refinement.Abs(n), OverLimit(addr, k), k.account, k);
    OverLimitListed(addr, k);
  }

  lemma RunStarts(n: Net, l: Label, ls: seq<Label>, replays: bool)
    requires Wired(n) && Enabled(n, l) && Wired(Next(n, l)) && Schedule(Next(n, l), ls)
    ensures Schedule(n, [l] + ls)
    ensures SpacedRun(n, [l] + ls, replays) <==> Spaced(n, l, replays) && SpacedRun(Next(n, l), ls, replays)
    ensures RestoresFit(n, [l] + ls) <==>
      (RoutesReplace(n, l) ==> RowsFit(n.mail[0].operation.snapshot)) && RestoresFit(Next(n, l), ls)
  {
    hide Next, Enabled, RowsFit, Wired, RoutesReplace, Spaced;
    assert ([l] + ls)[1..] == ls;
  }

  lemma TwoSteps(n: Net, a: Label, b: Label, replays: bool)
    requires Wired(n) && Enabled(n, a) && Spaced(n, a, replays) && !b.Submit?
    requires Wired(Next(n, a)) && Enabled(Next(n, a), b) && RoutesReplace(Next(n, a), b)
    ensures Schedule(n, [a, b]) && SpacedRun(n, [a, b], replays)
    ensures RestoresFit(n, [a, b]) ==> RowsFit(Next(n, a).mail[0].operation.snapshot)
  {
    hide Next, Enabled, RowsFit, Wired, RoutesReplace;
    var n' := Next(n, a);
    NextWired(n', b);
    RunStarts(n', b, [], replays);
    assert [b] + [] == [b] && [a] + [b] == [a, b];
    hide Spaced;
    RunStarts(n, a, [b], replays);
  }

  lemma FirstRestore(s: DatabaseSnapshot<real>, replays: bool)
    requires RowsPayable(s)
    ensures var l := Submit(0, ReplaceDatabase(s));
      && Wired(EMPTY_NET) && Enabled(EMPTY_NET, l) && Spaced(EMPTY_NET, l, replays) && Wired(Next(EMPTY_NET, l))
      && Next(EMPTY_NET, l).mail == [Execute(0, ReplaceDatabase(s))]
  {
    hide Refinement.Ready;
    Recovery.EmptyIsReady();
    NextWired(EMPTY_NET, Submit(0, ReplaceDatabase(s)));
  }

  /** And a run that ends with it: the restore of an empty database, which nothing refuses. */
  lemma OverLimitRun(addr: SocketAddr, k: CardKey, replays: bool)
    ensures var ls := [Submit(0, ReplaceDatabase(OverLimit(addr, k))), AtRouter];
      && Wired(EMPTY_NET) && Schedule(EMPTY_NET, ls) && SpacedRun(EMPTY_NET, ls, replays)
      && !RestoresFit(EMPTY_NET, ls) && !AlwaysWithin(EMPTY_NET, ls, NOTHING_REPLAYED, replays)
  {
    hide AlwaysWithin, RowsFit, RestoresFit, SpacedRun, Schedule, Wired, Next, Spaced;
    var s := OverLimit(addr, k);
    var l := Submit(0, ReplaceDatabase(s));
    OverLimitListed(addr, k);
    FirstRestore(s, replays);
    TwoSteps(EMPTY_NET, l, AtRouter, replays);
    LimitsHoldIffRestoresFit([l, AtRouter], replays);
  }
}
