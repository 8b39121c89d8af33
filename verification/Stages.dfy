/**
 The stages a charge or a limit change goes through when it runs alone: one message is
 under way at any time, so every schedule takes the same path.
 */
module Stages {
  import opened Wrappers
  import opened Protocol
  import opened Messages
  import opened Network
  import opened Ledgers
  import Cards
  import Accounts

  /** Nothing is under way and no actor is in the middle of anything. */
  ghost predicate Idle(n: Net) {
    && Wired(n)
    && n.mail == []
    && n.r.snapshots == map[]
    && (forall a :: a in n.accounts ==> n.r.accounts[a] == [] && n.accounts[a].pending.None?)
    && (forall k :: k in n.cards ==> n.r.cards[k] == [] && n.cards[k].current.None? && n.cards[k].queue == [])
  }

  function LedgerOf(n: Net): Ledger {
    Ledger(
      map a | a in n.accounts :: Row(n.accounts[a].limit, n.accounts[a].consumed),
      map k | k in n.cards :: Row(n.cards[k].limit, n.cards[k].consumed))
  }

  /** The event answers `op` as the ledger does. */
  ghost predicate Matches(e: ActorEvent, opId: u32, op: Op, answer: Answer) {
    && e.OperationResultEvent?
    && e.opId == opId && e.operation == op
    && match answer
       case Decided(outcome) =>
         && (op.Charge? ==> e.result == ChargeResult(outcome))
         && (op.LimitAccount? ==> e.result == LimitAccountResult(outcome))
         && (op.LimitCard? ==> e.result == LimitCardResult(outcome))
         && (op.Charge? || op.LimitAccount? || op.LimitCard?)
         && e.success == outcome.Ok? && e.error == if outcome.Ok? then None else Some(outcome.error)
       case Spent(total, perCard) =>
         && e.result.AccountQueryResult? && (op.AccountQuery? || op.Bill?) && e.result.accountId == op.accountId
         && e.result.totalSpent == total && multiset(e.result.perCardSpent) == perCard && e.success && e.error.None?
       case Dump(addr, accounts, cards) =>
         && e.result.DatabaseSnapshotResult? && e.result.snapshot.addr == addr
         && multiset(e.result.snapshot.accounts) == accounts && multiset(e.result.snapshot.cards) == cards
         && e.success && e.error.None?
       case Replaced => e.result == ReplaceDatabaseResult && e.success && e.error.None?
  }

  /** `op` was executed: `n` is idle again, in the ledger's next state, with one more event. */
  ghost predicate Finished(n0: Net, opId: u32, op: Op, n: Net)
    requires Idle(n0)
  {
    && Idle(n)
    && LedgerOf(n) == Apply(LedgerOf(n0), op).0
    && |n.r.events| == |n0.r.events| + 1
    && n.r.events[..|n0.r.events|] == n0.r.events
    && Matches(n.r.events[|n0.r.events|], opId, op, Apply(LedgerOf(n0), op).1)
  }

  // ---- states with one message under way ----

  function InCard(b: Net, k: CardKey, c: Cards.Card, m: CardMsg): Net {
    b.(r := b.r.(cards := b.r.cards[k := [m]]), cards := b.cards[k := c])
  }

  function InAccount(b: Net, a: u64, m: AccountMsg): Net {
    b.(r := b.r.(accounts := b.r.accounts[a := [m]]))
  }

  function WithCardState(b: Net, k: CardKey, c: Cards.Card): Net {
    b.(cards := b.cards[k := c])
  }

  function WithAccountState(b: Net, a: u64, acct: Accounts.Account): Net {
    b.(accounts := b.accounts[a := acct])
  }

  function InRouter(b: Net, m: RouterMsg): Net {
    b.(mail := [m])
  }

  /** `l` is the only delivery possible. */
  ghost predicate Only(n: Net, l: Label) {
    Enabled(n, l) && forall l' :: Enabled(n, l') && !l'.Submit? ==> l' == l
  }

  // ---- the actors routing creates ----

  function AddAccount(n: Net, a: u64): Net {
    if a in n.accounts then n
    else n.(r := n.r.(accounts := n.r.accounts[a := []]), accounts := n.accounts[a := Accounts.NEW_ACCOUNT])
  }

  function AddCard(n: Net, k: CardKey): Net {
    if k in n.cards then n
    else
      var n := AddAccount(n, k.account);
      n.(r := n.r.(cards := n.r.cards[k := []]), cards := n.cards[k := Cards.NEW_CARD])
  }

  function Recorded(n: Net, opId: u32, op: Op): Net {
    n.(r := n.r.(operations := n.r.operations[opId := op]))
  }

  lemma LedgerAt(n: Net, a: u64, acct: Accounts.Account, k: CardKey, c: Cards.Card)
    ensures LedgerOf(n.(accounts := n.accounts[a := acct])) ==
      LedgerOf(n).(accounts := LedgerOf(n).accounts[a := Row(acct.limit, acct.consumed)])
    ensures LedgerOf(n.(cards := n.cards[k := c])) ==
      LedgerOf(n).(cards := LedgerOf(n).cards[k := Row(c.limit, c.consumed)])
  {
    assert LedgerOf(n.(accounts := n.accounts[a := acct])).accounts == LedgerOf(n).accounts[a := Row(acct.limit, acct.consumed)];
    assert LedgerOf(n.(cards := n.cards[k := c])).cards == LedgerOf(n).cards[k := Row(c.limit, c.consumed)];
  }

  lemma AddAccountIdle(n: Net, a: u64)
    requires Idle(n)
    ensures Idle(AddAccount(n, a)) && a in AddAccount(n, a).accounts
    ensures LedgerOf(AddAccount(n, a)) == WithAccount(LedgerOf(n), a)
  {
    LedgerAt(n, a, Accounts.NEW_ACCOUNT, CardKey(0, 0), Cards.NEW_CARD);
    assert LedgerOf(AddAccount(n, a)) == LedgerOf(n.(accounts := AddAccount(n, a).accounts));
  }

  lemma AddCardIdle(n: Net, k: CardKey)
    requires Idle(n)
    ensures Idle(AddCard(n, k)) && k in AddCard(n, k).cards
    ensures LedgerOf(AddCard(n, k)) == WithCard(LedgerOf(n), k)
  {
    hide AddAccount, LedgerOf;
    AddAccountIdle(n, k.account);
    LedgerDomain(n, k);
    if k !in n.cards {
      var n1 := AddAccount(n, k.account);
      LedgerAt(n1, 0, Accounts.NEW_ACCOUNT, k, Cards.NEW_CARD);
      SameLedger(n1.(cards := n1.cards[k := Cards.NEW_CARD]), AddCard(n, k));
    }
  }

  lemma LedgerDomain(n: Net, k: CardKey)
    ensures k in LedgerOf(n).cards <==> k in n.cards
    ensures k.account in LedgerOf(n).accounts <==> k.account in n.accounts
    ensures k in n.cards ==> LedgerOf(n).cards[k] == Row(n.cards[k].limit, n.cards[k].consumed)
    ensures k.account in n.accounts ==>
      LedgerOf(n).accounts[k.account] == Row(n.accounts[k.account].limit, n.accounts[k.account].consumed)
  {
  }

  lemma SameLedger(n: Net, n': Net)
    requires n.accounts == n'.accounts && n.cards == n'.cards
    ensures LedgerOf(n) == LedgerOf(n')
  {
  }

  lemma IdleRooted(n: Net)
    requires Idle(n)
    ensures Rooted(LedgerOf(n))
  {
  }

  // ---- one step from each ----

  lemma FromRouter(b: Net, m: RouterMsg)
    requires Idle(b)
    ensures Wired(InRouter(b, m)) && Only(InRouter(b, m), AtRouter)
  {
  }

  lemma FromCard(b: Net, k: CardKey, c: Cards.Card, m: CardMsg)
    requires Idle(b) && k in b.cards
    ensures var n := InCard(b, k, c, m);
      && Wired(n) && Only(n, AtCard(k))
      && var e := Cards.Handle(k, c, m);
         Next(n, AtCard(k)) == b.(
           r := b.r.(accounts := b.r.accounts[k.account := e.toAccount]),
           mail := e.toRouter,
           cards := b.cards[k := e.card])
  {
    hide Cards.Handle;
    var n := InCard(b, k, c, m);
    assert n.r.cards[k] == [m] && [m][1..] == [] && n.r.accounts[k.account] == [];
    assert n.cards[k := Cards.Handle(k, c, m).card] == b.cards[k := Cards.Handle(k, c, m).card];
    assert b.r.cards[k := [m]][k := []] == b.r.cards;
    assert forall x: seq<AccountMsg> :: [] + x == x;
    assert forall x: seq<RouterMsg> :: [] + x == x;
  }

  lemma FromAccount(b: Net, k: CardKey, c: Cards.Card, m: AccountMsg)
    requires Idle(b) && k in b.cards && (m.ApplyChargeFromCard? ==> m.cardId == k.card)
    ensures var n := InAccount(WithCardState(b, k, c), k.account, m);
      && Wired(n) && Only(n, AtAccount(k.account))
      && var e := Accounts.Handle(k.account, b.accounts[k.account], m);
         m.ApplyChargeFromCard? ==>
         Next(n, AtAccount(k.account)) == b.(
           r := b.r.(cards := b.r.cards[k := e.toCard]),
           mail := e.toRouter,
           accounts := b.accounts[k.account := e.account],
           cards := b.cards[k := c])
  {
    hide Accounts.Handle;
    assert b.r.accounts[k.account := [m]][k.account := []] == b.r.accounts;
    assert forall x: seq<CardMsg> :: [] + x == x;
    assert forall x: seq<RouterMsg> :: [] + x == x;
  }
}
