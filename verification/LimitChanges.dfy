/** A limit change that runs alone does what the ledger says. */
module LimitChanges {
  import opened Wrappers
  import opened Protocol
  import opened Messages
  import opened Network
  import opened Ledgers
  import opened Stages
  import opened Updates
  import Cards
  import Accounts
  import Routers

  function Refusal(newLimit: Option<real>, consumed: real): Option<VerifyError> {
    if CanSetLimit(newLimit, consumed) then None else Some(LimitUpdate(BelowCurrentUsage))
  }

  // ---- of a card ----

  /** The network once the card has decided, and its verdict. */
  function CardLimited(b: Net, op: Op): Net
    requires op.LimitCard? && KeyOf(op) in b.cards
  {
    var c := b.cards[KeyOf(op)];
    if CanSetLimit(op.newLimit, c.consumed) then WithCardState(b, KeyOf(op), c.(limit := op.newLimit)) else b
  }

  ghost predicate LimitingCard(n0: Net, opId: u32, op: Op, n: Net)
    requires Idle(n0) && op.LimitCard?
  {
    var k, b := KeyOf(op), Base(n0, opId, op);
    var error := Refusal(op.newLimit, b.cards[k].consumed);
    || n == InRouter(n0, Execute(opId, op))
    || n == InCard(b, k, b.cards[k], ExecuteLimitChange(opId, op.newLimit))
    || n == InRouter(CardLimited(b, op), OperationCompleted(opId, error.None?, error))
  }

  lemma LimitArrives(k: CardKey, c: Cards.Card, opId: u32, newLimit: Option<real>)
    requires c.current.None? && c.queue == []
    ensures var error := Refusal(newLimit, c.consumed);
      Cards.Handle(k, c, ExecuteLimitChange(opId, newLimit)) ==
      Cards.Effect(if error.None? then c.(limit := newLimit) else c, [], [OperationCompleted(opId, error.None?, error)])
  {
    var busy := c.(current := Some(Cards.LimitTask(opId, newLimit)));
    var error := Refusal(newLimit, c.consumed);
    var busy' := if error.None? then busy.(limit := newLimit) else busy;
    assert Cards.FinishTask(k, busy', opId, error.None?, error) ==
           Cards.Effect(busy'.(current := None), [], [OperationCompleted(opId, error.None?, error)]);
  }

  lemma AtCardLimit(n0: Net, opId: u32, op: Op)
    requires Idle(n0) && op.LimitCard?
    ensures var k, b := KeyOf(op), Base(n0, opId, op);
      var n := InCard(b, k, b.cards[k], ExecuteLimitChange(opId, op.newLimit));
      && Wired(n) && Only(n, AtCard(k)) && LimitingCard(n0, opId, op, Next(n, AtCard(k)))
  {
    hide Base, Cards.Handle, Wired, Only, Next;
    var k, b := KeyOf(op), Base(n0, opId, op);
    LimitArrives(k, b.cards[k], opId, op.newLimit);
    FromCard(b, k, b.cards[k], ExecuteLimitChange(opId, op.newLimit));
    Unchanged(b, k);
  }

  lemma CardLimitedLedger(b: Net, op: Op)
    requires op.LimitCard? && Idle(b) && KeyOf(op) in b.cards
    ensures Idle(CardLimited(b, op)) && KeyOf(op) in LedgerOf(b).cards
    ensures var error := Refusal(op.newLimit, b.cards[KeyOf(op)].consumed);
      SetCardLimit(LedgerOf(b), KeyOf(op), op.newLimit) ==
        (LedgerOf(CardLimited(b, op)), if error.None? then Outcome.Ok else Failed(error.value))
  {
    hide LedgerOf;
    LedgerDomain(b, KeyOf(op));
    LedgerAt(b, 0, Accounts.NEW_ACCOUNT, KeyOf(op), b.cards[KeyOf(op)].(limit := op.newLimit));
  }

  lemma CardLimitDecided(n0: Net, opId: u32, op: Op)
    requires Idle(n0) && op.LimitCard?
    ensures var b := Base(n0, opId, op);
      var error := Refusal(op.newLimit, b.cards[KeyOf(op)].consumed);
      var n := InRouter(CardLimited(b, op), OperationCompleted(opId, error.None?, error));
      Wired(n) && Only(n, AtRouter) && Rooted(LedgerOf(n0)) && Finished(n0, opId, op, Next(n, AtRouter))
  {
    hide Base, Wired, Only, Next, Finished, Reported, SetCardLimit;
    var b := Base(n0, opId, op);
    var error := Refusal(op.newLimit, b.cards[KeyOf(op)].consumed);
    BaseFacts(n0, opId, op);
    IdleRooted(n0);
    CardLimitedLedger(b, op);
    Completes(CardLimited(b, op), opId, op, error);
    hide LedgerOf, Idle;
    Finishes(n0, opId, op, CardLimited(b, op), error);
  }

  lemma CardLimitRuns(n0: Net, opId: u32, op: Op, n: Net) returns (l: Label)
    requires Idle(n0) && op.LimitCard? && LimitingCard(n0, opId, op, n)
    ensures Wired(n) && Only(n, l) && !l.Submit? && Rooted(LedgerOf(n0))
    ensures LimitingCard(n0, opId, op, Next(n, l)) || Finished(n0, opId, op, Next(n, l))
  {
    hide Base, Wired, Only, Next, Finished, CardLimited, Refusal;
    var k, b := KeyOf(op), Base(n0, opId, op);
    IdleRooted(n0);
    if n == InRouter(n0, Execute(opId, op)) {
      l := AtRouter;
      FromRouter(n0, Execute(opId, op));
      RoutesCharge(n0, opId, op);
    } else if n == InCard(b, k, b.cards[k], ExecuteLimitChange(opId, op.newLimit)) {
      l := AtCard(k);
      AtCardLimit(n0, opId, op);
    } else {
      l := AtRouter;
      CardLimitDecided(n0, opId, op);
    }
  }

  // ---- of an account ----

  ghost function AccountBase(n0: Net, opId: u32, op: Op): (b: Net)
    requires Idle(n0) && op.LimitAccount?
    ensures Idle(b) && op.accountId in b.accounts
  {
    AddAccountIdle(Recorded(n0, opId, op), op.accountId);
    AddAccount(Recorded(n0, opId, op), op.accountId)
  }

  function AccountLimited(b: Net, op: Op): Net
    requires op.LimitAccount? && op.accountId in b.accounts
  {
    var a := b.accounts[op.accountId];
    if CanSetLimit(op.newLimit, a.consumed) then WithAccountState(b, op.accountId, a.(limit := op.newLimit)) else b
  }

  ghost predicate LimitingAccount(n0: Net, opId: u32, op: Op, n: Net)
    requires Idle(n0) && op.LimitAccount?
  {
    var b := AccountBase(n0, opId, op);
    var error := Refusal(op.newLimit, b.accounts[op.accountId].consumed);
    || n == InRouter(n0, Execute(opId, op))
    || n == InAccount(b, op.accountId, ApplyAccountLimit(opId, op.newLimit))
    || n == InRouter(AccountLimited(b, op), OperationCompleted(opId, error.None?, error))
  }

  lemma ToAccountBase(n0: Net, a: u64, m: AccountMsg)
    requires Idle(n0)
    ensures var b := AddAccount(n0, a);
      && a in b.accounts && b.r.accounts.Keys == b.accounts.Keys
      && Routers.ToAccount(n0.r, a, m) == b.r.(accounts := b.r.accounts[a := [m]])
      && Extend(b.r.accounts.Keys, n0.accounts, Accounts.NEW_ACCOUNT) == b.accounts
      && Extend(b.r.cards.Keys, n0.cards, Cards.NEW_CARD) == b.cards
  {
    assert [] + [m] == [m];
  }

  lemma RoutesAccountLimit(n0: Net, opId: u32, op: Op)
    requires Idle(n0) && op.LimitAccount?
    ensures Wired(InRouter(n0, Execute(opId, op)))
    ensures Next(InRouter(n0, Execute(opId, op)), AtRouter) ==
      InAccount(AccountBase(n0, opId, op), op.accountId, ApplyAccountLimit(opId, op.newLimit))
  {
    var n1, b, m := Recorded(n0, opId, op), AccountBase(n0, opId, op), ApplyAccountLimit(opId, op.newLimit);
    ToAccountBase(n1, op.accountId, m);
    hide Routers.ToAccount;
    assert b.r.accounts[op.accountId := [m]].Keys == b.r.accounts.Keys;
  }

  lemma AtAccountLimit(n0: Net, opId: u32, op: Op)
    requires Idle(n0) && op.LimitAccount?
    ensures var b := AccountBase(n0, opId, op);
      var n := InAccount(b, op.accountId, ApplyAccountLimit(opId, op.newLimit));
      && Wired(n) && Only(n, AtAccount(op.accountId)) && LimitingAccount(n0, opId, op, Next(n, AtAccount(op.accountId)))
  {
    hide AccountBase;
    var b, a := AccountBase(n0, opId, op), op.accountId;
    var n := InAccount(b, a, ApplyAccountLimit(opId, op.newLimit));
    assert b.r.accounts[a := [ApplyAccountLimit(opId, op.newLimit)]][a := []] == b.r.accounts;
    var n' := Next(n, AtAccount(a));
    assert n'.r.cards == b.r.cards;
    assert b.accounts[a := b.accounts[a]] == b.accounts;
  }

  lemma AccountLimitedLedger(b: Net, op: Op)
    requires op.LimitAccount? && Idle(b) && op.accountId in b.accounts
    ensures Idle(AccountLimited(b, op)) && op.accountId in LedgerOf(b).accounts
    ensures var error := Refusal(op.newLimit, b.accounts[op.accountId].consumed);
      SetAccountLimit(LedgerOf(b), op.accountId, op.newLimit) ==
        (LedgerOf(AccountLimited(b, op)), if error.None? then Outcome.Ok else Failed(error.value))
  {
    hide LedgerOf;
    LedgerDomain(b, CardKey(op.accountId, 0));
    LedgerAt(b, op.accountId, b.accounts[op.accountId].(limit := op.newLimit), CardKey(0, 0), Cards.NEW_CARD);
  }

  lemma AccountBaseFacts(n0: Net, opId: u32, op: Op)
    requires Idle(n0) && op.LimitAccount?
    ensures var b := AccountBase(n0, opId, op);
      && opId in b.r.operations && b.r.operations[opId] == op && b.r.events == n0.r.events
      && LedgerOf(b) == WithAccount(LedgerOf(n0), op.accountId)
  {
    AddAccountIdle(Recorded(n0, opId, op), op.accountId);
    SameLedger(n0, Recorded(n0, opId, op));
  }

  lemma AccountLimitDecided(n0: Net, opId: u32, op: Op)
    requires Idle(n0) && op.LimitAccount?
    ensures var b := AccountBase(n0, opId, op);
      var error := Refusal(op.newLimit, b.accounts[op.accountId].consumed);
      var n := InRouter(AccountLimited(b, op), OperationCompleted(opId, error.None?, error));
      Wired(n) && Only(n, AtRouter) && Rooted(LedgerOf(n0)) && Finished(n0, opId, op, Next(n, AtRouter))
  {
    hide AccountBase, Wired, Only, Next, Finished, Reported, SetAccountLimit;
    var b := AccountBase(n0, opId, op);
    var error := Refusal(op.newLimit, b.accounts[op.accountId].consumed);
    AccountBaseFacts(n0, opId, op);
    IdleRooted(n0);
    AccountLimitedLedger(b, op);
    Completes(AccountLimited(b, op), opId, op, error);
    hide LedgerOf, Idle;
    Finishes(n0, opId, op, AccountLimited(b, op), error);
  }

  lemma AccountLimitRuns(n0: Net, opId: u32, op: Op, n: Net) returns (l: Label)
    requires Idle(n0) && op.LimitAccount? && LimitingAccount(n0, opId, op, n)
    ensures Wired(n) && Only(n, l) && !l.Submit? && Rooted(LedgerOf(n0))
    ensures LimitingAccount(n0, opId, op, Next(n, l)) || Finished(n0, opId, op, Next(n, l))
  {
    hide AccountBase, Wired, Only, Next, Finished, AccountLimited, Refusal;
    IdleRooted(n0);
    if n == InRouter(n0, Execute(opId, op)) {
      l := AtRouter;
      FromRouter(n0, Execute(opId, op));
      RoutesAccountLimit(n0, opId, op);
    } else if n == InAccount(AccountBase(n0, opId, op), op.accountId, ApplyAccountLimit(opId, op.newLimit)) {
      l := AtAccount(op.accountId);
      AtAccountLimit(n0, opId, op);
    } else {
      l := AtRouter;
      AccountLimitDecided(n0, opId, op);
    }
  }
}
