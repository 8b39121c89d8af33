/** A charge or a limit change that runs alone does what the ledger says. */
module Updates {
  import opened Wrappers
  import opened Protocol
  import opened Messages
  import opened Network
  import opened Ledgers
  import opened Stages
  import Cards
  import Accounts
  import Routers

  // ---- charge ----

  function KeyOf(op: Op): CardKey
    requires op.Charge? || op.LimitCard?
  {
    CardKey(op.accountId, op.cardId)
  }

  /** The idle network once the card exists. */
  ghost function Base(n0: Net, opId: u32, op: Op): (b: Net)
    requires Idle(n0) && (op.Charge? || op.LimitCard?)
    ensures Idle(b) && KeyOf(op) in b.cards && op.accountId in b.accounts
  {
    AddCardIdle(Recorded(n0, opId, op), KeyOf(op));
    AddCard(Recorded(n0, opId, op), KeyOf(op))
  }

  function TaskOf(opId: u32, op: Op): Cards.Task
    requires op.Charge?
  {
    Cards.ChargeTask(Cards.ChargeOp(opId, op.amount, op.fromOfflineStation))
  }

  function Busy(b: Net, opId: u32, op: Op): Cards.Card
    requires op.Charge? && KeyOf(op) in b.cards
  {
    b.cards[KeyOf(op)].(current := Some(TaskOf(opId, op)))
  }

  predicate CardRefuses(b: Net, op: Op)
    requires op.Charge? && KeyOf(op) in b.cards
  {
    var c := b.cards[KeyOf(op)];
    !op.fromOfflineStation && Exceeds(c.limit, c.consumed, op.amount)
  }

  predicate AccountRefuses(b: Net, op: Op)
    requires op.Charge? && op.accountId in b.accounts
  {
    var a := b.accounts[op.accountId];
    !op.fromOfflineStation && Exceeds(a.limit, a.consumed, op.amount)
  }

  function ApplyMsg(opId: u32, op: Op): AccountMsg
    requires op.Charge?
  {
    ApplyChargeFromCard(opId, op.amount, op.cardId, op.fromOfflineStation)
  }

  /** The account's answer, and the network once it has decided. */
  function ReplyMsg(b: Net, opId: u32, op: Op): CardMsg
    requires op.Charge? && op.accountId in b.accounts
  {
    if AccountRefuses(b, op) then AccountChargeReply(opId, false, Some(ChargeLimit(AccountLimitExceeded)))
    else AccountChargeReply(opId, true, None)
  }

  function Approved(b: Net, op: Op): Net
    requires op.Charge? && op.accountId in b.accounts
  {
    if AccountRefuses(b, op) then b
    else WithAccountState(b, op.accountId, b.accounts[op.accountId].(consumed := b.accounts[op.accountId].consumed + op.amount))
  }

  function Paid(b: Net, op: Op): Net
    requires op.Charge? && op.accountId in b.accounts && KeyOf(op) in b.cards
  {
    if AccountRefuses(b, op) then b
    else WithCardState(Approved(b, op), KeyOf(op), b.cards[KeyOf(op)].(consumed := b.cards[KeyOf(op)].consumed + op.amount))
  }

  ghost predicate Charging(n0: Net, opId: u32, op: Op, n: Net)
    requires Idle(n0) && op.Charge?
  {
    var k, b := KeyOf(op), Base(n0, opId, op);
    || n == InRouter(n0, Execute(opId, op))
    || n == InCard(b, k, b.cards[k], ExecuteCharge(opId, op.accountId, op.cardId, op.amount, op.fromOfflineStation))
    || (CardRefuses(b, op) && n == InRouter(b, OperationCompleted(opId, false, Some(ChargeLimit(CardLimitExceeded)))))
    || (!CardRefuses(b, op) && n == InAccount(WithCardState(b, k, Busy(b, opId, op)), op.accountId, ApplyMsg(opId, op)))
    || (!CardRefuses(b, op) && n == InCard(Approved(b, op), k, Busy(b, opId, op), ReplyMsg(b, opId, op)))
    || (!CardRefuses(b, op) &&
        n == InRouter(Paid(b, op), OperationCompleted(opId, !AccountRefuses(b, op), ReplyMsg(b, opId, op).error)))
  }

  lemma ToCardBase(r: Routers.Router, n0: Net, k: CardKey, m: CardMsg)
    requires Idle(n0) && r == n0.r
    ensures var b := AddCard(n0, k);
      && k in b.cards
      && Routers.ToCard(r, k, m) == b.r.(cards := b.r.cards[k := [m]])
      && b.r == Routers.WithCard(r, k)
  {
    assert [] + [m] == [m];
  }

  lemma RoutesCharge(n0: Net, opId: u32, op: Op)
    requires Idle(n0) && (op.Charge? || op.LimitCard?)
    ensures var k, b := KeyOf(op), Base(n0, opId, op);
      && Wired(InRouter(n0, Execute(opId, op))) && k in b.cards
      && Next(InRouter(n0, Execute(opId, op)), AtRouter) ==
         InCard(b, k, b.cards[k],
                if op.Charge? then ExecuteCharge(opId, op.accountId, op.cardId, op.amount, op.fromOfflineStation)
                else ExecuteLimitChange(opId, op.newLimit))
  {
    hide Routers.ToCard, Routers.Handle, AddCard, Extend, Idle, Wired, Next;
    var n1, k := Recorded(n0, opId, op), KeyOf(op);
    var m := if op.Charge? then ExecuteCharge(opId, op.accountId, op.cardId, op.amount, op.fromOfflineStation)
             else ExecuteLimitChange(opId, op.newLimit);
    RecordedIdle(n0, opId, op);
    ToCardBase(n1.r, n1, k, m);
    CreatesCard(n1, k);
    RouterReads(n0, opId, op);
    CardRouting(n0.r, opId, op);
  }

  lemma RecordedIdle(n0: Net, opId: u32, op: Op)
    requires Idle(n0)
    ensures Idle(Recorded(n0, opId, op)) && Wired(InRouter(n0, Execute(opId, op)))
  {
  }

  /** The router's step, apart from what the dispatch itself does. */
  lemma RouterReads(n0: Net, opId: u32, op: Op)
    requires Idle(n0) && Wired(InRouter(n0, Execute(opId, op)))
    ensures var n, r := InRouter(n0, Execute(opId, op)), Routers.Handle(n0.r, Execute(opId, op));
      Next(n, AtRouter) == Net(
        r, n0.mail, Extend(r.accounts.Keys, n0.accounts, Accounts.NEW_ACCOUNT), Extend(r.cards.Keys, n0.cards, Cards.NEW_CARD))
  {
    hide Routers.Handle, Extend;
  }

  lemma CardRouting(r: Routers.Router, opId: u32, op: Op)
    requires op.Charge? || op.LimitCard?
    ensures Routers.Handle(r, Execute(opId, op)) ==
      Routers.ToCard(r.(operations := r.operations[opId := op]), KeyOf(op),
                     if op.Charge? then ExecuteCharge(opId, op.accountId, op.cardId, op.amount, op.fromOfflineStation)
                     else ExecuteLimitChange(opId, op.newLimit))
  {
    hide Routers.ToCard;
  }

  /** Routing gives the new actors their initial state. */
  lemma CreatesCard(n: Net, k: CardKey)
    requires Idle(n)
    ensures var b := AddCard(n, k);
      && Extend(b.r.accounts.Keys, n.accounts, Accounts.NEW_ACCOUNT) == b.accounts
      && Extend(b.r.cards.Keys, n.cards, Cards.NEW_CARD) == b.cards
      && b.cards == b.cards[k := b.cards[k]]
      && b.mail == n.mail
      && forall m: seq<CardMsg> {:trigger b.r.cards[k := m]} :: b.r.cards[k := m].Keys == b.r.cards.Keys
  {
    hide Idle, Extend;
    AddedMaps(n, k);
    ExtendOne(n.accounts, k.account, Accounts.NEW_ACCOUNT);
    ExtendOne(n.cards, k, Cards.NEW_CARD);
    hide AddCard;
  }

  lemma AddedMaps(n: Net, k: CardKey)
    requires Idle(n)
    ensures var b := AddCard(n, k);
      && b.mail == n.mail
      && b.r.accounts.Keys == n.accounts.Keys + {k.account} && b.r.cards.Keys == n.cards.Keys + {k}
      && b.accounts == (if k.account in n.accounts then n.accounts else n.accounts[k.account := Accounts.NEW_ACCOUNT])
      && b.cards == (if k in n.cards then n.cards else n.cards[k := Cards.NEW_CARD])
  {
  }

  lemma ExtendOne<K, V>(m: map<K, V>, k: K, initial: V)
    ensures Extend(m.Keys + {k}, m, initial) == if k in m then m else m[k := initial]
  {
  }

  /** The network `b` with the event that reports `op`. */
  function Reported(b: Net, opId: u32, op: Op, error: Option<VerifyError>): Net {
    var outcome := if error.None? then Outcome.Ok else Failed(error.value);
    b.(r := Routers.Emit(b.r, OperationResultEvent(opId, op, Routers.CompletedResult(op, outcome), error.None?, error)))
  }

  /** The router reports a completed update. */
  lemma Completes(b: Net, opId: u32, op: Op, error: Option<VerifyError>)
    requires Idle(b) && opId in b.r.operations && b.r.operations[opId] == op
    ensures var n := InRouter(b, OperationCompleted(opId, error.None?, error));
      && Wired(n) && Only(n, AtRouter)
      && Next(n, AtRouter) == Reported(b, opId, op, error)
  {
    assert Extend(b.r.accounts.Keys, b.accounts, Accounts.NEW_ACCOUNT) == b.accounts;
    assert Extend(b.r.cards.Keys, b.cards, Cards.NEW_CARD) == b.cards;
  }

  /** A network like `b` up to its records, whose ledger is what `op` makes of `n0`, finishes `op` by reporting it. */
  lemma Finishes(n0: Net, opId: u32, op: Op, b: Net, error: Option<VerifyError>)
    requires Idle(n0) && Idle(b) && b.r.events == n0.r.events && Rooted(LedgerOf(n0))
    requires LedgerOf(b) == Apply(LedgerOf(n0), op).0
    requires Apply(LedgerOf(n0), op).1 == Decided(if error.None? then Outcome.Ok else Failed(error.value))
    ensures Finished(n0, opId, op, Reported(b, opId, op, error))
  {
    hide Apply, Idle, LedgerOf, Rooted, Reported, Matches;
    DecidedIsUpdate(LedgerOf(n0), op);
    ReportMatches(b, opId, op, error);
  }

  lemma ReportMatches(b: Net, opId: u32, op: Op, error: Option<VerifyError>)
    requires Idle(b) && (op.Charge? || op.LimitAccount? || op.LimitCard?)
    ensures var n := Reported(b, opId, op, error);
      && Idle(n) && LedgerOf(n) == LedgerOf(b) && |n.r.events| == |b.r.events| + 1 && n.r.events[..|b.r.events|] == b.r.events
      && Matches(n.r.events[|b.r.events|], opId, op, Decided(if error.None? then Outcome.Ok else Failed(error.value)))
  {
    SameLedger(b, Reported(b, opId, op, error));
    hide LedgerOf;
  }

  lemma DecidedIsUpdate(db: Ledger, op: Op)
    requires Rooted(db) && Apply(db, op).1.Decided?
    ensures op.Charge? || op.LimitAccount? || op.LimitCard?
  {
  }

  // ---- charge, stage by stage ----

  lemma BaseFacts(n0: Net, opId: u32, op: Op)
    requires Idle(n0) && (op.Charge? || op.LimitCard?)
    ensures var b, k := Base(n0, opId, op), KeyOf(op);
      && Idle(b) && k in b.cards && k.account in b.accounts
      && opId in b.r.operations && b.r.operations[opId] == op && b.r.events == n0.r.events
      && LedgerOf(b) == WithCard(LedgerOf(n0), k)
  {
    AddCardIdle(Recorded(n0, opId, op), KeyOf(op));
    SameLedger(n0, Recorded(n0, opId, op));
  }

  lemma Unchanged(b: Net, k: CardKey)
    requires Idle(b) && k in b.cards
    ensures b.r.accounts[k.account := []] == b.r.accounts && b.r.cards[k := []] == b.r.cards
    ensures b.cards[k := b.cards[k]] == b.cards && b.accounts[k.account := b.accounts[k.account]] == b.accounts
  {
  }

  /** The card refuses at once, or asks the account and stays busy. */
  lemma ChargeArrives(k: CardKey, c: Cards.Card, opId: u32, op: Op)
    requires op.Charge? && k == KeyOf(op) && c.current.None? && c.queue == []
    ensures Cards.Handle(k, c, ExecuteCharge(opId, op.accountId, op.cardId, op.amount, op.fromOfflineStation)) ==
      if !op.fromOfflineStation && Exceeds(c.limit, c.consumed, op.amount) then
        Cards.Effect(c, [], [OperationCompleted(opId, false, Some(ChargeLimit(CardLimitExceeded)))])
      else
        Cards.Effect(c.(current := Some(TaskOf(opId, op))), [ApplyMsg(opId, op)], [])
  {
    var busy := c.(current := Some(TaskOf(opId, op)));
    var refused := Some(ChargeLimit(CardLimitExceeded));
    assert Cards.FinishTask(k, busy, opId, false, refused) == Cards.Effect(c, [], [OperationCompleted(opId, false, refused)]);
  }

  lemma AtCharge(n0: Net, opId: u32, op: Op)
    requires Idle(n0) && op.Charge?
    ensures var k, b := KeyOf(op), Base(n0, opId, op);
      var n := InCard(b, k, b.cards[k], ExecuteCharge(opId, op.accountId, op.cardId, op.amount, op.fromOfflineStation));
      && Wired(n) && Only(n, AtCard(k)) && Charging(n0, opId, op, Next(n, AtCard(k)))
  {
    hide Base, Cards.Handle, Wired, Only, Next;
    var k, b := KeyOf(op), Base(n0, opId, op);
    ChargeArrives(k, b.cards[k], opId, op);
    FromCard(b, k, b.cards[k], ExecuteCharge(opId, op.accountId, op.cardId, op.amount, op.fromOfflineStation));
    Unchanged(b, k);
  }

  lemma AtApply(n0: Net, opId: u32, op: Op)
    requires Idle(n0) && op.Charge? && !CardRefuses(Base(n0, opId, op), op)
    ensures var k, b := KeyOf(op), Base(n0, opId, op);
      var n := InAccount(WithCardState(b, k, Busy(b, opId, op)), op.accountId, ApplyMsg(opId, op));
      && Wired(n) && Only(n, AtAccount(k.account)) && Charging(n0, opId, op, Next(n, AtAccount(k.account)))
  {
    hide Base, Wired, Only, Next;
    var k, b := KeyOf(op), Base(n0, opId, op);
    FromAccount(b, k, Busy(b, opId, op), ApplyMsg(opId, op));
    Unchanged(b, k);
  }

  lemma AtReply(n0: Net, opId: u32, op: Op)
    requires Idle(n0) && op.Charge? && !CardRefuses(Base(n0, opId, op), op)
    ensures var k, b := KeyOf(op), Base(n0, opId, op);
      var n := InCard(Approved(b, op), k, Busy(b, opId, op), ReplyMsg(b, opId, op));
      && Wired(n) && Only(n, AtCard(k)) && Charging(n0, opId, op, Next(n, AtCard(k)))
  {
    hide Base, Wired, Only, Next, Idle, Cards.Handle, CardRefuses, AccountRefuses, ReplyMsg;
    var k, b := KeyOf(op), Base(n0, opId, op);
    ApprovedIdle(b, op);
    FromCard(Approved(b, op), k, Busy(b, opId, op), ReplyMsg(b, opId, op));
    Unchanged(Approved(b, op), k);
    ReplyArrives(b, opId, op);
  }

  lemma ReplyArrives(b: Net, opId: u32, op: Op)
    requires op.Charge? && Idle(b) && KeyOf(op) in b.cards && op.accountId in b.accounts
    ensures var k, e := KeyOf(op), Cards.Handle(KeyOf(op), Busy(b, opId, op), ReplyMsg(b, opId, op));
      && e.toAccount == [] && e.toRouter == [OperationCompleted(opId, !AccountRefuses(b, op), ReplyMsg(b, opId, op).error)]
      && Approved(b, op).(cards := Approved(b, op).cards[k := e.card]) == Paid(b, op)
      && Approved(b, op).mail == b.mail && Approved(b, op).r == b.r && Approved(b, op).cards == b.cards
  {
    Unchanged(b, KeyOf(op));
  }

  lemma ApprovedIdle(b: Net, op: Op)
    requires op.Charge? && Idle(b) && KeyOf(op) in b.cards && op.accountId in b.accounts
    ensures Idle(Approved(b, op)) && Idle(Paid(b, op))
  {
  }

  lemma ChargeRefused(n0: Net, opId: u32, op: Op)
    requires Idle(n0) && op.Charge? && CardRefuses(Base(n0, opId, op), op)
    ensures var b, error := Base(n0, opId, op), Some(ChargeLimit(CardLimitExceeded));
      var n := InRouter(b, OperationCompleted(opId, false, error));
      Wired(n) && Only(n, AtRouter) && Rooted(LedgerOf(n0)) && Finished(n0, opId, op, Next(n, AtRouter))
  {
    hide Base, Wired, Only, Next, Finished, Reported;
    var b, error := Base(n0, opId, op), Some(ChargeLimit(CardLimitExceeded));
    BaseFacts(n0, opId, op);
    IdleRooted(n0);
    LedgerDomain(b, KeyOf(op));
    Completes(b, opId, op, error);
    hide LedgerOf, Idle;
    Finishes(n0, opId, op, b, error);
  }

  /** The ledger after the charge of an idle network. */
  lemma PaidLedger(b: Net, op: Op)
    requires op.Charge? && Idle(b) && KeyOf(op) in b.cards && op.accountId in b.accounts && !CardRefuses(b, op)
    ensures var k, db := KeyOf(op), LedgerOf(b);
      && k in db.cards && k.account in db.accounts
      && Pay(db, k, op.amount, op.fromOfflineStation) ==
         (LedgerOf(Paid(b, op)),
          if AccountRefuses(b, op) then Failed(ChargeLimit(AccountLimitExceeded)) else Outcome.Ok)
  {
    hide LedgerOf;
    var k := KeyOf(op);
    LedgerDomain(b, k);
    var a, c := b.accounts[op.accountId], b.cards[k];
    var a', c' := a.(consumed := a.consumed + op.amount), c.(consumed := c.consumed + op.amount);
    LedgerAt(b, op.accountId, a', k, c');
    LedgerAt(b.(accounts := b.accounts[op.accountId := a']), op.accountId, a', k, c');
  }

  lemma ChargeDecided(n0: Net, opId: u32, op: Op)
    requires Idle(n0) && op.Charge? && !CardRefuses(Base(n0, opId, op), op)
    ensures var b := Base(n0, opId, op);
      var n := InRouter(Paid(b, op), OperationCompleted(opId, !AccountRefuses(b, op), ReplyMsg(b, opId, op).error));
      Wired(n) && Only(n, AtRouter) && Rooted(LedgerOf(n0)) && Finished(n0, opId, op, Next(n, AtRouter))
  {
    hide Base, Wired, Only, Next, Finished, Reported, Pay;
    var b := Base(n0, opId, op);
    var error := ReplyMsg(b, opId, op).error;
    BaseFacts(n0, opId, op);
    IdleRooted(n0);
    ApprovedIdle(b, op);
    PaidLedger(b, op);
    Completes(Paid(b, op), opId, op, error);
    hide LedgerOf, Idle;
    Finishes(n0, opId, op, Paid(b, op), error);
  }

  /** A charge running alone: one message at a time, until the ledger's answer is out. */
  lemma ChargeRuns(n0: Net, opId: u32, op: Op, n: Net) returns (l: Label)
    requires Idle(n0) && op.Charge? && Charging(n0, opId, op, n)
    ensures Wired(n) && Only(n, l) && !l.Submit? && Rooted(LedgerOf(n0))
    ensures Charging(n0, opId, op, Next(n, l)) || Finished(n0, opId, op, Next(n, l))
  {
    hide Base, Wired, Only, Next, Finished;
    var k, b := KeyOf(op), Base(n0, opId, op);
    IdleRooted(n0);
    if n == InRouter(n0, Execute(opId, op)) {
      l := AtRouter;
      FromRouter(n0, Execute(opId, op));
      RoutesCharge(n0, opId, op);
    } else if n == InCard(b, k, b.cards[k], ExecuteCharge(opId, op.accountId, op.cardId, op.amount, op.fromOfflineStation)) {
      l := AtCard(k);
      AtCharge(n0, opId, op);
    } else if CardRefuses(b, op) {
      l := AtRouter;
      ChargeRefused(n0, opId, op);
    } else if n == InAccount(WithCardState(b, k, Busy(b, opId, op)), op.accountId, ApplyMsg(opId, op)) {
      l := AtAccount(k.account);
      AtApply(n0, opId, op);
    } else if n == InCard(Approved(b, op), k, Busy(b, opId, op), ReplyMsg(b, opId, op)) {
      l := AtCard(k);
      AtReply(n0, opId, op);
    } else {
      l := AtRouter;
      ChargeDecided(n0, opId, op);
    }
  }
}
