/**
 Every message, task and result can be traced back to the operation that was submitted
 under its id. `ops` maps the ids submitted so far to their operations.
 */
module Traces {
  import opened Wrappers
  import opened Protocol
  import opened Messages
  import opened Network
  import opened Handshake
  import Cards
  import Accounts
  import Routers

  type Submitted = map<u32, Op>

  predicate IsQuery(op: Op) {
    op.AccountQuery? || op.Bill?
  }

  /** `op` is carried out by card `k`. */
  predicate ForCard(op: Op, k: CardKey) {
    (op.Charge? || op.LimitCard?) && CardKey(op.accountId, op.cardId) == k
  }

  predicate QueryOn(op: Op, a: u64) {
    IsQuery(op) && op.accountId == a
  }

  ghost function AccountTrace(ops: Submitted): (u64, AccountMsg) -> bool {
    (a: u64, m: AccountMsg) =>
      match m
      case ApplyChargeFromCard(_, _, _, _) => true
      case ApplyAccountLimit(opId, _) => opId in ops && ops[opId].LimitAccount? && ops[opId].accountId == a
      case StartAccountQuery(opId, _) => opId in ops && QueryOn(ops[opId], a)
      case StartAccountBill(opId, _) => opId in ops && QueryOn(ops[opId], a)
      case CardQueryReply(opId, _, _) => opId in ops && QueryOn(ops[opId], a)
      case AccountGetSnapshot(opId) => opId in ops && ops[opId].GetDatabase?
      case AccountReplaceState(_, _) => false
  }

  ghost function CardTrace(ops: Submitted): (CardKey, CardMsg) -> bool {
    (k: CardKey, m: CardMsg) =>
      match m
      case ExecuteCharge(opId, a, c, _, _) => k == CardKey(a, c) && opId in ops && ops[opId].Charge? && ForCard(ops[opId], k)
      case ExecuteLimitChange(opId, _) => opId in ops && ops[opId].LimitCard? && ForCard(ops[opId], k)
      case QueryCardState(opId, a, _) => a == k.account && opId in ops && QueryOn(ops[opId], a)
      case CardGetSnapshot(opId) => opId in ops && ops[opId].GetDatabase?
      case CardReplaceState(_, _) => false
      case AccountChargeReply(_, _, _) => true
  }

  ghost function RouterTrace(ops: Submitted): RouterMsg -> bool {
    (m: RouterMsg) =>
      match m
      case Execute(opId, op) => opId in ops && ops[opId] == op && !op.ReplaceDatabase?
      case OperationCompleted(opId, success, error) => opId in ops && Routers.IsUpdate(ops[opId]) && (success <==> error.None?)
      case AccountQueryCompleted(opId, a, _, _) => opId in ops && QueryOn(ops[opId], a)
      case AccountSnapshotCollected(opId, _) => opId in ops && ops[opId].GetDatabase?
      case CardSnapshotCollected(opId, _) => opId in ops && ops[opId].GetDatabase?
      case RouterDebug => false
  }

  predicate TaskTrace(ops: Submitted, k: CardKey, t: Cards.Task) {
    TaskId(t) in ops && ForCard(ops[TaskId(t)], k)
  }

  ghost predicate CardTraced(ops: Submitted, k: CardKey, c: Cards.Card) {
    && (c.current.Some? ==> TaskTrace(ops, k, c.current.value))
    && (forall t :: t in c.queue ==> TaskTrace(ops, k, t))
  }

  /** A result of the kind its operation asks for. */
  predicate Fits(op: Op, success: bool, error: Option<VerifyError>, result: Result) {
    match op
    case Charge(_, _, _, _) => result == ChargeResult(if error.None? then Outcome.Ok else Failed(error.value)) && success == error.None?
    case LimitAccount(_, _) => result == LimitAccountResult(if error.None? then Outcome.Ok else Failed(error.value)) && success == error.None?
    case LimitCard(_, _, _) => result == LimitCardResult(if error.None? then Outcome.Ok else Failed(error.value)) && success == error.None?
    case AccountQuery(a) => result.AccountQueryResult? && result.accountId == a && success && error.None?
    case Bill(a, _) => result.AccountQueryResult? && result.accountId == a && success && error.None?
    case GetDatabase(addr) => result.DatabaseSnapshotResult? && result.snapshot.addr == addr && success && error.None?
    case ReplaceDatabase(_) => result == ReplaceDatabaseResult && success && error.None?
  }

  predicate EventTrace(ops: Submitted, e: ActorEvent) {
    && e.OperationResultEvent?
    && e.opId in ops && ops[e.opId] == e.operation
    && Fits(e.operation, e.success, e.error, e.result)
  }

  ghost predicate MailTraced(n: Net, ops: Submitted) {
    Every(n, AccountTrace(ops), CardTrace(ops), RouterTrace(ops))
  }

  ghost predicate CardsTraced(n: Net, ops: Submitted) {
    forall k :: k in n.cards ==> CardTraced(ops, k, n.cards[k])
  }

  ghost predicate PendingTraced(n: Net, ops: Submitted) {
    && (forall a :: a in n.accounts && n.accounts[a].pending.Some? ==>
      n.accounts[a].pending.value.opId in ops && QueryOn(ops[n.accounts[a].pending.value.opId], a))
    && (forall id :: id in n.r.snapshots ==> id in ops && ops[id].GetDatabase? && n.r.snapshots[id].addr == ops[id].addr)
  }

  ghost predicate EventsTraced(n: Net, ops: Submitted) {
    forall e :: e in n.r.events ==> EventTrace(ops, e)
  }

  ghost predicate Traced(n: Net, ops: Submitted) {
    MailTraced(n, ops) && CardsTraced(n, ops) && PendingTraced(n, ops) && EventsTraced(n, ops)
  }

  // ---- one card ----

  /** What a card sends and keeps is about its own tasks. */
  ghost predicate EffectTraced(ops: Submitted, k: CardKey, e: Cards.Effect) {
    && CardTraced(ops, k, e.card)
    && (forall m :: m in e.toAccount ==> AccountTrace(ops)(k.account, m))
    && (forall m :: m in e.toRouter ==> RouterTrace(ops)(m))
  }

  lemma {:induction false} StartTraced(ops: Submitted, k: CardKey, c: Cards.Card)
    requires CardTraced(ops, k, c)
    ensures EffectTraced(ops, k, Cards.StartTask(k, c))
    decreases |c.queue|, 1
  {
    match c.current {
      case None =>
      case Some(ChargeTask(op)) =>
        FinishTraced(ops, k, c, op.opId, false, Some(ChargeLimit(CardLimitExceeded)));
      case Some(LimitTask(opId, newLimit)) =>
        FinishTraced(ops, k, c.(limit := newLimit), opId, true, None);
        FinishTraced(ops, k, c, opId, false, Some(LimitUpdate(BelowCurrentUsage)));
    }
  }

  lemma {:induction false} FinishTraced(ops: Submitted, k: CardKey, c: Cards.Card, opId: u32, success: bool, error: Option<VerifyError>)
    requires CardTraced(ops, k, c) && opId in ops && ForCard(ops[opId], k) && (success <==> error.None?)
    ensures EffectTraced(ops, k, Cards.FinishTask(k, c, opId, success, error))
    decreases |c.queue|, 0
  {
    if |c.queue| > 0 {
      StartTraced(ops, k, c.(current := Some(c.queue[0]), queue := c.queue[1..]));
    }
  }

  lemma SubmitTraced(ops: Submitted, k: CardKey, c: Cards.Card, t: Cards.Task)
    requires CardTraced(ops, k, c) && TaskTrace(ops, k, t)
    ensures EffectTraced(ops, k, Cards.Submit(k, c, t))
  {
    if c.current.None? {
      StartTraced(ops, k, c.(current := Some(t)));
    }
  }

  lemma CardHandleTraced(ops: Submitted, k: CardKey, c: Cards.Card, cm: seq<CardMsg>, am: seq<AccountMsg>)
    requires CardOk(k, c, cm, am) && cm != [] && CardTraced(ops, k, c) && CardTrace(ops)(k, cm[0])
    ensures EffectTraced(ops, k, Cards.Handle(k, c, cm[0]))
  {
    match cm[0] {
      case ExecuteCharge(opId, _, _, amount, fromOffline) =>
        SubmitTraced(ops, k, c, Cards.ChargeTask(Cards.ChargeOp(opId, amount, fromOffline)));
      case ExecuteLimitChange(opId, newLimit) =>
        SubmitTraced(ops, k, c, Cards.LimitTask(opId, newLimit));
      case AccountChargeReply(opId, success, error) =>
        assert c.current.Some? && Answers(cm[0], c.current.value.op);
        var c' := if success then c.(consumed := c.consumed + c.current.value.op.amount) else c;
        FinishTraced(ops, k, c', opId, success, error);
      case _ =>
    }
  }

  // ---- the network ----

  lemma CardStepTraced(n: Net, ops: Submitted, k: CardKey)
    requires Safe(n) && Traced(n, ops) && Enabled(n, AtCard(k))
    ensures Traced(CardStep(n, k), ops)
  {
    hide Cards.Handle;
    var m := n.r.cards[k][0];
    assert m in n.r.cards[k];
    CardHandleTraced(ops, k, n.cards[k], n.r.cards[k], n.r.accounts[k.account]);
    CardStepEvery(n, k, AccountTrace(ops), CardTrace(ops), RouterTrace(ops));
  }

  /** The account has the query whose answer it reads pending. */
  ghost predicate Expected(n: Net, a: u64)
    requires Wired(n) && Enabled(n, AtAccount(a))
  {
    n.r.accounts[a][0].CardQueryReply? ==>
      n.accounts[a].pending.Some? && n.accounts[a].pending.value.opId == n.r.accounts[a][0].opId
  }

  lemma AccountHandleTraced(ops: Submitted, a: u64, acct: Accounts.Account, m: AccountMsg)
    requires AccountTrace(ops)(a, m)
    requires acct.pending.Some? ==> acct.pending.value.opId in ops && QueryOn(ops[acct.pending.value.opId], a)
    requires m.CardQueryReply? ==> acct.pending.Some? && acct.pending.value.opId == m.opId
    ensures var e := Accounts.Handle(a, acct, m);
      && (e.account.pending.Some? ==> e.account.pending.value.opId in ops && QueryOn(ops[e.account.pending.value.opId], a))
      && (forall k, r :: r in e.toCard ==> CardTrace(ops)(k, r))
      && (forall r :: r in e.toRouter ==> RouterTrace(ops)(r))
  {
  }

  lemma AccountStepTraced(n: Net, ops: Submitted, a: u64)
    requires Wired(n) && Traced(n, ops) && Enabled(n, AtAccount(a)) && Expected(n, a)
    ensures Traced(AccountStep(n, a), ops)
  {
    hide Accounts.Handle;
    var m := n.r.accounts[a][0];
    assert m in n.r.accounts[a];
    AccountHandleTraced(ops, a, n.accounts[a], m);
    AccountStepEvery(n, a, AccountTrace(ops), CardTrace(ops), RouterTrace(ops));
  }

  /** The router knows what it is told about. */
  ghost predicate Recognised(n: Net, ops: Submitted)
    requires n.mail != []
  {
    match n.mail[0]
    case Execute(_, _) => true
    case OperationCompleted(opId, _, _) => opId in n.r.operations && opId in ops && n.r.operations[opId] == ops[opId]
    case AccountQueryCompleted(opId, _, _, _) => opId in n.r.operations && opId in ops && n.r.operations[opId] == ops[opId]
    case AccountSnapshotCollected(opId, _) => opId in n.r.snapshots && opId in n.r.operations && opId in ops && n.r.operations[opId] == ops[opId]
    case CardSnapshotCollected(opId, _) => opId in n.r.snapshots && opId in n.r.operations && opId in ops && n.r.operations[opId] == ops[opId]
    case RouterDebug => true
  }

  /** What the router has to say about one message. */
  lemma RouterHandleTraced(n: Net, ops: Submitted)
    requires Wired(n) && Traced(n, ops) && n.mail != [] && Recognised(n, ops)
    ensures var r' := Routers.Handle(n.r, n.mail[0]);
      && (forall e :: e in r'.events ==> EventTrace(ops, e))
      && (forall id :: id in r'.snapshots ==> id in ops && ops[id].GetDatabase? && r'.snapshots[id].addr == ops[id].addr)
  {
    hide MailTraced, CardsTraced, EventTrace, Routers.Dispatch, Routers.TryComplete;
    HeadTraced(n, ops);
    match n.mail[0] {
      case Execute(opId, op) =>
        DispatchReports(n.r, opId, op);
        EmptyDumpTraced(ops, opId, op);
      case OperationCompleted(opId, success, error) =>
        UpdateTraced(ops, opId, success, error);
      case AccountQueryCompleted(opId, a, total, spent) =>
        QueryTraced(ops, opId, a, total, spent);
      case AccountSnapshotCollected(opId, snap) =>
        var p := n.r.snapshots[opId];
        TryCompleteTraced(n.r.(snapshots := n.r.snapshots[opId := p.(accounts := p.accounts + [snap])]), opId, ops);
      case CardSnapshotCollected(opId, snap) =>
        var p := n.r.snapshots[opId];
        TryCompleteTraced(n.r.(snapshots := n.r.snapshots[opId := p.(cards := p.cards + [snap])]), opId, ops);
    }
  }

  lemma UpdateTraced(ops: Submitted, opId: u32, success: bool, error: Option<VerifyError>)
    requires RouterTrace(ops)(OperationCompleted(opId, success, error))
    ensures var outcome := if success || error.None? then Outcome.Ok else Failed(error.value);
      EventTrace(ops, OperationResultEvent(opId, ops[opId], Routers.CompletedResult(ops[opId], outcome), success, error))
    ensures opId in ops && !(!success && error.None?)
  {
  }

  lemma QueryTraced(ops: Submitted, opId: u32, a: u64, total: real, spent: seq<(u64, real)>)
    requires RouterTrace(ops)(AccountQueryCompleted(opId, a, total, spent))
    ensures EventTrace(ops, OperationResultEvent(opId, ops[opId], AccountQueryResult(a, total, spent), true, None))
  {
    assert QueryOn(ops[opId], a);
  }

  lemma EmptyDumpTraced(ops: Submitted, opId: u32, op: Op)
    requires RouterTrace(ops)(Execute(opId, op))
    ensures !op.ReplaceDatabase? && opId in ops && ops[opId] == op
    ensures op.GetDatabase? ==> EventTrace(ops, OperationResultEvent(
      opId, op, DatabaseSnapshotResult(DatabaseSnapshot(op.addr, [], [])), true, None))
  {
  }

  lemma TryCompleteTraced(r: Routers.Router, opId: u32, ops: Submitted)
    requires opId in r.snapshots && opId in r.operations && opId in ops && r.operations[opId] == ops[opId]
    requires forall e :: e in r.events ==> EventTrace(ops, e)
    requires forall id :: id in r.snapshots ==> id in ops && ops[id].GetDatabase? && r.snapshots[id].addr == ops[id].addr
    ensures var r' := Routers.TryComplete(r, opId);
      && (forall e :: e in r'.events ==> EventTrace(ops, e))
      && (forall id :: id in r'.snapshots ==> id in ops && ops[id].GetDatabase? && r'.snapshots[id].addr == ops[id].addr)
  {
  }

  lemma HeadTraced(n: Net, ops: Submitted)
    requires MailTraced(n, ops) && n.mail != []
    ensures RouterTrace(ops)(n.mail[0])
  {
  }

  /** What routing an operation, other than ReplaceDatabase, does besides sending requests. */
  lemma DispatchReports(r: Routers.Router, opId: u32, op: Op)
    requires !op.ReplaceDatabase?
    ensures var r' := Routers.Dispatch(r, opId, op);
      && r'.operations == r.operations[opId := op]
      && (if op.GetDatabase? && |r.accounts| == 0 && |r.cards| == 0 then
            && r'.snapshots == r.snapshots
            && r'.events == r.events + [OperationResultEvent(
                 opId, op, DatabaseSnapshotResult(DatabaseSnapshot(op.addr, [], [])), true, None)]
          else
            && r'.events == r.events
            && r'.snapshots == if op.GetDatabase? then
                 r.snapshots[opId := Routers.PendingSnapshot(op.addr, |r.accounts|, |r.cards|, [], [])]
               else r.snapshots)
  {
    var r1 := r.(operations := r.operations[opId := op]);
    if op.AccountQuery? || op.Bill? {
      QueryReports(r1, opId, op.accountId, op.Bill?);
      hide Routers.Query;
    }
  }

  lemma QueryReports(r: Routers.Router, opId: u32, a: u64, billing: bool)
    ensures var r' := Routers.Query(r, opId, a, billing);
      r'.operations == r.operations && r'.snapshots == r.snapshots && r'.events == r.events
  {
  }

  lemma RouterStepTraced(n: Net, ops: Submitted)
    requires Wired(n) && Traced(n, ops) && Enabled(n, AtRouter) && Recognised(n, ops)
    ensures Traced(RouterStep(n), ops)
  {
    hide Recognised;
    RouterHandleTraced(n, ops);
    HeadTraced(n, ops);
    RouterMailTraced(n, ops);
    hide MailTraced, Routers.Handle, EventTrace;
  }

  lemma SentTraced(ops: Submitted, msg: RouterMsg, k: CardKey, m: CardMsg)
    requires RouterTrace(ops)(msg) && CardSent(msg, k, m)
    ensures CardTrace(ops)(k, m)
  {
    var op := msg.operation;
    assert msg.opId in ops && ops[msg.opId] == op;
    if IsQuery(op) {
      assert QueryOn(op, op.accountId) && m == QueryCardState(msg.opId, op.accountId, op.Bill?);
    }
  }

  lemma RouterMailTraced(n: Net, ops: Submitted)
    requires Wired(n) && MailTraced(n, ops) && Enabled(n, AtRouter)
    ensures MailTraced(RouterStep(n), ops)
  {
    hide Routers.Handle;
    assert RouterTrace(ops)(n.mail[0]);
    forall k, m | CardSent(n.mail[0], k, m) ensures CardTrace(ops)(k, m) {
      SentTraced(ops, n.mail[0], k, m);
    }
    RouterStepEvery(n, AccountTrace(ops), CardTrace(ops), RouterTrace(ops));
  }

  lemma SubmitKeepsTraced(n: Net, ops: Submitted, opId: u32, op: Op)
    requires Wired(n) && Traced(n, ops) && opId !in ops && !op.ReplaceDatabase?
    ensures Traced(Next(n, Submit(opId, op)), ops[opId := op])
  {
    var n', ops' := Next(n, Submit(opId, op)), ops[opId := op];
    assert forall a, m :: AccountTrace(ops)(a, m) ==> AccountTrace(ops')(a, m);
    assert forall k, m :: CardTrace(ops)(k, m) ==> CardTrace(ops')(k, m);
    assert forall m :: RouterTrace(ops)(m) ==> RouterTrace(ops')(m);
    forall k | k in n'.cards ensures CardTraced(ops', k, n'.cards[k]) {
      assert CardTraced(ops, k, n.cards[k]);
    }
    hide AccountTrace, CardTrace;
  }
}
