/** One card: its limit, its consumption, and the tasks it runs one at a time. */
module Cards {
  import opened Wrappers
  import opened Protocol
  import opened Messages

  datatype ChargeOp = ChargeOp(opId: u32, amount: real, fromOffline: bool)

  datatype Task =
    | ChargeTask(op: ChargeOp)
    | LimitTask(opId: u32, newLimit: Option<real>)

  datatype Card = Card(limit: Option<real>, consumed: real, current: Option<Task>, queue: seq<Task>)

  const NEW_CARD := Card(None, 0.0, None, [])

  /** A card after handling one message, and what it sent. */
  datatype Effect = Effect(card: Card, toAccount: seq<AccountMsg>, toRouter: seq<RouterMsg>)

  function StartTask(key: CardKey, c: Card): Effect
    decreases |c.queue|, 1
  {
    match c.current
    case None => Effect(c, [], [])
    case Some(ChargeTask(op)) =>
      if !op.fromOffline && Exceeds(c.limit, c.consumed, op.amount) then
        FinishTask(key, c, op.opId, false, Some(ChargeLimit(CardLimitExceeded)))
      else
        Effect(c, [ApplyChargeFromCard(op.opId, op.amount, key.card, op.fromOffline)], [])
    case Some(LimitTask(opId, newLimit)) =>
      if CanSetLimit(newLimit, c.consumed) then
        FinishTask(key, c.(limit := newLimit), opId, true, None)
      else
        FinishTask(key, c, opId, false, Some(LimitUpdate(BelowCurrentUsage)))
  }

  function FinishTask(key: CardKey, c: Card, opId: u32, success: bool, error: Option<VerifyError>): Effect
    decreases |c.queue|, 0
  {
    var done := OperationCompleted(opId, success, error);
    if |c.queue| > 0 then
      var e := StartTask(key, c.(current := Some(c.queue[0]), queue := c.queue[1..]));
      e.(toRouter := [done] + e.toRouter)
    else
      Effect(c.(current := None), [], [done])
  }

  /** A new task runs at once on an idle card and waits on a busy one. */
  function Submit(key: CardKey, c: Card, task: Task): Effect {
    if c.current.None? then
      StartTask(key, c.(current := Some(task)))
    else
      Effect(c.(queue := c.queue + [task]), [], [])
  }

  function Handle(key: CardKey, c: Card, msg: CardMsg): Effect {
    match msg
    case ExecuteCharge(opId, accountId, cardId, amount, fromOffline) =>
      if accountId != key.account || cardId != key.card then
        Effect(c, [], [RouterDebug, OperationCompleted(opId, false, Some(ChargeLimit(CardLimitExceeded)))])
      else
        Submit(key, c, ChargeTask(ChargeOp(opId, amount, fromOffline)))
    case ExecuteLimitChange(opId, newLimit) =>
      Submit(key, c, LimitTask(opId, newLimit))
    case QueryCardState(opId, accountId, reset) =>
      if accountId != key.account then
        Effect(c, [], [RouterDebug])
      else
        Effect(if reset then c.(consumed := 0.0) else c, [CardQueryReply(opId, key.card, c.consumed)], [])
    case CardGetSnapshot(opId) =>
      Effect(c, [], [CardSnapshotCollected(opId, CardSnapshot(key.account, key.card, c.limit, c.consumed))])
    case CardReplaceState(newLimit, newConsumed) =>
      Effect(Card(newLimit, newConsumed, None, []), [], [])
    case AccountChargeReply(opId, success, error) =>
      if c.current.Some? && c.current.value.ChargeTask? && c.current.value.op.opId == opId then
        var c' := if success then c.(consumed := c.consumed + c.current.value.op.amount) else c;
        FinishTask(key, c', opId, success, error)
      else
        Effect(c, [], [RouterDebug])
  }

  /** The actor: the methods below update the fields that `Handle` describes. */
  class CardActor {
    const cardId: u64
    const accountId: u64
    var limit: Option<real>
    var consumed: real
    var current: Option<Task>
    var queue: seq<Task>
    const router: Mailbox<RouterMsg>
    const account: Mailbox<AccountMsg>

    constructor (cardId: u64, accountId: u64, router: Mailbox<RouterMsg>, account: Mailbox<AccountMsg>)
      ensures State() == NEW_CARD && Key() == CardKey(accountId, cardId)
      ensures this.router == router && this.account == account
    {
      this.cardId, this.accountId := cardId, accountId;
      this.router, this.account := router, account;
      limit, consumed, current, queue := None, 0.0, None, [];
    }

    function Key(): CardKey {
      CardKey(accountId, cardId)
    }

    function State(): Card
      reads this
    {
      Card(limit, consumed, current, queue)
    }

    /** The actor did exactly what `e` says. */
    twostate predicate Did(e: Effect)
      reads this, router, account
    {
      && State() == e.card
      && account.queue == old(account.queue) + e.toAccount
      && router.queue == old(router.queue) + e.toRouter
    }

    method StartCurrentTask()
      modifies this, router, account
      ensures Did(StartTask(Key(), old(State())))
      decreases |queue|, 1
    {
      if current.None? {
        return;
      }
      match current.value {
        case ChargeTask(op) =>
          if !op.fromOffline && Exceeds(limit, consumed, op.amount) {
            FinishCurrentTask(op.opId, false, Some(ChargeLimit(CardLimitExceeded)));
            return;
          }
          account.DoSend(ApplyChargeFromCard(op.opId, op.amount, cardId, op.fromOffline));
        case LimitTask(opId, newLimit) =>
          if CanSetLimit(newLimit, consumed) {
            limit := newLimit;
            FinishCurrentTask(opId, true, None);
          } else {
            FinishCurrentTask(opId, false, Some(LimitUpdate(BelowCurrentUsage)));
          }
      }
    }

    method FinishCurrentTask(opId: u32, success: bool, error: Option<VerifyError>)
      modifies this, router, account
      ensures Did(FinishTask(Key(), old(State()), opId, success, error))
      decreases |queue|, 0
    {
      router.DoSend(OperationCompleted(opId, success, error));
      if |queue| > 0 {
        current, queue := Some(queue[0]), queue[1..];
        StartCurrentTask();
      } else {
        current := None;
      }
    }

    method HandleMsg(msg: CardMsg)
      modifies this, router, account
      ensures Did(Handle(Key(), old(State()), msg))
      ensures msg.ExecuteCharge? && CardKey(msg.accountId, msg.cardId) != Key() ==>
        && State() == old(State()) && account.queue == old(account.queue)
        && router.queue == old(router.queue) + [RouterDebug, OperationCompleted(msg.opId, false, Some(ChargeLimit(CardLimitExceeded)))]
      ensures || (msg.QueryCardState? && msg.accountId != accountId)
              || (msg.AccountChargeReply? && !(exists op :: old(current) == Some(ChargeTask(op)) && op.opId == msg.opId)) ==>
        State() == old(State()) && account.queue == old(account.queue) && router.queue == old(router.queue) + [RouterDebug]
      ensures msg.CardReplaceState? ==>
        State() == Card(msg.newLimit, msg.newConsumed, None, []) && account.queue == old(account.queue) && router.queue == old(router.queue)
    {
      match msg {
        case ExecuteCharge(opId, aid, cid, amount, fromOffline) =>
          if aid != accountId || cid != cardId {
            router.DoSend(RouterDebug);
            router.DoSend(OperationCompleted(opId, false, Some(ChargeLimit(CardLimitExceeded))));
            return;
          }
          Enqueue(ChargeTask(ChargeOp(opId, amount, fromOffline)));
        case ExecuteLimitChange(opId, newLimit) =>
          Enqueue(LimitTask(opId, newLimit));
        case QueryCardState(opId, aid, reset) =>
          if aid != accountId {
            router.DoSend(RouterDebug);
            return;
          }
          account.DoSend(CardQueryReply(opId, cardId, consumed));
          if reset {
            consumed := 0.0;
          }
        case CardGetSnapshot(opId) =>
          router.DoSend(CardSnapshotCollected(opId, CardSnapshot(accountId, cardId, limit, consumed)));
        case CardReplaceState(newLimit, newConsumed) =>
          limit, consumed := newLimit, newConsumed;
          current, queue := None, [];
        case AccountChargeReply(opId, success, error) =>
          if current.Some? && current.value.ChargeTask? && current.value.op.opId == opId {
            if success {
              consumed := consumed + current.value.op.amount;
            }
            FinishCurrentTask(opId, success, error);
          } else {
            router.DoSend(RouterDebug);
          }
      }
    }

    method Enqueue(task: Task)
      modifies this, router, account
      ensures Did(Submit(Key(), old(State()), task))
    {
      if current.None? {
        current := Some(task);
        StartCurrentTask();
      } else {
        queue := queue + [task];
      }
    }
  }
}
