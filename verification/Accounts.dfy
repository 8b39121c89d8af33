/** One account: its limit, its consumption, and the query or bill it is collecting. */
module Accounts {
  import opened Wrappers
  import opened Protocol
  import opened Messages

  datatype PendingQuery = PendingQuery(opId: u32, remaining: nat, perCardSpent: seq<(u64, real)>, billing: bool)

  datatype Account = Account(limit: Option<real>, consumed: real, pending: Option<PendingQuery>)

  const NEW_ACCOUNT := Account(None, 0.0, None)

  /** An account after handling one message; `toCard` goes to the card that asked. */
  datatype Effect = Effect(account: Account, toCard: seq<CardMsg>, toRouter: seq<RouterMsg>)

  function SumSpent(spent: seq<(u64, real)>): real {
    if spent == [] then 0.0 else SumSpent(spent[..|spent| - 1]) + spent[|spent| - 1].1
  }

  function Start(id: u64, a: Account, opId: u32, numCards: nat, billing: bool): Effect {
    if numCards == 0 then
      Effect(if billing then a.(consumed := 0.0) else a, [], [AccountQueryCompleted(opId, id, a.consumed, [])])
    else
      Effect(a.(pending := Some(PendingQuery(opId, numCards, [], billing))), [], [])
  }

  function Collect(id: u64, a: Account, p: PendingQuery, cardId: u64, consumed: real): Effect {
    var spent := p.perCardSpent + [(cardId, consumed)];
    var remaining := if p.remaining > 0 then p.remaining - 1 else 0;
    if remaining > 0 then
      Effect(a.(pending := Some(p.(remaining := remaining, perCardSpent := spent))), [], [])
    else
      Effect(
        Account(a.limit, if p.billing then 0.0 else a.consumed, None),
        [],
        [AccountQueryCompleted(p.opId, id, SumSpent(spent), spent)])
  }

  function Handle(id: u64, a: Account, msg: AccountMsg): Effect {
    match msg
    case ApplyChargeFromCard(opId, amount, _, fromOffline) =>
      if !fromOffline && Exceeds(a.limit, a.consumed, amount) then
        Effect(a, [AccountChargeReply(opId, false, Some(ChargeLimit(AccountLimitExceeded)))], [])
      else
        Effect(a.(consumed := a.consumed + amount), [AccountChargeReply(opId, true, None)], [])
    case ApplyAccountLimit(opId, newLimit) =>
      if CanSetLimit(newLimit, a.consumed) then
        Effect(a.(limit := newLimit), [], [OperationCompleted(opId, true, None)])
      else
        Effect(a, [], [OperationCompleted(opId, false, Some(LimitUpdate(BelowCurrentUsage)))])
    case StartAccountQuery(opId, numCards) => Start(id, a, opId, numCards, false)
    case StartAccountBill(opId, numCards) => Start(id, a, opId, numCards, true)
    case CardQueryReply(opId, cardId, consumed) =>
      if a.pending.Some? && a.pending.value.opId == opId then
        Collect(id, a, a.pending.value, cardId, consumed)
      else
        Effect(a, [], [RouterDebug])
    case AccountGetSnapshot(opId) =>
      Effect(a, [], [AccountSnapshotCollected(opId, AccountSnapshot(id, a.limit, a.consumed))])
    case AccountReplaceState(newLimit, newConsumed) =>
      Effect(Account(newLimit, newConsumed, a.pending), [], [])
  }

  /** The actor; `pending` is the source's `pending_query`. */
  class AccountActor {
    const accountId: u64
    var accountLimit: Option<real>
    var accountConsumed: real
    var pending: Option<PendingQuery>
    const router: Mailbox<RouterMsg>

    constructor (accountId: u64, router: Mailbox<RouterMsg>)
      ensures State() == NEW_ACCOUNT && this.accountId == accountId && this.router == router
    {
      this.accountId, this.router := accountId, router;
      accountLimit, accountConsumed, pending := None, 0.0, None;
    }

    function State(): Account
      reads this
    {
      Account(accountLimit, accountConsumed, pending)
    }

    /** `replyTo` is the recipient carried by `ApplyChargeFromCard`; no other message uses it. */
    method HandleMsg(msg: AccountMsg, replyTo: Mailbox<CardMsg>)
      modifies this, router, replyTo
      ensures var e := Handle(accountId, old(State()), msg);
        && State() == e.account
        && replyTo.queue == old(replyTo.queue) + e.toCard
        && router.queue == old(router.queue) + e.toRouter
      ensures msg.CardQueryReply? && (old(pending).None? || old(pending).value.opId != msg.opId) ==>
        State() == old(State()) && replyTo.queue == old(replyTo.queue) && router.queue == old(router.queue) + [RouterDebug]
      ensures (msg.StartAccountQuery? || msg.StartAccountBill?) && msg.numCards > 0 ==>
        && State() == old(State()).(pending := Some(PendingQuery(msg.opId, msg.numCards, [], msg.StartAccountBill?)))
        && router.queue == old(router.queue)
      ensures msg.AccountReplaceState? ==>
        State() == Account(msg.newLimit, msg.newConsumed, old(pending)) && router.queue == old(router.queue)
    {
      match msg {
        case ApplyChargeFromCard(opId, amount, _, fromOffline) =>
          if fromOffline {
            accountConsumed := accountConsumed + amount;
            replyTo.DoSend(AccountChargeReply(opId, true, None));
            return;
          }
          if Exceeds(accountLimit, accountConsumed, amount) {
            replyTo.DoSend(AccountChargeReply(opId, false, Some(ChargeLimit(AccountLimitExceeded))));
          } else {
            accountConsumed := accountConsumed + amount;
            replyTo.DoSend(AccountChargeReply(opId, true, None));
          }
        case ApplyAccountLimit(opId, newLimit) =>
          if CanSetLimit(newLimit, accountConsumed) {
            accountLimit := newLimit;
            router.DoSend(OperationCompleted(opId, true, None));
          } else {
            router.DoSend(OperationCompleted(opId, false, Some(LimitUpdate(BelowCurrentUsage))));
          }
        case StartAccountQuery(opId, numCards) =>
          if numCards == 0 {
            router.DoSend(AccountQueryCompleted(opId, accountId, accountConsumed, []));
            return;
          }
          pending := Some(PendingQuery(opId, numCards, [], false));
        case StartAccountBill(opId, numCards) =>
          if numCards == 0 {
            var total := accountConsumed;
            accountConsumed := 0.0;
            router.DoSend(AccountQueryCompleted(opId, accountId, total, []));
            return;
          }
          pending := Some(PendingQuery(opId, numCards, [], true));
        case CardQueryReply(opId, cardId, consumed) =>
          CollectReply(opId, cardId, consumed);
        case AccountGetSnapshot(opId) =>
          router.DoSend(AccountSnapshotCollected(opId, AccountSnapshot(accountId, accountLimit, accountConsumed)));
        case AccountReplaceState(newLimit, newConsumed) =>
          accountLimit, accountConsumed := newLimit, newConsumed;
      }
    }

    method CollectReply(opId: u32, cardId: u64, consumed: real)
      modifies this, router
      ensures var e := Handle(accountId, old(State()), CardQueryReply(opId, cardId, consumed));
        State() == e.account && router.queue == old(router.queue) + e.toRouter
      ensures old(pending).Some? && old(pending).value.opId == opId ==>
        var p := old(pending).value;
        var spent := p.perCardSpent + [(cardId, consumed)];
        if p.remaining <= 1 then
          && State() == Account(old(accountLimit), if p.billing then 0.0 else old(accountConsumed), None)
          && router.queue == old(router.queue) + [AccountQueryCompleted(opId, accountId, SumSpent(spent), spent)]
        else
          && State() == old(State()).(pending := Some(PendingQuery(opId, p.remaining - 1, spent, p.billing)))
          && router.queue == old(router.queue)
    {
      if pending.None? || pending.value.opId != opId {
        router.DoSend(RouterDebug);
        return;
      }
      var p := pending.value;
      p := p.(perCardSpent := p.perCardSpent + [(cardId, consumed)]);
      if p.remaining > 0 {
        p := p.(remaining := p.remaining - 1);
      }
      pending := Some(p);
      if p.remaining == 0 {
        var total := Total(p.perCardSpent);
        pending := None;
        if p.billing {
          accountConsumed := 0.0;
        }
        router.DoSend(AccountQueryCompleted(p.opId, accountId, total, p.perCardSpent));
      }
    }

    static method Total(spent: seq<(u64, real)>) returns (total: real)
      ensures total == SumSpent(spent)
    {
      total := 0.0;
      for i := 0 to |spent|
        invariant total == SumSpent(spent[..i])
      {
        assert spent[..i + 1][..i] == spent[..i];
        total := total + spent[i].1;
      }
      assert spent[..|spent|] == spent;
    }
  }
}
