/** Messages between the node, the router, the account actors and the card actors. */
module Messages {
  import opened Wrappers
  import opened Protocol

  type Op = Operation<real>
  type Result = OperationResult<real>

  datatype CardMsg =
    | ExecuteCharge(opId: u32, accountId: u64, cardId: u64, amount: real, fromOffline: bool)
    | ExecuteLimitChange(opId: u32, newLimit: Option<real>)
    | QueryCardState(opId: u32, accountId: u64, reset: bool)
    | CardGetSnapshot(opId: u32)
    | CardReplaceState(newLimit: Option<real>, newConsumed: real)
    | AccountChargeReply(opId: u32, success: bool, error: Option<VerifyError>)

  /** The reply address of `ApplyChargeFromCard` is the card `cardId` of the receiving account. */
  datatype AccountMsg =
    | ApplyChargeFromCard(opId: u32, amount: real, cardId: u64, fromOffline: bool)
    | ApplyAccountLimit(opId: u32, newLimit: Option<real>)
    | StartAccountQuery(opId: u32, numCards: nat)
    | StartAccountBill(opId: u32, numCards: nat)
    | CardQueryReply(opId: u32, cardId: u64, consumed: real)
    | AccountGetSnapshot(opId: u32)
    | AccountReplaceState(newLimit: Option<real>, newConsumed: real)

  datatype RouterMsg =
    | Execute(opId: u32, operation: Op)
    | OperationCompleted(opId: u32, success: bool, error: Option<VerifyError>)
    | AccountQueryCompleted(opId: u32, accountId: u64, totalSpent: real, perCardSpent: seq<(u64, real)>)
    | AccountSnapshotCollected(opId: u32, account: AccountSnapshot<real>)
    | CardSnapshotCollected(opId: u32, card: CardSnapshot<real>)
    | RouterDebug

  /** What the router tells the node. `Panicked` marks an `expect` that would have failed. */
  datatype ActorEvent =
    | OperationResultEvent(opId: u32, operation: Op, result: Result, success: bool, error: Option<VerifyError>)
    | DebugEvent
    | Panicked

  /** The limit check of a charge, at a card as at an account. */
  predicate Exceeds(limit: Option<real>, consumed: real, amount: real) {
    limit.Some? && consumed + amount > limit.value
  }

  /** A limit may be removed, or set to anything not below what is already consumed. */
  predicate CanSetLimit(newLimit: Option<real>, consumed: real) {
    newLimit.Some? ==> newLimit.value >= consumed
  }

  /** The address of an actor that is not the router, seen as the messages sent to it. */
  class Mailbox<T> {
    var queue: seq<T>

    constructor ()
      ensures queue == []
    {
      queue := [];
    }

    method DoSend(msg: T)
      modifies this
      ensures queue == old(queue) + [msg]
    {
      queue := queue + [msg];
    }
  }
}
