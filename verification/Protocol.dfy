/**
 The values every layer exchanges: addresses, operations, operation results and
 database snapshots. `A` is the type of an amount: the ledger computes with exact
 reals, the wire codec moves raw 32-bit patterns.
 */
module Protocol {
  import opened Wrappers

  type u8 = x: int | 0 <= x < 0x100
  type u16 = x: int | 0 <= x < 0x1_0000
  type u32 = x: int | 0 <= x < 0x1_0000_0000
  type u64 = x: int | 0 <= x < 0x1_0000_0000_0000_0000

  datatype SocketAddr =
    | V4(a: u8, b: u8, c: u8, d: u8, port: u16)
    | V6(segments: seq<u16>, port: u16)

  /** A card is identified by its account and its id inside that account. */
  datatype CardKey = CardKey(account: u64, card: u64)

  datatype AccountSnapshot<A> = AccountSnapshot(accountId: u64, limit: Option<A>, consumed: A)

  datatype CardSnapshot<A> = CardSnapshot(accountId: u64, cardId: u64, limit: Option<A>, consumed: A)

  datatype DatabaseSnapshot<A> = DatabaseSnapshot(
    addr: SocketAddr,
    accounts: seq<AccountSnapshot<A>>,
    cards: seq<CardSnapshot<A>>)

  /** The period of a bill is a string, given here by its UTF-8 bytes. */
  datatype Operation<A> =
    | Charge(accountId: u64, cardId: u64, amount: A, fromOfflineStation: bool)
    | LimitAccount(accountId: u64, newLimit: Option<A>)
    | LimitCard(accountId: u64, cardId: u64, newLimit: Option<A>)
    | AccountQuery(accountId: u64)
    | Bill(accountId: u64, period: Option<seq<u8>>)
    | GetDatabase(addr: SocketAddr)
    | ReplaceDatabase(snapshot: DatabaseSnapshot<A>)

  datatype LimitCheckError = CardLimitExceeded | AccountLimitExceeded

  datatype LimitUpdateError = BelowCurrentUsage

  datatype VerifyError = ChargeLimit(check: LimitCheckError) | LimitUpdate(update: LimitUpdateError)

  /** `Ok` or `Failed` outcome of a charge or of a limit change. */
  datatype Outcome = Ok | Failed(error: VerifyError)

  datatype OperationResult<A> =
    | ChargeResult(outcome: Outcome)
    | LimitAccountResult(outcome: Outcome)
    | LimitCardResult(outcome: Outcome)
    | AccountQueryResult(accountId: u64, totalSpent: A, perCardSpent: seq<(u64, A)>)
    | DatabaseSnapshotResult(snapshot: DatabaseSnapshot<A>)
    | ReplaceDatabaseResult

  datatype NodeRole = LeaderRole | ReplicaRole | StationRole

  datatype Message<A> =
    | Request(reqId: u32, addr: SocketAddr, op: Operation<A>)
    | Response(reqId: u32, opResult: OperationResult<A>)
    | Log(opId: u32, op: Operation<A>)
    | Ack(opId: u32)
    | Election(candidateId: u64, candidateAddr: SocketAddr)
    | ElectionOk(responderId: u64)
    | Coordinator(leaderId: u64, leaderAddr: SocketAddr)
    | Join(addr: SocketAddr)
    | ClusterView(members: seq<(u64, SocketAddr)>, leaderAddr: SocketAddr, database: DatabaseSnapshot<A>)
    | ClusterUpdate(newMember: (u64, SocketAddr))
    | RoleQuery(addr: SocketAddr)
    | RoleResponse(nodeId: u64, role: NodeRole)
}
