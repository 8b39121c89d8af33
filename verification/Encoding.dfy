/**
 The wire encoder. Amounts are 32-bit patterns; the functions say what the bytes are, and
 the methods build them as the program does, one field after the other.
 */
module Encoding {
  import opened Wrappers
  import opened Protocol
  import opened Bytes
  import Utf8

  type Amount = u32
  type WireOp = Operation<Amount>
  type WireResult = OperationResult<Amount>
  type WireMsg = Message<Amount>
  type WireDump = DatabaseSnapshot<Amount>

  const REQUEST: byte := 0x00
  const LOG: byte := 0x01
  const ACK: byte := 0x02
  const JOIN: byte := 0x03
  const CLUSTER_VIEW: byte := 0x04
  const CLUSTER_UPDATE: byte := 0x05
  const RESPONSE: byte := 0x06
  const ROLE_QUERY: byte := 0x07
  const ROLE_RESPONSE: byte := 0x08
  const ELECTION: byte := 0x09
  const ELECTION_OK: byte := 0x0A
  const COORDINATOR: byte := 0x0B

  const OP_CHARGE: byte := 0x00
  const OP_LIMIT_CARD: byte := 0x01
  const OP_LIMIT_ACCOUNT: byte := 0x02
  const OP_QUERY: byte := 0x03
  const OP_BILL: byte := 0x06
  const OP_GET_DATABASE: byte := 0x07
  const OP_REPLACE_DATABASE: byte := 0x08

  const CHARGE_RESULT: byte := 0x00
  const LIMIT_ACCOUNT_RESULT: byte := 0x02
  const LIMIT_CARD_RESULT: byte := 0x03
  const QUERY_RESULT: byte := 0x04
  const DATABASE_SNAPSHOT: byte := 0x05
  const REPLACE_DATABASE: byte := 0x06

  const LIMIT_UPDATE_ERR: byte := 0x00
  const CHARGE_LIMIT_ERR: byte := 0x01
  const BELOW_USAGE: byte := 0x00
  const CARD_EXCEEDED: byte := 0x01
  const ACCOUNT_EXCEEDED: byte := 0x02

  const TRUE: byte := 0x01
  const FALSE: byte := 0x00
  const OK: byte := 0x02
  const ERR: byte := 0x03

  /** The bits of -1.0, which stand for the absence of a limit. */
  const NO_LIMIT: Amount := 0xBF80_0000

  // ---- what the source can encode: it panics on IPv6, and periods are UTF-8 strings ----

  predicate Counted<T>(xs: seq<T>) {
    |xs| < 0x1_0000_0000_0000_0000
  }

  predicate DumpEncodable(s: WireDump) {
    s.addr.V4? && Counted(s.accounts) && Counted(s.cards)
  }

  predicate OpEncodable(op: WireOp) {
    match op
    case Bill(_, period) => period.Some? ==> Utf8.Valid(period.value)
    case GetDatabase(addr) => addr.V4?
    case ReplaceDatabase(s) => DumpEncodable(s)
    case _ => true
  }

  predicate ResultEncodable(r: WireResult) {
    match r
    case AccountQueryResult(_, _, spent) => Counted(spent)
    case DatabaseSnapshotResult(s) => DumpEncodable(s)
    case _ => true
  }

  predicate Encodable(m: WireMsg) {
    match m
    case Request(_, addr, op) => addr.V4? && OpEncodable(op)
    case Response(_, r) => ResultEncodable(r)
    case Log(_, op) => OpEncodable(op)
    case Ack(_) => true
    case Election(_, addr) => addr.V4?
    case ElectionOk(_) => true
    case Coordinator(_, addr) => addr.V4?
    case Join(addr) => addr.V4?
    case ClusterView(members, addr, s) => Counted(members) && (forall x :: x in members ==> x.1.V4?) && addr.V4? && DumpEncodable(s)
    case ClusterUpdate(x) => x.1.V4?
    case RoleQuery(addr) => addr.V4?
    case RoleResponse(_, _) => true
  }

  // ---- the bytes ----

  function AddrBytes(addr: SocketAddr): seq<byte>
    requires addr.V4?
  {
    [addr.a, addr.b, addr.c, addr.d] + ToBytes(addr.port, 2)
  }

  function LimitBytes(limit: Option<Amount>): seq<byte> {
    ToBytes(if limit.Some? then limit.value else NO_LIMIT, 4)
  }

  function AccountBytes(s: AccountSnapshot<Amount>): seq<byte> {
    ToBytes(s.accountId, 8) + LimitBytes(s.limit) + ToBytes(s.consumed, 4)
  }

  function CardBytes(s: CardSnapshot<Amount>): seq<byte> {
    ToBytes(s.accountId, 8) + ToBytes(s.cardId, 8) + LimitBytes(s.limit) + ToBytes(s.consumed, 4)
  }

  function SpentBytes(spent: (u64, Amount)): seq<byte> {
    ToBytes(spent.0, 8) + ToBytes(spent.1, 4)
  }

  function MemberBytes(member: (u64, SocketAddr)): seq<byte>
    requires member.1.V4?
  {
    ToBytes(member.0, 8) + AddrBytes(member.1)
  }

  /** The encodings of a list's elements, one after the other. */
  function Flat<T>(xs: seq<T>, f: T --> seq<byte>): seq<byte>
    requires forall x :: x in xs ==> f.requires(x)
  {
    if xs == [] then [] else Flat(xs[..|xs| - 1], f) + f(xs[|xs| - 1])
  }

  function DumpBytes(s: WireDump): seq<byte>
    requires s.addr.V4?
  {
    AddrBytes(s.addr)
    + ToBytes(|s.accounts|, 8) + Flat(s.accounts, AccountBytes)
    + ToBytes(|s.cards|, 8) + Flat(s.cards, CardBytes)
  }

  /** The length of a period is written in one byte, whatever it is. */
  function PeriodBytes(period: Option<seq<byte>>): seq<byte> {
    if period.None? then [0] else [|period.value| % 256] + period.value
  }

  function OpBytes(op: WireOp): seq<byte>
    requires OpEncodable(op)
  {
    match op
    case Charge(a, c, amount, fromOffline) =>
      [OP_CHARGE] + ToBytes(a, 8) + ToBytes(c, 8) + ToBytes(amount, 4) + [if fromOffline then TRUE else FALSE]
    case LimitAccount(a, limit) => [OP_LIMIT_ACCOUNT] + ToBytes(a, 8) + LimitBytes(limit)
    case LimitCard(a, c, limit) => [OP_LIMIT_CARD] + ToBytes(a, 8) + ToBytes(c, 8) + LimitBytes(limit)
    case AccountQuery(a) => [OP_QUERY] + ToBytes(a, 8)
    case Bill(a, period) => [OP_BILL] + ToBytes(a, 8) + PeriodBytes(period)
    case GetDatabase(addr) => [OP_GET_DATABASE] + AddrBytes(addr)
    case ReplaceDatabase(s) => [OP_REPLACE_DATABASE] + DumpBytes(s)
  }

  function ErrorBytes(error: VerifyError): seq<byte> {
    match error
    case LimitUpdate(BelowCurrentUsage) => [LIMIT_UPDATE_ERR, BELOW_USAGE]
    case ChargeLimit(CardLimitExceeded) => [CHARGE_LIMIT_ERR, CARD_EXCEEDED]
    case ChargeLimit(AccountLimitExceeded) => [CHARGE_LIMIT_ERR, ACCOUNT_EXCEEDED]
  }

  function OutcomeBytes(outcome: Outcome): seq<byte> {
    if outcome.Ok? then [OK] else [ERR] + ErrorBytes(outcome.error)
  }

  function ResultBytes(r: WireResult): seq<byte>
    requires ResultEncodable(r)
  {
    match r
    case ChargeResult(outcome) => [CHARGE_RESULT] + OutcomeBytes(outcome)
    case LimitAccountResult(outcome) => [LIMIT_ACCOUNT_RESULT] + OutcomeBytes(outcome)
    case LimitCardResult(outcome) => [LIMIT_CARD_RESULT] + OutcomeBytes(outcome)
    case AccountQueryResult(a, total, spent) =>
      [QUERY_RESULT] + ToBytes(a, 8) + ToBytes(total, 4) + ToBytes(|spent|, 8) + Flat(spent, SpentBytes)
    case DatabaseSnapshotResult(s) => [DATABASE_SNAPSHOT] + DumpBytes(s)
    case ReplaceDatabaseResult => [REPLACE_DATABASE]
  }

  function RoleByte(role: NodeRole): byte {
    match role
    case LeaderRole => 0
    case ReplicaRole => 1
    case StationRole => 2
  }

  function MessageBytes(m: WireMsg): seq<byte>
    requires Encodable(m)
  {
    match m
    case Request(reqId, addr, op) => [REQUEST] + ToBytes(reqId, 4) + AddrBytes(addr) + OpBytes(op)
    case Response(reqId, r) => [RESPONSE] + ToBytes(reqId, 4) + ResultBytes(r)
    case Log(opId, op) => [LOG] + ToBytes(opId, 4) + OpBytes(op)
    case Ack(opId) => [ACK] + ToBytes(opId, 4)
    case Election(id, addr) => [ELECTION] + ToBytes(id, 8) + AddrBytes(addr)
    case ElectionOk(id) => [ELECTION_OK] + ToBytes(id, 8)
    case Coordinator(id, addr) => [COORDINATOR] + ToBytes(id, 8) + AddrBytes(addr)
    case Join(addr) => [JOIN] + AddrBytes(addr)
    case ClusterView(members, addr, s) =>
      [CLUSTER_VIEW] + ToBytes(|members|, 8) + Flat(members, MemberBytes) + AddrBytes(addr) + DumpBytes(s)
    case ClusterUpdate(member) => [CLUSTER_UPDATE] + MemberBytes(member)
    case RoleQuery(addr) => [ROLE_QUERY] + AddrBytes(addr)
    case RoleResponse(id, role) => [ROLE_RESPONSE] + ToBytes(id, 8) + [RoleByte(role)]
  }

  // ---- the encoders with loops ----

  lemma FlatNext<T>(xs: seq<T>, i: nat, f: T --> seq<byte>)
    requires i < |xs| && forall x :: x in xs ==> f.requires(x)
    ensures Flat(xs[..i + 1], f) == Flat(xs[..i], f) + f(xs[i])
  {
    assert xs[..i + 1][..i] == xs[..i];
  }

  method SerializeDump(s: WireDump) returns (srl: seq<byte>)
    requires DumpEncodable(s)
    ensures srl == DumpBytes(s)
  {
    var accountsSrl: seq<byte> := [];
    for i := 0 to |s.accounts|
      invariant accountsSrl == Flat(s.accounts[..i], AccountBytes)
    {
      FlatNext(s.accounts, i, AccountBytes);
      accountsSrl := accountsSrl + AccountBytes(s.accounts[i]);
    }
    assert s.accounts[..|s.accounts|] == s.accounts;
    var cardsSrl: seq<byte> := [];
    for i := 0 to |s.cards|
      invariant cardsSrl == Flat(s.cards[..i], CardBytes)
    {
      FlatNext(s.cards, i, CardBytes);
      cardsSrl := cardsSrl + CardBytes(s.cards[i]);
    }
    assert s.cards[..|s.cards|] == s.cards;
    srl := AddrBytes(s.addr);
    srl := srl + ToBytes(|s.accounts|, 8);
    srl := srl + accountsSrl;
    srl := srl + ToBytes(|s.cards|, 8);
    srl := srl + cardsSrl;
  }

  method SerializeQueryResult(a: u64, total: Amount, spent: seq<(u64, Amount)>) returns (srl: seq<byte>)
    requires Counted(spent)
    ensures srl == ResultBytes(AccountQueryResult(a, total, spent))
  {
    srl := [QUERY_RESULT];
    srl := srl + ToBytes(a, 8);
    srl := srl + ToBytes(total, 4);
    srl := srl + ToBytes(|spent|, 8);
    ghost var head := srl;
    for i := 0 to |spent|
      invariant srl == head + Flat(spent[..i], SpentBytes)
    {
      FlatNext(spent, i, SpentBytes);
      srl := srl + SpentBytes(spent[i]);
    }
    assert spent[..|spent|] == spent;
  }

  method SerializeClusterView(members: seq<(u64, SocketAddr)>, leaderAddr: SocketAddr, database: WireDump) returns (srl: seq<byte>)
    requires Encodable(ClusterView(members, leaderAddr, database))
    ensures srl == MessageBytes(ClusterView(members, leaderAddr, database))
  {
    hide DumpBytes, AddrBytes, MemberBytes, ToBytes;
    var databaseSrl := SerializeDump(database);
    srl := [CLUSTER_VIEW];
    srl := srl + ToBytes(|members|, 8);
    ghost var head := srl;
    for i := 0 to |members|
      invariant srl == head + Flat(members[..i], MemberBytes)
    {
      FlatNext(members, i, MemberBytes);
      srl := srl + MemberBytes(members[i]);
    }
    assert members[..|members|] == members;
    srl := srl + AddrBytes(leaderAddr);
    srl := srl + databaseSrl;
  }

  // ---- the encoders that extend a buffer field by field ----

  method SerializeBill(a: u64, period: Option<seq<byte>>) returns (srl: seq<byte>)
    ensures srl == [OP_BILL] + ToBytes(a, 8) + PeriodBytes(period)
  {
    srl := [OP_BILL];
    srl := srl + ToBytes(a, 8);
    if period.Some? {
      ghost var head := srl;
      srl := srl + [|period.value| % 256];
      srl := srl + period.value;
      assert srl == head + ([|period.value| % 256] + period.value);
    } else {
      srl := srl + [0];
    }
  }

  method SerializeCharge(a: u64, c: u64, amount: u32, fromOffline: bool) returns (srl: seq<byte>)
    ensures srl == [OP_CHARGE] + ToBytes(a, 8) + ToBytes(c, 8) + ToBytes(amount, 4) + [if fromOffline then TRUE else FALSE]
  {
    hide ToBytes;
    srl := [OP_CHARGE];
    srl := srl + ToBytes(a, 8);
    srl := srl + ToBytes(c, 8);
    srl := srl + ToBytes(amount, 4);
    srl := srl + [if fromOffline then TRUE else FALSE];
  }

  method SerializeLimitCard(a: u64, c: u64, limit: Option<u32>) returns (srl: seq<byte>)
    ensures srl == [OP_LIMIT_CARD] + ToBytes(a, 8) + ToBytes(c, 8) + LimitBytes(limit)
  {
    hide ToBytes, LimitBytes;
    srl := [OP_LIMIT_CARD];
    srl := srl + ToBytes(a, 8);
    srl := srl + ToBytes(c, 8);
    srl := srl + LimitBytes(limit);
  }

  method SerializeOperation(op: WireOp) returns (srl: seq<byte>)
    requires OpEncodable(op)
    ensures srl == OpBytes(op)
  {
    hide DumpBytes, AddrBytes, LimitBytes, PeriodBytes, ToBytes;
    srl := [];
    match op {
      case Charge(a, c, amount, fromOffline) =>
        srl := SerializeCharge(a, c, amount, fromOffline);
      case LimitAccount(a, limit) =>
        srl := srl + [OP_LIMIT_ACCOUNT];
        srl := srl + ToBytes(a, 8);
        srl := srl + LimitBytes(limit);
      case LimitCard(a, c, limit) =>
        srl := SerializeLimitCard(a, c, limit);
      case AccountQuery(a) =>
        srl := srl + [OP_QUERY];
        srl := srl + ToBytes(a, 8);
      case Bill(a, period) =>
        srl := SerializeBill(a, period);
      case GetDatabase(addr) =>
        srl := srl + [OP_GET_DATABASE];
        srl := srl + AddrBytes(addr);
      case ReplaceDatabase(snapshot) =>
        var snapshotSrl := SerializeDump(snapshot);
        srl := srl + [OP_REPLACE_DATABASE];
        srl := srl + snapshotSrl;
    }
  }

  method SerializeResult(r: WireResult) returns (srl: seq<byte>)
    requires ResultEncodable(r)
    ensures srl == ResultBytes(r)
  {
    match r {
      case ChargeResult(outcome) =>
        srl := [CHARGE_RESULT];
        srl := srl + OutcomeBytes(outcome);
      case LimitAccountResult(outcome) =>
        srl := [LIMIT_ACCOUNT_RESULT];
        srl := srl + OutcomeBytes(outcome);
      case LimitCardResult(outcome) =>
        srl := [LIMIT_CARD_RESULT];
        srl := srl + OutcomeBytes(outcome);
      case AccountQueryResult(a, total, spent) =>
        srl := SerializeQueryResult(a, total, spent);
      case DatabaseSnapshotResult(snapshot) =>
        var snapshotSrl := SerializeDump(snapshot);
        srl := [DATABASE_SNAPSHOT];
        srl := srl + snapshotSrl;
      case ReplaceDatabaseResult =>
        srl := [REPLACE_DATABASE];
    }
  }

  method SerializeMessage(m: WireMsg) returns (srl: seq<byte>)
    requires Encodable(m)
    ensures srl == MessageBytes(m)
  {
    match m {
      case Request(reqId, addr, op) =>
        var opSrl := SerializeOperation(op);
        srl := [REQUEST];
        srl := srl + ToBytes(reqId, 4);
        srl := srl + AddrBytes(addr);
        srl := srl + opSrl;
      case Response(reqId, r) =>
        var resultSrl := SerializeResult(r);
        srl := [RESPONSE];
        srl := srl + ToBytes(reqId, 4);
        srl := srl + resultSrl;
      case Log(opId, op) =>
        var opSrl := SerializeOperation(op);
        srl := [LOG];
        srl := srl + ToBytes(opId, 4);
        srl := srl + opSrl;
      case Ack(opId) =>
        srl := [ACK];
        srl := srl + ToBytes(opId, 4);
      case Election(id, addr) =>
        srl := [ELECTION];
        srl := srl + ToBytes(id, 8);
        srl := srl + AddrBytes(addr);
      case ElectionOk(id) =>
        srl := [ELECTION_OK];
        srl := srl + ToBytes(id, 8);
      case Coordinator(id, addr) =>
        srl := [COORDINATOR];
        srl := srl + ToBytes(id, 8);
        srl := srl + AddrBytes(addr);
      case Join(addr) =>
        srl := [JOIN];
        srl := srl + AddrBytes(addr);
      case ClusterView(members, addr, snapshot) =>
        srl := SerializeClusterView(members, addr, snapshot);
      case ClusterUpdate(member) =>
        srl := [CLUSTER_UPDATE];
        srl := srl + MemberBytes(member);
      case RoleQuery(addr) =>
        srl := [ROLE_QUERY];
        srl := srl + AddrBytes(addr);
      case RoleResponse(id, role) =>
        srl := [ROLE_RESPONSE];
        srl := srl + ToBytes(id, 8);
        srl := srl + [RoleByte(role)];
    }
  }
}
