/**
 What the decoder makes of an encoded message, exactly: the message itself, but for limits
 of -1.0 and empty periods, which are lost, and for the few variants it cannot read.
 */
module RoundTrips {
  import opened Wrappers
  import opened Protocol
  import opened Bytes
  import opened Encoding
  import opened Decoding
  import Utf8

  // ---- what is lost ----

  /** A limit of -1.0, whose bits are 0xBF800000, reads as no limit. */
  function BlurLimit(limit: Option<Amount>): Option<Amount> {
    if limit == Some(0xBF80_0000) then None else limit
  }

  function BlurAccount(s: AccountSnapshot<Amount>): AccountSnapshot<Amount> {
    s.(limit := BlurLimit(s.limit))
  }

  function BlurCard(s: CardSnapshot<Amount>): CardSnapshot<Amount> {
    s.(limit := BlurLimit(s.limit))
  }

  function BlurAll<T>(xs: seq<T>, f: T -> T): (ys: seq<T>)
    ensures |ys| == |xs| && forall i :: 0 <= i < |xs| ==> ys[i] == f(xs[i])
  {
    seq(|xs|, i requires 0 <= i < |xs| => f(xs[i]))
  }

  function BlurDump(s: WireDump): WireDump {
    DatabaseSnapshot(s.addr, BlurAll(s.accounts, BlurAccount), BlurAll(s.cards, BlurCard))
  }

  /** What an encoded operation reads as: the length byte of a period must be ASCII. */
  function ReadOp(op: WireOp): Decoded<WireOp> {
    match op
    case LimitAccount(a, limit) => Good(LimitAccount(a, BlurLimit(limit)))
    case LimitCard(a, c, limit) => Good(LimitCard(a, c, BlurLimit(limit)))
    case Bill(a, period) =>
      if period.None? || period.value == [] then Good(Bill(a, None))
      else if |period.value| % 256 >= 0x80 then Invalid
      else Good(op)
    case ReplaceDatabase(s) => Good(ReplaceDatabase(BlurDump(s)))
    case _ => Good(op)
  }

  function ReadResult(r: WireResult): Decoded<WireResult> {
    match r
    case LimitCardResult(outcome) => if outcome.Ok? then Good(r) else Panic
    case DatabaseSnapshotResult(_) => Invalid
    case ReplaceDatabaseResult => Invalid
    case _ => Good(r)
  }

  function ReadMessage(m: WireMsg): Decoded<WireMsg> {
    match m
    case Request(reqId, addr, op) =>
      var op' :- ReadOp(op);
      Good(Request(reqId, addr, op'))
    case Log(opId, op) =>
      var op' :- ReadOp(op);
      Good(Log(opId, op'))
    case Response(reqId, r) =>
      var r' :- ReadResult(r);
      Good(Response(reqId, r'))
    case ClusterView(members, addr, s) => Good(ClusterView(members, addr, BlurDump(s)))
    case RoleResponse(_, _) => Invalid
    case _ => Good(m)
  }

  // ---- fields ----

  lemma Field64(n: u64, rest: seq<byte>)
    ensures ReadU64(ToBytes(n, 8) + rest) == n && DecodeId(ToBytes(n, 8) + rest) == Good(n)
  {
    Widths();
    ReadsHead(n, 8, rest);
  }

  lemma Field32(n: u32, rest: seq<byte>)
    ensures ReadU32(ToBytes(n, 4) + rest) == n && DecodeAmount(ToBytes(n, 4) + rest) == Good(n) && DecodeOpId(ToBytes(n, 4) + rest) == Good(n)
  {
    Widths();
    ReadsHead(n, 4, rest);
  }

  lemma FieldLimit(limit: Option<Amount>, rest: seq<byte>)
    ensures ReadLimit(LimitBytes(limit) + rest) == BlurLimit(limit) && DecodeLimit(LimitBytes(limit) + rest) == Good(BlurLimit(limit))
  {
    Field32(if limit.Some? then limit.value else NO_LIMIT, rest);
  }

  lemma FieldAddr(addr: SocketAddr, rest: seq<byte>)
    requires addr.V4?
    ensures |AddrBytes(addr)| == 6 && ReadAddr(AddrBytes(addr) + rest) == addr && DecodeAddr(AddrBytes(addr) + rest) == Good(addr)
  {
    Widths();
    ReadsHead(addr.port, 2, []);
    assert (AddrBytes(addr) + rest)[4..6] == ToBytes(addr.port, 2);
    assert ToBytes(addr.port, 2) + [] == ToBytes(addr.port, 2);
    assert ToBytes(addr.port, 2)[..2] == ToBytes(addr.port, 2);
  }

  // ---- records ----

  lemma Behind(a: seq<byte>, b: seq<byte>, i: nat)
    ensures i <= |b| ==> (a + b)[|a| + i..] == b[i..]
  {
  }

  lemma AccountParts(s: AccountSnapshot<Amount>, rest: seq<byte>)
    ensures |AccountBytes(s)| == 16
    ensures var p := AccountBytes(s) + rest;
      && p == ToBytes(s.accountId, 8) + p[8..]
      && p[8..] == LimitBytes(s.limit) + p[12..]
      && p[12..] == ToBytes(s.consumed, 4) + rest
  {
    hide ToBytes;
    var a, b, c := ToBytes(s.accountId, 8), LimitBytes(s.limit), ToBytes(s.consumed, 4);
    assert |b| == 4;
    assert AccountBytes(s) + rest == a + (b + (c + rest));
    Behind(a, b + (c + rest), 4);
    Behind(b, c + rest, 0);
  }

  lemma AccountReads(s: AccountSnapshot<Amount>, rest: seq<byte>)
    ensures |AccountBytes(s)| == 16 && DecodeAccount(AccountBytes(s) + rest) == Good(BlurAccount(s))
  {
    hide AccountBytes, ReadU32, ReadU64, ReadLimit, ToBytes, LimitBytes;
    var p := AccountBytes(s) + rest;
    AccountParts(s, rest);
    Field64(s.accountId, p[8..]);
    FieldLimit(s.limit, p[12..]);
    Field32(s.consumed, rest);
  }

  lemma CardParts(s: CardSnapshot<Amount>, rest: seq<byte>)
    ensures |CardBytes(s)| == 24
    ensures var p := CardBytes(s) + rest;
      && p == ToBytes(s.accountId, 8) + p[8..]
      && p[8..] == ToBytes(s.cardId, 8) + p[16..]
      && p[16..] == LimitBytes(s.limit) + p[20..]
      && p[20..] == ToBytes(s.consumed, 4) + rest
  {
    hide ToBytes;
    var a, b, c, d := ToBytes(s.accountId, 8), ToBytes(s.cardId, 8), LimitBytes(s.limit), ToBytes(s.consumed, 4);
    assert |c| == 4;
    assert CardBytes(s) + rest == a + (b + (c + (d + rest)));
    Behind(a, b + (c + (d + rest)), 8);
    Behind(a, b + (c + (d + rest)), 12);
    Behind(b, c + (d + rest), 0);
    Behind(b, c + (d + rest), 4);
    Behind(c, d + rest, 0);
  }

  lemma CardReads(s: CardSnapshot<Amount>, rest: seq<byte>)
    ensures |CardBytes(s)| == 24 && DecodeCard(CardBytes(s) + rest) == Good(BlurCard(s))
  {
    hide CardBytes, ReadU32, ReadU64, ReadLimit, ToBytes, LimitBytes;
    var p := CardBytes(s) + rest;
    CardParts(s, rest);
    Field64(s.accountId, p[8..]);
    Field64(s.cardId, p[16..]);
    FieldLimit(s.limit, p[20..]);
    Field32(s.consumed, rest);
  }

  lemma SpentReads(spent: (u64, Amount), rest: seq<byte>)
    ensures |SpentBytes(spent)| == 12 && DecodeSpent(SpentBytes(spent) + rest) == Good(spent)
  {
    var p := SpentBytes(spent) + rest;
    Field64(spent.0, p[8..]);
    Field32(spent.1, rest);
    assert p == ToBytes(spent.0, 8) + p[8..];
    assert p[8..] == ToBytes(spent.1, 4) + rest;
    hide ReadU32, ReadU64, ToBytes;
  }

  lemma MemberReads(member: (u64, SocketAddr), rest: seq<byte>)
    requires member.1.V4?
    ensures |MemberBytes(member)| == 14 && DecodeMember(MemberBytes(member) + rest) == Good(member)
    ensures ReadU64(MemberBytes(member) + rest) == member.0 && ReadAddr((MemberBytes(member) + rest)[8..]) == member.1
  {
    var p := MemberBytes(member) + rest;
    Field64(member.0, p[8..]);
    FieldAddr(member.1, rest);
    assert p == ToBytes(member.0, 8) + p[8..];
    assert p[8..] == AddrBytes(member.1) + rest;
    hide ReadU64, ReadAddr, ToBytes, AddrBytes;
  }

  // ---- lists ----

  lemma FlatNothing<T>(f: T --> seq<byte>)
    ensures Flat([], f) == []
  {
  }

  lemma Rebracket(a: seq<byte>, b: seq<byte>, c: seq<byte>)
    ensures (a + b) + c == a + (b + c)
  {
  }

  lemma {:induction false} FlatHead<T>(xs: seq<T>, f: T --> seq<byte>)
    requires xs != [] && forall x :: x in xs ==> f.requires(x)
    ensures Flat(xs, f) == f(xs[0]) + Flat(xs[1..], f)
    decreases |xs|
  {
    hide Flat;
    if |xs| > 1 {
      var n := |xs| - 1;
      FlatHead(xs[..n], f);
      FlatNext(xs, n, f);
      FlatNext(xs[1..], n - 1, f);
      assert xs[..n + 1] == xs && xs[1..][..n] == xs[1..];
      assert xs[1..][..n - 1] == xs[..n][1..];
      Rebracket(f(xs[0]), Flat(xs[..n][1..], f), f(xs[n]));
    } else {
      FlatNext(xs, 0, f);
      FlatNothing(f);
      assert xs[..1] == xs && xs[..0] == [] && xs[1..] == [];
      assert xs[..0] == [] && xs[1..] == [];
      assert f(xs[0]) + [] == [] + f(xs[0]) == f(xs[0]);
    }
  }

  lemma {:induction false} FlatSize<T>(xs: seq<T>, size: nat, f: T --> seq<byte>)
    requires forall x :: x in xs ==> f.requires(x) && |f(x)| == size
    ensures |Flat(xs, f)| == |xs| * size
    decreases |xs|
  {
    if xs != [] {
      FlatSize(xs[..|xs| - 1], size, f);
      assert (|xs| - 1) * size + size == |xs| * size;
    }
  }

  lemma BlurHead<T>(xs: seq<T>, blur: T -> T)
    requires xs != []
    ensures BlurAll(xs, blur) == [blur(xs[0])] + BlurAll(xs[1..], blur)
  {
  }

  /** A list of records is read back record by record. */
  lemma {:induction false} ManyReads<T>(xs: seq<T>, rest: seq<byte>, size: nat, f: T --> seq<byte>, g: seq<byte> -> Decoded<T>, blur: T -> T)
    requires forall q: seq<byte> :: g(q).Good? ==> |q| >= size
    requires forall x :: x in xs ==> f.requires(x) && |f(x)| == size
    requires forall x, tail: seq<byte> :: x in xs ==> g(f(x) + tail) == Good(blur(x))
    ensures DecodeMany(Flat(xs, f) + rest, |xs|, size, g) == Good(BlurAll(xs, blur))
    decreases |xs|
  {
    hide BlurAll, Flat;
    if xs == [] {
      NothingToRead(rest, size, f, g, blur);
    } else {
      var tail := Flat(xs[1..], f) + rest;
      FlatHead(xs, f);
      ManyReads(xs[1..], rest, size, f, g, blur);
      assert Flat(xs, f) + rest == f(xs[0]) + tail;
      assert (f(xs[0]) + tail)[size..] == tail;
      BlurHead(xs, blur);
    }
  }

  lemma NothingToRead<T>(rest: seq<byte>, size: nat, f: T --> seq<byte>, g: seq<byte> -> Decoded<T>, blur: T -> T)
    requires forall q: seq<byte> :: g(q).Good? ==> |q| >= size
    ensures DecodeMany(Flat([], f) + rest, 0, size, g) == Good(BlurAll([], blur))
  {
    assert BlurAll([], blur) == [];
  }

  function Same<T>(x: T): T {
    x
  }

  lemma SameAll<T>(xs: seq<T>)
    ensures BlurAll(xs, Same) == xs
  {
  }

  // ---- snapshots ----

  lemma DumpReads(s: WireDump)
    requires DumpEncodable(s)
    ensures DecodeDump(DumpBytes(s)) == Good(BlurDump(s))
  {
    hide DecodeAccount, DecodeCard, AccountBytes, CardBytes, BlurAccount, BlurCard, BlurAll, DecodeMany, Flat, ToBytes, AddrBytes;
    var p := DumpBytes(s);
    var accounts, cards := Flat(s.accounts, AccountBytes), Flat(s.cards, CardBytes);
    var p1 := ToBytes(|s.accounts|, 8) + accounts + ToBytes(|s.cards|, 8) + cards;
    var p3 := ToBytes(|s.cards|, 8) + cards;
    var p2 := accounts + p3;
    FieldAddr(s.addr, p1);
    assert p == AddrBytes(s.addr) + p1;
    assert p[6..] == p1;
    Field64(|s.accounts|, p2);
    assert p1 == ToBytes(|s.accounts|, 8) + p2;
    assert p[14..] == p2;
    AccountsRead(s.accounts, p3);
    assert p2[|s.accounts| * 16..] == p3;
    Field64(|s.cards|, cards);
    CardsRead(s.cards);
    assert p3[8..] == cards;
  }

  lemma AccountsRead(xs: seq<AccountSnapshot<Amount>>, rest: seq<byte>)
    ensures |Flat(xs, AccountBytes)| == |xs| * 16
    ensures DecodeMany(Flat(xs, AccountBytes) + rest, |xs|, 16, DecodeAccount) == Good(BlurAll(xs, BlurAccount))
  {
    forall x, tail: seq<byte> ensures |AccountBytes(x)| == 16 && DecodeAccount(AccountBytes(x) + tail) == Good(BlurAccount(x)) {
      AccountReads(x, tail);
    }
    FlatSize(xs, 16, AccountBytes);
    ManyReads(xs, rest, 16, AccountBytes, DecodeAccount, BlurAccount);
  }

  lemma CardsRead(xs: seq<CardSnapshot<Amount>>)
    ensures DecodeMany(Flat(xs, CardBytes), |xs|, 24, DecodeCard) == Good(BlurAll(xs, BlurCard))
  {
    forall x, tail: seq<byte> ensures |CardBytes(x)| == 24 && DecodeCard(CardBytes(x) + tail) == Good(BlurCard(x)) {
      CardReads(x, tail);
    }
    ManyReads(xs, [], 24, CardBytes, DecodeCard, BlurCard);
    assert Flat(xs, CardBytes) + [] == Flat(xs, CardBytes);
  }

  lemma MembersRead(xs: seq<(u64, SocketAddr)>, rest: seq<byte>)
    requires forall x :: x in xs ==> x.1.V4?
    ensures |Flat(xs, MemberBytes)| == |xs| * 14
    ensures DecodeMany(Flat(xs, MemberBytes) + rest, |xs|, 14, DecodeMember) == Good(xs)
  {
    forall x, tail: seq<byte> | x in xs ensures |MemberBytes(x)| == 14 && DecodeMember(MemberBytes(x) + tail) == Good(Same(x)) {
      MemberReads(x, tail);
    }
    forall x | x in xs ensures |MemberBytes(x)| == 14 {
      MemberReads(x, []);
    }
    FlatSize(xs, 14, MemberBytes);
    ManyReads(xs, rest, 14, MemberBytes, DecodeMember, Same);
    SameAll(xs);
  }

  lemma SpentsRead(xs: seq<(u64, Amount)>)
    ensures DecodeMany(Flat(xs, SpentBytes), |xs|, 12, DecodeSpent) == Good(xs)
  {
    forall x, tail: seq<byte> ensures |SpentBytes(x)| == 12 && DecodeSpent(SpentBytes(x) + tail) == Good(Same(x)) {
      SpentReads(x, tail);
    }
    ManyReads(xs, [], 12, SpentBytes, DecodeSpent, Same);
    SameAll(xs);
    assert Flat(xs, SpentBytes) + [] == Flat(xs, SpentBytes);
  }

  // ---- operations ----

  lemma ChargeReads(op: WireOp)
    requires op.Charge?
    ensures DecodeOp(OpBytes(op)) == Good(op)
  {
    hide ReadU32, ReadU64, ToBytes;
    var p := OpBytes(op)[1..];
    var flag := [if op.fromOfflineStation then TRUE else FALSE];
    Field64(op.accountId, p[8..]);
    Field64(op.cardId, p[16..]);
    Field32(op.amount, flag);
    assert p == ToBytes(op.accountId, 8) + p[8..];
    assert p[8..] == ToBytes(op.cardId, 8) + p[16..];
    assert p[16..] == ToBytes(op.amount, 4) + flag;
    assert p[20..] == flag;
  }

  lemma LimitReads(op: WireOp)
    requires op.LimitAccount? || op.LimitCard?
    ensures DecodeOp(OpBytes(op)) == ReadOp(op)
  {
    hide ReadLimit, ReadU64, ToBytes, LimitBytes, BlurLimit;
    var p := OpBytes(op)[1..];
    Field64(op.accountId, p[8..]);
    FieldLimit(op.newLimit, []);
    assert LimitBytes(op.newLimit) + [] == LimitBytes(op.newLimit);
    LimitSize(op.newLimit);
    assert p == ToBytes(op.accountId, 8) + p[8..];
    if op.LimitCard? {
      Field64(op.cardId, p[16..]);
      assert p[8..] == ToBytes(op.cardId, 8) + p[16..];
      assert p[16..] == LimitBytes(op.newLimit);
    } else {
      assert p[8..] == LimitBytes(op.newLimit);
    }
  }

  lemma LimitSize(limit: Option<Amount>)
    ensures |LimitBytes(limit)| == 4
  {
  }

  lemma BillReads(op: WireOp)
    requires op.Bill? && OpEncodable(op)
    ensures DecodeOp(OpBytes(op)) == ReadOp(op)
  {
    hide ReadU64, ToBytes, Utf8.Valid, Utf8.CharLen;
    var p, rest := OpBytes(op)[1..], PeriodBytes(op.period);
    Field64(op.accountId, rest);
    assert p == ToBytes(op.accountId, 8) + rest;
    assert p[8..] == rest;
    if op.period.Some? {
      Utf8.Prefixed(|op.period.value| % 256, op.period.value);
      assert rest[1..] == op.period.value;
    } else {
      NulIsValid();
    }
  }

  lemma NulIsValid()
    ensures Utf8.Valid([0])
  {
    assert [0 as byte][1..] == [];
  }

  lemma WholeOpReads(op: WireOp)
    requires OpEncodable(op) && (op.AccountQuery? || op.GetDatabase? || op.ReplaceDatabase?)
    ensures DecodeOp(OpBytes(op)) == ReadOp(op)
  {
    hide ReadU64, ReadAddr, ToBytes, AddrBytes, DumpBytes, DecodeDump, BlurDump;
    var p := OpBytes(op)[1..];
    match op {
      case AccountQuery(a) =>
        Field64(a, []);
        assert p == ToBytes(a, 8) + [];
      case GetDatabase(addr) =>
        FieldAddr(addr, []);
        assert p == AddrBytes(addr) + [];
      case ReplaceDatabase(s) =>
        DumpReads(s);
        assert p == DumpBytes(s);
    }
  }

  lemma OpReads(op: WireOp)
    requires OpEncodable(op)
    ensures DecodeOp(OpBytes(op)) == ReadOp(op)
  {
    match op {
      case Charge(_, _, _, _) => ChargeReads(op);
      case LimitAccount(_, _) => LimitReads(op);
      case LimitCard(_, _, _) => LimitReads(op);
      case Bill(_, _) => BillReads(op);
      case _ => WholeOpReads(op);
    }
    hide DecodeOp, OpBytes;
  }

  // ---- results ----

  lemma ErrorReads(error: VerifyError)
    ensures DecodeError(ErrorBytes(error)) == Good(error)
  {
    match error {
      case LimitUpdate(BelowCurrentUsage) =>
      case ChargeLimit(CardLimitExceeded) =>
      case ChargeLimit(AccountLimitExceeded) =>
    }
  }

  lemma OutcomeReads(outcome: Outcome)
    ensures DecodeOutcome(OutcomeBytes(outcome)) == Good(outcome)
  {
    if outcome.Failed? {
      ErrorReads(outcome.error);
      assert OutcomeBytes(outcome)[1..] == ErrorBytes(outcome.error);
    }
  }

  lemma QueryResultReads(r: WireResult)
    requires r.AccountQueryResult? && ResultEncodable(r)
    ensures DecodeResult(ResultBytes(r)) == Good(r)
  {
    hide ReadU64, ReadU32, ToBytes, DecodeSpent, SpentBytes, DecodeMany, Flat;
    var p, list := ResultBytes(r)[1..], Flat(r.perCardSpent, SpentBytes);
    Field64(r.accountId, p[8..]);
    Field32(r.totalSpent, p[12..]);
    Field64(|r.perCardSpent|, list);
    SpentsRead(r.perCardSpent);
    assert p == ToBytes(r.accountId, 8) + p[8..];
    assert p[8..] == ToBytes(r.totalSpent, 4) + p[12..];
    assert p[12..] == ToBytes(|r.perCardSpent|, 8) + list;
    assert p[20..] == list;
  }

  lemma ResultReads(r: WireResult)
    requires ResultEncodable(r)
    ensures DecodeResult(ResultBytes(r)) == ReadResult(r)
  {
    match r {
      case ChargeResult(outcome) =>
        OutcomeReads(outcome);
        assert ResultBytes(r)[1..] == OutcomeBytes(outcome);
      case LimitAccountResult(outcome) =>
        OutcomeReads(outcome);
        assert ResultBytes(r)[1..] == OutcomeBytes(outcome);
      case LimitCardResult(outcome) =>
        assert ResultBytes(r)[1..] == OutcomeBytes(outcome);
      case AccountQueryResult(_, _, _) => QueryResultReads(r);
      case DatabaseSnapshotResult(_) =>
      case ReplaceDatabaseResult =>
    }
  }

  // ---- messages ----

  lemma RequestReads(m: WireMsg)
    requires m.Request? && Encodable(m)
    ensures DecodeMessage(MessageBytes(m)) == ReadMessage(m)
  {
    hide ReadU32, ReadAddr, ToBytes, AddrBytes, OpBytes, DecodeOp, ReadOp;
    var p, op := MessageBytes(m)[1..], OpBytes(m.op);
    Field32(m.reqId, AddrBytes(m.addr) + op);
    FieldAddr(m.addr, op);
    OpReads(m.op);
    assert p == ToBytes(m.reqId, 4) + (AddrBytes(m.addr) + op);
    assert p[4..] == AddrBytes(m.addr) + op;
    assert p[10..] == op;
  }

  lemma LogReads(m: WireMsg)
    requires (m.Log? || m.Response?) && Encodable(m)
    ensures DecodeMessage(MessageBytes(m)) == ReadMessage(m)
  {
    hide ReadU32, ToBytes, OpBytes, DecodeOp, ReadOp, ResultBytes, DecodeResult, ReadResult;
    var p := MessageBytes(m);
    var rest := if m.Log? then OpBytes(m.op) else ResultBytes(m.opResult);
    Field32(if m.Log? then m.opId else m.reqId, rest);
    assert p[1..] == ToBytes(if m.Log? then m.opId else m.reqId, 4) + rest;
    assert p[5..] == rest;
    if m.Log? {
      OpReads(m.op);
    } else {
      ResultReads(m.opResult);
    }
  }

  lemma ViewReads(m: WireMsg)
    requires m.ClusterView? && Encodable(m)
    ensures DecodeMessage(MessageBytes(m)) == ReadMessage(m)
  {
    hide ReadU64, ReadAddr, ToBytes, AddrBytes, DumpBytes, DecodeDump, BlurDump, DecodeMany, Flat, DecodeMember, MemberBytes;
    var p, list, dump := MessageBytes(m)[1..], Flat(m.members, MemberBytes), DumpBytes(m.database);
    var q := AddrBytes(m.leaderAddr) + dump;
    Field64(|m.members|, list + q);
    MembersRead(m.members, q);
    FieldAddr(m.leaderAddr, dump);
    DumpReads(m.database);
    assert p == ToBytes(|m.members|, 8) + (list + q);
    assert p[8..] == list + q;
    assert p[8..][|m.members| * 14..] == q;
    assert q[6..] == dump;
  }

  lemma NodeReads(m: WireMsg)
    requires (m.Election? || m.Coordinator? || m.ElectionOk? || m.ClusterUpdate?) && Encodable(m)
    ensures DecodeMessage(MessageBytes(m)) == ReadMessage(m)
  {
    hide ReadU64, ReadAddr, ToBytes, AddrBytes;
    var p := MessageBytes(m)[1..];
    match m {
      case Election(id, addr) => MemberReads((id, addr), []);
      case Coordinator(id, addr) => MemberReads((id, addr), []);
      case ElectionOk(id) =>
        Field64(id, []);
        assert p == ToBytes(id, 8) + [];
      case ClusterUpdate(member) => MemberReads(member, []);
    }
    if !m.ElectionOk? {
      var member := if m.Election? then (m.candidateId, m.candidateAddr) else if m.Coordinator? then (m.leaderId, m.leaderAddr) else m.newMember;
      assert p == MemberBytes(member) + [];
      assert MessageBytes(m)[9..] == p[8..];
    }
  }

  /** What decoding an encoded message gives, for every message that can be encoded. */
  lemma MessageReads(m: WireMsg)
    requires Encodable(m)
    ensures DecodeMessage(MessageBytes(m)) == ReadMessage(m)
  {
    match m {
      case Request(_, _, _) => RequestReads(m);
      case Response(_, _) => LogReads(m);
      case Log(_, _) => LogReads(m);
      case ClusterView(_, _, _) => ViewReads(m);
      case Election(_, _) => NodeReads(m);
      case ElectionOk(_) => NodeReads(m);
      case Coordinator(_, _) => NodeReads(m);
      case ClusterUpdate(_) => NodeReads(m);
      case Ack(opId) =>
        Field32(opId, []);
        assert MessageBytes(m)[1..] == ToBytes(opId, 4) + [];
      case Join(addr) =>
        FieldAddr(addr, []);
        assert MessageBytes(m)[1..] == AddrBytes(addr) + [];
      case RoleQuery(addr) =>
        FieldAddr(addr, []);
        assert MessageBytes(m)[1..] == AddrBytes(addr) + [];
      case RoleResponse(_, _) =>
    }
  }

  // ---- exactly which messages survive ----

  predicate LimitKept(limit: Option<Amount>) {
    limit != Some(0xBF80_0000)
  }

  predicate DumpKept(s: WireDump) {
    (forall x :: x in s.accounts ==> LimitKept(x.limit)) && forall x :: x in s.cards ==> LimitKept(x.limit)
  }

  predicate OpKept(op: WireOp) {
    match op
    case LimitAccount(_, limit) => LimitKept(limit)
    case LimitCard(_, _, limit) => LimitKept(limit)
    case Bill(_, period) => period.None? || (|period.value| > 0 && |period.value| % 256 < 0x80)
    case ReplaceDatabase(s) => DumpKept(s)
    case _ => true
  }

  predicate ResultKept(r: WireResult) {
    !r.DatabaseSnapshotResult? && !r.ReplaceDatabaseResult? && (r.LimitCardResult? ==> r.outcome.Ok?)
  }

  predicate Kept(m: WireMsg) {
    match m
    case Request(_, _, op) => OpKept(op)
    case Log(_, op) => OpKept(op)
    case Response(_, r) => ResultKept(r)
    case ClusterView(_, _, s) => DumpKept(s)
    case RoleResponse(_, _) => false
    case _ => true
  }

  lemma BlurAccountsSame(xs: seq<AccountSnapshot<Amount>>)
    ensures BlurAll(xs, BlurAccount) == xs <==> forall x :: x in xs ==> LimitKept(x.limit)
  {
    if BlurAll(xs, BlurAccount) == xs {
      forall x | x in xs ensures LimitKept(x.limit) {
        var i :| 0 <= i < |xs| && xs[i] == x;
        assert BlurAll(xs, BlurAccount)[i] == BlurAccount(x);
      }
    }
  }

  lemma BlurCardsSame(xs: seq<CardSnapshot<Amount>>)
    ensures BlurAll(xs, BlurCard) == xs <==> forall x :: x in xs ==> LimitKept(x.limit)
  {
    if BlurAll(xs, BlurCard) == xs {
      forall x | x in xs ensures LimitKept(x.limit) {
        var i :| 0 <= i < |xs| && xs[i] == x;
        assert BlurAll(xs, BlurCard)[i] == BlurCard(x);
      }
    }
  }

  lemma DumpSame(s: WireDump)
    ensures BlurDump(s) == s <==> DumpKept(s)
  {
    BlurAccountsSame(s.accounts);
    BlurCardsSame(s.cards);
  }

  lemma OpSame(op: WireOp)
    ensures ReadOp(op) == Good(op) <==> OpKept(op)
  {
    if op.ReplaceDatabase? {
      DumpSame(op.snapshot);
    }
  }

  /**
   Decoding gives back the encoded message exactly when no limit is -1.0, a bill's period
   is absent or not empty with a length byte below 128, and the message is not one of the
   variants without a decoder.
   */
  lemma RoundTrip(m: WireMsg)
    requires Encodable(m)
    ensures DecodeMessage(MessageBytes(m)) == Good(m) <==> Kept(m)
  {
    MessageReads(m);
    hide DecodeMessage, MessageBytes, ReadOp, BlurDump, OpKept, DumpKept;
    match m {
      case Request(_, _, op) => OpSame(op);
      case Log(_, op) => OpSame(op);
      case ClusterView(_, _, s) => DumpSame(s);
      case _ =>
    }
  }

  /** So two such messages never share an encoding. */
  lemma Injective(m: WireMsg, n: WireMsg)
    requires Encodable(m) && Encodable(n) && Kept(m) && Kept(n) && MessageBytes(m) == MessageBytes(n)
    ensures m == n
  {
    RoundTrip(m);
    RoundTrip(n);
  }

  /** A limit of -1.0 is lost on the way. */
  lemma SentinelIsLost(a: u64)
    ensures var m := Log(1, LimitAccount(a, Some(0xBF80_0000)));
      Encodable(m) && DecodeMessage(MessageBytes(m)) == Good(Log(1, LimitAccount(a, None)))
  {
    MessageReads(Log(1, LimitAccount(a, Some(0xBF80_0000))));
  }
}
