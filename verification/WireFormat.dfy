/**
 The bytes on the wire, place by place and in figures: where every field of every message
 stands, what the decoder makes of a limit of -1.0, and which payloads it turns down.
 */
module WireFormat {
  import opened Wrappers
  import opened Protocol
  import opened Bytes
  import opened Encoding
  import opened Decoding
  import opened RoundTrips
  import opened Framing
  import Utf8

  // ---- numbers and addresses ----

  lemma Digits(n: nat, width: nat)
    requires width > 0
    ensures ToBytes(n, width) == ToBytes(n / 256, width - 1) + [n % 256]
  {
  }

  /** A 16-bit number is two bytes, the high one first. */
  lemma BigEndian16(n: u16)
    ensures ToBytes(n, 2) == [n / 0x100, n % 0x100]
  {
    assert ToBytes(n / 0x100, 1) == ToBytes(n / 0x1_0000, 0) + [n / 0x100 % 0x100];
  }

  /** A 32-bit number is four bytes, the highest first. */
  lemma BigEndian32(n: u32)
    ensures ToBytes(n, 4) == [n / 0x100_0000, n / 0x1_0000 % 0x100, n / 0x100 % 0x100, n % 0x100]
  {
    Digits(n, 4);
    Digits(n / 0x100, 3);
    BigEndian16(n / 0x1_0000);
    hide ToBytes;
    assert n / 0x100 / 0x100 == n / 0x1_0000;
  }

  lemma Shifted(n: nat)
    ensures n / 0x100 / 0x100 == n / 0x1_0000
    ensures n / 0x1_0000 / 0x100 == n / 0x100_0000
    ensures n / 0x100_0000 / 0x100 == n / 0x1_0000_0000
  {
  }

  /** A 64-bit number is eight bytes, the highest first. */
  lemma BigEndian64(n: u64)
    ensures ToBytes(n, 8) ==
      [n / 0x100_0000_0000_0000, n / 0x1_0000_0000_0000 % 0x100, n / 0x100_0000_0000 % 0x100, n / 0x1_0000_0000 % 0x100,
       n / 0x100_0000 % 0x100, n / 0x1_0000 % 0x100, n / 0x100 % 0x100, n % 0x100]
  {
    hide ToBytes;
    var high := n / 0x1_0000_0000;
    BigEndian32(high);
    Digits(n, 8);
    Digits(n / 0x100, 7);
    Digits(n / 0x1_0000, 6);
    Digits(n / 0x100_0000, 5);
    Shifted(n);
    Upper(n);
  }

  lemma Upper(n: nat)
    ensures var high := n / 0x1_0000_0000;
      && high / 0x100_0000 == n / 0x100_0000_0000_0000
      && high / 0x1_0000 == n / 0x1_0000_0000_0000
      && high / 0x100 == n / 0x100_0000_0000
  {
  }

  /** Reading goes by the same places. */
  lemma ReadingBytes(a: int, b: int, c: int, d: int, rest: seq<byte>)
    requires 0 <= a < 0x100 && 0 <= b < 0x100 && 0 <= c < 0x100 && 0 <= d < 0x100
    ensures ReadU16([a, b, c, d] + rest) == 0x100 * a + b
    ensures ReadU32([a, b, c, d] + rest) == 0x100_0000 * a + 0x1_0000 * b + 0x100 * c + d
  {
    var bs := [a, b, c, d] + rest;
    assert bs[..4] == [a, b, c, d] && bs[..4][..3] == [a, b, c] && bs[..2] == [a, b];
    assert [a, b, c][..2] == [a, b] && [a, b][..1] == [a] && [a][..0] == [];
    assert FromBytes([a]) == a;
    assert FromBytes([a, b]) == 0x100 * a + b;
    assert FromBytes([a, b, c]) == 0x100 * FromBytes([a, b]) + c;
  }

  lemma AddressInBytes(a: u8, b: u8, c: u8, d: u8, port: u16)
    ensures AddrBytes(V4(a, b, c, d, port)) == [a, b, c, d, port / 0x100, port % 0x100]
  {
    BigEndian16(port);
  }

  // ---- limits ----

  /** The absence of a limit is written as -1.0, a limit as its own bits. */
  lemma LimitInBytes(x: u32)
    ensures LimitBytes(None) == [0xBF, 0x80, 0x00, 0x00]
    ensures LimitBytes(Some(x)) == [x / 0x100_0000, x / 0x1_0000 % 0x100, x / 0x100 % 0x100, x % 0x100]
  {
    BigEndian32(0xBF80_0000);
    BigEndian32(x);
    hide ToBytes;
  }

  /** Whatever its bits, a card's limit is replicated as it is, unless they are those of -1.0. */
  lemma CardLimitReplicated(a: u64, c: u64, x: u32)
    ensures Encodable(Log(1, LimitCard(a, c, Some(x))))
    ensures DecodeMessage(MessageBytes(Log(1, LimitCard(a, c, Some(x))))) ==
      Good(Log(1, LimitCard(a, c, if x == 0xBF80_0000 then None else Some(x))))
    ensures DecodeMessage(MessageBytes(Log(1, LimitCard(a, c, None)))) == Good(Log(1, LimitCard(a, c, None)))
  {
    hide DecodeMessage, MessageBytes;
    MessageReads(Log(1, LimitCard(a, c, Some(x))));
    MessageReads(Log(1, LimitCard(a, c, None)));
  }

  lemma AccountLimitReplicated(a: u64, x: u32)
    ensures Encodable(Log(1, LimitAccount(a, Some(x))))
    ensures DecodeMessage(MessageBytes(Log(1, LimitAccount(a, Some(x))))) ==
      Good(Log(1, LimitAccount(a, if x == 0xBF80_0000 then None else Some(x))))
    ensures DecodeMessage(MessageBytes(Log(1, LimitAccount(a, None)))) == Good(Log(1, LimitAccount(a, None)))
  {
    hide DecodeMessage, MessageBytes;
    MessageReads(Log(1, LimitAccount(a, Some(x))));
    MessageReads(Log(1, LimitAccount(a, None)));
  }

  predicate SameButSentinel(sent: Option<u32>, got: Option<u32>) {
    got == if sent == Some(0xBF80_0000) then None else sent
  }

  /** The rows of a snapshot arrive in order, each with its own figures; only a limit of -1.0 is lost. */
  lemma RowsReplicated(s: WireDump)
    requires DumpEncodable(s)
    ensures var m := Log(1, ReplaceDatabase(s));
      Encodable(m) && exists t: WireDump ::
        && DecodeMessage(MessageBytes(m)) == Good(Log(1, ReplaceDatabase(t)))
        && t.addr == s.addr && |t.accounts| == |s.accounts| && |t.cards| == |s.cards|
        && (forall i :: 0 <= i < |s.accounts| ==>
          && t.accounts[i].accountId == s.accounts[i].accountId && t.accounts[i].consumed == s.accounts[i].consumed
          && SameButSentinel(s.accounts[i].limit, t.accounts[i].limit))
        && (forall i :: 0 <= i < |s.cards| ==>
          && t.cards[i].accountId == s.cards[i].accountId && t.cards[i].cardId == s.cards[i].cardId
          && t.cards[i].consumed == s.cards[i].consumed && SameButSentinel(s.cards[i].limit, t.cards[i].limit))
  {
    hide DecodeMessage, MessageBytes, DumpEncodable;
    MessageReads(Log(1, ReplaceDatabase(s)));
    var t := BlurDump(s);
    assert DecodeMessage(MessageBytes(Log(1, ReplaceDatabase(s)))) == Good(Log(1, ReplaceDatabase(t)));
  }

  // ---- lists of records ----

  /** Record `i` of a list stands at `i` times the size of a record. */
  lemma {:induction false} RecordAt<T>(xs: seq<T>, size: nat, f: T --> seq<byte>, i: nat)
    requires i < |xs| && forall x :: x in xs ==> f.requires(x) && |f(x)| == size
    ensures 0 <= i * size <= (i + 1) * size <= |Flat(xs, f)| == |xs| * size
    ensures Flat(xs, f)[i * size..(i + 1) * size] == f(xs[i])
    decreases |xs|
  {
    var n := |xs| - 1;
    FlatSize(xs, size, f);
    FlatSize(xs[..n], size, f);
    Times(i, n, size);
    var front := Flat(xs[..n], f);
    assert Flat(xs, f) == front + f(xs[n]);
    if i < n {
      RecordAt(xs[..n], size, f, i);
      assert Flat(xs, f)[i * size..(i + 1) * size] == front[i * size..(i + 1) * size];
    }
  }

  lemma Times(i: nat, n: nat, size: nat)
    requires i <= n
    ensures 0 <= i * size <= (i + 1) * size <= (n + 1) * size && (i + 1) * size == i * size + size
    ensures i < n ==> (i + 1) * size <= n * size
  {
  }

  /** `bs` stands in `p` from `start` on. */
  predicate RecordFrom(p: seq<byte>, start: nat, bs: seq<byte>) {
    start + |bs| <= |p| && p[start..start + |bs|] == bs
  }

  /** The records of a list stand in `p` one after the other. */
  ghost predicate RecordsFrom<T>(p: seq<byte>, start: nat, xs: seq<T>, size: nat, f: T --> seq<byte>)
    requires forall x :: x in xs ==> f.requires(x)
  {
    forall i :: 0 <= i < |xs| ==> RecordFrom(p, start + i * size, f(xs[i]))
  }

  lemma RecordsBetween<T>(p: seq<byte>, head: seq<byte>, start: nat, xs: seq<T>, size: nat, f: T --> seq<byte>, tail: seq<byte>)
    requires forall x :: x in xs ==> f.requires(x) && |f(x)| == size
    requires start == |head| && p == head + Flat(xs, f) + tail
    ensures |Flat(xs, f)| == |xs| * size && RecordsFrom(p, start, xs, size, f)
  {
    hide Flat;
    FlatSize(xs, size, f);
    forall i | 0 <= i < |xs| ensures RecordFrom(p, start + i * size, f(xs[i])) {
      RecordAt(xs, size, f, i);
      Within(head, Flat(xs, f), tail, i * size, (i + 1) * size);
    }
  }

  lemma Within(head: seq<byte>, flat: seq<byte>, tail: seq<byte>, lo: nat, hi: nat)
    requires lo <= hi <= |flat|
    ensures var p, start := head + flat + tail, |head|;
      start + hi <= |p| && p[start + lo..start + hi] == flat[lo..hi]
  {
  }

  // ---- records ----

  lemma AccountInBytes(s: AccountSnapshot<Amount>)
    ensures var p := AccountBytes(s);
      && |p| == 16 && p[..8] == ToBytes(s.accountId, 8) && p[8..12] == LimitBytes(s.limit) && p[12..] == ToBytes(s.consumed, 4)
  {
    hide ToBytes;
    LimitSize(s.limit);
  }

  lemma CardInBytes(s: CardSnapshot<Amount>)
    ensures var p := CardBytes(s);
      && |p| == 24 && p[..8] == ToBytes(s.accountId, 8) && p[8..16] == ToBytes(s.cardId, 8)
      && p[16..20] == LimitBytes(s.limit) && p[20..] == ToBytes(s.consumed, 4)
  {
    hide ToBytes;
    LimitSize(s.limit);
  }

  lemma SpentInBytes(card: u64, amount: Amount)
    ensures var p := SpentBytes((card, amount));
      |p| == 12 && p[..8] == ToBytes(card, 8) && p[8..] == ToBytes(amount, 4)
  {
    hide ToBytes;
  }

  lemma MemberInBytes(id: u64, addr: SocketAddr)
    requires addr.V4?
    ensures var p := MemberBytes((id, addr));
      |p| == 14 && p[..8] == ToBytes(id, 8) && p[8..] == AddrBytes(addr)
  {
    hide ToBytes;
  }

  lemma RowSizes()
    ensures forall x :: |AccountBytes(x)| == 16
    ensures forall x :: |CardBytes(x)| == 24
  {
    forall x ensures |AccountBytes(x)| == 16 {
      AccountInBytes(x);
    }
    forall x ensures |CardBytes(x)| == 24 {
      CardInBytes(x);
    }
  }

  lemma InFront(a: seq<byte>, b: seq<byte>, p: seq<byte>)
    requires |p| >= |a| + |b| && p[..|a| + |b|] == a + b
    ensures RecordFrom(p, 0, a) && RecordFrom(p, |a|, b)
  {
    assert p[..|a| + |b|][|a|..] == b;
  }

  lemma DumpSplits(s: WireDump)
    requires DumpEncodable(s)
    ensures var front, back := AddrBytes(s.addr) + ToBytes(|s.accounts|, 8), ToBytes(|s.cards|, 8) + Flat(s.cards, CardBytes);
      |front| == 14 && DumpBytes(s) == front + Flat(s.accounts, AccountBytes) + back
  {
    hide ToBytes, Flat, AccountBytes, CardBytes;
    FieldAddr(s.addr, []);
  }

  lemma DumpFront(s: WireDump)
    requires DumpEncodable(s)
    ensures var p, cards := DumpBytes(s), 14 + |s.accounts| * 16;
      && |p| >= cards && p[cards..] == ToBytes(|s.cards|, 8) + Flat(s.cards, CardBytes)
      && RecordFrom(p, 0, AddrBytes(s.addr)) && RecordFrom(p, 6, ToBytes(|s.accounts|, 8))
      && RecordsFrom(p, 14, s.accounts, 16, AccountBytes)
  {
    hide ToBytes, AddrBytes, AccountBytes, CardBytes, Flat, DumpBytes, RecordFrom, RecordsFrom;
    RowSizes();
    DumpSplits(s);
    FieldAddr(s.addr, []);
    var front, back := AddrBytes(s.addr) + ToBytes(|s.accounts|, 8), ToBytes(|s.cards|, 8) + Flat(s.cards, CardBytes);
    RecordsBetween(DumpBytes(s), front, 14, s.accounts, 16, AccountBytes, back);
    Parts(DumpBytes(s), front, Flat(s.accounts, AccountBytes), back);
    InFront(AddrBytes(s.addr), ToBytes(|s.accounts|, 8), DumpBytes(s));
  }

  lemma Parts(p: seq<byte>, a: seq<byte>, b: seq<byte>, c: seq<byte>)
    requires p == a + b + c
    ensures |p| == |a| + |b| + |c| && p[..|a|] == a && p[|a| + |b|..] == c
  {
  }

  /** A counted list of records at the end. */
  lemma CountedList<T>(p: seq<byte>, at: nat, count: seq<byte>, start: nat, xs: seq<T>, size: nat, f: T --> seq<byte>)
    requires forall x :: x in xs ==> f.requires(x) && |f(x)| == size
    requires at <= |p| && p[at..] == count + Flat(xs, f) && start == at + |count|
    ensures |p| == start + |xs| * size && RecordFrom(p, at, count)
    ensures RecordsFrom(p, start, xs, size, f)
  {
    hide Flat, RecordFrom, RecordsFrom;
    Rejoined(p, at, count, Flat(xs, f));
    RecordsBetween(p, p[..at] + count, start, xs, size, f, []);
  }

  lemma Rejoined(p: seq<byte>, at: nat, b: seq<byte>, c: seq<byte>)
    requires at <= |p| && p[at..] == b + c
    ensures |p| == at + |b| + |c| && |p[..at] + b| == at + |b| && p == p[..at] + b + c + [] && RecordFrom(p, at, b)
  {
    assert p == p[..at] + p[at..];
    assert p[at..][..|b|] == b;
  }

  /** A snapshot: address, number of accounts, accounts of 16 bytes, number of cards, cards of 24 bytes. */
  lemma DumpInBytes(s: WireDump)
    requires DumpEncodable(s)
    ensures var p, cards := DumpBytes(s), 14 + |s.accounts| * 16;
      && |p| == cards + 8 + |s.cards| * 24
      && RecordFrom(p, 0, AddrBytes(s.addr))
      && RecordFrom(p, 6, ToBytes(|s.accounts|, 8))
      && (forall i :: 0 <= i < |s.accounts| ==> RecordFrom(p, 14 + i * 16, AccountBytes(s.accounts[i])))
      && RecordFrom(p, cards, ToBytes(|s.cards|, 8))
      && (forall i :: 0 <= i < |s.cards| ==> RecordFrom(p, cards + 8 + i * 24, CardBytes(s.cards[i])))
  {
    hide ToBytes, AddrBytes, AccountBytes, CardBytes, Flat, DumpBytes, RecordFrom;
    RowSizes();
    DumpFront(s);
    CountedList(DumpBytes(s), 14 + |s.accounts| * 16, ToBytes(|s.cards|, 8), 22 + |s.accounts| * 16, s.cards, 24, CardBytes);
  }

  // ---- operations ----

  /** The first byte says which operation it is; the fields follow in the order given here. */
  lemma OperationInBytes(op: WireOp)
    requires OpEncodable(op)
    ensures var p := OpBytes(op);
      match op
      case Charge(a, c, amount, fromOffline) =>
        && |p| == 22 && p[0] == 0x00 && p[1..9] == ToBytes(a, 8) && p[9..17] == ToBytes(c, 8)
        && p[17..21] == ToBytes(amount, 4) && p[21] == if fromOffline then 1 else 0
      case LimitCard(a, c, limit) =>
        && |p| == 21 && p[0] == 0x01 && p[1..9] == ToBytes(a, 8) && p[9..17] == ToBytes(c, 8)
        && p[17..] == LimitBytes(limit)
      case LimitAccount(a, limit) =>
        |p| == 13 && p[0] == 0x02 && p[1..9] == ToBytes(a, 8) && p[9..] == LimitBytes(limit)
      case AccountQuery(a) =>
        |p| == 9 && p[0] == 0x03 && p[1..] == ToBytes(a, 8)
      case Bill(a, period) =>
        && |p| >= 10 && p[0] == 0x06 && p[1..9] == ToBytes(a, 8)
        && (period.None? ==> p[9..] == [0])
        && (period.Some? ==> p[9] == |period.value| % 256 && p[10..] == period.value)
      case GetDatabase(addr) =>
        |p| == 7 && p[0] == 0x07 && p[1..] == AddrBytes(addr)
      case ReplaceDatabase(s) =>
        |p| > 0 && p[0] == 0x08 && p[1..] == DumpBytes(s)
  {
    match op {
      case Charge(a, c, amount, fromOffline) => ChargeInBytes(a, c, amount, fromOffline);
      case LimitCard(a, c, limit) => LimitCardInBytes(a, c, limit);
      case LimitAccount(_, limit) => LimitSize(limit);
      case Bill(a, period) => BillInBytes(a, period);
      case GetDatabase(addr) => FieldAddr(addr, []);
      case _ =>
    }
    hide ToBytes, LimitBytes, AddrBytes, DumpBytes, PeriodBytes, Utf8.Valid;
  }

  lemma TwoIds(kind: byte, x: seq<byte>, y: seq<byte>, rest: seq<byte>)
    requires |x| == 8 && |y| == 8
    ensures var p := [kind] + x + y + rest;
      |p| == 17 + |rest| && p[0] == kind && p[1..9] == x && p[9..17] == y && p[17..] == rest
  {
  }

  lemma ChargeInBytes(a: u64, c: u64, amount: Amount, fromOffline: bool)
    ensures var p := OpBytes(Charge(a, c, amount, fromOffline));
      && |p| == 22 && p[0] == 0x00 && p[1..9] == ToBytes(a, 8) && p[9..17] == ToBytes(c, 8)
      && p[17..21] == ToBytes(amount, 4) && p[21] == if fromOffline then 1 else 0
  {
    hide ToBytes;
    var p, flag: byte := OpBytes(Charge(a, c, amount, fromOffline)), if fromOffline then 1 else 0;
    TwoIds(0x00, ToBytes(a, 8), ToBytes(c, 8), ToBytes(amount, 4) + [flag]);
    Rebracket([0x00] + ToBytes(a, 8) + ToBytes(c, 8), ToBytes(amount, 4), [flag]);
    Tailed(p, ToBytes(amount, 4), flag);
  }

  lemma Tailed(p: seq<byte>, x: seq<byte>, last: byte)
    requires |p| == 22 && |x| == 4 && p[17..] == x + [last]
    ensures p[17..21] == x && p[21] == last
  {
    assert p[17..][..4] == x && p[17..][4] == last;
  }

  lemma LimitCardInBytes(a: u64, c: u64, limit: Option<Amount>)
    ensures var p := OpBytes(LimitCard(a, c, limit));
      && |p| == 21 && p[0] == 0x01 && p[1..9] == ToBytes(a, 8) && p[9..17] == ToBytes(c, 8) && p[17..] == LimitBytes(limit)
  {
    hide ToBytes, LimitBytes;
    LimitSize(limit);
    TwoIds(0x01, ToBytes(a, 8), ToBytes(c, 8), LimitBytes(limit));
  }

  lemma BillInBytes(a: u64, period: Option<seq<byte>>)
    requires OpEncodable(Bill(a, period))
    ensures var p := OpBytes(Bill(a, period));
      && |p| >= 10 && p[0] == 0x06 && p[1..9] == ToBytes(a, 8)
      && (period.None? ==> p[9..] == [0])
      && (period.Some? ==> p[9] == |period.value| % 256 && p[10..] == period.value)
  {
    hide ToBytes, Utf8.Valid;
  }

  // ---- results ----

  /** 2 for Ok; 3 for a failure, followed by its kind and its reason. */
  lemma OutcomeInBytes(outcome: Outcome)
    ensures OutcomeBytes(outcome) ==
      match outcome
      case Ok => [2]
      case Failed(LimitUpdate(BelowCurrentUsage)) => [3, 0, 0]
      case Failed(ChargeLimit(CardLimitExceeded)) => [3, 1, 1]
      case Failed(ChargeLimit(AccountLimitExceeded)) => [3, 1, 2]
  {
  }

  lemma ResultInBytes(r: WireResult)
    requires ResultEncodable(r)
    ensures var p := ResultBytes(r);
      |p| > 0 &&
      match r
      case ChargeResult(outcome) => p[0] == 0x00 && p[1..] == OutcomeBytes(outcome)
      case LimitAccountResult(outcome) => p[0] == 0x02 && p[1..] == OutcomeBytes(outcome)
      case LimitCardResult(outcome) => p[0] == 0x03 && p[1..] == OutcomeBytes(outcome)
      case AccountQueryResult(a, total, spent) =>
        && |p| == 21 + |spent| * 12 && p[0] == 0x04 && RecordFrom(p, 1, ToBytes(a, 8)) && RecordFrom(p, 9, ToBytes(total, 4))
        && RecordFrom(p, 13, ToBytes(|spent|, 8))
        && forall i :: 0 <= i < |spent| ==> RecordFrom(p, 21 + i * 12, SpentBytes(spent[i]))
      case DatabaseSnapshotResult(s) => p[0] == 0x05 && p[1..] == DumpBytes(s)
      case ReplaceDatabaseResult => p == [0x06]
  {
    hide ToBytes, OutcomeBytes, DumpBytes, Flat, SpentBytes, RecordFrom;
    if r.AccountQueryResult? {
      QueryResultInBytes(r.accountId, r.totalSpent, r.perCardSpent);
    }
  }

  lemma QueryResultInBytes(a: u64, total: Amount, spent: seq<(u64, Amount)>)
    requires Counted(spent)
    ensures var p := ResultBytes(AccountQueryResult(a, total, spent));
      && |p| == 21 + |spent| * 12 && p[0] == 0x04 && RecordFrom(p, 1, ToBytes(a, 8)) && RecordFrom(p, 9, ToBytes(total, 4))
      && RecordFrom(p, 13, ToBytes(|spent|, 8))
      && forall i :: 0 <= i < |spent| ==> RecordFrom(p, 21 + i * 12, SpentBytes(spent[i]))
  {
    hide ToBytes, Flat, SpentBytes;
    forall x ensures |SpentBytes(x)| == 12 {
      SpentInBytes(x.0, x.1);
    }
    var p, head, count := ResultBytes(AccountQueryResult(a, total, spent)), [0x04] + ToBytes(a, 8) + ToBytes(total, 4), ToBytes(|spent|, 8);
    assert p == head + (count + Flat(spent, SpentBytes));
    assert p[13..] == count + Flat(spent, SpentBytes);
    CountedList(p, 13, count, 21, spent, 12, SpentBytes);
    hide ResultBytes, RecordFrom;
    assert head <= p;
    InHead(p, head, ToBytes(a, 8), ToBytes(total, 4));
  }

  lemma InHead(p: seq<byte>, head: seq<byte>, a: seq<byte>, b: seq<byte>)
    requires head <= p && |head| >= 1 && head[1..] == a + b
    ensures RecordFrom(p, 1, a) && RecordFrom(p, 1 + |a|, b)
  {
    assert p[1..|head|] == a + b;
  }

  // ---- messages ----

  /** The first byte says which message it is; the fields follow in the order given here. */
  lemma MessageInBytes(m: WireMsg)
    requires Encodable(m)
    ensures var p := MessageBytes(m);
      |p| > 0 &&
      match m
      case Request(reqId, addr, op) =>
        && p[0] == 0x00 && RecordFrom(p, 1, ToBytes(reqId, 4)) && RecordFrom(p, 5, AddrBytes(addr)) && p[11..] == OpBytes(op)
      case Log(opId, op) => p[0] == 0x01 && RecordFrom(p, 1, ToBytes(opId, 4)) && p[5..] == OpBytes(op)
      case Ack(opId) => p[0] == 0x02 && p[1..] == ToBytes(opId, 4)
      case Join(addr) => p[0] == 0x03 && p[1..] == AddrBytes(addr)
      case ClusterView(members, addr, s) =>
        && p[0] == 0x04 && RecordFrom(p, 1, ToBytes(|members|, 8))
        && (forall i :: 0 <= i < |members| ==> RecordFrom(p, 9 + i * 14, MemberBytes(members[i])))
        && RecordFrom(p, 9 + |members| * 14, AddrBytes(addr))
        && p[15 + |members| * 14..] == DumpBytes(s)
      case ClusterUpdate(member) => p[0] == 0x05 && p[1..] == MemberBytes(member)
      case Response(reqId, r) => p[0] == 0x06 && RecordFrom(p, 1, ToBytes(reqId, 4)) && p[5..] == ResultBytes(r)
      case RoleQuery(addr) => p[0] == 0x07 && p[1..] == AddrBytes(addr)
      case RoleResponse(id, role) =>
        && p[0] == 0x08 && |p| == 10 && RecordFrom(p, 1, ToBytes(id, 8))
        && p[9] == if role.LeaderRole? then 0 else if role.ReplicaRole? then 1 else 2
      case Election(id, addr) => p[0] == 0x09 && p[1..] == MemberBytes((id, addr))
      case ElectionOk(id) => p[0] == 0x0A && p[1..] == ToBytes(id, 8)
      case Coordinator(id, addr) => p[0] == 0x0B && p[1..] == MemberBytes((id, addr))
  {
    hide ToBytes, AddrBytes, OpBytes, ResultBytes, DumpBytes, OpEncodable, ResultEncodable, RecordFrom, Flat;
    match m {
      case Request(reqId, addr, op) => RequestInBytes(reqId, addr, op);
      case Log(opId, op) => IdInBytes([0x01], ToBytes(opId, 4), OpBytes(op));
      case Response(reqId, r) => IdInBytes([0x06], ToBytes(reqId, 4), ResultBytes(r));
      case ClusterView(members, addr, s) => ViewInBytes(members, addr, s);
      case RoleResponse(id, role) => IdInBytes([0x08], ToBytes(id, 8), [RoleByte(role)]);
      case _ =>
    }
  }

  lemma IdInBytes(head: seq<byte>, id: seq<byte>, rest: seq<byte>)
    requires |head| == 1
    ensures var p := head + id + rest;
      RecordFrom(p, 1, id) && p[1 + |id|..] == rest
  {
  }

  lemma RequestInBytes(reqId: u32, addr: SocketAddr, op: WireOp)
    requires addr.V4? && OpEncodable(op)
    ensures var p := MessageBytes(Request(reqId, addr, op));
      RecordFrom(p, 1, ToBytes(reqId, 4)) && RecordFrom(p, 5, AddrBytes(addr)) && p[11..] == OpBytes(op)
  {
    hide ToBytes, AddrBytes, OpBytes, OpEncodable;
    FieldAddr(addr, []);
  }

  lemma ViewInBytes(members: seq<(u64, SocketAddr)>, addr: SocketAddr, s: WireDump)
    requires Encodable(ClusterView(members, addr, s))
    ensures var p := MessageBytes(ClusterView(members, addr, s));
      && |p| > 0 && p[0] == 0x04 && RecordFrom(p, 1, ToBytes(|members|, 8))
      && (forall i :: 0 <= i < |members| ==> RecordFrom(p, 9 + i * 14, MemberBytes(members[i])))
      && RecordFrom(p, 9 + |members| * 14, AddrBytes(addr))
      && p[15 + |members| * 14..] == DumpBytes(s)
  {
    hide ToBytes, AddrBytes, MemberBytes, Flat, DumpBytes, MessageBytes, RecordFrom;
    forall x | x in members ensures |MemberBytes(x)| == 14 {
      MemberInBytes(x.0, x.1);
    }
    FieldAddr(addr, []);
    var count, flat, tail := ToBytes(|members|, 8), Flat(members, MemberBytes), AddrBytes(addr) + DumpBytes(s);
    ViewSplits(members, addr, s);
    InMiddle(MessageBytes(ClusterView(members, addr, s)), [0x04], count, flat, AddrBytes(addr), DumpBytes(s));
    RecordsBetween(MessageBytes(ClusterView(members, addr, s)), [0x04] + count, 9, members, 14, MemberBytes, tail);
  }

  lemma ViewSplits(members: seq<(u64, SocketAddr)>, addr: SocketAddr, s: WireDump)
    requires Encodable(ClusterView(members, addr, s))
    ensures MessageBytes(ClusterView(members, addr, s)) ==
      [0x04] + ToBytes(|members|, 8) + Flat(members, MemberBytes) + (AddrBytes(addr) + DumpBytes(s))
  {
    hide ToBytes, AddrBytes, MemberBytes, Flat, DumpBytes, Counted;
    Rebracket([0x04] + ToBytes(|members|, 8) + Flat(members, MemberBytes), AddrBytes(addr), DumpBytes(s));
  }

  lemma InMiddle(p: seq<byte>, kind: seq<byte>, count: seq<byte>, flat: seq<byte>, a: seq<byte>, b: seq<byte>)
    requires p == kind + count + flat + (a + b) && |kind| == 1
    ensures |p| > 0 && p[0] == kind[0] && RecordFrom(p, 1, count)
    ensures var end := 1 + |count| + |flat|;
      RecordFrom(p, end, a) && p[end + |a|..] == b
  {
    Trailing(p, kind + count + flat, a, b);
  }

  lemma Trailing(p: seq<byte>, front: seq<byte>, a: seq<byte>, b: seq<byte>)
    requires p == front + (a + b)
    ensures RecordFrom(p, |front|, a) && p[|front| + |a|..] == b
  {
  }

  /** A frame: the length in two bytes, the high one first, and the payload; heartbeats are one byte. */
  lemma FrameInBytes(m: WireMsg)
    requires Encodable(m)
    ensures Frame(Ping) == [0, 1, 0xFE] && Frame(Pong) == [0, 1, 0xFF]
    ensures Frame(Note(m)) == [|MessageBytes(m)| / 0x100 % 0x100, |MessageBytes(m)| % 0x100] + MessageBytes(m)
  {
    hide MessageBytes, Encodable;
    BigEndian16(1);
    BigEndian16(|MessageBytes(m)| % 0x1_0000);
    LowHalf(|MessageBytes(m)|);
    hide ToBytes;
  }

  lemma LowHalf(n: nat)
    ensures n % 0x1_0000 / 0x100 == n / 0x100 % 0x100 && n % 0x1_0000 % 0x100 == n % 0x100
  {
  }

  // ---- what the decoder turns down ----

  /** Payloads of a kind without a decoder. */
  lemma UnknownKinds(p: seq<byte>)
    requires p != []
    ensures p[0] == 0x08 || p[0] > 0x0B ==> DecodeMessage(p) == Invalid
    ensures p[0] == 0x01 || p[0] > 0x04 ==> DecodeResult(p) == Invalid
  {
  }

  /** Operations of a fixed size are read from exactly that many bytes. */
  lemma OperationSizes(kind: byte, p: seq<byte>)
    ensures var r := DecodeOp([kind] + p);
      match kind
      case 0 => r.Good? == (|p| == 21 && (p[20] == 0 || p[20] == 1)) && (!r.Good? ==> r.Invalid?)
      case 1 => r.Good? == (|p| == 20) && (!r.Good? ==> r.Invalid?)
      case 2 => r.Good? == (|p| == 12) && (!r.Good? ==> r.Invalid?)
      case 3 => r.Good? == (|p| == 8) && (!r.Good? ==> r.Invalid?)
      case 7 => r.Good? == (|p| >= 6) && (!r.Good? ==> r.Invalid?)
      case 4 => r.Invalid?
      case 5 => r.Invalid?
      case _ => kind > 8 ==> r.Invalid?
  {
    hide ReadU32, ReadU64, ReadLimit, DecodeBill, DecodeDump;
    assert ([kind] + p)[1..] == p;
  }

  /** A field that its payload is too short for: some readers return an error, the others panic. */
  lemma ShortFields(p: seq<byte>)
    ensures |p| < 8 ==> DecodeId(p) == Panic && DecodeLen(p) == Panic
    ensures |p| < 4 ==> DecodeAmount(p) == Panic && DecodeLimit(p) == Panic && DecodeOpId(p) == Invalid
    ensures |p| < 6 ==> DecodeAddr(p) == Invalid
    ensures p == [] ==> DecodeOp(p) == Panic && DecodeResult(p) == Panic && DecodeMessage(p) == Panic
  {
  }

  /** Exactly these bytes are read as an outcome, whatever follows them. */
  lemma OutcomesRead(p: seq<byte>)
    ensures DecodeOutcome(p) ==
      if p == [] then Panic
      else if p[0] == 2 then Good(Outcome.Ok)
      else if p[0] != 3 then Invalid
      else if |p| == 1 then Panic
      else if p[1] == 0 then
        (if |p| == 2 then Panic else if p[2] == 0 then Good(Failed(LimitUpdate(BelowCurrentUsage))) else Invalid)
      else if p[1] == 1 && |p| > 2 && p[2] == 1 then Good(Failed(ChargeLimit(CardLimitExceeded)))
      else if p[1] == 1 && |p| > 2 && p[2] == 2 then Good(Failed(ChargeLimit(AccountLimitExceeded)))
      else Invalid
  {
    if |p| > 1 {
      assert p[1..][1..] == p[2..];
    }
  }

  /** A bill's text: the byte in front is dropped, the empty text is no period, a wider first character panics. */
  lemma BillTexts(a: u64, text: seq<byte>)
    ensures DecodeOp([0x06] + ToBytes(a, 8) + text) ==
      if text == [] || text == [0] then Good(Bill(a, None))
      else if !Utf8.Valid(text) then Invalid
      else if text[0] < 0x80 then Good(Bill(a, Some(text[1..])))
      else Panic
  {
    hide ToBytes, ReadU64, Utf8.Valid;
    Field64(a, text);
    var p := [0x06] + ToBytes(a, 8) + text;
    assert p[1..] == ToBytes(a, 8) + text && (ToBytes(a, 8) + text)[8..] == text;
    NulIsValid();
    if text != [] && Utf8.Valid(text) {
      FirstCharacter(text);
    }
  }

  lemma FirstCharacter(text: seq<byte>)
    requires text != [] && Utf8.Valid(text)
    ensures Utf8.CharLen(text) > 1 <==> text[0] >= 0x80
  {
  }

  /** A view too short for the members it declares is an error. */
  lemma ShortViews(n: u64, rest: seq<byte>)
    requires 8 + |rest| < 14 * n < 0x1_0000_0000_0000_0000
    ensures DecodeMessage([0x04] + ToBytes(n, 8) + rest) == Invalid
  {
    hide ToBytes, ReadU64, DecodeMany;
    Field64(n, rest);
    assert ([0x04] + ToBytes(n, 8) + rest)[1..] == ToBytes(n, 8) + rest;
  }

  /** Unless it declares so many that the product wraps: 2^63 members pass the check and the first of them panics. */
  lemma WrappedViews(rest: seq<byte>)
    requires |rest| < 8
    ensures DecodeMessage([0x04, 0x80, 0, 0, 0, 0, 0, 0, 0] + rest) == Panic
  {
    hide ToBytes, ReadU64, DecodeDump, DecodeAddr;
    HighBit();
    ManyToRead(rest);
    Field64(0x8000_0000_0000_0000, rest);
    var p := [0x04, 0x80, 0, 0, 0, 0, 0, 0, 0] + rest;
    assert p[1..] == ToBytes(0x8000_0000_0000_0000, 8) + rest && p[1..][8..] == rest;
    hide DecodeMany;
  }

  lemma HighBit()
    ensures ToBytes(0x8000_0000_0000_0000, 8) == [0x80, 0, 0, 0, 0, 0, 0, 0]
  {
    BigEndian64(0x8000_0000_0000_0000);
    hide ToBytes;
  }

  lemma ManyToRead(rest: seq<byte>)
    requires |rest| < 8
    ensures DecodeMany(rest, 0x8000_0000_0000_0000, 14, DecodeMember) == Panic
  {
  }

  /** A frame that the stream ends within is not received at all. */
  lemma CutFrames(item: Item, k: nat)
    requires ItemEncodable(item) && |Payload(item)| < 0x1_0000 && k < |Frame(item)|
    ensures Receive(Frame(item)[..k]) == ConnectionLost
  {
    hide MessageBytes, DecodeMessage, Encodable, ToBytes, FromBytes, Classify;
    if k >= 2 {
      var n := |Payload(item)|;
      Widths();
      ReadsHead(n, 2, Frame(item)[2..k]);
      assert Frame(item)[..k] == ToBytes(n, 2) + Frame(item)[2..k];
    }
  }
}
