/**
 The wire decoder. A field reader that slices past the end of its payload panics; readers
 that check the length first return an error. `:-` passes either on, as `?` does.
 */
module Decoding {
  import opened Wrappers
  import opened Protocol
  import opened Bytes
  import opened Encoding
  import Utf8

  // ---- fields ----

  function DecodeId(p: seq<byte>): (r: Decoded<u64>)
    ensures r.Good? <==> |p| >= 8
  {
    if |p| < 8 then Panic else Good(ReadU64(p))
  }

  function DecodeLen(p: seq<byte>): (r: Decoded<u64>)
    ensures r.Good? <==> |p| >= 8
  {
    DecodeId(p)
  }

  function DecodeAmount(p: seq<byte>): (r: Decoded<Amount>)
    ensures r.Good? <==> |p| >= 4
  {
    if |p| < 4 then Panic else Good(ReadU32(p))
  }

  function ReadLimit(p: seq<byte>): Option<Amount>
    requires |p| >= 4
  {
    if ReadU32(p) == NO_LIMIT then None else Some(ReadU32(p))
  }

  function DecodeLimit(p: seq<byte>): (r: Decoded<Option<Amount>>)
    ensures r.Good? <==> |p| >= 4
  {
    if |p| < 4 then Panic else Good(ReadLimit(p))
  }

  function ReadAddr(p: seq<byte>): SocketAddr
    requires |p| >= 6
  {
    V4(p[0], p[1], p[2], p[3], ReadU16(p[4..6]))
  }

  function DecodeAddr(p: seq<byte>): (r: Decoded<SocketAddr>)
    ensures r.Good? <==> |p| >= 6
  {
    if |p| < 6 then Invalid else Good(ReadAddr(p))
  }

  function DecodeOpId(p: seq<byte>): (r: Decoded<u32>)
    ensures r.Good? <==> |p| >= 4
  {
    if |p| < 4 then Invalid else Good(ReadU32(p))
  }

  function DecodeFlag(p: seq<byte>): Decoded<bool> {
    if p == [] then Panic else if p[0] == TRUE then Good(true) else if p[0] == FALSE then Good(false) else Invalid
  }

  // ---- records of a fixed size ----

  function DecodeAccount(p: seq<byte>): (r: Decoded<AccountSnapshot<Amount>>)
    ensures r.Good? <==> |p| >= 16
  {
    var id :- DecodeId(p);
    var limit :- DecodeLimit(p[8..]);
    if |p| < 12 then Panic
    else
      var consumed :- DecodeAmount(p[12..]);
      Good(AccountSnapshot(id, limit, consumed))
  }

  function DecodeCard(p: seq<byte>): (r: Decoded<CardSnapshot<Amount>>)
    ensures r.Good? <==> |p| >= 24
  {
    var account :- DecodeId(p);
    var card :- DecodeId(p[8..]);
    var limit :- DecodeLimit(p[16..]);
    var consumed :- DecodeAmount(p[20..]);
    Good(CardSnapshot(account, card, limit, consumed))
  }

  function DecodeSpent(p: seq<byte>): (r: Decoded<(u64, Amount)>)
    ensures r.Good? <==> |p| >= 12
  {
    var card :- DecodeId(p);
    var amount :- DecodeAmount(p[8..]);
    Good((card, amount))
  }

  function DecodeMember(p: seq<byte>): (r: Decoded<(u64, SocketAddr)>)
    ensures r.Good? <==> |p| >= 14
  {
    var id :- DecodeId(p);
    var addr :- DecodeAddr(p[8..]);
    Good((id, addr))
  }

  /** `n` records of `size` bytes each, read one after the other. */
  function DecodeMany<T>(p: seq<byte>, n: nat, size: nat, f: seq<byte> -> Decoded<T>): (r: Decoded<seq<T>>)
    requires forall q: seq<byte> :: f(q).Good? ==> |q| >= size
    ensures r.Good? ==> |r.value| == n && |p| >= n * size
  {
    if n == 0 then Good([])
    else
      var x :- f(p);
      var xs :- DecodeMany(p[size..], n - 1, size, f);
      assert (n - 1) * size + size == n * size;
      Good([x] + xs)
  }

  // ---- snapshots ----

  function DecodeDump(p: seq<byte>): Decoded<WireDump> {
    var addr :- DecodeAddr(p);
    var accountsLen :- DecodeLen(p[6..]);
    var q := p[14..];
    var accounts :- DecodeMany(q, accountsLen, 16, DecodeAccount);
    var q := q[accountsLen * 16..];
    var cardsLen :- DecodeLen(q);
    var cards :- DecodeMany(q[8..], cardsLen, 24, DecodeCard);
    Good(DatabaseSnapshot(addr, accounts, cards))
  }

  // ---- operations ----

  function DecodeBill(p: seq<byte>): Decoded<WireOp> {
    if |p| < 8 then Invalid
    else
      var a, rest := ReadU64(p), p[8..];
      if rest == [] then Good(Bill(a, None))
      else if !Utf8.Valid(rest) then Invalid
      else if rest == [0] then Good(Bill(a, None))
      else if Utf8.CharLen(rest) > 1 then Panic
      else Good(Bill(a, Some(rest[1..])))
  }

  function DecodeCharge(p: seq<byte>): Decoded<WireOp> {
    if |p| != 21 then Invalid
    else
      var fromOffline :- DecodeFlag(p[20..]);
      Good(Charge(ReadU64(p), ReadU64(p[8..]), ReadU32(p[16..]), fromOffline))
  }

  function DecodeLimitAccount(p: seq<byte>): Decoded<WireOp> {
    if |p| != 12 then Invalid else Good(LimitAccount(ReadU64(p), ReadLimit(p[8..])))
  }

  function DecodeLimitCard(p: seq<byte>): Decoded<WireOp> {
    if |p| != 20 then Invalid else Good(LimitCard(ReadU64(p), ReadU64(p[8..]), ReadLimit(p[16..])))
  }

  function DecodeQuery(p: seq<byte>): Decoded<WireOp> {
    if |p| != 8 then Invalid else Good(AccountQuery(ReadU64(p)))
  }

  function DecodeOp(p: seq<byte>): Decoded<WireOp> {
    if p == [] then Panic
    else if p[0] == OP_CHARGE then DecodeCharge(p[1..])
    else if p[0] == OP_LIMIT_ACCOUNT then DecodeLimitAccount(p[1..])
    else if p[0] == OP_LIMIT_CARD then DecodeLimitCard(p[1..])
    else if p[0] == OP_QUERY then DecodeQuery(p[1..])
    else if p[0] == OP_BILL then DecodeBill(p[1..])
    else if p[0] == OP_GET_DATABASE then
      var addr :- DecodeAddr(p[1..]);
      Good(GetDatabase(addr))
    else if p[0] == OP_REPLACE_DATABASE then
      var s :- DecodeDump(p[1..]);
      Good(ReplaceDatabase(s))
    else Invalid
  }

  // ---- results ----

  function DecodeCheckError(p: seq<byte>): Decoded<LimitCheckError> {
    if p == [] then Invalid
    else if p[0] == ACCOUNT_EXCEEDED then Good(AccountLimitExceeded)
    else if p[0] == CARD_EXCEEDED then Good(CardLimitExceeded)
    else Invalid
  }

  function DecodeUpdateError(p: seq<byte>): Decoded<LimitUpdateError> {
    if p == [] then Panic else if p[0] == BELOW_USAGE then Good(BelowCurrentUsage) else Invalid
  }

  function DecodeError(p: seq<byte>): Decoded<VerifyError> {
    if p == [] then Panic
    else if p[0] == CHARGE_LIMIT_ERR then
      var e :- DecodeCheckError(p[1..]);
      Good(ChargeLimit(e))
    else if p[0] == LIMIT_UPDATE_ERR then
      var e :- DecodeUpdateError(p[1..]);
      Good(LimitUpdate(e))
    else Invalid
  }

  function DecodeOutcome(p: seq<byte>): Decoded<Outcome> {
    if p == [] then Panic
    else if p[0] == OK then Good(Outcome.Ok)
    else if p[0] == ERR then
      var e :- DecodeError(p[1..]);
      Good(Failed(e))
    else Invalid
  }

  function DecodeQueryResult(p: seq<byte>): Decoded<WireResult> {
    var a :- DecodeId(p);
    var total :- DecodeAmount(p[8..]);
    if |p| < 12 then Panic
    else
      var n :- DecodeLen(p[12..]);
      var spent :- DecodeMany(p[20..], n, 12, DecodeSpent);
      Good(AccountQueryResult(a, total, spent))
  }

  /** The failure of a LimitCard is not decoded yet: the source stops at a `todo!()`. */
  function DecodeResult(p: seq<byte>): Decoded<WireResult> {
    if p == [] then Panic
    else if p[0] == CHARGE_RESULT then
      var outcome :- DecodeOutcome(p[1..]);
      Good(ChargeResult(outcome))
    else if p[0] == LIMIT_ACCOUNT_RESULT then
      var outcome :- DecodeOutcome(p[1..]);
      Good(LimitAccountResult(outcome))
    else if p[0] == LIMIT_CARD_RESULT then
      if p[1..] == [] then Panic
      else if p[1] == OK then Good(LimitCardResult(Outcome.Ok))
      else if p[1] == ERR then Panic
      else Invalid
    else if p[0] == QUERY_RESULT then DecodeQueryResult(p[1..])
    else Invalid
  }

  // ---- messages ----

  /** The check multiplies in 64 bits: for huge declared lengths the product wraps, and the records run out later. */
  function DecodeClusterView(p: seq<byte>): Decoded<WireMsg> {
    var n :- DecodeLen(p);
    if |p| < 14 * n % 0x1_0000_0000_0000_0000 then Invalid
    else
      var members :- DecodeMany(p[8..], n, 14, DecodeMember);
      var q := p[8..][n * 14..];
      var addr :- DecodeAddr(q);
      var s :- DecodeDump(q[6..]);
      Good(ClusterView(members, addr, s))
  }

  function DecodeRequest(p: seq<byte>): Decoded<WireMsg> {
    var reqId :- DecodeOpId(p);
    var addr :- DecodeAddr(p[4..]);
    var op :- DecodeOp(p[10..]);
    Good(Request(reqId, addr, op))
  }

  function DecodeLog(p: seq<byte>): Decoded<WireMsg> {
    var opId :- DecodeOpId(p);
    var op :- DecodeOp(p[4..]);
    Good(Log(opId, op))
  }

  function DecodeResponse(p: seq<byte>): Decoded<WireMsg> {
    var reqId :- DecodeOpId(p);
    var r :- DecodeResult(p[4..]);
    Good(Response(reqId, r))
  }

  function DecodeIdAndAddr(p: seq<byte>): Decoded<(u64, SocketAddr)> {
    var id :- DecodeId(p);
    var addr :- DecodeAddr(p[8..]);
    Good((id, addr))
  }

  function DecodeMessage(p: seq<byte>): Decoded<WireMsg> {
    if p == [] then Panic
    else if p[0] == REQUEST then DecodeRequest(p[1..])
    else if p[0] == LOG then DecodeLog(p[1..])
    else if p[0] == ACK then
      var opId :- DecodeOpId(p[1..]);
      Good(Ack(opId))
    else if p[0] == JOIN then
      var addr :- DecodeAddr(p[1..]);
      Good(Join(addr))
    else if p[0] == CLUSTER_VIEW then DecodeClusterView(p[1..])
    else if p[0] == CLUSTER_UPDATE then
      if |p[1..]| < 14 then Invalid
      else
        var member :- DecodeMember(p[1..]);
        Good(ClusterUpdate(member))
    else if p[0] == RESPONSE then DecodeResponse(p[1..])
    else if p[0] == ROLE_QUERY then
      var addr :- DecodeAddr(p[1..]);
      Good(RoleQuery(addr))
    else if p[0] == COORDINATOR then
      var x :- DecodeIdAndAddr(p[1..]);
      Good(Coordinator(x.0, x.1))
    else if p[0] == ELECTION then
      var x :- DecodeIdAndAddr(p[1..]);
      Good(Election(x.0, x.1))
    else if p[0] == ELECTION_OK then
      var id :- DecodeId(p[1..]);
      Good(ElectionOk(id))
    else Invalid
  }

  // ---- the decoders with loops ----

  lemma Stride(i: nat, size: nat)
    ensures (i + 1) * size == i * size + size
  {
  }

  /** Reading records one at a time with a moving pointer, which stops at the first that fails. */
  ghost predicate ReadSoFar<T>(p: seq<byte>, start: nat, n: nat, size: nat, f: seq<byte> -> Decoded<T>, i: nat, xs: seq<T>) {
    && i <= n && |xs| == i && start + i * size <= |p|
    && (forall q: seq<byte> :: f(q).Good? ==> |q| >= size)
    && DecodeMany(p[start..], n, size, f) ==
       match DecodeMany(p[start + i * size..], n - i, size, f)
       case Good(ys) => Good(xs + ys)
       case Invalid => Invalid
       case Panic => Panic
  }

  lemma ReadsStart<T>(p: seq<byte>, start: nat, n: nat, size: nat, f: seq<byte> -> Decoded<T>)
    requires start <= |p| && forall q: seq<byte> :: f(q).Good? ==> |q| >= size
    ensures ReadSoFar(p, start, n, size, f, 0, [])
  {
    match DecodeMany(p[start..], n, size, f) {
      case Good(ys) => assert [] + ys == ys;
      case _ =>
    }
  }

  lemma ReadsNext<T>(p: seq<byte>, start: nat, n: nat, size: nat, f: seq<byte> -> Decoded<T>, i: nat, xs: seq<T>, ptr: nat)
    requires ReadSoFar(p, start, n, size, f, i, xs) && i < n && ptr == start + i * size
    ensures start <= |p| && ptr <= |p|
    ensures match f(p[ptr..])
      case Good(x) => ReadSoFar(p, start, n, size, f, i + 1, xs + [x]) && ptr + size == start + (i + 1) * size
      case Invalid => DecodeMany(p[start..], n, size, f) == Invalid
      case Panic => DecodeMany(p[start..], n, size, f) == Panic
  {
    hide DecodeMany;
    Stride(i, size);
    var tail := p[ptr..];
    DecodeFirst(tail, n - i, size, f);
    if f(tail).Good? {
      var x := f(tail).value;
      assert tail[size..] == p[ptr + size..] && n - i - 1 == n - (i + 1);
      match DecodeMany(tail[size..], n - i - 1, size, f) {
        case Good(ys) => assert xs + ([x] + ys) == xs + [x] + ys;
        case _ =>
      }
    }
  }

  lemma DecodeFirst<T>(tail: seq<byte>, n: nat, size: nat, f: seq<byte> -> Decoded<T>)
    requires n > 0 && forall q: seq<byte> :: f(q).Good? ==> |q| >= size
    ensures DecodeMany(tail, n, size, f) ==
      match f(tail)
      case Good(x) =>
        (match DecodeMany(tail[size..], n - 1, size, f)
         case Good(ys) => Good([x] + ys)
         case Invalid => Invalid
         case Panic => Panic)
      case Invalid => Invalid
      case Panic => Panic
  {
  }

  lemma ReadsEnd<T>(p: seq<byte>, start: nat, n: nat, size: nat, f: seq<byte> -> Decoded<T>, xs: seq<T>)
    requires ReadSoFar(p, start, n, size, f, n, xs)
    ensures DecodeMany(p[start..], n, size, f) == Good(xs) && start + n * size <= |p|
  {
    assert DecodeMany(p[start + n * size..], 0, size, f) == Good([]);
    assert xs + [] == xs;
  }

  /** The loop of every counted list: one record after the other, the pointer moving on by its size. */
  method ReadRecords<T>(payload: seq<byte>, start: nat, n: nat, size: nat, f: seq<byte> -> Decoded<T>)
    returns (r: Decoded<seq<T>>, ptr: nat)
    requires start <= |payload| && forall q: seq<byte> :: f(q).Good? ==> |q| >= size
    ensures r == DecodeMany(payload[start..], n, size, f)
    ensures r.Good? ==> ptr == start + n * size <= |payload|
  {
    hide DecodeMany, ReadSoFar;
    ptr := start;
    var xs: seq<T> := [];
    ReadsStart(payload, start, n, size, f);
    for i := 0 to n
      invariant ptr == start + i * size
      invariant ReadSoFar(payload, start, n, size, f, i, xs)
    {
      ReadsNext(payload, start, n, size, f, i, xs, ptr);
      var x := f(payload[ptr..]);
      if x.IsFailure() {
        return x.PropagateFailure(), ptr;
      }
      ptr := ptr + size;
      xs := xs + [x.value];
    }
    ReadsEnd(payload, start, n, size, f, xs);
    r := Good(xs);
  }

  method DeserializeDump(payload: seq<byte>) returns (r: Decoded<WireDump>)
    ensures r == DecodeDump(payload)
  {
    hide DecodeAccount, DecodeCard, DecodeMany, DecodeAddr;
    assert payload[0..] == payload;
    var ptr := 0;
    var addr :- DecodeAddr(payload[ptr..]);
    ptr := ptr + 6;
    var accountsLen :- DecodeLen(payload[ptr..]);
    ptr := ptr + 8;
    var accounts;
    accounts, ptr := ReadRecords(payload, ptr, accountsLen, 16, DecodeAccount);
    if accounts.IsFailure() {
      return accounts.PropagateFailure();
    }
    assert payload[14..][accountsLen * 16..] == payload[ptr..];
    var cardsLen :- DecodeLen(payload[ptr..]);
    assert payload[ptr..][8..] == payload[ptr + 8..];
    ptr := ptr + 8;
    var cards;
    cards, ptr := ReadRecords(payload, ptr, cardsLen, 24, DecodeCard);
    if cards.IsFailure() {
      return cards.PropagateFailure();
    }
    return Good(DatabaseSnapshot(addr, accounts.value, cards.value));
  }

  method DeserializeQueryResult(payload: seq<byte>) returns (r: Decoded<WireResult>)
    ensures r == DecodeQueryResult(payload)
  {
    hide DecodeSpent, DecodeMany;
    assert payload[0..] == payload;
    var ptr := 0;
    var a :- DecodeId(payload[ptr..]);
    ptr := ptr + 8;
    var total :- DecodeAmount(payload[ptr..]);
    ptr := ptr + 4;
    var n :- DecodeLen(payload[ptr..]);
    ptr := ptr + 8;
    var spent;
    spent, ptr := ReadRecords(payload, ptr, n, 12, DecodeSpent);
    if spent.IsFailure() {
      return spent.PropagateFailure();
    }
    return Good(AccountQueryResult(a, total, spent.value));
  }

  method DeserializeClusterView(payload: seq<byte>) returns (r: Decoded<WireMsg>)
    ensures r == DecodeClusterView(payload)
  {
    hide DecodeMember, DecodeDump, DecodeMany, DecodeAddr;
    assert payload[0..] == payload;
    var ptr := 0;
    var n :- DecodeLen(payload[ptr..]);
    if |payload| < 14 * n as int % 0x1_0000_0000_0000_0000 {
      return Invalid;
    }
    ptr := ptr + 8;
    var members;
    members, ptr := ReadRecords(payload, ptr, n, 14, DecodeMember);
    if members.IsFailure() {
      return members.PropagateFailure();
    }
    assert payload[8..][n * 14..] == payload[ptr..];
    var addr :- DecodeAddr(payload[ptr..]);
    assert payload[ptr..][6..] == payload[ptr + 6..];
    ptr := ptr + 6;
    var database := DeserializeDump(payload[ptr..]);
    if database.IsFailure() {
      return database.PropagateFailure();
    }
    return Good(ClusterView(members.value, addr, database.value));
  }

  // ---- the decoders that read field after field; behind a length check no field can fail ----

  method DeserializeCharge(payload: seq<byte>) returns (r: Decoded<WireOp>)
    ensures r == DecodeCharge(payload)
  {
    if |payload| != 21 {
      return Invalid;
    }
    assert payload[0..] == payload;
    var ptr := 0;
    var a := DecodeId(payload[ptr..]).value;
    ptr := ptr + 8;
    var c := DecodeId(payload[ptr..]).value;
    ptr := ptr + 8;
    var amount := DecodeAmount(payload[ptr..]).value;
    ptr := ptr + 4;
    var fromOffline :- DecodeFlag(payload[ptr..]);
    return Good(Charge(a, c, amount, fromOffline));
  }

  method DeserializeLimitAccount(payload: seq<byte>) returns (r: Decoded<WireOp>)
    ensures r == DecodeLimitAccount(payload)
  {
    if |payload| != 12 {
      return Invalid;
    }
    assert payload[0..] == payload;
    var ptr := 0;
    var a := DecodeId(payload[ptr..]).value;
    ptr := ptr + 8;
    var newLimit := DecodeLimit(payload[ptr..]).value;
    return Good(LimitAccount(a, newLimit));
  }

  method DeserializeLimitCard(payload: seq<byte>) returns (r: Decoded<WireOp>)
    ensures r == DecodeLimitCard(payload)
  {
    if |payload| != 20 {
      return Invalid;
    }
    assert payload[0..] == payload;
    var ptr := 0;
    var a := DecodeId(payload[ptr..]).value;
    ptr := ptr + 8;
    var c := DecodeId(payload[ptr..]).value;
    ptr := ptr + 8;
    var newLimit := DecodeLimit(payload[ptr..]).value;
    return Good(LimitCard(a, c, newLimit));
  }

  method DeserializeBill(payload: seq<byte>) returns (r: Decoded<WireOp>)
    ensures r == DecodeBill(payload)
  {
    if |payload| < 8 {
      return Invalid;
    }
    assert payload[0..] == payload;
    var ptr := 0;
    var a := DecodeId(payload[ptr..]).value;
    ptr := ptr + 8;
    var period := None;
    if |payload| > ptr {
      var periodBytes := payload[ptr..];
      if !Utf8.Valid(periodBytes) {
        return Invalid;
      }
      if periodBytes != [0] {
        if Utf8.CharLen(periodBytes) > 1 {
          return Panic;
        }
        period := Some(periodBytes[1..]);
      }
    }
    return Good(Bill(a, period));
  }

  method DeserializeOperation(payload: seq<byte>) returns (r: Decoded<WireOp>)
    ensures r == DecodeOp(payload)
  {
    hide DecodeCharge, DecodeLimitAccount, DecodeLimitCard, DecodeBill, DecodeDump, DecodeAddr;
    if payload == [] {
      return Panic;
    }
    var kind, fields := payload[0], payload[1..];
    if kind == OP_CHARGE {
      r := DeserializeCharge(fields);
    } else if kind == OP_LIMIT_ACCOUNT {
      r := DeserializeLimitAccount(fields);
    } else if kind == OP_LIMIT_CARD {
      r := DeserializeLimitCard(fields);
    } else if kind == OP_QUERY {
      if |fields| != 8 {
        return Invalid;
      }
      r := Good(AccountQuery(DecodeId(fields).value));
    } else if kind == OP_BILL {
      r := DeserializeBill(fields);
    } else if kind == OP_GET_DATABASE {
      var addr :- DecodeAddr(fields);
      r := Good(GetDatabase(addr));
    } else if kind == OP_REPLACE_DATABASE {
      var snapshot := DeserializeDump(fields);
      r := if snapshot.Good? then Good(ReplaceDatabase(snapshot.value)) else snapshot.PropagateFailure();
    } else {
      r := Invalid;
    }
  }

  method DeserializeResult(payload: seq<byte>) returns (r: Decoded<WireResult>)
    ensures r == DecodeResult(payload)
  {
    hide DecodeOutcome, DecodeQueryResult;
    if payload == [] {
      return Panic;
    }
    var kind, rest := payload[0], payload[1..];
    if kind == CHARGE_RESULT {
      var outcome :- DecodeOutcome(rest);
      r := Good(ChargeResult(outcome));
    } else if kind == LIMIT_ACCOUNT_RESULT {
      var outcome :- DecodeOutcome(rest);
      r := Good(LimitAccountResult(outcome));
    } else if kind == LIMIT_CARD_RESULT {
      if rest == [] || rest[0] == ERR {
        return Panic;
      }
      r := if rest[0] == OK then Good(LimitCardResult(Outcome.Ok)) else Invalid;
    } else if kind == QUERY_RESULT {
      r := DeserializeQueryResult(rest);
    } else {
      r := Invalid;
    }
  }

  method DeserializeRequest(payload: seq<byte>) returns (r: Decoded<WireMsg>)
    ensures r == DecodeRequest(payload)
  {
    hide DecodeOp, DecodeAddr;
    assert payload[0..] == payload;
    var ptr := 0;
    var reqId :- DecodeOpId(payload[ptr..]);
    ptr := ptr + 4;
    var addr :- DecodeAddr(payload[ptr..]);
    ptr := ptr + 6;
    var op := DeserializeOperation(payload[ptr..]);
    r := if op.Good? then Good(Request(reqId, addr, op.value)) else op.PropagateFailure();
  }

  method DeserializeLog(payload: seq<byte>) returns (r: Decoded<WireMsg>)
    ensures r == DecodeLog(payload)
  {
    hide DecodeOp;
    assert payload[0..] == payload;
    var ptr := 0;
    var opId :- DecodeOpId(payload[ptr..]);
    ptr := ptr + 4;
    var op := DeserializeOperation(payload[ptr..]);
    r := if op.Good? then Good(Log(opId, op.value)) else op.PropagateFailure();
  }

  method DeserializeResponse(payload: seq<byte>) returns (r: Decoded<WireMsg>)
    ensures r == DecodeResponse(payload)
  {
    hide DecodeResult;
    assert payload[0..] == payload;
    var ptr := 0;
    var reqId :- DecodeOpId(payload[ptr..]);
    ptr := ptr + 4;
    var result := DeserializeResult(payload[ptr..]);
    r := if result.Good? then Good(Response(reqId, result.value)) else result.PropagateFailure();
  }

  /** The fields of a Coordinator, and of an Election: an id and an address. */
  method DeserializeIdAndAddr(payload: seq<byte>) returns (r: Decoded<(u64, SocketAddr)>)
    ensures r == DecodeIdAndAddr(payload)
  {
    hide DecodeAddr;
    assert payload[0..] == payload;
    var ptr := 0;
    var id :- DecodeId(payload[ptr..]);
    ptr := ptr + 8;
    var addr :- DecodeAddr(payload[ptr..]);
    return Good((id, addr));
  }

  /** `TryFrom<Vec<u8>> for Message`. */
  method DeserializeMessage(payload: seq<byte>) returns (r: Decoded<WireMsg>)
    ensures r == DecodeMessage(payload)
  {
    hide DecodeRequest, DecodeLog, DecodeResponse, DecodeClusterView, DecodeIdAndAddr, DecodeAddr, DecodeMember;
    if payload == [] {
      return Panic;
    }
    var kind, fields := payload[0], payload[1..];
    if kind == REQUEST {
      r := DeserializeRequest(fields);
    } else if kind == LOG {
      r := DeserializeLog(fields);
    } else if kind == ACK {
      var opId :- DecodeOpId(fields);
      r := Good(Ack(opId));
    } else if kind == JOIN {
      var addr :- DecodeAddr(fields);
      r := Good(Join(addr));
    } else if kind == CLUSTER_VIEW {
      r := DeserializeClusterView(fields);
    } else if kind == CLUSTER_UPDATE {
      if |fields| < 14 {
        return Invalid;
      }
      r := Good(ClusterUpdate(DecodeMember(fields).value));
    } else if kind == RESPONSE {
      r := DeserializeResponse(fields);
    } else if kind == ROLE_QUERY {
      var addr :- DecodeAddr(fields);
      r := Good(RoleQuery(addr));
    } else if kind == COORDINATOR {
      var x := DeserializeIdAndAddr(fields);
      r := if x.Good? then Good(Coordinator(x.value.0, x.value.1)) else x.PropagateFailure();
    } else if kind == ELECTION {
      var x := DeserializeIdAndAddr(fields);
      r := if x.Good? then Good(Election(x.value.0, x.value.1)) else x.PropagateFailure();
    } else if kind == ELECTION_OK {
      var responderId :- DecodeId(fields);
      r := Good(ElectionOk(responderId));
    } else {
      r := Invalid;
    }
  }
}
