/**
 The forwarding client of a station: it forwards charges while it can and otherwise accepts
 them itself, to replay them later. Any send may fail.
 */
module Clients {
  import opened Wrappers
  import opened Protocol
  import opened Messages
  import opened Nodes

  datatype QueuedCharge = QueuedCharge(accountId: u64, cardId: u64, amount: real)

  /** A charge, and the request id under which a pump asked for it. */
  datatype Ask = Ask(requestId: u32, charge: QueuedCharge)

  /** What the station says to its node. */
  datatype StationRequest =
    | ChargeRequest(accountId: u64, cardId: u64, amount: real, requestId: u32)
    | DisconnectNode
    | ConnectNode

  /** What the event loop picks next: a station message or a network message. */
  datatype Event = FromStation(request: StationRequest) | FromNode(msg: Msg)

  datatype Attempt = Attempt(target: SocketAddr, msg: Msg, delivered: bool)

  /** Every attempt to send, with its outcome. */
  class LossyConnection {
    var attempts: seq<Attempt>

    constructor ()
      ensures attempts == []
    {
      attempts := [];
    }

    method Send(msg: Msg, target: SocketAddr) returns (ok: bool)
      modifies this
      ensures attempts == old(attempts) + [Attempt(target, msg, ok)]
    {
      ok := *;
      attempts := attempts + [Attempt(target, msg, ok)];
    }
  }

  class LossyStation {
    var told: seq<StationMsg>

    constructor ()
      ensures told == []
    {
      told := [];
    }

    method Send(msg: StationMsg) returns (ok: bool)
      modifies this
      ensures told == old(told) + if ok then [msg] else []
    {
      ok := *;
      if ok {
        told := told + [msg];
      }
    }
  }

  // ---- one charge, offered to the known nodes in order ----

  function RequestOf(charge: QueuedCharge, reqId: u32, from: SocketAddr, replayed: bool): Msg {
    Request(reqId, from, Charge(charge.accountId, charge.cardId, charge.amount, replayed))
  }

  /** Every offer of a replay uses up a request id. */
  function IdAt(first: u32, i: nat, replayed: bool): u32 {
    if replayed then (first + i) % 0x1_0000_0000 else first
  }

  /** How many nodes were tried, and whether the last one took the charge. */
  datatype Effort = Effort(tries: nat, sent: bool)

  /** Nodes are tried until one accepts; nobody took it only if everybody was tried. */
  predicate Possible(effort: Effort, known: seq<SocketAddr>) {
    if effort.sent then 1 <= effort.tries <= |known| else effort.tries == |known|
  }

  function Tries(known: seq<SocketAddr>, charge: QueuedCharge, from: SocketAddr, replayed: bool, first: u32, effort: Effort): (offers: seq<Attempt>)
    requires effort.tries <= |known|
  {
    seq(effort.tries, i requires 0 <= i < effort.tries =>
      Attempt(known[i], RequestOf(charge, IdAt(first, i, replayed), from, replayed), effort.sent && i == effort.tries - 1))
  }

  /** The charge a delivered message carries, fresh from the pump or replayed. */
  function Carried(attempt: Attempt, replayed: bool): multiset<QueuedCharge> {
    if attempt.delivered && attempt.msg.Request? && attempt.msg.op.Charge? && attempt.msg.op.fromOfflineStation == replayed then
      multiset{QueuedCharge(attempt.msg.op.accountId, attempt.msg.op.cardId, attempt.msg.op.amount)}
    else
      multiset{}
  }

  /** The charges delivered: those forwarded at once, or those replayed. */
  function ChargesSent(attempts: seq<Attempt>, replayed: bool): multiset<QueuedCharge> {
    if attempts == [] then multiset{}
    else ChargesSent(attempts[..|attempts| - 1], replayed) + Carried(attempts[|attempts| - 1], replayed)
  }

  lemma SentOne(attempts: seq<Attempt>, attempt: Attempt, replayed: bool)
    ensures ChargesSent(attempts + [attempt], replayed) == ChargesSent(attempts, replayed) + Carried(attempt, replayed)
  {
    hide Carried;
    assert (attempts + [attempt])[..|attempts|] == attempts;
  }

  lemma SentNothing(replayed: bool)
    ensures ChargesSent([], replayed) == multiset{}
  {
  }

  lemma {:induction false} SentMore(attempts: seq<Attempt>, more: seq<Attempt>, replayed: bool)
    ensures ChargesSent(attempts + more, replayed) == ChargesSent(attempts, replayed) + ChargesSent(more, replayed)
    decreases |more|
  {
    hide Carried, ChargesSent;
    if more == [] {
      assert attempts + more == attempts;
      SentNothing(replayed);
    } else {
      var front, last := more[..|more| - 1], more[|more| - 1];
      SentMore(attempts, front, replayed);
      assert more == front + [last] && attempts + more == (attempts + front) + [last];
      SentOne(front, last, replayed);
      SentOne(attempts + front, last, replayed);
    }
  }

  lemma {:induction false} SentNone(attempts: seq<Attempt>, replayed: bool)
    requires forall a :: a in attempts ==> Carried(a, replayed) == multiset{}
    ensures ChargesSent(attempts, replayed) == multiset{}
    decreases |attempts|
  {
    hide Carried, ChargesSent;
    if attempts == [] {
      SentNothing(replayed);
    } else {
      var front, last := attempts[..|attempts| - 1], attempts[|attempts| - 1];
      SentNone(front, replayed);
      assert attempts == front + [last];
      SentOne(front, last, replayed);
    }
  }

  /** A charge offered to several nodes arrives once, or not at all. */
  lemma TriesSend(known: seq<SocketAddr>, charge: QueuedCharge, from: SocketAddr, replayed: bool, first: u32, effort: Effort, kind: bool)
    requires Possible(effort, known)
    ensures ChargesSent(Tries(known, charge, from, replayed, first, effort), kind) ==
      if effort.sent && kind == replayed then multiset{charge} else multiset{}
  {
    hide ChargesSent, Tries, Carried;
    if effort.sent {
      var n := effort.tries - 1;
      TriesNext(known, charge, from, replayed, first, n, true);
      RefusedSend(known, charge, from, replayed, first, n, kind);
      SentOne(Tries(known, charge, from, replayed, first, Effort(n, false)),
              Attempt(known[n], RequestOf(charge, IdAt(first, n, replayed), from, replayed), true), kind);
      RequestCarries(charge, known[n], IdAt(first, n, replayed), from, replayed, true, kind);
    } else {
      RefusedSend(known, charge, from, replayed, first, effort.tries, kind);
    }
  }

  /** One more node is tried. */
  lemma TriesNext(known: seq<SocketAddr>, charge: QueuedCharge, from: SocketAddr, replayed: bool, first: u32, n: nat, sent: bool)
    requires n < |known|
    ensures Tries(known, charge, from, replayed, first, Effort(n + 1, sent)) ==
      Tries(known, charge, from, replayed, first, Effort(n, false)) +
      [Attempt(known[n], RequestOf(charge, IdAt(first, n, replayed), from, replayed), sent)]
  {
    hide RequestOf, IdAt;
  }

  lemma NoTries(known: seq<SocketAddr>, charge: QueuedCharge, from: SocketAddr, replayed: bool, first: u32)
    ensures Tries(known, charge, from, replayed, first, Effort(0, false)) == []
  {
  }

  lemma RequestCarries(charge: QueuedCharge, target: SocketAddr, reqId: u32, from: SocketAddr, replayed: bool, delivered: bool, kind: bool)
    ensures Carried(Attempt(target, RequestOf(charge, reqId, from, replayed), delivered), kind) ==
      if delivered && kind == replayed then multiset{charge} else multiset{}
  {
  }

  /** Nodes that refuse receive nothing. */
  lemma {:induction false} RefusedSend(known: seq<SocketAddr>, charge: QueuedCharge, from: SocketAddr, replayed: bool, first: u32, n: nat, kind: bool)
    requires n <= |known|
    ensures ChargesSent(Tries(known, charge, from, replayed, first, Effort(n, false)), kind) == multiset{}
  {
    hide ChargesSent, Tries, Carried;
    if n == 0 {
      NoTries(known, charge, from, replayed, first);
      SentNothing(kind);
    } else {
      RefusedSend(known, charge, from, replayed, first, n - 1, kind);
      TriesNext(known, charge, from, replayed, first, n - 1, false);
      SentOne(Tries(known, charge, from, replayed, first, Effort(n - 1, false)),
              Attempt(known[n - 1], RequestOf(charge, IdAt(first, n - 1, replayed), from, replayed), false), kind);
      RequestCarries(charge, known[n - 1], IdAt(first, n - 1, replayed), from, replayed, false, kind);
    }
  }

  // ---- replaying the queue ----

  /** Those charges of the queue that were sent, or were not, in order. */
  function Pick(queue: seq<QueuedCharge>, efforts: seq<Effort>, sent: bool): seq<QueuedCharge>
    requires |queue| == |efforts|
  {
    if queue == [] then []
    else
      var n := |queue| - 1;
      Pick(queue[..n], efforts[..n], sent) + if efforts[n].sent == sent then [queue[n]] else []
  }

  function TriesMade(efforts: seq<Effort>): nat {
    if efforts == [] then 0 else TriesMade(efforts[..|efforts| - 1]) + efforts[|efforts| - 1].tries
  }

  ghost predicate AllPossible(efforts: seq<Effort>, known: seq<SocketAddr>) {
    forall i :: 0 <= i < |efforts| ==> Possible(efforts[i], known)
  }

  /** Each charge of the queue in turn, offered to the known nodes in order. */
  ghost function Replays(queue: seq<QueuedCharge>, efforts: seq<Effort>, known: seq<SocketAddr>, from: SocketAddr, first: u32): seq<Attempt>
    requires |queue| == |efforts| && AllPossible(efforts, known)
  {
    if queue == [] then []
    else
      var n := |queue| - 1;
      Replays(queue[..n], efforts[..n], known, from, first) +
      Tries(known, queue[n], from, true, IdAt(first, TriesMade(efforts[..n]), true), efforts[n])
  }

  lemma IdStart(first: u32)
    ensures IdAt(first, 0, true) == first
  {
  }

  lemma IdNext(first: u32, i: nat)
    ensures (IdAt(first, i, true) + 1) % 0x1_0000_0000 == IdAt(first, i + 1, true)
  {
  }

  lemma IdsAdd(first: u32, a: nat, b: nat)
    ensures IdAt(IdAt(first, a, true), b, true) == IdAt(first, a + b, true)
  {
  }

  lemma EffortNext(draining: seq<QueuedCharge>, efforts: seq<Effort>, effort: Effort, known: seq<SocketAddr>, from: SocketAddr, first: u32)
    requires |efforts| < |draining| && AllPossible(efforts, known) && Possible(effort, known)
    ensures AllPossible(efforts + [effort], known)
    ensures Pick(draining[..|efforts| + 1], efforts + [effort], false) ==
      Pick(draining[..|efforts|], efforts, false) + if effort.sent then [] else [draining[|efforts|]]
    ensures Replays(draining[..|efforts| + 1], efforts + [effort], known, from, first) ==
      Replays(draining[..|efforts|], efforts, known, from, first) +
      Tries(known, draining[|efforts|], from, true, IdAt(first, TriesMade(efforts), true), effort)
    ensures IdAt(IdAt(first, TriesMade(efforts), true), effort.tries, true) == IdAt(first, TriesMade(efforts + [effort]), true)
  {
    hide Tries, IdAt, Pick, Replays, TriesMade, AllPossible, Possible;
    var n, queue, all := |efforts|, draining[..|efforts| + 1], efforts + [effort];
    assert queue[..n] == draining[..n] && all[..n] == efforts && queue[n] == draining[n] && all[n] == effort;
    MorePossible(efforts, effort, known);
    ReplaysLast(queue, all, known, from, first);
    PickLast(queue, all);
    IdsAdd(first, TriesMade(efforts), effort.tries);
  }

  lemma MorePossible(efforts: seq<Effort>, effort: Effort, known: seq<SocketAddr>)
    requires AllPossible(efforts, known) && Possible(effort, known)
    ensures AllPossible(efforts + [effort], known)
  {
    hide Possible;
  }

  lemma EffortStart(known: seq<SocketAddr>, from: SocketAddr, first: u32)
    ensures AllPossible([], known) && Pick([], [], false) == [] && Replays([], [], known, from, first) == []
    ensures IdAt(first, TriesMade([]), true) == first
  {
  }

  /** Nobody to replay to: nothing is tried and everything stays. */
  lemma {:induction false} NobodyKnown(queue: seq<QueuedCharge>, efforts: seq<Effort>, from: SocketAddr, first: u32)
    requires |queue| == |efforts| && forall i :: 0 <= i < |efforts| ==> efforts[i] == Effort(0, false)
    ensures AllPossible(efforts, []) && TriesMade(efforts) == 0 && IdAt(first, 0, true) == first
    ensures Pick(queue, efforts, false) == queue && Replays(queue, efforts, [], from, first) == []
    decreases |queue|
  {
    if queue != [] {
      var n := |queue| - 1;
      NobodyKnown(queue[..n], efforts[..n], from, first);
      assert queue == queue[..n] + [queue[n]];
    }
  }

  lemma {:induction false} PickAll(queue: seq<QueuedCharge>, efforts: seq<Effort>)
    requires |queue| == |efforts|
    ensures multiset(queue) == multiset(Pick(queue, efforts, true)) + multiset(Pick(queue, efforts, false))
    decreases |queue|
  {
    hide Pick;
    if queue == [] {
      PickLast(queue, efforts);
    } else {
      var n := |queue| - 1;
      PickAll(queue[..n], efforts[..n]);
      PickLast(queue, efforts);
      assert queue == queue[..n] + [queue[n]];
    }
  }

  lemma PickLast(queue: seq<QueuedCharge>, efforts: seq<Effort>)
    requires |queue| == |efforts|
    ensures queue == [] ==> Pick(queue, efforts, true) == [] && Pick(queue, efforts, false) == []
    ensures queue != [] ==>
      var n := |queue| - 1;
      && Pick(queue, efforts, true) == Pick(queue[..n], efforts[..n], true) + (if efforts[n].sent then [queue[n]] else [])
      && Pick(queue, efforts, false) == Pick(queue[..n], efforts[..n], false) + (if efforts[n].sent then [] else [queue[n]])
  {
  }

  /** A flush delivers, once each and marked as replayed, exactly the charges it does not keep. */
  lemma {:induction false} ReplaysSend(queue: seq<QueuedCharge>, efforts: seq<Effort>, known: seq<SocketAddr>, from: SocketAddr, first: u32)
    requires |queue| == |efforts| && AllPossible(efforts, known)
    ensures ChargesSent(Replays(queue, efforts, known, from, first), true) == multiset(Pick(queue, efforts, true))
    ensures ChargesSent(Replays(queue, efforts, known, from, first), false) == multiset{}
    decreases |queue|
  {
    hide ChargesSent, Tries;
    if queue == [] {
      SentNothing(true);
      SentNothing(false);
    } else {
      var n := |queue| - 1;
      var front := Replays(queue[..n], efforts[..n], known, from, first);
      var last := Tries(known, queue[n], from, true, IdAt(first, TriesMade(efforts[..n]), true), efforts[n]);
      ReplaysSend(queue[..n], efforts[..n], known, from, first);
      forall kind: bool
        ensures ChargesSent(front + last, kind) ==
          ChargesSent(front, kind) + if efforts[n].sent && kind then multiset{queue[n]} else multiset{}
      {
        SentMore(front, last, kind);
        TriesSend(known, queue[n], from, true, IdAt(first, TriesMade(efforts[..n]), true), efforts[n], kind);
      }
    }
  }

  /** What a flush keeps stays in the order of the queue: a kept charge has before it those kept before. */
  lemma {:induction false} PickAt(queue: seq<QueuedCharge>, efforts: seq<Effort>, sent: bool, i: nat)
    requires |queue| == |efforts| && i < |queue| && efforts[i].sent == sent
    ensures var before := |Pick(queue[..i], efforts[..i], sent)|;
      before < |Pick(queue, efforts, sent)| && Pick(queue, efforts, sent)[before] == queue[i]
    decreases |queue|
  {
    hide Pick;
    var n := |queue| - 1;
    PickLast(queue, efforts);
    if i < n {
      assert queue[..n][..i] == queue[..i] && efforts[..n][..i] == efforts[..i];
      PickAt(queue[..n], efforts[..n], sent, i);
    }
  }

  /**
   Offer `j` of charge `i` goes to the node `j` of the list, behind all offers of the charges before it,
   marked as replayed and under the next id modulo 2^32; it is the last one if the node takes it.
   */
  lemma {:induction false} ReplaysAt(queue: seq<QueuedCharge>, efforts: seq<Effort>, known: seq<SocketAddr>, from: SocketAddr, first: u32, i: nat, j: nat)
    requires |queue| == |efforts| && AllPossible(efforts, known) && i < |queue| && j < efforts[i].tries <= |known|
    ensures var replays, k := Replays(queue, efforts, known, from, first), TriesMade(efforts[..i]) + j;
      && |replays| == TriesMade(efforts) && k < |replays|
      && replays[k] == Attempt(
           known[j],
           Request((first + k) % 0x1_0000_0000, from, Charge(queue[i].accountId, queue[i].cardId, queue[i].amount, true)),
           efforts[i].sent && j == efforts[i].tries - 1)
    decreases |queue|
  {
    hide Replays, TriesMade, Tries, IdAt;
    var n := |queue| - 1;
    ReplaysLast(queue, efforts, known, from, first);
    ReplaysCount(queue[..n], efforts[..n], known, from, first);
    var made := TriesMade(efforts[..n]);
    TriesAt(known, queue[n], from, IdAt(first, made, true), efforts[n]);
    if i < n {
      assert queue[..n][i] == queue[i] && efforts[..n][i] == efforts[i] && efforts[..n][..i] == efforts[..i];
      ReplaysAt(queue[..n], efforts[..n], known, from, first, i, j);
    } else {
      IdsAdd(first, made, j);
      IdIs(first, made + j);
    }
  }

  lemma IdIs(first: u32, i: nat)
    ensures IdAt(first, i, true) == (first + i) % 0x1_0000_0000
  {
  }

  lemma TriesAt(known: seq<SocketAddr>, charge: QueuedCharge, from: SocketAddr, first: u32, effort: Effort)
    requires effort.tries <= |known|
    ensures var offers := Tries(known, charge, from, true, first, effort);
      && |offers| == effort.tries
      && forall j :: 0 <= j < effort.tries ==>
        offers[j] == Attempt(known[j], Request(IdAt(first, j, true), from, Charge(charge.accountId, charge.cardId, charge.amount, true)),
                             effort.sent && j == effort.tries - 1)
  {
    hide IdAt;
  }

  lemma {:induction false} ReplaysCount(queue: seq<QueuedCharge>, efforts: seq<Effort>, known: seq<SocketAddr>, from: SocketAddr, first: u32)
    requires |queue| == |efforts| && AllPossible(efforts, known)
    ensures |Replays(queue, efforts, known, from, first)| == TriesMade(efforts)
    decreases |queue|
  {
    hide Replays, TriesMade, IdAt;
    ReplaysLast(queue, efforts, known, from, first);
    if queue != [] {
      var n := |queue| - 1;
      ReplaysCount(queue[..n], efforts[..n], known, from, first);
    }
  }

  // ---- conservation ----

  function Charges(asks: seq<Ask>): seq<QueuedCharge> {
    seq(|asks|, i requires 0 <= i < |asks| => asks[i].charge)
  }

  /** What came in was forwarded or queued; what was queued was replayed or is still queued. */
  ghost predicate Balance(before: seq<Attempt>, after: seq<Attempt>,
                          queue: seq<QueuedCharge>, queue': seq<QueuedCharge>,
                          received: seq<Ask>, queued: seq<Ask>) {
    && ChargesSent(after, true) + multiset(queue') == ChargesSent(before, true) + multiset(queue) + multiset(Charges(queued))
    && ChargesSent(after, false) + multiset(Charges(queued)) == ChargesSent(before, false) + multiset(Charges(received))
  }

  lemma Offered(before: seq<Attempt>, known: seq<SocketAddr>, charge: QueuedCharge, reqId: u32, from: SocketAddr,
                effort: Effort, queue: seq<QueuedCharge>)
    requires Possible(effort, known)
    ensures Balance(before, before + Tries(known, charge, from, false, reqId, effort),
                    queue, if effort.sent then queue else queue + [charge],
                    [Ask(reqId, charge)], if effort.sent then [] else [Ask(reqId, charge)])
  {
    hide ChargesSent, Tries;
    assert Charges([Ask(reqId, charge)]) == [charge];
    var offers := Tries(known, charge, from, false, reqId, effort);
    SentMore(before, offers, true);
    SentMore(before, offers, false);
    TriesSend(known, charge, from, false, reqId, effort, true);
    TriesSend(known, charge, from, false, reqId, effort, false);
  }

  lemma Flushed(before: seq<Attempt>, queue: seq<QueuedCharge>, efforts: seq<Effort>, known: seq<SocketAddr>, from: SocketAddr, first: u32)
    requires |efforts| == |queue| && AllPossible(efforts, known)
    ensures Balance(before, before + Replays(queue, efforts, known, from, first), queue, Pick(queue, efforts, false), [], [])
  {
    hide ChargesSent, Pick, Replays;
    var news := Replays(queue, efforts, known, from, first);
    SentMore(before, news, true);
    SentMore(before, news, false);
    ReplaysSend(queue, efforts, known, from, first);
    PickAll(queue, efforts);
  }

  lemma Chain(a: multiset<QueuedCharge>, b: multiset<QueuedCharge>, c: multiset<QueuedCharge>,
              p: multiset<QueuedCharge>, q: multiset<QueuedCharge>, r: multiset<QueuedCharge>,
              x: multiset<QueuedCharge>, y: multiset<QueuedCharge>)
    requires b + q == a + p + x && c + r == b + q + y
    ensures c + r == a + p + (x + y)
  {
  }

  lemma ChainIn(a: multiset<QueuedCharge>, b: multiset<QueuedCharge>, c: multiset<QueuedCharge>,
                x: multiset<QueuedCharge>, y: multiset<QueuedCharge>, p: multiset<QueuedCharge>, q: multiset<QueuedCharge>)
    requires b + x == a + p && c + y == b + q
    ensures c + (x + y) == a + (p + q)
  {
    assert c + (x + y) == (c + y) + x;
    assert (b + q) + x == (b + x) + q;
    assert (a + p) + q == a + (p + q);
  }

  lemma BalanceThen(a: seq<Attempt>, b: seq<Attempt>, c: seq<Attempt>,
                    p: seq<QueuedCharge>, q: seq<QueuedCharge>, r: seq<QueuedCharge>,
                    in0: seq<Ask>, in1: seq<Ask>, out0: seq<Ask>, out1: seq<Ask>)
    requires Balance(a, b, p, q, in0, out0) && Balance(b, c, q, r, in1, out1)
    ensures Balance(a, c, p, r, in0 + in1, out0 + out1)
  {
    hide ChargesSent;
    assert Charges(in0 + in1) == Charges(in0) + Charges(in1);
    assert Charges(out0 + out1) == Charges(out0) + Charges(out1);
    hide Charges;
    Chain(ChargesSent(a, true), ChargesSent(b, true), ChargesSent(c, true),
          multiset(p), multiset(q), multiset(r), multiset(Charges(out0)), multiset(Charges(out1)));
    ChainIn(ChargesSent(a, false), ChargesSent(b, false), ChargesSent(c, false),
            multiset(Charges(out0)), multiset(Charges(out1)), multiset(Charges(in0)), multiset(Charges(in1)));
  }

  lemma NothingHappened(attempts: seq<Attempt>, queue: seq<QueuedCharge>)
    ensures Balance(attempts, attempts, queue, queue, [], [])
  {
  }

  lemma NothingCarried(before: seq<Attempt>, more: seq<Attempt>, queue: seq<QueuedCharge>)
    requires forall x :: x in more ==> !x.msg.Request?
    ensures Balance(before, before + more, queue, queue, [], [])
  {
    hide ChargesSent;
    SentNone(more, true);
    SentNone(more, false);
    SentMore(before, more, true);
    SentMore(before, more, false);
  }

  // ---- what the station asks and is told ----

  /** The charge a pump asks for, if this is such a request. */
  function Asked(request: StationRequest): seq<Ask> {
    if request.ChargeRequest? then [Ask(request.requestId, QueuedCharge(request.accountId, request.cardId, request.amount))] else []
  }

  function RequestIds(asks: seq<Ask>): set<u32> {
    set ask | ask in asks :: ask.requestId
  }

  function AskedNow(event: Event): seq<Ask> {
    if event.FromStation? then Asked(event.request) else []
  }

  function AskedIn(events: seq<Event>): seq<Ask> {
    if events == [] then [] else AskedIn(events[..|events| - 1]) + AskedNow(events[|events| - 1])
  }

  lemma AskedNext(events: seq<Event>, n: nat)
    requires n < |events|
    ensures AskedIn(events[..n + 1]) == AskedIn(events[..n]) + AskedNow(events[n])
  {
    assert events[..n + 1][..n] == events[..n];
  }

  // ---- what the nodes are asked ----

  /** A fresh charge that was delivered, with the request id it was delivered under. */
  function FreshAsk(attempt: Attempt): multiset<Ask> {
    if attempt.delivered && attempt.msg.Request? && attempt.msg.op.Charge? && !attempt.msg.op.fromOfflineStation then
      multiset{Ask(attempt.msg.reqId, QueuedCharge(attempt.msg.op.accountId, attempt.msg.op.cardId, attempt.msg.op.amount))}
    else
      multiset{}
  }

  function AsksSent(attempts: seq<Attempt>): multiset<Ask> {
    if attempts == [] then multiset{} else AsksSent(attempts[..|attempts| - 1]) + FreshAsk(attempts[|attempts| - 1])
  }

  lemma AsksOne(attempts: seq<Attempt>, attempt: Attempt)
    ensures AsksSent(attempts + [attempt]) == AsksSent(attempts) + FreshAsk(attempt)
  {
    hide FreshAsk;
    assert (attempts + [attempt])[..|attempts|] == attempts;
  }

  lemma {:induction false} AsksMore(attempts: seq<Attempt>, more: seq<Attempt>)
    ensures AsksSent(attempts + more) == AsksSent(attempts) + AsksSent(more)
    decreases |more|
  {
    hide FreshAsk, AsksSent;
    if more == [] {
      assert attempts + more == attempts;
      NoAsks([]);
    } else {
      var front, last := more[..|more| - 1], more[|more| - 1];
      AsksMore(attempts, front);
      assert more == front + [last] && attempts + more == (attempts + front) + [last];
      AsksOne(front, last);
      AsksOne(attempts + front, last);
    }
  }

  lemma {:induction false} NoAsks(attempts: seq<Attempt>)
    requires forall a :: a in attempts ==> FreshAsk(a) == multiset{}
    ensures AsksSent(attempts) == multiset{}
    decreases |attempts|
  {
    if attempts != [] {
      NoAsks(attempts[..|attempts| - 1]);
    }
  }

  /** One charge, offered to the known nodes in their order until one takes it, under the client's own address. */
  ghost predicate Offer(offer: seq<Attempt>, known: seq<SocketAddr>, from: SocketAddr) {
    && 0 < |offer| <= |known| && offer[0].msg.Request?
    && (forall i :: 0 <= i < |offer| ==>
      && offer[i].target == known[i] && offer[i].msg.Request? && offer[i].msg.addr == from
      && offer[i].msg.op.Charge? && offer[i].msg.op == offer[0].msg.op
      && (offer[i].delivered ==> i == |offer| - 1))
    && (offer[|offer| - 1].delivered || |offer| == |known|)
  }

  /** The attempts are such offers, one after the other, with answers to other questions in between. */
  ghost predicate InTurn(attempts: seq<Attempt>, known: seq<SocketAddr>, from: SocketAddr)
    decreases |attempts|
  {
    || attempts == []
    || (!attempts[|attempts| - 1].msg.Request? && InTurn(attempts[..|attempts| - 1], known, from))
    || exists k :: 0 <= k < |attempts| && Offer(attempts[k..], known, from) && InTurn(attempts[..k], known, from)
  }

  lemma OneOffer(attempts: seq<Attempt>, offer: seq<Attempt>, known: seq<SocketAddr>, from: SocketAddr)
    requires InTurn(attempts, known, from) && Offer(offer, known, from)
    ensures InTurn(attempts + offer, known, from)
  {
    hide Offer;
    var all, k := attempts + offer, |attempts|;
    OfferIsSome(offer, known, from);
    assert all[k..] == offer && all[..k] == attempts;
  }

  lemma OfferIsSome(offer: seq<Attempt>, known: seq<SocketAddr>, from: SocketAddr)
    requires Offer(offer, known, from)
    ensures |offer| > 0
  {
  }

  lemma OneAnswer(attempts: seq<Attempt>, answer: Attempt, known: seq<SocketAddr>, from: SocketAddr)
    requires InTurn(attempts, known, from) && !answer.msg.Request?
    ensures InTurn(attempts + [answer], known, from)
  {
    hide Offer;
    assert (attempts + [answer])[..|attempts|] == attempts;
  }

  /** The last thing in a log is an answer or an offer. */
  lemma LastTurn(attempts: seq<Attempt>, known: seq<SocketAddr>, from: SocketAddr) returns (k: nat)
    requires InTurn(attempts, known, from) && attempts != []
    ensures k < |attempts| && InTurn(attempts[..k], known, from)
    ensures (k == |attempts| - 1 && !attempts[k].msg.Request?) || Offer(attempts[k..], known, from)
  {
    hide Offer;
    k := |attempts| - 1;
    if attempts[k].msg.Request? || !InTurn(attempts[..k], known, from) {
      k :| 0 <= k < |attempts| && Offer(attempts[k..], known, from) && InTurn(attempts[..k], known, from);
    }
  }

  lemma {:induction false} InTurnThen(a: seq<Attempt>, b: seq<Attempt>, known: seq<SocketAddr>, from: SocketAddr)
    requires InTurn(a, known, from) && InTurn(b, known, from)
    ensures InTurn(a + b, known, from)
    decreases |b|
  {
    hide Offer, InTurn;
    if b == [] {
      assert a + b == a;
    } else {
      var k := LastTurn(b, known, from);
      InTurnThen(a, b[..k], known, from);
      if Offer(b[k..], known, from) {
        OneOffer(a + b[..k], b[k..], known, from);
      } else {
        OneAnswer(a + b[..k], b[k], known, from);
        assert b[k..] == [b[k]];
      }
      assert a + b == (a + b[..k]) + b[k..];
    }
  }

  lemma TriesOffer(known: seq<SocketAddr>, charge: QueuedCharge, from: SocketAddr, replayed: bool, first: u32, effort: Effort)
    requires Possible(effort, known) && effort.tries > 0
    ensures Offer(Tries(known, charge, from, replayed, first, effort), known, from)
  {
    hide IdAt;
  }

  lemma TriesInTurn(known: seq<SocketAddr>, charge: QueuedCharge, from: SocketAddr, replayed: bool, first: u32, effort: Effort)
    requires Possible(effort, known)
    ensures InTurn(Tries(known, charge, from, replayed, first, effort), known, from)
  {
    hide Offer, InTurn, Tries;
    NothingInTurn(known, from);
    if effort.tries == 0 {
      assert effort == Effort(0, false);
      NoTries(known, charge, from, replayed, first);
    } else {
      var tries := Tries(known, charge, from, replayed, first, effort);
      TriesOffer(known, charge, from, replayed, first, effort);
      OneOffer([], tries, known, from);
      assert [] + tries == tries;
    }
  }

  lemma {:induction false} ReplaysInTurn(queue: seq<QueuedCharge>, efforts: seq<Effort>, known: seq<SocketAddr>, from: SocketAddr, first: u32)
    requires |queue| == |efforts| && AllPossible(efforts, known)
    ensures InTurn(Replays(queue, efforts, known, from, first), known, from)
    decreases |queue|
  {
    hide Replays, Tries, InTurn, TriesMade;
    ReplaysLast(queue, efforts, known, from, first);
    if queue == [] {
      NothingInTurn(known, from);
    } else {
      var n := |queue| - 1;
      var made := TriesMade(efforts[..n]);
      ReplaysInTurn(queue[..n], efforts[..n], known, from, first);
      TriesInTurn(known, queue[n], from, true, IdAt(first, made, true), efforts[n]);
      InTurnThen(Replays(queue[..n], efforts[..n], known, from, first),
                 Tries(known, queue[n], from, true, IdAt(first, made, true), efforts[n]), known, from);
    }
  }

  lemma NothingInTurn(known: seq<SocketAddr>, from: SocketAddr)
    ensures InTurn([], known, from)
  {
  }

  lemma {:induction false} AnswersInTurn(attempts: seq<Attempt>, known: seq<SocketAddr>, from: SocketAddr)
    requires forall a :: a in attempts ==> !a.msg.Request?
    ensures InTurn(attempts, known, from)
    decreases |attempts|
  {
    if attempts != [] {
      AnswersInTurn(attempts[..|attempts| - 1], known, from);
    }
  }

  lemma {:induction false} TriesAsk(known: seq<SocketAddr>, charge: QueuedCharge, from: SocketAddr, replayed: bool, first: u32, n: nat, sent: bool)
    requires n <= |known| && (sent ==> n > 0)
    ensures AsksSent(Tries(known, charge, from, replayed, first, Effort(n, sent))) ==
      if sent && !replayed then multiset{Ask(first, charge)} else multiset{}
    decreases n
  {
    hide AsksSent, Tries;
    if n == 0 {
      NoTries(known, charge, from, replayed, first);
      NoAsks([]);
    } else {
      TriesAsk(known, charge, from, replayed, first, n - 1, false);
      TriesNext(known, charge, from, replayed, first, n - 1, sent);
      AsksOne(Tries(known, charge, from, replayed, first, Effort(n - 1, false)),
              Attempt(known[n - 1], RequestOf(charge, IdAt(first, n - 1, replayed), from, replayed), sent));
    }
  }

  lemma {:induction false} ReplaysAsk(queue: seq<QueuedCharge>, efforts: seq<Effort>, known: seq<SocketAddr>, from: SocketAddr, first: u32)
    requires |queue| == |efforts| && AllPossible(efforts, known)
    ensures AsksSent(Replays(queue, efforts, known, from, first)) == multiset{}
    decreases |queue|
  {
    hide Replays, Tries, AsksSent, TriesMade;
    ReplaysLast(queue, efforts, known, from, first);
    if queue == [] {
      NoAsks([]);
    } else {
      var n := |queue| - 1;
      var made := TriesMade(efforts[..n]);
      ReplaysAsk(queue[..n], efforts[..n], known, from, first);
      TriesAsk(known, queue[n], from, true, IdAt(first, made, true), efforts[n].tries, efforts[n].sent);
      AsksMore(Replays(queue[..n], efforts[..n], known, from, first), Tries(known, queue[n], from, true, IdAt(first, made, true), efforts[n]));
    }
  }

  /**
   What the pumps asked for was delivered, under the request id it was asked for, or queued; and
   all offers of the time were made properly.
   */
  ghost predicate Addressed(before: seq<Attempt>, after: seq<Attempt>, received: seq<Ask>, queued: seq<Ask>,
                            known: seq<SocketAddr>, from: SocketAddr) {
    && before <= after
    && AsksSent(after[|before|..]) + multiset(queued) == multiset(received)
    && InTurn(after[|before|..], known, from)
  }

  lemma AddressedThen(a: seq<Attempt>, b: seq<Attempt>, c: seq<Attempt>, in0: seq<Ask>, in1: seq<Ask>,
                      out0: seq<Ask>, out1: seq<Ask>, known: seq<SocketAddr>, from: SocketAddr)
    requires Addressed(a, b, in0, out0, known, from) && Addressed(b, c, in1, out1, known, from)
    ensures Addressed(a, c, in0 + in1, out0 + out1, known, from)
  {
    hide AsksSent, InTurn;
    var x, y := b[|a|..], c[|b|..];
    assert c[|a|..] == x + y;
    AsksMore(x, y);
    InTurnThen(x, y, known, from);
    AskChain(AsksSent(x), AsksSent(y), multiset(out0), multiset(out1), multiset(in0), multiset(in1));
    assert multiset(in0 + in1) == multiset(in0) + multiset(in1) && multiset(out0 + out1) == multiset(out0) + multiset(out1);
  }

  lemma AskChain(x: multiset<Ask>, y: multiset<Ask>, p: multiset<Ask>, q: multiset<Ask>, a: multiset<Ask>, b: multiset<Ask>)
    requires x + p == a && y + q == b
    ensures (x + y) + (p + q) == a + b
  {
    assert (x + y) + (p + q) == (x + p) + (y + q);
  }

  lemma AddressedOffer(before: seq<Attempt>, known: seq<SocketAddr>, charge: QueuedCharge, reqId: u32, from: SocketAddr, effort: Effort)
    requires Possible(effort, known)
    ensures Addressed(before, before + Tries(known, charge, from, false, reqId, effort),
                      [Ask(reqId, charge)], if effort.sent then [] else [Ask(reqId, charge)], known, from)
  {
    hide AsksSent, InTurn, Tries;
    var news := Tries(known, charge, from, false, reqId, effort);
    assert (before + news)[|before|..] == news;
    TriesAsk(known, charge, from, false, reqId, effort.tries, effort.sent);
    TriesInTurn(known, charge, from, false, reqId, effort);
  }

  lemma AddressedFlush(before: seq<Attempt>, queue: seq<QueuedCharge>, efforts: seq<Effort>, known: seq<SocketAddr>, from: SocketAddr, first: u32)
    requires |queue| == |efforts| && AllPossible(efforts, known)
    ensures Addressed(before, before + Replays(queue, efforts, known, from, first), [], [], known, from)
  {
    hide AsksSent, InTurn, Replays;
    var news := Replays(queue, efforts, known, from, first);
    assert (before + news)[|before|..] == news;
    ReplaysAsk(queue, efforts, known, from, first);
    ReplaysInTurn(queue, efforts, known, from, first);
  }

  /** Nothing is asked: a charge may be queued at once, and other messages sent. */
  lemma AddressedNothing(before: seq<Attempt>, more: seq<Attempt>, queued: seq<Ask>, known: seq<SocketAddr>, from: SocketAddr)
    requires forall a :: a in more ==> !a.msg.Request?
    ensures Addressed(before, before + more, queued, queued, known, from)
  {
    hide InTurn;
    assert (before + more)[|before|..] == more;
    AnswersInTurn(more, known, from);
    NoAsks(more);
  }

  /** The station is told that a queued charge is fine, or what a node answered. */
  datatype Tell = Accept(ask: Ask) | Relay(verdict: StationMsg)

  function Said(tells: seq<Tell>): seq<StationMsg> {
    seq(|tells|, i requires 0 <= i < |tells| =>
      match tells[i]
      case Accept(ask) => StationMsg(ask.requestId, true, None)
      case Relay(verdict) => verdict)
  }

  /** The charges the client answered `allowed` on its own, with the request ids it answered. */
  function Accepted(tells: seq<Tell>): seq<Ask> {
    if tells == [] then []
    else
      var last := tells[|tells| - 1];
      Accepted(tells[..|tells| - 1]) + if last.Accept? then [last.ask] else []
  }

  lemma {:induction false} SaidMore(tells: seq<Tell>, more: seq<Tell>)
    ensures Said(tells + more) == Said(tells) + Said(more)
    ensures Accepted(tells + more) == Accepted(tells) + Accepted(more)
    decreases |more|
  {
    if more == [] {
      assert tells + more == tells;
    } else {
      var n := |more| - 1;
      SaidMore(tells, more[..n]);
      assert (tells + more)[..|tells + more| - 1] == tells + more[..n];
    }
  }

  // ---- the ids of replays ----

  predicate IsReplay(attempt: Attempt) {
    attempt.msg.Request? && attempt.msg.op.Charge? && attempt.msg.op.fromOfflineStation
  }

  /** The request ids of the replays offered, in order. */
  function ReplayIds(attempts: seq<Attempt>): seq<u32> {
    if attempts == [] then []
    else
      var last := attempts[|attempts| - 1];
      ReplayIds(attempts[..|attempts| - 1]) + if IsReplay(last) then [last.msg.reqId] else []
  }

  /** `n` consecutive ids, modulo 2^32. */
  function Ids(first: u32, n: nat): seq<u32> {
    seq(n, i requires 0 <= i < n => IdAt(first, i, true))
  }

  /** From one moment to another, replays were numbered on from `first` to before `next`. */
  ghost predicate Numbered(before: seq<Attempt>, after: seq<Attempt>, first: u32, next: u32) {
    && before <= after
    && var ids := ReplayIds(after[|before|..]);
    ids == Ids(first, |ids|) && next == IdAt(first, |ids|, true)
  }

  lemma IdsSplit(first: u32, m: nat, n: nat)
    ensures Ids(first, m + n) == Ids(first, m) + Ids(IdAt(first, m, true), n)
  {
    forall i | 0 <= i < n ensures IdAt(IdAt(first, m, true), i, true) == IdAt(first, m + i, true) {
      IdsAdd(first, m, i);
    }
    hide IdAt;
  }

  lemma {:induction false} ReplayIdsMore(attempts: seq<Attempt>, more: seq<Attempt>)
    ensures ReplayIds(attempts + more) == ReplayIds(attempts) + ReplayIds(more)
    decreases |more|
  {
    if more == [] {
      assert attempts + more == attempts;
    } else {
      var n := |more| - 1;
      ReplayIdsMore(attempts, more[..n]);
      assert (attempts + more)[..|attempts + more| - 1] == attempts + more[..n];
    }
  }

  lemma IdsOne(attempts: seq<Attempt>, attempt: Attempt, first: u32, n: nat)
    ensures ReplayIds(attempts + [attempt]) == ReplayIds(attempts) + if IsReplay(attempt) then [attempt.msg.reqId] else []
    ensures Ids(first, n + 1) == Ids(first, n) + [IdAt(first, n, true)]
  {
    assert (attempts + [attempt])[..|attempts|] == attempts;
  }

  lemma {:induction false} TriesIds(known: seq<SocketAddr>, charge: QueuedCharge, from: SocketAddr, replayed: bool, first: u32, n: nat, sent: bool)
    requires n <= |known| && (sent ==> n > 0)
    ensures ReplayIds(Tries(known, charge, from, replayed, first, Effort(n, sent))) == if replayed then Ids(first, n) else []
    decreases n
  {
    hide ReplayIds, Ids, Tries;
    if n == 0 {
      NoTries(known, charge, from, replayed, first);
      NoIds(first);
    } else {
      TriesIds(known, charge, from, replayed, first, n - 1, false);
      TriesNext(known, charge, from, replayed, first, n - 1, sent);
      IdsOne(Tries(known, charge, from, replayed, first, Effort(n - 1, false)),
             Attempt(known[n - 1], RequestOf(charge, IdAt(first, n - 1, replayed), from, replayed), sent), first, n - 1);
    }
  }

  lemma ReplaysLast(queue: seq<QueuedCharge>, efforts: seq<Effort>, known: seq<SocketAddr>, from: SocketAddr, first: u32)
    requires |queue| == |efforts| && AllPossible(efforts, known)
    ensures queue == [] ==> Replays(queue, efforts, known, from, first) == [] && TriesMade(efforts) == 0
    ensures queue != [] ==>
      var n := |queue| - 1;
      && efforts[n].tries <= |known| && (efforts[n].sent ==> efforts[n].tries > 0) && AllPossible(efforts[..n], known)
      && TriesMade(efforts) == TriesMade(efforts[..n]) + efforts[n].tries
      && Replays(queue, efforts, known, from, first) == Replays(queue[..n], efforts[..n], known, from, first) +
           Tries(known, queue[n], from, true, IdAt(first, TriesMade(efforts[..n]), true), efforts[n])
  {
    hide Tries, IdAt;
  }

  lemma {:induction false} ReplaysIds(queue: seq<QueuedCharge>, efforts: seq<Effort>, known: seq<SocketAddr>, from: SocketAddr, first: u32)
    requires |queue| == |efforts| && AllPossible(efforts, known)
    ensures ReplayIds(Replays(queue, efforts, known, from, first)) == Ids(first, TriesMade(efforts))
    decreases |queue|
  {
    hide Replays, TriesMade, Tries, IdAt, AllPossible, ReplayIds, Ids;
    ReplaysLast(queue, efforts, known, from, first);
    if queue == [] {
      NoIds(first);
    } else {
      var n := |queue| - 1;
      var made, effort := TriesMade(efforts[..n]), efforts[n];
      ReplaysIds(queue[..n], efforts[..n], known, from, first);
      TriesIds(known, queue[n], from, true, IdAt(first, made, true), effort.tries, effort.sent);
      ReplayIdsMore(Replays(queue[..n], efforts[..n], known, from, first),
                    Tries(known, queue[n], from, true, IdAt(first, made, true), effort));
      IdsSplit(first, made, effort.tries);
    }
  }

  lemma NoIds(first: u32)
    ensures ReplayIds([]) == Ids(first, 0) == []
  {
  }

  lemma NumberedThen(a: seq<Attempt>, b: seq<Attempt>, c: seq<Attempt>, first: u32, mid: u32, next: u32)
    requires Numbered(a, b, first, mid) && Numbered(b, c, mid, next)
    ensures Numbered(a, c, first, next)
  {
    hide ReplayIds, Ids, IdAt;
    var m, n := ReplayIds(b[|a|..]), ReplayIds(c[|b|..]);
    assert c[|a|..] == b[|a|..] + c[|b|..];
    ReplayIdsMore(b[|a|..], c[|b|..]);
    IdsSplit(first, |m|, |n|);
    IdsAdd(first, |m|, |n|);
  }

  /** Attempts that are not replays use up no id. */
  lemma NoReplays(before: seq<Attempt>, more: seq<Attempt>, next: u32)
    requires ReplayIds(more) == []
    ensures Numbered(before, before + more, next, next)
  {
    assert (before + more)[|before|..] == more;
  }

  lemma NothingNumbered(attempts: seq<Attempt>, next: u32)
    ensures Numbered(attempts, attempts, next, next)
  {
    assert attempts[|attempts|..] == [];
  }

  lemma FlushNumbered(before: seq<Attempt>, queue: seq<QueuedCharge>, efforts: seq<Effort>, known: seq<SocketAddr>, from: SocketAddr, first: u32)
    requires |queue| == |efforts| && AllPossible(efforts, known)
    ensures Numbered(before, before + Replays(queue, efforts, known, from, first), first, IdAt(first, TriesMade(efforts), true))
  {
    hide IdAt, Replays, TriesMade, AllPossible;
    var news := Replays(queue, efforts, known, from, first);
    assert (before + news)[|before|..] == news;
    ReplaysIds(queue, efforts, known, from, first);
  }

  lemma AskedId(request: StationRequest)
    ensures RequestIds(Asked(request)) == if request.ChargeRequest? then {request.requestId} else {}
  {
    if request.ChargeRequest? {
      assert Asked(request)[0] in Asked(request);
    }
  }

  lemma {:induction false} NoneReplayed(attempts: seq<Attempt>)
    requires forall a :: a in attempts ==> !IsReplay(a)
    ensures ReplayIds(attempts) == []
    decreases |attempts|
  {
    if attempts != [] {
      NoneReplayed(attempts[..|attempts| - 1]);
    }
  }

  /** Which ids the first `n` replays of a new client take. */
  lemma ReplayIdTaken(x: u32, n: nat)
    ensures x in Ids(1_000_000, n) <==> (x - 1_000_000) % 0x1_0000_0000 < n
  {
    var i := (x - 1_000_000) % 0x1_0000_0000;
    assert IdAt(1_000_000, i, true) == x;
    if i < n {
      assert Ids(1_000_000, n)[i] == x;
    }
    forall j | 0 <= j < n && Ids(1_000_000, n)[j] == x ensures i <= j {
      assert (1_000_000 + j) % 0x1_0000_0000 == x;
    }
  }

  /** What a response tells the station: only answers to charges concern it. */
  function Relayed(reqId: u32, result: Result): seq<StationMsg> {
    if result.ChargeResult? then
      [StationMsg(reqId, result.outcome.Ok?, if result.outcome.Ok? then None else Some(result.outcome.error))]
    else
      []
  }

  class NodeClient {
    const bindAddr: SocketAddr
    const knownNodes: seq<SocketAddr>
    var online: bool
    var offlineQueue: seq<QueuedCharge>
    var activeOnlineRequests: set<u32>
    var nextReplayReqId: u32

    constructor (bindAddr: SocketAddr, knownNodes: seq<SocketAddr>)
      ensures this.bindAddr == bindAddr && this.knownNodes == knownNodes
      ensures online && offlineQueue == [] && activeOnlineRequests == {} && nextReplayReqId == 1_000_000
    {
      this.bindAddr, this.knownNodes := bindAddr, knownNodes;
      online, offlineQueue, activeOnlineRequests, nextReplayReqId := true, [], {}, 1_000_000;
    }

    /** The charge is queued first; `ok` is false when the station cannot be told. */
    method EnqueueOfflineCharge(station: LossyStation, charge: QueuedCharge, requestId: u32) returns (ok: bool)
      modifies this`offlineQueue, station
      ensures offlineQueue == old(offlineQueue) + [charge]
      ensures station.told == old(station.told) + if ok then [StationMsg(requestId, true, None)] else []
    {
      offlineQueue := offlineQueue + [charge];
      ok := station.Send(StationMsg(requestId, true, None));
    }

    /** Either one known node took the charge, once, or all were tried and it was queued. */
    method ForwardOnlineCharge(connection: LossyConnection, station: LossyStation, charge: QueuedCharge, requestId: u32)
      returns (ok: bool, effort: Effort)
      modifies this`offlineQueue, this`activeOnlineRequests, connection, station
      ensures Possible(effort, knownNodes)
      ensures connection.attempts == old(connection.attempts) + Tries(knownNodes, charge, bindAddr, false, requestId, effort)
      ensures offlineQueue == if effort.sent then old(offlineQueue) else old(offlineQueue) + [charge]
      ensures activeOnlineRequests == if effort.sent then old(activeOnlineRequests) + {requestId} else old(activeOnlineRequests)
      ensures effort.sent ==> ok
      ensures station.told == old(station.told) + if !effort.sent && ok then [StationMsg(requestId, true, None)] else []
    {
      hide Tries;
      NoTries(knownNodes, charge, bindAddr, false, requestId);
      var sent, i := false, 0;
      while i < |knownNodes| && !sent
        modifies connection
        invariant sent ==> i >= 1
        invariant 0 <= i <= |knownNodes|
        invariant connection.attempts == old(connection.attempts) + Tries(knownNodes, charge, bindAddr, false, requestId, Effort(i, sent))
        decreases |knownNodes| - i
      {
        sent := connection.Send(Request(requestId, bindAddr, Charge(charge.accountId, charge.cardId, charge.amount, false)), knownNodes[i]);
        TriesNext(knownNodes, charge, bindAddr, false, requestId, i, sent);
        i := i + 1;
      }
      effort := Effort(i, sent);
      if sent {
        activeOnlineRequests := activeOnlineRequests + {requestId};
        ok := true;
      } else {
        ok := EnqueueOfflineCharge(station, charge, requestId);
      }
    }

    /** While disconnected nothing is tried; otherwise the charge is forwarded or, failing that, queued. */
    method ForwardOrEnqueueCharge(connection: LossyConnection, station: LossyStation, charge: QueuedCharge, requestId: u32)
      returns (ok: bool, effort: Effort)
      modifies this`offlineQueue, this`activeOnlineRequests, connection, station
      ensures if online then Possible(effort, knownNodes) else effort == Effort(0, false)
      ensures connection.attempts == old(connection.attempts) + Tries(knownNodes, charge, bindAddr, false, requestId, effort)
      ensures offlineQueue == if effort.sent then old(offlineQueue) else old(offlineQueue) + [charge]
      ensures activeOnlineRequests == if effort.sent then old(activeOnlineRequests) + {requestId} else old(activeOnlineRequests)
      ensures effort.sent ==> ok
      ensures station.told == old(station.told) + if !effort.sent && ok then [StationMsg(requestId, true, None)] else []
    {
      if knownNodes == [] || !online {
        effort := Effort(0, false);
        ok := EnqueueOfflineCharge(station, charge, requestId);
      } else {
        ok, effort := ForwardOnlineCharge(connection, station, charge, requestId);
      }
    }

    /** Try each known node in order; every attempt uses up a replay id. */
    method ReplayCharge(connection: LossyConnection, queued: QueuedCharge) returns (effort: Effort)
      modifies this`nextReplayReqId, connection
      ensures Possible(effort, knownNodes)
      ensures connection.attempts == old(connection.attempts) +
        Tries(knownNodes, queued, bindAddr, true, old(nextReplayReqId), effort)
      ensures nextReplayReqId == IdAt(old(nextReplayReqId), effort.tries, true)
    {
      hide Tries, IdAt;
      NoTries(knownNodes, queued, bindAddr, true, nextReplayReqId);
      IdStart(nextReplayReqId);
      var sent, i := false, 0;
      while i < |knownNodes| && !sent
        invariant sent ==> i >= 1
        invariant 0 <= i <= |knownNodes|
        invariant nextReplayReqId == IdAt(old(nextReplayReqId), i, true)
        invariant connection.attempts == old(connection.attempts) +
          Tries(knownNodes, queued, bindAddr, true, old(nextReplayReqId), Effort(i, sent))
        decreases |knownNodes| - i
      {
        var reqId := nextReplayReqId;
        nextReplayReqId := (nextReplayReqId + 1) % 0x1_0000_0000;
        sent := connection.Send(Request(reqId, bindAddr, Charge(queued.accountId, queued.cardId, queued.amount, true)), knownNodes[i]);
        TriesNext(knownNodes, queued, bindAddr, true, old(nextReplayReqId), i, sent);
        IdNext(old(nextReplayReqId), i);
        i := i + 1;
      }
      effort := Effort(i, sent);
    }

    /** Every queued charge is offered to the known nodes; those nobody took stay queued, in order. */
    method FlushOfflineQueue(connection: LossyConnection) returns (ghost efforts: seq<Effort>)
      modifies this`offlineQueue, this`nextReplayReqId, connection
      ensures |efforts| == |old(offlineQueue)| && AllPossible(efforts, knownNodes)
      ensures offlineQueue == Pick(old(offlineQueue), efforts, false)
      ensures connection.attempts == old(connection.attempts) +
        Replays(old(offlineQueue), efforts, knownNodes, bindAddr, old(nextReplayReqId))
      ensures nextReplayReqId == IdAt(old(nextReplayReqId), TriesMade(efforts), true)
    {
      hide Tries, Pick, Replays, TriesMade, Possible, AllPossible, IdAt;
      efforts := [];
      EffortStart(knownNodes, bindAddr, nextReplayReqId);
      if offlineQueue == [] {
        return;
      }
      if knownNodes == [] {
        efforts := seq(|offlineQueue|, _ => Effort(0, false));
        NobodyKnown(offlineQueue, efforts, bindAddr, nextReplayReqId);
        return;
      }
      var draining := offlineQueue;
      ghost var first := nextReplayReqId;
      offlineQueue := [];
      var stillPending: seq<QueuedCharge> := [];
      for i := 0 to |draining|
        invariant offlineQueue == [] && |efforts| == i && AllPossible(efforts, knownNodes)
        invariant stillPending == Pick(draining[..i], efforts, false)
        invariant nextReplayReqId == IdAt(first, TriesMade(efforts), true)
        invariant connection.attempts == old(connection.attempts) + Replays(draining[..i], efforts, knownNodes, bindAddr, first)
      {
        var effort := ReplayCharge(connection, draining[i]);
        EffortNext(draining, efforts, effort, knownNodes, bindAddr, first);
        efforts := efforts + [effort];
        if !effort.sent {
          stillPending := stillPending + [draining[i]];
        }
      }
      assert draining[..|draining|] == draining;
      if stillPending != [] {
        offlineQueue := stillPending;
      }
    }

    /**
     `queued` is the charge that was queued, `tells` what the station was told about it.
     Disconnecting only changes the mode; connecting replays what it can.
     */
    method HandleStationMsg(connection: LossyConnection, station: LossyStation, request: StationRequest)
      returns (ok: bool, ghost queued: seq<Ask>, ghost tells: seq<Tell>)
      modifies this, connection, station
      ensures online == if request.ChargeRequest? then old(online) else request.ConnectNode?
      ensures queued == [] || queued == Asked(request)
      ensures Accepted(tells) == if ok then queued else []
      ensures queued == [] ==> ok
      ensures |tells| <= 1 && forall t :: t in tells ==> t.Accept?
      ensures station.told == old(station.told) + Said(tells)
      ensures Balance(old(connection.attempts), connection.attempts, old(offlineQueue), offlineQueue, Asked(request), queued)
      ensures request.DisconnectNode? ==> connection.attempts == old(connection.attempts) && offlineQueue == old(offlineQueue)
      ensures request.ConnectNode? ==> exists efforts ::
        && |efforts| == |old(offlineQueue)| && AllPossible(efforts, knownNodes)
        && offlineQueue == Pick(old(offlineQueue), efforts, false)
        && connection.attempts == old(connection.attempts) + Replays(old(offlineQueue), efforts, knownNodes, bindAddr, old(nextReplayReqId))
      ensures request.ChargeRequest? && !old(online) ==> connection.attempts == old(connection.attempts) && queued == Asked(request)
      ensures request.ChargeRequest? && old(online) ==> exists effort ::
        && Possible(effort, knownNodes) && (effort.sent <==> queued == [])
        && connection.attempts == old(connection.attempts) +
           Tries(knownNodes, Asked(request)[0].charge, bindAddr, false, request.requestId, effort)
      ensures Numbered(old(connection.attempts), connection.attempts, old(nextReplayReqId), nextReplayReqId)
      ensures Addressed(old(connection.attempts), connection.attempts, Asked(request), queued, knownNodes, bindAddr)
      ensures !request.ConnectNode? ==> offlineQueue == old(offlineQueue) + Charges(queued) && nextReplayReqId == old(nextReplayReqId)
      ensures activeOnlineRequests == old(activeOnlineRequests) + if queued == [] then RequestIds(Asked(request)) else {}
    {
      hide Balance, Replays, Pick, AllPossible, Numbered, RequestIds, ReplayIds, Tries, IdAt, Addressed;
      queued, tells, ok := [], [], true;
      AskedId(request);
      match request {
        case ChargeRequest(accountId, cardId, amount, requestId) =>
          var charge := QueuedCharge(accountId, cardId, amount);
          var effort;
          ok, effort := ForwardOrEnqueueCharge(connection, station, charge, requestId);
          TriesIds(knownNodes, charge, bindAddr, false, requestId, effort.tries, effort.sent);
          NoReplays(old(connection.attempts), Tries(knownNodes, charge, bindAddr, false, requestId, effort), nextReplayReqId);
          if online {
            AddressedOffer(old(connection.attempts), knownNodes, charge, requestId, bindAddr, effort);
            Offered(old(connection.attempts), knownNodes, charge, requestId, bindAddr, effort, old(offlineQueue));
          } else {
            NoTries(knownNodes, charge, bindAddr, false, requestId);
            NoTries([], charge, bindAddr, false, requestId);
            AddressedNothing(old(connection.attempts), [], [Ask(requestId, charge)], knownNodes, bindAddr);
            Offered(old(connection.attempts), [], charge, requestId, bindAddr, effort, old(offlineQueue));
          }
          queued := if effort.sent then [] else [Ask(requestId, charge)];
          tells := if !effort.sent && ok then [Accept(Ask(requestId, charge))] else [];
        case DisconnectNode =>
          online := false;
          NothingHappened(connection.attempts, offlineQueue);
          NothingNumbered(connection.attempts, nextReplayReqId);
          AddressedNothing(connection.attempts, [], [], knownNodes, bindAddr);
          assert connection.attempts + [] == connection.attempts;
        case ConnectNode =>
          online := true;
          ghost var efforts := FlushOfflineQueue(connection);
          Flushed(old(connection.attempts), old(offlineQueue), efforts, knownNodes, bindAddr, old(nextReplayReqId));
          FlushNumbered(old(connection.attempts), old(offlineQueue), efforts, knownNodes, bindAddr, old(nextReplayReqId));
          AddressedFlush(old(connection.attempts), old(offlineQueue), efforts, knownNodes, bindAddr, old(nextReplayReqId));
      }
    }

    /** A response reaches the station when it answers an online request, and only once. */
    method HandleNodeMsg(connection: LossyConnection, station: LossyStation, msg: Msg, id: u64) returns (ok: bool)
      modifies this`activeOnlineRequests, connection, station
      ensures msg.Response? && msg.reqId in old(activeOnlineRequests) ==>
        && activeOnlineRequests == old(activeOnlineRequests) - {msg.reqId}
        && station.told == old(station.told) + if ok then Relayed(msg.reqId, msg.opResult) else []
      ensures !(msg.Response? && msg.reqId in old(activeOnlineRequests)) ==>
        activeOnlineRequests == old(activeOnlineRequests) && station.told == old(station.told)
      ensures connection.attempts == old(connection.attempts) +
        if msg.RoleQuery? then [Attempt(msg.addr, RoleResponse(id, StationRole), ok)] else []
    {
      ok := true;
      if msg.Response? {
        if msg.reqId !in activeOnlineRequests {
          return;
        }
        activeOnlineRequests := activeOnlineRequests - {msg.reqId};
        if msg.opResult.ChargeResult? {
          var allowed := msg.opResult.outcome.Ok?;
          ok := station.Send(StationMsg(msg.reqId, allowed, if allowed then None else Some(msg.opResult.outcome.error)));
        }
      } else if msg.RoleQuery? {
        ok := connection.Send(RoleResponse(id, StationRole), msg.addr);
      }
    }
  }

  /** The verdicts relayed between two moments. */
  ghost function Relays(before: seq<StationMsg>, after: seq<StationMsg>): (tells: seq<Tell>)
    requires before <= after && |after| <= |before| + 1
    ensures after == before + Said(tells) && Accepted(tells) == []
    ensures forall t :: t in tells ==> t == Relay(after[|before|])
  {
    if |after| == |before| then [] else [Relay(after[|before|])]
  }

  /** Verdicts are relayed only under these request ids. */
  ghost predicate RelaysFor(tells: seq<Tell>, ids: set<u32>) {
    forall t :: t in tells && t.Relay? ==> t.verdict.requestId in ids
  }

  /** No pump's id is one of the first `n` from 1000000 on. */
  predicate Clear(asks: seq<Ask>, n: nat) {
    forall ask :: ask in asks ==> (ask.requestId - 1_000_000) % 0x1_0000_0000 >= n
  }

  lemma Beginning(attempts: seq<Attempt>, queue: seq<QueuedCharge>)
    ensures Balance(attempts, attempts, queue, queue, AskedIn([]), [])
    ensures Said([]) == [] && Accepted([]) == [] && AskedIn([]) == []
  {
  }

  /** One turn of the event loop. */
  method HandleEvent(client: NodeClient, connection: LossyConnection, station: LossyStation, event: Event, id: u64)
    returns (ok: bool, ghost queued: seq<Ask>, ghost tells: seq<Tell>)
    modifies client, connection, station
    ensures Balance(old(connection.attempts), connection.attempts, old(client.offlineQueue), client.offlineQueue, AskedNow(event), queued)
    ensures station.told == old(station.told) + Said(tells)
    ensures Accepted(tells) == (if ok then queued else []) && (queued == [] || queued == AskedNow(event))
    ensures Numbered(old(connection.attempts), connection.attempts, old(client.nextReplayReqId), client.nextReplayReqId)
    ensures client.activeOnlineRequests <= old(client.activeOnlineRequests) + RequestIds(AskedNow(event))
    ensures RelaysFor(tells, old(client.activeOnlineRequests))
    ensures Addressed(old(connection.attempts), connection.attempts, AskedNow(event), queued, client.knownNodes, client.bindAddr)
  {
    hide Balance, Replays, Pick, AllPossible, Numbered, RequestIds, Addressed;
    if event.FromStation? {
      ok, queued, tells := client.HandleStationMsg(connection, station, event.request);
    } else {
      ok := client.HandleNodeMsg(connection, station, event.msg, id);
      queued, tells := [], Relays(old(station.told), station.told);
      ghost var more := connection.attempts[|old(connection.attempts)|..];
      assert connection.attempts == old(connection.attempts) + more;
      NothingCarried(old(connection.attempts), more, client.offlineQueue);
      NoneReplayed(more);
      NoReplays(old(connection.attempts), more, client.nextReplayReqId);
      AddressedNothing(old(connection.attempts), more, [], client.knownNodes, client.bindAddr);
    }
  }

  /**
   The event loop, over any sequence of events and any pattern of failures: the charges
   the pumps asked for are those forwarded at once plus those queued; those queued are those
   replayed, once each, plus the queue that is left; and of the queued ones the station was
   told `allowed` under their own request ids, in order, but for the last one when it could not
   be told, which ends the loop. Replays are numbered consecutively; only requests of pumps are
   tracked, and only their ids relayed. So the replays of a new client stay apart from the
   pumps' requests exactly when no pump's id is one of the numbers used up so far, and then no
   response to a replay is ever taken for the response to a pump.
   */
  method Run(client: NodeClient, connection: LossyConnection, station: LossyStation, events: seq<Event>, id: u64)
    returns (ok: bool, handled: nat, ghost queued: seq<Ask>, ghost tells: seq<Tell>)
    modifies client, connection, station
    ensures handled <= |events| && (ok ==> handled == |events|)
    ensures Balance(old(connection.attempts), connection.attempts, old(client.offlineQueue), client.offlineQueue,
                    AskedIn(events[..handled]), queued)
    ensures station.told == old(station.told) + Said(tells)
    ensures Accepted(tells) <= queued && |queued| <= |Accepted(tells)| + 1
    ensures ok ==> Accepted(tells) == queued
    ensures multiset(queued) <= multiset(AskedIn(events[..handled]))
    ensures Numbered(old(connection.attempts), connection.attempts, old(client.nextReplayReqId), client.nextReplayReqId)
    ensures client.activeOnlineRequests <= old(client.activeOnlineRequests) + RequestIds(AskedIn(events[..handled]))
    ensures RelaysFor(tells, old(client.activeOnlineRequests) + RequestIds(AskedIn(events[..handled])))
    ensures old(connection.attempts) <= connection.attempts
    ensures var news := connection.attempts[|old(connection.attempts)|..];
      && AsksSent(news) + multiset(queued) == multiset(AskedIn(events[..handled]))
      && InTurn(news, client.knownNodes, client.bindAddr)
    ensures old(client.nextReplayReqId) == 1_000_000 ==>
      var ids, asks := ReplayIds(connection.attempts[|old(connection.attempts)|..]), AskedIn(events[..handled]);
      (forall reqId :: reqId in ids ==> reqId !in RequestIds(asks)) <==> Clear(asks, |ids|)
    ensures old(client.nextReplayReqId) == 1_000_000 && old(client.activeOnlineRequests) == {} ==>
      var ids := ReplayIds(connection.attempts[|old(connection.attempts)|..]);
      Clear(AskedIn(events[..handled]), |ids|) ==>
        && (forall reqId :: reqId in ids ==> reqId !in client.activeOnlineRequests)
        && (forall t :: t in tells && t.Relay? ==> t.verdict.requestId !in ids)
  {
    hide Balance, Said, Accepted, AskedIn, Numbered, RequestIds, ReplayIds, RelaysFor, Clear, Addressed, AsksSent, InTurn;
    queued, tells, ok, handled := [], [], true, 0;
    Beginning(connection.attempts, client.offlineQueue);
    NothingNumbered(connection.attempts, client.nextReplayReqId);
    NothingRelayed(client.activeOnlineRequests + RequestIds(AskedIn([])));
    AddressedNothing(connection.attempts, [], [], client.knownNodes, client.bindAddr);
    assert connection.attempts + [] == connection.attempts;
    assert events[..0] == [];
    while handled < |events| && ok
      invariant handled <= |events|
      invariant Balance(old(connection.attempts), connection.attempts, old(client.offlineQueue), client.offlineQueue,
                        AskedIn(events[..handled]), queued)
      invariant station.told == old(station.told) + Said(tells)
      invariant Accepted(tells) <= queued && |queued| <= |Accepted(tells)| + 1
      invariant ok ==> Accepted(tells) == queued
      invariant multiset(queued) <= multiset(AskedIn(events[..handled]))
      invariant Numbered(old(connection.attempts), connection.attempts, old(client.nextReplayReqId), client.nextReplayReqId)
      invariant client.activeOnlineRequests <= old(client.activeOnlineRequests) + RequestIds(AskedIn(events[..handled]))
      invariant RelaysFor(tells, old(client.activeOnlineRequests) + RequestIds(AskedIn(events[..handled])))
      invariant Addressed(old(connection.attempts), connection.attempts, AskedIn(events[..handled]), queued, client.knownNodes, client.bindAddr)
      decreases |events| - handled
    {
      ghost var attempts, queue, next, active := connection.attempts, client.offlineQueue, client.nextReplayReqId, client.activeOnlineRequests;
      AskedNext(events, handled);
      ghost var out1, told;
      ok, out1, told := HandleEvent(client, connection, station, events[handled], id);
      BalanceThen(old(connection.attempts), attempts, connection.attempts, old(client.offlineQueue), queue, client.offlineQueue,
                  AskedIn(events[..handled]), AskedNow(events[handled]), queued, out1);
      AddressedThen(old(connection.attempts), attempts, connection.attempts, AskedIn(events[..handled]), AskedNow(events[handled]),
                    queued, out1, client.knownNodes, client.bindAddr);
      SaidMore(tells, told);
      NumberedThen(old(connection.attempts), attempts, connection.attempts, old(client.nextReplayReqId), next, client.nextReplayReqId);
      MoreIds(AskedIn(events[..handled]), AskedNow(events[handled]));
      RelaysMore(tells, told, old(client.activeOnlineRequests) + RequestIds(AskedIn(events[..handled])), active,
                 old(client.activeOnlineRequests) + RequestIds(AskedIn(events[..handled + 1])));
      queued, tells := queued + out1, tells + told;
      handled := handled + 1;
    }
    Addresses(old(connection.attempts), connection.attempts, AskedIn(events[..handled]), queued, client.knownNodes, client.bindAddr);
    if old(client.nextReplayReqId) == 1_000_000 {
      Apart(old(connection.attempts), connection.attempts, AskedIn(events[..handled]), client.nextReplayReqId);
      if old(client.activeOnlineRequests) == {} {
        ApartRelays(old(connection.attempts), connection.attempts, AskedIn(events[..handled]), tells, {}, client.activeOnlineRequests);
      }
    }
  }

  lemma MoreIds(asks: seq<Ask>, more: seq<Ask>)
    ensures RequestIds(asks + more) == RequestIds(asks) + RequestIds(more)
    ensures multiset(asks + more) == multiset(asks) + multiset(more)
  {
  }

  lemma Addresses(before: seq<Attempt>, after: seq<Attempt>, received: seq<Ask>, queued: seq<Ask>, known: seq<SocketAddr>, from: SocketAddr)
    requires Addressed(before, after, received, queued, known, from)
    ensures before <= after
    ensures AsksSent(after[|before|..]) + multiset(queued) == multiset(received) && InTurn(after[|before|..], known, from)
  {
  }

  lemma NothingRelayed(ids: set<u32>)
    ensures RelaysFor([], ids)
  {
  }

  lemma RelaysMore(tells: seq<Tell>, more: seq<Tell>, ids: set<u32>, now: set<u32>, ids': set<u32>)
    requires RelaysFor(tells, ids) && RelaysFor(more, now) && ids <= ids' && now <= ids'
    ensures RelaysFor(tells + more, ids')
  {
  }

  lemma Apart(before: seq<Attempt>, after: seq<Attempt>, asks: seq<Ask>, next: u32)
    requires Numbered(before, after, 1_000_000, next)
    ensures before <= after
    ensures var ids := ReplayIds(after[|before|..]);
      (forall reqId :: reqId in ids ==> reqId !in RequestIds(asks)) <==> Clear(asks, |ids|)
  {
    hide ReplayIds, Ids, IdAt;
    var n := |ReplayIds(after[|before|..])|;
    forall ask | ask in asks
      ensures ask.requestId in Ids(1_000_000, n) <==> (ask.requestId - 1_000_000) % 0x1_0000_0000 < n
      ensures ask.requestId in RequestIds(asks)
    {
      ReplayIdTaken(ask.requestId, n);
    }
  }

  lemma ApartRelays(before: seq<Attempt>, after: seq<Attempt>, asks: seq<Ask>, tells: seq<Tell>, none: set<u32>, active: set<u32>)
    requires before <= after && none == {} && active <= none + RequestIds(asks) && RelaysFor(tells, none + RequestIds(asks))
    requires var ids := ReplayIds(after[|before|..]);
      (forall reqId :: reqId in ids ==> reqId !in RequestIds(asks)) <==> Clear(asks, |ids|)
    ensures var ids := ReplayIds(after[|before|..]);
      Clear(asks, |ids|) ==>
        && (forall reqId :: reqId in ids ==> reqId !in active)
        && (forall t :: t in tells && t.Relay? ==> t.verdict.requestId !in ids)
  {
    hide ReplayIds, RequestIds, Clear;
  }

  function AskFor(charge: QueuedCharge, requestId: u32): (request: StationRequest)
    ensures Asked(request) == [Ask(requestId, charge)]
  {
    StationRequest.ChargeRequest(charge.accountId, charge.cardId, charge.amount, requestId)
  }

  lemma FirstReplay(charge: QueuedCharge, efforts: seq<Effort>, known: seq<SocketAddr>, from: SocketAddr)
    requires |efforts| == 1 && AllPossible(efforts, known) && known != []
    ensures var replays := Replays([charge], efforts, known, from, 1_000_000);
      replays != [] && replays[0].target == known[0] && replays[0].msg == RequestOf(charge, 1_000_000, from, true)
  {
    assert Possible(efforts[0], known) && efforts[..0] == [] && [charge][..0] == [];
    EffortStart(known, from, 1_000_000);
    IdStart(1_000_000);
  }

  method Reconnect(client: NodeClient, connection: LossyConnection, station: LossyStation, charge: QueuedCharge) returns (replays: seq<Attempt>)
    requires client.offlineQueue == [charge] && client.nextReplayReqId == 1_000_000 && client.knownNodes != [] && connection.attempts == []
    modifies client, connection, station
    ensures replays == connection.attempts && replays != [] && replays[0].target == client.knownNodes[0]
    ensures replays[0].msg == RequestOf(charge, 1_000_000, client.bindAddr, true)
    ensures client.online && client.activeOnlineRequests == old(client.activeOnlineRequests)
  {
    hide Balance, Pick, Numbered, ReplayIds, RequestOf, Replays, AllPossible, Addressed;
    ghost var queued, tells;
    var ok;
    ok, queued, tells := client.HandleStationMsg(connection, station, ConnectNode);
    replays := connection.attempts;
    ghost var efforts :| |efforts| == 1 && AllPossible(efforts, client.knownNodes) && replays == Replays([charge], efforts, client.knownNodes, client.bindAddr, 1_000_000);
    FirstReplay(charge, efforts, client.knownNodes, client.bindAddr);
    AskedId(ConnectNode);
  }

  /** Forwards a pump's charge while online; `forwarded` says that it was delivered and is tracked. */
  method Forward(client: NodeClient, connection: LossyConnection, station: LossyStation, charge: QueuedCharge, requestId: u32)
    returns (forwarded: bool)
    requires client.online && requestId !in client.activeOnlineRequests
    modifies client, connection, station
    ensures forwarded <==> requestId in client.activeOnlineRequests
    ensures old(connection.attempts) <= connection.attempts
    ensures forwarded <==> exists target ::
      Attempt(target, RequestOf(charge, requestId, client.bindAddr, false), true) in connection.attempts[|old(connection.attempts)|..]
  {
    hide Balance, Pick, Numbered, ReplayIds, RequestOf, Replays, AllPossible, Tries, RequestIds, Addressed;
    ghost var queued, tells;
    var ok;
    ok, queued, tells := client.HandleStationMsg(connection, station, AskFor(charge, requestId));
    AskedId(AskFor(charge, requestId));
    ghost var effort :| Possible(effort, client.knownNodes) && (effort.sent <==> queued == []) &&
      connection.attempts == old(connection.attempts) + Tries(client.knownNodes, charge, client.bindAddr, false, requestId, effort);
    WhetherSent(client.knownNodes, charge, client.bindAddr, requestId, effort);
    forwarded := requestId in client.activeOnlineRequests;
  }

  lemma WhetherSent(known: seq<SocketAddr>, charge: QueuedCharge, from: SocketAddr, reqId: u32, effort: Effort)
    requires Possible(effort, known)
    ensures effort.sent <==> exists target ::
      Attempt(target, RequestOf(charge, reqId, from, false), true) in Tries(known, charge, from, false, reqId, effort)
  {
    var tries := Tries(known, charge, from, false, reqId, effort);
    if effort.sent {
      assert tries[effort.tries - 1] in tries;
    }
  }

  /** Disconnects a new client, which then queues a charge. */
  method QueueOne(client: NodeClient, connection: LossyConnection, station: LossyStation, first: Ask) returns (ok: bool)
    requires client.offlineQueue == [] && connection.attempts == []
    modifies client, connection, station
    ensures client.offlineQueue == [first.charge] && connection.attempts == []
    ensures client.nextReplayReqId == old(client.nextReplayReqId) && client.activeOnlineRequests == old(client.activeOnlineRequests)
  {
    hide Balance, Pick, Numbered, ReplayIds, Tries, IdAt, TriesMade, Said, Accepted, RequestIds, Replays, AllPossible, Addressed, Possible;
    ghost var queued, tells;
    assert Charges([]) == [] && Charges([first]) == [first.charge];
    hide Charges;
    AskedId(DisconnectNode);
    ok, queued, tells := client.HandleStationMsg(connection, station, DisconnectNode);
    ok, queued, tells := client.HandleStationMsg(connection, station, AskFor(first.charge, first.requestId));
  }

  /**
   Where they meet: a charge queued while disconnected is replayed by a new client under 1000000,
   and then a pump's request that happens to have this id is forwarded. The response to the
   replay is told to the station as the verdict on the pump's charge, and the response to the
   pump, when it comes, is ignored.
   */
  method SharedId(bindAddr: SocketAddr, knownNodes: seq<SocketAddr>, first: Ask, pump: QueuedCharge,
                  outcome: Outcome, answer: Outcome, id: u64)
    returns (replays: seq<Attempt>, attempts: seq<Attempt>, before: seq<StationMsg>, forwarded: bool, ok: bool, after: seq<StationMsg>)
    requires knownNodes != []
    ensures replays != [] && replays[0].target == knownNodes[0]
    ensures replays[0].msg == RequestOf(first.charge, 1_000_000, bindAddr, true)
    ensures replays <= attempts
    ensures forwarded <==> exists target :: Attempt(target, RequestOf(pump, 1_000_000, bindAddr, false), true) in attempts[|replays|..]
    ensures forwarded && ok ==>
      after == before + [StationMsg(1_000_000, outcome.Ok?, if outcome.Ok? then None else Some(outcome.error))]
  {
    hide RequestOf;
    var client := new NodeClient(bindAddr, knownNodes);
    var connection := new LossyConnection();
    var station := new LossyStation();
    var accepted := QueueOne(client, connection, station, first);
    replays := Reconnect(client, connection, station, first.charge);
    forwarded := Forward(client, connection, station, pump, 1_000_000);
    attempts, before := connection.attempts, station.told;
    var told := client.HandleNodeMsg(connection, station, Response(1_000_000, ChargeResult(outcome)), id);
    var late := client.HandleNodeMsg(connection, station, Response(1_000_000, ChargeResult(answer)), id);
    ok, after := accepted && told, station.told;
  }
}
