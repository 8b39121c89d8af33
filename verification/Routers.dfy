/** The router: it creates actors, fans operations out to them and reports results. */
module Routers {
  import opened Wrappers
  import opened Protocol
  import opened Messages

  datatype PendingSnapshot = PendingSnapshot(
    addr: SocketAddr,
    expectedAccounts: nat,
    expectedCards: nat,
    accounts: seq<AccountSnapshot<real>>,
    cards: seq<CardSnapshot<real>>)

  /**
   `accounts` and `cards` map an actor's key to the mailbox behind its address;
   `events` is the channel to the node.
   */
  datatype Router = Router(
    accounts: map<u64, seq<AccountMsg>>,
    cards: map<CardKey, seq<CardMsg>>,
    operations: map<u32, Op>,
    snapshots: map<u32, PendingSnapshot>,
    events: seq<ActorEvent>)

  function WithAccount(r: Router, a: u64): Router {
    if a in r.accounts then r else r.(accounts := r.accounts[a := []])
  }

  function WithCard(r: Router, k: CardKey): Router {
    if k in r.cards then r else WithAccount(r, k.account).(cards := r.cards[k := []])
  }

  function Emit(r: Router, e: ActorEvent): Router {
    r.(events := r.events + [e])
  }

  function ToAccount(r: Router, a: u64, msg: AccountMsg): Router {
    var r := WithAccount(r, a);
    r.(accounts := r.accounts[a := r.accounts[a] + [msg]])
  }

  function ToCard(r: Router, k: CardKey, msg: CardMsg): Router {
    var r := WithCard(r, k);
    r.(cards := r.cards[k := r.cards[k] + [msg]])
  }

  function CardsOf(r: Router, a: u64): set<CardKey> {
    set k | k in r.cards && k.account == a
  }

  /** One message to every card in `ks`. */
  function ToCards(r: Router, ks: set<CardKey>, msg: CardMsg): Router {
    r.(cards := map k | k in r.cards :: if k in ks then r.cards[k] + [msg] else r.cards[k])
  }

  function ToAllAccounts(r: Router, msg: AccountMsg): Router {
    r.(accounts := map a | a in r.accounts :: r.accounts[a] + [msg])
  }

  function ReplaceAccounts(r: Router, snaps: seq<AccountSnapshot<real>>): Router {
    if snaps == [] then r
    else
      var last := snaps[|snaps| - 1];
      ToAccount(ReplaceAccounts(r, snaps[..|snaps| - 1]), last.accountId, AccountReplaceState(last.limit, last.consumed))
  }

  function ReplaceCards(r: Router, snaps: seq<CardSnapshot<real>>): Router {
    if snaps == [] then r
    else
      var last := snaps[|snaps| - 1];
      ToCard(ReplaceCards(r, snaps[..|snaps| - 1]), CardKey(last.accountId, last.cardId), CardReplaceState(last.limit, last.consumed))
  }

  function Query(r: Router, opId: u32, a: u64, billing: bool): Router {
    var r := WithAccount(r, a);
    var ks := CardsOf(r, a);
    var start := if billing then StartAccountBill(opId, |ks|) else StartAccountQuery(opId, |ks|);
    ToCards(ToAccount(r, a, start), ks, QueryCardState(opId, a, billing))
  }

  function Dispatch(r: Router, opId: u32, op: Op): Router {
    var r := r.(operations := r.operations[opId := op]);
    match op
    case Charge(a, c, amount, fromOffline) =>
      ToCard(r, CardKey(a, c), ExecuteCharge(opId, a, c, amount, fromOffline))
    case LimitAccount(a, newLimit) => ToAccount(r, a, ApplyAccountLimit(opId, newLimit))
    case LimitCard(a, c, newLimit) => ToCard(r, CardKey(a, c), ExecuteLimitChange(opId, newLimit))
    case AccountQuery(a) => Query(r, opId, a, false)
    case Bill(a, _) => Query(r, opId, a, true)
    case GetDatabase(addr) =>
      if |r.accounts| == 0 && |r.cards| == 0 then
        Emit(r, OperationResultEvent(opId, op, DatabaseSnapshotResult(DatabaseSnapshot(addr, [], [])), true, None))
      else
        var pending := PendingSnapshot(addr, |r.accounts|, |r.cards|, [], []);
        ToCards(
          ToAllAccounts(r.(snapshots := r.snapshots[opId := pending]), AccountGetSnapshot(opId)),
          r.cards.Keys,
          CardGetSnapshot(opId))
    case ReplaceDatabase(snapshot) =>
      Emit(
        ReplaceCards(ReplaceAccounts(r, snapshot.accounts), snapshot.cards),
        OperationResultEvent(opId, op, ReplaceDatabaseResult, true, None))
  }

  /** The result of an operation an actor completed; the last four cases are the source's fallbacks. */
  function CompletedResult(op: Op, outcome: Outcome): Result {
    match op
    case Charge(_, _, _, _) => ChargeResult(outcome)
    case LimitAccount(_, _) => LimitAccountResult(outcome)
    case LimitCard(_, _, _) => LimitCardResult(outcome)
    case AccountQuery(_) => AccountQueryResult(0, 0.0, [])
    case Bill(_, _) => AccountQueryResult(0, 0.0, [])
    case GetDatabase(_) => ReplaceDatabaseResult
    case ReplaceDatabase(_) => ReplaceDatabaseResult
  }

  predicate IsUpdate(op: Op) {
    op.Charge? || op.LimitAccount? || op.LimitCard?
  }

  function TryComplete(r: Router, opId: u32): Router {
    if opId !in r.snapshots then r
    else
      var p := r.snapshots[opId];
      if |p.accounts| != p.expectedAccounts || |p.cards| != p.expectedCards then r
      else
        var r := r.(snapshots := r.snapshots - {opId});
        if opId !in r.operations then Emit(r, DebugEvent)
        else
          Emit(r, OperationResultEvent(opId, r.operations[opId],
                                       DatabaseSnapshotResult(DatabaseSnapshot(p.addr, p.accounts, p.cards)), true, None))
  }

  function Handle(r: Router, msg: RouterMsg): Router {
    match msg
    case Execute(opId, op) => Dispatch(r, opId, op)
    case OperationCompleted(opId, success, error) =>
      if opId !in r.operations then Emit(r, DebugEvent)
      else if !success && error.None? && IsUpdate(r.operations[opId]) then Emit(r, Panicked)
      else
        var outcome := if success || error.None? then Outcome.Ok else Failed(error.value);
        Emit(r, OperationResultEvent(opId, r.operations[opId], CompletedResult(r.operations[opId], outcome), success, error))
    case AccountQueryCompleted(opId, a, total, spent) =>
      if opId !in r.operations then Emit(r, DebugEvent)
      else Emit(r, OperationResultEvent(opId, r.operations[opId], AccountQueryResult(a, total, spent), true, None))
    case AccountSnapshotCollected(opId, snap) =>
      if opId !in r.snapshots then Emit(r, DebugEvent)
      else
        var p := r.snapshots[opId];
        TryComplete(r.(snapshots := r.snapshots[opId := p.(accounts := p.accounts + [snap])]), opId)
    case CardSnapshotCollected(opId, snap) =>
      if opId !in r.snapshots then Emit(r, DebugEvent)
      else
        var p := r.snapshots[opId];
        TryComplete(r.(snapshots := r.snapshots[opId := p.(cards := p.cards + [snap])]), opId)
    case RouterDebug => Emit(r, DebugEvent)
  }

  lemma NothingReplaced(r: Router)
    ensures ReplaceAccounts(r, []) == r && ReplaceCards(r, []) == r
  {
  }

  lemma OneMoreAccount(r: Router, xs: seq<AccountSnapshot<real>>, i: nat)
    requires i < |xs|
    ensures ReplaceAccounts(r, xs[..i + 1]) ==
      ToAccount(ReplaceAccounts(r, xs[..i]), xs[i].accountId, AccountReplaceState(xs[i].limit, xs[i].consumed))
  {
    assert xs[..i + 1][..i] == xs[..i];
  }

  lemma OneMoreCard(r: Router, ys: seq<CardSnapshot<real>>, i: nat)
    requires i < |ys|
    ensures ReplaceCards(r, ys[..i + 1]) ==
      ToCard(ReplaceCards(r, ys[..i]), CardKey(ys[i].accountId, ys[i].cardId), CardReplaceState(ys[i].limit, ys[i].consumed))
  {
    assert ys[..i + 1][..i] == ys[..i];
  }

  /** The actor, with the source's four maps and its channel to the node. */
  class ActorRouter {
    var accounts: map<u64, seq<AccountMsg>>
    var cards: map<CardKey, seq<CardMsg>>
    var operations: map<u32, Op>
    var snapshots: map<u32, PendingSnapshot>
    var events: seq<ActorEvent>

    constructor ()
      ensures State() == Router(map[], map[], map[], map[], [])
    {
      accounts, cards, operations, snapshots, events := map[], map[], map[], map[], [];
    }

    function State(): Router
      reads this
    {
      Router(accounts, cards, operations, snapshots, events)
    }

    method DoEmit(e: ActorEvent)
      modifies this
      ensures State() == Emit(old(State()), e)
    {
      events := events + [e];
    }

    method GetOrCreateAccount(a: u64)
      modifies this
      ensures State() == WithAccount(old(State()), a)
    {
      if a !in accounts {
        accounts := accounts[a := []];
      }
    }

    method GetOrCreateCard(k: CardKey)
      modifies this
      ensures State() == WithCard(old(State()), k)
    {
      if k !in cards {
        GetOrCreateAccount(k.account);
        cards := cards[k := []];
      }
    }

    method SendAccount(a: u64, msg: AccountMsg)
      requires a in accounts
      modifies this
      ensures State() == ToAccount(old(State()), a, msg)
    {
      accounts := accounts[a := accounts[a] + [msg]];
    }

    method SendCard(k: CardKey, msg: CardMsg)
      requires k in cards
      modifies this
      ensures State() == ToCard(old(State()), k, msg)
    {
      cards := cards[k := cards[k] + [msg]];
    }

    method CardIdsOf(a: u64) returns (ids: seq<u64>)
      ensures forall i, j :: 0 <= i < j < |ids| ==> ids[i] != ids[j]
      ensures forall i :: 0 <= i < |ids| ==> CardKey(a, ids[i]) in CardsOf(State(), a)
      ensures |ids| == |CardsOf(State(), a)|
    {
      ids := [];
      var keys := cards.Keys;
      ghost var found: set<CardKey> := {};
      while keys != {}
        invariant keys <= cards.Keys
        invariant found == (set k | k in cards.Keys - keys && k.account == a)
        invariant |ids| == |found|
        invariant forall i, j :: 0 <= i < j < |ids| ==> ids[i] != ids[j]
        invariant forall i :: 0 <= i < |ids| ==> CardKey(a, ids[i]) in found
      {
        var k :| k in keys;
        keys := keys - {k};
        if k.account == a {
          assert k == CardKey(a, k.card) && k !in found;
          ids := ids + [k.card];
          found := found + {k};
        }
      }
      assert found == CardsOf(State(), a);
    }

    method AskCards(a: u64, ids: seq<u64>, msg: CardMsg)
      requires forall i, j :: 0 <= i < j < |ids| ==> ids[i] != ids[j]
      requires forall i :: 0 <= i < |ids| ==> CardKey(a, ids[i]) in CardsOf(State(), a)
      requires |ids| == |CardsOf(State(), a)|
      modifies this
      ensures State() == ToCards(old(State()), CardsOf(old(State()), a), msg)
    {
      ghost var asked: set<CardKey> := {};
      for i := 0 to |ids|
        invariant State() == ToCards(old(State()), asked, msg)
        invariant asked <= CardsOf(old(State()), a) && |asked| == i
        invariant forall k :: k in asked ==> exists j :: 0 <= j < i && k == CardKey(a, ids[j])
      {
        var k := CardKey(a, ids[i]);
        assert k !in asked;
        ToCardsOne(old(State()), asked, k, msg);
        if k in cards {
          SendCard(k, msg);
        }
        asked := asked + {k};
      }
      SameSize(asked, CardsOf(old(State()), a));
    }

    method Ask(opId: u32, a: u64, billing: bool)
      modifies this
      ensures State() == Query(old(State()), opId, a, billing)
    {
      GetOrCreateAccount(a);
      var ids := CardIdsOf(a);
      SendAccount(a, if billing then StartAccountBill(opId, |ids|) else StartAccountQuery(opId, |ids|));
      AskCards(a, ids, QueryCardState(opId, a, billing));
    }

    method AskEveryAccount(msg: AccountMsg)
      modifies this
      ensures State() == ToAllAccounts(old(State()), msg)
    {
      var keys := accounts.Keys;
      while keys != {}
        invariant keys <= old(accounts).Keys
        invariant State() == old(State()).(accounts := accounts)
        invariant accounts == map a | a in old(accounts) :: if a in keys then old(accounts)[a] else old(accounts)[a] + [msg]
      {
        var a :| a in keys;
        accounts := accounts[a := accounts[a] + [msg]];
        keys := keys - {a};
      }
    }

    method AskEveryCard(msg: CardMsg)
      modifies this
      ensures State() == ToCards(old(State()), old(cards).Keys, msg)
    {
      var keys := cards.Keys;
      while keys != {}
        invariant keys <= old(cards).Keys
        invariant State() == old(State()).(cards := cards)
        invariant cards == map k | k in old(cards) :: if k in keys then old(cards)[k] else old(cards)[k] + [msg]
      {
        var k :| k in keys;
        cards := cards[k := cards[k] + [msg]];
        keys := keys - {k};
      }
    }

    method Replace(snapshot: DatabaseSnapshot<real>)
      modifies this
      ensures State() == ReplaceCards(ReplaceAccounts(old(State()), snapshot.accounts), snapshot.cards)
    {
      hide ReplaceAccounts, ReplaceCards;
      NothingReplaced(State());
      var xs := snapshot.accounts;
      for i := 0 to |xs|
        invariant State() == ReplaceAccounts(old(State()), xs[..i])
      {
        OneMoreAccount(old(State()), xs, i);
        GetOrCreateAccount(xs[i].accountId);
        SendAccount(xs[i].accountId, AccountReplaceState(xs[i].limit, xs[i].consumed));
      }
      assert xs[..|xs|] == xs;
      ghost var mid := State();
      NothingReplaced(mid);
      var ys := snapshot.cards;
      for i := 0 to |ys|
        invariant State() == ReplaceCards(mid, ys[..i])
      {
        OneMoreCard(mid, ys, i);
        var k := CardKey(ys[i].accountId, ys[i].cardId);
        GetOrCreateCard(k);
        SendCard(k, CardReplaceState(ys[i].limit, ys[i].consumed));
      }
      assert ys[..|ys|] == ys;
    }

    method HandleExecute(opId: u32, op: Op)
      modifies this
      ensures State() == Dispatch(old(State()), opId, op)
    {
      hide Query, ReplaceAccounts, ReplaceCards, ToCards;
      operations := operations[opId := op];
      match op {
        case Charge(a, c, amount, fromOffline) =>
          GetOrCreateCard(CardKey(a, c));
          SendCard(CardKey(a, c), ExecuteCharge(opId, a, c, amount, fromOffline));
        case LimitAccount(a, newLimit) =>
          GetOrCreateAccount(a);
          SendAccount(a, ApplyAccountLimit(opId, newLimit));
        case LimitCard(a, c, newLimit) =>
          GetOrCreateCard(CardKey(a, c));
          SendCard(CardKey(a, c), ExecuteLimitChange(opId, newLimit));
        case AccountQuery(a) =>
          Ask(opId, a, false);
        case Bill(a, _) =>
          Ask(opId, a, true);
        case GetDatabase(addr) =>
          if |accounts| == 0 && |cards| == 0 {
            DoEmit(OperationResultEvent(opId, op, DatabaseSnapshotResult(DatabaseSnapshot(addr, [], [])), true, None));
            return;
          }
          snapshots := snapshots[opId := PendingSnapshot(addr, |accounts|, |cards|, [], [])];
          AskEveryAccount(AccountGetSnapshot(opId));
          AskEveryCard(CardGetSnapshot(opId));
        case ReplaceDatabase(snapshot) =>
          Replace(snapshot);
          DoEmit(OperationResultEvent(opId, op, ReplaceDatabaseResult, true, None));
      }
    }

    method TryCompleteDbSnapshot(opId: u32)
      modifies this
      ensures State() == TryComplete(old(State()), opId)
      ensures var full := opId in old(snapshots) &&
          |old(snapshots)[opId].accounts| == old(snapshots)[opId].expectedAccounts &&
          |old(snapshots)[opId].cards| == old(snapshots)[opId].expectedCards;
        && accounts == old(accounts) && cards == old(cards) && operations == old(operations)
        && snapshots == (if full then old(snapshots) - {opId} else old(snapshots))
        && events == old(events) +
             if !full then []
             else if opId !in operations then [DebugEvent]
             else
               var p := old(snapshots)[opId];
               [OperationResultEvent(opId, operations[opId], DatabaseSnapshotResult(DatabaseSnapshot(p.addr, p.accounts, p.cards)), true, None)]
    {
      if opId !in snapshots {
        return;
      }
      var p := snapshots[opId];
      if |p.accounts| != p.expectedAccounts || |p.cards| != p.expectedCards {
        return;
      }
      snapshots := snapshots - {opId};
      if opId !in operations {
        DoEmit(DebugEvent);
        return;
      }
      var result := DatabaseSnapshotResult(DatabaseSnapshot(p.addr, p.accounts, p.cards));
      DoEmit(OperationResultEvent(opId, operations[opId], result, true, None));
    }

    method HandleMsg(msg: RouterMsg)
      modifies this
      ensures State() == Handle(old(State()), msg)
      ensures msg.OperationCompleted? && msg.opId in operations ==>
        var op, updates := operations[msg.opId], operations[msg.opId].Charge? || operations[msg.opId].LimitAccount? || operations[msg.opId].LimitCard?;
        var outcome := if msg.success || msg.error.None? then Outcome.Ok else Failed(msg.error.value);
        var result := if op.Charge? then ChargeResult(outcome)
                      else if op.LimitAccount? then LimitAccountResult(outcome)
                      else if op.LimitCard? then LimitCardResult(outcome)
                      else if op.AccountQuery? || op.Bill? then AccountQueryResult(0, 0.0, [])
                      else ReplaceDatabaseResult;
        State() == old(State()).(events := old(events) + [
          if !msg.success && msg.error.None? && updates then Panicked
          else OperationResultEvent(msg.opId, op, result, msg.success, msg.error)])
      ensures || ((msg.OperationCompleted? || msg.AccountQueryCompleted?) && msg.opId !in old(operations))
              || ((msg.AccountSnapshotCollected? || msg.CardSnapshotCollected?) && msg.opId !in old(snapshots))
              || msg.RouterDebug? ==>
        State() == old(State()).(events := old(events) + [DebugEvent])
    {
      match msg {
        case Execute(opId, op) =>
          HandleExecute(opId, op);
        case OperationCompleted(opId, success, error) =>
          if opId !in operations {
            DoEmit(DebugEvent);
            return;
          }
          var op := operations[opId];
          if !success && error.None? && IsUpdate(op) {
            DoEmit(Panicked);
            return;
          }
          var outcome := if success || error.None? then Outcome.Ok else Failed(error.value);
          DoEmit(OperationResultEvent(opId, op, CompletedResult(op, outcome), success, error));
        case AccountQueryCompleted(opId, a, total, spent) =>
          if opId !in operations {
            DoEmit(DebugEvent);
            return;
          }
          DoEmit(OperationResultEvent(opId, operations[opId], AccountQueryResult(a, total, spent), true, None));
        case AccountSnapshotCollected(opId, snap) =>
          if opId !in snapshots {
            DoEmit(DebugEvent);
            return;
          }
          var p := snapshots[opId];
          snapshots := snapshots[opId := p.(accounts := p.accounts + [snap])];
          TryCompleteDbSnapshot(opId);
        case CardSnapshotCollected(opId, snap) =>
          if opId !in snapshots {
            DoEmit(DebugEvent);
            return;
          }
          var p := snapshots[opId];
          snapshots := snapshots[opId := p.(cards := p.cards + [snap])];
          TryCompleteDbSnapshot(opId);
        case RouterDebug =>
          DoEmit(DebugEvent);
      }
    }
  }

  lemma ToCardsOne(r: Router, ks: set<CardKey>, k: CardKey, msg: CardMsg)
    requires k in r.cards && k !in ks
    ensures ToCard(ToCards(r, ks, msg), k, msg) == ToCards(r, ks + {k}, msg)
  {
    assert ToCard(ToCards(r, ks, msg), k, msg).cards == ToCards(r, ks + {k}, msg).cards;
  }

  lemma SameSize<T>(a: set<T>, b: set<T>)
    requires a <= b && |a| == |b|
    ensures a == b
  {
    assert |b - a| == |b| - |a|;
    assert b - a == {};
  }
}
