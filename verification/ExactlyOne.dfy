/**
 Exactly one result per operation, in every run from a network that is ready: operations
 overlap in any interleaving, with distinct ids and at most one query or bill in flight per
 account; a restore waits until every earlier operation is answered, and the next operation
 until the restore is. Its ReplaceState messages may still be queued then.
 */
module ExactlyOne {
  import opened Wrappers
  import opened Protocol
  import opened Messages
  import opened Counting
  import opened Network
  import opened Normal
  import opened Traces
  import opened Tokens
  import opened Questions
  import opened Traffic
  import Handshake
  import Routers
  import Stages
  import Refinement

  // ---- the events of one stretch of traffic ----

  /** The network without its first `h` events, which no step ever reads. */
  function Since(n: Net, h: nat): Net
    requires h <= |n.r.events|
  {
    n.(r := n.r.(events := n.r.events[h..]))
  }

  lemma QuerySince(r: Routers.Router, es: seq<ActorEvent>, opId: u32, a: u64, billing: bool)
    ensures Routers.Query(r.(events := es), opId, a, billing) == Routers.Query(r, opId, a, billing).(events := es)
  {
  }

  lemma DispatchSince(r: Routers.Router, opId: u32, op: Op, h: nat)
    requires h <= |r.events| && !op.ReplaceDatabase?
    ensures var r' := Routers.Dispatch(r, opId, op);
      && h <= |r'.events|
      && Routers.Dispatch(r.(events := r.events[h..]), opId, op) == r'.(events := r'.events[h..])
  {
    hide Routers.Query, Routers.ToCards, Routers.ToAllAccounts, Routers.ToCard, Routers.ToAccount;
    var r1 := r.(operations := r.operations[opId := op]);
    match op {
      case Charge(a, c, amount, fromOffline) =>
        SendSince(r1, r.events[h..], CardKey(a, c), ExecuteCharge(opId, a, c, amount, fromOffline), ApplyAccountLimit(opId, None));
      case LimitCard(a, c, newLimit) =>
        SendSince(r1, r.events[h..], CardKey(a, c), ExecuteLimitChange(opId, newLimit), ApplyAccountLimit(opId, None));
      case LimitAccount(a, newLimit) =>
        SendSince(r1, r.events[h..], CardKey(a, 0), CardGetSnapshot(opId), ApplyAccountLimit(opId, newLimit));
      case AccountQuery(a) =>
        QuerySince(r1, r.events[h..], opId, a, false);
        QueryReports(r1, opId, a, false);
      case Bill(a, _) =>
        QuerySince(r1, r.events[h..], opId, a, true);
        QueryReports(r1, opId, a, true);
      case GetDatabase(addr) =>
        DumpSince(r1, h, opId, addr);
    }
  }

  lemma SendSince(r: Routers.Router, es: seq<ActorEvent>, k: CardKey, m: CardMsg, am: AccountMsg)
    ensures Routers.ToCard(r.(events := es), k, m) == Routers.ToCard(r, k, m).(events := es)
    ensures Routers.ToAccount(r.(events := es), k.account, am) == Routers.ToAccount(r, k.account, am).(events := es)
    ensures Routers.ToCard(r, k, m).events == r.events && Routers.ToAccount(r, k.account, am).events == r.events
  {
    hide Routers.WithAccount, Routers.WithCard;
    CreateSince(r, es, k);
  }

  lemma CreateSince(r: Routers.Router, es: seq<ActorEvent>, k: CardKey)
    ensures Routers.WithAccount(r.(events := es), k.account) == Routers.WithAccount(r, k.account).(events := es)
    ensures Routers.WithCard(r.(events := es), k) == Routers.WithCard(r, k).(events := es)
    ensures Routers.WithAccount(r, k.account).events == r.events && Routers.WithCard(r, k).events == r.events
  {
  }

  lemma DumpSince(r: Routers.Router, h: nat, opId: u32, addr: SocketAddr)
    requires h <= |r.events|
    ensures forall e: ActorEvent :: (r.events + [e])[h..] == r.events[h..] + [e]
    ensures var pending := Routers.PendingSnapshot(addr, |r.accounts|, |r.cards|, [], []);
      var r1, m := r.(snapshots := r.snapshots[opId := pending]), AccountGetSnapshot(opId);
      && Routers.ToCards(Routers.ToAllAccounts(r1.(events := r.events[h..]), m), r.cards.Keys, CardGetSnapshot(opId)) ==
         Routers.ToCards(Routers.ToAllAccounts(r1, m), r.cards.Keys, CardGetSnapshot(opId)).(events := r.events[h..])
      && Routers.ToCards(Routers.ToAllAccounts(r1, m), r.cards.Keys, CardGetSnapshot(opId)).events == r.events
  {
  }

  lemma CompletionSince(r: Routers.Router, opId: u32, h: nat)
    requires h <= |r.events|
    ensures var r' := Routers.TryComplete(r, opId);
      && h <= |r'.events|
      && Routers.TryComplete(r.(events := r.events[h..]), opId) == r'.(events := r'.events[h..])
  {
    assert forall e: ActorEvent :: (r.events + [e])[h..] == r.events[h..] + [e];
  }

  lemma HandleSince(r: Routers.Router, msg: RouterMsg, h: nat)
    requires h <= |r.events| && (msg.Execute? ==> !msg.operation.ReplaceDatabase?)
    ensures var r' := Routers.Handle(r, msg);
      && h <= |r'.events|
      && Routers.Handle(r.(events := r.events[h..]), msg) == r'.(events := r'.events[h..])
  {
    hide Routers.Dispatch, Routers.TryComplete, Routers.CompletedResult;
    if msg.Execute? {
      DispatchSince(r, msg.opId, msg.operation, h);
    } else {
      assert forall e: ActorEvent :: (r.events + [e])[h..] == r.events[h..] + [e];
      if msg.AccountSnapshotCollected? && msg.opId in r.snapshots {
        var p := r.snapshots[msg.opId];
        CompletionSince(r.(snapshots := r.snapshots[msg.opId := p.(accounts := p.accounts + [msg.account])]), msg.opId, h);
      } else if msg.CardSnapshotCollected? && msg.opId in r.snapshots {
        var p := r.snapshots[msg.opId];
        CompletionSince(r.(snapshots := r.snapshots[msg.opId := p.(cards := p.cards + [msg.card])]), msg.opId, h);
      }
    }
  }

  lemma NextSince(n: Net, h: nat, l: Label)
    requires Wired(n) && Enabled(n, l) && h <= |n.r.events| && !RoutesReplace(n, l)
    ensures Wired(Since(n, h)) && Enabled(Since(n, h), l)
    ensures h <= |Next(n, l).r.events| && Next(Since(n, h), l) == Since(Next(n, l), h)
  {
    hide Accounts.Handle, Cards.Handle, Routers.Handle;
    if l.AtRouter? {
      HandleSince(n.r, n.mail[0], h);
    }
  }

  // ---- the books ----

  /** The part of a record that is about some ids. */
  function Only(g: Asked, ids: set<u32>): Asked {
    Asked(map id | id in g.accounts && id in ids :: g.accounts[id], map id | id in g.cards && id in ids :: g.cards[id])
  }

  /** Either traffic since event `h`, of the operations `ops`, or a restore of the ready network `base`. */
  datatype Stage = Open(h: nat, ops: Submitted) | Restoring(base: Net, id: u32)

  /** `es` answers every operation but those still open, once each and completely. */
  ghost predicate Closed(es: seq<ActorEvent>, all: Submitted, g: Asked, open: Submitted) {
    && (forall id :: id in open ==> id in all && all[id] == open[id])
    && (forall e :: e in es ==> EventTrace(all, e) && e.opId !in open && Complete(e, g))
    && (forall id :: id in all && id !in open ==> Count(es, EventOf(id)) == 1)
  }

  ghost predicate Kept(n: Net, start: nat, all: Submitted, g: Asked, stage: Stage) {
    && Wired(n) && Prefixed(n.r) && start <= |n.r.events|
    && g.cards.Keys <= all.Keys && g.accounts.Keys <= all.Keys
    && match stage
       case Open(h, ops) =>
         && start <= h <= |n.r.events| && Norm(n).r.events == n.r.events
         && Accounted(Since(Norm(n), h), ops, Only(g, ops.Keys))
         && Closed(n.r.events[start..h], all, g, ops)
       case Restoring(base, id) =>
         && id in all && all[id].ReplaceDatabase?
         && Refinement.Ready(base) && Refinement.Working(base, id, all[id], n)
         && Closed(n.r.events[start..], all, g, map[id := all[id]])
  }

  // ---- admissible runs ----

  ghost predicate IsAnswered(n: Net, start: nat, id: u32)
    requires start <= |n.r.events|
  {
    Count(n.r.events[start..], EventOf(id)) > 0
  }

  /**
   An id is new; a query waits for the earlier queries on its account; a restore waits for
   everything, and everything waits for a restore.
   */
  ghost predicate MaySubmit(n: Net, start: nat, all: Submitted, l: Label)
    requires start <= |n.r.events|
  {
    l.Submit? ==>
      && l.opId !in all
      && forall id :: id in all && (l.op.ReplaceDatabase? || all[id].ReplaceDatabase? || (IsQuery(l.op) && QueryOn(all[id], l.op.accountId))) ==>
        IsAnswered(n, start, id)
  }

  ghost predicate AdmissibleRun(n: Net, start: nat, all: Submitted, ls: seq<Label>)
    requires Wired(n) && Schedule(n, ls) && start <= |n.r.events|
    decreases |ls|
  {
    ls != [] ==>
      && MaySubmit(n, start, all, ls[0])
      && (NextWired(n, ls[0]); EventsGrow(n, ls[0]); AdmissibleRun(Next(n, ls[0]), start, NextOps(all, ls[0]), ls[1..]))
  }

  /** The operations submitted along a schedule. */
  function AllOps(ops: Submitted, ls: seq<Label>): Submitted
    decreases |ls|
  {
    if ls == [] then ops else AllOps(NextOps(ops, ls[0]), ls[1..])
  }

  /** The actors asked along a schedule. */
  ghost function AllAsked(n: Net, ls: seq<Label>, g: Asked): Asked
    requires Wired(n) && Schedule(n, ls)
    decreases |ls|
  {
    if ls == [] then g
    else
      NextWired(n, ls[0]);
      AllAsked(Next(n, ls[0]), ls[1..], NextAsked(n, ls[0], g))
  }

  // ---- deliveries during traffic ----

  /** The record grows alike in the network and in its view, and only at ids that are open. */
  lemma AskedAlike(n: Net, v: Net, l: Label, g: Asked, ids: set<u32>)
    requires Enabled(n, l) && Enabled(v, l) && v.mail == n.mail
    requires v.r.accounts.Keys == n.r.accounts.Keys && v.r.cards.Keys == n.r.cards.Keys
    requires l.AtRouter? && n.mail[0].Execute? ==> n.mail[0].opId in ids
    ensures NextAsked(v, l, Only(g, ids)) == Only(NextAsked(n, l, g), ids)
    ensures forall id :: id !in ids ==>
      AskedCards(NextAsked(n, l, g), id) == AskedCards(g, id) && AskedAccounts(NextAsked(n, l, g), id) == AskedAccounts(g, id)
    ensures NextAsked(n, l, g).cards.Keys <= g.cards.Keys + ids && NextAsked(n, l, g).accounts.Keys <= g.accounts.Keys + ids
  {
    hide Only, Routers.CardsOf;
    if l.AtRouter? && n.mail[0].Execute? {
      var id := n.mail[0].opId;
      OnlyPut(g, ids, id, n.r.accounts.Keys, n.r.cards.Keys);
      if IsQuery(n.mail[0].operation) {
        SameCards(v.r, n.r, n.mail[0].operation.accountId);
        OnlyPut(g, ids, id, {}, Routers.CardsOf(n.r, n.mail[0].operation.accountId));
      }
    }
  }

  lemma SameCards(r: Routers.Router, r': Routers.Router, a: u64)
    requires r.cards.Keys == r'.cards.Keys
    ensures Routers.CardsOf(r, a) == Routers.CardsOf(r', a)
  {
    assert forall k :: k in r.cards <==> k in r.cards.Keys;
  }

  lemma OnlyPut(g: Asked, ids: set<u32>, id: u32, accounts: set<u64>, cards: set<CardKey>)
    requires id in ids
    ensures Only(g.(cards := g.cards[id := cards]), ids) == Only(g, ids).(cards := Only(g, ids).cards[id := cards])
    ensures Only(Asked(g.accounts[id := accounts], g.cards[id := cards]), ids) ==
      Asked(Only(g, ids).accounts[id := accounts], Only(g, ids).cards[id := cards])
  {
  }

  lemma ClosedMore(es: seq<ActorEvent>, all: Submitted, g: Asked, g': Asked, open: Submitted)
    requires Closed(es, all, g, open)
    requires forall id :: id !in open ==> AskedCards(g', id) == AskedCards(g, id) && AskedAccounts(g', id) == AskedAccounts(g, id)
    ensures Closed(es, all, g', open)
  {
    hide EventTrace, NamesEachCard, NamesEverything, Count, AskedCards, AskedAccounts;
  }

  /** No restore is routed while the books are open. */
  lemma NoRestoreWaits(n: Net, start: nat, all: Submitted, g: Asked, h: nat, ops: Submitted, l: Label)
    requires Kept(n, start, all, g, Open(h, ops)) && Enabled(n, l)
    ensures !RoutesReplace(n, l) && (l.AtRouter? && n.mail[0].Execute? ==> n.mail[0].opId in ops)
    ensures Wired(Norm(n)) && Norm(n).mail == n.mail
    ensures Norm(n).r.accounts.Keys == n.r.accounts.Keys && Norm(n).r.cards.Keys == n.r.cards.Keys
  {
    hide Closed, Prefixed, Handshake.Safe, FanOutOk, CardsTraced, PendingTraced, EventsTraced, OnRecord, Solo, Once;
    NormWired(n);
    if l.AtRouter? {
      assert RouterTrace(ops)(Since(Norm(n), h).mail[0]);
    }
  }

  lemma DeliverOpen(n: Net, start: nat, all: Submitted, g: Asked, h: nat, ops: Submitted, l: Label)
    requires Kept(n, start, all, g, Open(h, ops)) && Enabled(n, l) && !l.Submit?
    ensures Kept(Next(n, l), start, all, NextAsked(n, l, g), Open(h, ops))
  {
    hide Accounted, Closed, Prefixed, Norm, Next, NextAsked, Only;
    NoRestoreWaits(n, start, all, g, h, ops, l);
    NextWired(n, l);
    EventsGrow(n, l);
    var n', v := Next(n, l), Since(Norm(n), h);
    Refinement.NormSteps(n, l);
    Refinement.NormEvents(n');
    assert n'.r.events[start..h] == n.r.events[start..h];
    if Norm(n') == Norm(n) {
      QuietSteps(n, l, g);
    } else {
      NextSince(Norm(n), h, l);
      OpenIds(n, start, all, g, h, ops);
      AskedAlike(n, v, l, g, ops.Keys);
      DeliverAccounted(v, ops, Only(g, ops.Keys), l);
      ClosedMore(n.r.events[start..h], all, g, NextAsked(n, l, g), ops);
    }
  }

  /** A step that the normal form does not notice is not the router's. */
  lemma QuietSteps(n: Net, l: Label, g: Asked)
    requires Wired(n) && Enabled(n, l) && !l.Submit? && Wired(Next(n, l)) && Norm(Next(n, l)) == Norm(n)
    ensures NextAsked(n, l, g) == g
  {
    hide Norm, Routers.Handle, AccountStep, CardStep;
    Refinement.NormMail(n);
    Refinement.NormMail(Next(n, l));
    assert Next(n, l).mail == n.mail;
  }

  lemma OpenIds(n: Net, start: nat, all: Submitted, g: Asked, h: nat, ops: Submitted)
    requires Kept(n, start, all, g, Open(h, ops))
    ensures ops.Keys <= all.Keys && forall id :: id in ops ==> all[id] == ops[id]
  {
    hide Accounted, Norm, Prefixed;
  }

  // ---- submissions ----

  lemma NormSubmit(n: Net, l: Label)
    requires Wired(n) && Prefixed(n.r) && l.Submit?
    ensures var n' := Next(n, l);
      && Wired(n') && Prefixed(n'.r) && n'.r.events == n.r.events
      && Wired(Norm(n)) && Norm(n') == Next(Norm(n), l) && Norm(n').r.events == n'.r.events
  {
    NormWired(n);
  }

  /** Of an open operation, the events since the stage began tell all. */
  lemma AnsweredSince(n: Net, start: nat, all: Submitted, g: Asked, h: nat, ops: Submitted, id: u32)
    requires Kept(n, start, all, g, Open(h, ops))
    ensures Count(n.r.events[start..], EventOf(id)) == Count(n.r.events[start..h], EventOf(id)) + Count(n.r.events[h..], EventOf(id))
    ensures id in ops ==> Count(n.r.events[start..h], EventOf(id)) == 0
  {
    hide Accounted, Norm, Prefixed, EventTrace, Complete, Count;
    assert n.r.events[start..] == n.r.events[start..h] + n.r.events[h..];
    CountAppend(n.r.events[start..h], n.r.events[h..], EventOf(id));
    if id in ops {
      CountZero(n.r.events[start..h], EventOf(id));
    }
  }

  lemma SubmitOpen(n: Net, start: nat, all: Submitted, g: Asked, h: nat, ops: Submitted, l: Label)
    requires Kept(n, start, all, g, Open(h, ops)) && l.Submit? && !l.op.ReplaceDatabase? && MaySubmit(n, start, all, l)
    ensures Kept(Next(n, l), start, NextOps(all, l), g, Open(h, NextOps(ops, l)))
  {
    hide Accounted, Closed, Prefixed, Norm, Next, Count;
    NormSubmit(n, l);
    NextSince(Norm(n), h, l);
    OpenIds(n, start, all, g, h, ops);
    forall j | j in ops && IsQuery(l.op) && QueryOn(ops[j], l.op.accountId) ensures Count(n.r.events[h..], EventOf(j)) > 0 {
      AnsweredSince(n, start, all, g, h, ops, j);
      assert IsAnswered(n, start, j);
    }
    SubmitAccounted(Since(Norm(n), h), ops, Only(g, ops.Keys), l);
    assert Only(g, NextOps(ops, l).Keys) == Only(g, ops.Keys);
    ClosedSubmit(n.r.events[start..h], all, g, ops, l);
  }

  lemma ClosedSubmit(es: seq<ActorEvent>, all: Submitted, g: Asked, open: Submitted, l: Label)
    requires Closed(es, all, g, open) && l.Submit? && l.opId !in all
    ensures Closed(es, NextOps(all, l), g, NextOps(open, l))
  {
    hide Complete, Count, Fits;
  }

  /** A submitted restore finds the network ready: nothing is under way but older ReplaceState messages. */
  lemma SubmitRestore(n: Net, start: nat, all: Submitted, g: Asked, h: nat, ops: Submitted, l: Label)
    requires Kept(n, start, all, g, Open(h, ops)) && l.Submit? && l.op.ReplaceDatabase? && MaySubmit(n, start, all, l)
    ensures Kept(Next(n, l), start, NextOps(all, l), g, Restoring(n, l.opId))
  {
    hide Accounted, Closed, Prefixed, Norm, Next, Count, Stages.Idle;
    var v := Since(Norm(n), h);
    OpenIds(n, start, all, g, h, ops);
    forall id | id in ops ensures Count(n.r.events[h..], EventOf(id)) > 0 {
      AnsweredSince(n, start, all, g, h, ops, id);
      assert IsAnswered(n, start, id);
    }
    AnsweredIsIdle(v, ops, Only(g, ops.Keys));
    IdleWhateverTheEvents(Norm(n), h);
    Refinement.SubmitWorks(n, l.opId, l.op);
    NormSubmit(n, l);
    AllClosed(n, start, all, g, h, ops);
    ClosedSubmit(n.r.events[start..], all, g, map[], l);
  }

  lemma IdleWhateverTheEvents(n: Net, h: nat)
    requires h <= |n.r.events|
    ensures Stages.Idle(Since(n, h)) <==> Stages.Idle(n)
  {
  }

  /** When all open operations are answered the books can be closed. */
  lemma AllClosed(n: Net, start: nat, all: Submitted, g: Asked, h: nat, ops: Submitted)
    requires Kept(n, start, all, g, Open(h, ops)) && forall id :: id in ops ==> Count(n.r.events[h..], EventOf(id)) > 0
    ensures Closed(n.r.events[start..], all, g, map[])
  {
    hide Accounted, Prefixed, Norm, Complete, Fits, Count, Only;
    var v, es, more := Since(Norm(n), h), n.r.events[start..h], n.r.events[h..];
    assert n.r.events[start..] == es + more;
    EventsOf(v, ops, Only(g, ops.Keys));
    forall e | e in more ensures EventTrace(all, e) && Complete(e, g) {
      CompleteAlike(e, g, ops.Keys);
    }
    forall id | id in all ensures Count(n.r.events[start..], EventOf(id)) == 1 {
      AnsweredSince(n, start, all, g, h, ops, id);
      if id !in ops {
        CountZero(more, EventOf(id));
      }
    }
  }

  lemma CompleteAlike(e: ActorEvent, g: Asked, ids: set<u32>)
    ensures e.OperationResultEvent? && e.opId in ids ==> (Complete(e, Only(g, ids)) <==> Complete(e, g))
  {
    hide NamesEachCard, NamesEverything;
  }

  // ---- during a restore ----

  lemma RestoreWaits(n: Net, base: Net, id: u32, op: Op)
    requires Refinement.Ready(base) && op.ReplaceDatabase? && Refinement.Working(base, id, op, n)
    ensures n.mail == [Execute(id, op)] && n.r.events == base.r.events
  {
    Refinement.WorkingIsSilent(base, id, op, n);
    hide Stages.Idle, Prefixed;
    Refinement.NormMail(n);
  }

  lemma DeliverRestoring(n: Net, start: nat, all: Submitted, g: Asked, base: Net, id: u32, l: Label) returns (stage: Stage)
    requires Kept(n, start, all, g, Restoring(base, id)) && Enabled(n, l) && !l.Submit?
    ensures Kept(Next(n, l), start, all, NextAsked(n, l, g), stage)
  {
    hide Closed, Prefixed, Norm, Next, Accounted, Only, Refinement.Ready, Refinement.Working, Refinement.Executed;
    var op, n' := all[id], Next(n, l);
    RestoreWaits(n, base, id, op);
    NextWired(n, l);
    assert NextAsked(n, l, g) == g;
    Refinement.WorkingSteps(base, id, op, n, l);
    if Refinement.Working(base, id, op, n') {
      RestoreWaits(n', base, id, op);
      WorkingPrefixed(n', base, id, op);
      stage := Restoring(base, id);
    } else {
      var none: Submitted := map[];
      assert none.Keys == {};
      stage := Open(|n'.r.events|, none);
      RestoreReports(n', base, id, op);
      Reopens(n', g);
      assert n'.r.events[start..] == base.r.events[start..] + [n'.r.events[|base.r.events|]];
      ClosedRestore(base.r.events[start..], all, g, id, n'.r.events[|base.r.events|]);
      assert n'.r.events[start..|n'.r.events|] == n'.r.events[start..];
    }
  }

  lemma WorkingPrefixed(n: Net, base: Net, id: u32, op: Op)
    requires Refinement.Ready(base) && Refinement.Working(base, id, op, n)
    ensures Wired(n) && Prefixed(n.r)
  {
  }

  lemma RestoreReports(n: Net, base: Net, id: u32, op: Op)
    requires Refinement.Ready(base) && op.ReplaceDatabase? && Refinement.Executed(base, id, op, n)
    ensures Refinement.Ready(n) && |n.r.events| == |base.r.events| + 1 && n.r.events[..|base.r.events|] == base.r.events
    ensures n.r.events[|base.r.events|] == OperationResultEvent(id, op, ReplaceDatabaseResult, true, None)
  {
    hide Stages.Idle, Prefixed, Norm;
  }

  /** A ready network can begin a stage of traffic. */
  lemma Reopens(n: Net, g: Asked)
    requires Refinement.Ready(n)
    ensures Wired(n) && Prefixed(n.r) && Norm(n).r.events == n.r.events
    ensures Accounted(Since(Norm(n), |n.r.events|), map[], Only(g, {}))
  {
    hide Accounted, Prefixed;
    Refinement.NormEvents(n);
    var v := Since(Norm(n), |n.r.events|);
    IdleWhateverTheEvents(Norm(n), |n.r.events|);
    assert v.r.events == [];
    hide Norm, Stages.Idle;
    IdleAccounted(v);
    assert Only(g, {}) == NOBODY;
  }

  lemma ClosedRestore(es: seq<ActorEvent>, all: Submitted, g: Asked, id: u32, e: ActorEvent)
    requires id in all && all[id].ReplaceDatabase? && Closed(es, all, g, map[id := all[id]])
    requires e == OperationResultEvent(id, all[id], ReplaceDatabaseResult, true, None)
    ensures Closed(es + [e], all, g, map[])
  {
    hide Count;
    forall j | j in all ensures Count(es + [e], EventOf(j)) == 1 {
      CountAppend(es, [e], EventOf(j));
      CountOne(e, EventOf(j));
      if j == id {
        CountZero(es, EventOf(j));
      }
    }
  }

  /** Nothing may be submitted before the restore is answered. */
  lemma NothingSubmitted(n: Net, start: nat, all: Submitted, g: Asked, base: Net, id: u32, l: Label)
    requires Kept(n, start, all, g, Restoring(base, id)) && MaySubmit(n, start, all, l)
    ensures !l.Submit?
  {
    hide Refinement.Ready, Refinement.Working, Prefixed, Complete, EventTrace;
    CountZero(n.r.events[start..], EventOf(id));
    assert !IsAnswered(n, start, id);
  }

  // ---- runs ----

  lemma NextKept(n: Net, start: nat, all: Submitted, g: Asked, stage: Stage, l: Label) returns (stage': Stage)
    requires Kept(n, start, all, g, stage) && Enabled(n, l) && MaySubmit(n, start, all, l)
    ensures Kept(Next(n, l), start, NextOps(all, l), NextAsked(n, l, g), stage')
  {
    hide Kept, MaySubmit, Next;
    match stage {
      case Open(h, ops) =>
        if !l.Submit? {
          DeliverOpen(n, start, all, g, h, ops, l);
          stage' := stage;
        } else if l.op.ReplaceDatabase? {
          SubmitRestore(n, start, all, g, h, ops, l);
          stage' := Restoring(n, l.opId);
        } else {
          SubmitOpen(n, start, all, g, h, ops, l);
          stage' := Open(h, NextOps(ops, l));
        }
      case Restoring(base, id) =>
        NothingSubmitted(n, start, all, g, base, id, l);
        stage' := DeliverRestoring(n, start, all, g, base, id, l);
    }
  }

  lemma {:induction false} RunKept(n: Net, start: nat, all: Submitted, g: Asked, stage: Stage, ls: seq<Label>) returns (stage': Stage)
    requires Wired(n) && Schedule(n, ls) && start <= |n.r.events| && AdmissibleRun(n, start, all, ls) && Kept(n, start, all, g, stage)
    ensures Kept(Run(n, ls), start, AllOps(all, ls), AllAsked(n, ls, g), stage')
    decreases |ls|
  {
    hide Kept, Wired, Next, MaySubmit;
    if ls == [] {
      stage' := stage;
    } else {
      NextWired(n, ls[0]);
      EventsGrow(n, ls[0]);
      stage' := NextKept(n, start, all, g, stage, ls[0]);
      stage' := RunKept(Next(n, ls[0]), start, NextOps(all, ls[0]), NextAsked(n, ls[0], g), stage', ls[1..]);
    }
  }

  // ---- the result ----

  /** What the books say of the events since the start. */
  lemma KeptEvents(n: Net, start: nat, all: Submitted, g: Asked, stage: Stage)
    requires Kept(n, start, all, g, stage)
    ensures var es := n.r.events[start..];
      && (forall e :: e in es ==> EventTrace(all, e) && Complete(e, g))
      && (forall id :: id in all ==> Count(es, EventOf(id)) <= 1)
      && (Refinement.Drained(n) ==> forall id :: id in all ==> Count(es, EventOf(id)) == 1)
  {
    hide Accounted, Prefixed, Norm, Complete, Fits, Count, Only, Refinement.Ready, Refinement.Working, Refinement.Drained;
    match stage {
      case Open(h, ops) =>
        OpenEvents(n, start, all, g, h, ops);
      case Restoring(base, id) =>
        RestoreWaits(n, base, id, all[id]);
        Refinement.WorkingLive(base, id, all[id], n);
        CountZero(n.r.events[start..], EventOf(id));
    }
  }

  lemma OpenEvents(n: Net, start: nat, all: Submitted, g: Asked, h: nat, ops: Submitted)
    requires Kept(n, start, all, g, Open(h, ops))
    ensures var es := n.r.events[start..];
      && (forall e :: e in es ==> EventTrace(all, e) && Complete(e, g))
      && (forall id :: id in all ==> Count(es, EventOf(id)) <= 1)
      && (Refinement.Drained(n) ==> forall id :: id in all ==> Count(es, EventOf(id)) == 1)
  {
    hide Accounted, Prefixed, Norm, Complete, Fits, Count, Only, Refinement.Drained;
    var v, es, more := Since(Norm(n), h), n.r.events[start..h], n.r.events[h..];
    assert n.r.events[start..] == es + more;
    EventsOf(v, ops, Only(g, ops.Keys));
    if Refinement.Drained(n) {
      DrainedView(n, h);
    }
    forall e | e in more ensures EventTrace(all, e) && Complete(e, g) {
      CompleteAlike(e, g, ops.Keys);
    }
    forall id | id in all
      ensures Count(n.r.events[start..], EventOf(id)) <= 1
      ensures Refinement.Drained(n) ==> Count(n.r.events[start..], EventOf(id)) == 1
    {
      AnsweredSince(n, start, all, g, h, ops, id);
      if id !in ops {
        CountZero(more, EventOf(id));
      }
    }
  }

  lemma DrainedView(n: Net, h: nat)
    requires Wired(n) && h <= |Norm(n).r.events| && Refinement.Drained(n)
    ensures forall l :: Enabled(Since(Norm(n), h), l) ==> l.Submit?
  {
    forall l | Enabled(Since(Norm(n), h), l) ensures l.Submit? {
      NormWired(n);
      Refinement.LiveInNorm(n, l);
    }
  }

  /**
   From any ready network, whatever it has done before, and whatever the interleaving: every
   new event is the result of an operation submitted since, and of the kind it asks for (no
   debug text, no failed `expect`, no fallback); no operation is answered twice; the lists of
   queries and dumps name every actor that existed when they were routed exactly once; and
   when nothing is left to deliver every operation has been answered exactly once.
   */
  lemma ExactlyOneResult(n0: Net, ls: seq<Label>)
    requires Refinement.Ready(n0) && Schedule(n0, ls) && AdmissibleRun(n0, |n0.r.events|, map[], ls)
    ensures |n0.r.events| <= |Run(n0, ls).r.events|
    ensures var n, ops, g := Run(n0, ls), AllOps(map[], ls), AllAsked(n0, ls, NOBODY);
      var es := n.r.events[|n0.r.events|..];
      && (forall e :: e in es ==> EventTrace(ops, e))
      && (forall id :: id in ops ==> Count(es, EventOf(id)) <= 1)
      && (forall e :: e in es && e.OperationResultEvent? && e.result.AccountQueryResult? ==>
        NamesEachCard(e, AskedCards(g, e.opId)))
      && (forall e :: e in es && e.OperationResultEvent? && e.result.DatabaseSnapshotResult? ==>
        NamesEverything(e, AskedAccounts(g, e.opId), AskedCards(g, e.opId)))
      && (Refinement.Drained(n) ==> forall id :: id in ops ==> Count(es, EventOf(id)) == 1)
  {
    hide Kept, Run, Schedule, AllAsked, AllOps, AdmissibleRun, Refinement.Ready, Refinement.Drained, EventTrace, NamesEachCard, NamesEverything, Count;
    var start := |n0.r.events|;
    Begins(n0);
    var stage := RunKept(n0, start, map[], NOBODY, Open(start, map[]), ls);
    KeptStarts(Run(n0, ls), start, AllOps(map[], ls), AllAsked(n0, ls, NOBODY), stage);
    KeptEvents(Run(n0, ls), start, AllOps(map[], ls), AllAsked(n0, ls, NOBODY), stage);
  }

  lemma KeptStarts(n: Net, start: nat, all: Submitted, g: Asked, stage: Stage)
    requires Kept(n, start, all, g, stage)
    ensures start <= |n.r.events|
  {
  }

  lemma Begins(n: Net)
    requires Refinement.Ready(n)
    ensures Wired(n) && Kept(n, |n.r.events|, map[], NOBODY, Open(|n.r.events|, map[]))
  {
    hide Accounted, Refinement.Ready, Norm, Prefixed;
    Reopens(n, NOBODY);
    assert n.r.events[|n.r.events|..|n.r.events|] == [];
  }
}
