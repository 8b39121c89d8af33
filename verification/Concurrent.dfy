/**
 Charges and limit changes that overlap in any interleaving are linearizable: each takes effect
 at one moment between its submission and its answer, in the order of the verdicts.
 */
module Concurrent {
  import opened Protocol
  import opened Messages
  import opened Counting
  import opened Network
  import opened Ledgers
  import opened Normal
  import opened Traces
  import opened Tokens
  import opened Questions
  import opened ExactlyOne
  import opened Conservation
  import opened Verdicts
  import opened Standings
  import opened Reports
  import opened Linear
  import opened Traffic
  import Handshake
  import Stages
  import Refinement
  import Routers

  // ---- runs ----

  /** The verdicts of a run, in the order in which they are given. */
  ghost function Order(n: Net, ls: seq<Label>): seq<Verdict>
    requires Wired(n) && Schedule(n, ls)
    decreases |ls|
  {
    if ls == [] then []
    else
      NextWired(n, ls[0]);
      VerdictsAt(n, ls[0]) + Order(Next(n, ls[0]), ls[1..])
  }

  ghost predicate InOrder(n: Net, start: nat, all: Submitted, g: Asked, base: Ledger, vs: seq<Verdict>) {
    Kept(n, start, all, g, Open(start, all)) && InLedgerOrder(Since(Norm(n), start), base, all, vs)
  }

  lemma SameVerdicts(n: Net, h: nat, l: Label)
    requires Wired(n) && Prefixed(n.r) && Enabled(n, l) && Wired(Norm(n)) && Enabled(Norm(n), l) && h <= |Norm(n).r.events|
    requires !Replaces(n, l)
    ensures VerdictsAt(Since(Norm(n), h), l) == VerdictsAt(n, l)
  {
    hide CardVerdicts, AccountVerdicts, StripCards, StripAccounts, SettleCards, SettleAccounts;
    match l {
      case AtCard(k) => NormAt(n, k.account, k);
      case AtAccount(a) => NormAt(n, a, CardKey(a, 0));
      case _ =>
    }
  }

  lemma ReplaceDecidesNothing(n: Net, l: Label)
    requires Wired(n) && Enabled(n, l) && Replaces(n, l)
    ensures VerdictsAt(n, l) == []
  {
  }

  lemma KeptFacts(n: Net, start: nat, all: Submitted, g: Asked)
    requires Kept(n, start, all, g, Open(start, all))
    ensures Wired(n) && Prefixed(n.r) && start <= |n.r.events| && Norm(n).r.events == n.r.events && Wired(Norm(n))
    ensures Accounted(Since(Norm(n), start), all, Only(g, all.Keys)) && EventsTraced(Since(Norm(n), start), all)
  {
    hide Prefixed, Norm, Closed, Handshake.Safe, FanOutOk, Once, OnRecord, Solo, MailTraced, CardsTraced, PendingTraced, EventsTraced;
    NormWired(n);
  }

  lemma DeliverInOrder(n: Net, start: nat, all: Submitted, g: Asked, base: Ledger, vs: seq<Verdict>, l: Label)
    requires InOrder(n, start, all, g, base, vs) && Enabled(n, l) && !l.Submit?
    ensures Wired(n) && InOrder(Next(n, l), start, all, NextAsked(n, l, g), base, vs + VerdictsAt(n, l))
  {
    hide Kept, InLedgerOrder, Norm, Next, Accounted, Prefixed, EventsTraced, VerdictsAt, Only;
    KeptFacts(n, start, all, g);
    NoRestoreWaits(n, start, all, g, start, all, l);
    DeliverOpen(n, start, all, g, start, all, l);
    Refinement.NormSteps(n, l);
    if Replaces(n, l) {
      ReplaceDecidesNothing(n, l);
      assert vs + [] == vs;
    } else {
      NextSince(Norm(n), start, l);
      SameVerdicts(n, start, l);
      DeliverLinear(Since(Norm(n), start), base, all, Only(g, all.Keys), vs, l);
    }
  }

  lemma SubmitInOrder(n: Net, start: nat, all: Submitted, g: Asked, base: Ledger, vs: seq<Verdict>, l: Label)
    requires InOrder(n, start, all, g, base, vs) && l.Submit? && Plain(l) && MaySubmit(n, start, all, l)
    ensures Wired(n) && InOrder(Next(n, l), start, NextOps(all, l), NextAsked(n, l, g), base, vs + VerdictsAt(n, l))
  {
    hide Kept, InLedgerOrder, Norm, Next, Accounted, Prefixed, EventsTraced, Only, IsAnswered;
    KeptFacts(n, start, all, g);
    SubmitOpen(n, start, all, g, start, all, l);
    NormSubmit(n, l);
    NextSince(Norm(n), start, l);
    SubmitLinear(Since(Norm(n), start), base, all, vs, l);
    assert vs + [] == vs;
  }

  lemma {:induction false} RunInOrder(n: Net, start: nat, all: Submitted, g: Asked, base: Ledger, vs: seq<Verdict>, ls: seq<Label>)
    requires Wired(n) && Schedule(n, ls) && start <= |n.r.events| && AdmissibleRun(n, start, all, ls)
    requires InOrder(n, start, all, g, base, vs) && forall l :: l in ls ==> Plain(l)
    ensures InOrder(Run(n, ls), start, AllOps(all, ls), AllAsked(n, ls, g), base, vs + Order(n, ls))
    decreases |ls|
  {
    hide InOrder, Wired, Next, MaySubmit, VerdictsAt, Plain;
    if ls == [] {
      assert vs + [] == vs;
    } else {
      NextWired(n, ls[0]);
      EventsGrow(n, ls[0]);
      var more, rest := VerdictsAt(n, ls[0]), Order(Next(n, ls[0]), ls[1..]);
      if ls[0].Submit? {
        SubmitInOrder(n, start, all, g, base, vs, ls[0]);
      } else {
        DeliverInOrder(n, start, all, g, base, vs, ls[0]);
      }
      RunInOrder(Next(n, ls[0]), start, NextOps(all, ls[0]), NextAsked(n, ls[0], g), base, vs + more, ls[1..]);
      assert (vs + more) + rest == vs + (more + rest);
    }
  }

  lemma BeginsInOrder(n: Net)
    requires Refinement.Ready(n)
    ensures InOrder(n, |n.r.events|, map[], NOBODY, Refinement.Abs(n), [])
  {
    hide Accounted, Norm, Prefixed, Kept, InLedgerOrder, Stages.Idle;
    Begins(n);
    KeptFacts(n, |n.r.events|, map[], NOBODY);
    var v := Since(Norm(n), |n.r.events|);
    IdleWhateverTheEvents(Norm(n), |n.r.events|);
    IdleLinear(v);
  }

  // ---- the result ----

  /** An answer is the verdict that was given, reported as the ledger's answer would be. */
  ghost predicate AnswersInOrder(e: ActorEvent, ops: Submitted, order: seq<Verdict>) {
    e.OperationResultEvent? && e.opId in ops &&
    (Routers.IsUpdate(ops[e.opId]) ==>
      var v := Verdict(e.opId, OutcomeOf(e.error));
      v in order && Stages.Matches(e, e.opId, ops[e.opId], Decided(v.outcome)))
  }

  lemma AnswerMatches(e: ActorEvent, ops: Submitted, order: seq<Verdict>)
    requires EventTrace(ops, e) && EventBacked(e, order)
    ensures AnswersInOrder(e, ops, order)
  {
  }

  lemma EventsInOrder(n: Net, start: nat, all: Submitted, g: Asked, base: Ledger, vs: seq<Verdict>)
    requires InOrder(n, start, all, g, base, vs)
    ensures start <= |n.r.events| && forall e :: e in n.r.events[start..] ==> AnswersInOrder(e, all, vs)
    ensures Rooted(base) && Known(vs, all) && Obeys(base, vs, all)
    ensures forall id :: Count(vs, VerdictOn(id)) <= 1
  {
    hide Norm, Prefixed, Accounted, EventTrace, EventBacked, AnswersInOrder, Count, Tallied, BillFree, Exact, Touched, Obeys, Alike, Standing;
    KeptFacts(n, start, all, g);
    var v := Since(Norm(n), start);
    forall e | e in n.r.events[start..] ensures AnswersInOrder(e, all, vs) {
      assert e in v.r.events;
      AnswerMatches(e, all, vs);
    }
    OnceInView(v, all, Only(g, all.Keys), vs);
  }

  lemma OnceInView(v: Net, all: Submitted, g: Asked, vs: seq<Verdict>)
    requires Accounted(v, all, g) && Tallied(v, all, vs) && Known(vs, all)
    ensures forall id :: Count(vs, VerdictOn(id)) <= 1
  {
    hide Handshake.Safe, Traced, Tallied, Once, OnRecord, Solo, FanOutOk, Count;
    forall id ensures Count(vs, VerdictOn(id)) <= 1 {
      if id in all && Routers.IsUpdate(all[id]) {
        DecidedOnce(v, all, vs, id);
      } else {
        CountZero(vs, VerdictOn(id));
      }
    }
  }

  // ---- once everything is answered ----

  lemma {:induction false} AfterHas(db: Ledger, vs: seq<Verdict>, ops: Submitted)
    requires Rooted(db) && Known(vs, ops)
    ensures var db' := After(db, vs, ops);
      && db.accounts.Keys <= db'.accounts.Keys && db.cards.Keys <= db'.cards.Keys
      && forall v :: v in vs ==> ops[v.opId].accountId in db'.accounts && forall k :: ForCard(ops[v.opId], k) ==> k in db'.cards
    decreases |vs|
  {
    if vs != [] {
      var op, rest := ops[vs[0].opId], vs[1..];
      ApplyHas(db, op);
      AfterHas(Apply(db, op).0, rest, ops);
      assert forall v :: v in vs <==> v == vs[0] || v in rest;
    }
  }

  lemma ApplyHas(db: Ledger, op: Op)
    requires Rooted(db) && Routers.IsUpdate(op)
    ensures var db' := Apply(db, op).0;
      && Rooted(db') && db.accounts.Keys <= db'.accounts.Keys && db.cards.Keys <= db'.cards.Keys
      && op.accountId in db'.accounts && forall k :: ForCard(op, k) ==> k in db'.cards
  {
  }

  /** When all were decided, and nothing but updates was submitted, no actor is left that the ledger does not know. */
  lemma AlikeEqual(n: Net, base: Ledger, ops: Submitted, vs: seq<Verdict>)
    requires Wired(n) && Touched(n, base, ops) && Rooted(base) && Known(vs, ops) && Alike(After(base, vs, ops), Standing(n))
    requires forall id :: id in ops ==> Routers.IsUpdate(ops[id]) && exists v :: v in vs && v.opId == id
    ensures After(base, vs, ops) == Standing(n)
  {
    hide After, Apply, Known, CardRows, AccountRows;
    AfterHas(base, vs, ops);
    StandingActors(n);
    var db, full := After(base, vs, ops), Standing(n);
    forall a | a in full.accounts ensures a in db.accounts {
      if a !in base.accounts {
        var id :| id in ops && Names(ops[id], a);
        var v :| v in vs && v.opId == id;
      }
    }
    forall k | k in full.cards ensures k in db.cards {
      if k !in base.cards {
        var id :| id in ops && ForCard(ops[id], k);
        var v :| v in vs && v.opId == id;
      }
    }
    assert db.accounts == full.accounts && db.cards == full.cards;
  }

  lemma StandingActors(n: Net)
    requires Wired(n)
    ensures Standing(n).accounts.Keys == n.accounts.Keys && Standing(n).cards.Keys == n.cards.Keys
  {
    hide Share;
  }

  ghost predicate AllAnsweredSince(n: Net, start: nat, all: Submitted)
    requires start <= |n.r.events|
  {
    forall id :: id in all ==> IsAnswered(n, start, id)
  }

  /** Every update has exactly one verdict. */
  ghost predicate OnceEach(ops: Submitted, order: seq<Verdict>) {
    forall id :: Count(order, VerdictOn(id)) == if id in ops && Routers.IsUpdate(ops[id]) then 1 else 0
  }

  lemma AnsweredInOrder(n: Net, start: nat, all: Submitted, g: Asked, base: Ledger, vs: seq<Verdict>)
    requires InOrder(n, start, all, g, base, vs) && start <= |n.r.events| && AllAnsweredSince(n, start, all)
    ensures Rooted(base) && Known(vs, all) && OnceEach(all, vs)
    ensures Refinement.Ready(n) && Alike(Fold(base, OpsOf(vs, all)), Refinement.Abs(n))
    ensures (forall id :: id in all ==> Routers.IsUpdate(all[id])) ==> Fold(base, OpsOf(vs, all)) == Refinement.Abs(n)
  {
    hide Norm, Prefixed, Accounted, BillFree, Exact, Touched, Obeys, Alike, Standing, Count, Stages.Idle, AnswersInOrder, Closed;
    KeptFacts(n, start, all, g);
    EventsInOrder(n, start, all, g, base, vs);
    var v := Since(Norm(n), start);
    AnsweredIsIdle(v, all, Only(g, all.Keys));
    IdleWhateverTheEvents(Norm(n), start);
    IdleStanding(v);
    AfterIsFold(base, vs, all);
    AllDecided(n, start, all, vs);
    if forall id :: id in all ==> Routers.IsUpdate(all[id]) {
      AlikeEqual(v, base, all, vs);
    }
  }

  lemma AllDecided(n: Net, start: nat, all: Submitted, vs: seq<Verdict>)
    requires start <= |n.r.events| && AllAnsweredSince(n, start, all) && Known(vs, all)
    requires forall e :: e in n.r.events[start..] ==> AnswersInOrder(e, all, vs)
    requires forall id :: Count(vs, VerdictOn(id)) <= 1
    ensures OnceEach(all, vs)
    ensures forall id :: id in all && Routers.IsUpdate(all[id]) ==> exists v :: v in vs && v.opId == id
  {
    hide Count;
    forall id
      ensures Count(vs, VerdictOn(id)) == if id in all && Routers.IsUpdate(all[id]) then 1 else 0
      ensures id in all && Routers.IsUpdate(all[id]) ==> exists v :: v in vs && v.opId == id
    {
      CountZero(vs, VerdictOn(id));
      if id in all {
        assert IsAnswered(n, start, id);
        var e := Witness(n.r.events[start..], EventOf(id));
        assert AnswersInOrder(e, all, vs);
      }
    }
  }

  lemma DrainedAnswers(n: Net, start: nat, all: Submitted, g: Asked, base: Ledger, vs: seq<Verdict>)
    requires InOrder(n, start, all, g, base, vs) && start <= |n.r.events|
    ensures Refinement.Drained(n) ==> AllAnsweredSince(n, start, all)
  {
    hide Kept, InLedgerOrder, Count, Refinement.Drained, EventTrace, Traffic.Complete;
    KeptEvents(n, start, all, g, Open(start, all));
  }

  // ---- the result ----

  /**
   From any ready network, in every admissible run without bills and restores, whatever
   queries and snapshots go on beside them: the charges and limit changes get the answers they
   get when executed one at a time in the order of their verdicts, and at most one verdict each.
   When all is answered each has had its verdict, and the ledger is the one which that
   execution leaves, up to accounts that exist only because they were queried.
   */
  lemma Linearizable(n0: Net, ls: seq<Label>)
    requires Refinement.Ready(n0) && Schedule(n0, ls) && AdmissibleRun(n0, |n0.r.events|, map[], ls)
    requires forall l :: l in ls ==> Plain(l)
    ensures |n0.r.events| <= |Run(n0, ls).r.events|
    ensures var n, ops, order := Run(n0, ls), AllOps(map[], ls), Order(n0, ls);
      && Known(order, ops) && (forall id :: Count(order, VerdictOn(id)) <= 1)
      && Obeys(Refinement.Abs(n0), order, ops)
      && (forall e :: e in n.r.events[|n0.r.events|..] ==> AnswersInOrder(e, ops, order))
      && (Refinement.Drained(n) ==> AllAnsweredSince(n, |n0.r.events|, ops))
      && (AllAnsweredSince(n, |n0.r.events|, ops) ==>
        && OnceEach(ops, order)
        && Refinement.Ready(n) && Alike(Fold(Refinement.Abs(n0), OpsOf(order, ops)), Refinement.Abs(n))
        && ((forall id :: id in ops ==> Routers.IsUpdate(ops[id])) ==> Fold(Refinement.Abs(n0), OpsOf(order, ops)) == Refinement.Abs(n)))
  {
    hide InOrder, Run, Schedule, AllAsked, AllOps, AdmissibleRun, Order, Refinement.Ready, Refinement.Abs, Obeys, Alike, Count, AnswersInOrder, Known, Plain;
    hide Kept, AllAnsweredSince, OnceEach, Fold;
    Refinement.ReadyIsWired(n0);
    var start := |n0.r.events|;
    var n, ops, order := Run(n0, ls), AllOps(map[], ls), Order(n0, ls);
    var g := AllAsked(n0, ls, NOBODY);
    BeginsInOrder(n0);
    RunInOrder(n0, start, map[], NOBODY, Refinement.Abs(n0), [], ls);
    assert [] + order == order;
    EventsInOrder(n, start, ops, g, Refinement.Abs(n0), order);
    DrainedAnswers(n, start, ops, g, Refinement.Abs(n0), order);
    if AllAnsweredSince(n, start, ops) {
      AnsweredInOrder(n, start, ops, g, Refinement.Abs(n0), order);
    }
  }

  // ---- real time ----

  lemma {:induction false} RunSplits(n: Net, start: nat, all: Submitted, a: seq<Label>, b: seq<Label>)
    requires Wired(n) && Schedule(n, a + b) && start <= |n.r.events| && AdmissibleRun(n, start, all, a + b)
    ensures Schedule(n, a) && AdmissibleRun(n, start, all, a) && Schedule(Run(n, a), b)
    ensures Run(n, a + b) == Run(Run(n, a), b)
    ensures Order(n, a + b) == Order(n, a) + Order(Run(n, a), b)
    ensures forall id :: id in AllOps(all, a) ==> id in AllOps(all, a + b) && AllOps(all, a + b)[id] == AllOps(all, a)[id]
    decreases |a|
  {
    hide Next, MaySubmit, VerdictsAt, Wired;
    if a == [] {
      assert a + b == b;
      OpsKept(n, start, all, b);
      assert Order(n, []) + Order(n, b) == Order(n, b);
    } else {
      var l, rest := a[0], a[1..];
      assert (a + b)[0] == l && (a + b)[1..] == rest + b;
      NextWired(n, l);
      EventsGrow(n, l);
      RunSplits(Next(n, l), start, NextOps(all, l), rest, b);
      assert (VerdictsAt(n, l) + Order(Next(n, l), rest)) + Order(Run(n, a), b) == VerdictsAt(n, l) + (Order(Next(n, l), rest) + Order(Run(n, a), b));
    }
  }

  lemma {:induction false} OpsKept(n: Net, start: nat, all: Submitted, ls: seq<Label>)
    requires Wired(n) && Schedule(n, ls) && start <= |n.r.events| && AdmissibleRun(n, start, all, ls)
    ensures forall id :: id in all ==> id in AllOps(all, ls) && AllOps(all, ls)[id] == all[id]
    decreases |ls|
  {
    hide Next, Wired, IsAnswered;
    if ls != [] {
      NextWired(n, ls[0]);
      EventsGrow(n, ls[0]);
      OpsKept(Next(n, ls[0]), start, NextOps(all, ls[0]), ls[1..]);
    }
  }

  lemma OnlyPlace(vs: seq<Verdict>, x: nat, y: nat)
    requires x < |vs| && y < |vs| && x != y && vs[x].opId == vs[y].opId
    ensures Count(vs, VerdictOn(vs[x].opId)) >= 2
  {
    hide Count;
    var i, j, id := if x < y then x else y, if x < y then y else x, vs[x].opId;
    assert vs == vs[..j] + vs[j..];
    CountAppend(vs[..j], vs[j..], VerdictOn(id));
    CountIn(vs[..j], VerdictOn(id), vs[..j][i]);
    CountIn(vs[j..], VerdictOn(id), vs[j..][0]);
  }

  /** What was answered before something else was submitted comes before it in the order. */
  lemma RealTime(n0: Net, before: seq<Label>, after: seq<Label>, i: u32, j: u32)
    requires Refinement.Ready(n0) && Schedule(n0, before + after) && AdmissibleRun(n0, |n0.r.events|, map[], before + after)
    requires forall l :: l in before + after ==> Plain(l)
    ensures Schedule(n0, before) && |n0.r.events| <= |Run(n0, before).r.events|
    ensures IsAnswered(Run(n0, before), |n0.r.events|, i) && j !in AllOps(map[], before) ==>
      var order := Order(n0, before + after);
      forall x, y :: 0 <= x < |order| && 0 <= y < |order| && order[x].opId == i && order[y].opId == j ==> x < y
  {
    hide Run, Schedule, AllOps, AdmissibleRun, Order, Refinement.Ready, Refinement.Abs, Obeys, Alike, Count, Plain, OnceEach, Fold, Refinement.Drained, Stages.Matches;
    var start := |n0.r.events|;
    Refinement.ReadyIsWired(n0);
    RunSplits(n0, start, map[], before, after);
    forall l | l in before ensures Plain(l) {
      assert l in before + after;
    }
    Linearizable(n0, before);
    Linearizable(n0, before + after);
    var n, ops, first, order := Run(n0, before), AllOps(map[], before), Order(n0, before), Order(n0, before + after);
    if IsAnswered(n, start, i) && j !in ops {
      var e := Witness(n.r.events[start..], EventOf(i));
      assert AnswersInOrder(e, ops, first);
      forall z | 0 <= z < |first| ensures first[z].opId != j {
        assert first[z] in first;
      }
      forall x, y | 0 <= x < |order| && 0 <= y < |order| && order[x].opId == i && order[y].opId == j ensures x < |first| {
        var z :| 0 <= z < |first| && first[z] == Verdict(i, OutcomeOf(e.error));
        if x != z {
          OnlyPlace(order, x, z);
        }
      }
    }
  }
}
