/**
 One step of overlapping charges and limit changes: the verdicts given in it are what the ledger
 decides next, and each is reported once.
 */
module Linear {
  import opened Protocol
  import opened Messages
  import opened Counting
  import opened Network
  import opened Ledgers
  import opened Traces
  import opened Tokens
  import opened Questions
  import opened Traffic
  import opened Conservation
  import opened Verdicts
  import opened Standings
  import opened Reports
  import Handshake
  import Stages
  import Cards
  import Accounts
  import Routers

  // ---- which actors exist ----

  predicate Names(op: Op, a: u64) {
    (Routers.IsUpdate(op) || IsQuery(op)) && op.accountId == a
  }

  /** Every actor was there at the beginning or is named by an operation. */
  ghost predicate Touched(n: Net, base: Ledger, ops: Submitted) {
    && (forall a :: a in n.accounts ==> a in base.accounts || exists id :: id in ops && Names(ops[id], a))
    && (forall k :: k in n.cards ==> k in base.cards || exists id :: id in ops && ForCard(ops[id], k))
  }

  lemma NewActors(r: Routers.Router, msg: RouterMsg)
    requires msg.Execute? ==> !msg.operation.ReplaceDatabase?
    ensures var r' := Routers.Handle(r, msg);
      && (forall a :: a in r'.accounts ==> a in r.accounts || (msg.Execute? && Names(msg.operation, a)))
      && (forall k :: k in r'.cards ==> k in r.cards || (msg.Execute? && ForCard(msg.operation, k)))
  {
    if msg.Execute? {
      hide Routers.TryComplete, Routers.CompletedResult;
    } else {
      ReportsOnly(r, msg);
      hide Routers.Handle;
    }
  }

  lemma RouterStepTouched(n: Net, base: Ledger, ops: Submitted)
    requires Wired(n) && Touched(n, base, ops) && Enabled(n, AtRouter)
    requires n.mail[0].Execute? ==> !n.mail[0].operation.ReplaceDatabase? && n.mail[0].opId in ops && ops[n.mail[0].opId] == n.mail[0].operation
    ensures Touched(RouterStep(n), base, ops)
  {
    hide Routers.Handle, Names, ForCard;
    NewActors(n.r, n.mail[0]);
  }

  // ---- the network without ReplaceStates ----

  /** What was decided so far is what the ledger says, one operation after the other, and has been or will be reported. */
  ghost predicate InLedgerOrder(n: Net, base: Ledger, ops: Submitted, vs: seq<Verdict>) {
    && Wired(n) && BillFree(n) && Exact(n, ops) && Touched(n, base, ops)
    && Rooted(base) && Known(vs, ops)
    && Obeys(base, vs, ops) && Alike(After(base, vs, ops), Standing(n))
    && Backed(n, vs) && Tallied(n, ops, vs)
  }

  lemma StandsThen(n: Net, base: Ledger, ops: Submitted, vs: seq<Verdict>, more: seq<Verdict>, n': Net)
    requires Wired(n) && Rooted(base) && Known(vs, ops) && Obeys(base, vs, ops) && Alike(After(base, vs, ops), Standing(n))
    requires Stands(n, ops, more, n')
    ensures Known(vs + more, ops) && Obeys(base, vs + more, ops) && Alike(After(base, vs + more, ops), Standing(n'))
  {
    hide Alike, Obeys, After, Standing, Known;
    ObeysAlike(After(base, vs, ops), Standing(n), more, ops);
    ObeysThen(base, vs, more, ops);
    AlikeThen(After(base, vs + more, ops), After(Standing(n), more, ops), Standing(n'));
  }

  lemma DeliverStands(n: Net, base: Ledger, ops: Submitted, g: Asked, vs: seq<Verdict>, l: Label)
    requires Accounted(n, ops, g) && InLedgerOrder(n, base, ops, vs) && Enabled(n, l) && !l.Submit?
    ensures Wired(n) && Stands(n, ops, VerdictsAt(n, l), Next(n, l))
    ensures Exact(Next(n, l), ops) && BillFree(Next(n, l)) && Wired(Next(n, l))
  {
    hide Handshake.Safe, BillFree, Exact, Stands, Traced, Once, OnRecord, Solo, FanOutOk, Obeys, After, Alike, Backed, Tallied, Touched;
    NextWired(n, l);
    NextBillFree(n, l);
    match l {
      case AtRouter =>
        RouterStepStands(n, ops);
        RouterStepExact(n, ops);
      case AtAccount(a) =>
        AccountStepStands(n, ops, a);
        AccountStepExact(n, ops, a);
      case AtCard(k) =>
        CardStepStands(n, ops, k);
        CardStepExact(n, ops, k);
    }
  }

  lemma DeliverReports(n: Net, base: Ledger, ops: Submitted, g: Asked, vs: seq<Verdict>, l: Label)
    requires Accounted(n, ops, g) && InLedgerOrder(n, base, ops, vs) && Enabled(n, l) && !l.Submit?
    ensures Wired(n) && Backed(Next(n, l), vs + VerdictsAt(n, l)) && Tallied(Next(n, l), ops, vs + VerdictsAt(n, l))
  {
    hide Handshake.Safe, BillFree, Exact, Traced, Once, OnRecord, Solo, FanOutOk, Obeys, After, Alike, Backed, Touched, Recognised;
    hide ReportsOf, CardStep, AccountStep, RouterStep, Count, Expected, Free;
    NoSurprise(n, ops, g, l);
    var more := VerdictsAt(n, l);
    assert vs + [] == vs;
    match l {
      case AtRouter => RouterStepBacked(n, ops, vs);
      case AtAccount(a) => AccountStepBacked(n, vs, a);
      case AtCard(k) => CardStepBacked(n, vs, k);
    }
    hide VerdictsAt;
    forall id | id in ops && Routers.IsUpdate(ops[id])
      ensures Count(vs + more, VerdictOn(id)) == ReportsOf(Next(n, l), id, ops[id])
    {
      CountAppend(vs, more, VerdictOn(id));
      match l {
        case AtRouter =>
          NoVerdict(n, id);
          RouterStepTally(n, ops, id);
        case AtAccount(a) => AccountStepTally(n, ops, a, id);
        case AtCard(k) => CardStepTally(n, ops, k, id);
      }
    }
  }

  lemma NoVerdict(n: Net, id: u32)
    requires Wired(n) && Enabled(n, AtRouter)
    ensures Count(VerdictsAt(n, AtRouter), VerdictOn(id)) == 0
  {
  }

  lemma DeliverTouched(n: Net, base: Ledger, ops: Submitted, g: Asked, l: Label)
    requires Accounted(n, ops, g) && Wired(n) && Touched(n, base, ops) && Enabled(n, l) && !l.Submit?
    ensures Touched(Next(n, l), base, ops)
  {
    hide Handshake.Safe, Once, OnRecord, Solo, FanOutOk, CardsTraced, PendingTraced, EventsTraced, Routers.Handle, Accounts.Handle, Cards.Handle;
    if l.AtRouter? {
      assert RouterTrace(ops)(n.mail[0]);
      RouterStepTouched(n, base, ops);
    }
  }

  lemma DeliverLinear(n: Net, base: Ledger, ops: Submitted, g: Asked, vs: seq<Verdict>, l: Label)
    requires Accounted(n, ops, g) && InLedgerOrder(n, base, ops, vs) && Enabled(n, l) && !l.Submit?
    ensures Wired(n) && InLedgerOrder(Next(n, l), base, ops, vs + VerdictsAt(n, l))
  {
    DeliverStands(n, base, ops, g, vs, l);
    DeliverReports(n, base, ops, g, vs, l);
    DeliverTouched(n, base, ops, g, l);
    hide Accounted, Exact, BillFree, Stands, Obeys, After, Alike, Standing, Backed, Tallied, Touched, Next, VerdictsAt, Known;
    StandsThen(n, base, ops, vs, VerdictsAt(n, l), Next(n, l));
  }

  // ---- submissions ----

  lemma {:induction false} ObeysMore(db: Ledger, vs: seq<Verdict>, ops: Submitted, ops': Submitted)
    requires Rooted(db) && Known(vs, ops) && forall id :: id in ops ==> id in ops' && ops'[id] == ops[id]
    ensures Known(vs, ops')
    ensures Obeys(db, vs, ops) <==> Obeys(db, vs, ops')
    ensures After(db, vs, ops) == After(db, vs, ops')
    decreases |vs|
  {
    hide Apply;
    if vs != [] {
      ApplyRooted(db, ops[vs[0].opId]);
      ObeysMore(Apply(db, ops[vs[0].opId]).0, vs[1..], ops, ops');
    }
  }

  lemma SubmitLinear(n: Net, base: Ledger, ops: Submitted, vs: seq<Verdict>, l: Label)
    requires InLedgerOrder(n, base, ops, vs) && EventsTraced(n, ops) && l.Submit? && l.opId !in ops && !l.op.Bill?
    ensures InLedgerOrder(Next(n, l), base, NextOps(ops, l), vs)
  {
    hide Exact, BillFree, Stands, Obeys, After, Alike, Standing, Backed, Tallied, Known, EventTrace, Names, ForCard, Next;
    var n', ops' := Next(n, l), NextOps(ops, l);
    NextWired(n, l);
    SubmitExact(n, ops, l.opId, l.op);
    SubmitBillFree(n, l);
    SubmitStands(n, ops, l.opId, l.op);
    StandsThen(n, base, ops, vs, [], n');
    assert vs + [] == vs;
    ObeysMore(base, vs, ops, ops');
    SubmitBacked(n, vs, l.opId, l.op);
    SubmitTallied(n, ops, vs, l.opId, l.op);
    SubmitTouched(n, base, ops, l);
  }

  lemma SubmitBillFree(n: Net, l: Label)
    requires Wired(n) && BillFree(n) && l.Submit? && !l.op.Bill?
    ensures BillFree(Next(n, l))
  {
  }

  lemma SubmitTouched(n: Net, base: Ledger, ops: Submitted, l: Label)
    requires Wired(n) && Touched(n, base, ops) && l.Submit? && l.opId !in ops
    ensures Touched(Next(n, l), base, NextOps(ops, l))
  {
    hide Names, ForCard;
    var ops' := NextOps(ops, l);
    forall a | a in n.accounts && a !in base.accounts ensures exists id :: id in ops' && Names(ops'[id], a) {
      var id :| id in ops && Names(ops[id], a);
      assert id in ops' && Names(ops'[id], a);
    }
    forall k | k in n.cards && k !in base.cards ensures exists id :: id in ops' && ForCard(ops'[id], k) {
      var id :| id in ops && ForCard(ops[id], k);
      assert id in ops' && ForCard(ops'[id], k);
    }
  }

  lemma IdleLinear(n: Net)
    requires Stages.Idle(n) && n.r.events == []
    ensures InLedgerOrder(n, Stages.LedgerOf(n), map[], [])
  {
    StandingRooted(n);
    IdleStanding(n);
    ObeysNothing(Standing(n), map[]);
    AlikeSelf(Standing(n));
    hide Alike, Standing, Obeys, After, Backed, Exact, BillFree, Touched;
    IdleQuiet(n);
  }

  lemma IdleQuiet(n: Net)
    requires Stages.Idle(n) && n.r.events == []
    ensures Backed(n, []) && Exact(n, map[]) && BillFree(n) && Touched(n, Stages.LedgerOf(n), map[])
  {
    IdleTouched(n);
    hide Stages.LedgerOf, Touched;
  }

  lemma IdleTouched(n: Net)
    ensures Touched(n, Stages.LedgerOf(n), map[])
  {
  }

  /** Nothing is under way in an idle network: it stands for its ledger. */
  lemma IdleStanding(n: Net)
    requires Stages.Idle(n)
    ensures Standing(n) == Stages.LedgerOf(n)
  {
  }
}
