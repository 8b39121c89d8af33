/**
 When charges and limit changes overlap, the order in which they take effect is that of the
 verdicts: a card decides on its own limit and on the charges it refuses, an account on its
 own limit and on the charges that reach it.
 */
module Verdicts {
  import opened Wrappers
  import opened Protocol
  import opened Messages
  import opened Counting
  import opened Ledgers
  import opened Handshake
  import opened Traces
  import opened Conservation
  import opened Limits
  import Cards
  import Accounts
  import Routers

  datatype Verdict = Verdict(opId: u32, outcome: Outcome)

  function OutcomeOf(error: Option<VerifyError>): Outcome {
    if error.None? then Outcome.Ok else Failed(error.value)
  }

  /** The completions an actor reports, in order. */
  function Reported(out: seq<RouterMsg>): seq<Verdict> {
    if out == [] then []
    else (if out[0].OperationCompleted? then [Verdict(out[0].opId, OutcomeOf(out[0].error))] else []) + Reported(out[1..])
  }

  lemma ReportedOne(m: RouterMsg)
    ensures Reported([]) == []
    ensures Reported([m]) == if m.OperationCompleted? then [Verdict(m.opId, OutcomeOf(m.error))] else []
  {
    assert [m][1..] == [];
  }

  /** A card's own verdicts: what it reports, but for the verdict of its account that it only passes on. */
  function CardVerdicts(k: CardKey, c: Cards.Card, m: CardMsg): seq<Verdict> {
    var all := Reported(Cards.Handle(k, c, m).toRouter);
    if m.AccountChargeReply? && all != [] then all[1..] else all
  }

  /** An account's verdicts: on a charge it tells the card, on a limit change the router. */
  function AccountVerdicts(a: u64, acct: Accounts.Account, m: AccountMsg): seq<Verdict> {
    var e := Accounts.Handle(a, acct, m);
    (if e.toCard != [] && e.toCard[0].AccountChargeReply? then
       [Verdict(e.toCard[0].opId, OutcomeOf(e.toCard[0].error))]
     else
       []) + Reported(e.toRouter)
  }

  // ---- verdicts as the ledger gives them ----

  ghost predicate Known(vs: seq<Verdict>, ops: Submitted) {
    forall v :: v in vs ==> v.opId in ops && Routers.IsUpdate(ops[v.opId])
  }

  /** The operations the verdicts are about. */
  ghost function OpsOf(vs: seq<Verdict>, ops: Submitted): seq<Op>
    requires Known(vs, ops)
  {
    seq(|vs|, i requires 0 <= i < |vs| => ops[vs[i].opId])
  }

  /** Executed in this order, one at a time, the operations get these verdicts. */
  ghost predicate Obeys(db: Ledger, vs: seq<Verdict>, ops: Submitted)
    requires Rooted(db) && Known(vs, ops)
    decreases |vs|
  {
    vs != [] ==>
      && Apply(db, ops[vs[0].opId]).1 == Decided(vs[0].outcome)
      && (ApplyRooted(db, ops[vs[0].opId]); Obeys(Apply(db, ops[vs[0].opId]).0, vs[1..], ops))
  }

  ghost function After(db: Ledger, vs: seq<Verdict>, ops: Submitted): (db': Ledger)
    requires Rooted(db) && Known(vs, ops)
    ensures Rooted(db')
    decreases |vs|
  {
    if vs == [] then db
    else
      ApplyRooted(db, ops[vs[0].opId]);
      After(Apply(db, ops[vs[0].opId]).0, vs[1..], ops)
  }

  lemma {:induction false} AfterIsFold(db: Ledger, vs: seq<Verdict>, ops: Submitted)
    requires Rooted(db) && Known(vs, ops)
    ensures After(db, vs, ops) == Fold(db, OpsOf(vs, ops))
    decreases |vs|
  {
    if vs != [] {
      ApplyRooted(db, ops[vs[0].opId]);
      AfterIsFold(Apply(db, ops[vs[0].opId]).0, vs[1..], ops);
      assert OpsOf(vs, ops)[1..] == OpsOf(vs[1..], ops);
    }
  }

  lemma ObeysFirst(db: Ledger, v: Verdict, rest: seq<Verdict>, ops: Submitted)
    requires Rooted(db) && v.opId in ops && Routers.IsUpdate(ops[v.opId]) && Known(rest, ops)
    ensures Known([v] + rest, ops) && Rooted(Apply(db, ops[v.opId]).0)
    ensures After(db, [v] + rest, ops) == After(Apply(db, ops[v.opId]).0, rest, ops)
    ensures Obeys(db, [v] + rest, ops) <==>
      Apply(db, ops[v.opId]).1 == Decided(v.outcome) && Obeys(Apply(db, ops[v.opId]).0, rest, ops)
  {
    hide Apply;
    ApplyRooted(db, ops[v.opId]);
    assert ([v] + rest)[1..] == rest;
  }

  lemma {:induction false} ObeysThen(db: Ledger, vs: seq<Verdict>, more: seq<Verdict>, ops: Submitted)
    requires Rooted(db) && Known(vs, ops) && Known(more, ops)
    ensures Known(vs + more, ops)
    ensures After(db, vs + more, ops) == After(After(db, vs, ops), more, ops)
    ensures Obeys(db, vs + more, ops) <==> Obeys(db, vs, ops) && Obeys(After(db, vs, ops), more, ops)
    decreases |vs|
  {
    hide Apply;
    if vs == [] {
      assert vs + more == more;
    } else {
      var op, rest := ops[vs[0].opId], vs[1..];
      ApplyRooted(db, op);
      ObeysThen(Apply(db, op).0, rest, more, ops);
      assert vs + more == [vs[0]] + (rest + more) && vs == [vs[0]] + rest;
      ObeysFirst(db, vs[0], rest + more, ops);
      ObeysFirst(db, vs[0], rest, ops);
    }
  }

  // ---- tasks that carry their operation ----

  predicate TaskExact(ops: Submitted, k: CardKey, t: Cards.Task) {
    match t
    case ChargeTask(op) => op.opId in ops && ops[op.opId] == Charge(k.account, k.card, op.amount, op.fromOffline)
    case LimitTask(opId, newLimit) => opId in ops && ops[opId] == LimitCard(k.account, k.card, newLimit)
  }

  ghost predicate CardExact(ops: Submitted, k: CardKey, c: Cards.Card) {
    && (c.current.Some? ==> TaskExact(ops, k, c.current.value))
    && (forall t :: t in c.queue ==> TaskExact(ops, k, t))
  }

  ghost function AccountExact(ops: Submitted): (u64, AccountMsg) -> bool {
    (a: u64, m: AccountMsg) =>
      match m
      case ApplyChargeFromCard(opId, amount, c, fromOffline) => opId in ops && ops[opId] == Charge(a, c, amount, fromOffline)
      case ApplyAccountLimit(opId, newLimit) => opId in ops && ops[opId] == LimitAccount(a, newLimit)
      case _ => true
  }

  ghost function CardMsgExact(ops: Submitted): (CardKey, CardMsg) -> bool {
    (k: CardKey, m: CardMsg) =>
      match m
      case ExecuteCharge(opId, a, c, amount, fromOffline) =>
        k == CardKey(a, c) && TaskExact(ops, k, Cards.ChargeTask(Cards.ChargeOp(opId, amount, fromOffline)))
      case ExecuteLimitChange(opId, newLimit) => TaskExact(ops, k, Cards.LimitTask(opId, newLimit))
      case _ => true
  }

  // ---- one card ----

  function WithRow(db: Ledger, k: CardKey, limit: Option<real>, consumed: real): Ledger {
    db.(cards := db.cards[k := Row(limit, consumed)])
  }

  ghost predicate RowIs(db: Ledger, k: CardKey, limit: Option<real>, consumed: real) {
    Rooted(db) && k in db.cards && db.cards[k] == Row(limit, consumed)
  }

  /** The card's verdicts are the ledger's, and the ledger's new row is the card's new state. */
  ghost predicate Decides(ops: Submitted, k: CardKey, db: Ledger, vs: seq<Verdict>, c: Cards.Card) {
    && Rooted(db) && Known(vs, ops)
    && Obeys(db, vs, ops) && After(db, vs, ops) == WithRow(db, k, c.limit, c.consumed)
    && CardExact(ops, k, c) && Headroom(c)
  }

  lemma DecidesFirst(ops: Submitted, k: CardKey, db: Ledger, v: Verdict, rest: seq<Verdict>, c: Cards.Card)
    requires Rooted(db) && v.opId in ops && Routers.IsUpdate(ops[v.opId]) && Apply(db, ops[v.opId]).1 == Decided(v.outcome)
    requires Decides(ops, k, Apply(db, ops[v.opId]).0, rest, c)
    requires WithRow(Apply(db, ops[v.opId]).0, k, c.limit, c.consumed) == WithRow(db, k, c.limit, c.consumed)
    ensures Decides(ops, k, db, [v] + rest, c)
  {
    hide Apply, Obeys, After, CardExact;
    ObeysFirst(db, v, rest, ops);
  }

  lemma RefusalInLedger(db: Ledger, k: CardKey, c: Cards.Card, op: Cards.ChargeOp)
    requires RowIs(db, k, c.limit, c.consumed) && !op.fromOffline && Exceeds(c.limit, c.consumed, op.amount)
    ensures Apply(db, Charge(k.account, k.card, op.amount, op.fromOffline)) == (db, Decided(Failed(ChargeLimit(CardLimitExceeded))))
  {
  }

  lemma LimitInLedger(db: Ledger, k: CardKey, c: Cards.Card, newLimit: Option<real>)
    requires RowIs(db, k, c.limit, c.consumed)
    ensures Apply(db, LimitCard(k.account, k.card, newLimit)) ==
      if CanSetLimit(newLimit, c.consumed) then (WithRow(db, k, newLimit, c.consumed), Decided(Outcome.Ok))
      else (db, Decided(Failed(LimitUpdate(BelowCurrentUsage))))
  {
  }

  lemma NothingDecided(ops: Submitted, k: CardKey, db: Ledger, c: Cards.Card)
    requires RowIs(db, k, c.limit, c.consumed) && CardExact(ops, k, c) && Headroom(c)
    ensures Decides(ops, k, db, [], c)
  {
  }

  lemma RowTwice(db: Ledger, k: CardKey, limit: Option<real>, consumed: real, limit': Option<real>, consumed': real)
    ensures WithRow(WithRow(db, k, limit, consumed), k, limit', consumed') == WithRow(db, k, limit', consumed')
    ensures k in db.cards && Rooted(db) ==> RowIs(WithRow(db, k, limit, consumed), k, limit, consumed)
  {
  }

  lemma {:induction false} StartDecides(ops: Submitted, k: CardKey, c: Cards.Card, db: Ledger)
    requires RowIs(db, k, c.limit, c.consumed) && CardExact(ops, k, c) && (c.current.None? ==> c.queue == [])
    ensures var e := Cards.StartTask(k, c); Decides(ops, k, db, Reported(e.toRouter), e.card)
    decreases |c.queue|, 1
  {
    hide Apply, Decides;
    match c.current {
      case None =>
        NothingDecided(ops, k, db, c);
      case Some(ChargeTask(op)) =>
        if !op.fromOffline && Exceeds(c.limit, c.consumed, op.amount) {
          var error := Some(ChargeLimit(CardLimitExceeded));
          RefusalInLedger(db, k, c, op);
          FinishDecides(ops, k, c, op.opId, false, error, db);
          var e := Cards.FinishTask(k, c, op.opId, false, error);
          DecidesFirst(ops, k, db, Verdict(op.opId, OutcomeOf(error)), Reported(e.toRouter)[1..], e.card);
        } else {
          NothingDecided(ops, k, db, c);
        }
      case Some(LimitTask(opId, newLimit)) =>
        LimitInLedger(db, k, c, newLimit);
        if CanSetLimit(newLimit, c.consumed) {
          var c', db' := c.(limit := newLimit), WithRow(db, k, newLimit, c.consumed);
          var e := Cards.FinishTask(k, c', opId, true, None);
          RowTwice(db, k, newLimit, c.consumed, e.card.limit, e.card.consumed);
          FinishDecides(ops, k, c', opId, true, None, db');
          DecidesFirst(ops, k, db, Verdict(opId, Outcome.Ok), Reported(e.toRouter)[1..], e.card);
        } else {
          var error := Some(LimitUpdate(BelowCurrentUsage));
          var e := Cards.FinishTask(k, c, opId, false, error);
          FinishDecides(ops, k, c, opId, false, error, db);
          DecidesFirst(ops, k, db, Verdict(opId, OutcomeOf(error)), Reported(e.toRouter)[1..], e.card);
        }
    }
  }

  lemma {:induction false} FinishDecides(
    ops: Submitted, k: CardKey, c: Cards.Card, opId: u32, success: bool, error: Option<VerifyError>, db: Ledger)
    requires RowIs(db, k, c.limit, c.consumed) && CardExact(ops, k, c)
    ensures var e := Cards.FinishTask(k, c, opId, success, error);
      var vs := Reported(e.toRouter);
      vs != [] && vs[0] == Verdict(opId, OutcomeOf(error)) && vs == [vs[0]] + vs[1..] && Decides(ops, k, db, vs[1..], e.card)
    decreases |c.queue|, 0
  {
    hide Decides, Cards.StartTask;
    var done := OperationCompleted(opId, success, error);
    if |c.queue| > 0 {
      var c' := c.(current := Some(c.queue[0]), queue := c.queue[1..]);
      var out := Cards.StartTask(k, c').toRouter;
      StartDecides(ops, k, c', db);
      assert ([done] + out)[1..] == out;
    } else {
      NothingDecided(ops, k, db, c.(current := None));
      assert [done][1..] == [];
    }
  }

  lemma SubmitDecides(ops: Submitted, k: CardKey, c: Cards.Card, t: Cards.Task, db: Ledger)
    requires RowIs(db, k, c.limit, c.consumed) && CardExact(ops, k, c) && TaskExact(ops, k, t)
    requires (c.current.None? ==> c.queue == []) && Headroom(c)
    ensures var e := Cards.Submit(k, c, t); Decides(ops, k, db, Reported(e.toRouter), e.card)
  {
    hide Decides, Cards.StartTask;
    if c.current.None? {
      StartDecides(ops, k, c.(current := Some(t)), db);
    } else {
      NothingDecided(ops, k, db, c.(queue := c.queue + [t]));
    }
  }

  // ---- what an accepted charge still on its way counts for ----

  lemma ShareSettled(c: Cards.Card, cm: seq<CardMsg>)
    requires Count(cm, IsReply()) == 0
    ensures Share(c, cm) == c.consumed
  {
    CountZero(cm, IsReply());
  }

  /** The one reply on its way decides the share. */
  lemma ShareReplied(k: CardKey, c: Cards.Card, cm: seq<CardMsg>, am: seq<AccountMsg>)
    requires CardOk(k, c, cm, am) && cm != [] && cm[0].AccountChargeReply?
    ensures c.current.Some? && c.current.value.ChargeTask? && cm[0].opId == c.current.value.op.opId
    ensures Share(c, cm) == if cm[0].success then c.consumed + c.current.value.op.amount else c.consumed
    ensures Count(cm[1..], IsReply()) == 0 && Count(am, IsApply(k.card)) == 0
  {
    assert Answers(cm[0], c.current.value.op);
    CountZero(cm[1..], IsReply());
    assert forall x :: x in cm <==> x == cm[0] || x in cm[1..];
  }

  /** The verdicts are the ledger's, and its new row for the card has the card's new limit and share. */
  ghost predicate DecidesShare(ops: Submitted, k: CardKey, db: Ledger, vs: seq<Verdict>, c: Cards.Card, cm: seq<CardMsg>) {
    && Rooted(db) && Known(vs, ops)
    && Obeys(db, vs, ops) && After(db, vs, ops) == WithRow(db, k, c.limit, Share(c, cm))
    && CardExact(ops, k, c) && Headroom(c)
  }

  lemma DecidesSettled(ops: Submitted, k: CardKey, db: Ledger, vs: seq<Verdict>, c: Cards.Card, cm: seq<CardMsg>)
    requires Decides(ops, k, db, vs, c) && Count(cm, IsReply()) == 0
    ensures DecidesShare(ops, k, db, vs, c, cm)
  {
    hide Obeys, After, CardExact;
    ShareSettled(c, cm);
  }

  /** Mail that asks for no decision. */
  lemma NothingToDecide(ops: Submitted, k: CardKey, db: Ledger, c: Cards.Card, cm: seq<CardMsg>)
    requires RowIs(db, k, c.limit, Share(c, cm)) && CardExact(ops, k, c) && Headroom(c)
    ensures DecidesShare(ops, k, db, [], c, cm)
  {
    hide Share;
  }

  lemma SubmitDecidesShare(ops: Submitted, k: CardKey, c: Cards.Card, t: Cards.Task, cm: seq<CardMsg>, am: seq<AccountMsg>, db: Ledger)
    requires CardOk(k, c, cm, am) && cm != [] && !cm[0].AccountChargeReply?
    requires RowIs(db, k, c.limit, Share(c, cm)) && CardExact(ops, k, c) && TaskExact(ops, k, t) && Headroom(c)
    requires var e := Cards.Submit(k, c, t); Share(e.card, cm[1..]) == Share(c, cm)
    ensures var e := Cards.Submit(k, c, t); DecidesShare(ops, k, db, Reported(e.toRouter), e.card, cm[1..])
  {
    hide Decides, DecidesShare, Share, Cards.StartTask;
    var e := Cards.Submit(k, c, t);
    if c.current.None? {
      ShareSettled(c, cm);
      SubmitDecides(ops, k, c, t, db);
      DecidesSettled(ops, k, db, Reported(e.toRouter), e.card, cm[1..]);
    } else {
      NothingToDecide(ops, k, db, e.card, cm[1..]);
    }
  }

  lemma HandleDecides(ops: Submitted, k: CardKey, c: Cards.Card, cm: seq<CardMsg>, am: seq<AccountMsg>, db: Ledger)
    requires CardOk(k, c, cm, am) && cm != [] && !cm[0].CardReplaceState? && (cm[0].QueryCardState? ==> !cm[0].reset)
    requires RowIs(db, k, c.limit, Share(c, cm)) && CardExact(ops, k, c) && CardMsgExact(ops)(k, cm[0]) && Headroom(c)
    ensures DecidesShare(ops, k, db, CardVerdicts(k, c, cm[0]), Cards.Handle(k, c, cm[0]).card, cm[1..])
  {
    HandleKeepsShare(k, c, cm, am);
    hide CardOk, CardExact, RowIs, Decides, DecidesShare, Share, Headroom, Cards.StartTask, Cards.FinishTask, Cards.Submit;
    var m := cm[0];
    match m {
      case ExecuteCharge(opId, _, _, amount, fromOffline) =>
        SubmitDecidesShare(ops, k, c, Cards.ChargeTask(Cards.ChargeOp(opId, amount, fromOffline)), cm, am, db);
      case ExecuteLimitChange(opId, newLimit) =>
        SubmitDecidesShare(ops, k, c, Cards.LimitTask(opId, newLimit), cm, am, db);
      case AccountChargeReply(opId, success, error) =>
        ReplyDecides(ops, k, c, cm, am, db);
      case QueryCardState(_, _, _) =>
        ReportedOne(RouterDebug);
        NothingToDecide(ops, k, db, c, cm[1..]);
      case CardGetSnapshot(_) =>
        ReportedOne(Cards.Handle(k, c, m).toRouter[0]);
        NothingToDecide(ops, k, db, c, cm[1..]);
    }
  }

  lemma ReplyDecides(ops: Submitted, k: CardKey, c: Cards.Card, cm: seq<CardMsg>, am: seq<AccountMsg>, db: Ledger)
    requires CardOk(k, c, cm, am) && cm != [] && cm[0].AccountChargeReply?
    requires RowIs(db, k, c.limit, Share(c, cm)) && CardExact(ops, k, c)
    ensures DecidesShare(ops, k, db, CardVerdicts(k, c, cm[0]), Cards.Handle(k, c, cm[0]).card, cm[1..])
  {
    ShareReplied(k, c, cm, am);
    hide CardOk, CardExact, RowIs, Decides, DecidesShare, Share, Headroom, Cards.FinishTask;
    var m := cm[0];
    var c' := if m.success then c.(consumed := c.consumed + c.current.value.op.amount) else c;
    SameTasks(ops, k, c, c');
    FinishDecides(ops, k, c', m.opId, m.success, m.error, db);
    var e := Cards.FinishTask(k, c', m.opId, m.success, m.error);
    DecidesSettled(ops, k, db, Reported(e.toRouter)[1..], e.card, cm[1..]);
  }

  lemma SameTasks(ops: Submitted, k: CardKey, c: Cards.Card, c': Cards.Card)
    requires CardExact(ops, k, c) && c'.current == c.current && c'.queue == c.queue
    ensures CardExact(ops, k, c')
  {
  }

  // ---- one account ----

  function WithAccountRow(db: Ledger, a: u64, acct: Accounts.Account): Ledger {
    db.(accounts := db.accounts[a := Row(acct.limit, acct.consumed)])
  }

  ghost predicate AccountIs(db: Ledger, a: u64, acct: Accounts.Account) {
    Rooted(db) && a in db.accounts && db.accounts[a] == Row(acct.limit, acct.consumed)
  }

  lemma ChargeInLedger(db: Ledger, k: CardKey, c: Cards.Card, acct: Accounts.Account, op: Cards.ChargeOp)
    requires RowIs(db, k, c.limit, c.consumed) && AccountIs(db, k.account, acct)
    requires op.fromOffline || !Exceeds(c.limit, c.consumed, op.amount)
    ensures Apply(db, Charge(k.account, k.card, op.amount, op.fromOffline)) ==
      if !op.fromOffline && Exceeds(acct.limit, acct.consumed, op.amount) then
        (WithRow(WithAccountRow(db, k.account, acct), k, c.limit, c.consumed), Decided(Failed(ChargeLimit(AccountLimitExceeded))))
      else
        (WithRow(WithAccountRow(db, k.account, acct.(consumed := acct.consumed + op.amount)), k, c.limit, c.consumed + op.amount),
         Decided(Outcome.Ok))
  {
    assert db.accounts[k.account := db.accounts[k.account]] == db.accounts && db.cards[k := db.cards[k]] == db.cards;
  }

  /** An account's verdict on a charge is the ledger's: the card's own check, made earlier, still holds. */
  lemma ChargeDecided(ops: Submitted, a: u64, acct: Accounts.Account, k: CardKey, c: Cards.Card,
                      cm: seq<CardMsg>, am: seq<AccountMsg>, db: Ledger)
    requires CardOk(k, c, cm, am) && am != [] && IsApply(k.card)(am[0]) && k.account == a && Headroom(c)
    requires AccountIs(db, a, acct) && RowIs(db, k, c.limit, Share(c, cm)) && AccountExact(ops)(a, am[0])
    ensures var e, vs := Accounts.Handle(a, acct, am[0]), AccountVerdicts(a, acct, am[0]);
      && Known(vs, ops) && Obeys(db, vs, ops)
      && After(db, vs, ops) == WithRow(WithAccountRow(db, a, e.account), k, c.limit, Share(c, cm + e.toCard))
  {
    ApprovalShare(a, acct, k, c, cm, am);
    ApplyWaits(k, c, cm, am);
    ShareSettled(c, cm);
    ChargeInLedger(db, k, c, acct, c.current.value.op);
    hide CardOk, Share, Obeys, After, Apply, AccountIs, RowIs, WithRow, WithAccountRow;
    var v := AccountVerdicts(a, acct, am[0])[0];
    assert AccountVerdicts(a, acct, am[0]) == [v] + [];
    ApplyRooted(db, ops[v.opId]);
    ObeysNothing(Apply(db, ops[v.opId]).0, ops);
    ObeysFirst(db, v, [], ops);
  }

  /** A charge on its way to the account is the card's current one, and has no reply yet. */
  lemma ApplyWaits(k: CardKey, c: Cards.Card, cm: seq<CardMsg>, am: seq<AccountMsg>)
    requires CardOk(k, c, cm, am) && am != [] && IsApply(k.card)(am[0])
    ensures c.current.Some? && c.current.value.ChargeTask? && am[0] == ApplyOf(c.current.value.op, k.card)
    ensures Count(cm, IsReply()) == 0
  {
    assert am[0] in am;
  }

  lemma ObeysNothing(db: Ledger, ops: Submitted)
    requires Rooted(db)
    ensures Known([], ops) && Obeys(db, [], ops) && After(db, [], ops) == db
  {
  }

  lemma LimitDecided(ops: Submitted, a: u64, acct: Accounts.Account, m: AccountMsg, db: Ledger)
    requires AccountIs(db, a, acct) && AccountExact(ops)(a, m) && m.ApplyAccountLimit?
    ensures var e, vs := Accounts.Handle(a, acct, m), AccountVerdicts(a, acct, m);
      Known(vs, ops) && Obeys(db, vs, ops) && After(db, vs, ops) == WithAccountRow(db, a, e.account)
  {
    hide Obeys, After;
    var out := Accounts.Handle(a, acct, m).toRouter;
    var v := Verdict(m.opId, OutcomeOf(out[0].error));
    ReportedOne(out[0]);
    assert out == [out[0]] && AccountVerdicts(a, acct, m) == [v] + [];
    ObeysNothing(Apply(db, ops[v.opId]).0, ops);
    ObeysFirst(db, v, [], ops);
  }

  /** Queries and snapshots decide nothing. */
  lemma AccountQuiet(a: u64, acct: Accounts.Account, m: AccountMsg)
    requires !m.ApplyChargeFromCard? && !m.ApplyAccountLimit? && !m.StartAccountBill? && !m.AccountReplaceState?
    requires acct.pending.Some? ==> !acct.pending.value.billing
    ensures var e := Accounts.Handle(a, acct, m);
      AccountVerdicts(a, acct, m) == [] && e.toCard == [] && e.account.limit == acct.limit && e.account.consumed == acct.consumed
  {
    var out := Accounts.Handle(a, acct, m).toRouter;
    if out != [] {
      ReportedOne(out[0]);
      assert out == [out[0]];
    }
  }
}
