/** Every report that is under way or emitted passes on a verdict, and every verdict is reported once. */
module Reports {
  import opened Wrappers
  import opened Protocol
  import opened Messages
  import opened Counting
  import opened Network
  import opened Traces
  import opened Tokens
  import opened Verdicts
  import opened Standings
  import Handshake
  import Cards
  import Accounts
  import Routers

  // ---- what is reported was decided ----

  ghost function ReplyBacked(vs: seq<Verdict>): (CardKey, CardMsg) -> bool {
    (_, m: CardMsg) => m.AccountChargeReply? ==> Verdict(m.opId, OutcomeOf(m.error)) in vs
  }

  ghost function ReportBacked(vs: seq<Verdict>): RouterMsg -> bool {
    (m: RouterMsg) => m.OperationCompleted? ==> Verdict(m.opId, OutcomeOf(m.error)) in vs
  }

  predicate EventBacked(e: ActorEvent, vs: seq<Verdict>) {
    e.OperationResultEvent? && Routers.IsUpdate(e.operation) ==> Verdict(e.opId, OutcomeOf(e.error)) in vs
  }

  ghost predicate Backed(n: Net, vs: seq<Verdict>) {
    && Every(n, (_, _) => true, ReplyBacked(vs), ReportBacked(vs))
    && forall e :: e in n.r.events ==> EventBacked(e, vs)
  }

  lemma BackedMore(n: Net, vs: seq<Verdict>, more: seq<Verdict>)
    requires Backed(n, vs)
    ensures Backed(n, vs + more)
  {
    assert forall v :: v in vs ==> v in vs + more;
  }

  lemma {:induction false} ReportedAll(out: seq<RouterMsg>)
    ensures forall m :: m in out && m.OperationCompleted? ==> Verdict(m.opId, OutcomeOf(m.error)) in Reported(out)
  {
    if out != [] {
      ReportedAll(out[1..]);
      assert forall m :: m in out <==> m == out[0] || m in out[1..];
    }
  }

  /** A card reports its own verdicts, after the one of its account that it passes on. */
  lemma PassesOn(k: CardKey, c: Cards.Card, cm: seq<CardMsg>, am: seq<AccountMsg>)
    requires Handshake.CardOk(k, c, cm, am) && cm != []
    ensures var m := cm[0];
      Reported(Cards.Handle(k, c, m).toRouter) ==
      (if m.AccountChargeReply? then [Verdict(m.opId, OutcomeOf(m.error))] else []) + CardVerdicts(k, c, m)
    ensures cm[0].AccountChargeReply? ==> c.current.Some? && c.current.value.ChargeTask? && cm[0].opId == c.current.value.op.opId
  {
    var m := cm[0];
    if m.AccountChargeReply? {
      ShareReplied(k, c, cm, am);
      var c' := if m.success then c.(consumed := c.consumed + c.current.value.op.amount) else c;
      FinishReports(k, c', m.opId, m.success, m.error);
      hide Cards.FinishTask;
    }
  }

  lemma FinishReports(k: CardKey, c: Cards.Card, opId: u32, success: bool, error: Option<VerifyError>)
    ensures var all := Reported(Cards.FinishTask(k, c, opId, success, error).toRouter);
      all != [] && all == [Verdict(opId, OutcomeOf(error))] + all[1..]
  {
    hide Cards.StartTask;
  }

  lemma CardStepBacked(n: Net, vs: seq<Verdict>, k: CardKey)
    requires Handshake.Safe(n) && Backed(n, vs) && Enabled(n, AtCard(k))
    ensures Wired(n) && Backed(CardStep(n, k), vs + VerdictsAt(n, AtCard(k)))
  {
    hide Cards.Handle, Handshake.Safe, Handshake.CardOk, CardVerdicts;
    SafeCard(n, k);
    var m := n.r.cards[k][0];
    var out, vs' := Cards.Handle(k, n.cards[k], m).toRouter, vs + VerdictsAt(n, AtCard(k));
    PassesOn(k, n.cards[k], n.r.cards[k], n.r.accounts[k.account]);
    ReportedAll(out);
    assert ReplyBacked(vs)(k, m);
    BackedMore(n, vs, VerdictsAt(n, AtCard(k)));
    CardStepEvery(n, k, (_, _) => true, ReplyBacked(vs'), ReportBacked(vs'));
  }

  lemma AccountReports(a: u64, acct: Accounts.Account, m: AccountMsg)
    ensures var e, vs := Accounts.Handle(a, acct, m), AccountVerdicts(a, acct, m);
      && (forall k, r :: r in e.toCard ==> ReplyBacked(vs)(k, r))
      && (forall r :: r in e.toRouter ==> ReportBacked(vs)(r))
  {
    ReportedAll(Accounts.Handle(a, acct, m).toRouter);
  }

  lemma AccountStepBacked(n: Net, vs: seq<Verdict>, a: u64)
    requires Wired(n) && Backed(n, vs) && Enabled(n, AtAccount(a))
    ensures Backed(AccountStep(n, a), vs + VerdictsAt(n, AtAccount(a)))
  {
    hide Accounts.Handle, AccountVerdicts;
    var more := VerdictsAt(n, AtAccount(a));
    AccountReports(a, n.accounts[a], n.r.accounts[a][0]);
    BackedMore(n, vs, more);
    var e := Accounts.Handle(a, n.accounts[a], n.r.accounts[a][0]);
    forall k, r | r in e.toCard ensures ReplyBacked(vs + more)(k, r) {
      assert ReplyBacked(more)(k, r);
    }
    forall r | r in e.toRouter ensures ReportBacked(vs + more)(r) {
      assert ReportBacked(more)(r);
    }
    AccountStepEvery(n, a, (_, _) => true, ReplyBacked(vs + more), ReportBacked(vs + more));
  }

  /** What the router has to say about one message. */
  lemma RouterReports(n: Net, ops: Submitted, vs: seq<Verdict>)
    requires Backed(n, vs) && Traced(n, ops) && n.mail != [] && Recognised(n, ops)
    ensures forall e :: e in Routers.Handle(n.r, n.mail[0]).events ==> EventBacked(e, vs)
  {
    hide MailTraced, CardsTraced, EventsTraced, Routers.Dispatch, Routers.TryComplete;
    HeadTraced(n, ops);
    assert ReportBacked(vs)(n.mail[0]);
    match n.mail[0] {
      case Execute(opId, op) =>
        EmptyDumpTraced(ops, opId, op);
        DispatchReports(n.r, opId, op);
      case OperationCompleted(opId, success, error) =>
      case AccountQueryCompleted(opId, a, total, spent) =>
      case AccountSnapshotCollected(opId, snap) =>
        var p := n.r.snapshots[opId];
        DumpEventBacked(n.r.(snapshots := n.r.snapshots[opId := p.(accounts := p.accounts + [snap])]), opId, vs);
      case CardSnapshotCollected(opId, snap) =>
        var p := n.r.snapshots[opId];
        DumpEventBacked(n.r.(snapshots := n.r.snapshots[opId := p.(cards := p.cards + [snap])]), opId, vs);
    }
  }

  lemma DumpEventBacked(r: Routers.Router, opId: u32, vs: seq<Verdict>)
    requires opId in r.operations && r.operations[opId].GetDatabase?
    requires forall e :: e in r.events ==> EventBacked(e, vs)
    ensures forall e :: e in Routers.TryComplete(r, opId).events ==> EventBacked(e, vs)
  {
  }

  lemma RouterStepBacked(n: Net, ops: Submitted, vs: seq<Verdict>)
    requires Wired(n) && Backed(n, vs) && Traced(n, ops) && Enabled(n, AtRouter) && Recognised(n, ops)
    ensures Backed(RouterStep(n), vs)
  {
    RouterReports(n, ops, vs);
    hide Routers.Handle, Traced, Recognised, EventBacked;
    RouterStepEvery(n, (_, _) => true, ReplyBacked(vs), ReportBacked(vs));
  }

  // ---- what is decided is reported once ----

  ghost function VerdictOn(id: u32): Verdict -> bool {
    (v: Verdict) => v.opId == id
  }

  ghost function CompletionOf(id: u32): RouterMsg -> bool {
    (m: RouterMsg) => m.OperationCompleted? && m.opId == id
  }

  ghost function ReplyOn(id: u32): CardMsg -> bool {
    (m: CardMsg) => m.AccountChargeReply? && m.opId == id
  }

  /** The account's verdict is on its way to the card. */
  ghost function Passing(n: Net, id: u32, op: Op): nat {
    if op.Charge? then Count(CardMail(n.r, CardKey(op.accountId, op.cardId)), ReplyOn(id)) else 0
  }

  ghost function ReportsOf(n: Net, id: u32, op: Op): nat {
    Count(n.r.events, EventOf(id)) + Count(n.mail, CompletionOf(id)) + Passing(n, id, op)
  }

  ghost predicate Tallied(n: Net, ops: Submitted, vs: seq<Verdict>) {
    forall id :: id in ops && Routers.IsUpdate(ops[id]) ==> Count(vs, VerdictOn(id)) == ReportsOf(n, id, ops[id])
  }

  lemma {:induction false} CompletionsReported(out: seq<RouterMsg>, id: u32)
    ensures Count(out, CompletionOf(id)) == Count(Reported(out), VerdictOn(id))
  {
    if out != [] {
      CompletionsReported(out[1..], id);
      var head := if out[0].OperationCompleted? then [Verdict(out[0].opId, OutcomeOf(out[0].error))] else [];
      CountAppend(head, Reported(out[1..]), VerdictOn(id));
      if head != [] {
        CountOne(head[0], VerdictOn(id));
      }
    }
  }

  lemma CardStepTally(n: Net, ops: Submitted, k: CardKey, id: u32)
    requires Handshake.Safe(n) && Exact(n, ops) && Enabled(n, AtCard(k)) && id in ops && Routers.IsUpdate(ops[id])
    ensures Wired(n)
    ensures ReportsOf(CardStep(n, k), id, ops[id]) == ReportsOf(n, id, ops[id]) + Count(VerdictsAt(n, AtCard(k)), VerdictOn(id))
  {
    hide Cards.Handle, Handshake.Safe, Handshake.CardOk, CardVerdicts, CardStep, Count, Exact;
    SafeCard(n, k);
    var m, op, n' := n.r.cards[k][0], ops[id], CardStep(n, k);
    var e, more := Cards.Handle(k, n.cards[k], m), VerdictsAt(n, AtCard(k));
    PassesOn(k, n.cards[k], n.r.cards[k], n.r.accounts[k.account]);
    CompletionsReported(e.toRouter, id);
    CardStepOwn(n, k);
    CountAppend(n.mail, e.toRouter, CompletionOf(id));
    var k' := if op.Charge? then CardKey(op.accountId, op.cardId) else CardKey(k.account, if k.card == 0 then 1 else 0);
    CardStepOther(n, k, k', 0);
    CountAppend([m], CardMail(n'.r, k), ReplyOn(id));
    CountOne(m, ReplyOn(id));
    if m.AccountChargeReply? {
      var passed := Verdict(m.opId, OutcomeOf(m.error));
      CountAppend([passed], more, VerdictOn(id));
      CountOne(passed, VerdictOn(id));
      OwnCharge(n, ops, k);
    } else {
      assert [] + more == more;
    }
  }

  /** The reply a card reads is about a charge to this card. */
  lemma OwnCharge(n: Net, ops: Submitted, k: CardKey)
    requires Handshake.Safe(n) && Exact(n, ops) && Enabled(n, AtCard(k)) && n.r.cards[k][0].AccountChargeReply?
    ensures var id := n.r.cards[k][0].opId;
      id in ops && ops[id].Charge? && CardKey(ops[id].accountId, ops[id].cardId) == k
  {
    SafeCard(n, k);
    PassesOn(k, n.cards[k], n.r.cards[k], n.r.accounts[k.account]);
    hide Handshake.Safe, Handshake.CardOk, Cards.Handle;
    assert CardExact(ops, k, n.cards[k]);
  }

  lemma AccountVerdictCounts(a: u64, acct: Accounts.Account, m: AccountMsg, id: u32)
    ensures var e, vs := Accounts.Handle(a, acct, m), AccountVerdicts(a, acct, m);
      && Count(vs, VerdictOn(id)) == Count(e.toCard, ReplyOn(id)) + Count(e.toRouter, CompletionOf(id))
      && (e.toCard != [] ==> m.ApplyChargeFromCard? && Count(e.toCard, ReplyOn(id)) == if m.opId == id then 1 else 0)
  {
    var e := Accounts.Handle(a, acct, m);
    CompletionsReported(e.toRouter, id);
    CountNothing(ReplyOn(id));
    if e.toCard != [] {
      var r := e.toCard[0];
      var v := Verdict(r.opId, OutcomeOf(r.error));
      assert e.toCard == [r];
      CountOne(r, ReplyOn(id));
      CountAppend([v], Reported(e.toRouter), VerdictOn(id));
      CountOne(v, VerdictOn(id));
    } else {
      assert [] + Reported(e.toRouter) == Reported(e.toRouter);
    }
  }

  lemma AccountStepTally(n: Net, ops: Submitted, a: u64, id: u32)
    requires Handshake.Safe(n) && Exact(n, ops) && Enabled(n, AtAccount(a)) && id in ops && Routers.IsUpdate(ops[id])
    ensures Wired(n)
    ensures ReportsOf(AccountStep(n, a), id, ops[id]) == ReportsOf(n, id, ops[id]) + Count(VerdictsAt(n, AtAccount(a)), VerdictOn(id))
  {
    hide Accounts.Handle, Handshake.Safe, Handshake.CardOk, AccountVerdicts, AccountStep, Count, Exact;
    SafeIsWired(n);
    var m, op := n.r.accounts[a][0], ops[id];
    var e := Accounts.Handle(a, n.accounts[a], m);
    AccountVerdictCounts(a, n.accounts[a], m, id);
    AccountStepOwn(n, a);
    CountAppend(n.mail, e.toRouter, CompletionOf(id));
    var k := if op.Charge? then CardKey(op.accountId, op.cardId) else CardKey(a, 0);
    AccountStepOther(n, a, a, k);
    AnswerArrives(n, ops, a, k, id);
  }

  lemma AnswerArrives(n: Net, ops: Submitted, a: u64, k: CardKey, id: u32)
    requires Handshake.Safe(n) && Exact(n, ops) && Enabled(n, AtAccount(a)) && id in ops
    requires ops[id].Charge? ==> k == CardKey(ops[id].accountId, ops[id].cardId)
    ensures Wired(n)
    ensures var m := n.r.accounts[a][0];
      var out := Accounts.Handle(a, n.accounts[a], m).toCard;
      && (Count(out, ReplyOn(id)) > 0 ==> ops[id].Charge?)
      && (ops[id].Charge? ==> Count(CardMail(AccountStep(n, a).r, k), ReplyOn(id)) == Count(CardMail(n.r, k), ReplyOn(id)) + Count(out, ReplyOn(id)))
  {
    hide Accounts.Handle, AccountVerdicts, AccountStep, Count, Handshake.CardOk;
    SafeIsWired(n);
    var m := n.r.accounts[a][0];
    var out := Accounts.Handle(a, n.accounts[a], m).toCard;
    AccountVerdictCounts(a, n.accounts[a], m, id);
    CountNothing(ReplyOn(id));
    assert m in n.r.accounts[a] && AccountExact(ops)(a, m);
    CountAppend(CardMail(n.r, k), out, ReplyOn(id));
    AccountStepMail(n, a, k);
  }

  lemma AccountStepMail(n: Net, a: u64, k: CardKey)
    requires Handshake.Safe(n) && Enabled(n, AtAccount(a))
    ensures Wired(n)
    ensures CardMail(AccountStep(n, a).r, k) == if Answered(n, a, k) then
      CardMail(n.r, k) + Accounts.Handle(a, n.accounts[a], n.r.accounts[a][0]).toCard else CardMail(n.r, k)
  {
    hide Accounts.Handle, Handshake.CardOk;
    assert n.r.accounts[a][0] in n.r.accounts[a];
    if k in n.cards {
      AccountStepMailboxes(n, a, k);
      assert n.r.cards[k] + [] == n.r.cards[k];
    }
  }

  /** The router turns a completion into an event, and routes to cards no replies. */
  lemma RouterStepTally(n: Net, ops: Submitted, id: u32)
    requires Wired(n) && Traced(n, ops) && Enabled(n, AtRouter) && Recognised(n, ops) && id in ops && Routers.IsUpdate(ops[id])
    ensures ReportsOf(RouterStep(n), id, ops[id]) == ReportsOf(n, id, ops[id])
  {
    hide Traced, Recognised, Routers.Handle, Count;
    var m, op, n' := n.mail[0], ops[id], RouterStep(n);
    TracedHead(n, ops);
    assert n.mail == [m] + n'.mail;
    CountAppend([m], n'.mail, CompletionOf(id));
    CountOne(m, CompletionOf(id));
    if m.Execute? {
      RoutesSilently(n.r, m.opId, m.operation, id);
    } else {
      ReportsOnce(n, ops, id);
      NoDump(n, ops, id);
      hide RouterTrace;
    }
    NoReplyRouted(n, CardKey(op.accountId, if op.LimitAccount? then 0 else op.cardId), id);
  }

  lemma RoutesSilently(r: Routers.Router, opId: u32, op: Op, id: u32)
    requires !op.ReplaceDatabase? && (opId == id ==> !op.GetDatabase?)
    ensures Count(Routers.Handle(r, Execute(opId, op)).events, EventOf(id)) == Count(r.events, EventOf(id))
  {
    hide Routers.Dispatch, Count;
    DispatchReports(r, opId, op);
    var events := Routers.Dispatch(r, opId, op).events;
    if |events| > |r.events| {
      CountAppend(r.events, [events[|r.events|]], EventOf(id));
      CountOne(events[|r.events|], EventOf(id));
    }
  }

  /** Updates gather no snapshots, and only completions report them. */
  lemma NoDump(n: Net, ops: Submitted, id: u32)
    requires Traced(n, ops) && n.mail != [] && !n.mail[0].Execute? && id in ops && Routers.IsUpdate(ops[id])
    ensures id !in n.r.snapshots && (About(id)(n.mail[0]) <==> CompletionOf(id)(n.mail[0]))
  {
    TracedHead(n, ops);
  }

  lemma NoReplyRouted(n: Net, k: CardKey, id: u32)
    requires Wired(n) && Enabled(n, AtRouter)
    ensures Count(CardMail(RouterStep(n).r, k), ReplyOn(id)) == Count(CardMail(n.r, k), ReplyOn(id))
  {
    hide Count, Routers.Handle;
    HandleRequests(n.r, n.mail[0]);
    RouterGrows(n.r, n.mail[0]);
    var before, after := CardMail(n.r, k), CardMail(RouterStep(n).r, k);
    if k in RouterStep(n).r.cards {
      assert CardGained(n.mail[0], k, before, after);
      assert after == before + after[|before|..];
      CountNone(before, after[|before|..], ReplyOn(id));
    }
  }

  // ---- submissions ----

  lemma SubmitBacked(n: Net, vs: seq<Verdict>, opId: u32, op: Op)
    requires Wired(n) && Backed(n, vs)
    ensures Backed(Next(n, Submit(opId, op)), vs)
  {
  }

  lemma SubmitTallied(n: Net, ops: Submitted, vs: seq<Verdict>, opId: u32, op: Op)
    requires Wired(n) && Backed(n, vs) && Known(vs, ops) && Tallied(n, ops, vs) && opId !in ops
    requires forall e :: e in n.r.events ==> EventTrace(ops, e)
    ensures Tallied(Next(n, Submit(opId, op)), ops[opId := op], vs)
  {
    hide Count, EventBacked;
    var n', ops' := Next(n, Submit(opId, op)), ops[opId := op];
    forall id | id in ops' && Routers.IsUpdate(ops'[id]) ensures Count(vs, VerdictOn(id)) == ReportsOf(n', id, ops'[id]) {
      CountNone(n.mail, [Execute(opId, op)], CompletionOf(id));
      if id == opId {
        NothingReported(n, ops, vs, id, op);
      }
    }
  }

  lemma NothingReported(n: Net, ops: Submitted, vs: seq<Verdict>, id: u32, op: Op)
    requires Wired(n) && Backed(n, vs) && Known(vs, ops) && id !in ops
    requires forall e :: e in n.r.events ==> EventTrace(ops, e)
    ensures Count(vs, VerdictOn(id)) == 0 && ReportsOf(n, id, op) == 0
  {
    hide Count, EventBacked;
    CountZero(vs, VerdictOn(id));
    CountZero(n.r.events, EventOf(id));
    CountZero(n.mail, CompletionOf(id));
    if op.Charge? {
      var k := CardKey(op.accountId, op.cardId);
      forall m | m in CardMail(n.r, k) ensures !ReplyOn(id)(m) {
        assert ReplyBacked(vs)(k, m);
      }
      CountZero(CardMail(n.r, k), ReplyOn(id));
    }
  }

  // ---- at most once ----

  /** What is reported once is decided once: a report takes the place of its operation. */
  lemma DecidedOnce(n: Net, ops: Submitted, vs: seq<Verdict>, id: u32)
    requires Handshake.Safe(n) && Once(n, ops) && Tallied(n, ops, vs) && id in ops && Routers.IsUpdate(ops[id])
    ensures Count(vs, VerdictOn(id)) <= 1
  {
    hide Count, Handshake.CardOk, Handshake.Owed;
    SafeIsWired(n);
    var op := ops[id];
    assert Places(n, id, op) == 1;
    CompletionsAbout(n.mail, id);
    if op.Charge? {
      ReplyIsHeld(n, CardKey(op.accountId, op.cardId), id);
    }
  }

  lemma {:induction false} CompletionsAbout(mail: seq<RouterMsg>, id: u32)
    ensures Count(mail, CompletionOf(id)) <= Count(mail, About(id))
  {
    if mail != [] {
      CompletionsAbout(mail[1..], id);
    }
  }

  lemma {:induction false} RepliesOn(cm: seq<CardMsg>, id: u32)
    ensures Count(cm, ReplyOn(id)) <= Count(cm, Handshake.IsReply())
  {
    if cm != [] {
      RepliesOn(cm[1..], id);
    }
  }

  lemma ReplyIsHeld(n: Net, k: CardKey, id: u32)
    requires Handshake.Safe(n)
    ensures Count(CardMail(n.r, k), ReplyOn(id)) <= Count(Handshake.Owed(Handshake.CardAt(n, k)), IsId(id))
  {
    hide Count;
    SafeIsWired(n);
    CountZero(CardMail(n.r, k), ReplyOn(id));
    if k in n.cards && Count(CardMail(n.r, k), ReplyOn(id)) > 0 {
      var c, cm, am := n.cards[k], n.r.cards[k], n.r.accounts[k.account];
      assert Handshake.CardOk(k, c, cm, am);
      RepliesOn(cm, id);
      var m :| m in cm && ReplyOn(id)(m);
      assert c.current.Some? && Handshake.Answers(m, c.current.value.op);
      assert Handshake.Owed(c)[0] == id;
      CountIn(Handshake.Owed(c), IsId(id), id);
    }
  }
}
