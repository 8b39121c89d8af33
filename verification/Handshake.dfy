/**
 The card-account handshake, in every reachable state without ReplaceDatabase: a card
 is busy exactly while one message of its charge is in flight, and it completes tasks
 once each, in arrival order.
 */
module Handshake {
  import opened Wrappers
  import opened Protocol
  import opened Messages
  import opened Counting
  import opened Network
  import Cards
  import Accounts
  import Routers

  ghost function IsApply(c: u64): AccountMsg -> bool {
    (m: AccountMsg) => m.ApplyChargeFromCard? && m.cardId == c
  }

  ghost function IsReply(): CardMsg -> bool {
    (m: CardMsg) => m.AccountChargeReply?
  }

  function ApplyOf(op: Cards.ChargeOp, c: u64): AccountMsg {
    ApplyChargeFromCard(op.opId, op.amount, c, op.fromOffline)
  }

  predicate Answers(m: CardMsg, op: Cards.ChargeOp) {
    m.AccountChargeReply? ==>
      m.opId == op.opId && (m.success <==> m.error.None?) && (op.fromOffline ==> m.success)
  }

  /** Card `k` against its own mailbox `cm` and its account's mailbox `am`. */
  ghost predicate CardOk(k: CardKey, c: Cards.Card, cm: seq<CardMsg>, am: seq<AccountMsg>) {
    && (c.current.None? ==> c.queue == [])
    && (c.current.Some? ==> c.current.value.ChargeTask?)
    && Count(am, IsApply(k.card)) + Count(cm, IsReply()) == (if c.current.Some? then 1 else 0)
    && (c.current.Some? ==>
      && (forall m :: m in am && IsApply(k.card)(m) ==> m == ApplyOf(c.current.value.op, k.card))
      && (forall m :: m in cm ==> Answers(m, c.current.value.op)))
  }

  /** No ReplaceState is under way, and every charge in an account's mailbox comes from a card. */
  ghost predicate CleanMail(r: Routers.Router) {
    && (forall a, m :: a in r.accounts && m in r.accounts[a] ==>
      !m.AccountReplaceState? && (m.ApplyChargeFromCard? ==> CardKey(a, m.cardId) in r.cards))
    && (forall k, m :: k in r.cards && m in r.cards[k] ==> !m.CardReplaceState?)
  }

  ghost predicate NoReplace(n: Net) {
    forall m :: m in n.mail && m.Execute? ==> !m.operation.ReplaceDatabase?
  }

  ghost predicate Safe(n: Net) {
    && Wired(n)
    && NoReplace(n)
    && CleanMail(n.r)
    && forall k :: k in n.cards ==> CardOk(k, n.cards[k], n.r.cards[k], n.r.accounts[k.account])
  }

  // ---- one card ----

  /** What starting or finishing a task sends, and what it leaves behind. */
  ghost predicate Settled(k: CardKey, e: Cards.Effect) {
    && (e.card.current.None? ==> e.card.queue == [] && e.toAccount == [])
    && (e.card.current.Some? ==>
      e.card.current.value.ChargeTask? && e.toAccount == [ApplyOf(e.card.current.value.op, k.card)])
    && forall m :: m in e.toRouter ==> m.OperationCompleted?
  }

  lemma {:induction false} StartSettles(k: CardKey, c: Cards.Card)
    requires c.current.None? ==> c.queue == []
    ensures Settled(k, Cards.StartTask(k, c))
    decreases |c.queue|, 1
  {
    match c.current {
      case None =>
      case Some(ChargeTask(op)) =>
        FinishSettles(k, c, op.opId, false, Some(ChargeLimit(CardLimitExceeded)));
      case Some(LimitTask(opId, newLimit)) =>
        FinishSettles(k, c.(limit := newLimit), opId, true, None);
        FinishSettles(k, c, opId, false, Some(LimitUpdate(BelowCurrentUsage)));
    }
  }

  lemma {:induction false} FinishSettles(k: CardKey, c: Cards.Card, opId: u32, success: bool, error: Option<VerifyError>)
    ensures Settled(k, Cards.FinishTask(k, c, opId, success, error))
    decreases |c.queue|, 0
  {
    if |c.queue| > 0 {
      StartSettles(k, c.(current := Some(c.queue[0]), queue := c.queue[1..]));
    }
  }

  /** With nothing in flight, a settled effect restores the handshake. */
  lemma SettledCardOk(k: CardKey, e: Cards.Effect, cm: seq<CardMsg>, am: seq<AccountMsg>)
    requires Settled(k, e)
    requires Count(am, IsApply(k.card)) == 0 && Count(cm, IsReply()) == 0
    ensures CardOk(k, e.card, cm, am + e.toAccount)
  {
    CountAppend(am, e.toAccount, IsApply(k.card));
    CountZero(am, IsApply(k.card));
    CountZero(cm, IsReply());
    assert forall m :: m in am + e.toAccount <==> m in am || m in e.toAccount;
  }

  /** Messages the handshake does not look at may come and go. */
  lemma OtherTrafficCardOk(k: CardKey, c: Cards.Card, c': Cards.Card, cm: seq<CardMsg>, am: seq<AccountMsg>, out: seq<AccountMsg>)
    requires CardOk(k, c, cm, am) && cm != [] && !cm[0].AccountChargeReply?
    requires c'.current == c.current && (c'.current.None? ==> c'.queue == [])
    requires forall m :: m in out ==> !m.ApplyChargeFromCard?
    ensures CardOk(k, c', cm[1..], am + out)
  {
    CountAppend(am, out, IsApply(k.card));
    CountZero(out, IsApply(k.card));
    assert forall m :: m in am + out <==> m in am || m in out;
  }

  lemma SubmitKeepsCardOk(k: CardKey, c: Cards.Card, task: Cards.Task, cm: seq<CardMsg>, am: seq<AccountMsg>)
    requires CardOk(k, c, cm, am) && cm != [] && !cm[0].AccountChargeReply?
    ensures var e := Cards.Submit(k, c, task); CardOk(k, e.card, cm[1..], am + e.toAccount)
  {
    var e := Cards.Submit(k, c, task);
    if c.current.None? {
      StartSettles(k, c.(current := Some(task)));
      SettledCardOk(k, e, cm[1..], am);
    } else {
      OtherTrafficCardOk(k, c, e.card, cm, am, []);
    }
  }

  lemma HandleKeepsCardOk(k: CardKey, c: Cards.Card, cm: seq<CardMsg>, am: seq<AccountMsg>)
    requires CardOk(k, c, cm, am) && cm != [] && !cm[0].CardReplaceState?
    ensures var e := Cards.Handle(k, c, cm[0]); CardOk(k, e.card, cm[1..], am + e.toAccount)
  {
    var e := Cards.Handle(k, c, cm[0]);
    match cm[0] {
      case ExecuteCharge(opId, a, cardId, amount, fromOffline) =>
        if a == k.account && cardId == k.card {
          SubmitKeepsCardOk(k, c, Cards.ChargeTask(Cards.ChargeOp(opId, amount, fromOffline)), cm, am);
        } else {
          OtherTrafficCardOk(k, c, e.card, cm, am, e.toAccount);
        }
      case ExecuteLimitChange(opId, newLimit) =>
        SubmitKeepsCardOk(k, c, Cards.LimitTask(opId, newLimit), cm, am);
      case AccountChargeReply(opId, success, error) =>
        assert c.current.Some? && Answers(cm[0], c.current.value.op);
        var c' := if success then c.(consumed := c.consumed + c.current.value.op.amount) else c;
        FinishSettles(k, c', opId, success, error);
        SettledCardOk(k, e, cm[1..], am);
      case QueryCardState(_, _, _) =>
        OtherTrafficCardOk(k, c, e.card, cm, am, e.toAccount);
      case CardGetSnapshot(_) =>
        OtherTrafficCardOk(k, c, e.card, cm, am, e.toAccount);
    }
  }

  // ---- one account ----

  /** The account answers the one charge of card `k` that was in its mailbox. */
  lemma AnswerKeepsCardOk(a: u64, acct: Accounts.Account, k: CardKey, c: Cards.Card, cm: seq<CardMsg>, am: seq<AccountMsg>)
    requires CardOk(k, c, cm, am) && am != [] && IsApply(k.card)(am[0])
    ensures CardOk(k, c, cm + Accounts.Handle(a, acct, am[0]).toCard, am[1..])
  {
    var out := Accounts.Handle(a, acct, am[0]).toCard;
    CountAppend(cm, out, IsReply());
    CountZero(am[1..], IsApply(k.card));
    CountZero(cm, IsReply());
    assert forall m :: m in cm + out <==> m in cm || m in out;
  }

  /** Mail that is not about card `k` leaves its mailbox, or arrives, without effect on the handshake. */
  lemma PassKeepsCardOk(k: CardKey, c: Cards.Card, cm: seq<CardMsg>, am: seq<AccountMsg>)
    requires CardOk(k, c, cm, am) && am != [] && !IsApply(k.card)(am[0])
    ensures CardOk(k, c, cm, am[1..])
  {
  }

  lemma MoreMailKeepsCardOk(k: CardKey, c: Cards.Card, cm: seq<CardMsg>, am: seq<AccountMsg>, cm': seq<CardMsg>, am': seq<AccountMsg>)
    requires CardOk(k, c, cm, am)
    requires cm <= cm' && forall m :: m in cm'[|cm|..] ==> !m.AccountChargeReply?
    requires am <= am' && forall m :: m in am'[|am|..] ==> !IsApply(k.card)(m)
    ensures CardOk(k, c, cm', am')
  {
    var cs, as_ := cm'[|cm|..], am'[|am|..];
    assert cm' == cm + cs && am' == am + as_;
    CountAppend(cm, cs, IsReply());
    CountAppend(am, as_, IsApply(k.card));
    CountZero(cs, IsReply());
    CountZero(as_, IsApply(k.card));
    assert forall m :: m in cm' <==> m in cm || m in cs;
    assert forall m :: m in am' <==> m in am || m in as_;
  }

  // ---- the network ----

  predicate Admitted(l: Label) {
    l.Submit? ==> !l.op.ReplaceDatabase?
  }

  lemma CardStepCardOk(n: Net, k: CardKey, k': CardKey)
    requires Safe(n) && Enabled(n, AtCard(k)) && k' in n.cards
    ensures var n' := CardStep(n, k); CardOk(k', n'.cards[k'], n'.r.cards[k'], n'.r.accounts[k'.account])
  {
    hide Cards.Handle, CardOk;
    CardHeadOk(n, k);
    var cm, am := n.r.cards[k], n.r.accounts[k.account];
    var out := Cards.Handle(k, n.cards[k], cm[0]).toAccount;
    if k' == k {
      HandleKeepsCardOk(k, n.cards[k], cm, am);
    } else if k'.account == k.account {
      CardSends(k, n.cards[k], cm[0]);
      OtherCardsMail(k, k', n.cards[k'], n.r.cards[k'], am, out);
    }
  }

  lemma CardHeadOk(n: Net, k: CardKey)
    requires Safe(n) && Enabled(n, AtCard(k))
    ensures k in n.cards && k.account in n.r.accounts && !n.r.cards[k][0].CardReplaceState?
    ensures CardOk(k, n.cards[k], n.r.cards[k], n.r.accounts[k.account]) && (n.cards[k].current.None? ==> n.cards[k].queue == [])
  {
    assert n.r.cards[k][0] in n.r.cards[k];
    assert CardOk(k, n.cards[k], n.r.cards[k], n.r.accounts[k.account]);
  }

  lemma OtherCardsMail(k: CardKey, k': CardKey, c: Cards.Card, cm: seq<CardMsg>, am: seq<AccountMsg>, out: seq<AccountMsg>)
    requires CardOk(k', c, cm, am) && k'.card != k.card
    requires forall m :: m in out ==> (m.ApplyChargeFromCard? || m.CardQueryReply?) && m.cardId == k.card
    ensures CardOk(k', c, cm, am + out)
  {
    hide CardOk;
    assert (am + out)[|am|..] == out && cm[|cm|..] == [];
    MoreMailKeepsCardOk(k', c, cm, am, cm, am + out);
  }

  lemma CardKeepsMailClean(r: Routers.Router, k: CardKey, out: seq<AccountMsg>)
    requires CleanMail(r) && k in r.cards && k.account in r.accounts && r.cards[k] != []
    requires forall m :: m in out ==> (m.ApplyChargeFromCard? || m.CardQueryReply?) && m.cardId == k.card
    ensures CleanMail(r.(
      cards := r.cards[k := r.cards[k][1..]],
      accounts := r.accounts[k.account := r.accounts[k.account] + out]))
  {
    var am := r.accounts[k.account];
    assert forall m :: m in am + out <==> m in am || m in out;
  }

  lemma CardStepSafe(n: Net, k: CardKey)
    requires Safe(n) && Enabled(n, AtCard(k))
    ensures Safe(CardStep(n, k))
  {
    NextWired(n, AtCard(k));
    var e := Cards.Handle(k, n.cards[k], n.r.cards[k][0]);
    CardSends(k, n.cards[k], n.r.cards[k][0]);
    CardKeepsMailClean(n.r, k, e.toAccount);
    assert NoReplace(CardStep(n, k)) by {
      assert forall m :: m in n.mail + e.toRouter <==> m in n.mail || m in e.toRouter;
    }
    forall k' | k' in n.cards
      ensures var n' := CardStep(n, k); CardOk(k', n'.cards[k'], n'.r.cards[k'], n'.r.accounts[k'.account])
    {
      CardStepCardOk(n, k, k');
    }
  }

  /** A card writes to its account under its own id only, and never asks the router to route. */
  lemma CardSends(k: CardKey, c: Cards.Card, msg: CardMsg)
    requires c.current.None? ==> c.queue == []
    ensures var e := Cards.Handle(k, c, msg);
      && (forall m :: m in e.toAccount ==> (m.ApplyChargeFromCard? || m.CardQueryReply?) && m.cardId == k.card)
      && (forall m :: m in e.toRouter ==> !m.Execute?)
  {
    match msg {
      case ExecuteCharge(opId, _, _, amount, fromOffline) =>
        StartSettles(k, c.(current := Some(Cards.ChargeTask(Cards.ChargeOp(opId, amount, fromOffline)))));
      case ExecuteLimitChange(opId, newLimit) =>
        StartSettles(k, c.(current := Some(Cards.LimitTask(opId, newLimit))));
      case AccountChargeReply(opId, success, error) =>
        FinishSettles(k, c, opId, success, error);
        if c.current.Some? && c.current.value.ChargeTask? {
          FinishSettles(k, c.(consumed := c.consumed + c.current.value.op.amount), opId, success, error);
        }
      case _ =>
    }
  }

  lemma AccountStepCardOk(n: Net, a: u64, k: CardKey)
    requires Safe(n) && Enabled(n, AtAccount(a)) && k in n.cards
    ensures var n' := AccountStep(n, a); CardOk(k, n'.cards[k], n'.r.cards[k], n'.r.accounts[k.account])
  {
    var am, cm := n.r.accounts[a], n.r.cards[k];
    AccountStepMailboxes(n, a, k);
    assert cm + [] == cm;
    if k.account == a {
      if IsApply(k.card)(am[0]) {
        AnswerKeepsCardOk(a, n.accounts[a], k, n.cards[k], cm, am);
      } else {
        PassKeepsCardOk(k, n.cards[k], cm, am);
      }
    }
  }

  lemma AccountStepMail(n: Net, a: u64)
    requires Safe(n) && Enabled(n, AtAccount(a))
    ensures NoReplace(AccountStep(n, a)) && CleanMail(AccountStep(n, a).r)
  {
    hide Accounts.Handle, CardOk;
    AccountSends(a, n.accounts[a], n.r.accounts[a][0]);
    var n' := AccountStep(n, a);
    var e := Accounts.Handle(a, n.accounts[a], n.r.accounts[a][0]);
    assert forall m :: m in n'.mail <==> m in n.mail || m in e.toRouter;
    forall k, m | k in n'.r.cards && m in n'.r.cards[k] ensures !m.CardReplaceState? {
      assert m in n.r.cards[k] || m in e.toCard;
    }
  }

  lemma AccountStepSafe(n: Net, a: u64)
    requires Safe(n) && Enabled(n, AtAccount(a))
    ensures Safe(AccountStep(n, a))
  {
    NextWired(n, AtAccount(a));
    AccountStepMail(n, a);
    forall k | k in n.cards
      ensures var n' := AccountStep(n, a); CardOk(k, n'.cards[k], n'.r.cards[k], n'.r.accounts[k.account])
    {
      AccountStepCardOk(n, a, k);
    }
  }

  lemma RequestsKeepMailClean(r: Routers.Router, msg: RouterMsg, r': Routers.Router)
    requires CleanMail(r) && Requested(r, msg, r') && Grows(r, r')
    requires msg.Execute? ==> !msg.operation.ReplaceDatabase?
    ensures CleanMail(r')
  {
    RequestedMembers(r, msg, r');
  }

  lemma RouterStepCardOk(n: Net, k: CardKey)
    requires Safe(n) && Enabled(n, AtRouter) && k in RouterStep(n).cards
    ensures var n' := RouterStep(n);
      && k in n'.r.cards && k.account in n'.r.accounts
      && CardOk(k, n'.cards[k], n'.r.cards[k], n'.r.accounts[k.account])
  {
    var n' := RouterStep(n);
    HandleRequests(n.r, n.mail[0]);
    RouterGrows(n.r, n.mail[0]);
    NewCardOk(n, k);
    var c := if k in n.cards then n.cards[k] else Cards.NEW_CARD;
    MoreMailKeepsCardOk(k, c, CardMail(n.r, k), AccountMail(n.r, k.account), n'.r.cards[k], n'.r.accounts[k.account]);
  }

  lemma RouterStepSafe(n: Net)
    requires Safe(n) && Enabled(n, AtRouter)
    ensures Safe(RouterStep(n))
  {
    NextWired(n, AtRouter);
    HandleRequests(n.r, n.mail[0]);
    RouterGrows(n.r, n.mail[0]);
    RequestsKeepMailClean(n.r, n.mail[0], Routers.Handle(n.r, n.mail[0]));
    forall k | k in RouterStep(n).cards
      ensures var n' := RouterStep(n); CardOk(k, n'.cards[k], n'.r.cards[k], n'.r.accounts[k.account])
    {
      RouterStepCardOk(n, k);
    }
  }

  lemma NewCardOk(n: Net, k: CardKey)
    requires Safe(n)
    ensures CardOk(k, if k in n.cards then n.cards[k] else Cards.NEW_CARD, CardMail(n.r, k), AccountMail(n.r, k.account))
  {
    if k !in n.cards {
      CountZero(AccountMail(n.r, k.account), IsApply(k.card));
    }
  }

  /** The handshake is kept by every step that does not route ReplaceDatabase. */
  lemma NextSafe(n: Net, l: Label)
    requires Safe(n) && Enabled(n, l) && Admitted(l)
    ensures Safe(Next(n, l))
  {
    match l {
      case Submit(_, _) =>
      case AtRouter => RouterStepSafe(n);
      case AtAccount(a) => AccountStepSafe(n, a);
      case AtCard(k) => CardStepSafe(n, k);
    }
  }

  /** So it holds in every reachable state, whatever the interleaving. */
  lemma {:induction false} RunSafe(n: Net, ls: seq<Label>)
    requires Safe(n) && Schedule(n, ls) && forall l :: l in ls ==> Admitted(l)
    ensures Safe(Run(n, ls))
    decreases |ls|
  {
    if ls != [] {
      NextSafe(n, ls[0]);
      RunSafe(Next(n, ls[0]), ls[1..]);
    }
  }

  // ---- completions in arrival order ----

  function TaskId(t: Cards.Task): u32 {
    match t
    case ChargeTask(op) => op.opId
    case LimitTask(opId, _) => opId
  }

  function QueueIds(q: seq<Cards.Task>): seq<u32> {
    seq(|q|, i requires 0 <= i < |q| => TaskId(q[i]))
  }

  /** The tasks a card still owes a completion, in order. */
  function Owed(c: Cards.Card): seq<u32> {
    (if c.current.Some? then [TaskId(c.current.value)] else []) + QueueIds(c.queue)
  }

  function Arrival(k: CardKey, m: CardMsg): seq<u32> {
    if m.ExecuteLimitChange? || (m.ExecuteCharge? && m.accountId == k.account && m.cardId == k.card) then [m.opId] else []
  }

  function Completions(out: seq<RouterMsg>): seq<u32> {
    if out == [] then []
    else (if out[0].OperationCompleted? then [out[0].opId] else []) + Completions(out[1..])
  }

  lemma {:induction false} StartInOrder(k: CardKey, c: Cards.Card)
    requires c.current.None? ==> c.queue == []
    ensures var e := Cards.StartTask(k, c); Completions(e.toRouter) + Owed(e.card) == Owed(c)
    decreases |c.queue|, 1
  {
    match c.current {
      case None =>
      case Some(ChargeTask(op)) =>
        FinishInOrder(k, c, op.opId, false, Some(ChargeLimit(CardLimitExceeded)));
      case Some(LimitTask(opId, newLimit)) =>
        FinishInOrder(k, c.(limit := newLimit), opId, true, None);
        FinishInOrder(k, c, opId, false, Some(LimitUpdate(BelowCurrentUsage)));
    }
  }

  lemma {:induction false} FinishInOrder(k: CardKey, c: Cards.Card, opId: u32, success: bool, error: Option<VerifyError>)
    ensures var e := Cards.FinishTask(k, c, opId, success, error);
      Completions(e.toRouter) + Owed(e.card) == [opId] + QueueIds(c.queue)
    decreases |c.queue|, 0
  {
    if |c.queue| > 0 {
      var c' := c.(current := Some(c.queue[0]), queue := c.queue[1..]);
      StartInOrder(k, c');
      var e := Cards.StartTask(k, c');
      var out := [OperationCompleted(opId, success, error)] + e.toRouter;
      assert out[1..] == e.toRouter;
      assert Owed(c') == QueueIds(c.queue);
      assert Completions(out) == [opId] + Completions(e.toRouter);
    }
  }

  /** One step: what was owed plus what arrives is what completes plus what is still owed. */
  lemma HandleInOrder(k: CardKey, c: Cards.Card, m: CardMsg)
    requires c.current.None? ==> c.queue == []
    requires !m.CardReplaceState?
    requires m.ExecuteCharge? ==> m.accountId == k.account && m.cardId == k.card
    ensures var e := Cards.Handle(k, c, m);
      Owed(c) + Arrival(k, m) == Completions(e.toRouter) + Owed(e.card)
  {
    hide Cards.StartTask, Cards.FinishTask, Cards.Submit, QueueIds;
    var e := Cards.Handle(k, c, m);
    match m {
      case ExecuteCharge(opId, _, _, amount, fromOffline) =>
        SubmitInOrder(k, c, Cards.ChargeTask(Cards.ChargeOp(opId, amount, fromOffline)));
      case ExecuteLimitChange(opId, newLimit) =>
        SubmitInOrder(k, c, Cards.LimitTask(opId, newLimit));
      case AccountChargeReply(opId, success, error) =>
        if c.current.Some? && c.current.value.ChargeTask? && c.current.value.op.opId == opId {
          var c' := if success then c.(consumed := c.consumed + c.current.value.op.amount) else c;
          FinishInOrder(k, c', opId, success, error);
        }
      case QueryCardState(_, _, _) =>
      case CardGetSnapshot(_) =>
    }
  }

  lemma SubmitInOrder(k: CardKey, c: Cards.Card, task: Cards.Task)
    requires c.current.None? ==> c.queue == []
    ensures var e := Cards.Submit(k, c, task);
      Owed(c) + [TaskId(task)] == Completions(e.toRouter) + Owed(e.card)
  {
    if c.current.None? {
      StartInOrder(k, c.(current := Some(task)));
    }
  }

  ghost function CardAt(n: Net, k: CardKey): Cards.Card {
    if k in n.cards then n.cards[k] else Cards.NEW_CARD
  }

  /** The task card `k` takes from its mailbox in one step, and the completions it sends. */
  ghost function ArrivedAt(n: Net, l: Label, k: CardKey): seq<u32>
    requires Enabled(n, l)
  {
    if l == AtCard(k) then Arrival(k, n.r.cards[k][0]) else []
  }

  ghost function ReportedAt(n: Net, l: Label, k: CardKey): seq<u32>
    requires Wired(n) && Enabled(n, l)
  {
    if l == AtCard(k) then Completions(Cards.Handle(k, n.cards[k], n.r.cards[k][0]).toRouter) else []
  }

  ghost function Arrived(n: Net, ls: seq<Label>, k: CardKey): seq<u32>
    requires Wired(n) && Schedule(n, ls)
    decreases |ls|
  {
    if ls == [] then []
    else
      NextWired(n, ls[0]);
      ArrivedAt(n, ls[0], k) + Arrived(Next(n, ls[0]), ls[1..], k)
  }

  ghost function Reported(n: Net, ls: seq<Label>, k: CardKey): seq<u32>
    requires Wired(n) && Schedule(n, ls)
    decreases |ls|
  {
    if ls == [] then []
    else
      NextWired(n, ls[0]);
      ReportedAt(n, ls[0], k) + Reported(Next(n, ls[0]), ls[1..], k)
  }

  /** Charges sit in the mailbox of the card they name. */
  ghost predicate Delivered(n: Net) {
    Every(n, (_, _) => true, (k: CardKey, m: CardMsg) => m.ExecuteCharge? ==> k == CardKey(m.accountId, m.cardId), _ => true)
  }

  lemma NextDelivered(n: Net, l: Label)
    requires Wired(n) && Delivered(n) && Enabled(n, l)
    ensures Delivered(Next(n, l))
  {
    var pc := (k: CardKey, m: CardMsg) => m.ExecuteCharge? ==> k == CardKey(m.accountId, m.cardId);
    match l {
      case Submit(_, _) =>
      case AtRouter => RouterStepEvery(n, (_, _) => true, pc, _ => true);
      case AtAccount(a) => AccountStepEvery(n, a, (_, _) => true, pc, _ => true);
      case AtCard(k) => CardStepEvery(n, k, (_, _) => true, pc, _ => true);
    }
  }

  lemma CardUntouched(n: Net, l: Label, k: CardKey)
    requires Wired(n) && Enabled(n, l) && l != AtCard(k)
    ensures CardAt(Next(n, l), k) == CardAt(n, k)
  {
    if l.AtRouter? {
      RouterGrows(n.r, n.mail[0]);
    }
  }

  lemma StepInOrder(n: Net, l: Label, k: CardKey)
    requires Safe(n) && Delivered(n) && Enabled(n, l)
    ensures Owed(CardAt(n, k)) + ArrivedAt(n, l, k) == ReportedAt(n, l, k) + Owed(CardAt(Next(n, l), k))
  {
    if l == AtCard(k) {
      var m := n.r.cards[k][0];
      assert CardOk(k, n.cards[k], n.r.cards[k], n.r.accounts[k.account]);
      assert m in n.r.cards[k];
      HandleInOrder(k, n.cards[k], m);
    } else {
      CardUntouched(n, l, k);
    }
  }

  /** Along every run a card completes the tasks it was given once each and in arrival order. */
  lemma {:induction false} RunInOrder(n: Net, ls: seq<Label>, k: CardKey)
    requires Safe(n) && Delivered(n) && Schedule(n, ls) && forall l :: l in ls ==> Admitted(l)
    ensures Owed(CardAt(n, k)) + Arrived(n, ls, k) == Reported(n, ls, k) + Owed(CardAt(Run(n, ls), k))
    decreases |ls|
  {
    if ls != [] {
      var n' := Next(n, ls[0]);
      NextSafe(n, ls[0]);
      NextDelivered(n, ls[0]);
      StepInOrder(n, ls[0], k);
      RunInOrder(n', ls[1..], k);
      Rebracket(Owed(CardAt(n, k)), ArrivedAt(n, ls[0], k), Arrived(n', ls[1..], k),
                ReportedAt(n, ls[0], k), Owed(CardAt(n', k)), Reported(n', ls[1..], k), Owed(CardAt(Run(n, ls), k)));
    }
  }

  lemma Rebracket<T>(before: seq<T>, in0: seq<T>, in1: seq<T>, out0: seq<T>, mid: seq<T>, out1: seq<T>, after: seq<T>)
    requires before + in0 == out0 + mid && mid + in1 == out1 + after
    ensures before + (in0 + in1) == (out0 + out1) + after
  {
    calc {
      before + (in0 + in1);
      (before + in0) + in1;
      out0 + (mid + in1);
      (out0 + out1) + after;
    }
  }

  /**
   From an empty database, after any interleaving: a card is busy exactly while one message of
   its charge is under way, the request as it was sent or the reply to it; an idle card has
   nothing queued, and what it has reported is what arrived, in order and once each, up to the
   tasks it still works on.
   */
  lemma HandshakeHolds(ls: seq<Label>, k: CardKey)
    requires Schedule(EMPTY_NET, ls) && forall l :: l in ls ==> Admitted(l)
    ensures Wired(EMPTY_NET)
    ensures var n, arrived, reported := Run(EMPTY_NET, ls), Arrived(EMPTY_NET, ls, k), Reported(EMPTY_NET, ls, k);
      && reported <= arrived
      && (k !in n.cards ==> reported == arrived)
      && (k in n.cards ==>
        && k.account in n.r.accounts && k in n.r.cards
        && (n.cards[k].current.None? ==> n.cards[k].queue == [] && reported == arrived)
        && (n.cards[k].current.None? <==> Count(n.r.accounts[k.account], IsApply(k.card)) + Count(n.r.cards[k], IsReply()) == 0)
        && Count(n.r.accounts[k.account], IsApply(k.card)) + Count(n.r.cards[k], IsReply()) <= 1
        && (n.cards[k].current.Some? ==>
          && n.cards[k].current.value.ChargeTask?
          && (forall m :: m in n.r.accounts[k.account] && m.ApplyChargeFromCard? && m.cardId == k.card ==>
            m == ApplyOf(n.cards[k].current.value.op, k.card))
          && (forall m :: m in n.r.cards[k] && m.AccountChargeReply? ==> m.opId == n.cards[k].current.value.op.opId)))
  {
    hide Arrived, Reported, Run, Schedule, IsApply, IsReply, CardOk, CleanMail, NoReplace;
    var n := Run(EMPTY_NET, ls);
    RunSafe(EMPTY_NET, ls);
    RunInOrder(EMPTY_NET, ls, k);
    assert Owed(CardAt(EMPTY_NET, k)) == [];
    assert [] + Arrived(EMPTY_NET, ls, k) == Arrived(EMPTY_NET, ls, k);
    assert Arrived(EMPTY_NET, ls, k) == Reported(EMPTY_NET, ls, k) + Owed(CardAt(n, k));
    if k in n.cards {
      InFlight(n, k);
    }
  }

  lemma InFlight(n: Net, k: CardKey)
    requires Safe(n) && k in n.cards
    ensures k.account in n.r.accounts && k in n.r.cards
    ensures var c, am, cm := n.cards[k], n.r.accounts[k.account], n.r.cards[k];
      && (c.current.None? ==> c.queue == [])
      && Count(am, IsApply(k.card)) + Count(cm, IsReply()) == (if c.current.Some? then 1 else 0)
      && (c.current.Some? ==>
        && c.current.value.ChargeTask?
        && (forall m :: m in am && m.ApplyChargeFromCard? && m.cardId == k.card ==> m == ApplyOf(c.current.value.op, k.card))
        && (forall m :: m in cm && m.AccountChargeReply? ==> m.opId == c.current.value.op.opId))
  {
    var c, am, cm := n.cards[k], n.r.accounts[k.account], n.r.cards[k];
    assert CardOk(k, c, cm, am);
    if c.current.Some? {
      forall m | m in am && m.ApplyChargeFromCard? && m.cardId == k.card ensures m == ApplyOf(c.current.value.op, k.card) {
        assert IsApply(k.card)(m);
      }
    }
  }
}
