/**
 The ledger that a network stands for while charges and limit changes overlap, whatever queries
 and snapshots go on beside them: every step is the verdicts given in it.
 */
module Standings {
  import opened Wrappers
  import opened Protocol
  import opened Messages
  import opened Network
  import opened Ledgers
  import opened Traces
  import opened Conservation
  import opened Verdicts
  import Handshake
  import Limits
  import Cards
  import Accounts
  import Routers

  ghost function AccountRows(n: Net): map<u64, Row> {
    map a | a in n.accounts :: Row(n.accounts[a].limit, n.accounts[a].consumed)
  }

  /** What is consumed on a card includes the accepted charge whose reply has not reached it. */
  ghost function CardRows(n: Net): map<CardKey, Row>
    requires Wired(n)
  {
    map k | k in n.cards :: Row(n.cards[k].limit, Share(n.cards[k], n.r.cards[k]))
  }

  ghost function Standing(n: Net): Ledger
    requires Wired(n)
  {
    Ledger(AccountRows(n), CardRows(n))
  }

  /** The verdicts given in one step. */
  ghost function VerdictsAt(n: Net, l: Label): seq<Verdict>
    requires Wired(n) && Enabled(n, l)
  {
    match l
    case AtCard(k) => CardVerdicts(k, n.cards[k], n.r.cards[k][0])
    case AtAccount(a) => AccountVerdicts(a, n.accounts[a], n.r.accounts[a][0])
    case _ => []
  }

  ghost function RouterExact(ops: Submitted): RouterMsg -> bool {
    (m: RouterMsg) => m.Execute? ==> m.opId in ops && ops[m.opId] == m.operation
  }

  /** Every message and task that waits for a verdict carries its operation unchanged. */
  ghost predicate Exact(n: Net, ops: Submitted) {
    && Every(n, AccountExact(ops), CardMsgExact(ops), RouterExact(ops))
    && forall k :: k in n.cards ==> CardExact(ops, k, n.cards[k]) && Limits.Headroom(n.cards[k])
  }

  /** `full` is `db` with some more rows, which nothing was done to. */
  ghost predicate Alike(db: Ledger, full: Ledger) {
    && Rooted(db) && Rooted(full)
    && db.accounts.Keys <= full.accounts.Keys && db.cards.Keys <= full.cards.Keys
    && (forall a :: a in full.accounts ==> full.accounts[a] == if a in db.accounts then db.accounts[a] else NEW_ROW)
    && (forall k :: k in full.cards ==> full.cards[k] == if k in db.cards then db.cards[k] else NEW_ROW)
  }

  lemma CreateAccountAlike(db: Ledger, full: Ledger, a: u64)
    requires Alike(db, full)
    ensures Alike(WithAccount(db, a), WithAccount(full, a))
  {
  }

  lemma AddCardAlike(db: Ledger, full: Ledger, k: CardKey)
    requires Alike(db, full) && k.account in db.accounts && k !in db.cards
    ensures Alike(db.(cards := db.cards[k := NEW_ROW]), if k in full.cards then full else full.(cards := full.cards[k := NEW_ROW]))
  {
  }

  lemma CreateAlike(db: Ledger, full: Ledger, k: CardKey)
    requires Alike(db, full)
    ensures Alike(WithAccount(db, k.account), WithAccount(full, k.account))
    ensures Alike(WithCard(db, k), WithCard(full, k))
  {
    CreateAccountAlike(db, full, k.account);
    AlikeRooted(db, full);
    hide Alike, Rooted;
    if k !in db.cards {
      AddCardAlike(WithAccount(db, k.account), WithAccount(full, k.account), k);
    }
  }

  lemma PayAlike(db: Ledger, full: Ledger, k: CardKey, amount: real, fromOffline: bool)
    requires Alike(db, full) && k in db.cards
    ensures var p, q := Pay(db, k, amount, fromOffline), Pay(full, k, amount, fromOffline); Alike(p.0, q.0) && p.1 == q.1
  {
  }

  lemma SetLimitAlike(db: Ledger, full: Ledger, k: CardKey, newLimit: Option<real>)
    requires Alike(db, full)
    ensures k.account in db.accounts ==>
      var p, q := SetAccountLimit(db, k.account, newLimit), SetAccountLimit(full, k.account, newLimit); Alike(p.0, q.0) && p.1 == q.1
    ensures k in db.cards ==>
      var p, q := SetCardLimit(db, k, newLimit), SetCardLimit(full, k, newLimit); Alike(p.0, q.0) && p.1 == q.1
  {
  }

  lemma ApplyAlike(db: Ledger, full: Ledger, op: Op)
    requires Alike(db, full) && Routers.IsUpdate(op)
    ensures Apply(db, op).1 == Apply(full, op).1 && Alike(Apply(db, op).0, Apply(full, op).0)
  {
    hide Alike, Pay, SetAccountLimit, SetCardLimit;
    AlikeRooted(db, full);
    var k := CardKey(op.accountId, if op.LimitAccount? then 0 else op.cardId);
    CreateAlike(db, full, k);
    match op {
      case Charge(_, _, amount, fromOffline) =>
        AlikeRooted(WithCard(db, k), WithCard(full, k));
        PayAlike(WithCard(db, k), WithCard(full, k), k, amount, fromOffline);
      case LimitAccount(a, newLimit) =>
        AlikeRooted(WithAccount(db, a), WithAccount(full, a));
        SetLimitAlike(WithAccount(db, a), WithAccount(full, a), k, newLimit);
      case LimitCard(_, _, newLimit) =>
        AlikeRooted(WithCard(db, k), WithCard(full, k));
        SetLimitAlike(WithCard(db, k), WithCard(full, k), k, newLimit);
    }
  }

  lemma AlikeRooted(db: Ledger, full: Ledger)
    requires Alike(db, full)
    ensures Rooted(db) && Rooted(full)
    ensures forall k :: k in db.cards ==> k in full.cards && k.account in db.accounts && k.account in full.accounts
    ensures forall a :: a in db.accounts ==> a in full.accounts
  {
  }

  lemma {:induction false} ObeysAlike(db: Ledger, full: Ledger, vs: seq<Verdict>, ops: Submitted)
    requires Alike(db, full) && Known(vs, ops)
    ensures Rooted(db) && Rooted(full)
    ensures Obeys(db, vs, ops) <==> Obeys(full, vs, ops)
    ensures Alike(After(db, vs, ops), After(full, vs, ops))
    decreases |vs|
  {
    hide Apply, Alike;
    AlikeRooted(db, full);
    if vs != [] {
      var op := ops[vs[0].opId];
      ApplyAlike(db, full, op);
      AlikeRooted(Apply(db, op).0, Apply(full, op).0);
      ObeysAlike(Apply(db, op).0, Apply(full, op).0, vs[1..], ops);
    }
  }

  lemma AlikeThen(a: Ledger, b: Ledger, c: Ledger)
    requires Alike(a, b) && Alike(b, c)
    ensures Alike(a, c)
  {
  }

  lemma AlikeSelf(db: Ledger)
    requires Rooted(db)
    ensures Alike(db, db)
  {
  }

  // ---- steps ----

  /** The step is its verdicts, but for actors it creates. */
  ghost predicate Stands(n: Net, ops: Submitted, vs: seq<Verdict>, n': Net) {
    && Wired(n) && Wired(n') && Rooted(Standing(n)) && Known(vs, ops)
    && Obeys(Standing(n), vs, ops) && Alike(After(Standing(n), vs, ops), Standing(n'))
  }

  lemma StandingRooted(n: Net)
    requires Wired(n)
    ensures Rooted(Standing(n))
  {
    hide Share;
  }

  lemma StandingAt(n: Net, k: CardKey)
    requires Wired(n) && k in n.cards
    ensures k.account in n.accounts && RowIs(Standing(n), k, n.cards[k].limit, Share(n.cards[k], n.r.cards[k]))
    ensures AccountIs(Standing(n), k.account, n.accounts[k.account])
  {
    hide Share;
  }

  lemma CardStepStanding(n: Net, k: CardKey)
    requires Wired(n) && Enabled(n, AtCard(k)) && Wired(CardStep(n, k))
    ensures var c' := Cards.Handle(k, n.cards[k], n.r.cards[k][0]).card;
      Standing(CardStep(n, k)) == WithRow(Standing(n), k, c'.limit, Share(c', n.r.cards[k][1..]))
  {
    hide Cards.Handle, Share;
  }

  lemma CardStepStands(n: Net, ops: Submitted, k: CardKey)
    requires Handshake.Safe(n) && BillFree(n) && Exact(n, ops) && Enabled(n, AtCard(k))
    ensures Wired(n) && Stands(n, ops, VerdictsAt(n, AtCard(k)), CardStep(n, k))
    ensures CardExact(ops, k, CardStep(n, k).cards[k]) && Limits.Headroom(CardStep(n, k).cards[k])
  {
    NextWired(n, AtCard(k));
    StandingRooted(n);
    StandingAt(n, k);
    assert n.r.cards[k][0] in n.r.cards[k];
    HandleDecides(ops, k, n.cards[k], n.r.cards[k], n.r.accounts[k.account], Standing(n));
    hide Cards.Handle, Share, Obeys, After, Standing, CardVerdicts, Handshake.Safe, Exact, BillFree;
    CardStepStanding(n, k);
    StandingRooted(CardStep(n, k));
    AlikeSelf(Standing(CardStep(n, k)));
  }

  lemma SafeCard(n: Net, k: CardKey)
    requires Handshake.Safe(n) && Enabled(n, AtCard(k))
    ensures Wired(n) && k in n.cards && k.account in n.r.accounts
    ensures Handshake.CardOk(k, n.cards[k], n.r.cards[k], n.r.accounts[k.account]) && !n.r.cards[k][0].CardReplaceState?
  {
    assert n.r.cards[k][0] in n.r.cards[k];
    hide Handshake.CardOk;
  }

  lemma CardStepExact(n: Net, ops: Submitted, k: CardKey)
    requires Handshake.Safe(n) && BillFree(n) && Exact(n, ops) && Enabled(n, AtCard(k))
    ensures Exact(CardStep(n, k), ops)
  {
    hide Cards.Handle, Handshake.Safe, Handshake.CardOk, CardExact, Limits.Headroom, BillFree, Stands, AccountExact, CardMsgExact;
    CardStepStands(n, ops, k);
    SafeCard(n, k);
    CardHandleSends(ops, k, n.cards[k], n.r.cards[k], n.r.accounts[k.account]);
    CardStepEvery(n, k, AccountExact(ops), CardMsgExact(ops), RouterExact(ops));
  }

  /** A card sends its account only the charge it has just begun. */
  lemma CardHandleSends(ops: Submitted, k: CardKey, c: Cards.Card, cm: seq<CardMsg>, am: seq<AccountMsg>)
    requires Handshake.CardOk(k, c, cm, am) && cm != [] && !cm[0].CardReplaceState?
    requires CardExact(ops, k, Cards.Handle(k, c, cm[0]).card)
    ensures var e := Cards.Handle(k, c, cm[0]);
      && (forall m :: m in e.toAccount ==> AccountExact(ops)(k.account, m))
      && (forall m :: m in e.toRouter ==> !m.Execute?)
  {
    Handshake.CardSends(k, c, cm[0]);
    var m := cm[0];
    match m {
      case ExecuteCharge(opId, _, _, amount, fromOffline) =>
        Handshake.StartSettles(k, c.(current := Some(Cards.ChargeTask(Cards.ChargeOp(opId, amount, fromOffline)))));
      case ExecuteLimitChange(opId, newLimit) =>
        Handshake.StartSettles(k, c.(current := Some(Cards.LimitTask(opId, newLimit))));
      case AccountChargeReply(opId, success, error) =>
        assert c.current.Some? && Handshake.Answers(m, c.current.value.op);
        Handshake.FinishSettles(k, if success then c.(consumed := c.consumed + c.current.value.op.amount) else c, opId, success, error);
      case _ =>
    }
  }

  // ---- accounts ----

  /** Of the cards, only the one that is answered may count for more. */
  lemma AccountStepStanding(n: Net, a: u64)
    requires Wired(n) && Enabled(n, AtAccount(a)) && Wired(AccountStep(n, a))
    requires n.r.accounts[a][0].ApplyChargeFromCard? ==> CardKey(a, n.r.accounts[a][0].cardId) in n.cards
    ensures var m := n.r.accounts[a][0];
      var e := Accounts.Handle(a, n.accounts[a], m);
      var db := WithAccountRow(Standing(n), a, e.account);
      Standing(AccountStep(n, a)) ==
        if m.ApplyChargeFromCard? then
          var k := CardKey(a, m.cardId);
          WithRow(db, k, n.cards[k].limit, Share(n.cards[k], n.r.cards[k] + e.toCard))
        else
          db
  {
    hide Share, Accounts.Handle, AccountStep, Standing;
    AccountStepParts(n, a);
    var m, n' := n.r.accounts[a][0], AccountStep(n, a);
    var acct := Accounts.Handle(a, n.accounts[a], m).account;
    if m.ApplyChargeFromCard? {
      StandingMoves(n, n', a, acct, CardKey(a, m.cardId));
    } else {
      StandingStays(n, n', a, acct);
    }
  }

  lemma StandingMoves(n: Net, n': Net, a: u64, acct: Accounts.Account, k: CardKey)
    requires Wired(n) && Wired(n') && k in n.cards && n'.cards == n.cards && n'.accounts == n.accounts[a := acct]
    requires forall j :: j in n.cards && j != k ==> n'.r.cards[j] == n.r.cards[j]
    ensures Standing(n') == WithRow(WithAccountRow(Standing(n), a, acct), k, n.cards[k].limit, Share(n.cards[k], n'.r.cards[k]))
  {
    hide Share;
    CardRowMoves(n, n', k);
    hide CardRows;
    assert AccountRows(n') == AccountRows(n)[a := Row(acct.limit, acct.consumed)];
  }

  lemma CardRowMoves(n: Net, n': Net, k: CardKey)
    requires Wired(n) && Wired(n') && k in n.cards && n'.cards == n.cards
    requires forall j :: j in n.cards && j != k ==> n'.r.cards[j] == n.r.cards[j]
    ensures CardRows(n') == CardRows(n)[k := Row(n.cards[k].limit, Share(n.cards[k], n'.r.cards[k]))]
  {
    hide Share;
  }

  lemma StandingStays(n: Net, n': Net, a: u64, acct: Accounts.Account)
    requires Wired(n) && Wired(n') && n'.cards == n.cards && n'.accounts == n.accounts[a := acct]
    requires forall j :: j in n.cards ==> n'.r.cards[j] == n.r.cards[j]
    ensures Standing(n') == WithAccountRow(Standing(n), a, acct)
  {
    hide Share;
  }

  lemma AccountStepParts(n: Net, a: u64)
    requires Wired(n) && Enabled(n, AtAccount(a)) && Wired(AccountStep(n, a))
    ensures var n' := AccountStep(n, a);
      && n'.cards == n.cards && n'.accounts == n.accounts[a := Accounts.Handle(a, n.accounts[a], n.r.accounts[a][0]).account]
      && forall k :: k in n.cards ==> k in n'.r.cards && n'.r.cards[k] == if Answered(n, a, k) then n.r.cards[k] + Accounts.Handle(a, n.accounts[a], n.r.accounts[a][0]).toCard else n.r.cards[k]
  {
    hide Accounts.Handle;
    forall k | k in n.cards
      ensures AccountStep(n, a).r.cards[k] ==
        if Answered(n, a, k) then n.r.cards[k] + Accounts.Handle(a, n.accounts[a], n.r.accounts[a][0]).toCard else n.r.cards[k]
    {
      AccountStepMailboxes(n, a, k);
      assert n.r.cards[k] + [] == n.r.cards[k];
    }
  }

  predicate Answered(n: Net, a: u64, k: CardKey)
    requires Enabled(n, AtAccount(a))
  {
    var m := n.r.accounts[a][0];
    m.ApplyChargeFromCard? && k == CardKey(a, m.cardId)
  }

  lemma AccountFacts(n: Net, ops: Submitted, a: u64)
    requires Handshake.Safe(n) && BillFree(n) && Exact(n, ops) && Enabled(n, AtAccount(a))
    ensures a in n.accounts
    ensures var m := n.r.accounts[a][0];
      && AccountExact(ops)(a, m) && !m.StartAccountBill? && !m.AccountReplaceState?
      && (n.accounts[a].pending.Some? ==> !n.accounts[a].pending.value.billing)
      && (m.ApplyChargeFromCard? ==>
        var k := CardKey(a, m.cardId);
        k in n.cards && Handshake.CardOk(k, n.cards[k], n.r.cards[k], n.r.accounts[a]) && Limits.Headroom(n.cards[k]))
  {
    assert n.r.accounts[a][0] in n.r.accounts[a];
    hide Handshake.CardOk;
  }

  lemma AccountStepStands(n: Net, ops: Submitted, a: u64)
    requires Handshake.Safe(n) && BillFree(n) && Exact(n, ops) && Enabled(n, AtAccount(a))
    ensures Wired(n) && Stands(n, ops, VerdictsAt(n, AtAccount(a)), AccountStep(n, a))
  {
    NextWired(n, AtAccount(a));
    StandingRooted(n);
    AccountFacts(n, ops, a);
    AccountStepStanding(n, a);
    StandingRooted(AccountStep(n, a));
    AlikeSelf(Standing(AccountStep(n, a)));
    AccountStandingAt(n, a);
    hide Handshake.Safe, Handshake.CardOk, BillFree, Exact, Standing, Alike, Obeys, After, Share, Accounts.Handle, AccountVerdicts, WithAccountRow, WithRow;
    var m := n.r.accounts[a][0];
    if m.ApplyChargeFromCard? {
      var k := CardKey(a, m.cardId);
      StandingAt(n, k);
      ChargeDecided(ops, a, n.accounts[a], k, n.cards[k], n.r.cards[k], n.r.accounts[a], Standing(n));
    } else if m.ApplyAccountLimit? {
      LimitDecided(ops, a, n.accounts[a], m, Standing(n));
    } else {
      AccountQuiet(a, n.accounts[a], m);
      ObeysNothing(Standing(n), ops);
      SameAccountRow(Standing(n), a, n.accounts[a], Accounts.Handle(a, n.accounts[a], m).account);
    }
  }

  lemma AccountStandingAt(n: Net, a: u64)
    requires Wired(n) && a in n.accounts
    ensures AccountIs(Standing(n), a, n.accounts[a])
  {
    hide Share;
  }

  lemma SameAccountRow(db: Ledger, a: u64, acct: Accounts.Account, acct': Accounts.Account)
    requires AccountIs(db, a, acct) && acct'.limit == acct.limit && acct'.consumed == acct.consumed
    ensures WithAccountRow(db, a, acct') == db
  {
    assert db.accounts[a := db.accounts[a]] == db.accounts;
  }

  lemma AccountStepExact(n: Net, ops: Submitted, a: u64)
    requires Wired(n) && Exact(n, ops) && Enabled(n, AtAccount(a))
    ensures Exact(AccountStep(n, a), ops)
  {
    AccountSends(a, n.accounts[a], n.r.accounts[a][0]);
    hide Accounts.Handle, CardExact, Limits.Headroom;
    AccountStepEvery(n, a, AccountExact(ops), CardMsgExact(ops), RouterExact(ops));
  }

  // ---- the router ----

  lemma RouterStepStands(n: Net, ops: Submitted)
    requires Handshake.Safe(n) && Enabled(n, AtRouter)
    ensures Wired(n) && Stands(n, ops, VerdictsAt(n, AtRouter), RouterStep(n))
  {
    NextWired(n, AtRouter);
    StandingRooted(n);
    StandingRooted(RouterStep(n));
    ObeysNothing(Standing(n), ops);
    hide Handshake.Safe, Standing, Obeys, After, Alike, RouterStep;
    RouterStepAlike(n);
  }

  lemma RouterStepAlike(n: Net)
    requires Wired(n) && Enabled(n, AtRouter) && Wired(RouterStep(n)) && Rooted(Standing(n)) && Rooted(Standing(RouterStep(n)))
    ensures Alike(Standing(n), Standing(RouterStep(n)))
  {
    hide Routers.Handle, Share, Requested, RouterStep;
    NewRows(n);
    forall k | k in RouterStep(n).cards
      ensures Share(RouterStep(n).cards[k], RouterStep(n).r.cards[k]) == if k in n.cards then Share(n.cards[k], n.r.cards[k]) else 0.0
    {
      NewShare(n, k);
    }
  }

  lemma NewRows(n: Net)
    requires Wired(n) && Enabled(n, AtRouter)
    ensures Requested(n.r, n.mail[0], RouterStep(n).r)
    ensures var n' := RouterStep(n);
      && n.accounts.Keys <= n'.accounts.Keys && n.cards.Keys <= n'.cards.Keys
      && (forall a :: a in n'.accounts ==> n'.accounts[a] == if a in n.accounts then n.accounts[a] else Accounts.NEW_ACCOUNT)
      && (forall k :: k in n'.cards ==> n'.cards[k] == if k in n.cards then n.cards[k] else Cards.NEW_CARD)
  {
    hide Routers.Handle, Requested;
    HandleRequests(n.r, n.mail[0]);
    RouterGrows(n.r, n.mail[0]);
  }

  lemma NewShare(n: Net, k: CardKey)
    requires Wired(n) && Enabled(n, AtRouter) && Wired(RouterStep(n)) && k in RouterStep(n).cards
    requires Requested(n.r, n.mail[0], RouterStep(n).r)
    ensures var n' := RouterStep(n);
      Share(n'.cards[k], n'.r.cards[k]) == if k in n.cards then Share(n.cards[k], n.r.cards[k]) else 0.0
  {
    hide Routers.Handle;
    var n' := RouterStep(n);
    MoreMailSameShare(n'.cards[k], CardMail(n.r, k), n'.r.cards[k]);
  }

  lemma RouterStepExact(n: Net, ops: Submitted)
    requires Wired(n) && Exact(n, ops) && Enabled(n, AtRouter)
    ensures Exact(RouterStep(n), ops)
  {
    hide Routers.Handle;
    assert RouterExact(ops)(n.mail[0]);
    RouterStepEvery(n, AccountExact(ops), CardMsgExact(ops), RouterExact(ops));
    forall k | k in RouterStep(n).cards
      ensures CardExact(ops, k, RouterStep(n).cards[k]) && Limits.Headroom(RouterStep(n).cards[k])
    {
    }
  }

  // ---- submissions ----

  lemma SubmitStands(n: Net, ops: Submitted, opId: u32, op: Op)
    requires Wired(n)
    ensures Stands(n, ops, [], Next(n, Submit(opId, op)))
  {
    var n' := Next(n, Submit(opId, op));
    StandingRooted(n);
    ObeysNothing(Standing(n), ops);
    assert Standing(n') == Standing(n);
    AlikeSelf(Standing(n));
  }

  lemma SubmitExact(n: Net, ops: Submitted, opId: u32, op: Op)
    requires Wired(n) && Exact(n, ops) && opId !in ops
    ensures Exact(Next(n, Submit(opId, op)), ops[opId := op])
  {
    var n', ops' := Next(n, Submit(opId, op)), ops[opId := op];
    assert forall a, m :: AccountExact(ops)(a, m) ==> AccountExact(ops')(a, m);
    assert forall k, m :: CardMsgExact(ops)(k, m) ==> CardMsgExact(ops')(k, m);
    assert forall m :: RouterExact(ops)(m) ==> RouterExact(ops')(m);
    forall k | k in n'.cards ensures CardExact(ops', k, n'.cards[k]) && Limits.Headroom(n'.cards[k]) {
      assert CardExact(ops, k, n.cards[k]);
    }
    hide AccountExact, CardMsgExact;
  }
}
