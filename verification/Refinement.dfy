/**
 The main result about the actors: operations submitted one at a time do what the
 sequential ledger does, under every order of delivery.
 */
module Refinement {
  import opened Protocol
  import opened Messages
  import opened Network
  import opened Ledgers
  import opened Stages
  import opened Normal
  import Cards
  import Accounts
  import Routers
  import Updates
  import LimitChanges
  import Queries
  import Snapshots
  import Restores

  /** `op` is under way, alone, and unfinished. */
  ghost predicate Phase(n0: Net, opId: u32, op: Op, n: Net)
    requires Idle(n0)
  {
    match op
    case Charge(_, _, _, _) => Updates.Charging(n0, opId, op, n)
    case LimitAccount(_, _) => LimitChanges.LimitingAccount(n0, opId, op, n)
    case LimitCard(_, _, _) => LimitChanges.LimitingCard(n0, opId, op, n)
    case AccountQuery(_) => Queries.Querying(n0, opId, op, n)
    case Bill(_, _) => Queries.Querying(n0, opId, op, n)
    case GetDatabase(_) => Snapshots.Dumping(n0, opId, op, n)
    case ReplaceDatabase(_) => n == InRouter(n0, Execute(opId, op))
  }

  lemma PhaseSteps(n0: Net, opId: u32, op: Op, n: Net, l: Label)
    requires Idle(n0) && Phase(n0, opId, op, n) && Wired(n) && Enabled(n, l) && !l.Submit? && !op.ReplaceDatabase?
    ensures Phase(n0, opId, op, Next(n, l)) || Finished(n0, opId, op, Next(n, l))
  {
    hide Next, Finished, Updates.Charging, LimitChanges.LimitingAccount, LimitChanges.LimitingCard, Queries.Querying, Snapshots.Dumping, Idle, Wired, Enabled;
    match op {
      case Charge(_, _, _, _) =>
        var l' := Updates.ChargeRuns(n0, opId, op, n);
      case LimitAccount(_, _) =>
        var l' := LimitChanges.AccountLimitRuns(n0, opId, op, n);
      case LimitCard(_, _, _) =>
        var l' := LimitChanges.CardLimitRuns(n0, opId, op, n);
      case AccountQuery(_) =>
        Queries.QuerySteps(n0, opId, op, n, l);
      case Bill(_, _) =>
        Queries.QuerySteps(n0, opId, op, n, l);
      case GetDatabase(_) =>
        Snapshots.DumpSteps(n0, opId, op, n, l);
    }
  }

  lemma PhaseLive(n0: Net, opId: u32, op: Op, n: Net) returns (l: Label)
    requires Idle(n0) && Phase(n0, opId, op, n)
    ensures Wired(n) && Enabled(n, l) && !l.Submit?
  {
    hide Next, Finished, Updates.Charging, LimitChanges.LimitingAccount, LimitChanges.LimitingCard, Queries.Querying, Snapshots.Dumping, Idle, Wired, Enabled;
    match op {
      case Charge(_, _, _, _) =>
        l := Updates.ChargeRuns(n0, opId, op, n);
      case LimitAccount(_, _) =>
        l := LimitChanges.AccountLimitRuns(n0, opId, op, n);
      case LimitCard(_, _, _) =>
        l := LimitChanges.CardLimitRuns(n0, opId, op, n);
      case AccountQuery(_) =>
        l := Queries.QueryLive(n0, opId, op, n);
      case Bill(_, _) =>
        l := Queries.QueryLive(n0, opId, op, n);
      case GetDatabase(_) =>
        l := Snapshots.DumpLive(n0, opId, op, n);
      case ReplaceDatabase(_) =>
        l := AtRouter;
        FromRouter(n0, Execute(opId, op));
    }
  }

  // ---- up to ReplaceState messages still queued ----

  /** Idle, but for ReplaceState messages at the head of some mailboxes. */
  ghost predicate Ready(n: Net) {
    Wired(n) && Prefixed(n.r) && Idle(Norm(n))
  }

  /** The ledger of a network whose queued ReplaceState messages count as applied. */
  ghost function Abs(n: Net): (db: Ledger)
    requires Ready(n)
    ensures Rooted(db)
  {
    IdleRooted(Norm(n));
    LedgerOf(Norm(n))
  }

  ghost predicate Working(n0: Net, opId: u32, op: Op, n: Net)
    requires Ready(n0)
  {
    Wired(n) && Prefixed(n.r) && Phase(Norm(n0), opId, op, Norm(n))
  }

  /** `op` was executed: the ledger moved as specified and exactly one event was added, the answer. */
  ghost predicate Executed(n0: Net, opId: u32, op: Op, n: Net)
    requires Ready(n0)
  {
    && Ready(n)
    && Abs(n) == Apply(Abs(n0), op).0
    && |n.r.events| == |n0.r.events| + 1
    && n.r.events[..|n0.r.events|] == n0.r.events
    && Matches(n.r.events[|n0.r.events|], opId, op, Apply(Abs(n0), op).1)
  }

  lemma NormFinished(n0: Net, opId: u32, op: Op, n: Net)
    requires Ready(n0) && Wired(n) && Prefixed(n.r) && Finished(Norm(n0), opId, op, Norm(n))
    ensures Executed(n0, opId, op, n)
  {
    hide Idle, Apply, Matches, LedgerOf, Prefixed;
    assert Norm(n).r.events == n.r.events && Norm(n0).r.events == n0.r.events;
  }

  // ---- Prefixed is kept ----

  lemma AccountStepPrefixed(n: Net, a: u64)
    requires Wired(n) && Prefixed(n.r) && Enabled(n, AtAccount(a))
    ensures Prefixed(AccountStep(n, a).r)
  {
    hide Accounts.Handle;
    var n', am := AccountStep(n, a), n.r.accounts[a];
    AccountSends(a, n.accounts[a], am[0]);
    TailPrefixed(am, []);
    forall k | k in n'.r.cards ensures forall m :: m in StripCard(n'.r.cards[k]) ==> !m.CardReplaceState? {
      AccountStepMailboxes(n, a, k);
      var out := Accounts.Handle(a, n.accounts[a], am[0]).toCard;
      CardAppend(Cards.NEW_CARD, n.r.cards[k], out);
      assert n.r.cards[k] + [] == n.r.cards[k];
    }
  }

  lemma TailPrefixed(am: seq<AccountMsg>, cm: seq<CardMsg>)
    ensures am != [] && (forall m :: m in StripAccount(am) ==> !m.AccountReplaceState?) ==>
      forall m :: m in StripAccount(am[1..]) ==> !m.AccountReplaceState?
    ensures cm != [] && (forall m :: m in StripCard(cm) ==> !m.CardReplaceState?) ==>
      forall m :: m in StripCard(cm[1..]) ==> !m.CardReplaceState?
  {
    if am != [] && !am[0].AccountReplaceState? && forall m :: m in StripAccount(am) ==> !m.AccountReplaceState? {
      NoReplaceStrips(am[1..], []);
    }
    if cm != [] && !cm[0].CardReplaceState? && forall m :: m in StripCard(cm) ==> !m.CardReplaceState? {
      NoReplaceStrips([], cm[1..]);
    }
  }

  lemma CardStepPrefixed(n: Net, k: CardKey)
    requires Wired(n) && Prefixed(n.r) && Enabled(n, AtCard(k))
    ensures Prefixed(CardStep(n, k).r)
  {
    hide Cards.Handle;
    var cm, a := n.r.cards[k], k.account;
    CardSendsPlain(k, n.cards[k], cm[0]);
    TailPrefixed([], cm);
    AccountAppend(n.accounts[a], n.r.accounts[a], Cards.Handle(k, n.cards[k], cm[0]).toAccount);
  }

  lemma RouterStepPrefixed(n: Net)
    requires Wired(n) && Prefixed(n.r) && Enabled(n, AtRouter) && !RoutesReplace(n, AtRouter)
    ensures Prefixed(RouterStep(n).r)
  {
    var r' := RouterStep(n).r;
    HandleRequests(n.r, n.mail[0]);
    hide Routers.Handle;
    forall a | a in r'.accounts ensures forall m :: m in StripAccount(r'.accounts[a]) ==> !m.AccountReplaceState? {
      var before := AccountMail(n.r, a);
      var more := r'.accounts[a][|before|..];
      assert AccountGained(n.mail[0], a, before, r'.accounts[a]);
      assert r'.accounts[a] == before + more;
      AccountAppend(Accounts.NEW_ACCOUNT, before, more);
    }
    forall k | k in r'.cards ensures forall m :: m in StripCard(r'.cards[k]) ==> !m.CardReplaceState? {
      var before := CardMail(n.r, k);
      var more := r'.cards[k][|before|..];
      assert CardGained(n.mail[0], k, before, r'.cards[k]);
      assert r'.cards[k] == before + more;
      CardAppend(Cards.NEW_CARD, before, more);
    }
  }

  /** Every delivery but the routing of a ReplaceDatabase is the same delivery of the normal form, or none at all. */
  lemma NormSteps(n: Net, l: Label)
    requires Wired(n) && Prefixed(n.r) && Enabled(n, l) && !l.Submit? && !RoutesReplace(n, l)
    ensures Wired(Next(n, l)) && Prefixed(Next(n, l).r) && Wired(Norm(n))
    ensures if Replaces(n, l) then Norm(Next(n, l)) == Norm(n) else Enabled(Norm(n), l) && Norm(Next(n, l)) == Next(Norm(n), l)
  {
    hide Norm, Prefixed, AccountStep, CardStep, RouterStep;
    NextWired(n, l);
    NormWired(n);
    match l {
      case AtRouter =>
        RouterStepPrefixed(n);
        RouterStepCommutes(n);
        NormMail(n);
      case AtAccount(a) =>
        AccountStepPrefixed(n, a);
        if Replaces(n, l) {
          ReplaceKeepsNorm(n, l);
        } else {
          AccountStepCommutes(n, a);
        }
      case AtCard(k) =>
        CardStepPrefixed(n, k);
        if Replaces(n, l) {
          ReplaceKeepsNorm(n, l);
        } else {
          CardStepCommutes(n, k);
        }
    }
  }

  lemma NormMail(n: Net)
    requires Wired(n)
    ensures Norm(n).mail == n.mail
  {
  }

  // ---- one operation ----

  lemma SubmitWorks(n: Net, opId: u32, op: Op)
    requires Ready(n)
    ensures Working(n, opId, op, Next(n, Submit(opId, op)))
  {
    var n' := Next(n, Submit(opId, op));
    assert n.mail == Norm(n).mail == [];
    assert Norm(n') == InRouter(Norm(n), Execute(opId, op));
    assert Queries.IsQuery(op) || !Queries.IsQuery(op);
    hide Idle, Prefixed, Norm;
  }

  lemma RoutesReplaceExecutes(n0: Net, opId: u32, op: Op, n: Net)
    requires Ready(n0) && Wired(n) && Prefixed(n.r) && op.ReplaceDatabase? && Norm(n) == InRouter(Norm(n0), Execute(opId, op))
    ensures Enabled(n, AtRouter) && Executed(n0, opId, op, Next(n, AtRouter))
  {
    hide Norm, Prefixed, LedgerOf, PutAccounts, PutCards, Restores.View, Restores.Quiet, Next, Idle;
    NormMail(n);
    var n' := Next(n, AtRouter);
    var quiet := n.(mail := []);
    NextWired(n, AtRouter);
    SubmittedQuiet(n0, opId, op, n);
    Restores.ViewOfNorm(quiet);
    Restores.QuietIffIdle(quiet);
    Restores.RoutesRestore(n, opId, op);
    Restores.ViewOfNorm(n');
    Restores.QuietIffIdle(n');
    QuietPrefixed(n');
    IdleRooted(Norm(n0));
    assert n'.r.events[..|n0.r.events|] == n0.r.events;
  }

  lemma SubmittedQuiet(n0: Net, opId: u32, op: Op, n: Net)
    requires Ready(n0) && Wired(n) && Norm(n) == InRouter(Norm(n0), Execute(opId, op))
    ensures Norm(n.(mail := [])) == Norm(n0) && n.r.events == n0.r.events && n.r.snapshots == map[]
  {
    hide Prefixed;
    assert Norm(n.(mail := [])) == Norm(n).(mail := []);
  }

  lemma QuietPrefixed(n: Net)
    requires Restores.Quiet(n.r, n.accounts, n.cards)
    ensures Prefixed(n.r)
  {
  }

  /** Only the operation itself is ever routed. */
  lemma PhaseRoutes(n0: Net, opId: u32, op: Op, n: Net)
    requires Idle(n0) && Phase(n0, opId, op, n) && n.mail != [] && n.mail[0].Execute?
    ensures n == InRouter(n0, Execute(opId, op))
  {
    match op {
      case AccountQuery(_) => QueryRoutes(n0, opId, op, n);
      case Bill(_, _) => QueryRoutes(n0, opId, op, n);
      case GetDatabase(_) => DumpRoutes(n0, opId, op, n);
      case Charge(_, _, _, _) => ChargeRoutes(n0, opId, op, n);
      case LimitCard(_, _, _) => CardLimitRoutes(n0, opId, op, n);
      case LimitAccount(_, _) => AccountLimitRoutes(n0, opId, op, n);
      case ReplaceDatabase(_) =>
    }
  }

  lemma CardLimitRoutes(n0: Net, opId: u32, op: Op, n: Net)
    requires Idle(n0) && op.LimitCard? && LimitChanges.LimitingCard(n0, opId, op, n) && n.mail != [] && n.mail[0].Execute?
    ensures n == InRouter(n0, Execute(opId, op))
  {
    hide Updates.Base, Idle;
    IdleMail(Updates.Base(n0, opId, op));
  }

  lemma AccountLimitRoutes(n0: Net, opId: u32, op: Op, n: Net)
    requires Idle(n0) && op.LimitAccount? && LimitChanges.LimitingAccount(n0, opId, op, n) && n.mail != [] && n.mail[0].Execute?
    ensures n == InRouter(n0, Execute(opId, op))
  {
    hide LimitChanges.AccountBase, Idle;
    IdleMail(LimitChanges.AccountBase(n0, opId, op));
  }

  lemma IdleMail(n: Net)
    requires Idle(n)
    ensures n.mail == []
  {
  }

  lemma ChargeRoutes(n0: Net, opId: u32, op: Op, n: Net)
    requires Idle(n0) && op.Charge? && Updates.Charging(n0, opId, op, n) && n.mail != [] && n.mail[0].Execute?
    ensures n == InRouter(n0, Execute(opId, op))
  {
    hide Updates.Base, Idle;
    IdleMail(Updates.Base(n0, opId, op));
  }

  lemma QueryRoutes(n0: Net, opId: u32, op: Op, n: Net)
    requires Idle(n0) && Queries.IsQuery(op) && Queries.Querying(n0, opId, op, n) && n.mail != [] && n.mail[0].Execute?
    ensures n == InRouter(n0, Execute(opId, op))
  {
    hide Queries.QueryBase, Idle, Queries.Waiting, Queries.Answered, Queries.Inbox, Queries.Asking, Queries.Tallies;
    IdleMail(Queries.QueryBase(n0, opId, op));
  }

  lemma DumpRoutes(n0: Net, opId: u32, op: Op, n: Net)
    requires Idle(n0) && op.GetDatabase? && Snapshots.Dumping(n0, opId, op, n) && n.mail != [] && n.mail[0].Execute?
    ensures n == InRouter(n0, Execute(opId, op))
  {
    hide Idle, Snapshots.AccountsWaiting, Snapshots.CardsWaiting, Snapshots.PendingOf;
  }

  /** Whatever is delivered next, an unfinished operation stays unfinished or is executed. */
  lemma OnlyRouted(n0: Net, opId: u32, op: Op, n: Net, l: Label)
    requires Idle(n0) && op.ReplaceDatabase? && Phase(n0, opId, op, n) && Enabled(n, l) && !l.Submit?
    ensures RoutesReplace(n, l)
  {
    hide Idle, Next;
    FromRouter(n0, Execute(opId, op));
  }

  lemma WorkingSteps(n0: Net, opId: u32, op: Op, n: Net, l: Label)
    requires Ready(n0) && Working(n0, opId, op, n) && Enabled(n, l) && !l.Submit?
    ensures Working(n0, opId, op, Next(n, l)) || Executed(n0, opId, op, Next(n, l))
  {
    hide Norm, Prefixed, Next, Idle, Executed, Phase, Finished;
    NormMail(n);
    if RoutesReplace(n, l) {
      PhaseRoutes(Norm(n0), opId, op, Norm(n));
      RoutesReplaceExecutes(n0, opId, op, n);
    } else {
      NormSteps(n, l);
      if Norm(Next(n, l)) != Norm(n) {
        if op.ReplaceDatabase? {
          OnlyRouted(Norm(n0), opId, op, Norm(n), l);
          assert false;
        }
        PhaseSteps(Norm(n0), opId, op, Norm(n), l);
        if Finished(Norm(n0), opId, op, Norm(Next(n, l))) {
          NormFinished(n0, opId, op, Next(n, l));
        }
      }
    }
  }

  /** A finished network only has ReplaceState messages left to deliver, which change nothing that can be observed. */
  lemma ReadySteps(n: Net, l: Label)
    requires Ready(n) && Enabled(n, l) && !l.Submit?
    ensures Ready(Next(n, l)) && Abs(Next(n, l)) == Abs(n) && Next(n, l).r.events == n.r.events
  {
    hide Norm, Prefixed, Next, LedgerOf;
    NormMail(n);
    NormSteps(n, l);
    NormEvents(n);
    NormEvents(Next(n, l));
    assert !Enabled(Norm(n), l);
  }

  lemma NormEvents(n: Net)
    requires Wired(n)
    ensures Norm(n).r.events == n.r.events
  {
  }

  ghost predicate Delivers(ls: seq<Label>) {
    forall l :: l in ls ==> !l.Submit?
  }

  /** Nothing is left to deliver. */
  ghost predicate Drained(n: Net) {
    forall l :: Enabled(n, l) ==> l.Submit?
  }

  lemma {:induction false} DeliveriesExecute(n0: Net, opId: u32, op: Op, n: Net, ls: seq<Label>)
    requires Ready(n0) && Wired(n) && Schedule(n, ls) && Delivers(ls)
    requires Working(n0, opId, op, n) || Executed(n0, opId, op, n)
    ensures Working(n0, opId, op, Run(n, ls)) || Executed(n0, opId, op, Run(n, ls))
    decreases |ls|
  {
    hide Working, Executed, Ready, Wired, Next;
    if ls != [] {
      var n' := Next(n, ls[0]);
      NextWired(n, ls[0]);
      if Executed(n0, opId, op, n) {
        ExecutedSteps(n0, opId, op, n, ls[0]);
      } else {
        WorkingSteps(n0, opId, op, n, ls[0]);
      }
      DeliveriesExecute(n0, opId, op, n', ls[1..]);
    }
  }

  lemma ExecutedSteps(n0: Net, opId: u32, op: Op, n: Net, l: Label)
    requires Ready(n0) && Executed(n0, opId, op, n) && Enabled(n, l) && !l.Submit?
    ensures Executed(n0, opId, op, Next(n, l))
  {
    hide Ready, Next, Abs, Matches, Apply;
    ReadyIsWired(n);
    ReadySteps(n, l);
  }

  lemma ReadyIsWired(n: Net)
    requires Ready(n)
    ensures Wired(n)
  {
  }

  /** An unfinished operation is never stuck. */
  lemma WorkingLive(n0: Net, opId: u32, op: Op, n: Net)
    requires Ready(n0) && Working(n0, opId, op, n)
    ensures !Drained(n)
  {
    hide Idle, Phase, Wired, StripAccount, StripCard;
    var l := PhaseLive(Norm(n0), opId, op, Norm(n));
    LiveInNorm(n, l);
  }

  lemma LiveInNorm(n: Net, l: Label)
    requires Wired(n) && Enabled(Norm(n), l)
    ensures Enabled(n, l)
  {
  }

  /** The network just after the node submitted `op`. */
  ghost function Submitted(n: Net, opId: u32, op: Op): (n': Net)
    requires Ready(n)
    ensures Wired(n')
  {
    NextWired(n, Submit(opId, op));
    Next(n, Submit(opId, op))
  }

  /**
   One operation at a time. Submit `op` to a ready network and deliver messages in any
   order: as long as messages are left nothing is stuck, and once they are drained, and
   possibly before, the ledger is the specified one and there is exactly one new event,
   the specified answer.
   */
  lemma OneOperation(n0: Net, opId: u32, op: Op, ls: seq<Label>)
    requires Ready(n0) && Schedule(Submitted(n0, opId, op), ls) && Delivers(ls)
    ensures var n := Run(Submitted(n0, opId, op), ls);
      && (Working(n0, opId, op, n) || Executed(n0, opId, op, n))
      && (Drained(n) ==> Executed(n0, opId, op, n) && LedgerOf(n) == Apply(Abs(n0), op).0)
  {
    hide Working, Ready, Wired, Next;
    var n1 := Submitted(n0, opId, op);
    SubmitWorks(n0, opId, op);
    DeliveriesExecute(n0, opId, op, n1, ls);
    var n := Run(n1, ls);
    if Working(n0, opId, op, n) {
      WorkingLive(n0, opId, op, n);
    }
    if Drained(n) {
      DrainedNorm(n);
    }
  }

  lemma DrainedNorm(n: Net)
    requires Ready(n) && Drained(n)
    ensures Abs(n) == LedgerOf(n)
  {
    forall a | a in n.accounts ensures n.r.accounts[a] == [] {
      assert !Enabled(n, AtAccount(a));
    }
    forall k | k in n.cards ensures n.r.cards[k] == [] {
      assert !Enabled(n, AtCard(k));
    }
    assert Norm(n).accounts == n.accounts && Norm(n).cards == n.cards;
    SameLedger(Norm(n), n);
  }

  // ---- any number of operations, one at a time ----

  /** An operation, and the deliveries made before the next one is submitted. */
  datatype Turn = Turn(opId: u32, op: Op, deliveries: seq<Label>)

  /** An unfinished operation has not reported anything. */
  lemma WorkingIsSilent(n0: Net, opId: u32, op: Op, n: Net)
    requires Ready(n0) && Working(n0, opId, op, n)
    ensures n.r.events == n0.r.events
  {
    hide Prefixed, Idle;
    NormEvents(n);
    NormEvents(n0);
    PhaseIsSilent(Norm(n0), opId, op, Norm(n));
  }

  lemma PhaseIsSilent(n0: Net, opId: u32, op: Op, n: Net)
    requires Idle(n0) && Phase(n0, opId, op, n)
    ensures n.r.events == n0.r.events
  {
    match op {
      case AccountQuery(_) => QueryIsSilent(n0, opId, op, n);
      case Bill(_, _) => QueryIsSilent(n0, opId, op, n);
      case GetDatabase(_) => DumpIsSilent(n0, opId, op, n);
      case Charge(_, _, _, _) => ChargeIsSilent(n0, opId, op, n);
      case LimitCard(_, _, _) => CardLimitIsSilent(n0, opId, op, n);
      case LimitAccount(_, _) => AccountLimitIsSilent(n0, opId, op, n);
      case ReplaceDatabase(_) =>
    }
  }

  lemma ChargeIsSilent(n0: Net, opId: u32, op: Op, n: Net)
    requires Idle(n0) && op.Charge? && Updates.Charging(n0, opId, op, n)
    ensures n.r.events == n0.r.events
  {
    hide Updates.Base, Idle, Updates.ReplyMsg, Updates.CardRefuses, Updates.AccountRefuses, LedgerOf;
    Updates.BaseFacts(n0, opId, op);
  }

  lemma CardLimitIsSilent(n0: Net, opId: u32, op: Op, n: Net)
    requires Idle(n0) && op.LimitCard? && LimitChanges.LimitingCard(n0, opId, op, n)
    ensures n.r.events == n0.r.events
  {
    hide Updates.Base, Idle, LedgerOf;
    Updates.BaseFacts(n0, opId, op);
  }

  lemma AccountLimitIsSilent(n0: Net, opId: u32, op: Op, n: Net)
    requires Idle(n0) && op.LimitAccount? && LimitChanges.LimitingAccount(n0, opId, op, n)
    ensures n.r.events == n0.r.events
  {
    hide LimitChanges.AccountBase, Idle, LedgerOf;
    LimitChanges.AccountBaseFacts(n0, opId, op);
  }

  lemma QueryIsSilent(n0: Net, opId: u32, op: Op, n: Net)
    requires Idle(n0) && Queries.IsQuery(op) && Queries.Querying(n0, opId, op, n)
    ensures n.r.events == n0.r.events
  {
    hide Queries.QueryBase, Idle, LedgerOf, Queries.Waiting, Queries.Answered, Queries.Inbox, Queries.Asking, Queries.Tallies, Queries.RoundOk;
    Queries.QueryBaseFacts(n0, opId, op);
  }

  lemma DumpIsSilent(n0: Net, opId: u32, op: Op, n: Net)
    requires Idle(n0) && op.GetDatabase? && Snapshots.Dumping(n0, opId, op, n)
    ensures n.r.events == n0.r.events
  {
    hide Idle, Snapshots.AccountsWaiting, Snapshots.CardsWaiting, Snapshots.PendingOf;
  }

  lemma TurnExecutes(n: Net, t: Turn)
    requires Ready(n) && Schedule(Submitted(n, t.opId, t.op), t.deliveries) && Delivers(t.deliveries)
    requires |Run(Submitted(n, t.opId, t.op), t.deliveries).r.events| > |n.r.events|
    ensures Executed(n, t.opId, t.op, Run(Submitted(n, t.opId, t.op), t.deliveries))
  {
    hide Working, Executed, Ready, Submitted, Run, Schedule;
    OneOperation(n, t.opId, t.op, t.deliveries);
    var n' := Run(Submitted(n, t.opId, t.op), t.deliveries);
    if Working(n, t.opId, t.op, n') {
      WorkingIsSilent(n, t.opId, t.op, n');
    }
  }

  /** Each turn waits for its answer before the next one starts; mailboxes need not be empty. */
  ghost predicate OneAtATime(n: Net, turns: seq<Turn>)
    requires Ready(n)
    decreases |turns|
  {
    turns != [] ==>
      var t := turns[0];
      && Schedule(Submitted(n, t.opId, t.op), t.deliveries) && Delivers(t.deliveries)
      && var n' := Run(Submitted(n, t.opId, t.op), t.deliveries);
      && |n'.r.events| > |n.r.events|
      && (TurnExecutes(n, t); OneAtATime(n', turns[1..]))
  }

  ghost function RunTurns(n: Net, turns: seq<Turn>): (n': Net)
    requires Ready(n) && OneAtATime(n, turns)
    ensures Ready(n')
    decreases |turns|
  {
    if turns == [] then n
    else
      TurnExecutes(n, turns[0]);
      RunTurns(Run(Submitted(n, turns[0].opId, turns[0].op), turns[0].deliveries), turns[1..])
  }

  function Ops(turns: seq<Turn>): seq<Op> {
    seq(|turns|, i requires 0 <= i < |turns| => turns[i].op)
  }

  /** `events` answers the turns in order, as the ledger does. */
  ghost predicate Answered(db: Ledger, turns: seq<Turn>, events: seq<ActorEvent>)
    requires Rooted(db)
    decreases |turns|
  {
    if turns == [] then events == []
    else
      ApplyRooted(db, turns[0].op);
      && events != []
      && Matches(events[0], turns[0].opId, turns[0].op, Apply(db, turns[0].op).1)
      && Answered(Apply(db, turns[0].op).0, turns[1..], events[1..])
  }

  /**
   Every run that submits operations one at a time is a fold of the sequential ledger:
   same final state, and one matching answer per operation, in order.
   */
  lemma {:induction false} SequentialRefinement(n: Net, turns: seq<Turn>)
    requires Ready(n) && OneAtATime(n, turns)
    ensures var n' := RunTurns(n, turns);
      && Abs(n') == Fold(Abs(n), Ops(turns))
      && |n.r.events| <= |n'.r.events| && n'.r.events[..|n.r.events|] == n.r.events
      && Answered(Abs(n), turns, n'.r.events[|n.r.events|..])
    decreases |turns|
  {
    hide Ready, Abs, Apply, Matches, Schedule, Run, Submitted, OneAtATime;
    if turns == [] {
      assert n.r.events[|n.r.events|..] == [];
    } else {
      var t := turns[0];
      FirstTurn(n, turns);
      var n1 := Run(Submitted(n, t.opId, t.op), t.deliveries);
      SequentialRefinement(n1, turns[1..]);
      assert Ops(turns)[1..] == Ops(turns[1..]);
      Suffix(n.r.events, n1.r.events, RunTurns(n, turns).r.events);
    }
  }

  lemma FirstTurn(n: Net, turns: seq<Turn>)
    requires Ready(n) && OneAtATime(n, turns) && turns != []
    ensures var t := turns[0];
      && Schedule(Submitted(n, t.opId, t.op), t.deliveries)
      && var n1 := Run(Submitted(n, t.opId, t.op), t.deliveries);
      && Executed(n, t.opId, t.op, n1) && OneAtATime(n1, turns[1..])
  {
    TurnExecutes(n, turns[0]);
    hide Ready, Executed, Submitted, Run, Schedule;
  }

  lemma Suffix<T>(before: seq<T>, mid: seq<T>, after: seq<T>)
    requires |mid| == |before| + 1 && mid[..|before|] == before
    requires |mid| <= |after| && after[..|mid|] == mid
    ensures after[..|before|] == before && after[|before|..] != []
    ensures after[|before|..][0] == mid[|before|] && after[|before|..][1..] == after[|mid|..]
  {
    assert after[..|before|] == after[..|mid|][..|before|];
  }
}
