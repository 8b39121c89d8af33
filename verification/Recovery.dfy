/**
 A snapshot replayed into a fresh router: the copy has the same ledger as soon as its
 early result is out, and from then on both answer alike.
 */
module Recovery {
  import opened Protocol
  import opened Messages
  import opened Network
  import opened Ledgers
  import opened Stages
  import opened Refinement
  import Normal

  /** The same answer, up to the order of card and account lists. */
  ghost predicate SameAnswer(e: ActorEvent, f: ActorEvent) {
    && e.OperationResultEvent? && f.OperationResultEvent?
    && e.operation == f.operation && e.success == f.success && e.error == f.error
    && match e.result
       case AccountQueryResult(a, total, spent) =>
         && f.result.AccountQueryResult? && f.result.accountId == a && f.result.totalSpent == total
         && multiset(f.result.perCardSpent) == multiset(spent)
       case DatabaseSnapshotResult(s) =>
         && f.result.DatabaseSnapshotResult? && f.result.snapshot.addr == s.addr
         && multiset(f.result.snapshot.accounts) == multiset(s.accounts)
         && multiset(f.result.snapshot.cards) == multiset(s.cards)
       case _ => f.result == e.result
  }

  lemma MatchesAlike(e: ActorEvent, f: ActorEvent, i: u32, j: u32, op: Op, answer: Answer)
    requires Matches(e, i, op, answer) && Matches(f, j, op, answer)
    ensures SameAnswer(e, f)
  {
  }

  lemma FirstAnswered(db: Ledger, ts: seq<Turn>, es: seq<ActorEvent>)
    requires Rooted(db) && Answered(db, ts, es)
    ensures ts == [] ==> es == []
    ensures ts != [] ==>
      && es != [] && Rooted(Apply(db, ts[0].op).0)
      && Matches(es[0], ts[0].opId, ts[0].op, Apply(db, ts[0].op).1) && Answered(Apply(db, ts[0].op).0, ts[1..], es[1..])
      && Ops(ts)[0] == ts[0].op && Ops(ts[1..]) == Ops(ts)[1..]
    ensures |Ops(ts)| == |ts|
  {
    hide Apply, Matches;
    if ts != [] {
      ApplyRooted(db, ts[0].op);
    }
  }

  lemma {:induction false} AnsweredAlike(db: Ledger, ts: seq<Turn>, us: seq<Turn>, es: seq<ActorEvent>, fs: seq<ActorEvent>)
    requires Rooted(db) && Ops(ts) == Ops(us) && Answered(db, ts, es) && Answered(db, us, fs)
    ensures |es| == |fs| == |ts| && forall i :: 0 <= i < |ts| ==> SameAnswer(es[i], fs[i])
    decreases |ts|
  {
    hide Apply, Matches, SameAnswer, Answered, Ops;
    FirstAnswered(db, ts, es);
    FirstAnswered(db, us, fs);
    if ts != [] {
      MatchesAlike(es[0], fs[0], ts[0].opId, us[0].opId, ts[0].op, Apply(db, ts[0].op).1);
      AnsweredAlike(Apply(db, ts[0].op).0, ts[1..], us[1..], es[1..], fs[1..]);
      forall i | 0 <= i < |ts| ensures SameAnswer(es[i], fs[i]) {
        if i > 0 {
          assert es[i] == es[1..][i - 1] && fs[i] == fs[1..][i - 1];
        }
      }
    }
  }

  /** Two networks with the same ledger answer the same operations alike, whatever their schedules. */
  lemma SameLedgerAnswersAlike(n: Net, m: Net, ts: seq<Turn>, us: seq<Turn>)
    requires Ready(n) && Ready(m) && Abs(n) == Abs(m)
    requires OneAtATime(n, ts) && OneAtATime(m, us) && Ops(ts) == Ops(us)
    ensures var n', m' := RunTurns(n, ts), RunTurns(m, us);
      && Abs(n') == Abs(m')
      && |n'.r.events| == |n.r.events| + |ts| && |m'.r.events| == |m.r.events| + |ts|
      && var es, fs := n'.r.events[|n.r.events|..], m'.r.events[|m.r.events|..];
      forall i :: 0 <= i < |ts| ==> SameAnswer(es[i], fs[i])
  {
    hide Ready, Abs, OneAtATime, RunTurns, SameAnswer, Fold;
    SequentialRefinement(n, ts);
    SequentialRefinement(m, us);
    var es, fs := RunTurns(n, ts).r.events[|n.r.events|..], RunTurns(m, us).r.events[|m.r.events|..];
    AnsweredAlike(Abs(n), ts, us, es, fs);
  }

  lemma EmptyIsReady()
    ensures Ready(EMPTY_NET) && Abs(EMPTY_NET) == EMPTY_LEDGER
  {
    assert Normal.Norm(EMPTY_NET) == EMPTY_NET;
    assert LedgerOf(EMPTY_NET) == EMPTY_LEDGER;
  }

  /**
   `n` answered a GetDatabase. A fresh network that answered the ReplaceDatabase of that
   snapshot has the ledger of `n`, even while ReplaceState messages are still queued.
   */
  lemma SnapshotRestores(n0: Net, dumpId: u32, addr: SocketAddr, n: Net, opId: u32, ls: seq<Label>)
    requires Ready(n0) && Executed(n0, dumpId, GetDatabase(addr), n)
    requires Ready(EMPTY_NET)
    requires n.r.events[|n0.r.events|].result.DatabaseSnapshotResult?
    requires var restore := ReplaceDatabase(n.r.events[|n0.r.events|].result.snapshot);
      && Schedule(Submitted(EMPTY_NET, opId, restore), ls) && Delivers(ls)
      && Run(Submitted(EMPTY_NET, opId, restore), ls).r.events != []
    ensures var m := Run(Submitted(EMPTY_NET, opId, ReplaceDatabase(n.r.events[|n0.r.events|].result.snapshot)), ls);
      && Ready(m) && Abs(m) == Abs(n) == Abs(n0)
  {
    hide Ready, Abs, Run, Schedule, Submitted;
    var e := n.r.events[|n0.r.events|];
    var t := Turn(opId, ReplaceDatabase(e.result.snapshot), ls);
    EmptyIsReady();
    TurnExecutes(EMPTY_NET, t);
    RestoreSnapshot(Abs(n0), e.result.snapshot);
    hide Apply, Matches;
  }
}
