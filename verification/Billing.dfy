/** Billing, as the node sees it: conservation over the events of every one-at-a-time run. */
module Billing {
  import opened Protocol
  import opened Messages
  import opened Network
  import opened Ledgers
  import opened Stages
  import opened Refinement
  import Recovery

  /** What an event reports as accepted for account `a`, and as billed to it. */
  function AcceptedIn(e: ActorEvent, a: u64): real {
    if e.OperationResultEvent? && e.operation.Charge? && e.operation.accountId == a && e.result == ChargeResult(Outcome.Ok) then
      e.operation.amount
    else 0.0
  }

  function BilledIn(e: ActorEvent, a: u64): real {
    if e.OperationResultEvent? && e.operation.Bill? && e.operation.accountId == a && e.result.AccountQueryResult? then
      e.result.totalSpent
    else 0.0
  }

  function AllAccepted(events: seq<ActorEvent>, a: u64): real {
    if events == [] then 0.0 else AcceptedIn(events[0], a) + AllAccepted(events[1..], a)
  }

  function AllBilled(events: seq<ActorEvent>, a: u64): real {
    if events == [] then 0.0 else BilledIn(events[0], a) + AllBilled(events[1..], a)
  }

  /** One answer reports what the ledger accepted, or billed. */
  lemma AnswerReports(db: Ledger, t: Turn, e: ActorEvent, a: u64)
    requires Rooted(db) && Matches(e, t.opId, t.op, Apply(db, t.op).1)
    ensures AcceptedIn(e, a) == Accepted(db, t.op, a) && BilledIn(e, a) == Billed(db, t.op, a)
  {
  }

  lemma {:induction false} AnswersReport(db: Ledger, turns: seq<Turn>, events: seq<ActorEvent>, a: u64)
    requires Rooted(db) && Answered(db, turns, events)
    ensures AllAccepted(events, a) == TotalAccepted(db, Ops(turns), a)
    ensures AllBilled(events, a) == TotalBilled(db, Ops(turns), a)
    decreases |turns|
  {
    hide Matches, Apply, Accepted, Billed, AcceptedIn, BilledIn;
    if turns != [] {
      ApplyRooted(db, turns[0].op);
      AnswerReports(db, turns[0], events[0], a);
      AnswersReport(Apply(db, turns[0].op).0, turns[1..], events[1..], a);
      assert Ops(turns)[1..] == Ops(turns[1..]);
    }
  }

  /**
   Over every one-at-a-time run from an empty router, whatever its interleavings: the
   charges the node was told are accepted are the totals of the bills it was told, plus what
   the account has consumed since.
   */
  lemma RunBillingConserved(turns: seq<Turn>, a: u64)
    requires Ready(EMPTY_NET) && OneAtATime(EMPTY_NET, turns) && forall t :: t in turns ==> !t.op.ReplaceDatabase?
    ensures var n := RunTurns(EMPTY_NET, turns);
      && AllAccepted(n.r.events, a) == AllBilled(n.r.events, a) + Consumed(Abs(n), a)
      && (Drained(n) && a in n.accounts ==>
        AllAccepted(n.r.events, a) == AllBilled(n.r.events, a) + n.accounts[a].consumed)
  {
    hide Ready, Abs, RunTurns, OneAtATime, Fold, AllAccepted, AllBilled, TotalAccepted, TotalBilled, Answered;
    var n := RunTurns(EMPTY_NET, turns);
    Recovery.EmptyIsReady();
    SequentialRefinement(EMPTY_NET, turns);
    assert n.r.events[|EMPTY_NET.r.events|..] == n.r.events;
    AnswersReport(EMPTY_LEDGER, turns, n.r.events, a);
    BillingConserved(Ops(turns), a);
    if Drained(n) && a in n.accounts {
      DrainedNorm(n);
      LedgerDomain(n, CardKey(a, 0));
    }
  }
}
