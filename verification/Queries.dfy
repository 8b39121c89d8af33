/**
 A query or a bill that runs alone. Cards answer in any order, so its states are indexed
 by the order in which they did: every order ends in the ledger's answer.
 */
module Queries {
  import opened Wrappers
  import opened Protocol
  import opened Messages
  import opened Network
  import opened Ledgers
  import opened Stages
  import opened Sums
  import Cards
  import Accounts
  import Routers

  predicate IsQuery(op: Op) {
    op.AccountQuery? || op.Bill?
  }

  /** The idle network once the account exists. */
  ghost function QueryBase(n0: Net, opId: u32, op: Op): (b: Net)
    requires Idle(n0) && IsQuery(op)
    ensures Idle(b) && op.accountId in b.accounts
  {
    AddAccountIdle(Recorded(n0, opId, op), op.accountId);
    AddAccount(Recorded(n0, opId, op), op.accountId)
  }

  function KeysOf(b: Net, a: u64): set<CardKey> {
    set k | k in b.cards && k.account == a
  }

  /** The cards that answered, in order; how many answers the account has read; whether it has started. */
  datatype Round = Round(asked: seq<CardKey>, heard: nat, started: bool)

  ghost predicate Distinct<T>(xs: seq<T>) {
    forall i, j :: 0 <= i < j < |xs| ==> xs[i] != xs[j]
  }

  ghost predicate RoundOk(b: Net, op: Op, s: Round)
    requires IsQuery(op)
  {
    && Distinct(s.asked)
    && (forall k :: k in s.asked ==> k in KeysOf(b, op.accountId))
    && s.heard <= |s.asked| <= |KeysOf(b, op.accountId)|
    && (if s.started then s.heard < |KeysOf(b, op.accountId)| else s.heard == 0)
  }

  function PairOf(b: Net, k: CardKey): (u64, real) {
    (k.card, if k in b.cards then b.cards[k].consumed else 0.0)
  }

  function PairsOf(b: Net, ks: seq<CardKey>): seq<(u64, real)> {
    seq(|ks|, i requires 0 <= i < |ks| => PairOf(b, ks[i]))
  }

  function Replies(b: Net, opId: u32, ks: seq<CardKey>): seq<AccountMsg> {
    seq(|ks|, i requires 0 <= i < |ks| => CardQueryReply(opId, PairOf(b, ks[i]).0, PairOf(b, ks[i]).1))
  }

  function Question(opId: u32, op: Op): CardMsg
    requires IsQuery(op)
  {
    QueryCardState(opId, op.accountId, op.Bill?)
  }

  function StartMsg(opId: u32, op: Op, num: nat): AccountMsg
    requires IsQuery(op)
  {
    if op.Bill? then StartAccountBill(opId, num) else StartAccountQuery(opId, num)
  }

  function Waiting(b: Net, opId: u32, op: Op, asked: seq<CardKey>): map<CardKey, seq<CardMsg>>
    requires IsQuery(op)
  {
    map k | k in b.r.cards :: if k.account == op.accountId && k !in asked then [Question(opId, op)] else []
  }

  function Answered(b: Net, op: Op, asked: seq<CardKey>): map<CardKey, Cards.Card>
    requires IsQuery(op)
  {
    map k | k in b.cards :: if op.Bill? && k in asked then b.cards[k].(consumed := 0.0) else b.cards[k]
  }

  function Inbox(b: Net, opId: u32, op: Op, s: Round): seq<AccountMsg>
    requires IsQuery(op) && s.heard <= |s.asked|
  {
    (if s.started then [] else [StartMsg(opId, op, |KeysOf(b, op.accountId)|)]) + Replies(b, opId, s.asked[s.heard..])
  }

  function Asking(b: Net, opId: u32, op: Op, s: Round): Accounts.Account
    requires IsQuery(op) && op.accountId in b.accounts && s.heard <= |s.asked| && s.heard <= |KeysOf(b, op.accountId)|
  {
    if s.started then
      b.accounts[op.accountId].(pending := Some(Accounts.PendingQuery(
        opId, |KeysOf(b, op.accountId)| - s.heard, PairsOf(b, s.asked[..s.heard]), op.Bill?)))
    else b.accounts[op.accountId]
  }

  /** The network while the account collects. */
  ghost function Collecting(b: Net, opId: u32, op: Op, s: Round): Net
    requires IsQuery(op) && op.accountId in b.accounts && RoundOk(b, op, s)
  {
    b.(
      r := b.r.(
        accounts := b.r.accounts[op.accountId := Inbox(b, opId, op, s)],
        cards := Waiting(b, opId, op, s.asked)),
      accounts := b.accounts[op.accountId := Asking(b, opId, op, s)],
      cards := Answered(b, op, s.asked))
  }

  /** The network once the account has finished. */
  function Cleared(b: Net, op: Op): Net
    requires IsQuery(op) && op.accountId in b.accounts
  {
    if op.Bill? then
      b.(
        accounts := b.accounts[op.accountId := b.accounts[op.accountId].(consumed := 0.0)],
        cards := map k | k in b.cards :: if k.account == op.accountId then b.cards[k].(consumed := 0.0) else b.cards[k])
    else b
  }

  /** `spent` is the list of all cards of the account, in some order, and `total` what the ledger reports. */
  ghost predicate Tallies(b: Net, op: Op, total: real, spent: seq<(u64, real)>)
    requires IsQuery(op) && op.accountId in b.accounts
  {
    LedgerDomain(b, CardKey(op.accountId, 0));
    Report(LedgerOf(b), op.accountId) == Spent(total, multiset(spent))
  }

  ghost predicate Querying(n0: Net, opId: u32, op: Op, n: Net)
    requires Idle(n0) && IsQuery(op)
  {
    var b := QueryBase(n0, opId, op);
    || n == InRouter(n0, Execute(opId, op))
    || (exists s :: RoundOk(b, op, s) && n == Collecting(b, opId, op, s))
    || (exists total, spent :: Tallies(b, op, total, spent) &&
         n == InRouter(Cleared(b, op), AccountQueryCompleted(opId, op.accountId, total, spent)))
  }

  // ---- adding up ----

  lemma PairsOfNext(b: Net, opId: u32, ks: seq<CardKey>, k: CardKey)
    ensures PairsOf(b, ks + [k]) == PairsOf(b, ks) + [PairOf(b, k)]
    ensures Replies(b, opId, ks + [k]) == Replies(b, opId, ks) + [CardQueryReply(opId, PairOf(b, k).0, PairOf(b, k).1)]
  {
  }

  lemma SumSpentNext(spent: seq<(u64, real)>, p: (u64, real))
    ensures Accounts.SumSpent(spent + [p]) == Accounts.SumSpent(spent) + p.1
  {
    assert (spent + [p])[..|spent|] == spent;
  }

  function Shown(b: Net, ks: seq<CardKey>): map<CardKey, real> {
    map k | k in ks :: PairOf(b, k).1
  }

  lemma ShownNext(b: Net, ks: seq<CardKey>, k: CardKey)
    ensures Shown(b, ks + [k]) == Shown(b, ks)[k := PairOf(b, k).1]
  {
  }

  /** A list of distinct cards adds up to the total over its cards. */
  lemma {:induction false} PairsTally(b: Net, a: u64, ks: seq<CardKey>)
    requires Distinct(ks) && forall k :: k in ks ==> k.account == a
    ensures Accounts.SumSpent(PairsOf(b, ks)) == Total(Shown(b, ks))
    ensures multiset(PairsOf(b, ks)) == multiset(Pairs(Shown(b, ks)))
  {
    if ks == [] {
      assert Shown(b, ks) == map[];
      assert Pairs(Shown(b, ks)) == {};
    } else {
      var n := |ks| - 1;
      var k, front := ks[n], ks[..n];
      assert ks == front + [k];
      PairsTally(b, a, front);
      PairsOfNext(b, 0, front, k);
      SumSpentNext(PairsOf(b, front), PairOf(b, k));
      ShownNext(b, front, k);
      TotalUpdate(Shown(b, front), k, PairOf(b, k).1);
      PairsNext(Shown(b, front), a, k, PairOf(b, k).1);
      hide Shown, PairsOf, Pairs, Total, Accounts.SumSpent;
    }
  }

  lemma PairsNext(m: map<CardKey, real>, a: u64, k: CardKey, v: real)
    requires k !in m && k.account == a && forall j :: j in m ==> j.account == a
    ensures multiset(Pairs(m[k := v])) == multiset(Pairs(m)) + multiset{(k.card, v)}
  {
    assert Pairs(m[k := v]) == Pairs(m) + {(k.card, v)} by {
      forall p | p in Pairs(m) + {(k.card, v)} ensures p in Pairs(m[k := v]) {
        if p in Pairs(m) {
          var j :| j in m && p == (j.card, m[j]);
          assert j in m[k := v];
        } else {
          assert k in m[k := v];
        }
      }
    }
    assert (k.card, v) !in Pairs(m) by {
      forall j | j in m ensures j.card != k.card {
        assert j == CardKey(a, j.card) && k == CardKey(a, k.card);
      }
    }
  }

  /** When every card has answered, the tally is the ledger's report. */
  lemma AllAnswered(b: Net, op: Op, ks: seq<CardKey>)
    requires IsQuery(op) && op.accountId in b.accounts
    requires Distinct(ks) && (forall k :: k in ks ==> k in KeysOf(b, op.accountId)) && |ks| == |KeysOf(b, op.accountId)|
    ensures forall k :: k in ks <==> k in KeysOf(b, op.accountId)
    ensures ks != [] ==> Tallies(b, op, Accounts.SumSpent(PairsOf(b, ks)), PairsOf(b, ks))
    ensures ks == [] ==> Tallies(b, op, b.accounts[op.accountId].consumed, [])
  {
    hide LedgerOf, SpentBy, Pairs, PairsOf, Total, Accounts.SumSpent;
    var a := op.accountId;
    PairsTally(b, a, ks);
    ShownIsSpent(b, a, ks);
    LedgerDomain(b, CardKey(a, 0));
    AccountInLedger(b, a);
    var m := Shown(b, ks);
    if ks == [] {
      assert m == map[];
      NoPairs();
    } else {
      assert ks[0] in m;
    }
  }

  lemma NoPairs()
    ensures Pairs(map[]) == {}
  {
  }

  lemma AccountInLedger(b: Net, a: u64)
    requires a in b.accounts
    ensures a in LedgerOf(b).accounts && LedgerOf(b).accounts[a].consumed == b.accounts[a].consumed
  {
  }

  lemma ShownIsSpent(b: Net, a: u64, ks: seq<CardKey>)
    requires Distinct(ks) && (forall k :: k in ks ==> k in KeysOf(b, a)) && |ks| == |KeysOf(b, a)|
    ensures forall k :: k in ks <==> k in KeysOf(b, a)
    ensures SpentBy(LedgerOf(b), a) == Shown(b, ks)
  {
    var elems := set k | k in ks;
    DistinctSize(ks);
    Routers.SameSize(elems, KeysOf(b, a));
    forall k ensures k in SpentBy(LedgerOf(b), a) <==> k in Shown(b, ks) {
      assert k in KeysOf(b, a) <==> k in elems;
    }
  }

  lemma {:induction false} DistinctSize<T>(ks: seq<T>)
    requires Distinct(ks)
    ensures |set k | k in ks| == |ks|
  {
    if ks != [] {
      var n := |ks| - 1;
      DistinctSize(ks[..n]);
      assert ks == ks[..n] + [ks[n]];
      assert (set k | k in ks) == (set k | k in ks[..n]) + {ks[n]};
    }
  }

  // ---- steps ----

  lemma CollectingWired(b: Net, opId: u32, op: Op, s: Round)
    requires Idle(b) && IsQuery(op) && op.accountId in b.accounts && RoundOk(b, op, s)
    ensures var n := Collecting(b, opId, op, s);
      && Wired(n) && n.mail == []
      && (forall k :: Enabled(n, AtCard(k)) <==> k in KeysOf(b, op.accountId) && k !in s.asked)
      && (forall a :: Enabled(n, AtAccount(a)) <==> a == op.accountId && Inbox(b, opId, op, s) != [])
  {
    hide Inbox, Asking;
    var n := Collecting(b, opId, op, s);
    assert n.r.cards.Keys == b.r.cards.Keys && n.cards.Keys == b.cards.Keys;
  }

  lemma WaitingNext(b: Net, opId: u32, op: Op, asked: seq<CardKey>, k: CardKey)
    requires IsQuery(op) && Idle(b) && k in KeysOf(b, op.accountId)
    ensures Waiting(b, opId, op, asked)[k := []] == Waiting(b, opId, op, asked + [k])
    ensures Answered(b, op, asked)[k := if op.Bill? then b.cards[k].(consumed := 0.0) else b.cards[k]] == Answered(b, op, asked + [k])
  {
  }

  function ReplyOf(b: Net, opId: u32, k: CardKey): AccountMsg {
    CardQueryReply(opId, PairOf(b, k).0, PairOf(b, k).1)
  }

  lemma InboxNext(b: Net, opId: u32, op: Op, s: Round, k: CardKey)
    requires IsQuery(op) && op.accountId in b.accounts && RoundOk(b, op, s)
    ensures var s' := s.(asked := s.asked + [k]);
      Inbox(b, opId, op, s') == Inbox(b, opId, op, s) + [ReplyOf(b, opId, k)] && Asking(b, opId, op, s') == Asking(b, opId, op, s)
  {
    var s' := s.(asked := s.asked + [k]);
    assert s'.asked[s.heard..] == s.asked[s.heard..] + [k];
    assert s'.asked[..s.heard] == s.asked[..s.heard];
    PairsOfNext(b, opId, s.asked[s.heard..], k);
    hide PairsOf, Replies, PairOf;
  }

  /** One more card answers. */
  lemma CardAnswers(b: Net, opId: u32, op: Op, s: Round, k: CardKey)
    requires Idle(b) && IsQuery(op) && op.accountId in b.accounts && RoundOk(b, op, s)
    requires k in KeysOf(b, op.accountId) && k !in s.asked
    ensures var s', n := s.(asked := s.asked + [k]), Collecting(b, opId, op, s);
      && Wired(n) && Enabled(n, AtCard(k))
      && RoundOk(b, op, s') && Next(n, AtCard(k)) == Collecting(b, opId, op, s')
  {
    hide PairsOf, Replies, Wired, RoundOk, Inbox, Asking, Idle, Waiting, Answered;
    var s', n := s.(asked := s.asked + [k]), Collecting(b, opId, op, s);
    CollectingWired(b, opId, op, s);
    MoreAsked(b, op, s, k);
    WaitingNext(b, opId, op, s.asked, k);
    InboxNext(b, opId, op, s, k);
    NotAsked(b, opId, op, s.asked, k);
    var n' := Collecting(b, opId, op, s');
    assert n.mail + [] == n.mail && n'.accounts == n.accounts;
    assert n'.r.accounts == n.r.accounts[op.accountId := n.r.accounts[op.accountId] + [ReplyOf(b, opId, k)]];
  }

  lemma NotAsked(b: Net, opId: u32, op: Op, asked: seq<CardKey>, k: CardKey)
    requires IsQuery(op) && Idle(b) && k in KeysOf(b, op.accountId) && k !in asked
    ensures k in Waiting(b, opId, op, asked) && Waiting(b, opId, op, asked)[k] == [Question(opId, op)]
    ensures k in Answered(b, op, asked) && Answered(b, op, asked)[k] == b.cards[k]
  {
  }

  lemma MoreAsked(b: Net, op: Op, s: Round, k: CardKey)
    requires IsQuery(op) && RoundOk(b, op, s) && k in KeysOf(b, op.accountId) && k !in s.asked
    ensures RoundOk(b, op, s.(asked := s.asked + [k]))
  {
    var asked := s.asked + [k];
    DistinctSize(asked);
    var elems := set j | j in asked;
    assert elems <= KeysOf(b, op.accountId);
    SubsetSize(elems, KeysOf(b, op.accountId));
  }

  lemma SubsetSize<T>(a: set<T>, b: set<T>)
    requires a <= b
    ensures |a| <= |b|
  {
    assert |b| == |a| + |b - a|;
  }

  lemma AccountAlone(b: Net, opId: u32, op: Op, s: Round)
    requires Idle(b) && IsQuery(op) && op.accountId in b.accounts && RoundOk(b, op, s) && Inbox(b, opId, op, s) != []
    requires !Inbox(b, opId, op, s)[0].ApplyChargeFromCard?
    ensures var n, a, inbox := Collecting(b, opId, op, s), op.accountId, Inbox(b, opId, op, s);
      && Wired(n) && Enabled(n, AtAccount(a))
      && var e := Accounts.Handle(a, Asking(b, opId, op, s), inbox[0]);
      e.toCard == [] ==> Next(n, AtAccount(a)) == n.(
        r := n.r.(accounts := b.r.accounts[a := inbox[1..]]),
        mail := e.toRouter,
        accounts := b.accounts[a := e.account])
  {
    hide Inbox, Asking, Accounts.Handle, RoundOk, Wired, Waiting, Answered, Next, Idle;
    CollectingWired(b, opId, op, s);
    AccountOnly(Collecting(b, opId, op, s), op.accountId);
    IdleMailIsEmpty(b);
  }

  lemma IdleMailIsEmpty(b: Net)
    requires Idle(b)
    ensures b.mail == [] && forall x: seq<RouterMsg> :: b.mail + x == x
  {
  }

  /** An account that answers no card changes only itself, its mailbox and the router's. */
  lemma AccountOnly(n: Net, a: u64)
    requires Wired(n) && Enabled(n, AtAccount(a)) && !n.r.accounts[a][0].ApplyChargeFromCard?
    ensures a in n.accounts
    ensures var e := Accounts.Handle(a, n.accounts[a], n.r.accounts[a][0]);
      e.toCard == [] ==> Next(n, AtAccount(a)) == n.(
        r := n.r.(accounts := n.r.accounts[a := n.r.accounts[a][1..]]),
        mail := n.mail + e.toRouter,
        accounts := n.accounts[a := e.account])
  {
    hide Accounts.Handle;
    var k := CardKey(a, 0);
    if k in n.r.cards {
      assert n.r.cards[k] + [] == n.r.cards[k] && n.r.cards[k := n.r.cards[k]] == n.r.cards;
    }
  }

  /** The account starts; with no cards it finishes at once. */
  lemma AccountStarts(b: Net, opId: u32, op: Op, s: Round)
    requires Idle(b) && IsQuery(op) && op.accountId in b.accounts && RoundOk(b, op, s) && !s.started
    requires KeysOf(b, op.accountId) != {}
    ensures var n, s' := Collecting(b, opId, op, s), s.(started := true);
      Wired(n) && Enabled(n, AtAccount(op.accountId)) && RoundOk(b, op, s') && Next(n, AtAccount(op.accountId)) == Collecting(b, opId, op, s')
  {
    var s' := s.(started := true);
    var inbox := Inbox(b, opId, op, s);
    assert inbox[1..] == Inbox(b, opId, op, s');
    assert inbox[0] == StartMsg(opId, op, |KeysOf(b, op.accountId)|);
    assert PairsOf(b, s'.asked[..0]) == [];
    AccountAlone(b, opId, op, s);
    hide Inbox, RoundOk, Wired, Idle;
  }

  lemma InboxHead(b: Net, opId: u32, op: Op, s: Round)
    requires IsQuery(op) && op.accountId in b.accounts && RoundOk(b, op, s) && s.started && s.heard < |s.asked|
    ensures var inbox, k := Inbox(b, opId, op, s), s.asked[s.heard];
      inbox != [] && inbox[0] == ReplyOf(b, opId, k) &&
      (s.heard + 1 < |KeysOf(b, op.accountId)| ==>
        RoundOk(b, op, s.(heard := s.heard + 1)) && inbox[1..] == Inbox(b, opId, op, s.(heard := s.heard + 1)))
    ensures PairsOf(b, s.asked[..s.heard + 1]) == PairsOf(b, s.asked[..s.heard]) + [PairOf(b, s.asked[s.heard])]
  {
    assert s.asked[..s.heard + 1] == s.asked[..s.heard] + [s.asked[s.heard]];
  }

  /** The account reads an answer that is not the last. */
  lemma AccountHears(b: Net, opId: u32, op: Op, s: Round)
    requires Idle(b) && IsQuery(op) && op.accountId in b.accounts && RoundOk(b, op, s) && s.started
    requires s.heard < |s.asked| && s.heard + 1 < |KeysOf(b, op.accountId)|
    ensures var n, s' := Collecting(b, opId, op, s), s.(heard := s.heard + 1);
      Wired(n) && Enabled(n, AtAccount(op.accountId)) && RoundOk(b, op, s') && Next(n, AtAccount(op.accountId)) == Collecting(b, opId, op, s')
  {
    hide Inbox, RoundOk, Wired, Idle, PairsOf, Waiting, Answered, Accounts.Handle, Asking, Next, Enabled;
    InboxHead(b, opId, op, s);
    HearsInOrder(b, op, s);
    AccountAlone(b, opId, op, s);
    OneMoreAnswer(b, opId, op, s);
  }

  lemma HearsInOrder(b: Net, op: Op, s: Round)
    requires Idle(b) && IsQuery(op) && RoundOk(b, op, s)
    ensures s.heard <= |s.asked| && s.heard <= |KeysOf(b, op.accountId)| && b.mail == []
  {
  }

  /** An answer that is not the last only moves the account's collection on. */
  lemma OneMoreAnswer(b: Net, opId: u32, op: Op, s: Round)
    requires IsQuery(op) && op.accountId in b.accounts && RoundOk(b, op, s) && s.started
    requires s.heard < |s.asked| && s.heard + 1 < |KeysOf(b, op.accountId)|
    ensures !ReplyOf(b, opId, s.asked[s.heard]).ApplyChargeFromCard?
    ensures Accounts.Handle(op.accountId, Asking(b, opId, op, s), ReplyOf(b, opId, s.asked[s.heard])) ==
      Accounts.Effect(Asking(b, opId, op, s.(heard := s.heard + 1)), [], [])
  {
    InboxHead(b, opId, op, s);
    hide PairsOf, Inbox, KeysOf;
  }

  lemma AllCleared(b: Net, opId: u32, op: Op, asked: seq<CardKey>)
    requires Idle(b) && IsQuery(op) && op.accountId in b.accounts
    requires forall k :: k in asked <==> k in KeysOf(b, op.accountId)
    ensures Waiting(b, opId, op, asked) == b.r.cards && Answered(b, op, asked) == Cleared(b, op).cards
    ensures b.r.accounts[op.accountId := []] == b.r.accounts
    ensures b.accounts[op.accountId := b.accounts[op.accountId]] == b.accounts
  {
  }

  lemma LastAnswer(b: Net, opId: u32, op: Op, s: Round)
    requires IsQuery(op) && op.accountId in b.accounts && RoundOk(b, op, s) && s.started
    requires s.heard < |s.asked| && s.heard + 1 == |KeysOf(b, op.accountId)|
    ensures var acct, spent := b.accounts[op.accountId], PairsOf(b, s.asked);
      Accounts.Handle(op.accountId, Asking(b, opId, op, s), ReplyOf(b, opId, s.asked[s.heard])) ==
      Accounts.Effect(
        Accounts.Account(acct.limit, if op.Bill? then 0.0 else acct.consumed, None),
        [],
        [AccountQueryCompleted(opId, op.accountId, Accounts.SumSpent(spent), spent)])
  {
    assert s.asked[..s.heard + 1] == s.asked;
    InboxHead(b, opId, op, s);
    hide PairsOf, Inbox, Accounts.SumSpent;
  }

  /** The account reads the last answer and reports. */
  lemma AccountFinishes(b: Net, opId: u32, op: Op, s: Round)
    requires Idle(b) && IsQuery(op) && op.accountId in b.accounts && RoundOk(b, op, s) && s.started
    requires s.heard < |s.asked| && s.heard + 1 == |KeysOf(b, op.accountId)|
    ensures var n, spent := Collecting(b, opId, op, s), PairsOf(b, s.asked);
      && Wired(n) && Enabled(n, AtAccount(op.accountId))
      && Tallies(b, op, Accounts.SumSpent(spent), spent)
      && Next(n, AtAccount(op.accountId)) ==
         InRouter(Cleared(b, op), AccountQueryCompleted(opId, op.accountId, Accounts.SumSpent(spent), spent))
  {
    hide Inbox, RoundOk, Wired, Idle, PairsOf, Waiting, Answered, KeysOf, Tallies, Accounts.SumSpent, Accounts.Handle, Asking, Next, Enabled;
    FinishFacts(b, opId, op, s);
    AllCleared(b, opId, op, s.asked);
    AccountAlone(b, opId, op, s);
    LastAnswer(b, opId, op, s);
    assert [ReplyOf(b, opId, s.asked[s.heard])][1..] == [];
    ClearedAccount(b, op);
  }

  lemma ClearedAccount(b: Net, op: Op)
    requires Idle(b) && IsQuery(op) && op.accountId in b.accounts
    ensures var acct := b.accounts[op.accountId];
      b.accounts[op.accountId := Accounts.Account(acct.limit, if op.Bill? then 0.0 else acct.consumed, None)] == Cleared(b, op).accounts
  {
  }

  lemma FinishFacts(b: Net, opId: u32, op: Op, s: Round)
    requires Idle(b) && IsQuery(op) && op.accountId in b.accounts && RoundOk(b, op, s) && s.started
    requires s.heard < |s.asked| && s.heard + 1 == |KeysOf(b, op.accountId)|
    ensures s.heard < |s.asked| && b.accounts[op.accountId].pending.None?
    ensures Inbox(b, opId, op, s) == [ReplyOf(b, opId, s.asked[s.heard])]
    ensures forall k :: k in s.asked <==> k in KeysOf(b, op.accountId)
    ensures var spent := PairsOf(b, s.asked); Tallies(b, op, Accounts.SumSpent(spent), spent)
  {
    AllAnswered(b, op, s.asked);
    InboxHead(b, opId, op, s);
    LastInbox(b, opId, op, s);
    hide KeysOf, PairsOf, Inbox, Accounts.SumSpent, Tallies;
  }

  lemma LastInbox(b: Net, opId: u32, op: Op, s: Round)
    requires IsQuery(op) && op.accountId in b.accounts && RoundOk(b, op, s) && s.started
    requires s.heard < |s.asked| && s.heard + 1 == |KeysOf(b, op.accountId)|
    ensures |Inbox(b, opId, op, s)| == 1
  {
  }

  /** An account without cards reports its own consumption. */
  lemma NoCards(b: Net, opId: u32, op: Op, s: Round)
    requires Idle(b) && IsQuery(op) && op.accountId in b.accounts && RoundOk(b, op, s)
    requires KeysOf(b, op.accountId) == {}
    ensures var n, total := Collecting(b, opId, op, s), b.accounts[op.accountId].consumed;
      && Wired(n) && Enabled(n, AtAccount(op.accountId))
      && Tallies(b, op, total, [])
      && Next(n, AtAccount(op.accountId)) == InRouter(Cleared(b, op), AccountQueryCompleted(opId, op.accountId, total, []))
  {
    hide Inbox, RoundOk, Wired, Idle, PairsOf, Waiting, Answered, KeysOf, Tallies;
    NobodyAsked(b, opId, op, s);
    AllAnswered(b, op, s.asked);
    AllCleared(b, opId, op, s.asked);
    AccountAlone(b, opId, op, s);
  }

  lemma NobodyAsked(b: Net, opId: u32, op: Op, s: Round)
    requires IsQuery(op) && op.accountId in b.accounts && RoundOk(b, op, s) && KeysOf(b, op.accountId) == {}
    ensures s.asked == [] && Inbox(b, opId, op, s) == [StartMsg(opId, op, 0)]
    ensures Asking(b, opId, op, s) == b.accounts[op.accountId]
  {
  }

  // ---- routing and reporting ----

  lemma RoutesQuery(n0: Net, opId: u32, op: Op)
    requires Idle(n0) && IsQuery(op) && Idle(Recorded(n0, opId, op)) && Wired(InRouter(n0, Execute(opId, op)))
    ensures var b, s := QueryBase(n0, opId, op), Round([], 0, false);
      RoundOk(b, op, s) && Next(InRouter(n0, Execute(opId, op)), AtRouter) == Collecting(b, opId, op, s)
  {
    hide Routers.Query, Waiting, Answered, Inbox, KeysOf, Idle;
    var n1, b, s := Recorded(n0, opId, op), QueryBase(n0, opId, op), Round([], 0, false);
    QueryMail(n1, opId, op);
    ExtendsTo(n1, op.accountId);
    QueryStarts(b, opId, op);
    assert b.r.accounts[op.accountId := Inbox(b, opId, op, s)].Keys == b.r.accounts.Keys;
    assert Waiting(b, opId, op, []).Keys == b.r.cards.Keys;
  }

  lemma QueryStarts(b: Net, opId: u32, op: Op)
    requires Idle(b) && IsQuery(op) && op.accountId in b.accounts
    ensures var s := Round([], 0, false);
      && RoundOk(b, op, s)
      && Inbox(b, opId, op, s) == [StartMsg(opId, op, |KeysOf(b, op.accountId)|)]
      && Answered(b, op, []) == b.cards
      && b.accounts[op.accountId := Asking(b, opId, op, s)] == b.accounts
      && b.r.accounts.Keys == b.accounts.Keys && Waiting(b, opId, op, []).Keys == b.r.cards.Keys && b.mail == []
  {
  }

  lemma ExtendsTo(n: Net, a: u64)
    requires Idle(n)
    ensures var b := AddAccount(n, a);
      && Extend(b.r.accounts.Keys, n.accounts, Accounts.NEW_ACCOUNT) == b.accounts
      && Extend(b.r.cards.Keys, n.cards, Cards.NEW_CARD) == b.cards
  {
  }

  lemma QueryMail(n: Net, opId: u32, op: Op)
    requires Idle(n) && IsQuery(op)
    ensures var b, a := AddAccount(n, op.accountId), op.accountId;
      && Waiting(b, opId, op, []).Keys == b.r.cards.Keys
      && Routers.Query(n.r, opId, a, op.Bill?) == b.r.(
        accounts := b.r.accounts[a := [StartMsg(opId, op, |KeysOf(b, a)|)]],
        cards := Waiting(b, opId, op, []))
  {
    hide Routers.ToCards, Routers.CardsOf, KeysOf, Waiting;
    var b, a := AddAccount(n, op.accountId), op.accountId;
    MailStarts(n, a);
    ToAccountTwice(n.r, a, StartMsg(opId, op, |KeysOf(b, a)|));
    var start := StartMsg(opId, op, |KeysOf(b, a)|);
    assert [] + [start] == [start];
    QuestionsSent(b, opId, op, b.r.accounts[a := [start]]);
  }

  lemma MailStarts(n: Net, a: u64)
    requires Idle(n)
    ensures var b := AddAccount(n, a);
      && b.r == Routers.WithAccount(n.r, a) && a in b.r.accounts && b.r.accounts[a] == []
      && Idle(b) && a in b.accounts && Routers.CardsOf(b.r, a) == KeysOf(b, a)
  {
    AddAccountIdle(n, a);
  }

  lemma QuestionsSent(b: Net, opId: u32, op: Op, accounts: map<u64, seq<AccountMsg>>)
    requires Idle(b) && IsQuery(op)
    ensures Waiting(b, opId, op, []).Keys == b.r.cards.Keys
    ensures Routers.ToCards(b.r.(accounts := accounts), KeysOf(b, op.accountId), Question(opId, op)) ==
            b.r.(accounts := accounts, cards := Waiting(b, opId, op, []))
  {
    assert [] + [Question(opId, op)] == [Question(opId, op)];
  }

  lemma ClearedLedger(b: Net, op: Op)
    requires Idle(b) && IsQuery(op) && op.accountId in b.accounts
    ensures Idle(Cleared(b, op)) && op.accountId in LedgerOf(b).accounts
    ensures LedgerOf(Cleared(b, op)) == if op.Bill? then Reset(LedgerOf(b), op.accountId) else LedgerOf(b)
  {
    ClearedIdle(b, op);
    hide Idle;
    if op.Bill? {
      ClearedRows(b, op);
      ClearedAccounts(b, op);
      hide LedgerOf, Reset, Cleared;
    }
  }

  lemma ClearedIdle(b: Net, op: Op)
    requires Idle(b) && IsQuery(op) && op.accountId in b.accounts
    ensures Idle(Cleared(b, op))
  {
  }

  lemma ClearedRows(b: Net, op: Op)
    requires op.Bill? && op.accountId in b.accounts && op.accountId in LedgerOf(b).accounts
    ensures LedgerOf(Cleared(b, op)).cards == Reset(LedgerOf(b), op.accountId).cards
  {
  }

  lemma ClearedAccounts(b: Net, op: Op)
    requires op.Bill? && op.accountId in b.accounts && op.accountId in LedgerOf(b).accounts
    ensures LedgerOf(Cleared(b, op)).accounts == Reset(LedgerOf(b), op.accountId).accounts
  {
  }

  lemma QueryBaseFacts(n0: Net, opId: u32, op: Op)
    requires Idle(n0) && IsQuery(op)
    ensures var b := QueryBase(n0, opId, op);
      && opId in b.r.operations && b.r.operations[opId] == op && b.r.events == n0.r.events
      && LedgerOf(b) == WithAccount(LedgerOf(n0), op.accountId)
  {
    AddAccountIdle(Recorded(n0, opId, op), op.accountId);
    SameLedger(n0, Recorded(n0, opId, op));
  }

  lemma ReportsQuery(c: Net, opId: u32, op: Op, a: u64, total: real, spent: seq<(u64, real)>)
    requires Idle(c) && opId in c.r.operations && c.r.operations[opId] == op
    ensures var n := InRouter(c, AccountQueryCompleted(opId, a, total, spent));
      && Wired(n) && Only(n, AtRouter)
      && Next(n, AtRouter) == c.(r := Routers.Emit(
           c.r, OperationResultEvent(opId, op, AccountQueryResult(a, total, spent), true, None)))
  {
    assert Extend(c.r.accounts.Keys, c.accounts, Accounts.NEW_ACCOUNT) == c.accounts;
    assert Extend(c.r.cards.Keys, c.cards, Cards.NEW_CARD) == c.cards;
  }

  lemma QueryDone(n0: Net, opId: u32, op: Op, total: real, spent: seq<(u64, real)>)
    requires Idle(n0) && IsQuery(op) && Tallies(QueryBase(n0, opId, op), op, total, spent)
    ensures var n := InRouter(Cleared(QueryBase(n0, opId, op), op), AccountQueryCompleted(opId, op.accountId, total, spent));
      Wired(n) && Only(n, AtRouter) && Rooted(LedgerOf(n0)) && Finished(n0, opId, op, Next(n, AtRouter))
  {
    hide QueryBase, LedgerOf, Idle, Wired, Only, Next, Reset, Report, Cleared;
    var b := QueryBase(n0, opId, op);
    QueryBaseFacts(n0, opId, op);
    IdleRooted(n0);
    ClearedLedger(b, op);
    ClearedFacts(b, op);
    ReportsQuery(Cleared(b, op), opId, op, op.accountId, total, spent);
    var n' := Next(InRouter(Cleared(b, op), AccountQueryCompleted(opId, op.accountId, total, spent)), AtRouter);
    SameLedger(Cleared(b, op), n');
    StillIdle(Cleared(b, op), n'.r.events);
  }

  lemma ClearedFacts(b: Net, op: Op)
    requires IsQuery(op) && op.accountId in b.accounts
    ensures Cleared(b, op).r == b.r && Cleared(b, op).mail == b.mail
  {
  }

  lemma StillIdle(b: Net, events: seq<ActorEvent>)
    requires Idle(b)
    ensures Idle(b.(r := b.r.(events := events)))
  {
  }

  // ---- any delivery ----

  lemma CollectingSteps(n0: Net, opId: u32, op: Op, s: Round, l: Label)
    requires Idle(n0) && IsQuery(op) && RoundOk(QueryBase(n0, opId, op), op, s) && !l.Submit?
    requires Wired(Collecting(QueryBase(n0, opId, op), opId, op, s)) && Enabled(Collecting(QueryBase(n0, opId, op), opId, op, s), l)
    ensures Querying(n0, opId, op, Next(Collecting(QueryBase(n0, opId, op), opId, op, s), l))
  {
    hide QueryBase, Collecting, Next, Inbox, Cleared, Tallies, Wired, Idle, KeysOf;
    var b := QueryBase(n0, opId, op);
    CollectingWired(b, opId, op, s);
    if l.AtCard? {
      CardAnswers(b, opId, op, s, l.k);
    } else if KeysOf(b, op.accountId) == {} {
      NoCards(b, opId, op, s);
    } else if !s.started {
      AccountStarts(b, opId, op, s);
    } else {
      HeardLess(b, opId, op, s);
      if s.heard + 1 < |KeysOf(b, op.accountId)| {
        AccountHears(b, opId, op, s);
      } else {
        AccountFinishes(b, opId, op, s);
      }
    }
  }

  lemma HeardLess(b: Net, opId: u32, op: Op, s: Round)
    requires IsQuery(op) && op.accountId in b.accounts && RoundOk(b, op, s) && s.started && Inbox(b, opId, op, s) != []
    ensures s.heard < |s.asked| && s.heard + 1 <= |KeysOf(b, op.accountId)|
  {
  }

  /** A query running alone: whatever is delivered next, it stays a query or is finished with the ledger's answer. */
  lemma QuerySteps(n0: Net, opId: u32, op: Op, n: Net, l: Label)
    requires Idle(n0) && IsQuery(op) && Querying(n0, opId, op, n) && Wired(n) && Enabled(n, l) && !l.Submit?
    ensures Rooted(LedgerOf(n0))
    ensures Querying(n0, opId, op, Next(n, l)) || Finished(n0, opId, op, Next(n, l))
  {
    hide QueryBase, Collecting, Next, Cleared, Tallies, Wired, Finished, LedgerOf;
    IdleRooted(n0);
    var b := QueryBase(n0, opId, op);
    if n == InRouter(n0, Execute(opId, op)) {
      FromRouter(n0, Execute(opId, op));
      StillRecorded(n0, opId, op);
      RoutesQuery(n0, opId, op);
    } else if s :| RoundOk(b, op, s) && n == Collecting(b, opId, op, s) {
      CollectingSteps(n0, opId, op, s, l);
    } else {
      var total, spent :| Tallies(b, op, total, spent) &&
        n == InRouter(Cleared(b, op), AccountQueryCompleted(opId, op.accountId, total, spent));
      QueryDone(n0, opId, op, total, spent);
    }
  }

  lemma StillRecorded(n0: Net, opId: u32, op: Op)
    requires Idle(n0)
    ensures Idle(Recorded(n0, opId, op))
  {
  }

  /** An unfinished query always has something to deliver. */
  lemma QueryLive(n0: Net, opId: u32, op: Op, n: Net) returns (l: Label)
    requires Idle(n0) && IsQuery(op) && Querying(n0, opId, op, n)
    ensures Wired(n) && Enabled(n, l) && !l.Submit?
  {
    hide QueryBase, Collecting, Cleared, Tallies, Wired, Finished, LedgerOf, Inbox;
    var b := QueryBase(n0, opId, op);
    if n == InRouter(n0, Execute(opId, op)) {
      l := AtRouter;
      FromRouter(n0, Execute(opId, op));
    } else if s :| RoundOk(b, op, s) && n == Collecting(b, opId, op, s) {
      CollectingWired(b, opId, op, s);
      if Inbox(b, opId, op, s) != [] {
        l := AtAccount(op.accountId);
      } else {
        var k := SilentCard(b, opId, op, s);
        l := AtCard(k);
      }
    } else {
      l := AtRouter;
      var total, spent :| Tallies(b, op, total, spent) &&
        n == InRouter(Cleared(b, op), AccountQueryCompleted(opId, op.accountId, total, spent));
      QueryDone(n0, opId, op, total, spent);
    }
  }

  lemma SilentCard(b: Net, opId: u32, op: Op, s: Round) returns (k: CardKey)
    requires IsQuery(op) && op.accountId in b.accounts && RoundOk(b, op, s) && Inbox(b, opId, op, s) == []
    ensures k in KeysOf(b, op.accountId) && k !in s.asked
  {
    var elems := set j | j in s.asked;
    DistinctSize(s.asked);
    assert s.started && s.heard == |s.asked| by {
      assert |s.asked[s.heard..]| == 0;
    }
    if KeysOf(b, op.accountId) <= elems {
      SubsetSize(KeysOf(b, op.accountId), elems);
    }
    k :| k in KeysOf(b, op.accountId) && k !in elems;
  }
}
