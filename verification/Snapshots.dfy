/**
 A GetDatabase that runs alone. Accounts and cards answer in any order; the snapshot
 holds each of them once, whatever the order was.
 */
module Snapshots {
  import opened Wrappers
  import opened Protocol
  import opened Messages
  import opened Network
  import opened Ledgers
  import opened Stages
  import Queries
  import Cards
  import Accounts
  import Routers

  datatype Who = TheAccount(a: u64) | TheCard(k: CardKey)

  function Ids(ws: seq<Who>): seq<u64> {
    if ws == [] then [] else Ids(ws[..|ws| - 1]) + if ws[|ws| - 1].TheAccount? then [ws[|ws| - 1].a] else []
  }

  function Keys(ws: seq<Who>): seq<CardKey> {
    if ws == [] then [] else Keys(ws[..|ws| - 1]) + if ws[|ws| - 1].TheCard? then [ws[|ws| - 1].k] else []
  }

  function AccountSnap(b: Net, a: u64): AccountSnapshot<real> {
    if a in b.accounts then AccountSnapshot(a, b.accounts[a].limit, b.accounts[a].consumed) else AccountSnapshot(a, None, 0.0)
  }

  function CardSnap(b: Net, k: CardKey): CardSnapshot<real> {
    if k in b.cards then CardSnapshot(k.account, k.card, b.cards[k].limit, b.cards[k].consumed)
    else CardSnapshot(k.account, k.card, None, 0.0)
  }

  function AccountList(b: Net, ids: seq<u64>): seq<AccountSnapshot<real>> {
    seq(|ids|, i requires 0 <= i < |ids| => AccountSnap(b, ids[i]))
  }

  function CardList(b: Net, ks: seq<CardKey>): seq<CardSnapshot<real>> {
    seq(|ks|, i requires 0 <= i < |ks| => CardSnap(b, ks[i]))
  }

  function AnswerOf(b: Net, opId: u32, w: Who): RouterMsg {
    match w
    case TheAccount(a) => AccountSnapshotCollected(opId, AccountSnap(b, a))
    case TheCard(k) => CardSnapshotCollected(opId, CardSnap(b, k))
  }

  function AnswersOf(b: Net, opId: u32, ws: seq<Who>): seq<RouterMsg> {
    seq(|ws|, i requires 0 <= i < |ws| => AnswerOf(b, opId, ws[i]))
  }

  predicate Member(b: Net, w: Who) {
    match w
    case TheAccount(a) => a in b.accounts
    case TheCard(k) => k in b.cards
  }

  /** `asked` answered, in this order, and the router has read the first `heard` answers. */
  ghost predicate RoundOk(b: Net, asked: seq<Who>, heard: nat) {
    && Queries.Distinct(asked)
    && (forall w :: w in asked ==> Member(b, w))
    && heard <= |asked|
    && heard < |b.accounts| + |b.cards|
  }

  function PendingOf(b: Net, addr: SocketAddr, ws: seq<Who>): Routers.PendingSnapshot {
    Routers.PendingSnapshot(addr, |b.accounts|, |b.cards|, AccountList(b, Ids(ws)), CardList(b, Keys(ws)))
  }

  function AccountsWaiting(b: Net, opId: u32, asked: seq<Who>): map<u64, seq<AccountMsg>> {
    map a | a in b.r.accounts :: if TheAccount(a) in asked then [] else [AccountGetSnapshot(opId)]
  }

  function CardsWaiting(b: Net, opId: u32, asked: seq<Who>): map<CardKey, seq<CardMsg>> {
    map k | k in b.r.cards :: if TheCard(k) in asked then [] else [CardGetSnapshot(opId)]
  }

  function Gathering(b: Net, opId: u32, addr: SocketAddr, asked: seq<Who>, heard: nat): Net
    requires heard <= |asked|
  {
    b.(
      r := b.r.(
        accounts := AccountsWaiting(b, opId, asked),
        cards := CardsWaiting(b, opId, asked),
        snapshots := map[opId := PendingOf(b, addr, asked[..heard])]),
      mail := AnswersOf(b, opId, asked[heard..]))
  }

  ghost predicate Dumping(n0: Net, opId: u32, op: Op, n: Net)
    requires Idle(n0) && op.GetDatabase?
  {
    || n == InRouter(n0, Execute(opId, op))
    || exists asked, heard :: RoundOk(Recorded(n0, opId, op), asked, heard) &&
         n == Gathering(Recorded(n0, opId, op), opId, op.addr, asked, heard)
  }

  // ---- the lists ----

  lemma {:induction false} SortedMembers(ws: seq<Who>)
    ensures forall a :: a in Ids(ws) <==> TheAccount(a) in ws
    ensures forall k :: k in Keys(ws) <==> TheCard(k) in ws
    ensures |Ids(ws)| + |Keys(ws)| == |ws|
  {
    if ws != [] {
      var front, last := ws[..|ws| - 1], ws[|ws| - 1];
      SortedMembers(front);
      assert ws == front + [last];
    }
  }

  lemma {:induction false} SortedDistinct(ws: seq<Who>)
    requires Queries.Distinct(ws)
    ensures Queries.Distinct(Ids(ws)) && Queries.Distinct(Keys(ws))
  {
    if ws != [] {
      var front, last := ws[..|ws| - 1], ws[|ws| - 1];
      SortedDistinct(front);
      SortedMembers(front);
      assert last !in front;
    }
  }

  lemma Sorted(b: Net, ws: seq<Who>)
    requires Queries.Distinct(ws) && forall w :: w in ws ==> Member(b, w)
    ensures |Ids(ws)| + |Keys(ws)| == |ws|
    ensures |Ids(ws)| <= |b.accounts| && |Keys(ws)| <= |b.cards|
    ensures forall a :: a in Ids(ws) ==> a in b.accounts
    ensures forall k :: k in Keys(ws) ==> k in b.cards
    ensures Queries.Distinct(Ids(ws)) && Queries.Distinct(Keys(ws))
  {
    SortedMembers(ws);
    SortedDistinct(ws);
    Fits(Ids(ws), b.accounts.Keys);
    Fits(Keys(ws), b.cards.Keys);
  }

  lemma Fits<T>(xs: seq<T>, s: set<T>)
    ensures Queries.Distinct(xs) && (forall x :: x in xs ==> x in s) ==> |xs| <= |s|
  {
    if Queries.Distinct(xs) && forall x :: x in xs ==> x in s {
      Queries.DistinctSize(xs);
      Queries.SubsetSize((set x | x in xs), s);
    }
  }

  /** A list without repetition, of as many elements of a set as it has, is the whole set. */
  lemma Covers<T>(xs: seq<T>, s: set<T>)
    requires Queries.Distinct(xs) && (forall x :: x in xs ==> x in s) && |xs| == |s|
    ensures forall x :: x in s ==> x in xs
  {
    Queries.DistinctSize(xs);
    Routers.SameSize((set x | x in xs), s);
    assert forall x :: x in s <==> x in (set y | y in xs);
  }

  lemma {:induction false} SameMultiset<T>(xs: seq<T>, s: set<T>)
    requires Queries.Distinct(xs) && forall x :: x in xs <==> x in s
    ensures multiset(xs) == multiset(s)
    decreases |xs|
  {
    if xs == [] {
      assert s == {};
    } else {
      var front, last := xs[..|xs| - 1], xs[|xs| - 1];
      assert xs == front + [last] && last !in front;
      SameMultiset(front, s - {last});
    }
  }

  lemma WholeDump(b: Net, ids: seq<u64>, ks: seq<CardKey>)
    requires Queries.Distinct(ids) && forall a :: a in ids <==> a in b.accounts
    requires Queries.Distinct(ks) && forall k :: k in ks <==> k in b.cards
    ensures multiset(AccountList(b, ids)) == multiset(AccountSnaps(LedgerOf(b)))
    ensures multiset(CardList(b, ks)) == multiset(CardSnaps(LedgerOf(b)))
  {
    WholeAccounts(b, ids);
    WholeCards(b, ks);
  }

  lemma WholeAccounts(b: Net, ids: seq<u64>)
    requires Queries.Distinct(ids) && forall a :: a in ids <==> a in b.accounts
    ensures multiset(AccountList(b, ids)) == multiset(AccountSnaps(LedgerOf(b)))
  {
    var xs := AccountList(b, ids);
    forall x ensures x in xs <==> x in AccountSnaps(LedgerOf(b)) {
      if x in xs {
        var i :| 0 <= i < |xs| && x == xs[i];
        assert ids[i] in LedgerOf(b).accounts;
      }
      if x in AccountSnaps(LedgerOf(b)) {
        var a :| a in LedgerOf(b).accounts && x == AccountSnapshot(a, LedgerOf(b).accounts[a].limit, LedgerOf(b).accounts[a].consumed);
        assert a in ids;
        var i :| 0 <= i < |ids| && ids[i] == a;
        assert xs[i] == x;
      }
    }
    SameMultiset(xs, AccountSnaps(LedgerOf(b)));
  }

  lemma WholeCards(b: Net, ks: seq<CardKey>)
    requires Queries.Distinct(ks) && forall k :: k in ks <==> k in b.cards
    ensures multiset(CardList(b, ks)) == multiset(CardSnaps(LedgerOf(b)))
  {
    var xs := CardList(b, ks);
    forall x ensures x in xs <==> x in CardSnaps(LedgerOf(b)) {
      if x in xs {
        var i :| 0 <= i < |xs| && x == xs[i];
        assert ks[i] in LedgerOf(b).cards;
      }
      if x in CardSnaps(LedgerOf(b)) {
        var k :| k in LedgerOf(b).cards && x == CardSnapshot(k.account, k.card, LedgerOf(b).cards[k].limit, LedgerOf(b).cards[k].consumed);
        assert k in ks;
        var i :| 0 <= i < |ks| && ks[i] == k;
        assert xs[i] == x;
      }
    }
    forall i, j | 0 <= i < j < |xs| ensures xs[i] != xs[j] {
      assert CardKey(xs[i].accountId, xs[i].cardId) == ks[i] && CardKey(xs[j].accountId, xs[j].cardId) == ks[j];
    }
    SameMultiset(xs, CardSnaps(LedgerOf(b)));
  }

  // ---- steps ----

  lemma GatheringWired(b: Net, opId: u32, addr: SocketAddr, asked: seq<Who>, heard: nat)
    requires Idle(b) && RoundOk(b, asked, heard)
    ensures var n := Gathering(b, opId, addr, asked, heard);
      && Wired(n)
      && (forall a :: Enabled(n, AtAccount(a)) <==> a in b.accounts && TheAccount(a) !in asked)
      && (forall k :: Enabled(n, AtCard(k)) <==> k in b.cards && TheCard(k) !in asked)
      && (Enabled(n, AtRouter) <==> heard < |asked|)
  {
    hide PendingOf, AnswersOf, AccountsWaiting, CardsWaiting, Queries.Distinct, Idle;
    WaitingBoxes(b, opId, asked);
    AnswersLeft(b, opId, asked[heard..]);
    StillWired(b, Gathering(b, opId, addr, asked, heard));
    hide Wired;
  }

  lemma StillWired(b: Net, n: Net)
    requires Idle(b)
    requires n.accounts == b.accounts && n.cards == b.cards && n.r.accounts.Keys == b.accounts.Keys && n.r.cards.Keys == b.cards.Keys
    ensures Wired(n)
  {
  }

  lemma WaitingBoxes(b: Net, opId: u32, asked: seq<Who>)
    requires Idle(b)
    ensures AccountsWaiting(b, opId, asked).Keys == b.r.accounts.Keys == b.accounts.Keys
    ensures CardsWaiting(b, opId, asked).Keys == b.r.cards.Keys == b.cards.Keys
    ensures forall k :: k in b.cards ==> k.account in b.accounts
    ensures forall a :: a in b.accounts ==> (AccountsWaiting(b, opId, asked)[a] != [] <==> TheAccount(a) !in asked)
    ensures forall k :: k in b.cards ==> (CardsWaiting(b, opId, asked)[k] != [] <==> TheCard(k) !in asked)
  {
  }

  lemma AnswersLeft(b: Net, opId: u32, ws: seq<Who>)
    ensures AnswersOf(b, opId, ws) == [] <==> ws == []
  {
  }

  lemma AskedNext(b: Net, opId: u32, asked: seq<Who>, heard: nat, w: Who)
    requires Idle(b) && RoundOk(b, asked, heard) && Member(b, w) && w !in asked
    ensures var asked' := asked + [w];
      && RoundOk(b, asked', heard) && asked'[..heard] == asked[..heard]
      && AnswersOf(b, opId, asked'[heard..]) == AnswersOf(b, opId, asked[heard..]) + [AnswerOf(b, opId, w)]
      && AccountsWaiting(b, opId, asked') ==
         (if w.TheAccount? then AccountsWaiting(b, opId, asked)[w.a := []] else AccountsWaiting(b, opId, asked))
      && CardsWaiting(b, opId, asked') ==
         (if w.TheCard? then CardsWaiting(b, opId, asked)[w.k := []] else CardsWaiting(b, opId, asked))
  {
    hide AnswerOf, PendingOf, RoundOk, AnswersOf, AccountsWaiting, CardsWaiting, Idle;
    MoreInRound(b, asked, heard, w);
    AnswersNext(b, opId, asked, heard, w);
    WaitingNext(b, opId, asked, w);
  }

  lemma MoreInRound(b: Net, asked: seq<Who>, heard: nat, w: Who)
    requires Idle(b) && RoundOk(b, asked, heard) && Member(b, w) && w !in asked
    ensures heard <= |asked| && RoundOk(b, asked + [w], heard) && (asked + [w])[..heard] == asked[..heard]
  {
  }

  lemma AnswersNext(b: Net, opId: u32, asked: seq<Who>, heard: nat, w: Who)
    requires heard <= |asked|
    ensures AnswersOf(b, opId, (asked + [w])[heard..]) == AnswersOf(b, opId, asked[heard..]) + [AnswerOf(b, opId, w)]
  {
    hide AnswerOf;
    assert (asked + [w])[heard..] == asked[heard..] + [w];
  }

  lemma WaitingNext(b: Net, opId: u32, asked: seq<Who>, w: Who)
    requires Idle(b) && Member(b, w)
    ensures AccountsWaiting(b, opId, asked + [w]) ==
      if w.TheAccount? then AccountsWaiting(b, opId, asked)[w.a := []] else AccountsWaiting(b, opId, asked)
    ensures CardsWaiting(b, opId, asked + [w]) ==
      if w.TheCard? then CardsWaiting(b, opId, asked)[w.k := []] else CardsWaiting(b, opId, asked)
  {
  }

  lemma NotAsked(b: Net, opId: u32, asked: seq<Who>, a: u64, k: CardKey)
    requires Idle(b)
    ensures a in b.accounts && TheAccount(a) !in asked ==>
      && a in AccountsWaiting(b, opId, asked) && AccountsWaiting(b, opId, asked)[a] == [AccountGetSnapshot(opId)]
      && b.accounts[a := b.accounts[a]] == b.accounts
    ensures k in b.cards && TheCard(k) !in asked ==>
      && k in CardsWaiting(b, opId, asked) && CardsWaiting(b, opId, asked)[k] == [CardGetSnapshot(opId)]
      && b.cards[k := b.cards[k]] == b.cards
    ensures forall mails: map<CardKey, seq<CardMsg>> :: k in mails ==> mails[k := mails[k]] == mails
    ensures forall mails: map<u64, seq<AccountMsg>> :: a in mails ==> mails[a := mails[a]] == mails
    ensures forall x: seq<CardMsg> :: x + [] == x
    ensures forall x: seq<AccountMsg> :: x + [] == x
  {
  }

  lemma AccountDumps(b: Net, opId: u32, addr: SocketAddr, asked: seq<Who>, heard: nat, a: u64)
    requires Idle(b) && RoundOk(b, asked, heard) && a in b.accounts && TheAccount(a) !in asked
    ensures var n := Gathering(b, opId, addr, asked, heard);
      Wired(n) && Enabled(n, AtAccount(a)) && Next(n, AtAccount(a)) == Gathering(b, opId, addr, asked + [TheAccount(a)], heard)
  {
    hide AccountsWaiting, CardsWaiting, AnswersOf, PendingOf, RoundOk, Idle, Wired;
    GatheringWired(b, opId, addr, asked, heard);
    AskedNext(b, opId, asked, heard, TheAccount(a));
    NotAsked(b, opId, asked, a, CardKey(a, 0));
  }

  lemma CardAnswers(b: Net, opId: u32, k: CardKey)
    requires k in b.cards
    ensures Cards.Handle(k, b.cards[k], CardGetSnapshot(opId)) == Cards.Effect(b.cards[k], [], [AnswerOf(b, opId, TheCard(k))])
  {
  }

  lemma CardDumps(b: Net, opId: u32, addr: SocketAddr, asked: seq<Who>, heard: nat, k: CardKey)
    requires Idle(b) && RoundOk(b, asked, heard) && k in b.cards && TheCard(k) !in asked
    ensures var n := Gathering(b, opId, addr, asked, heard);
      Wired(n) && Enabled(n, AtCard(k)) && Next(n, AtCard(k)) == Gathering(b, opId, addr, asked + [TheCard(k)], heard)
  {
    hide AccountsWaiting, CardsWaiting, AnswersOf, PendingOf, RoundOk, Idle, Wired, Cards.Handle;
    GatheringWired(b, opId, addr, asked, heard);
    AskedNext(b, opId, asked, heard, TheCard(k));
    NotAsked(b, opId, asked, k.account, k);
    CardAnswers(b, opId, k);
    CardWaits(b, opId, asked, k);
    assert [CardGetSnapshot(opId)][1..] == [];
  }

  /** A card that was not asked yet has its question in its mailbox; its account is there and gets nothing from it. */
  lemma CardWaits(b: Net, opId: u32, asked: seq<Who>, k: CardKey)
    requires Idle(b) && k in b.cards && TheCard(k) !in asked
    ensures k in CardsWaiting(b, opId, asked) && CardsWaiting(b, opId, asked)[k] == [CardGetSnapshot(opId)]
    ensures k.account in AccountsWaiting(b, opId, asked)
    ensures var mails := AccountsWaiting(b, opId, asked); mails[k.account := mails[k.account] + []] == mails
  {
    var mails := AccountsWaiting(b, opId, asked);
    assert mails[k.account] + [] == mails[k.account];
  }

  lemma HeardNext(b: Net, addr: SocketAddr, asked: seq<Who>, heard: nat)
    requires RoundOk(b, asked, heard) && heard < |asked|
    ensures var w, p, p' := asked[heard], PendingOf(b, addr, asked[..heard]), PendingOf(b, addr, asked[..heard + 1]);
      && Member(b, w)
      && p' == (match w
         case TheAccount(a) => p.(accounts := p.accounts + [AccountSnap(b, a)])
         case TheCard(k) => p.(cards := p.cards + [CardSnap(b, k)]))
  {
    var ws := asked[..heard + 1];
    assert ws[..|ws| - 1] == asked[..heard];
  }

  /** The counters are full exactly when everyone was heard. */
  lemma CountersFull(b: Net, addr: SocketAddr, asked: seq<Who>, heard: nat)
    requires RoundOk(b, asked, heard) && heard < |asked|
    ensures var p := PendingOf(b, addr, asked[..heard + 1]);
      |p.accounts| == p.expectedAccounts && |p.cards| == p.expectedCards <==> heard + 1 == |b.accounts| + |b.cards|
    ensures heard + 1 == |b.accounts| + |b.cards| ==>
      heard + 1 == |asked|
      && multiset(AccountList(b, Ids(asked))) == multiset(AccountSnaps(LedgerOf(b)))
      && multiset(CardList(b, Keys(asked))) == multiset(CardSnaps(LedgerOf(b)))
  {
    hide LedgerOf, AccountSnaps, CardSnaps;
    Sorted(b, asked[..heard + 1]);
    Sorted(b, asked);
    if heard + 1 == |b.accounts| + |b.cards| {
      Covers(Ids(asked), b.accounts.Keys);
      Covers(Keys(asked), b.cards.Keys);
      WholeDump(b, Ids(asked), Keys(asked));
    }
  }

  lemma RouterOnly(n: Net)
    requires Wired(n) && Enabled(n, AtRouter) && !n.mail[0].Execute?
    ensures Next(n, AtRouter) == n.(r := Routers.Handle(n.r, n.mail[0]), mail := n.mail[1..])
  {
    ReportsOnly(n.r, n.mail[0]);
    var r := Routers.Handle(n.r, n.mail[0]);
    assert Extend(r.accounts.Keys, n.accounts, Accounts.NEW_ACCOUNT) == n.accounts;
    assert Extend(r.cards.Keys, n.cards, Cards.NEW_CARD) == n.cards;
  }

  lemma Collected(r: Routers.Router, opId: u32, b: Net, w: Who, p: Routers.PendingSnapshot)
    requires r.snapshots == map[opId := p]
    ensures var p' := (match w
      case TheAccount(a) => p.(accounts := p.accounts + [AccountSnap(b, a)])
      case TheCard(k) => p.(cards := p.cards + [CardSnap(b, k)]));
      Routers.Handle(r, AnswerOf(b, opId, w)) == Routers.TryComplete(r.(snapshots := map[opId := p']), opId)
  {
    assert forall p' :: r.snapshots[opId := p'] == map[opId := p'];
    hide Routers.TryComplete;
  }

  /** The router reads an answer that is not the last. */
  lemma RouterHears(b: Net, opId: u32, addr: SocketAddr, asked: seq<Who>, heard: nat)
    requires Idle(b) && RoundOk(b, asked, heard) && heard < |asked| && heard + 1 < |b.accounts| + |b.cards|
    ensures var n := Gathering(b, opId, addr, asked, heard);
      Wired(n) && Enabled(n, AtRouter) && RoundOk(b, asked, heard + 1) && Next(n, AtRouter) == Gathering(b, opId, addr, asked, heard + 1)
  {
    hide Wired, AccountsWaiting, CardsWaiting, AnswersOf, PendingOf, AnswerOf, Next, Routers.Handle, Idle;
    var n := Gathering(b, opId, addr, asked, heard);
    GatheringWired(b, opId, addr, asked, heard);
    HeardNext(b, addr, asked, heard);
    CountersFull(b, addr, asked, heard);
    AnswersHead(b, opId, asked, heard);
    RouterOnly(n);
    Collected(n.r, opId, b, asked[heard], PendingOf(b, addr, asked[..heard]));
  }

  lemma AnswersHead(b: Net, opId: u32, asked: seq<Who>, heard: nat)
    requires heard < |asked|
    ensures var answers := AnswersOf(b, opId, asked[heard..]);
      answers != [] && answers[0] == AnswerOf(b, opId, asked[heard]) && answers[1..] == AnswersOf(b, opId, asked[heard + 1..])
    ensures heard + 1 == |asked| ==> AnswersOf(b, opId, asked[heard + 1..]) == []
    ensures !AnswerOf(b, opId, asked[heard]).Execute?
  {
  }

  /** The dump that the router reports. */
  function DumpEvent(b: Net, opId: u32, op: Op, asked: seq<Who>): ActorEvent
    requires op.GetDatabase?
  {
    OperationResultEvent(
      opId, op,
      DatabaseSnapshotResult(DatabaseSnapshot(op.addr, AccountList(b, Ids(asked)), CardList(b, Keys(asked)))), true, None)
  }

  lemma EveryoneAnswered(b: Net, opId: u32, asked: seq<Who>)
    requires Idle(b) && Queries.Distinct(asked) && (forall w :: w in asked ==> Member(b, w)) && |asked| == |b.accounts| + |b.cards|
    ensures AccountsWaiting(b, opId, asked) == b.r.accounts && CardsWaiting(b, opId, asked) == b.r.cards
  {
    hide Ids, Keys, Member, AccountsWaiting, CardsWaiting;
    Sorted(b, asked);
    SortedMembers(asked);
    Covers(Ids(asked), b.accounts.Keys);
    Covers(Keys(asked), b.cards.Keys);
    NobodyWaits(b, opId, asked);
  }

  lemma NobodyWaits(b: Net, opId: u32, asked: seq<Who>)
    requires Idle(b)
    requires (forall a :: a in b.accounts ==> TheAccount(a) in asked) && forall k :: k in b.cards ==> TheCard(k) in asked
    ensures AccountsWaiting(b, opId, asked) == b.r.accounts && CardsWaiting(b, opId, asked) == b.r.cards
  {
  }

  lemma Completed(r: Routers.Router, opId: u32, op: Op, p: Routers.PendingSnapshot)
    requires op.GetDatabase? && opId in r.operations && r.operations[opId] == op && r.snapshots == map[opId := p]
    requires |p.accounts| == p.expectedAccounts && |p.cards| == p.expectedCards
    ensures Routers.TryComplete(r, opId) == Routers.Emit(
      r.(snapshots := map[]),
      OperationResultEvent(opId, op, DatabaseSnapshotResult(DatabaseSnapshot(p.addr, p.accounts, p.cards)), true, None))
  {
    assert r.snapshots - {opId} == map[];
  }

  /** The router reads the last answer and reports. */
  lemma RouterFinishes(b: Net, opId: u32, op: Op, asked: seq<Who>, heard: nat)
    requires Idle(b) && RoundOk(b, asked, heard) && heard < |asked| && heard + 1 == |b.accounts| + |b.cards|
    requires op.GetDatabase? && opId in b.r.operations && b.r.operations[opId] == op
    ensures var n := Gathering(b, opId, op.addr, asked, heard);
      Wired(n) && Enabled(n, AtRouter) && Next(n, AtRouter) == b.(r := Routers.Emit(b.r, DumpEvent(b, opId, op, asked)))
  {
    hide Wired, AccountsWaiting, CardsWaiting, AnswersOf, AnswerOf, Next, Routers.Handle, Routers.TryComplete, RoundOk, Idle, PendingOf;
    var n := Gathering(b, opId, op.addr, asked, heard);
    GatheringWired(b, opId, op.addr, asked, heard);
    AnswersHead(b, opId, asked, heard);
    AllAsked(b, asked, heard);
    LastRound(b, opId, op, asked, heard);
    RouterOnly(n);
    LastHandled(n.r, b, opId, op, asked, heard);
  }

  lemma AllAsked(b: Net, asked: seq<Who>, heard: nat)
    requires RoundOk(b, asked, heard) && heard < |asked| && heard + 1 == |b.accounts| + |b.cards|
    ensures heard + 1 == |asked|
  {
    Sorted(b, asked);
  }

  lemma LastHandled(r: Routers.Router, b: Net, opId: u32, op: Op, asked: seq<Who>, heard: nat)
    requires Idle(b) && RoundOk(b, asked, heard) && heard < |asked| && heard + 1 == |b.accounts| + |b.cards|
    requires op.GetDatabase? && opId in r.operations && r.operations[opId] == op
    requires r.snapshots == map[opId := PendingOf(b, op.addr, asked[..heard])]
    ensures Routers.Handle(r, AnswerOf(b, opId, asked[heard])) ==
      Routers.Emit(r.(snapshots := map[]), DumpEvent(b, opId, op, asked))
  {
    hide AccountsWaiting, CardsWaiting, Routers.Handle, Routers.TryComplete, RoundOk, Idle, PendingOf;
    HeardNext(b, op.addr, asked, heard);
    CountersFull(b, op.addr, asked, heard);
    AllAsked(b, asked, heard);
    LastRound(b, opId, op, asked, heard);
    Collected(r, opId, b, asked[heard], PendingOf(b, op.addr, asked[..heard]));
    var p := PendingOf(b, op.addr, asked);
    Completed(r.(snapshots := map[opId := p]), opId, op, p);
  }

  lemma LastRound(b: Net, opId: u32, op: Op, asked: seq<Who>, heard: nat)
    requires Idle(b) && RoundOk(b, asked, heard) && heard + 1 == |asked| == |b.accounts| + |b.cards| && op.GetDatabase?
    ensures asked[..heard + 1] == asked && b.mail == [] && b.r.snapshots == map[]
    ensures AccountsWaiting(b, opId, asked) == b.r.accounts && CardsWaiting(b, opId, asked) == b.r.cards
    ensures PendingOf(b, op.addr, asked) ==
      Routers.PendingSnapshot(op.addr, |b.accounts|, |b.cards|, AccountList(b, Ids(asked)), CardList(b, Keys(asked)))
  {
    EveryoneAnswered(b, opId, asked);
  }

  // ---- routing, and any delivery ----

  lemma RoutesDump(n0: Net, opId: u32, op: Op)
    requires Idle(n0) && op.GetDatabase? && (n0.accounts != map[] || n0.cards != map[])
    requires Wired(InRouter(n0, Execute(opId, op)))
    ensures var b := Recorded(n0, opId, op);
      RoundOk(b, [], 0) && Next(InRouter(n0, Execute(opId, op)), AtRouter) == Gathering(b, opId, op.addr, [], 0)
  {
    hide AccountsWaiting, CardsWaiting, Routers.ToCards, Routers.ToAllAccounts, Idle, Wired, Routers.Dispatch, RoundOk, PendingOf;
    var b := Recorded(n0, opId, op);
    DumpStarts(n0, opId, op);
    DispatchesDump(n0.r, opId, op);
    DumpMailOf(b.r.(snapshots := map[opId := PendingOf(b, op.addr, [])]), b, opId);
    DumpExtends(b, opId);
  }

  lemma DispatchesDump(r: Routers.Router, opId: u32, op: Op)
    requires op.GetDatabase? && |r.accounts| + |r.cards| > 0
    ensures var pending := Routers.PendingSnapshot(op.addr, |r.accounts|, |r.cards|, [], []);
      Routers.Dispatch(r, opId, op) == Routers.ToCards(
        Routers.ToAllAccounts(
          r.(operations := r.operations[opId := op], snapshots := r.snapshots[opId := pending]),
          AccountGetSnapshot(opId)),
        r.cards.Keys,
        CardGetSnapshot(opId))
  {
  }

  lemma DumpStarts(n0: Net, opId: u32, op: Op)
    requires Idle(n0) && op.GetDatabase? && (n0.accounts != map[] || n0.cards != map[])
    ensures var b := Recorded(n0, opId, op);
      && RoundOk(b, [], 0) && b.mail == [] && AnswersOf(b, opId, [][0..]) == [] && Wired(b)
      && b.r.snapshots[opId := PendingOf(b, op.addr, [])] == map[opId := PendingOf(b, op.addr, [])]
      && PendingOf(b, op.addr, [][..0]) == PendingOf(b, op.addr, [])
      && PendingOf(b, op.addr, []) == Routers.PendingSnapshot(op.addr, |b.r.accounts|, |b.r.cards|, [], [])
      && |n0.r.accounts| + |n0.r.cards| > 0
      && (forall a :: a in b.r.accounts ==> b.r.accounts[a] == []) && forall k :: k in b.r.cards ==> b.r.cards[k] == []
  {
    Sizes(n0);
  }

  lemma Sizes(n: Net)
    requires Wired(n)
    ensures |n.r.accounts| == |n.accounts| && |n.r.cards| == |n.cards|
    ensures n.accounts != map[] ==> |n.accounts| > 0
    ensures n.cards != map[] ==> |n.cards| > 0
  {
    assert |n.r.accounts| == |n.r.accounts.Keys| && |n.accounts| == |n.accounts.Keys|;
    assert |n.r.cards| == |n.r.cards.Keys| && |n.cards| == |n.cards.Keys|;
  }

  lemma DumpExtends(b: Net, opId: u32)
    requires Wired(b)
    ensures Extend(AccountsWaiting(b, opId, []).Keys, b.accounts, Accounts.NEW_ACCOUNT) == b.accounts
    ensures Extend(CardsWaiting(b, opId, []).Keys, b.cards, Cards.NEW_CARD) == b.cards
  {
  }

  lemma DumpMailOf(r: Routers.Router, b: Net, opId: u32)
    requires r.accounts == b.r.accounts && r.cards == b.r.cards
    requires forall a :: a in b.r.accounts ==> b.r.accounts[a] == []
    requires forall k :: k in b.r.cards ==> b.r.cards[k] == []
    ensures Routers.ToCards(Routers.ToAllAccounts(r, AccountGetSnapshot(opId)), r.cards.Keys, CardGetSnapshot(opId)) ==
      r.(accounts := AccountsWaiting(b, opId, []), cards := CardsWaiting(b, opId, []))
  {
    assert [] + [AccountGetSnapshot(opId)] == [AccountGetSnapshot(opId)];
    assert [] + [CardGetSnapshot(opId)] == [CardGetSnapshot(opId)];
    assert Routers.ToAllAccounts(r, AccountGetSnapshot(opId)).accounts == AccountsWaiting(b, opId, []);
    assert Routers.ToCards(r, r.cards.Keys, CardGetSnapshot(opId)).cards == CardsWaiting(b, opId, []);
  }

  /** The report of a complete dump finishes the operation. */
  lemma DumpDone(n0: Net, opId: u32, op: Op, asked: seq<Who>)
    requires Idle(n0) && op.GetDatabase?
    requires multiset(AccountList(n0, Ids(asked))) == multiset(AccountSnaps(LedgerOf(n0)))
    requires multiset(CardList(n0, Keys(asked))) == multiset(CardSnaps(LedgerOf(n0)))
    ensures var b := Recorded(n0, opId, op);
      Rooted(LedgerOf(n0)) && Finished(n0, opId, op, b.(r := Routers.Emit(b.r, DumpEvent(b, opId, op, asked))))
  {
    hide AccountSnaps, CardSnaps, Ids, Keys, LedgerOf;
    var b := Recorded(n0, opId, op);
    IdleRooted(n0);
    SameLedger(n0, b.(r := Routers.Emit(b.r, DumpEvent(b, opId, op, asked))));
    assert AccountList(b, Ids(asked)) == AccountList(n0, Ids(asked));
    assert CardList(b, Keys(asked)) == CardList(n0, Keys(asked));
  }

  lemma EmptyDump(n0: Net, opId: u32, op: Op)
    requires Idle(n0) && op.GetDatabase? && n0.accounts == map[] && n0.cards == map[]
    requires Wired(InRouter(n0, Execute(opId, op)))
    ensures Rooted(LedgerOf(n0)) && Finished(n0, opId, op, Next(InRouter(n0, Execute(opId, op)), AtRouter))
  {
    hide Finished, Idle, Rooted, LedgerOf, AccountSnaps, CardSnaps, Wired;
    EmptyLists(n0);
    DumpDone(n0, opId, op, []);
    EmptyRoutes(n0, opId, op);
  }

  lemma EmptyLists(n0: Net)
    requires n0.accounts == map[] && n0.cards == map[]
    ensures multiset(AccountList(n0, Ids([]))) == multiset(AccountSnaps(LedgerOf(n0)))
    ensures multiset(CardList(n0, Keys([]))) == multiset(CardSnaps(LedgerOf(n0)))
  {
    assert LedgerOf(n0) == EMPTY_LEDGER;
    assert AccountSnaps(EMPTY_LEDGER) == {} && CardSnaps(EMPTY_LEDGER) == {};
  }

  lemma EmptyRoutes(n0: Net, opId: u32, op: Op)
    requires Idle(n0) && op.GetDatabase? && n0.accounts == map[] && n0.cards == map[]
    requires Wired(InRouter(n0, Execute(opId, op)))
    ensures var b := Recorded(n0, opId, op);
      Next(InRouter(n0, Execute(opId, op)), AtRouter) == b.(r := Routers.Emit(b.r, DumpEvent(b, opId, op, [])))
  {
    Sizes(n0);
    hide Idle, Wired;
    var b := Recorded(n0, opId, op);
    assert AccountList(b, []) == [] && CardList(b, []) == [];
    assert Extend(b.r.accounts.Keys, n0.accounts, Accounts.NEW_ACCOUNT) == n0.accounts;
    assert Extend(b.r.cards.Keys, n0.cards, Cards.NEW_CARD) == n0.cards;
  }

  lemma GatheringSteps(n0: Net, opId: u32, op: Op, asked: seq<Who>, heard: nat, l: Label)
    requires Idle(n0) && op.GetDatabase? && RoundOk(Recorded(n0, opId, op), asked, heard) && !l.Submit?
    requires Enabled(Gathering(Recorded(n0, opId, op), opId, op.addr, asked, heard), l)
    ensures var n := Gathering(Recorded(n0, opId, op), opId, op.addr, asked, heard);
      Wired(n) && Rooted(LedgerOf(n0)) && (Dumping(n0, opId, op, Next(n, l)) || Finished(n0, opId, op, Next(n, l)))
  {
    hide Gathering, Next, Finished, RoundOk, Wired, Recorded, LedgerOf, Ids, Keys, AccountSnaps, CardSnaps;
    var b := Recorded(n0, opId, op);
    RecordedIs(n0, opId, op);
    GatheringWired(b, opId, op.addr, asked, heard);
    RoundNext(b, asked, heard);
    IdleRooted(n0);
    if l.AtAccount? {
      AccountDumps(b, opId, op.addr, asked, heard, l.a);
      RoundAsked(b, asked, heard, TheAccount(l.a));
    } else if l.AtCard? {
      CardDumps(b, opId, op.addr, asked, heard, l.k);
      RoundAsked(b, asked, heard, TheCard(l.k));
    } else if heard + 1 < |b.accounts| + |b.cards| {
      RouterHears(b, opId, op.addr, asked, heard);
    } else {
      RouterFinishes(b, opId, op, asked, heard);
      CountersFull(b, op.addr, asked, heard);
      SameLists(n0, b, asked);
      DumpDone(n0, opId, op, asked);
    }
  }

  lemma RecordedIs(n0: Net, opId: u32, op: Op)
    requires Idle(n0)
    ensures var b := Recorded(n0, opId, op);
      Idle(b) && opId in b.r.operations && b.r.operations[opId] == op && b.accounts == n0.accounts && b.cards == n0.cards
  {
  }

  lemma RoundNext(b: Net, asked: seq<Who>, heard: nat)
    requires RoundOk(b, asked, heard)
    ensures heard + 1 <= |b.accounts| + |b.cards| && heard <= |asked|
  {
  }

  lemma RoundAsked(b: Net, asked: seq<Who>, heard: nat, w: Who)
    requires RoundOk(b, asked, heard) && Member(b, w) && w !in asked
    ensures RoundOk(b, asked + [w], heard)
  {
  }

  lemma SameLists(n0: Net, b: Net, asked: seq<Who>)
    requires b.accounts == n0.accounts && b.cards == n0.cards
    ensures LedgerOf(b) == LedgerOf(n0)
    ensures AccountList(b, Ids(asked)) == AccountList(n0, Ids(asked)) && CardList(b, Keys(asked)) == CardList(n0, Keys(asked))
  {
    hide Ids, Keys;
  }

  lemma DumpSteps(n0: Net, opId: u32, op: Op, n: Net, l: Label)
    requires Idle(n0) && op.GetDatabase? && Dumping(n0, opId, op, n) && Wired(n) && Enabled(n, l) && !l.Submit?
    ensures Rooted(LedgerOf(n0))
    ensures Dumping(n0, opId, op, Next(n, l)) || Finished(n0, opId, op, Next(n, l))
  {
    hide Gathering, Next, Finished, Wired, Recorded, LedgerOf;
    IdleRooted(n0);
    if n == InRouter(n0, Execute(opId, op)) {
      FromRouter(n0, Execute(opId, op));
      if n0.accounts == map[] && n0.cards == map[] {
        EmptyDump(n0, opId, op);
      } else {
        RoutesDump(n0, opId, op);
      }
    } else {
      var asked, heard: nat :| RoundOk(Recorded(n0, opId, op), asked, heard) &&
        n == Gathering(Recorded(n0, opId, op), opId, op.addr, asked, heard);
      GatheringSteps(n0, opId, op, asked, heard, l);
    }
  }

  lemma DumpLive(n0: Net, opId: u32, op: Op, n: Net) returns (l: Label)
    requires Idle(n0) && op.GetDatabase? && Dumping(n0, opId, op, n)
    ensures Wired(n) && Enabled(n, l) && !l.Submit?
  {
    hide Gathering, Wired, Recorded;
    if n == InRouter(n0, Execute(opId, op)) {
      FromRouter(n0, Execute(opId, op));
      l := AtRouter;
    } else {
      var b := Recorded(n0, opId, op);
      RecordedIs(n0, opId, op);
      var asked, heard: nat :| RoundOk(b, asked, heard) && n == Gathering(b, opId, op.addr, asked, heard);
      GatheringWired(b, opId, op.addr, asked, heard);
      if heard < |asked| {
        l := AtRouter;
      } else {
        var w := Silent(b, asked, heard);
        l := if w.TheAccount? then AtAccount(w.a) else AtCard(w.k);
      }
    }
  }

  lemma Silent(b: Net, asked: seq<Who>, heard: nat) returns (w: Who)
    requires RoundOk(b, asked, heard) && heard == |asked|
    ensures Member(b, w) && w !in asked
  {
    Sorted(b, asked);
    SortedMembers(asked);
    if |Ids(asked)| < |b.accounts| {
      var a := Missing(Ids(asked), b.accounts.Keys);
      w := TheAccount(a);
    } else {
      var k := Missing(Keys(asked), b.cards.Keys);
      w := TheCard(k);
    }
  }

  lemma Missing<T>(xs: seq<T>, s: set<T>) returns (x: T)
    requires Queries.Distinct(xs) && |xs| < |s|
    ensures x in s && x !in xs
  {
    var elems := set y | y in xs;
    Queries.DistinctSize(xs);
    if s <= elems {
      Queries.SubsetSize(s, elems);
    }
    x :| x in s && x !in elems;
  }
}
