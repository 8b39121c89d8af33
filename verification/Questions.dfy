/**
 A query or a bill among other traffic: every card the account had when the operation was
 routed is asked once, and its answer is counted once.
 */
module Questions {
  import opened Wrappers
  import opened Protocol
  import opened Messages
  import opened Counting
  import opened Network
  import opened Traces
  import opened Tokens
  import Accounts
  import Routers

  /** The actors asked by each query and each dump, recorded when it is routed. */
  datatype Asked = Asked(accounts: map<u32, set<u64>>, cards: map<u32, set<CardKey>>)

  const NOBODY := Asked(map[], map[])

  function AskedCards(g: Asked, id: u32): set<CardKey> {
    if id in g.cards then g.cards[id] else {}
  }

  function AskedAccounts(g: Asked, id: u32): set<u64> {
    if id in g.accounts then g.accounts[id] else {}
  }

  function NextAsked(n: Net, l: Label, g: Asked): Asked
    requires Enabled(n, l)
  {
    if !l.AtRouter? || !n.mail[0].Execute? then g
    else
      match n.mail[0].operation
      case AccountQuery(a) => g.(cards := g.cards[n.mail[0].opId := Routers.CardsOf(n.r, a)])
      case Bill(a, _) => g.(cards := g.cards[n.mail[0].opId := Routers.CardsOf(n.r, a)])
      case GetDatabase(_) =>
        Asked(g.accounts[n.mail[0].opId := n.r.accounts.Keys], g.cards[n.mail[0].opId := n.r.cards.Keys])
      case _ => g
  }

  ghost function QueryOf(id: u32): CardMsg -> bool {
    (m: CardMsg) => m.QueryCardState? && m.opId == id
  }

  ghost function ReplyFrom(id: u32, c: u64): AccountMsg -> bool {
    (m: AccountMsg) => m.CardQueryReply? && m.opId == id && m.cardId == c
  }

  ghost function PairFor(c: u64): ((u64, real)) -> bool {
    (p: (u64, real)) => p.0 == c
  }

  /** How often card `c` is on the lists collected for `id`: while pending, on the way to the router, and in events. */
  ghost function PendingCount(p: Option<Accounts.PendingQuery>, id: u32, c: u64): nat {
    if Holds(p, id) then Count(p.value.perCardSpent, PairFor(c)) else 0
  }

  ghost function SpentMail(id: u32, c: u64): RouterMsg -> nat {
    (m: RouterMsg) => if m.AccountQueryCompleted? && m.opId == id then Count(m.perCardSpent, PairFor(c)) else 0
  }

  ghost function SpentEvent(id: u32, c: u64): ActorEvent -> nat {
    (e: ActorEvent) =>
      if e.OperationResultEvent? && e.opId == id && e.result.AccountQueryResult? then Count(e.result.perCardSpent, PairFor(c)) else 0
  }

  /** Where the question to card `k` is: unasked, on its way back, or counted. */
  ghost function Part(n: Net, id: u32, k: CardKey): nat {
    Count(CardMail(n.r, k), QueryOf(id))
    + Count(AccountMail(n.r, k.account), ReplyFrom(id, k.card))
    + PendingCount(PendingAt(n, k.account), id, k.card)
    + Weigh(n.mail, SpentMail(id, k.card))
    + Weigh(n.r.events, SpentEvent(id, k.card))
  }

  ghost predicate PartsOk(n: Net, g: Asked, id: u32, a: u64) {
    forall k: CardKey :: k.account == a ==> Part(n, id, k) == if k in AskedCards(g, id) then 1 else 0
  }

  /** The lists have the lengths they should have. */
  ghost predicate SizesOk(n: Net, g: Asked, id: u32, a: u64) {
    var size := |AskedCards(g, id)|;
    && (forall m :: m in AccountMail(n.r, a) && StartOf(id)(m) ==> m.numCards == size)
    && (Holds(PendingAt(n, a), id) ==>
      var p := PendingAt(n, a).value; p.remaining > 0 && |p.perCardSpent| + p.remaining == size)
    && (forall m :: m in n.mail && m.AccountQueryCompleted? && m.opId == id ==> |m.perCardSpent| == size)
    && (forall e :: e in n.r.events && EventOf(id)(e) && e.result.AccountQueryResult? ==> |e.result.perCardSpent| == size)
  }

  /** No answer overtakes the start of its query. */
  ghost predicate InOrder(am: seq<AccountMsg>, id: u32) {
    forall i, j :: 0 <= i < j < |am| && am[i].CardQueryReply? && am[i].opId == id ==> !StartOf(id)(am[j])
  }

  /** Nobody is asked before the operation is routed, and only the account's own cards are. */
  ghost predicate AskedOk(n: Net, ops: Submitted, g: Asked, id: u32) {
    && (forall m :: m in n.mail && m.Execute? && m.opId == id ==> id !in g.cards && id !in g.accounts)
    && (id in ops && IsQuery(ops[id]) ==> forall k :: k in AskedCards(g, id) ==> k.account == ops[id].accountId)
  }

  ghost predicate QueryOk(n: Net, ops: Submitted, g: Asked, id: u32)
    requires id in ops && IsQuery(ops[id])
  {
    var a := ops[id].accountId;
    PartsOk(n, g, id, a) && SizesOk(n, g, id, a) && InOrder(AccountMail(n.r, a), id)
  }

  // ---- pigeonhole ----

  lemma {:induction false} SeenSize(spent: seq<(u64, real)>, a: u64)
    requires forall c :: Count(spent, PairFor(c)) <= 1
    ensures |set p | p in spent :: CardKey(a, p.0)| == |spent|
  {
    if spent == [] {
      assert (set p | p in spent :: CardKey(a, p.0)) == {};
    } else {
      var head, rest := spent[0], spent[1..];
      forall c ensures Count(rest, PairFor(c)) <= 1 {
        assert Count(spent, PairFor(c)) <= 1;
      }
      SeenSize(rest, a);
      var seen := set p | p in rest :: CardKey(a, p.0);
      assert Count(spent, PairFor(head.0)) == 1 + Count(rest, PairFor(head.0));
      CountZero(rest, PairFor(head.0));
      assert (set p | p in spent :: CardKey(a, p.0)) == seen + {CardKey(a, head.0)};
    }
  }

  /** A list as long as the number of cards asked, that names asked cards only and none twice, names them all. */
  lemma AllCounted(spent: seq<(u64, real)>, asked: set<CardKey>, a: u64)
    requires forall k :: k in asked ==> k.account == a
    requires forall c :: Count(spent, PairFor(c)) <= if CardKey(a, c) in asked then 1 else 0
    requires |spent| == |asked|
    ensures forall k :: k in asked ==> Count(spent, PairFor(k.card)) == 1
  {
    SeenSize(spent, a);
    var seen := set p | p in spent :: CardKey(a, p.0);
    assert seen <= asked by {
      forall p | p in spent ensures CardKey(a, p.0) in asked {
        CountIn(spent, PairFor(p.0), p);
      }
    }
    Routers.SameSize(seen, asked);
    forall k | k in asked ensures Count(spent, PairFor(k.card)) == 1 {
      var p :| p in spent && CardKey(a, p.0) == k;
      CountIn(spent, PairFor(k.card), p);
      assert Count(spent, PairFor(k.card)) <= if CardKey(a, k.card) in asked then 1 else 0;
    }
  }

  lemma {:induction false} WeighMember<T>(s: seq<T>, w: T -> nat, x: T)
    requires x in s
    ensures w(x) <= Weigh(s, w)
  {
    if x != s[0] {
      assert x in s[1..];
      WeighMember(s[1..], w, x);
    }
  }

  lemma {:induction false} WeighZero<T>(s: seq<T>, w: T -> nat)
    requires forall x :: x in s ==> w(x) == 0
    ensures Weigh(s, w) == 0
  {
    if s != [] {
      WeighZero(s[1..], w);
    }
  }

  // ---- the answer that is read is expected ----

  /** Once the query is answered or on its way back, no card's answer is left. */
  lemma NothingLeft(n: Net, ops: Submitted, g: Asked, id: u32, spent: seq<(u64, real)>)
    requires id in ops && IsQuery(ops[id]) && QueryOk(n, ops, g, id) && AskedOk(n, ops, g, id)
    requires |spent| == |AskedCards(g, id)|
    requires forall c :: Count(spent, PairFor(c)) <= Weigh(n.mail, SpentMail(id, c)) + Weigh(n.r.events, SpentEvent(id, c)) + PendingCount(PendingAt(n, ops[id].accountId), id, c)
    ensures forall k: CardKey :: k.account == ops[id].accountId ==>
      Count(CardMail(n.r, k), QueryOf(id)) == 0 && Count(AccountMail(n.r, k.account), ReplyFrom(id, k.card)) == 0
    ensures forall k :: k in AskedCards(g, id) ==> Count(spent, PairFor(k.card)) == 1
  {
    var a, asked := ops[id].accountId, AskedCards(g, id);
    forall c ensures Count(spent, PairFor(c)) <= if CardKey(a, c) in asked then 1 else 0 {
      assert Part(n, id, CardKey(a, c)) == if CardKey(a, c) in asked then 1 else 0;
    }
    AllCounted(spent, asked, a);
    forall k: CardKey | k.account == a
      ensures Count(CardMail(n.r, k), QueryOf(id)) == 0 && Count(AccountMail(n.r, k.account), ReplyFrom(id, k.card)) == 0
    {
      assert Part(n, id, k) == if k in asked then 1 else 0;
      if k in asked {
        assert Count(spent, PairFor(k.card)) == 1;
      }
    }
  }

  lemma CompletedLeavesNothing(n: Net, ops: Submitted, g: Asked, id: u32, m: RouterMsg)
    requires id in ops && IsQuery(ops[id]) && QueryOk(n, ops, g, id) && AskedOk(n, ops, g, id)
    requires m in n.mail && m.AccountQueryCompleted? && m.opId == id
    ensures forall k: CardKey :: k.account == ops[id].accountId ==>
      Count(CardMail(n.r, k), QueryOf(id)) == 0 && Count(AccountMail(n.r, k.account), ReplyFrom(id, k.card)) == 0
  {
    forall c ensures Count(m.perCardSpent, PairFor(c)) <= Weigh(n.mail, SpentMail(id, c)) {
      WeighMember(n.mail, SpentMail(id, c), m);
    }
    NothingLeft(n, ops, g, id, m.perCardSpent);
  }

  lemma AnsweredLeavesNothing(n: Net, ops: Submitted, g: Asked, id: u32, e: ActorEvent)
    requires id in ops && IsQuery(ops[id]) && QueryOk(n, ops, g, id) && AskedOk(n, ops, g, id)
    requires e in n.r.events && EventOf(id)(e) && e.result.AccountQueryResult?
    ensures forall k: CardKey :: k.account == ops[id].accountId ==>
      Count(CardMail(n.r, k), QueryOf(id)) == 0 && Count(AccountMail(n.r, k.account), ReplyFrom(id, k.card)) == 0
    ensures forall k :: k in AskedCards(g, id) ==> Count(e.result.perCardSpent, PairFor(k.card)) == 1
    ensures |e.result.perCardSpent| == |AskedCards(g, id)|
  {
    forall c ensures Count(e.result.perCardSpent, PairFor(c)) <= Weigh(n.r.events, SpentEvent(id, c)) {
      WeighMember(n.r.events, SpentEvent(id, c), e);
    }
    NothingLeft(n, ops, g, id, e.result.perCardSpent);
  }

  /** The account only ever reads answers to the query it has pending. */
  lemma RepliesExpected(n: Net, ops: Submitted, g: Asked, a: u64)
    requires Wired(n) && Traced(n, ops) && Once(n, ops) && Enabled(n, AtAccount(a))
    requires forall id :: id in ops ==> AskedOk(n, ops, g, id) && (IsQuery(ops[id]) ==> QueryOk(n, ops, g, id))
    ensures Expected(n, a)
  {
    var m := n.r.accounts[a][0];
    if m.CardQueryReply? {
      var id := m.opId;
      HeadOfAccount(n, ops, a);
      assert AskedOk(n, ops, g, id) && QueryOk(n, ops, g, id);
      ReplyIsDue(n, ops, g, id, a, m);
    }
  }

  lemma HeadOfAccount(n: Net, ops: Submitted, a: u64)
    requires Wired(n) && Traced(n, ops) && Enabled(n, AtAccount(a))
    ensures AccountTrace(ops)(a, n.r.accounts[a][0])
  {
    assert n.r.accounts[a][0] in n.r.accounts[a];
  }

  lemma ReplyIsDue(n: Net, ops: Submitted, g: Asked, id: u32, a: u64, m: AccountMsg)
    requires Wired(n) && Traced(n, ops) && Enabled(n, AtAccount(a)) && m == n.r.accounts[a][0]
    requires id in ops && QueryOn(ops[id], a) && Places(n, id, ops[id]) == 1
    requires AskedOk(n, ops, g, id) && QueryOk(n, ops, g, id)
    requires m.CardQueryReply? && m.opId == id
    ensures Holds(PendingAt(n, a), id)
  {
    hide Traced, Wired, PartsOk, SizesOk, Part;
    var k := CardKey(a, m.cardId);
    CountIn(AccountMail(n.r, a), ReplyFrom(id, m.cardId), m);
    AskedOf(n, g, id, a, k);
    NoStartBehind(AccountMail(n.r, a), id);
    if !Holds(PendingAt(n, a), id) {
      if Count(n.mail, About(id)) > 0 {
        var r := Witness(n.mail, About(id));
        AboutQuery(n, ops, id, r);
        if r.AccountQueryCompleted? {
          CompletedLeavesNothing(n, ops, g, id, r);
        }
      } else if Count(n.r.events, EventOf(id)) > 0 {
        var e := Witness(n.r.events, EventOf(id));
        AnswerOfQuery(n, ops, id, e);
        AnsweredLeavesNothing(n, ops, g, id, e);
      }
    }
  }

  lemma NoStartBehind(am: seq<AccountMsg>, id: u32)
    requires InOrder(am, id) && am != [] && am[0].CardQueryReply? && am[0].opId == id
    ensures Count(am, StartOf(id)) == 0
  {
    CountZero(am, StartOf(id));
  }

  lemma AskedOf(n: Net, g: Asked, id: u32, a: u64, k: CardKey)
    requires PartsOk(n, g, id, a) && k.account == a && Count(AccountMail(n.r, a), ReplyFrom(id, k.card)) > 0
    ensures k in AskedCards(g, id)
  {
    assert Part(n, id, k) == if k in AskedCards(g, id) then 1 else 0;
  }

  lemma Witness<T(!new)>(s: seq<T>, p: T -> bool) returns (x: T)
    requires Count(s, p) > 0
    ensures x in s && p(x)
  {
    CountZero(s, p);
    x :| x in s && p(x);
  }

  lemma AboutQuery(n: Net, ops: Submitted, id: u32, m: RouterMsg)
    requires Traced(n, ops) && m in n.mail && About(id)(m) && id in ops && IsQuery(ops[id])
    ensures m.Execute? || m.AccountQueryCompleted?
  {
    assert RouterTrace(ops)(m);
  }

  lemma AnswerOfQuery(n: Net, ops: Submitted, id: u32, e: ActorEvent)
    requires Traced(n, ops) && e in n.r.events && EventOf(id)(e) && id in ops && IsQuery(ops[id])
    ensures e.result.AccountQueryResult?
  {
    assert EventTrace(ops, e);
  }
}
