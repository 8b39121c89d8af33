/** Counting the elements of a sequence that satisfy a predicate, and adding up their weights. */
module Counting {

  ghost function Count<T(!new)>(s: seq<T>, p: T -> bool): nat {
    if s == [] then 0 else (if p(s[0]) then 1 else 0) + Count(s[1..], p)
  }

  lemma {:induction false} CountAppend<T(!new)>(s: seq<T>, t: seq<T>, p: T -> bool)
    ensures Count(s + t, p) == Count(s, p) + Count(t, p)
  {
    if s == [] {
      assert s + t == t;
    } else {
      assert (s + t)[1..] == s[1..] + t;
      CountAppend(s[1..], t, p);
    }
  }

  /** Nothing is counted exactly when nothing satisfies the predicate. */
  lemma {:induction false} CountZero<T(!new)>(s: seq<T>, p: T -> bool)
    ensures Count(s, p) == 0 <==> forall m :: m in s ==> !p(m)
  {
    if s != [] {
      CountZero(s[1..], p);
      assert forall m :: m in s <==> m == s[0] || m in s[1..];
    }
  }

  function Weigh<T>(mail: seq<T>, weight: T -> nat): nat {
    if mail == [] then 0 else weight(mail[0]) + Weigh(mail[1..], weight)
  }

  lemma {:induction false} WeighAppend<T>(mail: seq<T>, more: seq<T>, weight: T -> nat)
    ensures Weigh(mail + more, weight) == Weigh(mail, weight) + Weigh(more, weight)
  {
    if mail == [] {
      assert mail + more == more;
    } else {
      assert (mail + more)[1..] == mail[1..] + more;
      WeighAppend(mail[1..], more, weight);
    }
  }

  lemma CountNothing<T(!new)>(p: T -> bool)
    ensures Count([], p) == 0
  {
  }

  lemma WeighNothing<T>(weight: T -> nat)
    ensures Weigh([], weight) == 0
  {
  }

  lemma WeighOne<T>(m: T, weight: T -> nat)
    ensures Weigh([m], weight) == weight(m)
  {
    assert [m][1..] == [];
  }
}
