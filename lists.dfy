/** Python's `list.remove(x)`: the first element equal to `x` is taken out. */
module Lists {

  function RemoveFirst<T(==)>(s: seq<T>, x: T): (r: seq<T>)
    requires x in s
  {
    if s[0] == x then s[1..] else [s[0]] + RemoveFirst(s[1..], x)
  }

  /** Removing `x` takes exactly one copy of `x` out of the list and keeps
      the rest, so the list is one shorter. */
  lemma {:induction false} RemoveFirstMultiset<T>(s: seq<T>, x: T)
    requires x in s
    ensures multiset(RemoveFirst(s, x)) == multiset(s) - multiset{x}
    ensures |RemoveFirst(s, x)| == |s| - 1
  {
    if s[0] == x {
      assert s == [s[0]] + s[1..];
    } else {
      RemoveFirstMultiset(s[1..], x);
      assert s == [s[0]] + s[1..];
    }
  }

  /** `picks[i]` is a valid index into a list that started with `n` elements
      and has already lost `i` of them. */
  ghost predicate ValidPicks(n: nat, picks: seq<nat>) {
    forall i :: 0 <= i < |picks| ==> picks[i] + i < n
  }

  /** Dropping the first pick leaves valid picks for the shorter list. */
  lemma ValidPicksTail(n: nat, picks: seq<nat>)
    requires ValidPicks(n, picks) && picks != []
    ensures n > 0 && ValidPicks(n - 1, picks[1..])
  {
    assert picks[0] + 0 < n;
    forall i | 0 <= i < |picks[1..]| ensures picks[1..][i] + i < n - 1 {
      assert picks[1..][i] == picks[i + 1];
    }
  }

  /** Repeated `s.remove(choice(s))`, where the i-th choice is the element at
      index `picks[i]` of the list as it is at that moment. */
  function RemovePicks<T(==)>(s: seq<T>, picks: seq<nat>): (r: seq<T>)
    requires ValidPicks(|s|, picks)
    decreases |picks|
  {
    if picks == [] then s
    else
      ValidPicksTail(|s|, picks);
      RemoveFirstMultiset(s, s[picks[0]]);
      RemovePicks(RemoveFirst(s, s[picks[0]]), picks[1..])
  }

  /** Each pick removes one element: what remains is a sub-multiset of the
      original list, shorter by exactly the number of picks. */
  lemma {:induction false} RemovePicksShape<T>(s: seq<T>, picks: seq<nat>)
    requires ValidPicks(|s|, picks)
    ensures |RemovePicks(s, picks)| == |s| - |picks|
    ensures multiset(RemovePicks(s, picks)) <= multiset(s)
    decreases |picks|
  {
    if picks != [] {
      ValidPicksTail(|s|, picks);
      RemoveFirstMultiset(s, s[picks[0]]);
      RemovePicksShape(RemoveFirst(s, s[picks[0]]), picks[1..]);
    }
  }
}
