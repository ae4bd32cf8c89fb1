/** Sequences without repetitions, and their rearrangements. */
module Sequences {

  ghost predicate NoRepeats<T>(s: seq<T>) {
    forall i, j | 0 <= i < j < |s| :: s[i] != s[j]
  }

  /** A rearrangement of a sequence without repetitions has none. */
  lemma Rearranged<T>(s: seq<T>, t: seq<T>)
    requires NoRepeats(s) && multiset(t) == multiset(s)
    ensures NoRepeats(t) && |t| == |s| && forall a :: a in t <==> a in s
  {
    assert |multiset(t)| == |multiset(s)|;
    forall a
      ensures a in t <==> a in s
    {
      assert a in multiset(t) <==> a in multiset(s);
    }
    forall i, j | 0 <= i < j < |t|
      ensures t[i] != t[j]
    {
      if t[i] == t[j] {
        Twice(t, i, j);
        Once(s, t[i]);
      }
    }
  }

  lemma Twice<T>(s: seq<T>, i: nat, j: nat)
    requires i < j < |s| && s[i] == s[j]
    ensures multiset(s)[s[i]] >= 2
  {
    assert s == s[..j] + s[j..];
    assert multiset(s)[s[i]] == multiset(s[..j])[s[i]] + multiset(s[j..])[s[i]];
    assert s[..j][i] == s[i] && s[j..][0] == s[i];
    assert s[i] in s[..j] && s[i] in s[j..];
  }

  lemma {:induction false} Once<T>(s: seq<T>, a: T)
    requires NoRepeats(s)
    ensures multiset(s)[a] <= 1
  {
    if s != [] {
      assert s == [s[0]] + s[1..];
      Once(s[1..], a);
      if a == s[0] {
        assert a !in s[1..];
      }
    }
  }
}
