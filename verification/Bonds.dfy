/** Lists of bonds read as ledgers: who holds how much, and what the list adds up to. */
module Bonds {
  import opened Config
  import opened Sums

  datatype Bond = Bond(owner: Account, amount: Balance)

  predicate HasOwner(s: seq<Bond>, o: Account) {
    exists b :: b in s && b.owner == o
  }

  ghost predicate Distinct(s: seq<Bond>) {
    forall i, j | 0 <= i < j < |s| :: s[i].owner != s[j].owner
  }

  ghost predicate SortedDesc(s: seq<Bond>) {
    forall i, j | 0 <= i < j < |s| :: s[i].amount >= s[j].amount
  }

  ghost predicate SortedByOwner(s: seq<Bond>) {
    forall i, j | 0 <= i < j < |s| :: s[i].owner < s[j].owner
  }

  /** The ledger a list stands for. */
  ghost function ToMap(s: seq<Bond>): map<Account, Balance> {
    if s == [] then map[] else ToMap(s[1..])[s[0].owner := s[0].amount]
  }

  function SeqSum(s: seq<Bond>): Balance {
    if s == [] then 0 else s[0].amount + SeqSum(s[1..])
  }

  /** The list without the entries of `o`. */
  function Without(s: seq<Bond>, o: Account): seq<Bond> {
    if s == [] then [] else
      (if s[0].owner == o then [] else [s[0]]) + Without(s[1..], o)
  }

  /** The list with the entries of `o` set to `a`. */
  function Revalue(s: seq<Bond>, o: Account, a: Balance): seq<Bond> {
    if s == [] then [] else
      [if s[0].owner == o then Bond(o, a) else s[0]] + Revalue(s[1..], o, a)
  }

  function AmountOf(s: seq<Bond>, o: Account): Balance {
    if s == [] then 0 else if s[0].owner == o then s[0].amount else AmountOf(s[1..], o)
  }

  lemma HeadIsNew(s: seq<Bond>)
    requires Distinct(s) && s != []
    ensures forall b | b in s[1..] :: b.owner != s[0].owner
    ensures !HasOwner(s[1..], s[0].owner)
  {
    forall b | b in s[1..]
      ensures b.owner != s[0].owner
    {
      var i :| 0 <= i < |s[1..]| && s[1..][i] == b;
      assert s[i + 1] == b;
    }
  }

  // ToMap

  lemma {:induction false} ToMapHolds(s: seq<Bond>)
    requires Distinct(s)
    ensures forall o, a :: (o in ToMap(s) && ToMap(s)[o] == a) <==> Bond(o, a) in s
  {
    if s != [] {
      ToMapHolds(s[1..]);
      HeadIsNew(s);
      assert s == [s[0]] + s[1..];
    }
  }

  lemma ToMapOwners(s: seq<Bond>)
    requires Distinct(s)
    ensures forall o :: o in ToMap(s) <==> HasOwner(s, o)
  {
    ToMapHolds(s);
    forall o | HasOwner(s, o)
      ensures o in ToMap(s)
    {
      var b :| b in s && b.owner == o;
      assert Bond(o, b.amount) in s;
    }
    forall o | o in ToMap(s)
      ensures HasOwner(s, o)
    {
      assert Bond(o, ToMap(s)[o]) in s;
    }
  }

  lemma {:induction false} SumToMap(s: seq<Bond>)
    requires Distinct(s)
    ensures Sum(ToMap(s)) == SeqSum(s)
    ensures |ToMap(s)| == |s|
  {
    if s != [] {
      SumToMap(s[1..]);
      ToMapOwners(s[1..]);
      HeadIsNew(s);
      SumUpdate(ToMap(s[1..]), s[0].owner, s[0].amount);
      assert ToMap(s).Keys == ToMap(s[1..]).Keys + {s[0].owner};
    }
  }

  lemma ToMapSame(s: seq<Bond>, t: seq<Bond>)
    requires Distinct(s) && Distinct(t)
    requires forall b :: b in s <==> b in t
    ensures ToMap(s) == ToMap(t)
  {
    ToMapHolds(s);
    ToMapHolds(t);
    forall o | o in ToMap(s)
      ensures o in ToMap(t) && ToMap(s)[o] == ToMap(t)[o]
    {
      assert Bond(o, ToMap(s)[o]) in t;
    }
    forall o | o in ToMap(t)
      ensures o in ToMap(s)
    {
      assert Bond(o, ToMap(t)[o]) in s;
    }
  }

  /** A list that holds one new bond stands for the ledger with one new entry. */
  lemma ToMapAdd(s: seq<Bond>, t: seq<Bond>, x: Bond)
    requires Distinct(s) && Distinct(t)
    requires forall b :: b in t <==> b in s || b == x
    requires !HasOwner(s, x.owner)
    ensures ToMap(t) == ToMap(s)[x.owner := x.amount] && x.owner !in ToMap(s)
  {
    ToMapOwners(s);
    ToMapSame(t, [x] + s);
    assert ([x] + s)[1..] == s;
  }

  /** A list that lost one bond stands for the ledger without that entry. */
  lemma ToMapRemove(s: seq<Bond>, t: seq<Bond>, x: Bond)
    requires Distinct(s) && Distinct(t) && x in s
    requires forall b :: b in t <==> b in s && b.owner != x.owner
    ensures ToMap(t) == ToMap(s) - {x.owner}
    ensures x.owner in ToMap(s) && ToMap(s)[x.owner] == x.amount
  {
    forall b | b in s && b.owner == x.owner
      ensures b == x
    {
      OneBondEach(s, b, x);
    }
    ToMapAdd(t, s, x);
  }

  lemma OneBondEach(s: seq<Bond>, b: Bond, c: Bond)
    requires Distinct(s) && b in s && c in s && b.owner == c.owner
    ensures b == c
  {
  }

  // Without

  lemma {:induction false} WithoutHolds(s: seq<Bond>, o: Account)
    ensures forall b :: b in Without(s, o) <==> b in s && b.owner != o
    ensures |Without(s, o)| <= |s|
    ensures !HasOwner(s, o) ==> Without(s, o) == s
  {
    if s != [] {
      WithoutHolds(s[1..], o);
      assert s == [s[0]] + s[1..];
      if !HasOwner(s, o) {
        assert s[0] in s;
        assert !HasOwner(s[1..], o);
      }
    }
  }

  /** What remains keeps its order: any two remaining entries stood in the same order before. */
  lemma {:induction false} WithoutOrder(s: seq<Bond>, o: Account, i: nat, j: nat) returns (p: nat, q: nat)
    requires i < j < |Without(s, o)|
    ensures p < q < |s| && s[p] == Without(s, o)[i] && s[q] == Without(s, o)[j]
  {
    var w := Without(s[1..], o);
    if s[0].owner == o {
      p, q := WithoutOrder(s[1..], o, i, j);
      p, q := p + 1, q + 1;
    } else if i > 0 {
      p, q := WithoutOrder(s[1..], o, i - 1, j - 1);
      p, q := p + 1, q + 1;
    } else {
      WithoutHolds(s[1..], o);
      assert w[j - 1] in s[1..];
      q :| 0 <= q < |s[1..]| && s[1..][q] == w[j - 1];
      p, q := 0, q + 1;
    }
  }

  lemma WithoutKeepsDistinct(s: seq<Bond>, o: Account)
    requires Distinct(s)
    ensures Distinct(Without(s, o))
  {
    var w := Without(s, o);
    forall i, j | 0 <= i < j < |w|
      ensures w[i].owner != w[j].owner
    {
      var p, q := WithoutOrder(s, o, i, j);
    }
  }

  lemma WithoutKeepsDesc(s: seq<Bond>, o: Account)
    requires SortedDesc(s)
    ensures SortedDesc(Without(s, o))
  {
    var w := Without(s, o);
    forall i, j | 0 <= i < j < |w|
      ensures w[i].amount >= w[j].amount
    {
      var p, q := WithoutOrder(s, o, i, j);
    }
  }

  lemma WithoutKeepsByOwner(s: seq<Bond>, o: Account)
    requires SortedByOwner(s)
    ensures SortedByOwner(Without(s, o))
  {
    var w := Without(s, o);
    forall i, j | 0 <= i < j < |w|
      ensures w[i].owner < w[j].owner
    {
      var p, q := WithoutOrder(s, o, i, j);
    }
  }

  lemma {:induction false} WithoutShortens(s: seq<Bond>, o: Account)
    requires Distinct(s) && HasOwner(s, o)
    ensures |Without(s, o)| == |s| - 1
  {
    HeadIsNew(s);
    if s[0].owner == o {
      WithoutHolds(s[1..], o);
    } else {
      var b :| b in s && b.owner == o;
      assert s == [s[0]] + s[1..];
      assert b in s[1..];
      WithoutShortens(s[1..], o);
    }
  }

  lemma ToMapWithout(s: seq<Bond>, o: Account)
    requires Distinct(s)
    ensures Distinct(Without(s, o))
    ensures ToMap(Without(s, o)) == ToMap(s) - {o}
  {
    WithoutKeepsDistinct(s, o);
    WithoutHolds(s, o);
    if HasOwner(s, o) {
      var x :| x in s && x.owner == o;
      ToMapRemove(s, Without(s, o), x);
    } else {
      ToMapOwners(s);
      assert ToMap(s) - {o} == ToMap(s);
    }
  }

  lemma SeqSumWithout(s: seq<Bond>, o: Account)
    requires Distinct(s)
    ensures SeqSum(Without(s, o)) + AmountOf(s, o) == SeqSum(s)
  {
    ToMapWithout(s, o);
    SumToMap(s);
    SumToMap(Without(s, o));
    SumDrop(ToMap(s), o);
    AmountOfHolds(s, o);
  }

  // AmountOf

  lemma AmountOfHolds(s: seq<Bond>, o: Account)
    requires Distinct(s)
    ensures AmountOf(s, o) == Get(ToMap(s), o)
    ensures HasOwner(s, o) <==> o in ToMap(s)
    ensures HasOwner(s, o) ==> Bond(o, AmountOf(s, o)) in s
    ensures forall a | Bond(o, a) in s :: AmountOf(s, o) == a
  {
    AmountOfIs(s, o);
    ToMapOwners(s);
    ToMapHolds(s);
    forall a | Bond(o, a) in s
      ensures AmountOf(s, o) == a
    {
      assert HasOwner(s, o);
    }
  }

  lemma {:induction false} AmountOfIs(s: seq<Bond>, o: Account)
    ensures AmountOf(s, o) == Get(ToMap(s), o)
  {
    if s != [] {
      AmountOfIs(s[1..], o);
    }
  }

  // Revalue

  lemma {:induction false} RevalueHolds(s: seq<Bond>, o: Account, a: Balance)
    ensures |Revalue(s, o, a)| == |s|
    ensures forall i | 0 <= i < |s| ::
              Revalue(s, o, a)[i] == if s[i].owner == o then Bond(o, a) else s[i]
  {
    if s != [] {
      RevalueHolds(s[1..], o, a);
    }
  }

  lemma RevalueElements(s: seq<Bond>, o: Account, a: Balance)
    ensures forall b :: b in Revalue(s, o, a) <==>
              (b in s && b.owner != o) || (HasOwner(s, o) && b == Bond(o, a))
  {
    RevalueHolds(s, o, a);
    hide Revalue;
    var t := Revalue(s, o, a);
    forall b | b in t
      ensures (b in s && b.owner != o) || (HasOwner(s, o) && b == Bond(o, a))
    {
      var i :| 0 <= i < |t| && t[i] == b;
      assert s[i] in s;
    }
    forall b | b in s
      ensures if b.owner == o then Bond(o, a) in t else b in t
    {
      var i :| 0 <= i < |s| && s[i] == b;
      assert t[i] in t;
    }
  }

  lemma RevalueOwners(s: seq<Bond>, o: Account, a: Balance)
    ensures forall p :: HasOwner(Revalue(s, o, a), p) <==> HasOwner(s, p)
  {
    RevalueElements(s, o, a);
    hide Revalue;
    var t := Revalue(s, o, a);
    forall p
      ensures HasOwner(t, p) <==> HasOwner(s, p)
    {
      if HasOwner(s, p) {
        var b :| b in s && b.owner == p;
        assert if p == o then Bond(o, a) in t else b in t;
      }
      if HasOwner(t, p) {
        var b :| b in t && b.owner == p;
      }
    }
  }

  lemma RevalueOrder(s: seq<Bond>, o: Account, a: Balance)
    ensures Distinct(s) ==> Distinct(Revalue(s, o, a))
    ensures SortedByOwner(s) ==> SortedByOwner(Revalue(s, o, a))
  {
    RevalueHolds(s, o, a);
    hide Revalue;
  }

  lemma RevalueMembers(s: seq<Bond>, o: Account, a: Balance)
    ensures forall b :: b in Revalue(s, o, a) <==>
              (b in s && b.owner != o) || (HasOwner(s, o) && b == Bond(o, a))
    ensures forall p :: HasOwner(Revalue(s, o, a), p) <==> HasOwner(s, p)
    ensures Distinct(s) ==> Distinct(Revalue(s, o, a))
    ensures SortedByOwner(s) ==> SortedByOwner(Revalue(s, o, a))
  {
    hide Revalue, Distinct, SortedByOwner;
    RevalueElements(s, o, a);
    RevalueOwners(s, o, a);
    RevalueOrder(s, o, a);
  }

  lemma ToMapRevalue(s: seq<Bond>, o: Account, a: Balance)
    requires Distinct(s) && HasOwner(s, o)
    ensures Distinct(Revalue(s, o, a))
    ensures ToMap(Revalue(s, o, a)) == ToMap(s)[o := a]
  {
    hide ToMap, Revalue, Without;
    RevalueMembers(s, o, a);
    WithoutHolds(s, o);
    ToMapWithout(s, o);
    ToMapAdd(Without(s, o), Revalue(s, o, a), Bond(o, a));
  }

  lemma SeqSumRevalue(s: seq<Bond>, o: Account, a: Balance)
    requires Distinct(s) && HasOwner(s, o)
    ensures SeqSum(Revalue(s, o, a)) + AmountOf(s, o) == SeqSum(s) + a
  {
    ToMapRevalue(s, o, a);
    SumToMap(s);
    SumToMap(Revalue(s, o, a));
    SumUpdate(ToMap(s), o, a);
    AmountOfHolds(s, o);
  }
}
