/** `Delegations`: a list of bonds kept from the greatest to the least amount, with its total. */
module DelegationList {
  import opened Config
  import opened Wrappers
  import opened Sums
  import opened Bonds

  datatype Delegations = Delegations(delegations: seq<Bond>, total: Balance)

  const NO_DELEGATIONS := Delegations([], 0)

  datatype Capacity = Full | Empty | Partial

  function TopCapacity(s: seq<Bond>): Capacity {
    if |s| >= MAX_TOP then Full else if s == [] then Empty else Partial
  }

  function BottomCapacity(s: seq<Bond>): Capacity {
    if |s| >= MAX_BOTTOM then Full else if s == [] then Empty else Partial
  }

  function Lowest(s: seq<Bond>): Balance {
    if s == [] then 0 else s[|s| - 1].amount
  }

  function Highest(s: seq<Bond>): Balance {
    if s == [] then 0 else s[0].amount
  }

  function Init(s: seq<Bond>): seq<Bond>
    requires s != []
  {
    s[..|s| - 1]
  }

  function Last(s: seq<Bond>): Bond
    requires s != []
  {
    s[|s| - 1]
  }

  /** Insertion behind every bond that is at least as large. */
  function InsertDesc(s: seq<Bond>, x: Bond): seq<Bond> {
    if s != [] && s[0].amount >= x.amount then [s[0]] + InsertDesc(s[1..], x) else [x] + s
  }

  /** The stable sort from greatest to least. */
  function SortDesc(s: seq<Bond>): seq<Bond> {
    if s == [] then [] else InsertDesc(SortDesc(Init(s)), Last(s))
  }

  /** The bonds of one amount, in list order. */
  function OfAmount(s: seq<Bond>, a: Balance): seq<Bond> {
    if s == [] then [] else (if s[0].amount == a then [s[0]] else []) + OfAmount(s[1..], a)
  }

  // Insertion

  lemma {:induction false} InsertDescHolds(s: seq<Bond>, x: Bond)
    ensures |InsertDesc(s, x)| == |s| + 1
    ensures SeqSum(InsertDesc(s, x)) == SeqSum(s) + x.amount
    ensures forall b :: b in InsertDesc(s, x) <==> b in s || b == x
  {
    if s != [] && s[0].amount >= x.amount {
      InsertDescHolds(s[1..], x);
      assert s == [s[0]] + s[1..];
    }
  }

  lemma {:induction false} InsertDescSorted(s: seq<Bond>, x: Bond)
    requires SortedDesc(s)
    ensures SortedDesc(InsertDesc(s, x))
  {
    if s != [] && s[0].amount >= x.amount {
      InsertDescSorted(s[1..], x);
      InsertDescHolds(s[1..], x);
      var r := InsertDesc(s[1..], x);
      forall i | 0 <= i < |r|
        ensures r[i].amount <= s[0].amount
      {
        assert r[i] in s[1..] || r[i] == x;
      }
    }
  }

  lemma {:induction false} InsertDescDistinct(s: seq<Bond>, x: Bond)
    requires Distinct(s) && !HasOwner(s, x.owner)
    ensures Distinct(InsertDesc(s, x))
  {
    if s != [] && s[0].amount >= x.amount {
      assert s[0] in s;
      InsertDescDistinct(s[1..], x);
      InsertDescHolds(s[1..], x);
      HeadIsNew(s);
      var r := InsertDesc(s[1..], x);
      forall i | 0 <= i < |r|
        ensures r[i].owner != s[0].owner
      {
        assert r[i] in s[1..] || r[i] == x;
      }
    } else {
      forall i | 0 <= i < |s|
        ensures s[i].owner != x.owner
      {
        assert s[i] in s;
      }
    }
  }

  /** First come, first served: the new bond goes behind all bonds of its amount, and no two bonds swap. */
  lemma {:induction false} InsertDescIsFifo(s: seq<Bond>, x: Bond, a: Balance)
    requires SortedDesc(s)
    ensures OfAmount(InsertDesc(s, x), a) == OfAmount(s, a) + (if x.amount == a then [x] else [])
  {
    if s != [] && s[0].amount >= x.amount {
      InsertDescIsFifo(s[1..], x, a);
    } else if x.amount == a {
      NoneBelow(s, a);
    }
  }

  lemma {:induction false} NoneBelow(s: seq<Bond>, a: Balance)
    requires forall i | 0 <= i < |s| :: s[i].amount < a
    ensures OfAmount(s, a) == []
  {
    if s != [] {
      NoneBelow(s[1..], a);
    }
  }

  lemma {:induction false} SortDescHolds(s: seq<Bond>)
    ensures |SortDesc(s)| == |s| && SortedDesc(SortDesc(s))
    ensures SeqSum(SortDesc(s)) == SeqSum(s)
    ensures forall b :: b in SortDesc(s) <==> b in s
  {
    if s != [] {
      SortDescHolds(Init(s));
      InsertDescHolds(SortDesc(Init(s)), Last(s));
      InsertDescSorted(SortDesc(Init(s)), Last(s));
      SeqSumLast(s);
      assert s == Init(s) + [Last(s)];
    }
  }

  lemma {:induction false} SortDescDistinct(s: seq<Bond>)
    requires Distinct(s)
    ensures Distinct(SortDesc(s))
  {
    if s != [] {
      SortDescDistinct(Init(s));
      SortDescHolds(Init(s));
      InsertDescDistinct(SortDesc(Init(s)), Last(s));
    }
  }

  /** The sort is stable: bonds of one amount keep their order. */
  lemma {:induction false} SortDescIsStable(s: seq<Bond>, a: Balance)
    ensures OfAmount(SortDesc(s), a) == OfAmount(s, a)
  {
    if s != [] {
      SortDescIsStable(Init(s), a);
      SortDescHolds(Init(s));
      InsertDescIsFifo(SortDesc(Init(s)), Last(s), a);
      OfAmountLast(s, a);
    }
  }

  lemma {:induction false} OfAmountLast(s: seq<Bond>, a: Balance)
    requires s != []
    ensures OfAmount(s, a) == OfAmount(Init(s), a) + (if Last(s).amount == a then [Last(s)] else [])
  {
    if |s| > 1 {
      OfAmountLast(s[1..], a);
      assert Init(s)[1..] == Init(s[1..]);
    }
  }

  lemma {:induction false} SeqSumLast(s: seq<Bond>)
    requires s != []
    ensures SeqSum(s) == SeqSum(Init(s)) + Last(s).amount
  {
    if |s| > 1 {
      SeqSumLast(s[1..]);
      assert Init(s)[1..] == Init(s[1..]);
    }
  }

  /** Any position between the larger-or-equal and the smaller bonds is the insertion point. */
  lemma {:induction false} InsertDescAt(s: seq<Bond>, x: Bond, i: nat)
    requires i <= |s|
    requires forall k | 0 <= k < i :: s[k].amount >= x.amount
    requires i < |s| ==> s[i].amount < x.amount
    ensures InsertDesc(s, x) == s[..i] + [x] + s[i..]
  {
    if i > 0 {
      InsertDescAt(s[1..], x, i - 1);
      assert s[1..][..i - 1] == s[1..i];
      assert s[..i] == [s[0]] + s[1..i];
    }
  }

  // Ranked lists as ledgers

  /** Sorted from greatest to least, with one bond per owner. */
  ghost predicate Ranked(s: seq<Bond>) {
    SortedDesc(s) && Distinct(s)
  }

  lemma RankedInsert(s: seq<Bond>, x: Bond)
    requires Ranked(s) && x.owner !in ToMap(s)
    ensures Ranked(InsertDesc(s, x)) && |InsertDesc(s, x)| == |s| + 1
    ensures ToMap(InsertDesc(s, x)) == ToMap(s)[x.owner := x.amount]
  {
    ToMapOwners(s);
    InsertDescHolds(s, x);
    InsertDescSorted(s, x);
    InsertDescDistinct(s, x);
    ToMapAdd(s, InsertDesc(s, x), x);
  }

  lemma RankedInit(s: seq<Bond>)
    requires Ranked(s) && s != []
    ensures Ranked(Init(s))
    ensures ToMap(Init(s)) == ToMap(s) - {Last(s).owner}
    ensures Last(s).owner in ToMap(s) && ToMap(s)[Last(s).owner] == Last(s).amount
  {
    assert s == Init(s) + [Last(s)];
    ToMapRemove(s, Init(s), Last(s));
  }

  lemma RankedTail(s: seq<Bond>)
    requires Ranked(s) && s != []
    ensures Ranked(s[1..])
    ensures ToMap(s[1..]) == ToMap(s) - {s[0].owner}
    ensures s[0].owner in ToMap(s) && ToMap(s)[s[0].owner] == s[0].amount
  {
    HeadIsNew(s);
    assert s == [s[0]] + s[1..];
    ToMapRemove(s, s[1..], s[0]);
  }

  lemma RankedWithout(s: seq<Bond>, o: Account)
    requires Ranked(s) && o in ToMap(s)
    ensures Ranked(Without(s, o)) && |Without(s, o)| == |s| - 1
    ensures ToMap(Without(s, o)) == ToMap(s) - {o}
  {
    ToMapOwners(s);
    WithoutKeepsDesc(s, o);
    WithoutShortens(s, o);
    ToMapWithout(s, o);
  }

  lemma RankedRevalue(s: seq<Bond>, o: Account, a: Balance)
    requires Ranked(s) && o in ToMap(s)
    ensures Ranked(SortDesc(Revalue(s, o, a))) && |SortDesc(Revalue(s, o, a))| == |s|
    ensures ToMap(SortDesc(Revalue(s, o, a))) == ToMap(s)[o := a]
  {
    ToMapOwners(s);
    RevalueHolds(s, o, a);
    ToMapRevalue(s, o, a);
    var r := Revalue(s, o, a);
    SortDescHolds(r);
    SortDescDistinct(r);
    ToMapSame(SortDesc(r), r);
  }

  lemma EndsBound(s: seq<Bond>)
    requires Ranked(s)
    ensures forall o | o in ToMap(s) :: Lowest(s) <= ToMap(s)[o] <= Highest(s)
    ensures s != [] ==> s[0].owner in ToMap(s) && ToMap(s)[s[0].owner] == Highest(s)
    ensures s != [] ==> Last(s).owner in ToMap(s) && ToMap(s)[Last(s).owner] == Lowest(s)
  {
    ToMapHolds(s);
    if s != [] {
      assert Bond(s[0].owner, s[0].amount) in s && Bond(Last(s).owner, Last(s).amount) in s;
    }
    forall o | o in ToMap(s)
      ensures Lowest(s) <= ToMap(s)[o] <= Highest(s)
    {
      assert Bond(o, ToMap(s)[o]) in s;
    }
  }

  // The operations

  /** `binary_search_by` on a list sorted from greatest to least: any bond of the amount may be found. */
  method BinarySearchDesc(s: seq<Bond>, amount: Balance) returns (found: bool, i: nat)
    requires SortedDesc(s)
    ensures found ==> i < |s| && s[i].amount == amount
    ensures !found ==> i <= |s|
    ensures !found ==> forall k | 0 <= k < i :: s[k].amount > amount
    ensures !found ==> forall k | i <= k < |s| :: s[k].amount < amount
  {
    var lo, hi := 0, |s|;
    while lo < hi
      invariant 0 <= lo <= hi <= |s|
      invariant forall k | 0 <= k < lo :: s[k].amount > amount
      invariant forall k | hi <= k < |s| :: s[k].amount < amount
    {
      var mid := lo + (hi - lo) / 2;
      if s[mid].amount == amount {
        return true, mid;
      } else if s[mid].amount > amount {
        lo := mid + 1;
      } else {
        hi := mid;
      }
    }
    return false, lo;
  }

  /** Insert sorted from greatest to least and raise the total accordingly. */
  method InsertSortedGreatestToLeast(list: Delegations, x: Bond) returns (out: Delegations)
    requires SortedDesc(list.delegations)
    ensures out == Delegations(InsertDesc(list.delegations, x), SatAdd(list.total, x.amount))
  {
    var s := list.delegations;
    out := list.(total := SatAdd(list.total, x.amount));
    if s != [] {
      if s[|s| - 1].amount == x.amount {
        InsertDescAt(s, x, |s|);
        out := out.(delegations := s + [x]);
        return;
      }
    }
    var found, i := BinarySearchDesc(s, x.amount);
    if found {
      var newIndex := i + 1;
      while newIndex <= |s| - 1
        invariant i < newIndex <= |s|
        invariant s[newIndex - 1].amount == x.amount
      {
        if s[newIndex].amount == x.amount {
          newIndex := newIndex + 1;
        } else {
          InsertDescAt(s, x, newIndex);
          out := out.(delegations := s[..newIndex] + [x] + s[newIndex..]);
          return;
        }
      }
      assert false; // a list that ends in this amount was dealt with above
      out := out.(delegations := s + [x]);
    } else {
      InsertDescAt(s, x, i);
      out := out.(delegations := s[..i] + [x] + s[i..]);
    }
  }

  /** Sort from greatest to least with the library's stable sort. */
  method SortGreatestToLeast(list: Delegations) returns (out: Delegations)
    ensures out == Delegations(SortDesc(list.delegations), list.total)
  {
    out := list.(delegations := SortDesc(list.delegations));
  }

  /** Filter out the bond of `owner`, remembering its amount. */
  method TakeBond(s: seq<Bond>, owner: Account) returns (rest: seq<Bond>, taken: Option<Balance>)
    requires Distinct(s)
    ensures rest == Without(s, owner)
    ensures taken == if owner in ToMap(s) then Some(AmountOf(s, owner)) else None
  {
    AmountOfHolds(s, owner);
    rest, taken := [], None;
    for i := 0 to |s|
      invariant rest + Without(s[i..], owner) == Without(s, owner)
      invariant taken.None? ==> forall k | 0 <= k < i :: s[k].owner != owner
      invariant taken.Some? ==> HasOwner(s, owner) && taken.value == AmountOf(s, owner)
    {
      assert s[i..][1..] == s[i + 1..];
      assert s[i] in s;
      if s[i].owner != owner {
        rest := rest + [s[i]];
      } else {
        taken := Some(s[i].amount);
      }
    }
  }

  /** Add to the bond of `owner`, noting whether there is one. */
  method BumpBond(s: seq<Bond>, owner: Account, more: Balance) returns (out: seq<Bond>, found: bool)
    requires Distinct(s)
    ensures out == Revalue(s, owner, SatAdd(AmountOf(s, owner), more))
    ensures found <==> owner in ToMap(s)
  {
    AmountOfHolds(s, owner);
    hide AmountOf, ToMap;
    out, found := [], false;
    ghost var a := SatAdd(AmountOf(s, owner), more);
    for i := 0 to |s|
      invariant out + Revalue(s[i..], owner, a) == Revalue(s, owner, a)
      invariant found <==> exists k :: 0 <= k < i && s[k].owner == owner
    {
      assert s[i..][1..] == s[i + 1..];
      assert s[i] in s;
      if s[i].owner != owner {
        out := out + [s[i]];
      } else {
        found := true;
        out := out + [Bond(owner, SatAdd(s[i].amount, more))];
      }
    }
  }

  /** Take from the bond of `owner`, noting whether there is one. */
  method CutBond(s: seq<Bond>, owner: Account, less: Balance) returns (out: seq<Bond>, found: bool)
    requires Distinct(s)
    ensures out == Revalue(s, owner, SatSub(AmountOf(s, owner), less))
    ensures found <==> owner in ToMap(s)
  {
    AmountOfHolds(s, owner);
    hide AmountOf, ToMap;
    out, found := [], false;
    ghost var a := SatSub(AmountOf(s, owner), less);
    for i := 0 to |s|
      invariant out + Revalue(s[i..], owner, a) == Revalue(s, owner, a)
      invariant found <==> exists k :: 0 <= k < i && s[k].owner == owner
    {
      assert s[i..][1..] == s[i + 1..];
      assert s[i] in s;
      if s[i].owner != owner {
        out := out + [s[i]];
      } else {
        found := true;
        out := out + [Bond(owner, SatSub(s[i].amount, less))];
      }
    }
  }
}
