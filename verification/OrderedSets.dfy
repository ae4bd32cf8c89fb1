/**
 Sets kept as lists in strictly ascending order. Two bonds count as equal when their owners are, so such a
 set holds one bond per owner.
 */
module OrderedSets {
  import opened Config
  import opened Wrappers
  import opened Sums
  import opened Bonds

  /** Insertion in front of the first larger owner. */
  function InsertByOwner(s: seq<Bond>, x: Bond): seq<Bond> {
    if s != [] && s[0].owner < x.owner then [s[0]] + InsertByOwner(s[1..], x) else [x] + s
  }

  /** Replace the bond of `o`, or add it. */
  function Put(s: seq<Bond>, x: Bond): seq<Bond> {
    InsertByOwner(Without(s, x.owner), x)
  }

  /** Sort by owner, keeping the first of several bonds of one owner. */
  function SortDedup(s: seq<Bond>): seq<Bond> {
    if s == [] then [] else
      var r := SortDedup(s[..|s| - 1]);
      var x := s[|s| - 1];
      if HasOwner(r, x.owner) then r else InsertByOwner(r, x)
  }

  lemma {:induction false} InsertByOwnerHolds(s: seq<Bond>, x: Bond)
    ensures |InsertByOwner(s, x)| == |s| + 1
    ensures forall b :: b in InsertByOwner(s, x) <==> b in s || b == x
  {
    if s != [] && s[0].owner < x.owner {
      InsertByOwnerHolds(s[1..], x);
      assert s == [s[0]] + s[1..];
    }
  }

  lemma {:induction false} InsertByOwnerSorted(s: seq<Bond>, x: Bond)
    requires SortedByOwner(s) && !HasOwner(s, x.owner)
    ensures SortedByOwner(InsertByOwner(s, x))
  {
    if s != [] && s[0].owner < x.owner {
      HeadIsNew(s);
      assert !HasOwner(s[1..], x.owner) by {
        assert s == [s[0]] + s[1..];
      }
      InsertByOwnerSorted(s[1..], x);
      InsertByOwnerHolds(s[1..], x);
      var r := InsertByOwner(s[1..], x);
      forall i | 0 <= i < |r|
        ensures s[0].owner < r[i].owner
      {
        assert r[i] in s[1..] || r[i] == x;
      }
    } else if s != [] {
      assert s[0] in s;
    }
  }

  lemma ToMapInsertByOwner(s: seq<Bond>, x: Bond)
    requires SortedByOwner(s) && x.owner !in ToMap(s)
    ensures SortedByOwner(InsertByOwner(s, x)) && |InsertByOwner(s, x)| == |s| + 1
    ensures ToMap(InsertByOwner(s, x)) == ToMap(s)[x.owner := x.amount]
  {
    ToMapOwners(s);
    InsertByOwnerSorted(s, x);
    InsertByOwnerHolds(s, x);
    ToMapAdd(s, InsertByOwner(s, x), x);
  }

  lemma SortedWithout(s: seq<Bond>, o: Account)
    requires SortedByOwner(s)
    ensures SortedByOwner(Without(s, o)) && |Without(s, o)| == |s| - (if o in ToMap(s) then 1 else 0)
    ensures ToMap(Without(s, o)) == ToMap(s) - {o}
  {
    WithoutKeepsByOwner(s, o);
    ToMapWithout(s, o);
    SumToMap(s);
    SumToMap(Without(s, o));
    if o in ToMap(s) {
      assert (ToMap(s) - {o}).Keys == ToMap(s).Keys - {o};
    } else {
      assert ToMap(s) - {o} == ToMap(s);
    }
  }

  lemma SortedRevalue(s: seq<Bond>, o: Account, a: Balance)
    requires SortedByOwner(s) && o in ToMap(s)
    ensures SortedByOwner(Revalue(s, o, a)) && |Revalue(s, o, a)| == |s|
    ensures ToMap(Revalue(s, o, a)) == ToMap(s)[o := a]
  {
    hide ToMap, Revalue;
    ToMapOwners(s);
    RevalueHolds(s, o, a);
    RevalueOrder(s, o, a);
    ToMapRevalue(s, o, a);
  }

  lemma ToMapPut(s: seq<Bond>, x: Bond)
    requires SortedByOwner(s)
    ensures SortedByOwner(Put(s, x)) && |Put(s, x)| == |s| + (if x.owner in ToMap(s) then 0 else 1)
    ensures ToMap(Put(s, x)) == ToMap(s)[x.owner := x.amount]
  {
    SortedWithout(s, x.owner);
    ToMapInsertByOwner(Without(s, x.owner), x);
  }

  /** Two ascending lists that stand for the same ledger are the same list. */
  lemma {:induction false} SortedIsUnique(s: seq<Bond>, t: seq<Bond>)
    requires SortedByOwner(s) && SortedByOwner(t) && ToMap(s) == ToMap(t)
    ensures s == t
  {
    SumToMap(s);
    SumToMap(t);
    if s != [] {
      HeadIsLeast(s);
      HeadIsLeast(t);
      TailWithoutHead(s);
      TailWithoutHead(t);
      SortedIsUnique(s[1..], t[1..]);
      assert s == [s[0]] + s[1..] && t == [t[0]] + t[1..];
    }
  }

  lemma HeadIsLeast(s: seq<Bond>)
    requires SortedByOwner(s) && s != []
    ensures s[0].owner in ToMap(s) && ToMap(s)[s[0].owner] == s[0].amount
    ensures forall o | o in ToMap(s) :: s[0].owner <= o
  {
    ToMapOwners(s);
    forall o | o in ToMap(s)
      ensures s[0].owner <= o
    {
      var b :| b in s && b.owner == o;
    }
  }

  lemma TailWithoutHead(s: seq<Bond>)
    requires Distinct(s) && s != []
    ensures ToMap(s[1..]) == ToMap(s) - {s[0].owner}
  {
    HeadIsUnmapped(s);
    TakenBack(ToMap(s[1..]), s[0].owner, s[0].amount);
  }

  lemma HeadIsUnmapped(s: seq<Bond>)
    requires Distinct(s) && s != []
    ensures s[0].owner !in ToMap(s[1..])
  {
    hide ToMap;
    HeadIsNew(s);
    ToMapOwners(s[1..]);
  }

  lemma TakenBack(m: map<Account, Balance>, o: Account, a: Balance)
    requires o !in m
    ensures m[o := a] - {o} == m
  {
  }

  /** On a list that is already a set, sorting and dropping duplicates changes nothing. */
  lemma {:induction false} SortDedupIdle(s: seq<Bond>)
    requires SortedByOwner(s)
    ensures SortDedup(s) == s
  {
    if s != [] {
      var r, x := s[..|s| - 1], s[|s| - 1];
      SortDedupIdle(r);
      assert s == r + [x];
      assert forall b | b in r :: b.owner < x.owner;
      InsertAtEnd(r, x);
    }
  }

  lemma {:induction false} InsertAtEnd(s: seq<Bond>, x: Bond)
    requires forall b | b in s :: b.owner < x.owner
    ensures InsertByOwner(s, x) == s + [x]
  {
    if s != [] {
      assert s[0] in s;
      InsertAtEnd(s[1..], x);
    }
  }

  lemma {:induction false} InsertByOwnerAt(s: seq<Bond>, x: Bond, i: nat)
    requires i <= |s|
    requires forall k | 0 <= k < i :: s[k].owner < x.owner
    requires i < |s| ==> x.owner <= s[i].owner
    ensures InsertByOwner(s, x) == s[..i] + [x] + s[i..]
  {
    if i > 0 {
      InsertByOwnerAt(s[1..], x, i - 1);
      assert s[1..][..i - 1] == s[1..i];
      assert s[..i] == [s[0]] + s[1..i];
    }
  }

  lemma {:induction false} WithoutAt(s: seq<Bond>, i: nat)
    requires Distinct(s) && i < |s|
    ensures Without(s, s[i].owner) == s[..i] + s[i + 1..]
  {
    if i == 0 {
      HeadIsNew(s);
      WithoutHolds(s[1..], s[0].owner);
    } else {
      WithoutAt(s[1..], i - 1);
      assert s[1..][..i - 1] == s[1..i];
      assert s[..i] == [s[0]] + s[1..i];
    }
  }

  /** `binary_search` by owner. */
  method BinarySearch(s: seq<Bond>, owner: Account) returns (found: bool, i: nat)
    requires SortedByOwner(s)
    ensures found <==> HasOwner(s, owner)
    ensures found ==> i < |s| && s[i].owner == owner
    ensures !found ==> i <= |s|
    ensures !found ==> forall k | 0 <= k < i :: s[k].owner < owner
    ensures !found ==> forall k | i <= k < |s| :: owner < s[k].owner
  {
    var lo, hi := 0, |s|;
    while lo < hi
      invariant 0 <= lo <= hi <= |s|
      invariant forall k | 0 <= k < lo :: s[k].owner < owner
      invariant forall k | hi <= k < |s| :: owner < s[k].owner
    {
      var mid := lo + (hi - lo) / 2;
      if s[mid].owner == owner {
        assert s[mid] in s;
        return true, mid;
      } else if s[mid].owner < owner {
        lo := mid + 1;
      } else {
        hi := mid;
      }
    }
    return false, lo;
  }

  /** An ordered set without a bound, as the delegations of a delegator are kept. */
  class OrderedSet {
    var items: seq<Bond>

    ghost predicate Valid()
      reads this
    {
      SortedByOwner(items)
    }

    constructor FromSortedSet(v: seq<Bond>)
      requires SortedByOwner(v)
      ensures Valid() && items == v
    {
      items := v;
    }

    /** Take the bond in unless its owner has one already. */
    method Insert(value: Bond) returns (inserted: bool)
      requires Valid()
      modifies this
      ensures Valid()
      ensures inserted <==> value.owner !in ToMap(old(items))
      ensures items == if inserted then InsertByOwner(old(items), value) else old(items)
    {
      ToMapOwners(items);
      var found, loc := BinarySearch(items, value.owner);
      if found {
        return false;
      }
      InsertByOwnerAt(items, value, loc);
      InsertByOwnerSorted(items, value);
      items := items[..loc] + [value] + items[loc..];
      return true;
    }

    /** Take the owner's bond out, and say whether there was one. */
    method Remove(owner: Account) returns (removed: bool)
      requires Valid()
      modifies this
      ensures Valid()
      ensures removed <==> owner in ToMap(old(items))
      ensures items == Without(old(items), owner)
    {
      ToMapOwners(items);
      SortedWithout(items, owner);
      WithoutHolds(items, owner);
      var found, loc := BinarySearch(items, owner);
      if found {
        WithoutAt(items, loc);
        items := items[..loc] + items[loc + 1..];
      }
      return found;
    }
  }

  /** An ordered set with at most `bound` members, as the candidate pool is kept. */
  class BoundedOrderedSet {
    var items: seq<Bond>
    const bound: nat

    ghost predicate Valid()
      reads this
    {
      SortedByOwner(items) && |items| <= bound
    }

    constructor FromSortedSet(v: seq<Bond>, bound: nat)
      requires SortedByOwner(v) && |v| <= bound
      ensures Valid() && items == v && this.bound == bound
    {
      items := v;
      this.bound := bound;
    }

    /** Insert unless the owner has a bond already; fail only when a new bond exceeds the bound. */
    method TryInsert(value: Bond) returns (r: Result<bool, ()>)
      requires Valid()
      modifies this`items
      ensures Valid()
      ensures r == if value.owner in ToMap(old(items)) then Success(false)
                   else if |old(items)| == bound then Failure(()) else Success(true)
      ensures items == if r == Success(true) then InsertByOwner(old(items), value) else old(items)
    {
      ToMapOwners(items);
      var found, loc := BinarySearch(items, value.owner);
      if found {
        return Success(false);
      }
      if |items| == bound {
        return Failure(());
      }
      InsertByOwnerAt(items, value, loc);
      InsertByOwnerSorted(items, value);
      items := items[..loc] + [value] + items[loc..];
      return Success(true);
    }

    /** Take the owner's bond out, and say whether there was one. */
    method Remove(owner: Account) returns (removed: bool)
      requires Valid()
      modifies this`items
      ensures Valid()
      ensures removed <==> owner in ToMap(old(items))
      ensures items == Without(old(items), owner)
      ensures removed ==> |items| == |old(items)| - 1
    {
      ToMapOwners(items);
      SortedWithout(items, owner);
      WithoutHolds(items, owner);
      var found, loc := BinarySearch(items, owner);
      if found {
        WithoutAt(items, loc);
        items := items[..loc] + items[loc + 1..];
      }
      return found;
    }
  }
}
