/** Which candidates become sequencers: the greatest by stake, whatever order a partial sort leaves them in. */
module Selection {
  import opened Config
  import opened Bonds
  import opened Tiers
  import opened Sequences

  /** The order of candidates: by amount, then by owner. */
  predicate Outranks(a: Bond, b: Bond) {
    a.amount > b.amount || (a.amount == b.amount && a.owner > b.owner)
  }

  predicate Ascending(s: seq<Account>) {
    forall i, j | 0 <= i < j < |s| :: s[i] < s[j]
  }

  /** `out` names the min(n, |pool|) greatest of the pool, in ascending order. */
  ghost predicate IsSelection(pool: seq<Bond>, n: nat, out: seq<Account>) {
    && Ascending(out)
    && |out| == (if |pool| <= n then |pool| else n)
    && (forall o | o in out :: HasOwner(pool, o))
    && (forall a, b | a in pool && b in pool && a.owner in out && b.owner !in out ::
          a.amount > b.amount || (a.amount == b.amount && a.owner > b.owner))
  }

  /** What the library's `select_nth_unstable_by` promises: the k-th is in its place, greater ones before it. */
  ghost predicate Arranged(l: seq<Bond>, k: nat, arr: seq<Bond>) {
    && k < |arr|
    && multiset(arr) == multiset(l)
    && (forall i | 0 <= i < k :: !Outranks(arr[k], arr[i]))
    && (forall j | k < j < |arr| :: !Outranks(arr[j], arr[k]))
  }

  // Sorting accounts

  function InsertAccount(s: seq<Account>, x: Account): seq<Account> {
    if s == [] || x < s[0] then [x] + s else [s[0]] + InsertAccount(s[1..], x)
  }

  function SortAccounts(s: seq<Account>): seq<Account> {
    if s == [] then [] else InsertAccount(SortAccounts(s[1..]), s[0])
  }

  lemma {:induction false} InsertAccountHolds(s: seq<Account>, x: Account)
    requires Ascending(s) && x !in s
    ensures |InsertAccount(s, x)| == |s| + 1 && Ascending(InsertAccount(s, x))
    ensures forall a :: a in InsertAccount(s, x) <==> a in s || a == x
  {
    if s != [] && x > s[0] {
      InsertAccountHolds(s[1..], x);
      assert s == [s[0]] + s[1..];
      var r := InsertAccount(s[1..], x);
      forall i | 0 <= i < |r|
        ensures s[0] < r[i]
      {
        assert r[i] in r;
      }
    }
  }

  lemma {:induction false} SortAccountsHolds(s: seq<Account>)
    requires NoRepeats(s)
    ensures |SortAccounts(s)| == |s| && Ascending(SortAccounts(s))
    ensures forall a :: a in SortAccounts(s) <==> a in s
  {
    if s != [] {
      SortAccountsHolds(s[1..]);
      assert s == [s[0]] + s[1..];
      InsertAccountHolds(SortAccounts(s[1..]), s[0]);
    }
  }

  /** The owners of the first `n` bonds. */
  function Owners(l: seq<Bond>, n: nat): seq<Account>
    requires n <= |l|
  {
    if n == 0 then [] else Owners(l, n - 1) + [l[n - 1].owner]
  }

  lemma {:induction false} OwnersHold(l: seq<Bond>, n: nat)
    requires n <= |l|
    ensures |Owners(l, n)| == n && forall i | 0 <= i < n :: Owners(l, n)[i] == l[i].owner
  {
    if n > 0 {
      OwnersHold(l, n - 1);
    }
  }

  // A rearrangement

  /** A rearrangement of bonds of distinct owners has distinct owners. */
  lemma RearrangedDistinct(l: seq<Bond>, arr: seq<Bond>)
    requires Distinct(l) && multiset(arr) == multiset(l)
    ensures Distinct(arr) && |arr| == |l|
    ensures forall b :: b in arr <==> b in l
  {
    assert NoRepeats(l);
    Rearranged(l, arr);
    forall i, j | 0 <= i < j < |arr|
      ensures arr[i].owner != arr[j].owner
    {
      assert arr[i] in l && arr[j] in l;
      if arr[i].owner == arr[j].owner {
        SameOwnerSameBond(l, arr[i], arr[j]);
      }
    }
  }

  lemma SameOwnerSameBond(l: seq<Bond>, a: Bond, b: Bond)
    requires Distinct(l) && a in l && b in l && a.owner == b.owner
    ensures a == b
  {
  }

  // The selection

  /** Any arrangement with the n-th in place has the n greatest in front. */
  lemma FrontIsGreatest(pool: seq<Bond>, n: nat, arr: seq<Bond>)
    requires Distinct(pool) && 0 < n < |pool| && Arranged(pool, n - 1, arr)
    ensures n <= |arr| && IsSelection(pool, n, SortAccounts(Owners(arr, n)))
  {
    RearrangedDistinct(pool, arr);
    OwnersHold(arr, n);
    var owners := Owners(arr, n);
    assert NoRepeats(owners);
    SortAccountsHolds(owners);
    var out := SortAccounts(owners);
    forall o | o in out
      ensures HasOwner(pool, o)
    {
      var i :| 0 <= i < n && owners[i] == o;
      assert arr[i] in arr;
    }
    forall a, b | a in pool && b in pool && a.owner in out && b.owner !in out
      ensures Outranks(a, b)
    {
      FrontOutranks(arr, n, a, b);
    }
  }

  lemma FrontOutranks(arr: seq<Bond>, n: nat, a: Bond, b: Bond)
    requires Distinct(arr) && 0 < n <= |arr| && a in arr && b in arr
    requires forall i | 0 <= i < n - 1 :: !Outranks(arr[n - 1], arr[i])
    requires forall j | n - 1 < j < |arr| :: !Outranks(arr[j], arr[n - 1])
    requires |Owners(arr, n)| == n && forall i | 0 <= i < n :: Owners(arr, n)[i] == arr[i].owner
    requires a.owner in Owners(arr, n) && b.owner !in Owners(arr, n)
    ensures Outranks(a, b)
  {
    forall k | 0 <= k < n
      ensures arr[k].owner in Owners(arr, n)
    {
      assert Owners(arr, n)[k] == arr[k].owner;
    }
    var i :| 0 <= i < n && Owners(arr, n)[i] == a.owner;
    assert arr[i] == a by { SameOwnerSameBond(arr, arr[i], a); }
    var j :| 0 <= j < |arr| && arr[j] == b;
  }

  /** The accounts with the highest stake; all of them if there are not enough. */
  method ComputeTopCandidates(candidates: seq<Bond>, topN: nat, arranged: seq<Bond>) returns (sequencers: seq<Account>)
    requires SortedByOwner(candidates)
    requires 0 < topN < |candidates| ==> Arranged(candidates, topN - 1, arranged)
    ensures IsSelection(candidates, topN, sequencers)
  {
    if topN == 0 {
      return [];
    }
    if |candidates| > topN {
      FrontIsGreatest(candidates, topN, arranged);
      sequencers := SortAccounts(Owners(arranged, topN));
    } else {
      sequencers := Owners(candidates, |candidates|);
      OwnersHold(candidates, |candidates|);
      assert forall a | a in candidates :: a.owner in sequencers;
    }
  }

  /** There is only one such selection: it does not depend on the arrangement. */
  lemma SelectionIsUnique(pool: seq<Bond>, n: nat, x: seq<Account>, y: seq<Account>)
    requires IsSelection(pool, n, x) && IsSelection(pool, n, y)
    ensures x == y
  {
    forall o
      ensures o in x <==> o in y
    {
      if o in x {
        SelectedByBoth(pool, n, x, y, o);
      }
      if o in y {
        SelectedByBoth(pool, n, y, x, o);
      }
    }
    AscendingIsUnique(x, y);
  }

  lemma SelectedByBoth(pool: seq<Bond>, n: nat, x: seq<Account>, y: seq<Account>, o: Account)
    requires IsSelection(pool, n, x) && IsSelection(pool, n, y) && o in x
    ensures o in y
  {
    AscendingSet(x);
    AscendingSet(y);
    assert HasOwner(pool, o);
    var a :| a in pool && a.owner == o;
    forall p | p in y && p !in x
      ensures o in y
    {
      assert HasOwner(pool, p);
      var b :| b in pool && b.owner == p;
    }
    if o !in y {
      var p := Unchosen(SetOf(y), SetOf(x), o);
    }
  }

  ghost function SetOf(s: seq<Account>): set<Account> {
    set i | 0 <= i < |s| :: s[i]
  }

  lemma {:induction false} AscendingSet(s: seq<Account>)
    requires Ascending(s)
    ensures |SetOf(s)| == |s| && forall a :: a in SetOf(s) <==> a in s
  {
    if s != [] {
      var r, last := s[..|s| - 1], s[|s| - 1];
      AscendingSet(r);
      assert SetOf(s) == SetOf(r) + {last};
    }
  }

  lemma {:induction false} AscendingIsUnique(x: seq<Account>, y: seq<Account>)
    requires Ascending(x) && Ascending(y) && forall o :: o in x <==> o in y
    ensures x == y
  {
    AscendingSet(x);
    AscendingSet(y);
    assert SetOf(x) == SetOf(y);
    if x != [] {
      FirstIsLeast(x, y);
      FirstIsLeast(y, x);
      RestIsSame(x, y);
      RestIsSame(y, x);
      AscendingIsUnique(x[1..], y[1..]);
    }
  }

  lemma FirstIsLeast(x: seq<Account>, y: seq<Account>)
    requires Ascending(x) && x != [] && y != [] && y[0] in x
    ensures x[0] <= y[0]
  {
  }

  lemma RestIsSame(x: seq<Account>, y: seq<Account>)
    requires Ascending(x) && Ascending(y) && x != [] && y != [] && x[0] == y[0] && forall o :: o in x ==> o in y
    ensures forall o :: o in x[1..] ==> o in y[1..]
  {
    forall o | o in x[1..]
      ensures o in y[1..]
    {
      assert o in y && o != y[0];
      assert y == [y[0]] + y[1..];
    }
  }
}
