/**
 The two-tier list of a candidate's delegations, without totals and without cached metadata: the counted
 top delegations and the waiting bottom delegations. Each change is decided by looking at the lists.
 */
module Tiers {
  import opened Config
  import opened Wrappers
  import opened Sums
  import opened Bonds
  import opened DelegationList

  datatype Tiers = Tiers(top: seq<Bond>, bottom: seq<Bond>)

  ghost predicate Shape(t: Tiers) {
    && Ranked(t.top) && |t.top| <= MAX_TOP
    && Ranked(t.bottom) && |t.bottom| <= MAX_BOTTOM
    && (t.bottom != [] ==> |t.top| == MAX_TOP)
    && ToMap(t.top).Keys !! ToMap(t.bottom).Keys
    && Above(ToMap(t.top), ToMap(t.bottom))
  }

  ghost predicate Above(m: map<Account, Balance>, n: map<Account, Balance>) {
    forall o, p | o in m && p in n :: m[o] >= n[p]
  }

  /** Who delegates how much, whichever the tier. */
  ghost function Backers(t: Tiers): map<Account, Balance> {
    ToMap(t.top) + ToMap(t.bottom)
  }

  // The changes

  predicate IsFull(t: Tiers) {
    |t.top| >= MAX_TOP && |t.bottom| >= MAX_BOTTOM
  }

  /** Both tiers are full and the amount beats no delegation in the bottom. */
  predicate Refuses(t: Tiers, amount: Balance) {
    IsFull(t) && amount <= Lowest(t.top) && amount <= Lowest(t.bottom)
  }

  /** The delegation that has to go to make room. */
  function Kicked(t: Tiers): Option<Bond> {
    if IsFull(t) then Some(Last(t.bottom)) else None
  }

  function Room(t: Tiers): seq<Bond> {
    if |t.bottom| >= MAX_BOTTOM then Init(t.bottom) else t.bottom
  }

  function Add(t: Tiers, x: Bond): Tiers {
    if |t.top| < MAX_TOP then Tiers(InsertDesc(t.top, x), t.bottom)
    else if Lowest(t.top) < x.amount then
      Tiers(InsertDesc(Init(t.top), x), InsertDesc(Room(t), Last(t.top)))
    else Tiers(t.top, InsertDesc(Room(t), x))
  }

  function Remove(t: Tiers, o: Account): Tiers {
    if !HasOwner(t.top, o) then Tiers(t.top, Without(t.bottom, o))
    else if t.bottom == [] then Tiers(Without(t.top, o), [])
    else Tiers(InsertDesc(Without(t.top, o), t.bottom[0]), t.bottom[1..])
  }

  function Raise(t: Tiers, o: Account, more: Balance): Tiers
    requires HasOwner(t.bottom, o) ==> t.top != []
  {
    if HasOwner(t.top, o) then
      Tiers(SortDesc(Revalue(t.top, o, AmountOf(t.top, o) + more)), t.bottom)
    else if HasOwner(t.bottom, o) && AmountOf(t.bottom, o) + more > Lowest(t.top) then
      Tiers(InsertDesc(Init(t.top), Bond(o, AmountOf(t.bottom, o) + more)),
            InsertDesc(Without(t.bottom, o), Last(t.top)))
    else
      Tiers(t.top, SortDesc(Revalue(t.bottom, o, AmountOf(t.bottom, o) + more)))
  }

  function Lower(t: Tiers, o: Account, less: Balance): Tiers
  {
    if !HasOwner(t.top, o) then
      Tiers(t.top, SortDesc(Revalue(t.bottom, o, SatSub(AmountOf(t.bottom, o), less))))
    else
      var amount := SatSub(AmountOf(t.top, o), less);
      if amount < Highest(t.bottom) then
        Tiers(InsertDesc(Without(t.top, o), t.bottom[0]), InsertDesc(t.bottom[1..], Bond(o, amount)))
      else
        Tiers(SortDesc(Revalue(t.top, o, amount)), t.bottom)
  }

  // What the changes keep

  lemma AddToTop(t: Tiers, x: Bond)
    requires Shape(t) && x.owner !in Backers(t) && |t.top| < MAX_TOP
    ensures Shape(Add(t, x))
    ensures Backers(Add(t, x)) == Backers(t)[x.owner := x.amount]
  {
    RankedInsert(t.top, x);
  }

  /** What the bottom keeps when it makes room. */
  lemma RoomHolds(t: Tiers)
    requires Shape(t)
    ensures Ranked(Room(t)) && |Room(t)| < MAX_BOTTOM
    ensures IsFull(t) ==> ToMap(Room(t)) == ToMap(t.bottom) - {Last(t.bottom).owner}
    ensures IsFull(t) ==> Last(t.bottom).owner in ToMap(t.bottom)
    ensures !IsFull(t) ==> Room(t) == t.bottom
  {
    if |t.bottom| >= MAX_BOTTOM {
      RankedInit(t.bottom);
    }
  }

  lemma AddToBottom(t: Tiers, x: Bond)
    requires Shape(t) && x.owner !in Backers(t) && |t.top| == MAX_TOP && x.amount <= Lowest(t.top)
    ensures Shape(Add(t, x))
    ensures Backers(Add(t, x)) == (ToMap(t.top) + ToMap(Room(t)))[x.owner := x.amount]
  {
    hide Ranked, InsertDesc, ToMap, Room;
    RoomHolds(t);
    RankedInsert(Room(t), x);
    EndsBound(t.top);
  }

  /** The least top delegation makes way for a larger newcomer and falls into the bottom. */
  lemma FallDown(m: map<Account, Balance>, n: map<Account, Balance>, low: Account, x: Account, a: Balance)
    requires m.Keys !! n.Keys && Above(m, n)
    requires low in m && x !in m && x !in n
    requires forall o | o in m :: m[low] <= m[o]
    requires m[low] <= a
    ensures var m', n' := (m - {low})[x := a], n[low := m[low]];
            m'.Keys !! n'.Keys && Above(m', n') && m' + n' == (m + n)[x := a]
  {
  }

  /** The greatest bottom delegation fills the gap that `o` leaves in the top. */
  lemma RiseUp(m: map<Account, Balance>, n: map<Account, Balance>, o: Account, high: Account)
    requires m.Keys !! n.Keys && Above(m, n)
    requires o in m && high in n
    requires forall p | p in n :: n[p] <= n[high]
    ensures var m', n' := (m - {o})[high := n[high]], n - {high};
            m'.Keys !! n'.Keys && Above(m', n') && m' + n' == (m + n) - {o}
  {
  }

  /** A bottom delegation that outgrows the least top delegation changes places with it. */
  lemma ClimbPast(m: map<Account, Balance>, n: map<Account, Balance>, low: Account, o: Account, a: Balance)
    requires m.Keys !! n.Keys && Above(m, n)
    requires low in m && o in n
    requires forall p | p in m :: m[low] <= m[p]
    requires m[low] <= a
    ensures var m', n' := (m - {low})[o := a], (n - {o})[low := m[low]];
            m'.Keys !! n'.Keys && Above(m', n') && m' + n' == (m + n)[o := a]
  {
  }

  /** A top delegation that shrinks below the greatest bottom delegation changes places with it. */
  lemma SinkBelow(m: map<Account, Balance>, n: map<Account, Balance>, o: Account, high: Account, a: Balance)
    requires m.Keys !! n.Keys && Above(m, n)
    requires o in m && high in n
    requires forall p | p in n :: n[p] <= n[high]
    requires a <= n[high]
    ensures var m', n' := (m - {o})[high := n[high]], (n - {high})[o := a];
            m'.Keys !! n'.Keys && Above(m', n') && m' + n' == (m + n)[o := a]
  {
  }

  lemma ChangeInPlace(m: map<Account, Balance>, n: map<Account, Balance>, o: Account, a: Balance)
    requires m.Keys !! n.Keys
    ensures o in m ==> m[o := a] + n == (m + n)[o := a]
    ensures o in n ==> m + n[o := a] == (m + n)[o := a]
    ensures Above(m, n) && o in m && (forall p | p in n :: n[p] <= a) ==> Above(m[o := a], n)
    ensures Above(m, n) && o in n && (forall p | p in m :: m[p] >= a) ==> Above(m, n[o := a])
  {
  }

  lemma AddAndBump(t: Tiers, x: Bond)
    requires Shape(t) && x.owner !in Backers(t) && |t.top| == MAX_TOP && Lowest(t.top) < x.amount
    ensures Shape(Add(t, x))
    ensures Backers(Add(t, x)) == (ToMap(t.top) + ToMap(Room(t)))[x.owner := x.amount]
  {
    RoomHolds(t);
    EndsBound(t.top);
    RankedInit(t.top);
    RankedInsert(Room(t), Last(t.top));
    RankedInsert(Init(t.top), x);
    FallDown(ToMap(t.top), ToMap(Room(t)), Last(t.top).owner, x.owner, x.amount);
  }

  /** An accepted delegation joins the ledger, and exactly the kicked one leaves it. */
  lemma AddHolds(t: Tiers, x: Bond)
    requires Shape(t) && x.owner !in Backers(t)
    ensures Shape(Add(t, x))
    ensures Backers(Add(t, x)) ==
            (match Kicked(t) case None => Backers(t) case Some(b) => Backers(t) - {b.owner})[x.owner := x.amount]
    ensures |Add(t, x).top| + |Add(t, x).bottom| == |t.top| + |t.bottom| + (if IsFull(t) then 0 else 1)
  {
    RoomHolds(t);
    if |t.top| < MAX_TOP {
      AddToTop(t, x);
    } else if Lowest(t.top) < x.amount {
      AddAndBump(t, x);
    } else {
      AddToBottom(t, x);
    }
    AddLength(t, x);
  }

  lemma AddLength(t: Tiers, x: Bond)
    requires Shape(t)
    ensures |Add(t, x).top| + |Add(t, x).bottom| == |t.top| + |t.bottom| + (if IsFull(t) then 0 else 1)
  {
    InsertDescHolds(t.top, x);
    if |t.top| == MAX_TOP {
      InsertDescHolds(Init(t.top), x);
      InsertDescHolds(Room(t), Last(t.top));
      InsertDescHolds(Room(t), x);
    }
  }

  /** The kicked delegation is the least of all, and less than the one it makes room for. */
  lemma KickedIsLeast(t: Tiers, x: Bond)
    requires Shape(t) && IsFull(t) && !Refuses(t, x.amount)
    ensures var b := Kicked(t).value;
            && b.owner in Backers(t) && Backers(t)[b.owner] == b.amount
            && (forall o | o in Backers(t) :: b.amount <= Backers(t)[o])
            && b.amount < x.amount
  {
    EndsBound(t.top);
    EndsBound(t.bottom);
  }

  /** A delegation is in exactly one tier, at its amount, and on the right side of the other tier. */
  lemma TierOf(t: Tiers, o: Account)
    requires Shape(t) && o in Backers(t)
    ensures HasOwner(t.top, o) <==> o in ToMap(t.top)
    ensures HasOwner(t.bottom, o) <==> o in ToMap(t.bottom)
    ensures o in ToMap(t.top) ==>
              && o !in ToMap(t.bottom) && t.top != []
              && Backers(t)[o] == AmountOf(t.top, o) >= Lowest(t.top) >= Highest(t.bottom)
    ensures o !in ToMap(t.top) ==>
              && o in ToMap(t.bottom) && t.bottom != [] && t.top != []
              && Backers(t)[o] == AmountOf(t.bottom, o) <= Highest(t.bottom) <= Lowest(t.top)
  {
    AmountOfHolds(t.top, o);
    AmountOfHolds(t.bottom, o);
    EndsBound(t.top);
    EndsBound(t.bottom);
    if o in ToMap(t.top) {
      assert t.top != [];
    } else {
      assert t.bottom != [];
    }
  }

  lemma BottomBacker(t: Tiers, o: Account)
    requires Shape(t) && o in ToMap(t.bottom)
    ensures o in Backers(t) && !HasOwner(t.top, o) && HasOwner(t.bottom, o)
    ensures t.bottom != [] && t.top != [] && |t.top| == MAX_TOP
    ensures Backers(t)[o] == AmountOf(t.bottom, o) <= Highest(t.bottom) <= Lowest(t.top)
  {
    TierOf(t, o);
  }

  lemma TopBacker(t: Tiers, o: Account)
    requires Shape(t) && o in ToMap(t.top)
    ensures o in Backers(t) && HasOwner(t.top, o) && t.top != []
    ensures Backers(t)[o] == AmountOf(t.top, o) >= Lowest(t.top) >= Highest(t.bottom)
  {
    TierOf(t, o);
  }

  lemma RemoveAndRefill(t: Tiers, o: Account)
    requires Shape(t) && o in ToMap(t.top) && t.bottom != []
    ensures var r := Tiers(InsertDesc(Without(t.top, o), t.bottom[0]), t.bottom[1..]);
            && Shape(r) && Backers(r) == Backers(t) - {o}
            && |r.top| == |t.top| && |r.bottom| == |t.bottom| - 1
  {
    EndsBound(t.bottom);
    RiseUp(ToMap(t.top), ToMap(t.bottom), o, t.bottom[0].owner);
    RankedWithout(t.top, o);
    RankedTail(t.bottom);
    RankedInsert(Without(t.top, o), t.bottom[0]);
  }

  /** Removal takes one entry out of the ledger, whichever tier it was in. */
  lemma RemoveHolds(t: Tiers, o: Account)
    requires Shape(t) && o in Backers(t)
    ensures Shape(Remove(t, o))
    ensures Backers(Remove(t, o)) == Backers(t) - {o}
    ensures |Remove(t, o).top| + |Remove(t, o).bottom| == |t.top| + |t.bottom| - 1
  {
    TierOf(t, o);
    if o !in ToMap(t.top) {
      RankedWithout(t.bottom, o);
    } else if t.bottom == [] {
      RankedWithout(t.top, o);
    } else {
      RemoveAndRefill(t, o);
    }
  }

  lemma RaiseCases(t: Tiers, o: Account, more: Balance)
    requires Shape(t) && o in Backers(t)
    ensures t.top != []
    ensures var amount := Backers(t)[o] + more;
            Raise(t, o, more) ==
            if o in ToMap(t.top) then Tiers(SortDesc(Revalue(t.top, o, amount)), t.bottom)
            else if amount > Lowest(t.top) then
              Tiers(InsertDesc(Init(t.top), Bond(o, amount)), InsertDesc(Without(t.bottom, o), Last(t.top)))
            else Tiers(t.top, SortDesc(Revalue(t.bottom, o, amount)))
  {
    TierOf(t, o);
  }

  /** An increase changes one entry of the ledger. */
  lemma RaiseHolds(t: Tiers, o: Account, more: Balance)
    requires Shape(t) && o in Backers(t)
    ensures t.top != []
    ensures Shape(Raise(t, o, more))
    ensures Backers(Raise(t, o, more)) == Backers(t)[o := Backers(t)[o] + more]
    ensures |Raise(t, o, more).top| == |t.top| && |Raise(t, o, more).bottom| == |t.bottom|
  {
    hide Raise, SortDesc, InsertDesc, Without, Revalue, AmountOf, ToMap;
    TierOf(t, o);
    RaiseCases(t, o, more);
    var amount := Backers(t)[o] + more;
    if o in ToMap(t.top) {
      ChangeInTop(t, o, amount);
    } else if amount > Lowest(t.top) {
      RaiseIntoTop(t, o, amount);
    } else {
      ChangeInBottom(t, o, amount);
    }
  }

  lemma ChangeInTop(t: Tiers, o: Account, amount: Balance)
    requires Shape(t) && o in ToMap(t.top) && amount >= Highest(t.bottom)
    ensures var r := Tiers(SortDesc(Revalue(t.top, o, amount)), t.bottom);
            && Shape(r) && Backers(r) == Backers(t)[o := amount]
            && |r.top| == |t.top| && |r.bottom| == |t.bottom|
  {
    EndsBound(t.bottom);
    RankedRevalue(t.top, o, amount);
    ChangeInPlace(ToMap(t.top), ToMap(t.bottom), o, amount);
  }

  lemma ChangeInBottom(t: Tiers, o: Account, amount: Balance)
    requires Shape(t) && o in ToMap(t.bottom) && amount <= Lowest(t.top)
    ensures var r := Tiers(t.top, SortDesc(Revalue(t.bottom, o, amount)));
            && Shape(r) && Backers(r) == Backers(t)[o := amount]
            && |r.top| == |t.top| && |r.bottom| == |t.bottom|
  {
    EndsBound(t.top);
    RankedRevalue(t.bottom, o, amount);
    ChangeInPlace(ToMap(t.top), ToMap(t.bottom), o, amount);
  }

  lemma RaiseIntoTop(t: Tiers, o: Account, amount: Balance)
    requires Shape(t) && o in ToMap(t.bottom) && amount > Lowest(t.top)
    ensures var r := Tiers(InsertDesc(Init(t.top), Bond(o, amount)), InsertDesc(Without(t.bottom, o), Last(t.top)));
            && Shape(r) && Backers(r) == Backers(t)[o := amount]
            && |r.top| == |t.top| && |r.bottom| == |t.bottom|
  {
    EndsBound(t.top);
    ClimbPast(ToMap(t.top), ToMap(t.bottom), Last(t.top).owner, o, amount);
    RankedInit(t.top);
    RankedWithout(t.bottom, o);
    RankedInsert(Without(t.bottom, o), Last(t.top));
    RankedInsert(Init(t.top), Bond(o, amount));
  }

  lemma LowerCases(t: Tiers, o: Account, less: Balance)
    requires Shape(t) && o in Backers(t) && less <= Backers(t)[o]
    ensures var amount := Backers(t)[o] - less;
            Lower(t, o, less) ==
            if o !in ToMap(t.top) then Tiers(t.top, SortDesc(Revalue(t.bottom, o, amount)))
            else if amount < Highest(t.bottom) then
              Tiers(InsertDesc(Without(t.top, o), t.bottom[0]), InsertDesc(t.bottom[1..], Bond(o, amount)))
            else Tiers(SortDesc(Revalue(t.top, o, amount)), t.bottom)
  {
    hide SortDesc, InsertDesc, Without, Revalue, AmountOf, ToMap, HasOwner;
    TierOf(t, o);
  }

  /** A decrease changes one entry of the ledger. */
  lemma LowerHolds(t: Tiers, o: Account, less: Balance)
    requires Shape(t) && o in Backers(t) && less <= Backers(t)[o]
    ensures Shape(Lower(t, o, less))
    ensures Backers(Lower(t, o, less)) == Backers(t)[o := Backers(t)[o] - less]
    ensures |Lower(t, o, less).top| == |t.top| && |Lower(t, o, less).bottom| == |t.bottom|
  {
    hide Lower, SortDesc, InsertDesc, Without, Revalue, AmountOf, ToMap;
    TierOf(t, o);
    LowerCases(t, o, less);
    var amount := Backers(t)[o] - less;
    if o !in ToMap(t.top) {
      ChangeInBottom(t, o, amount);
    } else if amount < Highest(t.bottom) {
      LowerIntoBottom(t, o, amount);
    } else {
      ChangeInTop(t, o, amount);
    }
  }

  lemma LowerIntoBottom(t: Tiers, o: Account, amount: Balance)
    requires Shape(t) && o in ToMap(t.top) && amount < Highest(t.bottom)
    ensures var r := Tiers(InsertDesc(Without(t.top, o), t.bottom[0]), InsertDesc(t.bottom[1..], Bond(o, amount)));
            && Shape(r) && Backers(r) == Backers(t)[o := amount]
            && |r.top| == |t.top| && |r.bottom| == |t.bottom|
  {
    EndsBound(t.bottom);
    SinkBelow(ToMap(t.top), ToMap(t.bottom), o, t.bottom[0].owner, amount);
    RankedTail(t.bottom);
    RankedWithout(t.top, o);
    RankedInsert(Without(t.top, o), t.bottom[0]);
    RankedInsert(t.bottom[1..], Bond(o, amount));
  }

  // The top tier is the best selection

  ghost function Chosen(m: map<Account, Balance>, chosen: set<Account>): map<Account, Balance> {
    map o | o in chosen && o in m :: m[o]
  }

  /** No selection of at most MAX_TOP delegations adds up to more than the top tier. */
  lemma TopIsLargest(t: Tiers, chosen: set<Account>)
    requires Shape(t) && chosen <= Backers(t).Keys && |chosen| <= MAX_TOP
    ensures Sum(Chosen(Backers(t), chosen)) <= SeqSum(t.top)
  {
    SumToMap(t.top);
    if t.bottom == [] {
      SumMonotone(Chosen(Backers(t), chosen), ToMap(t.top));
    } else {
      UpperIsLargest(ToMap(t.top), ToMap(t.bottom), chosen);
    }
  }

  lemma {:induction false} UpperIsLargest(m: map<Account, Balance>, n: map<Account, Balance>, chosen: set<Account>)
    requires m.Keys !! n.Keys && Above(m, n)
    requires |chosen| <= |m|
    ensures Sum(Chosen(m + n, chosen)) <= Sum(m)
    decreases |chosen - m.Keys|
  {
    if p :| p in chosen && p !in m {
      var q := Unchosen(m.Keys, chosen, p);
      ghost var better := chosen - {p} + {q};
      assert better - m.Keys == chosen - m.Keys - {p};
      Exchange(m + n, chosen, p, q);
      UpperIsLargest(m, n, better);
    } else {
      SumMonotone(Chosen(m + n, chosen), m);
    }
  }

  /** Exchanging a chosen delegation for an unchosen one that is no smaller does not lower the sum. */
  lemma Exchange(m: map<Account, Balance>, chosen: set<Account>, p: Account, q: Account)
    requires p in chosen && q !in chosen && q in m && Get(m, p) <= m[q]
    ensures Sum(Chosen(m, chosen)) <= Sum(Chosen(m, chosen - {p} + {q}))
  {
    var c, d := Chosen(m, chosen), Chosen(m, chosen - {p} + {q});
    SumDrop(c, p);
    SumRemove(d, q);
    assert d - {q} == c - {p};
  }

  lemma Unchosen(all: set<Account>, chosen: set<Account>, p: Account) returns (q: Account)
    requires |chosen| <= |all| && p in chosen && p !in all
    ensures q in all && q !in chosen
  {
    if all <= chosen {
      SubsetSize(all, chosen - {p});
      assert false;
    }
    q :| q in all && q !in chosen;
  }

  lemma {:induction false} SubsetSize(s: set<Account>, t: set<Account>)
    requires s <= t
    ensures |s| <= |t|
  {
    if s != {} {
      var o :| o in s;
      SubsetSize(s - {o}, t - {o});
    }
  }

  /** The top tier itself is such a selection: as many delegations as fit, worth the counted total. */
  lemma TopIsASelection(t: Tiers)
    requires Shape(t)
    ensures var chosen := ToMap(t.top).Keys;
            && chosen <= Backers(t).Keys
            && |chosen| == (if |Backers(t)| <= MAX_TOP then |Backers(t)| else MAX_TOP)
            && Sum(Chosen(Backers(t), chosen)) == SeqSum(t.top)
  {
    SumToMap(t.top);
    SumToMap(t.bottom);
    UpperIsASelection(ToMap(t.top), ToMap(t.bottom));
  }

  lemma UpperIsASelection(m: map<Account, Balance>, n: map<Account, Balance>)
    requires m.Keys !! n.Keys
    ensures Chosen(m + n, m.Keys) == m
    ensures |m + n| == |m| + |n|
    ensures |m.Keys| == |m|
  {
    assert (m + n).Keys == m.Keys + n.Keys;
  }
}
