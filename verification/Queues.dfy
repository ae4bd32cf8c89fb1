/**
 Who waits where: the order among delegations of one amount, in both tiers and through every change. As the lists are
 sorted by amount, these queues determine them.
 */
module Queues {
  import opened Config
  import opened Wrappers
  import opened Bonds
  import opened DelegationList
  import opened Tiers

  /** The queue of one amount with a newcomer behind it. */
  function Behind(q: seq<Bond>, x: Bond, a: Balance): seq<Bond> {
    if x.amount == a then q + [x] else q
  }

  /** The queue of one amount with somebody ahead of it. */
  function Ahead(q: seq<Bond>, x: Bond, a: Balance): seq<Bond> {
    if x.amount == a then [x] + q else q
  }

  /** Who came last among the lowest of a list, and the queues without it. */
  function Newest(s: seq<Bond>): Bond
    requires OfAmount(s, Lowest(s)) != []
  {
    var q := OfAmount(s, Lowest(s));
    q[|q| - 1]
  }

  function SansNewest(s: seq<Bond>, a: Balance): seq<Bond> {
    var q := OfAmount(s, a);
    if a == Lowest(s) && q != [] then q[..|q| - 1] else q
  }

  /** Who came first among the highest of a list, and the queues without it. */
  function Oldest(s: seq<Bond>): Bond
    requires OfAmount(s, Highest(s)) != []
  {
    OfAmount(s, Highest(s))[0]
  }

  function SansOldest(s: seq<Bond>, a: Balance): seq<Bond> {
    var q := OfAmount(s, a);
    if a == Highest(s) && q != [] then q[1..] else q
  }

  // Queues of parts of a list

  lemma QueuesOfInit(s: seq<Bond>, a: Balance)
    requires s != []
    ensures OfAmount(s, Lowest(s)) != [] && Newest(s) == Last(s)
    ensures OfAmount(Init(s), a) == SansNewest(s, a)
  {
    OfAmountLast(s, a);
    OfAmountLast(s, Lowest(s));
  }

  lemma QueuesOfTail(s: seq<Bond>, a: Balance)
    requires s != []
    ensures OfAmount(s, Highest(s)) != [] && Oldest(s) == s[0]
    ensures OfAmount(s[1..], a) == SansOldest(s, a)
  {
  }

  lemma {:induction false} QueuesOfWithout(s: seq<Bond>, o: Account, a: Balance)
    ensures OfAmount(Without(s, o), a) == Without(OfAmount(s, a), o)
  {
    if s != [] {
      var x, rest := s[0], s[1..];
      QueuesOfWithout(rest, o, a);
      assert s == [x] + rest;
      Prepended(x, rest, a);
      Prepended(x, Without(rest, o), a);
      PrependedWithout(x, rest, o);
      PrependedWithout(x, OfAmount(rest, a), o);
      hide OfAmount, Without;
    }
  }

  lemma PrependedWithout(x: Bond, s: seq<Bond>, o: Account)
    ensures Without([x] + s, o) == if x.owner == o then Without(s, o) else [x] + Without(s, o)
  {
    assert ([x] + s)[1..] == s;
    assert [] + Without(s, o) == Without(s, o);
  }

  lemma Prepended(x: Bond, s: seq<Bond>, a: Balance)
    ensures OfAmount([x] + s, a) == if x.amount == a then [x] + OfAmount(s, a) else OfAmount(s, a)
  {
    assert ([x] + s)[1..] == s;
    assert [] + OfAmount(s, a) == OfAmount(s, a);
  }

  lemma {:induction false} Stranger(s: seq<Bond>, o: Account, amount: Balance)
    requires !HasOwner(s, o)
    ensures Revalue(s, o, amount) == s && Without(s, o) == s
  {
    if s != [] {
      assert s[0] in s;
      assert forall b | b in s[1..] :: b in s;
      Stranger(s[1..], o, amount);
    }
  }

  lemma HeadRevalued(s: seq<Bond>, amount: Balance, a: Balance)
    requires SortedDesc(s) && Distinct(s) && s != [] && amount != s[0].amount
    ensures var o := s[0].owner; var x, q := Bond(o, amount), OfAmount(Without(s, o), a);
            OfAmount(Revalue(s, o, amount), a) == if amount > s[0].amount then Behind(q, x, a) else Ahead(q, x, a)
  {
    var o, rest := s[0].owner, s[1..];
    HeadIsNew(s);
    Stranger(rest, o, amount);
    assert [] + Without(rest, o) == rest;
    Prepended(Bond(o, amount), rest, a);
    if amount > s[0].amount && amount == a {
      NoneBelow(rest, a);
    }
  }

  /** A larger amount puts a delegation behind those who have it, a smaller one ahead of them. */
  lemma {:induction false} QueuesOfRevalue(s: seq<Bond>, o: Account, before: Balance, amount: Balance, a: Balance)
    requires SortedDesc(s) && Distinct(s) && Bond(o, before) in s && amount != before
    ensures var x, q := Bond(o, amount), OfAmount(Without(s, o), a);
            OfAmount(Revalue(s, o, amount), a) == if amount > before then Behind(q, x, a) else Ahead(q, x, a)
  {
    var rest := s[1..];
    if s[0].owner == o {
      HeadRevalued(s, amount, a);
    } else {
      assert Bond(o, before) in rest && s[0].amount >= before;
      QueuesOfRevalue(rest, o, before, amount, a);
      Prepended(s[0], Revalue(rest, o, amount), a);
      Prepended(s[0], Without(rest, o), a);
      hide Without, Revalue, SortedDesc, Distinct;
    }
  }

  /** The same, for a sorted list that is sorted again. */
  lemma QueuesOfChange(s: seq<Bond>, o: Account, amount: Balance, a: Balance)
    requires Ranked(s) && o in ToMap(s) && amount != ToMap(s)[o]
    ensures var x, q := Bond(o, amount), Without(OfAmount(s, a), o);
            OfAmount(SortDesc(Revalue(s, o, amount)), a) ==
            if amount > ToMap(s)[o] then Behind(q, x, a) else Ahead(q, x, a)
  {
    hide ToMap, OfAmount, Revalue, Without, SortDesc;
    SortDescIsStable(Revalue(s, o, amount), a);
    ToMapHolds(s);
    QueuesOfRevalue(s, o, ToMap(s)[o], amount, a);
    QueuesOfWithout(s, o, a);
  }

  lemma QueuesOfInsert(s: seq<Bond>, x: Bond, a: Balance)
    requires Ranked(s)
    ensures OfAmount(InsertDesc(s, x), a) == Behind(OfAmount(s, a), x, a)
  {
    InsertDescIsFifo(s, x, a);
  }

  /** Where a delegation is, and at what amount. */
  lemma PlaceOf(t: Tiers, o: Account)
    requires Shape(t) && o in Backers(t)
    ensures Ranked(t.top) && Ranked(t.bottom)
    ensures if o in ToMap(t.top) then ToMap(t.top)[o] == Backers(t)[o]
            else o in ToMap(t.bottom) && ToMap(t.bottom)[o] == Backers(t)[o]
  {
    hide ToMap, Above, Ranked;
  }

  // The laws

  /**
   A newcomer goes to the top if there is room or if it is larger than the lowest there, and else to the bottom; it goes
   behind its equals. The top makes room by sending its lowest down, of equals the newest, and that one goes behind its
   equals in the bottom; the bottom makes room by giving up its lowest, of equals the newest.
   */
  lemma AddQueues(t: Tiers, x: Bond, a: Balance)
    requires Shape(t)
    ensures var t' := Add(t, x);
            var room := if |t.bottom| == MAX_BOTTOM then SansNewest(t.bottom, a) else OfAmount(t.bottom, a);
            if |t.top| < MAX_TOP then
              OfAmount(t'.top, a) == Behind(OfAmount(t.top, a), x, a) && t'.bottom == t.bottom
            else if x.amount > Lowest(t.top) then
              && OfAmount(t'.top, a) == Behind(SansNewest(t.top, a), x, a)
              && OfAmount(t.top, Lowest(t.top)) != []
              && OfAmount(t'.bottom, a) == Behind(room, Newest(t.top), a)
            else
              t'.top == t.top && OfAmount(t'.bottom, a) == Behind(room, x, a)
    ensures IsFull(t) ==> OfAmount(t.bottom, Lowest(t.bottom)) != [] && Kicked(t) == Some(Newest(t.bottom))
  {
    hide ToMap, OfAmount, InsertDesc;
    if t.top != [] {
      QueuesOfInit(t.top, a);
      RankedInit(t.top);
    }
    if t.bottom != [] {
      QueuesOfInit(t.bottom, a);
      RankedInit(t.bottom);
    }
    QueuesOfInsert(t.top, x, a);
    if |t.top| == MAX_TOP {
      QueuesOfInsert(Init(t.top), x, a);
      QueuesOfInsert(Room(t), Last(t.top), a);
      QueuesOfInsert(Room(t), x, a);
    }
  }

  /**
   Where a delegation leaves, the others keep their order. Into the top's gap rises the highest of the bottom, of equals
   the one that waited longest, and it goes behind its equals there.
   */
  lemma RemoveQueues(t: Tiers, o: Account, a: Balance)
    requires Shape(t) && o in Backers(t)
    ensures var t' := Remove(t, o);
            if o !in ToMap(t.top) then
              t'.top == t.top && OfAmount(t'.bottom, a) == Without(OfAmount(t.bottom, a), o)
            else if t.bottom == [] then
              OfAmount(t'.top, a) == Without(OfAmount(t.top, a), o) && t'.bottom == []
            else
              && OfAmount(t.bottom, Highest(t.bottom)) != []
              && OfAmount(t'.top, a) == Behind(Without(OfAmount(t.top, a), o), Oldest(t.bottom), a)
              && OfAmount(t'.bottom, a) == SansOldest(t.bottom, a)
  {
    hide ToMap, OfAmount, InsertDesc, Without;
    TierOf(t, o);
    QueuesOfWithout(t.top, o, a);
    QueuesOfWithout(t.bottom, o, a);
    if o in ToMap(t.top) && t.bottom != [] {
      QueuesOfTail(t.bottom, a);
      RankedWithout(t.top, o);
      QueuesOfInsert(Without(t.top, o), t.bottom[0], a);
    }
  }

  /**
   Who adds to its delegation goes behind its new equals. It rises into the top if it then exceeds the lowest there;
   that one, of equals the newest, changes places with it and goes behind its own equals.
   */
  lemma RaiseQueues(t: Tiers, o: Account, more: Balance, a: Balance)
    requires Shape(t) && o in Backers(t) && more > 0
    ensures t.top != []
    ensures var t', x := Raise(t, o, more), Bond(o, Backers(t)[o] + more);
            if o in ToMap(t.top) then
              OfAmount(t'.top, a) == Behind(Without(OfAmount(t.top, a), o), x, a) && t'.bottom == t.bottom
            else if x.amount > Lowest(t.top) then
              && OfAmount(t.top, Lowest(t.top)) != []
              && OfAmount(t'.top, a) == Behind(SansNewest(t.top, a), x, a)
              && OfAmount(t'.bottom, a) == Behind(Without(OfAmount(t.bottom, a), o), Newest(t.top), a)
            else
              t'.top == t.top && OfAmount(t'.bottom, a) == Behind(Without(OfAmount(t.bottom, a), o), x, a)
  {
    RaiseCases(t, o, more);
    PlaceOf(t, o);
    hide OfAmount, InsertDesc, Without, SortDesc, Revalue, Raise, ToMap, Above, Ranked, Backers;
    var amount := Backers(t)[o] + more;
    if o in ToMap(t.top) {
      QueuesOfChange(t.top, o, amount, a);
    } else if amount > Lowest(t.top) {
      QueuesOfInit(t.top, a);
      RankedInit(t.top);
      RankedWithout(t.bottom, o);
      QueuesOfInsert(Init(t.top), Bond(o, amount), a);
      QueuesOfInsert(Without(t.bottom, o), Last(t.top), a);
      QueuesOfWithout(t.bottom, o, a);
    } else {
      QueuesOfChange(t.bottom, o, amount, a);
    }
  }

  /**
   Who takes from its delegation stays ahead of its new equals in its tier. It sinks out of the top if it is then less
   than the highest of the bottom; that one, of equals the one that waited longest, changes places with it, and each
   goes behind its equals.
   */
  lemma LowerQueues(t: Tiers, o: Account, less: Balance, a: Balance)
    requires Shape(t) && o in Backers(t) && 0 < less <= Backers(t)[o]
    ensures var t', x := Lower(t, o, less), Bond(o, Backers(t)[o] - less);
            if o !in ToMap(t.top) then
              t'.top == t.top && OfAmount(t'.bottom, a) == Ahead(Without(OfAmount(t.bottom, a), o), x, a)
            else if x.amount < Highest(t.bottom) then
              && OfAmount(t.bottom, Highest(t.bottom)) != []
              && OfAmount(t'.top, a) == Behind(Without(OfAmount(t.top, a), o), Oldest(t.bottom), a)
              && OfAmount(t'.bottom, a) == Behind(SansOldest(t.bottom, a), x, a)
            else
              OfAmount(t'.top, a) == Ahead(Without(OfAmount(t.top, a), o), x, a) && t'.bottom == t.bottom
  {
    hide OfAmount, InsertDesc, Without, SortDesc, Revalue, Lower, ToMap, Shape, Ranked, Backers, Behind, Ahead,
      SansOldest, Oldest;
    LowerCases(t, o, less);
    PlaceOf(t, o);
    var amount := Backers(t)[o] - less;
    if o !in ToMap(t.top) {
      QueuesOfChange(t.bottom, o, amount, a);
    } else if amount < Highest(t.bottom) {
      SinkQueues(t, o, amount, a);
    } else {
      QueuesOfChange(t.top, o, amount, a);
    }
  }

  lemma SinkQueues(t: Tiers, o: Account, amount: Balance, a: Balance)
    requires Shape(t) && o in ToMap(t.top) && t.bottom != []
    ensures OfAmount(t.bottom, Highest(t.bottom)) != []
    ensures OfAmount(InsertDesc(Without(t.top, o), t.bottom[0]), a)
         == Behind(Without(OfAmount(t.top, a), o), Oldest(t.bottom), a)
    ensures OfAmount(InsertDesc(t.bottom[1..], Bond(o, amount)), a)
         == Behind(SansOldest(t.bottom, a), Bond(o, amount), a)
  {
    hide OfAmount, InsertDesc, Without, ToMap, Above;
    QueuesOfTail(t.bottom, a);
    RankedTail(t.bottom);
    RankedWithout(t.top, o);
    QueuesOfInsert(Without(t.top, o), t.bottom[0], a);
    QueuesOfInsert(t.bottom[1..], Bond(o, amount), a);
    QueuesOfWithout(t.top, o, a);
  }

  // The queues determine the list

  /** Two sorted lists with the same queues are the same list, so that the laws leave nothing open. */
  lemma {:induction false} QueuesAreAll(s: seq<Bond>, t: seq<Bond>)
    requires SortedDesc(s) && SortedDesc(t) && forall a: Balance :: OfAmount(s, a) == OfAmount(t, a)
    ensures s == t
  {
    if s != [] && t != [] {
      SameHead(s, t);
      SameHead(t, s);
      forall a: Balance
        ensures OfAmount(s[1..], a) == OfAmount(t[1..], a)
      {
        QueuesOfTail(s, a);
        QueuesOfTail(t, a);
      }
      QueuesAreAll(s[1..], t[1..]);
    } else if s != [] {
      QueuesOfTail(s, 0);
    } else if t != [] {
      QueuesOfTail(t, 0);
    }
  }

  lemma SameHead(s: seq<Bond>, t: seq<Bond>)
    requires SortedDesc(s) && SortedDesc(t) && s != [] && t != []
    requires forall a: Balance :: OfAmount(s, a) == OfAmount(t, a)
    ensures s[0].amount <= t[0].amount && (s[0].amount == t[0].amount ==> s[0] == t[0])
  {
    hide OfAmount;
    QueuesOfTail(s, 0);
    QueuesOfTail(t, 0);
    if s[0].amount > t[0].amount {
      NoneBelow(t, s[0].amount);
    }
  }

  lemma SortIdle(s: seq<Bond>)
    requires SortedDesc(s)
    ensures SortDesc(s) == s
  {
    hide OfAmount, SortDesc;
    SortDescHolds(s);
    forall a: Balance
      ensures OfAmount(SortDesc(s), a) == OfAmount(s, a)
    {
      SortDescIsStable(s, a);
    }
    QueuesAreAll(SortDesc(s), s);
  }

  lemma RevalueIdle(s: seq<Bond>, o: Account)
    requires Ranked(s) && o in ToMap(s)
    ensures SortDesc(Revalue(s, o, ToMap(s)[o])) == s
  {
    hide SortDesc, ToMap;
    ToMapHolds(s);
    RevalueHolds(s, o, ToMap(s)[o]);
    hide Revalue;
    var b := Bond(o, ToMap(s)[o]);
    assert Revalue(s, o, ToMap(s)[o]) == s by {
      forall i | 0 <= i < |s| && s[i].owner == o
        ensures s[i] == b
      {
        OneBondEach(s, s[i], b);
      }
    }
    SortIdle(s);
  }

  /** Adding nothing, or taking nothing, changes nothing. */
  lemma NothingMoves(t: Tiers, o: Account)
    requires Shape(t) && o in Backers(t)
    ensures t.top != [] && Raise(t, o, 0) == t && Lower(t, o, 0) == t
  {
    hide ToMap, Shape, Backers, Revalue, SortDesc, InsertDesc, Without, Raise, Lower;
    RaiseCases(t, o, 0);
    LowerCases(t, o, 0);
    NothingMovesIn(t, o);
  }

  lemma NothingMovesIn(t: Tiers, o: Account)
    requires Shape(t) && o in Backers(t) && t.top != []
    ensures if o in ToMap(t.top)
            then SortDesc(Revalue(t.top, o, Backers(t)[o])) == t.top && Backers(t)[o] >= Highest(t.bottom)
            else SortDesc(Revalue(t.bottom, o, Backers(t)[o])) == t.bottom && Backers(t)[o] <= Lowest(t.top)
  {
    hide Revalue, SortDesc, ToMap, Backers;
    PlaceOf(t, o);
    if o in ToMap(t.top) {
      TopBacker(t, o);
      RevalueIdle(t.top, o);
    } else {
      BottomBacker(t, o);
      RevalueIdle(t.bottom, o);
    }
  }
}
