/** Every change of the delegation book keeps its invariant. */
module Bookkeeping {
  import opened Config
  import opened Wrappers
  import opened Sums
  import opened Bonds
  import opened OrderedSets
  import opened Book

  // The mirror

  /** Changing one pair on both sides keeps the mirror. */
  lemma MirrorKept(bk: Book, after: Book, c: Account, d: Account, v: Option<Balance>)
    requires Mirror(bk)
    requires forall e, f :: Lookup(BackersOf(after, e), f) ==
                            if e == c && f == d then v else Lookup(BackersOf(bk, e), f)
    requires forall e, f :: Lookup(BondsOf(after.delegators, f), e) ==
                            if e == c && f == d then v else Lookup(BondsOf(bk.delegators, f), e)
    ensures Mirror(after)
  {
  }

  lemma MirrorSame(bk: Book, after: Book)
    requires Mirror(bk)
    requires forall e :: BackersOf(after, e) == BackersOf(bk, e)
    requires forall f :: BondsOf(after.delegators, f) == BondsOf(bk.delegators, f)
    ensures Mirror(after)
  {
    forall e, f
      ensures Lookup(BackersOf(after, e), f) == Lookup(BondsOf(after.delegators, f), e)
    {
      assert Lookup(BackersOf(bk, e), f) == Lookup(BondsOf(bk.delegators, f), e);
    }
  }

  /** Requests stay backed when nothing but one pair changes, and its request can live with the change. */
  lemma RequestsKept(bk: Book, after: Book, c: Account, d: Account, v: Option<Balance>)
    requires RequestsOk(bk) && after.requests == bk.requests
    requires forall e, f :: Lookup(BackersOf(after, e), f) ==
                            if e == c && f == d then v else Lookup(BackersOf(bk, e), f)
    requires forall r | r in RequestsOf(bk.requests, c) && r.delegator == d :: Backed(r, v)
    ensures RequestsOk(after)
  {
    forall e, r | e in after.requests && r in after.requests[e]
      ensures Backed(r, Lookup(BackersOf(after, e), r.delegator))
    {
      assert Backed(r, Lookup(BackersOf(bk, e), r.delegator));
    }
  }

  /** The bond of a recorded delegation, as its delegator's record has it. */
  lemma BondIn(bk: Book, c: Account, d: Account)
    requires Mirror(bk) && DelegatorsOk(bk) && c in bk.backing && d in bk.backing[c]
    ensures d in bk.delegators && d !in bk.backing && d != PALLET
    ensures var rec := bk.delegators[d];
            && DelegatorOk(d, rec)
            && c in ToMap(rec.delegations)
            && ToMap(rec.delegations)[c] == AmountOf(rec.delegations, c) == bk.backing[c][d]
            && MIN_DELEGATION <= bk.backing[c][d] <= rec.total
  {
    assert Lookup(BackersOf(bk, c), d) == Lookup(BondsOf(bk.delegators, d), c);
    AmountOfIs(bk.delegators[d].delegations, c);
    SumEntry(ToMap(bk.delegators[d].delegations), c);
  }

  lemma BackerIsDelegator(bk: Book, c: Account, d: Account)
    requires Mirror(bk) && c in bk.backing && d in bk.backing[c]
    ensures d in bk.delegators
  {
    assert Lookup(BackersOf(bk, c), d) == Lookup(BondsOf(bk.delegators, d), c);
  }

  // Pending amounts

  /** Forgetting the request of `d` with `c` lowers what `d` has pending by just that, and nobody else's. */
  lemma ForgetPending(rq: map<Account, seq<Request>>, c: Account, d: Account)
    requires forall e | e in rq :: OneRequestEach(rq[e])
    ensures Sum(Pending(Forget(rq, c, d), d)) + PendingIn(RequestsOf(rq, c), d) == Sum(Pending(rq, d))
    ensures forall e | e != d :: Pending(Forget(rq, c, d), e) == Pending(rq, e)
  {
    if c in rq {
      DropRequestHolds(rq[c], d);
      assert Pending(Forget(rq, c, d), d) == Pending(rq, d)[c := 0];
      SumUpdate(Pending(rq, d), c, 0);
      forall e | e != d
        ensures Pending(Forget(rq, c, d), e) == Pending(rq, e)
      {
        DropRequestOthers(rq[c], d, e);
      }
    }
  }

  /** Who has no bonds has nothing pending. */
  lemma StrangerHasNothingPending(bk: Book, d: Account)
    requires Mirror(bk) && RequestsOk(bk) && d !in bk.delegators
    ensures Sum(Pending(bk.requests, d)) == 0
  {
    forall c | c in bk.requests
      ensures PendingIn(bk.requests[c], d) == 0
    {
      forall r | r in bk.requests[c]
        ensures r.delegator in bk.delegators
      {
        assert Lookup(BackersOf(bk, c), r.delegator) == Lookup(BondsOf(bk.delegators, r.delegator), c);
      }
      NoRequestNoPending(bk.requests[c], d);
    }
    SumZero(Pending(bk.requests, d));
  }

  // Release

  lemma ReleaseRecord(bk: Book, c: Account, d: Account)
    requires BookOk(bk) && c in bk.backing && d in bk.backing[c]
    ensures d in bk.delegators
    ensures var rec := Parted(bk.delegators[d], c, PendingIn(RequestsOf(bk.requests, c), d));
            && rec.id == d
            && ToMap(rec.delegations) == ToMap(bk.delegators[d].delegations) - {c}
            && (rec.delegations != [] ==> DelegatorOk(d, rec))
            && (rec.delegations == [] ==> ToMap(rec.delegations) == map[])
            && rec.lessTotal == Sum(Pending(Forget(bk.requests, c, d), d))
            && rec.total == Sum(ToMap(rec.delegations))
  {
    BondIn(bk, c, d);
    var rec := bk.delegators[d];
    SortedWithout(rec.delegations, c);
    SumDrop(ToMap(rec.delegations), c);
    ForgetPending(bk.requests, c, d);
  }

  lemma ReleaseMirror(bk: Book, c: Account, d: Account)
    requires BookOk(bk) && c in bk.backing && d in bk.backing[c]
    ensures d in bk.delegators && Mirror(Release(bk, c, d))
  {
    hide Mirror, RequestsOk, LessOk, ToMap, Sum, PendingIn, Forget, Without, AmountOf;
    ReleaseRecord(bk, c, d);
    MirrorKept(bk, Release(bk, c, d), c, d, None);
  }

  lemma ReleaseRequests(bk: Book, c: Account, d: Account)
    requires BookOk(bk) && c in bk.backing && d in bk.backing[c]
    ensures d in bk.delegators && RequestsOk(Release(bk, c, d))
  {
    hide ToMap, PendingIn, DropRequest, Without, AmountOf, LessOk, DelegatorOk, Store;
    BondIn(bk, c, d);
    var after := Release(bk, c, d);
    if c in bk.requests {
      DropRequestHolds(bk.requests[c], d);
    }
    forall e, r | e in after.requests && r in after.requests[e]
      ensures Backed(r, Lookup(BackersOf(after, e), r.delegator))
    {
      assert r in bk.requests[e];
      assert Lookup(BackersOf(after, e), r.delegator) == Lookup(BackersOf(bk, e), r.delegator);
    }
  }

  lemma ReleaseDelegators(bk: Book, c: Account, d: Account)
    requires BookOk(bk) && c in bk.backing && d in bk.backing[c]
    ensures d in bk.delegators && DelegatorsOk(Release(bk, c, d))
  {
    hide Mirror, RequestsOk, LessOk, DelegatorOk, ToMap, Sum, PendingIn, Forget, Without, AmountOf;
    ReleaseRecord(bk, c, d);
    assert Release(bk, c, d).backing.Keys == bk.backing.Keys;
  }

  lemma ReleaseLess(bk: Book, c: Account, d: Account)
    requires BookOk(bk) && c in bk.backing && d in bk.backing[c]
    ensures d in bk.delegators && LessOk(Release(bk, c, d))
  {
    hide Mirror, DelegatorsOk, ToMap, Sum, Pending, PendingIn, DropRequest, Without, AmountOf;
    ReleaseRecord(bk, c, d);
    ForgetPending(bk.requests, c, d);
  }

  /** Ending a delegation on both sides, with its request, keeps the book in order. */
  lemma ReleaseKeeps(bk: Book, c: Account, d: Account)
    requires BookOk(bk) && c in bk.backing && d in bk.backing[c]
    ensures d in bk.delegators && BookOk(Release(bk, c, d))
    ensures Sum(bk.backing[c] - {d}) + bk.backing[c][d] == Sum(bk.backing[c])
  {
    hide Mirror, DelegatorsOk, RequestsOk, LessOk, Release, Sum;
    ReleaseMirror(bk, c, d);
    ReleaseDelegators(bk, c, d);
    ReleaseRequests(bk, c, d);
    ReleaseLess(bk, c, d);
    SumDrop(bk.backing[c], d);
  }

  // Place

  lemma PlaceRecord(bk: Book, c: Account, d: Account, a: Balance)
    requires BookOk(bk) && c in bk.backing && d !in bk.backing[c]
    requires a >= MIN_DELEGATION && (d in bk.delegators ==> |bk.delegators[d].delegations| < MAX_DELEGATIONS)
    ensures var rec := Joined(bk.delegators, d, Bond(c, a));
            && DelegatorOk(d, rec)
            && ToMap(rec.delegations) == BondsOf(bk.delegators, d)[c := a]
            && rec.lessTotal == Sum(Pending(bk.requests, d))
  {
    assert Lookup(BackersOf(bk, c), d) == Lookup(BondsOf(bk.delegators, d), c);
    if d in bk.delegators {
      ToMapInsertByOwner(bk.delegators[d].delegations, Bond(c, a));
      SumUpdate(ToMap(bk.delegators[d].delegations), c, a);
    } else {
      StrangerHasNothingPending(bk, d);
      SumToMap([Bond(c, a)]);
    }
  }

  lemma PlaceMirror(bk: Book, c: Account, d: Account, a: Balance)
    requires BookOk(bk) && c in bk.backing && d !in bk.backing[c]
    requires a >= MIN_DELEGATION && (d in bk.delegators ==> |bk.delegators[d].delegations| < MAX_DELEGATIONS)
    ensures Mirror(Place(bk, c, d, a))
  {
    hide Mirror, RequestsOk, LessOk, ToMap, Sum, PendingIn, InsertByOwner;
    PlaceRecord(bk, c, d, a);
    MirrorKept(bk, Place(bk, c, d, a), c, d, Some(a));
  }

  /** A new delegation entered on both sides keeps the book in order. */
  lemma PlaceKeeps(bk: Book, c: Account, d: Account, a: Balance)
    requires BookOk(bk) && c in bk.backing && d !in bk.backing[c]
    requires a >= MIN_DELEGATION && (d in bk.delegators ==> |bk.delegators[d].delegations| < MAX_DELEGATIONS)
    requires d !in bk.backing && d != PALLET
    ensures BookOk(Place(bk, c, d, a))
    ensures Sum(With(bk.backing[c], d, a)) == Sum(bk.backing[c]) + a
  {
    hide Mirror, ToMap, PendingIn, SortedByOwner, InsertByOwner;
    PlaceRecord(bk, c, d, a);
    PlaceMirror(bk, c, d, a);
    SumUpdate(bk.backing[c], d, a);
    forall r | r in RequestsOf(bk.requests, c)
      ensures r.delegator != d
    {
      assert Backed(r, Lookup(BackersOf(bk, c), r.delegator));
    }
    RequestsKept(bk, Place(bk, c, d, a), c, d, Some(a));
  }

  // Revise

  lemma ReviseRecord(bk: Book, c: Account, d: Account, a: Balance)
    requires BookOk(bk) && c in bk.backing && d in bk.backing[c] && a >= MIN_DELEGATION
    ensures d in bk.delegators
    ensures var rec := Revised(bk.delegators[d], c, a);
            && DelegatorOk(d, rec)
            && ToMap(rec.delegations) == ToMap(bk.delegators[d].delegations)[c := a]
            && rec.lessTotal == bk.delegators[d].lessTotal
  {
    BondIn(bk, c, d);
    SortedRevalue(bk.delegators[d].delegations, c, a);
    SumUpdate(ToMap(bk.delegators[d].delegations), c, a);
  }

  lemma ReviseMirror(bk: Book, c: Account, d: Account, a: Balance)
    requires BookOk(bk) && c in bk.backing && d in bk.backing[c] && a >= MIN_DELEGATION
    ensures d in bk.delegators && Mirror(Revise(bk, c, d, a))
  {
    ReviseRecord(bk, c, d, a);
    MirrorKept(bk, Revise(bk, c, d, a), c, d, Some(a));
  }

  /** A new amount entered on both sides keeps the book in order if a pending request can live with it. */
  lemma ReviseKeeps(bk: Book, c: Account, d: Account, a: Balance)
    requires BookOk(bk) && c in bk.backing && d in bk.backing[c] && a >= MIN_DELEGATION
    requires forall r | r in RequestsOf(bk.requests, c) && r.delegator == d :: Backed(r, Some(a))
    ensures d in bk.delegators && BookOk(Revise(bk, c, d, a))
    ensures Sum(With(bk.backing[c], d, a)) + bk.backing[c][d] == Sum(bk.backing[c]) + a
  {
    BondIn(bk, c, d);
    ReviseRecord(bk, c, d, a);
    ReviseMirror(bk, c, d, a);
    SumUpdate(bk.backing[c], d, a);
    RequestsKept(bk, Revise(bk, c, d, a), c, d, Some(a));
  }

  // Ask and withdraw

  lemma AskPending(bk: Book, c: Account, r: Request)
    requires !HasRequest(RequestsOf(bk.requests, c), r.delegator)
    ensures var l := RequestsOf(bk.requests, c) + [r];
            && Sum(Pending(bk.requests[c := l], r.delegator)) == Sum(Pending(bk.requests, r.delegator)) + r.action.amount
            && forall e | e != r.delegator :: Sum(Pending(bk.requests[c := l], e)) == Sum(Pending(bk.requests, e))
  {
    var l := RequestsOf(bk.requests, c);
    forall e
      ensures Sum(Pending(bk.requests[c := l + [r]], e)) ==
              Sum(Pending(bk.requests, e)) + if e == r.delegator then r.action.amount else 0
    {
      PendingInAppend(l, r, e);
      if !HasRequest(l, e) {
        NoRequestNoPending(l, e);
      }
      assert Pending(bk.requests[c := l + [r]], e) == Pending(bk.requests, e)[c := PendingIn(l + [r], e)];
      SumUpdate(Pending(bk.requests, e), c, PendingIn(l + [r], e));
    }
  }

  /** A change of `lessTotal` alone is invisible to the mirror. */
  lemma LessOnly(bk: Book, after: Book, d: Account, less: Balance)
    requires Mirror(bk) && DelegatorsOk(bk) && d in bk.delegators
    requires after.backing == bk.backing
    requires after.delegators == bk.delegators[d := bk.delegators[d].(lessTotal := less)]
    ensures Mirror(after) && DelegatorsOk(after)
  {
    MirrorSame(bk, after);
  }

  lemma AskRequests(bk: Book, c: Account, r: Request)
    requires BookOk(bk) && r.delegator in bk.delegators
    requires !HasRequest(RequestsOf(bk.requests, c), r.delegator)
    requires Backed(r, Lookup(BackersOf(bk, c), r.delegator))
    ensures RequestsOk(Ask(bk, c, r))
  {
    var after := Ask(bk, c, r);
    forall e, q | e in after.requests && q in after.requests[e]
      ensures Backed(q, Lookup(BackersOf(after, e), q.delegator))
    {
      assert q == r || Backed(q, Lookup(BackersOf(bk, e), q.delegator));
    }
    var l := RequestsOf(bk.requests, c);
    forall i | 0 <= i < |l|
      ensures l[i].delegator != r.delegator
    {
      assert l[i] in l;
    }
  }

  lemma AskLess(bk: Book, c: Account, r: Request)
    requires LessOk(bk) && r.delegator in bk.delegators
    requires !HasRequest(RequestsOf(bk.requests, c), r.delegator)
    ensures LessOk(Ask(bk, c, r))
  {
    AskPending(bk, c, r);
  }

  /** A request that a live bond covers, the first of its delegator with this candidate, fits the book. */
  lemma AskKeeps(bk: Book, c: Account, r: Request)
    requires BookOk(bk) && c in bk.backing && r.delegator in bk.backing[c]
    requires !HasRequest(RequestsOf(bk.requests, c), r.delegator)
    requires Backed(r, Some(bk.backing[c][r.delegator]))
    ensures r.delegator in bk.delegators && BookOk(Ask(bk, c, r))
  {
    hide Mirror, DelegatorsOk, RequestsOk, LessOk, HasRequest, Backed;
    BackerIsDelegator(bk, c, r.delegator);
    LessOnly(bk, Ask(bk, c, r), r.delegator, bk.delegators[r.delegator].lessTotal + r.action.amount);
    AskLess(bk, c, r);
    AskRequests(bk, c, r);
  }

  lemma WithdrawRequests(bk: Book, c: Account, d: Account)
    requires BookOk(bk) && d in bk.delegators
    ensures RequestsOk(Withdraw(bk, c, d))
  {
    var after := Withdraw(bk, c, d);
    if c in bk.requests {
      DropRequestHolds(bk.requests[c], d);
    }
    forall e, q | e in after.requests && q in after.requests[e]
      ensures Backed(q, Lookup(BackersOf(after, e), q.delegator))
    {
      assert Backed(q, Lookup(BackersOf(bk, e), q.delegator));
    }
  }

  /** Taking a request back keeps the book in order. */
  lemma WithdrawKeeps(bk: Book, c: Account, d: Account)
    requires BookOk(bk) && d in bk.delegators
    ensures BookOk(Withdraw(bk, c, d))
  {
    ForgetPending(bk.requests, c, d);
    WithdrawRequests(bk, c, d);
    var after := Withdraw(bk, c, d);
    LessOnly(bk, after, d, after.delegators[d].lessTotal);
  }

  // Candidates come and go

  lemma OpenKeeps(bk: Book, c: Account)
    requires BookOk(bk) && c !in bk.backing && c !in bk.delegators
    ensures BookOk(Open(bk, c))
  {
    var after := Open(bk, c);
    assert forall e :: BackersOf(after, e) == BackersOf(bk, e);
    MirrorSame(bk, after);
    RequestsKept(bk, after, c, c, Lookup(BackersOf(bk, c), c));
  }

  lemma CloseKeeps(bk: Book, c: Account)
    requires BookOk(bk) && c in bk.backing && bk.backing[c] == map[]
    ensures BookOk(Close(bk, c))
  {
    var after := Close(bk, c);
    assert forall e :: BackersOf(after, e) == BackersOf(bk, e);
    MirrorSame(bk, after);
    forall d | d in bk.delegators
      ensures Sum(Pending(after.requests, d)) == Sum(Pending(bk.requests, d))
    {
      ClosePending(bk, c, d);
    }
    forall e, r | e in after.requests && r in after.requests[e]
      ensures Backed(r, Lookup(BackersOf(after, e), r.delegator))
    {
      assert Backed(r, Lookup(BackersOf(bk, e), r.delegator));
    }
  }

  lemma ClosePending(bk: Book, c: Account, d: Account)
    requires RequestsOk(bk) && c in bk.backing && bk.backing[c] == map[]
    ensures Sum(Pending(bk.requests - {c}, d)) == Sum(Pending(bk.requests, d))
  {
    assert Pending(bk.requests - {c}, d) == Pending(bk.requests, d) - {c};
    SumDrop(Pending(bk.requests, d), c);
    if c in bk.requests {
      assert forall r | r in bk.requests[c] :: Backed(r, Lookup(BackersOf(bk, c), r.delegator));
      NoRequestNoPending(bk.requests[c], d);
    }
  }
}
