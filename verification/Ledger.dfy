/** What the changes of existing delegations do to the pallet as a whole, and that they keep its invariant. */
module Ledger {
  import opened Config
  import opened Wrappers
  import opened Sums
  import opened Bonds
  import opened DelegationList
  import opened Tiers
  import opened OrderedSets
  import opened Book
  import opened Bookkeeping
  import opened Storage
  import opened DelegatorRecord
  import opened CandidateRecord
  import opened CandidateState
  import opened Accounting

  /** The records of `c` changed, in order, without touching its bond, status and request. */
  ghost predicate ListsChanged(s: Storage, s': Storage, c: Account) {
    && Keyed(s) && OnlyCandidate(s, s', c) && Keyed(s')
    && TierOk(s'.info[c], s'.top[c], s'.bottom[c])
    && s'.info[c].bond == s.info[c].bond
    && s'.info[c].status == s.info[c].status
    && s'.info[c].request == s.info[c].request
    && s'.pool == PoolAfter(s.pool, c, s'.info[c])
  }

  lemma ListsChangedKeeps(s: Storage, s': Storage, c: Account)
    requires Inv(s) && ListsChanged(s, s', c)
    ensures Keyed(s') && CandidatesOk(s') && PoolOk(s')
    ensures BookOf(s').backing == BookOf(s).backing[c := Backers(TiersOf(s', c))]
    ensures Live(s') + Sum(Backers(TiersOf(s, c))) == Live(s) + Sum(Backers(TiersOf(s', c)))
  {
    hide ToMap, TierOk, BookOk, Backers, SortedByOwner, Sum, Live, BookOf, PoolOk, PoolAfter, MoneyOk;
    CandidatesKept(s, s', c);
    BackingChanged(s, s', c);
    LiveChanged(s, s', c);
    PoolKept(s, s', c);
  }

  // Requests come and go

  /** `d` asked for a change of its delegation with `c`. */
  ghost predicate Asked(s: Storage, s': Storage, c: Account, r: Request) {
    && Keyed(s) && c in s.info && r.delegator in Backers(TiersOf(s, c)) && r.delegator in s.delegators
    && !HasRequest(RequestsOf(s.requests, c), r.delegator)
    && Backed(r, Some(Backers(TiersOf(s, c))[r.delegator]))
    && r.whenExecutable == s.round + REVOKE_DELEGATION_DELAY
    && var rec := s.delegators[r.delegator];
       s' == s.(requests := s.requests[c := RequestsOf(s.requests, c) + [r]],
                delegators := s.delegators[r.delegator := rec.(lessTotal := rec.lessTotal + r.action.amount)])
  }

  lemma AskedKeeps(s: Storage, s': Storage, c: Account, r: Request)
    requires Inv(s) && Asked(s, s', c, r)
    ensures Inv(s') && Live(s') == Live(s)
    ensures s'.delegators[r.delegator].lessTotal <= s.delegators[r.delegator].total
  {
    hide ToMap, TierOk, BookOk, Backers, SortedByOwner, Sum;
    AskKeeps(BookOf(s), c, r);
    assert BookOf(s') == Ask(BookOf(s), c, r);
    assert Stakes(s') == Stakes(s);
    LessFits(BookOf(s'), r.delegator);
  }

  /** What is pending against a delegator never exceeds what it has bonded. */
  lemma LessFits(bk: Book, d: Account)
    requires BookOk(bk) && d in bk.delegators
    ensures bk.delegators[d].lessTotal <= bk.delegators[d].total
  {
    var m := ToMap(bk.delegators[d].delegations);
    forall c | c in bk.requests
      ensures PendingIn(bk.requests[c], d) <= Get(m, c)
    {
      PendingFits(bk, c, d);
    }
    SumMonotone(Pending(bk.requests, d), m);
  }

  lemma PendingFits(bk: Book, c: Account, d: Account)
    requires BookOk(bk) && d in bk.delegators && c in bk.requests
    ensures PendingIn(bk.requests[c], d) <= Get(ToMap(bk.delegators[d].delegations), c)
  {
    hide ToMap, PendingIn;
    if HasRequest(bk.requests[c], d) {
      var r :| r in bk.requests[c] && r.delegator == d;
      PendingInIs(bk.requests[c], r);
      assert Lookup(BackersOf(bk, c), d) == Lookup(BondsOf(bk.delegators, d), c);
    } else {
      NoRequestNoPending(bk.requests[c], d);
    }
  }

  /** `d` took its request with `c` back. */
  ghost predicate Withdrawn(s: Storage, s': Storage, c: Account, d: Account) {
    && d in s.delegators && HasRequest(RequestsOf(s.requests, c), d)
    && var rec := s.delegators[d];
       s' == s.(requests := Forget(s.requests, c, d),
                delegators := s.delegators[d :=
                  rec.(lessTotal := SatSub(rec.lessTotal, PendingIn(RequestsOf(s.requests, c), d)))])
  }

  lemma WithdrawnKeeps(s: Storage, s': Storage, c: Account, d: Account)
    requires Inv(s) && Withdrawn(s, s', c, d)
    ensures Inv(s') && Live(s') == Live(s)
  {
    hide ToMap, TierOk, BookOk, Backers, SortedByOwner, Sum, PendingIn, DropRequest;
    WithdrawKeeps(BookOf(s), c, d);
    assert BookOf(s') == Withdraw(BookOf(s), c, d);
    assert Stakes(s') == Stakes(s);
  }

  /** A request in the storage rests on a live bond of its delegator with this candidate. */
  lemma RequestIsBacked(s: Storage, c: Account, r: Request)
    requires Inv(s) && r in RequestsOf(s.requests, c)
    ensures c in s.info && r.delegator in Backers(TiersOf(s, c)) && r.delegator in s.delegators
    ensures Backed(r, Some(Backers(TiersOf(s, c))[r.delegator]))
    ensures PendingIn(RequestsOf(s.requests, c), r.delegator) == r.action.amount
  {
    hide ToMap, TierOk, Backers, SortedByOwner, PendingIn;
    var bk := BookOf(s);
    PendingInIs(s.requests[c], r);
    assert Backed(r, Lookup(BackersOf(bk, c), r.delegator));
    BackerIsDelegator(bk, c, r.delegator);
  }

  // A delegation ends

  /** The delegation of `d` with `c` was revoked and paid back. */
  ghost predicate Revoked(s: Storage, s': Storage, c: Account, d: Account) {
    && ListsChanged(s, s', c) && c in s.info
    && d in Backers(TiersOf(s, c)) && d in s.delegators
    && AmountOf(s.delegators[d].delegations, c) <= Get(s.btc, PALLET)
    && TiersOf(s', c) == Remove(TiersOf(s, c), d)
    && Drift(s'.bottom[c]) == Drift(s.bottom[c])
    && s' == Released(s, c, d).(info := s'.info, top := s'.top, bottom := s'.bottom, pool := s'.pool,
                                total := SatSub(s.total, Backers(TiersOf(s, c))[d]))
  }

  lemma RevokedKeeps(s: Storage, s': Storage, c: Account, d: Account)
    requires Inv(s) && Revoked(s, s', c, d)
    ensures Inv(s')
    ensures Live(s') == Live(s) - Backers(TiersOf(s, c))[d]
    ensures Get(s'.btc, PALLET) - Live(s') == Get(s.btc, PALLET) - Live(s)
    ensures s.total >= Backers(TiersOf(s, c))[d] ==> Live(s') - s'.total == Live(s) - s.total
  {
    hide ToMap, TierOk, BookOk, Backers, SortedByOwner, Sum, PendingIn, DropRequest, Remove, Shape, Moved, Parted, Store,
      Forget, CandidatesOk, PoolOk, Live, ListsChanged;
    var amount := Backers(TiersOf(s, c))[d];
    BackerReturnable(s, c, Bond(d, amount));
    ReleaseKeeps(BookOf(s), c, d);
    ShapeOf(s, c);
    RemoveHolds(TiersOf(s, c), d);
    ListsChangedKeeps(s, s', c);
    MovedHolds(s.btc, PALLET, d, amount);
    RevokedBook(s, s', c, d);
  }

  lemma ShapeOf(s: Storage, c: Account)
    requires Inv(s) && c in s.info
    ensures Shape(TiersOf(s, c))
  {
  }

  lemma RevokedBook(s: Storage, s': Storage, c: Account, d: Account)
    requires Keyed(s) && Keyed(s') && c in s.info && d in s.delegators
    requires AmountOf(s.delegators[d].delegations, c) <= Get(s.btc, PALLET)
    requires s'.delegators == Released(s, c, d).delegators && s'.requests == Released(s, c, d).requests
    requires BookOf(s').backing == BookOf(s).backing[c := Backers(TiersOf(s, c)) - {d}]
    ensures BookOf(s') == Release(BookOf(s), c, d)
  {
    hide Backers, Store, Parted, Forget, Moved;
  }

  // A delegation changes its amount

  /** `d` added `more` to its delegation with `c`. */
  ghost predicate Increased(s: Storage, s': Storage, c: Account, d: Account, more: Balance) {
    && ListsChanged(s, s', c) && c in s.info
    && d in Backers(TiersOf(s, c)) && d in s.delegators && more <= Get(s.btc, d)
    && (forall r | r in RequestsOf(s.requests, c) && r.delegator == d :: r.action.Decrease?)
    && TiersOf(s, c).top != []
    && TiersOf(s', c) == Raise(TiersOf(s, c), d, more)
    && DriftKept(s, s', c)
    && s' == s.(info := s'.info, top := s'.top, bottom := s'.bottom, pool := s'.pool,
                delegators := s.delegators[d := Revised(s.delegators[d], c, Backers(TiersOf(s, c))[d] + more)],
                btc := Moved(s.btc, d, PALLET, more),
                total := s.total + more)
  }

  lemma IncreasedKeeps(s: Storage, s': Storage, c: Account, d: Account, more: Balance)
    requires Inv(s) && Increased(s, s', c, d, more)
    ensures Inv(s')
    ensures Live(s') == Live(s) + more
    ensures Get(s'.btc, PALLET) - Live(s') == Get(s.btc, PALLET) - Live(s)
    ensures Live(s') - s'.total == Live(s) - s.total
  {
    hide ToMap, TierOk, BookOk, Backers, SortedByOwner, Sum, PendingIn, Raise, Shape, Moved, Revised,
      CandidatesOk, PoolOk, Live, ListsChanged;
    var amount := Backers(TiersOf(s, c))[d];
    BackerReturnable(s, c, Bond(d, amount));
    RequestsAllow(s, c, d, more);
    ReviseKeeps(BookOf(s), c, d, amount + more);
    ShapeOf(s, c);
    RaiseHolds(TiersOf(s, c), d, more);
    ListsChangedKeeps(s, s', c);
    MovedHolds(s.btc, d, PALLET, more);
    RevisedBook(s, s', BookOf(s), c, d, amount + more);
  }

  lemma RequestsAllow(s: Storage, c: Account, d: Account, more: Balance)
    requires Inv(s) && c in s.info && d in Backers(TiersOf(s, c))
    requires forall r | r in RequestsOf(s.requests, c) && r.delegator == d :: r.action.Decrease?
    ensures forall r | r in RequestsOf(s.requests, c) && r.delegator == d ::
              Backed(r, Some(Backers(TiersOf(s, c))[d] + more))
  {
    hide ToMap, TierOk, BookOk, Backers;
    forall r | r in RequestsOf(s.requests, c) && r.delegator == d
      ensures Backed(r, Some(Backers(TiersOf(s, c))[d] + more))
    {
      RequestIsBacked(s, c, r);
    }
  }

  lemma RevisedBook(s: Storage, s': Storage, bk: Book, c: Account, d: Account, a: Balance)
    requires Keyed(s) && Keyed(s') && c in s.info && bk.backing == BookOf(s).backing && d in bk.delegators
    requires s'.delegators == bk.delegators[d := Revised(bk.delegators[d], c, a)] && s'.requests == bk.requests
    requires BookOf(s').backing == BookOf(s).backing[c := Backers(TiersOf(s, c))[d := a]]
    ensures BookOf(s') == Revise(bk, c, d, a)
  {
    hide Backers, Revised;
  }

  /** The pending decrease of `d` with `c` was executed and paid back. */
  ghost predicate Decreased(s: Storage, s': Storage, c: Account, d: Account, less: Balance) {
    && ListsChanged(s, s', c) && c in s.info
    && d in Backers(TiersOf(s, c)) && d in s.delegators
    && less <= Backers(TiersOf(s, c))[d] && less <= Get(s.btc, PALLET)
    && TiersOf(s', c) == Lower(TiersOf(s, c), d, less)
    && var rec := s.delegators[d].(lessTotal :=
                    SatSub(s.delegators[d].lessTotal, PendingIn(RequestsOf(s.requests, c), d)));
       s' == s.(info := s'.info, top := s'.top, bottom := s'.bottom, pool := s'.pool,
                delegators := s.delegators[d := Revised(rec, c, Backers(TiersOf(s, c))[d] - less)],
                requests := Forget(s.requests, c, d),
                btc := Moved(s.btc, PALLET, d, less),
                total := SatSub(s.total, less))
  }

  lemma DecreasedKeeps(s: Storage, s': Storage, c: Account, d: Account, less: Balance)
    requires Inv(s) && Decreased(s, s', c, d, less)
    requires Backers(TiersOf(s, c))[d] - less >= MIN_DELEGATION
    ensures Inv(s')
    ensures Live(s') == Live(s) - less
    ensures Get(s'.btc, PALLET) - Live(s') == Get(s.btc, PALLET) - Live(s)
    ensures s.total >= less ==> Live(s') - s'.total == Live(s) - s.total
  {
    hide ToMap, TierOk, BookOk, Backers, SortedByOwner, Sum, PendingIn, DropRequest, Lower, Shape, Moved, Revised, Forget,
      CandidatesOk, PoolOk, Live, ListsChanged;
    var amount := Backers(TiersOf(s, c))[d];
    BackerReturnable(s, c, Bond(d, amount));
    WithdrawKeeps(BookOf(s), c, d);
    NothingLeftPending(BookOf(s), c, d);
    ReviseKeeps(Withdraw(BookOf(s), c, d), c, d, amount - less);
    ShapeOf(s, c);
    LowerHolds(TiersOf(s, c), d, less);
    ListsChangedKeeps(s, s', c);
    MovedHolds(s.btc, PALLET, d, less);
    DecreasedBook(s, s', c, d, amount - less);
  }

  lemma NothingLeftPending(bk: Book, c: Account, d: Account)
    requires BookOk(bk) && d in bk.delegators
    ensures forall r | r in RequestsOf(Withdraw(bk, c, d).requests, c) :: r.delegator != d
  {
    if c in bk.requests {
      DropRequestHolds(bk.requests[c], d);
    }
  }

  lemma DecreasedBook(s: Storage, s': Storage, c: Account, d: Account, a: Balance)
    requires Keyed(s) && Keyed(s') && c in s.info && d in s.delegators
    requires var rec := s.delegators[d].(lessTotal :=
                          SatSub(s.delegators[d].lessTotal, PendingIn(RequestsOf(s.requests, c), d)));
             s'.delegators == s.delegators[d := Revised(rec, c, a)]
    requires s'.requests == Forget(s.requests, c, d)
    requires BookOf(s').backing == BookOf(s).backing[c := Backers(TiersOf(s, c))[d := a]]
    ensures d in Withdraw(BookOf(s), c, d).delegators
    ensures BookOf(s') == Revise(Withdraw(BookOf(s), c, d), c, d, a)
  {
    hide Backers, Revised, Forget, PendingIn;
    RevisedBook(s, s', Withdraw(BookOf(s), c, d), c, d, a);
  }
}
