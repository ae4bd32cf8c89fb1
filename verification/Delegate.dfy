/** `delegate`: a new delegation, which may kick the least one out of a full candidate. */
module Delegate {
  import opened Config
  import opened Wrappers
  import opened Sums
  import opened Bonds
  import opened DelegationList
  import opened Tiers
  import opened OrderedSets
  import opened Book
  import opened Bookkeeping
  import opened Storage
  import opened DelegatorRecord
  import opened CandidateRecord
  import opened CandidateState
  import opened Accounting

  function KickedAmount(t: Tiers): Balance {
    match Kicked(t) case None => 0 case Some(b) => b.amount
  }

  /** A delegation of `a` by `d` was added to candidate `c`. */
  ghost predicate Delegated(s: Storage, s': Storage, c: Account, d: Account, a: Balance) {
    && Keyed(s) && Keyed(s') && KickReady(s, c) && OnlyCandidate(s, s', c)
    && TierOk(s'.info[c], s'.top[c], s'.bottom[c])
    && s'.info[c].bond == s.info[c].bond
    && s'.info[c].status == s.info[c].status
    && s'.info[c].request == s.info[c].request
    && TiersOf(s', c) == Add(TiersOf(s, c), Bond(d, a))
    && DriftKept(s, s', c)
    && var k := AfterKick(s, c);
       && a <= Get(k.btc, d)
       && s' == k.(info := s'.info, top := s'.top, bottom := s'.bottom,
                   pool := PoolAfter(s.pool, c, s'.info[c]),
                   delegators := k.delegators[d := Joined(k.delegators, d, Bond(c, a))],
                   btc := Moved(k.btc, d, PALLET, a),
                   total := SatAdd(s.total, SatSub(a, KickedAmount(TiersOf(s, c)))))
  }

  /** What `delegate` demands of the delegator's own record. */
  function JoinError(ds: map<Account, Delegator>, isCandidate: bool, c: Account, d: Account, hint: nat): Option<Error> {
    if d in ds then
      if hint < |ds[d].delegations| then Some(TooLowDelegationCountToDelegate)
      else if |ds[d].delegations| >= MAX_DELEGATIONS then Some(ExceedMaxDelegationsPerDelegator)
      else if HasOwner(ds[d].delegations, c) then Some(AlreadyDelegatedCandidate)
      else None
    else if isCandidate then Some(CandidateExists)
    else None
  }

  /** What `delegate` demands, in the order it asks. */
  ghost function DelegateError(s: Storage, c: Account, d: Account, a: Balance, candidateHint: nat, delegatorHint: nat)
    : Option<Error>
    requires Keyed(s)
  {
    if c !in s.info || s.info[c].status != Active then Some(CandidateDNE)
    else if Get(s.btc, d) < a then Some(InsufficientBalance)
    else if a < MIN_DELEGATION then Some(DelegationBelowMin)
    else if JoinError(s.delegators, d in s.info, c, d, delegatorHint).Some? then
      JoinError(s.delegators, d in s.info, c, d, delegatorHint)
    else if candidateHint < s.info[c].delegationCount then Some(TooLowCandidateDelegationCountToDelegate)
    else if Refuses(TiersOf(s, c), a) then
      Some(CannotDelegateLessThanOrEqualToLowestBottomWhenFull)
    else None
  }

  /** An account that may delegate here does not delegate here yet, and is no candidate. */
  lemma NewcomerIsNew(s: Storage, c: Account, d: Account)
    requires Inv(s) && c in s.info
    requires d in s.delegators ==> !HasOwner(s.delegators[d].delegations, c)
    requires d !in s.delegators ==> d !in s.info
    ensures d !in Backers(TiersOf(s, c)) && d !in s.info
  {
    hide ToMap, Backers, TierOk;
    var bk := BookOf(s);
    assert Lookup(BackersOf(bk, c), d) == Lookup(BondsOf(bk.delegators, d), c);
    if d in s.delegators {
      ToMapOwners(s.delegators[d].delegations);
    }
  }

  ghost function BookAfterKick(s: Storage, c: Account): Book
    requires Keyed(s) && c in s.info && (IsFull(TiersOf(s, c)) ==> Last(TiersOf(s, c).bottom).owner in s.delegators)
  {
    if IsFull(TiersOf(s, c)) then Release(BookOf(s), c, Last(TiersOf(s, c).bottom).owner) else BookOf(s)
  }

  /** The kick, if there is one, leaves the book in order and pays exactly the kicked bond. */
  lemma KickHolds(s: Storage, c: Account)
    requires Inv(s) && c in s.info
    ensures KickReady(s, c)
    ensures IsFull(TiersOf(s, c)) ==> Last(TiersOf(s, c).bottom).owner in s.delegators
    ensures var bk := BookAfterKick(s, c);
            && BookOk(bk)
            && bk.backing == BookOf(s).backing[c := bk.backing[c]]
            && bk.backing[c] == (match Kicked(TiersOf(s, c))
                                 case None => Backers(TiersOf(s, c))
                                 case Some(b) => Backers(TiersOf(s, c)) - {b.owner})
            && Sum(bk.backing[c]) + KickedAmount(TiersOf(s, c)) == Sum(Backers(TiersOf(s, c)))
            && bk.delegators == AfterKick(s, c).delegators
            && bk.requests == AfterKick(s, c).requests
  {
    hide ToMap, Backers, TierOk, BookOk;
    InvKickReady(s, c);
    var t := TiersOf(s, c);
    CandidateShape(s, c);
    if IsFull(t) {
      var b := Last(t.bottom);
      LastBacks(t);
      ReleaseKeeps(BookOf(s), c, b.owner);
    } else {
      NotFullNoKick(t);
      assert BookOf(s).backing == BookOf(s).backing[c := BookOf(s).backing[c]];
    }
  }

  lemma CandidateShape(s: Storage, c: Account)
    requires Inv(s) && c in s.info
    ensures Shape(TiersOf(s, c))
  {
  }

  lemma LastBacks(t: Tiers)
    requires Shape(t) && IsFull(t)
    ensures Last(t.bottom).owner in Backers(t) && Backers(t)[Last(t.bottom).owner] == Last(t.bottom).amount
  {
    EndsBound(t.bottom);
  }

  lemma NotFullNoKick(t: Tiers)
    requires Shape(t) && !IsFull(t)
    ensures |t.bottom| != MAX_BOTTOM
  {
  }

  lemma DelegatedBook(s: Storage, s': Storage, c: Account, d: Account, a: Balance)
    requires Inv(s) && Delegated(s, s', c, d, a) && a >= MIN_DELEGATION
    requires d !in Backers(TiersOf(s, c)) && d !in s.info && d != PALLET
    requires d in s.delegators ==> |s.delegators[d].delegations| < MAX_DELEGATIONS
    ensures c in BookAfterKick(s, c).backing
    ensures BookOk(BookOf(s')) && BookOf(s') == Place(BookAfterKick(s, c), c, d, a)
    ensures Sum(Backers(TiersOf(s', c))) == Sum(Backers(TiersOf(s, c))) - KickedAmount(TiersOf(s, c)) + a
  {
    hide ToMap, TierOk, BookOk, Shape, InsertDesc, Without, SortedByOwner, Backers, Add, Sum, DropRequest;
    KickHolds(s, c);
    CandidateShape(s, c);
    KickSparesOthers(s, c, d);
    AddHolds(TiersOf(s, c), Bond(d, a));
    BackingChanged(s, s', c);
    PlaceKeeps(BookAfterKick(s, c), c, d, a);
    DelegatedBooks(s, s', c, d, a);
  }

  lemma DelegatedBooks(s: Storage, s': Storage, c: Account, d: Account, a: Balance)
    requires Keyed(s) && Delegated(s, s', c, d, a)
    requires IsFull(TiersOf(s, c)) ==> Last(TiersOf(s, c).bottom).owner in s.delegators
    requires var bk := BookAfterKick(s, c);
             && bk.delegators == AfterKick(s, c).delegators && bk.requests == AfterKick(s, c).requests
             && c in bk.backing && bk.backing == BookOf(s).backing[c := bk.backing[c]]
             && Backers(TiersOf(s', c)) == With(bk.backing[c], d, a)
    ensures BookOf(s') == Place(BookAfterKick(s, c), c, d, a)
  {
    hide ToMap, TierOk, Shape, Backers, Add, AfterKick, BookAfterKick;
    BackingChanged(s, s', c);
  }

  lemma KickSparesOthers(s: Storage, c: Account, d: Account)
    requires Inv(s) && c in s.info && d !in Backers(TiersOf(s, c))
    requires IsFull(TiersOf(s, c)) ==> Last(TiersOf(s, c).bottom).owner in s.delegators
    ensures var bk := BookAfterKick(s, c);
            && (d in bk.delegators <==> d in s.delegators)
            && (d in bk.delegators ==> bk.delegators[d] == s.delegators[d])
            && bk.backing.Keys == s.info.Keys
  {
    hide ToMap, TierOk, BookOk, Without, SortedByOwner, Backers, PendingIn, DropRequest, AmountOf;
    CandidateShape(s, c);
    var t := TiersOf(s, c);
    if IsFull(t) {
      LastBacks(t);
      BackerReturnable(s, c, Last(t.bottom));
    }
  }

  lemma DelegatedMoney(s: Storage, s': Storage, c: Account, d: Account, a: Balance)
    requires Inv(s) && Delegated(s, s', c, d, a) && d != PALLET
    requires Sum(Backers(TiersOf(s', c))) == Sum(Backers(TiersOf(s, c))) - KickedAmount(TiersOf(s, c)) + a
    requires KickedAmount(TiersOf(s, c)) <= a
    ensures MoneyOk(s')
    ensures Live(s') == Live(s) + a - KickedAmount(TiersOf(s, c))
    ensures Get(s'.btc, PALLET) - Live(s') == Get(s.btc, PALLET) - Live(s)
    ensures Live(s') - s'.total == Live(s) - s.total
  {
    hide ToMap, TierOk, BookOk, Shape, Without, SortedByOwner, Backers, Add, Sum, DropRequest, PendingIn, AmountOf;
    LiveChanged(s, s', c);
    KickMoney(s, c);
    var k := AfterKick(s, c);
    MovedHolds(k.btc, d, PALLET, a);
    SumEntry(s'.btc, PALLET);
  }

  /** A kick moves exactly the kicked bond from the pallet to its delegator. */
  lemma KickMoney(s: Storage, c: Account)
    requires Inv(s) && c in s.info
    ensures KickReady(s, c)
    ensures var k := AfterKick(s, c);
            && Get(k.btc, PALLET) == Get(s.btc, PALLET) - KickedAmount(TiersOf(s, c))
            && Sum(k.btc) == Sum(s.btc)
            && (forall e | e != PALLET :: Get(k.btc, e) >= Get(s.btc, e))
  {
    hide ToMap, TierOk, BookOk, Without, SortedByOwner, Backers, Sum, DropRequest, PendingIn;
    InvKickReady(s, c);
    CandidateShape(s, c);
    var t := TiersOf(s, c);
    if IsFull(t) {
      LastBacks(t);
      BackerReturnable(s, c, Last(t.bottom));
      MovedHolds(s.btc, PALLET, Last(t.bottom).owner, Last(t.bottom).amount);
    } else {
      NotFullNoKick(t);
    }
  }

  /** An accepted delegation keeps every invariant of the pallet. */
  lemma DelegatedKeeps(s: Storage, s': Storage, c: Account, d: Account, a: Balance)
    requires Inv(s) && Delegated(s, s', c, d, a) && a >= MIN_DELEGATION
    requires d !in Backers(TiersOf(s, c)) && d !in s.info && d != PALLET
    requires d in s.delegators ==> |s.delegators[d].delegations| < MAX_DELEGATIONS
    requires !Refuses(TiersOf(s, c), a)
    ensures Inv(s')
    ensures Get(s'.btc, PALLET) - Live(s') == Get(s.btc, PALLET) - Live(s)
    ensures Live(s') - s'.total == Live(s) - s.total
  {
    hide ToMap, TierOk, BookOk, Shape, Without, SortedByOwner, Backers, Add, Sum, Place, MoneyOk, PoolAfter, AfterKick;
    CandidateShape(s, c);
    if IsFull(TiersOf(s, c)) {
      KickedIsLeast(TiersOf(s, c), Bond(d, a));
    }
    DelegatedBook(s, s', c, d, a);
    DelegatedMoney(s, s', c, d, a);
    CandidatesKept(s, s', c);
    DelegatedPool(s, s', c, d, a);
  }

  lemma DelegatedPool(s: Storage, s': Storage, c: Account, d: Account, a: Balance)
    requires Inv(s) && Delegated(s, s', c, d, a)
    ensures PoolOk(s')
  {
    hide ToMap, TierOk, BookOk, Shape, Without, SortedByOwner, Backers, Add, Sum, PoolAfter, AfterKick;
    PoolKept(s, s', c);
  }

  lemma RecordIsSet(s: Storage, d: Account, c: Account)
    requires Inv(s) && d in s.delegators
    ensures SortedByOwner(s.delegators[d].delegations)
    ensures HasOwner(s.delegators[d].delegations, c) <==> c in ToMap(s.delegators[d].delegations)
    ensures s.delegators[d].total <= Live(s)
  {
    ToMapOwners(s.delegators[d].delegations);
    DelegatorFits(s, d);
  }

  /** What the proof of `delegate` needs once the delegator's side passed its checks. */
  lemma ReadyToAdd(s: Storage, c: Account, d: Account, a: Balance)
    requires Inv(s) && c in s.info && d != PALLET && a <= Get(s.btc, d)
    requires d in s.delegators ==> !HasOwner(s.delegators[d].delegations, c)
    requires d !in s.delegators ==> d !in s.info
    ensures Ready(s, c, s.info[c]) && KickReady(s, c)
    ensures d !in Backers(TiersOf(s, c)) && d !in s.info
    ensures s.info[c].bond + Sum(Backers(TiersOf(s, c))) + a <= MAX_BALANCE
    ensures a <= Get(AfterKick(s, c).btc, d)
    ensures BondLessOk(s.info[c])
    ensures Joined(AfterKick(s, c).delegators, d, Bond(c, a)) == Joined(s.delegators, d, Bond(c, a))
    ensures |TiersOf(s, c).bottom| == MAX_BOTTOM ==> IsFull(TiersOf(s, c))
  {
    hide ToMap, TierOk, BookOk, Without, SortedByOwner, Backers, Add, Sum, PoolAfter, AmountOf, InsertDesc;
    NewcomerIsNew(s, c, d);
    InvReady(s, c);
    KickHolds(s, c);
    BalanceFits(s, d, a);
    KickMoney(s, c);
    KickSparesOthers(s, c, d);
    CandidateShape(s, c);
  }

  /** The storage writes that follow the tier edit complete a delegation. */
  lemma WritesDelegate(s: Storage, m: Storage, s': Storage, c: Account, d: Account, a: Balance, out: CandidateMetadata)
    requires Keyed(s) && c in s.info && KickReady(s, c) && c in m.top && c in m.bottom
    requires TierOk(out, m.top[c], m.bottom[c])
    requires Tiered(m, c) == Add(TiersOf(s, c), Bond(d, a)) && DriftKept(s, m, c)
    requires m == AfterKick(s, c).(top := s.top[c := m.top[c]], bottom := s.bottom[c := m.bottom[c]],
                                   pool := PoolAfter(s.pool, c, out))
    requires out.bond == s.info[c].bond && out.status == s.info[c].status && out.request == s.info[c].request
    requires a <= Get(m.btc, d)
    requires s' == m.(info := s.info[c := out],
                      delegators := m.delegators[d := Joined(m.delegators, d, Bond(c, a))],
                      btc := Moved(m.btc, d, PALLET, a),
                      total := SatAdd(s.total, SatSub(a, KickedAmount(TiersOf(s, c)))))
    ensures Delegated(s, s', c, d, a)
  {
    hide TierOk, Add, PoolAfter, Joined, Released;
  }

  /** The delegator's record with the new bond, new if this is its first delegation. */
  method JoinRecord(p: Pallet, candidate: Account, delegator: Account, amount: Balance, hint: nat)
    returns (state: Delegator, r: Outcome<Error>)
    requires delegator in p.delegatorState ==> SortedByOwner(p.delegatorState[delegator].delegations)
    requires delegator in p.delegatorState ==> p.delegatorState[delegator].total + amount <= MAX_BALANCE
    ensures r == match JoinError(p.delegatorState, delegator in p.candidateInfo, candidate, delegator, hint)
                 case None => Pass
                 case Some(e) => Fail(e)
    ensures r.Pass? ==> state == Joined(p.delegatorState, delegator, Bond(candidate, amount))
  {
    state, r := Delegator(delegator, [Bond(candidate, amount)], amount, 0), Pass;
    if delegator in p.delegatorState {
      state := p.delegatorState[delegator];
      if hint < |state.delegations| {
        return state, Fail(TooLowDelegationCountToDelegate);
      }
      if |state.delegations| >= MAX_DELEGATIONS {
        return state, Fail(ExceedMaxDelegationsPerDelegator);
      }
      ToMapOwners(state.delegations);
      var delegations := new OrderedSet.FromSortedSet(state.delegations);
      var inserted := delegations.Insert(Bond(candidate, amount));
      if !inserted {
        return state, Fail(AlreadyDelegatedCandidate);
      }
      state := state.(delegations := delegations.items, total := SatAdd(state.total, amount));
    } else if delegator in p.candidateInfo {
      return state, Fail(CandidateExists);
    }
  }

  /** Enter a delegation that passed the checks of the delegator's side: lists, transfer, totals, records. */
  method EnterDelegation(p: Pallet, candidate: Account, delegator: Account, amount: Balance, delegatorState: Delegator)
    returns (r: Outcome<Error>)
    requires Inv(p.View()) && delegator != PALLET
    requires candidate in p.candidateInfo && MIN_DELEGATION <= amount <= Get(p.btc, delegator)
    requires JoinError(p.delegatorState, delegator in p.candidateInfo, candidate, delegator,
                       if delegator in p.delegatorState then |p.delegatorState[delegator].delegations| else 0) == None
    requires delegatorState == Joined(p.delegatorState, delegator, Bond(candidate, amount))
    modifies p
    ensures Inv(p.View())
    ensures r == if Refuses(TiersOf(old(p.View()), candidate), amount)
                 then Fail(CannotDelegateLessThanOrEqualToLowestBottomWhenFull) else Pass
    ensures r.Fail? ==> p.View() == old(p.View())
    ensures r.Pass? ==> Delegated(old(p.View()), p.View(), candidate, delegator, amount)
  {
    hide ToMap, TierOk, BookOk, Shape, Without, Backers, Add, Sum, PoolAfter, AmountOf, InsertDesc, InsertByOwner,
      HasOwner, Inv, Joined, Moved, Store, Parted, Forget, PendingIn, Live, BookOf, MoneyOk, BondLessOk, Carries,
      DriftKept;
    ghost var s := p.View();
    InvKeyed(s);
    ReadyToAdd(s, candidate, delegator, amount);
    var candidateState, added := AddDelegation(p, p.candidateInfo[candidate], candidate, Bond(delegator, amount));
    if added.Failure? {
      return Fail(added.error);
    }
    ghost var m := p.View();
    var transferred := Transfer(p, delegator, PALLET, amount);
    assert transferred;
    var less := added.value.1;
    var netTotalIncrease := if less.Some? then SatSub(amount, less.value) else amount;
    p.total := SatAdd(p.total, netTotalIncrease);
    p.candidateInfo := p.candidateInfo[candidate := candidateState];
    p.delegatorState := p.delegatorState[delegator := delegatorState];
    WritesDelegate(s, m, p.View(), candidate, delegator, amount, candidateState);
    DelegatedKeeps(s, p.View(), candidate, delegator, amount);
    r := Pass;
  }

  /** Make a delegation; the error is the first demand that fails, and an error changes nothing. */
  method DelegateInner(p: Pallet, candidate: Account, delegator: Account, amount: Balance,
                       candidateHint: nat, delegatorHint: nat)
    returns (r: Outcome<Error>)
    requires Inv(p.View()) && delegator != PALLET
    modifies p
    ensures Inv(p.View())
    ensures r == match DelegateError(old(p.View()), candidate, delegator, amount, candidateHint, delegatorHint)
                 case None => Pass
                 case Some(e) => Fail(e)
    ensures r.Fail? ==> p.View() == old(p.View())
    ensures r.Pass? ==> Delegated(old(p.View()), p.View(), candidate, delegator, amount)
  {
    hide ToMap, HasOwner, Inv, Joined, Delegated;
    ghost var s := p.View();
    InvKeyed(s);
    if candidate !in p.candidateInfo || p.candidateInfo[candidate].status != Active {
      return Fail(CandidateDNE);
    }
    if Get(p.btc, delegator) < amount {
      return Fail(InsufficientBalance);
    }
    if amount < MIN_DELEGATION {
      return Fail(DelegationBelowMin);
    }
    if delegator in p.delegatorState {
      RecordIsSet(s, delegator, candidate);
      BalanceFits(s, delegator, amount);
    }
    var delegatorState, joined := JoinRecord(p, candidate, delegator, amount, delegatorHint);
    if joined.Fail? {
      return joined;
    }
    if candidateHint < p.candidateInfo[candidate].delegationCount {
      return Fail(TooLowCandidateDelegationCountToDelegate);
    }
    r := EnterDelegation(p, candidate, delegator, amount, delegatorState);
  }
}
