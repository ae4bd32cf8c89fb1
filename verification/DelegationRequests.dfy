/** Scheduled requests of delegators: schedule, cancel, execute; and the immediate increase of a delegation. */
module DelegationRequests {
  import opened Config
  import opened Wrappers
  import opened Sums
  import opened Bonds
  import opened DelegationList
  import opened Tiers
  import opened OrderedSets
  import opened Book
  import opened Bookkeeping
  import opened Storage
  import opened DelegatorRecord
  import opened CandidateRecord
  import opened CandidateState
  import opened CandidateRemoval
  import opened CandidateChange
  import opened Accounting
  import opened Candidates
  import opened Ledger

  const MAX_REQUESTS := MAX_TOP + MAX_BOTTOM

  /** Push onto the bounded request list. */
  method TryPush(l: seq<Request>, r: Request) returns (out: seq<Request>, pushed: bool)
    ensures pushed <==> |l| < MAX_REQUESTS
    ensures out == if pushed then l + [r] else l
  {
    if |l| >= MAX_REQUESTS {
      return l, false;
    }
    return l + [r], true;
  }

  /** There is room for a request of everybody who backs the candidate. */
  lemma RequestsFit(s: Storage, c: Account, d: Account)
    requires Inv(s) && c in s.info && d in Backers(TiersOf(s, c))
    requires !HasRequest(RequestsOf(s.requests, c), d)
    ensures |RequestsOf(s.requests, c)| < MAX_REQUESTS
  {
    hide ToMap, TierOk, BookOk, Backers;
    var l, m := RequestsOf(s.requests, c), Backers(TiersOf(s, c));
    forall r | r in l
      ensures r.delegator in m
    {
      RequestIsBacked(s, c, r);
    }
    OneEach(s, c);
    Pigeonhole(l, m.Keys - {d});
    BackersCount(s, c);
  }

  lemma OneEach(s: Storage, c: Account)
    requires Inv(s)
    ensures OneRequestEach(RequestsOf(s.requests, c))
  {
  }

  lemma BackersCount(s: Storage, c: Account)
    requires Inv(s) && c in s.info
    ensures |Backers(TiersOf(s, c)).Keys| <= MAX_REQUESTS
  {
    var t := TiersOf(s, c);
    SumToMap(t.top);
    SumToMap(t.bottom);
    UpperIsASelection(ToMap(t.top), ToMap(t.bottom));
  }

  lemma {:induction false} Pigeonhole(l: seq<Request>, owners: set<Account>)
    requires OneRequestEach(l)
    requires forall r | r in l :: r.delegator in owners
    ensures |l| <= |owners|
  {
    if l != [] {
      var last := l[|l| - 1];
      assert last in l;
      Pigeonhole(l[..|l| - 1], owners - {last.delegator});
    }
  }

  function ScheduleRevokeError(s: Storage, c: Account, d: Account): Option<Error> {
    if d !in s.delegators then Some(DelegatorDNE)
    else if HasRequest(RequestsOf(s.requests, c), d) then Some(PendingDelegationRequestAlreadyExists)
    else if !HasOwner(s.delegators[d].delegations, c) then Some(DelegationDNE)
    else None
  }

  /** The delegator's bond with `c`, as recorded on both sides. */
  lemma BondOnBothSides(s: Storage, c: Account, d: Account)
    requires Inv(s) && d in s.delegators
    ensures Distinct(s.delegators[d].delegations)
    ensures HasOwner(s.delegators[d].delegations, c) <==> c in ToMap(s.delegators[d].delegations)
    ensures HasOwner(s.delegators[d].delegations, c) ==>
              && c in s.info && d in Backers(TiersOf(s, c))
              && Backers(TiersOf(s, c))[d] == AmountOf(s.delegators[d].delegations, c)
    ensures c in s.info && d in Backers(TiersOf(s, c)) ==> HasOwner(s.delegators[d].delegations, c)
  {
    hide TierOk, Backers;
    var bk := BookOf(s);
    assert Lookup(BackersOf(bk, c), d) == Lookup(BondsOf(bk.delegators, d), c);
    AmountOfHolds(s.delegators[d].delegations, c);
  }

  /** The bond amount towards a sequencer, if there is one. */
  method GetBondAmount(state: Delegator, sequencer: Account) returns (amount: Option<Balance>)
    requires Distinct(state.delegations)
    ensures amount == if HasOwner(state.delegations, sequencer)
                      then Some(AmountOf(state.delegations, sequencer)) else None
  {
    AmountOfHolds(state.delegations, sequencer);
    for i := 0 to |state.delegations|
      invariant forall k | 0 <= k < i :: state.delegations[k].owner != sequencer
    {
      if state.delegations[i].owner == sequencer {
        assert state.delegations[i] in state.delegations;
        assert state.delegations[i] == Bond(sequencer, state.delegations[i].amount);
        return Some(state.delegations[i].amount);
      }
    }
    return None;
  }

  /** Schedule a revocation. The bounded list of requests cannot overflow. */
  method ScheduleRevoke(p: Pallet, sequencer: Account, delegator: Account) returns (r: Outcome<Error>)
    requires Inv(p.View())
    modifies p
    ensures Inv(p.View())
    ensures r == Answer(ScheduleRevokeError(old(p.View()), sequencer, delegator))
    ensures r.Fail? ==> p.View() == old(p.View())
    ensures r.Pass? ==>
              Asked(old(p.View()), p.View(), sequencer,
                    Request(delegator, old(p.round) + REVOKE_DELEGATION_DELAY,
                            Revoke(AmountOf(old(p.delegatorState)[delegator].delegations, sequencer))))
  {
    hide ToMap, TierOk, BookOk, Backers, Inv, AmountOf, Distinct, HasOwner;
    ghost var s := p.View();
    InvKeyed(s);
    if delegator !in p.delegatorState {
      return Fail(DelegatorDNE);
    }
    var state := p.delegatorState[delegator];
    var requests := RequestsOf(p.scheduledRequests, sequencer);
    if HasRequest(requests, delegator) {
      return Fail(PendingDelegationRequestAlreadyExists);
    }
    BondOnBothSides(s, sequencer, delegator);
    var bondedAmount := GetBondAmount(state, sequencer);
    if bondedAmount.None? {
      return Fail(DelegationDNE);
    }
    RequestsFit(s, sequencer, delegator);
    var request := Request(delegator, p.round + REVOKE_DELEGATION_DELAY, Revoke(bondedAmount.value));
    AskedFits(s, sequencer, request);
    var pushed;
    requests, pushed := TryPush(requests, request);
    assert pushed;
    state := state.(lessTotal := SatAdd(state.lessTotal, bondedAmount.value));
    p.scheduledRequests := p.scheduledRequests[sequencer := requests];
    p.delegatorState := p.delegatorState[delegator := state];
    AskedKeeps(s, p.View(), sequencer, request);
    r := Pass;
  }

  /** The pending sum never saturates. */
  lemma AskedFits(s: Storage, c: Account, r: Request)
    requires Inv(s) && Keyed(s) && c in s.info && r.delegator in Backers(TiersOf(s, c)) && r.delegator in s.delegators
    requires !HasRequest(RequestsOf(s.requests, c), r.delegator)
    requires Backed(r, Some(Backers(TiersOf(s, c))[r.delegator]))
    requires r.whenExecutable == s.round + REVOKE_DELEGATION_DELAY
    ensures s.delegators[r.delegator].lessTotal + r.action.amount <= MAX_BALANCE
  {
    hide ToMap, TierOk, BookOk, Backers, PoolOk, CandidatesOk;
    var rec := s.delegators[r.delegator];
    var s' := s.(requests := s.requests[c := RequestsOf(s.requests, c) + [r]],
    delegators := s.delegators[r.delegator := rec.(lessTotal := rec.lessTotal + r.action.amount)]);
    AskedKeeps(s, s', c, r);
    DelegatorFits(s, r.delegator);
    SumEntry(s.btc, PALLET);
  }

  function ScheduleDecreaseError(s: Storage, c: Account, d: Account, decrease: Balance): Option<Error> {
    if d !in s.delegators then Some(DelegatorDNE)
    else if HasRequest(RequestsOf(s.requests, c), d) then Some(PendingDelegationRequestAlreadyExists)
    else if !HasOwner(s.delegators[d].delegations, c) then Some(DelegationDNE)
    else if AmountOf(s.delegators[d].delegations, c) <= decrease then Some(DelegatorBondBelowMin)
    else if AmountOf(s.delegators[d].delegations, c) - decrease < MIN_DELEGATION then Some(DelegationBelowMin)
    else if decrease > SatSub(SatSub(s.delegators[d].total, s.delegators[d].lessTotal), MIN_DELEGATION) then
      Some(DelegatorBondBelowMin)
    else None
  }

  /** Schedule a decrease; it waits as long as a revocation does. */
  method ScheduleBondDecrease(p: Pallet, sequencer: Account, delegator: Account, decrease: Balance)
    returns (r: Outcome<Error>)
    requires Inv(p.View())
    modifies p
    ensures Inv(p.View())
    ensures r == Answer(ScheduleDecreaseError(old(p.View()), sequencer, delegator, decrease))
    ensures r.Fail? ==> p.View() == old(p.View())
    ensures r.Pass? ==>
              Asked(old(p.View()), p.View(), sequencer,
                    Request(delegator, old(p.round) + REVOKE_DELEGATION_DELAY, Decrease(decrease)))
  {
    hide ToMap, TierOk, BookOk, Backers, Inv, AmountOf, Distinct, HasOwner;
    ghost var s := p.View();
    InvKeyed(s);
    if delegator !in p.delegatorState {
      return Fail(DelegatorDNE);
    }
    var state := p.delegatorState[delegator];
    var requests := RequestsOf(p.scheduledRequests, sequencer);
    if HasRequest(requests, delegator) {
      return Fail(PendingDelegationRequestAlreadyExists);
    }
    BondOnBothSides(s, sequencer, delegator);
    var bondedAmount := GetBondAmount(state, sequencer);
    if bondedAmount.None? {
      return Fail(DelegationDNE);
    }
    if !(bondedAmount.value > decrease) {
      return Fail(DelegatorBondBelowMin);
    }
    var newAmount := bondedAmount.value - decrease;
    if newAmount < MIN_DELEGATION {
      return Fail(DelegationBelowMin);
    }
    var netTotal := SatSub(state.total, state.lessTotal);
    var maxSubtractedAmount := SatSub(netTotal, MIN_DELEGATION);
    if decrease > maxSubtractedAmount {
      return Fail(DelegatorBondBelowMin);
    }
    RequestsFit(s, sequencer, delegator);
    var request := Request(delegator, p.round + REVOKE_DELEGATION_DELAY, Decrease(decrease));
    AskedFits(s, sequencer, request);
    var pushed;
    requests, pushed := TryPush(requests, request);
    assert pushed;
    state := state.(lessTotal := SatAdd(state.lessTotal, decrease));
    p.scheduledRequests := p.scheduledRequests[sequencer := requests];
    p.delegatorState := p.delegatorState[delegator := state];
    AskedKeeps(s, p.View(), sequencer, request);
    r := Pass;
  }

  function CancelRequestError(s: Storage, c: Account, d: Account): Option<Error> {
    if d !in s.delegators then Some(DelegatorDNE)
    else if !HasRequest(RequestsOf(s.requests, c), d) then Some(PendingDelegationRequestDNE)
    else None
  }

  /** Cancel the delegator's request with a sequencer. */
  method CancelRequest(p: Pallet, sequencer: Account, delegator: Account) returns (r: Outcome<Error>)
    requires Inv(p.View())
    modifies p
    ensures Inv(p.View())
    ensures r == Answer(CancelRequestError(old(p.View()), sequencer, delegator))
    ensures r.Fail? ==> p.View() == old(p.View())
    ensures r.Pass? ==> Withdrawn(old(p.View()), p.View(), sequencer, delegator)
  {
    hide Inv, PendingIn, DropRequest, HasRequest;
    ghost var s := p.View();
    if delegator !in p.delegatorState {
      return Fail(DelegatorDNE);
    }
    var state := p.delegatorState[delegator];
    var requests := RequestsOf(p.scheduledRequests, sequencer);
    var position := PositionOf(requests, delegator);
    if position.None? {
      return Fail(PendingDelegationRequestDNE);
    }
    DropRequestAt(requests, delegator, position.value);
    RequestKey(s, sequencer, delegator);
    var request := requests[position.value];
    requests := requests[..position.value] + requests[position.value + 1..];
    state := state.(lessTotal := SatSub(state.lessTotal, request.action.amount));
    p.scheduledRequests := p.scheduledRequests[sequencer := requests];
    p.delegatorState := p.delegatorState[delegator := state];
    WithdrawnKeeps(s, p.View(), sequencer, delegator);
    r := Pass;
  }

  lemma RequestKey(s: Storage, c: Account, d: Account)
    requires HasRequest(RequestsOf(s.requests, c), d)
    ensures c in s.requests
  {
  }
}
