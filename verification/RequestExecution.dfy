/** Executing a due request, and increasing a delegation: what takes stake out of and into a candidate. */
module RequestExecution {
  import opened Config
  import opened Wrappers
  import opened Sums
  import opened Bonds
  import opened DelegationList
  import opened Tiers
  import opened OrderedSets
  import opened Book
  import opened Bookkeeping
  import opened Storage
  import opened DelegatorRecord
  import opened CandidateRecord
  import opened CandidateState
  import opened CandidateRemoval
  import opened CandidateChange
  import opened Accounting
  import opened Candidates
  import opened Ledger
  import opened DelegationRequests

  /** Nothing but the lists of `c`, its pool entry and the total changed. */
  ghost predicate SideChanged(s: Storage, s': Storage, c: Account, total: Balance) {
    && ListsChanged(s, s', c)
    && s' == s.(info := s'.info, top := s'.top, bottom := s'.bottom, pool := s'.pool, total := total)
  }

  /** A change of a candidate's lists stays one when other storage items are written around it. */
  lemma SideCarries(s: Storage, s1: Storage, s2: Storage, s': Storage, c: Account)
    requires ListsChanged(s1, s2, c)
    requires s.info == s1.info && s.top == s1.top && s.bottom == s1.bottom && s.pool == s1.pool
    requires s'.info == s2.info && s'.top == s2.top && s'.bottom == s2.bottom && s'.pool == s2.pool
    ensures ListsChanged(s, s', c)
  {
    hide TierOk, PoolAfter;
  }

  lemma EditedSide(s: Storage, m: Storage, s': Storage, c: Account, out: CandidateMetadata)
    requires Keyed(s) && c in s.info && Edited(s, m, c, s.info[c], out)
    requires s' == m.(info := m.info[c := out], total := s'.total)
    ensures SideChanged(s, s', c, s'.total) && Tiered(s', c) == Tiered(m, c)
  {
    hide TierOk, PoolAfter;
    assert OnlyCandidate(s, s', c);
    OnlyCandidateHolds(s, s', c);
  }

  /** The candidate's side of a delegation that ends at its recorded amount. */
  method DelegatorLeavesCandidate(p: Pallet, candidate: Account, delegator: Account, amount: Balance)
    returns (r: Outcome<Error>)
    requires Keyed(p.View()) && candidate in p.candidateInfo
    requires Ready(p.View(), candidate, p.candidateInfo[candidate])
    requires Fits(p.View(), candidate, p.candidateInfo[candidate], 0)
    requires delegator in Backers(Tiered(p.View(), candidate))
    requires amount == Backers(Tiered(p.View(), candidate))[delegator]
    modifies p
    ensures r.Pass?
    ensures var s, s' := old(p.View()), p.View();
            && SideChanged(s, s', candidate, SatSub(s.total, amount))
            && Tiered(s', candidate) == Remove(Tiered(s, candidate), delegator)
            && Drift(s'.bottom[candidate]) == Drift(s.bottom[candidate])
  {
    hide TierOk, Backers, Remove, PoolAfter, Ready, Fits, SeqSum, Edited;
    ghost var s := p.View();
    var state, removed := RmDelegationIfExists(p, p.candidateInfo[candidate], candidate, delegator, amount);
    ghost var m := p.View();
    p.total := SatSub(p.total, amount);
    p.candidateInfo := p.candidateInfo[candidate := state];
    EditedFrame(s, m, candidate, s.info[candidate], state);
    EditedSide(s, m, p.View(), candidate, state);
    r := Pass;
  }

  lemma EditedFrame(s: Storage, m: Storage, c: Account, md: CandidateMetadata, out: CandidateMetadata)
    requires Edited(s, m, c, md, out)
    ensures m == s.(top := m.top, bottom := m.bottom, pool := m.pool)
  {
  }

  /** The candidate's side of an increase; returns whether the delegation is in the top afterwards. */
  method IncreaseAtCandidate(p: Pallet, candidate: Account, delegator: Account, bond: Balance, more: Balance)
    returns (inTop: bool)
    requires Keyed(p.View()) && candidate in p.candidateInfo
    requires Ready(p.View(), candidate, p.candidateInfo[candidate])
    requires Fits(p.View(), candidate, p.candidateInfo[candidate], more)
    requires Tiered(p.View(), candidate).top != []
    requires delegator in Backers(Tiered(p.View(), candidate))
    requires bond == Backers(Tiered(p.View(), candidate))[delegator]
    modifies p
    ensures var s, s' := old(p.View()), p.View();
            && SideChanged(s, s', candidate, SatAdd(s.total, more))
            && Tiered(s', candidate) == Raise(Tiered(s, candidate), delegator, more)
            && DriftKept(s, s', candidate)
            && (inTop <==> delegator in ToMap(s'.top[candidate].delegations))
  {
    hide TierOk, Backers, Raise, PoolAfter, Ready, Fits, SeqSum, ToMap, Edited;
    ghost var s := p.View();
    var state, increased := IncreaseDelegation(p, p.candidateInfo[candidate], candidate, delegator, bond, more);
    inTop := increased.value;
    ghost var m := p.View();
    p.candidateInfo := p.candidateInfo[candidate := state];
    p.total := SatAdd(p.total, more);
    EditedFrame(s, m, candidate, s.info[candidate], state);
    EditedSide(s, m, p.View(), candidate, state);
  }

  /** The candidate's side of a decrease. */
  method DecreaseAtCandidate(p: Pallet, candidate: Account, delegator: Account, bond: Balance, less: Balance)
    requires Keyed(p.View()) && candidate in p.candidateInfo
    requires Ready(p.View(), candidate, p.candidateInfo[candidate])
    requires Fits(p.View(), candidate, p.candidateInfo[candidate], 0)
    requires delegator in Backers(Tiered(p.View(), candidate))
    requires less <= bond == Backers(Tiered(p.View(), candidate))[delegator]
    modifies p
    ensures var s, s' := old(p.View()), p.View();
            && SideChanged(s, s', candidate, SatSub(s.total, less))
            && Tiered(s', candidate) == Lower(Tiered(s, candidate), delegator, less)
            && DriftAfterDecrease(s, s', candidate, delegator, less)
  {
    hide TierOk, Backers, Lower, PoolAfter, Ready, Fits, SeqSum, ToMap, Edited;
    ghost var s := p.View();
    var state, inTop := DecreaseDelegation(p, p.candidateInfo[candidate], candidate, delegator, bond, less);
    ghost var m := p.View();
    p.candidateInfo := p.candidateInfo[candidate := state];
    p.total := SatSub(p.total, less);
    EditedFrame(s, m, candidate, s.info[candidate], state);
    EditedSide(s, m, p.View(), candidate, state);
  }

  /** A decrease in the bottom stays behind in the bottom total; nothing else adds to the excess. */
  ghost predicate DriftAfterDecrease(s: Storage, s': Storage, c: Account, d: Account, less: Balance)
    requires c in s.top && c in s.bottom && c in s'.bottom
  {
    if d in ToMap(s.top[c].delegations) then DriftKept(s, s', c)
    else Drift(s'.bottom[c]) == Drift(s.bottom[c]) + less
  }

  ghost function ExecuteRequestError(s: Storage, c: Account, d: Account): Option<Error> {
    if d !in s.delegators then Some(DelegatorDNE)
    else if !HasRequest(RequestsOf(s.requests, c), d) then Some(PendingDelegationRequestDNE)
    else if exists r :: r in RequestsOf(s.requests, c) && r.delegator == d && s.round < r.whenExecutable then
      Some(PendingDelegationRequestNotDueYet)
    else None
  }

  /** What the execution of a request does, by its kind. */
  ghost predicate Executed(s: Storage, s': Storage, c: Account, q: Request) {
    && q in RequestsOf(s.requests, c) && q.whenExecutable <= s.round
    && match q.action
       case Revoke(x) => Revoked(s, s', c, q.delegator) && Backers(TiersOf(s, c))[q.delegator] == x
       case Decrease(x) =>
         && Decreased(s, s', c, q.delegator, x) && Backers(TiersOf(s, c))[q.delegator] - x >= MIN_DELEGATION
         && DriftAfterDecrease(s, s', c, q.delegator, x)
  }

  /** A delegator with a second bond keeps the minimum when the first one is revoked. */
  lemma SecondBondIsEnough(s: Storage, c: Account, d: Account)
    requires Inv(s) && c in s.info && d in Backers(TiersOf(s, c)) && d in s.delegators
    requires |s.delegators[d].delegations| != 1
    ensures Backers(TiersOf(s, c))[d] + MIN_DELEGATION <= s.delegators[d].total
  {
    hide TierOk, Backers;
    BondIn(BookOf(s), c, d);
    var rec := s.delegators[d];
    var other := if rec.delegations[0].owner == c then rec.delegations[1] else rec.delegations[0];
    assert other in rec.delegations;
    ToMapHolds(rec.delegations);
    assert Bond(other.owner, other.amount) in rec.delegations;
    SumTwoEntries(ToMap(rec.delegations), c, other.owner);
  }

  /** What is known of the parties to a request before it is executed. */
  lemma RequestReady(s: Storage, c: Account, q: Request)
    requires Inv(s) && q in RequestsOf(s.requests, c)
    ensures c in s.requests && c in s.info && q.delegator in s.delegators && q.delegator in Backers(TiersOf(s, c))
    ensures Ready(s, c, s.info[c]) && s.info[c].bond + Sum(Backers(TiersOf(s, c))) <= MAX_BALANCE
    ensures BondLessOk(s.info[c])
    ensures Returnable(s, c, Bond(q.delegator, Backers(TiersOf(s, c))[q.delegator]))
    ensures Backed(q, Some(Backers(TiersOf(s, c))[q.delegator]))
    ensures Backers(TiersOf(s, c))[q.delegator] <= s.delegators[q.delegator].total
    ensures PendingIn(RequestsOf(s.requests, c), q.delegator) == q.action.amount
  {
    hide ToMap, TierOk, BookOk, Backers, PendingIn;
    RequestIsBacked(s, c, q);
    InvReady(s, c);
    BackerReturnable(s, c, Bond(q.delegator, Backers(TiersOf(s, c))[q.delegator]));
    SumEntry(s.btc, PALLET);
    BondInTotal(s, c, q.delegator);
  }

  lemma BondInTotal(s: Storage, c: Account, d: Account)
    requires Inv(s) && c in s.info && d in Backers(TiersOf(s, c)) && d in s.delegators
    ensures Backers(TiersOf(s, c))[d] <= s.delegators[d].total
    ensures s.delegators[d].total >= MIN_DELEGATION
  {
    hide ToMap, TierOk, Backers;
    BondIn(BookOf(s), c, d);
  }

  /** Execute a due revocation: the delegation ends on both sides and is paid back. */
  method ExecuteRevoke(p: Pallet, sequencer: Account, delegator: Account, requests: seq<Request>, position: nat)
    returns (r: Outcome<Error>)
    requires Inv(p.View())
    requires requests == RequestsOf(p.scheduledRequests, sequencer) && position < |requests|
    requires requests[position].delegator == delegator && requests[position].action.Revoke?
    requires requests[position].whenExecutable <= p.round
    requires forall k | 0 <= k < position :: requests[k].delegator != delegator
    modifies p
    ensures Inv(p.View())
    ensures r.Pass? && Executed(old(p.View()), p.View(), sequencer, requests[position])
  {
    hide ToMap, TierOk, BookOk, Backers, Inv, AmountOf, Distinct, HasOwner, PendingIn, DropRequest, Remove, PoolAfter,
      Without, Moved, SeqSum;
    ghost var s := p.View();
    InvKeyed(s);
    ghost var q := requests[position];
    RequestReady(s, sequencer, q);
    var state := p.delegatorState[delegator];
    var leaving := |state.delegations| == 1;
    if !leaving {
      SecondBondIsEnough(s, sequencer, delegator);
      assert SatSub(state.total, MIN_DELEGATION) >= requests[position].action.amount;
    }
    var amount := requests[position].action.amount;
    DropRequestAt(requests, delegator, position);
    var scheduledRequests := requests[..position] + requests[position + 1..];
    state := state.(lessTotal := SatSub(state.lessTotal, amount));
    var remaining;
    SortedWithout(state.delegations, sequencer);
    state, remaining := RmDelegation(p, state, sequencer);
    ghost var s1 := p.View();
    r := DelegatorLeavesCandidate(p, sequencer, delegator, amount);
    ghost var s2 := p.View();
    p.scheduledRequests := p.scheduledRequests[sequencer := scheduledRequests];
    if leaving {
      p.delegatorState := p.delegatorState - {delegator};
    } else {
      p.delegatorState := p.delegatorState[delegator := state];
    }
    SideCarries(s, s1, s2, p.View(), sequencer);
    RevokedKeeps(s, p.View(), sequencer, delegator);
  }

  /** The record after its bond was changed in place and its total moved along. */
  lemma RevisedIs(rec: Delegator, c: Account, before: Balance, after: Balance, total: Balance)
    requires before == AmountOf(rec.delegations, c) <= rec.total
    requires total + before == rec.total + after
    ensures Revised(rec, c, after) == Delegator(rec.id, Revalue(rec.delegations, c, after), total, rec.lessTotal)
  {
    hide AmountOf, Revalue;
  }

  /** Lower the delegator's total if the check accepts the result, and pay the amount back. */
  method TotalSubIf(p: Pallet, state: Delegator, amount: Balance) returns (out: Delegator, r: Outcome<Error>)
    modifies p`btc
    ensures r == if SatSub(state.total, amount) < MIN_DELEGATION then Fail(DelegationBelowMin)
                 else if amount <= Get(old(p.btc), PALLET) then Pass else Fail(TransferFailed)
    ensures r.Pass? ==> out == state.(total := SatSub(state.total, amount))
    ensures p.btc == if r.Pass? then Moved(old(p.btc), PALLET, state.id, amount) else old(p.btc)
  {
    out := state;
    var total := SatSub(state.total, amount);
    if total < MIN_DELEGATION {
      return out, Fail(DelegationBelowMin);
    }
    out := out.(total := total);
    var ok := Transfer(p, PALLET, state.id, amount);
    r := if ok then Pass else Fail(TransferFailed);
  }

  lemma DecreaseLeavesMinimum(s: Storage, c: Account, q: Request)
    requires Inv(s) && q in RequestsOf(s.requests, c) && q.action.Decrease?
    ensures c in s.info && q.delegator in Backers(TiersOf(s, c)) && q.delegator in s.delegators
    ensures q.action.amount + MIN_DELEGATION <= Backers(TiersOf(s, c))[q.delegator]
    ensures q.action.amount + MIN_DELEGATION <= s.delegators[q.delegator].total
    ensures s.delegators[q.delegator].id == q.delegator
    ensures Distinct(s.delegators[q.delegator].delegations)
    ensures c in ToMap(s.delegators[q.delegator].delegations)
    ensures AmountOf(s.delegators[q.delegator].delegations, c) == Backers(TiersOf(s, c))[q.delegator]
  {
    hide TierOk, BookOk, Backers, PendingIn;
    RequestReady(s, c, q);
  }

  /** Execute a due decrease: the amount leaves the delegation on both sides and is paid back. */
  method ExecuteDecrease(p: Pallet, sequencer: Account, delegator: Account, requests: seq<Request>, position: nat)
    returns (r: Outcome<Error>)
    requires Inv(p.View())
    requires requests == RequestsOf(p.scheduledRequests, sequencer) && position < |requests|
    requires requests[position].delegator == delegator && requests[position].action.Decrease?
    requires requests[position].whenExecutable <= p.round
    requires forall k | 0 <= k < position :: requests[k].delegator != delegator
    modifies p
    ensures Inv(p.View())
    ensures r.Pass? && Executed(old(p.View()), p.View(), sequencer, requests[position])
  {
    hide ToMap, TierOk, BookOk, Backers, Inv, AmountOf, Distinct, HasOwner, PendingIn, DropRequest, Lower, PoolAfter,
      Revalue, Moved, SeqSum;
    ghost var s := p.View();
    InvKeyed(s);
    ghost var q := requests[position];
    RequestReady(s, sequencer, q);
    DecreaseLeavesMinimum(s, sequencer, q);
    var state := p.delegatorState[delegator];
    var amount := requests[position].action.amount;
    DropRequestAt(requests, delegator, position);
    var scheduledRequests := requests[..position] + requests[position + 1..];
    state := state.(lessTotal := SatSub(state.lessTotal, amount));
    var before := GetBond(state, sequencer);
    assert before > amount;
    var cut, found := CutBond(state.delegations, sequencer, amount);
    state := state.(delegations := cut);
    state, r := TotalSubIf(p, state, amount);
    ghost var s1 := p.View();
    DecreaseAtCandidate(p, sequencer, delegator, before, amount);
    ghost var s2 := p.View();
    p.scheduledRequests := p.scheduledRequests[sequencer := scheduledRequests];
    p.delegatorState := p.delegatorState[delegator := state];
    SideCarries(s, s1, s2, p.View(), sequencer);
    RevisedIs(s.delegators[delegator].(lessTotal := state.lessTotal), sequencer, before, before - amount, state.total);
    DecreasedKeeps(s, p.View(), sequencer, delegator, amount);
  }

  /** The amount of a bond that is there. */
  method GetBond(state: Delegator, sequencer: Account) returns (amount: Balance)
    requires Distinct(state.delegations) && sequencer in ToMap(state.delegations)
    ensures amount == AmountOf(state.delegations, sequencer)
  {
    AmountOfHolds(state.delegations, sequencer);
    var found := GetBondAmount(state, sequencer);
    amount := found.value;
  }

  /**
   Execute the pending request of a delegator. Once a request is due, it succeeds: neither the minimum checks,
   nor the look-up of the delegation, nor the transfer can fail.
   */
  method ExecuteScheduledRequest(p: Pallet, sequencer: Account, delegator: Account) returns (r: Outcome<Error>)
    requires Inv(p.View())
    modifies p
    ensures Inv(p.View())
    ensures r == Answer(ExecuteRequestError(old(p.View()), sequencer, delegator))
    ensures r.Fail? ==> p.View() == old(p.View())
    ensures r.Pass? ==>
              exists q: Request :: q.delegator == delegator && Executed(old(p.View()), p.View(), sequencer, q)
  {
    hide Inv, Executed;
    ghost var s := p.View();
    if delegator !in p.delegatorState {
      return Fail(DelegatorDNE);
    }
    var requests := RequestsOf(p.scheduledRequests, sequencer);
    var position := PositionOf(requests, delegator);
    if position.None? {
      return Fail(PendingDelegationRequestDNE);
    }
    var request := requests[position.value];
    OneEach(s, sequencer);
    assert forall q | q in requests && q.delegator == delegator :: q == request;
    if !(request.whenExecutable <= p.round) {
      return Fail(PendingDelegationRequestNotDueYet);
    }
    match request.action {
      case Revoke(_) =>
        r := ExecuteRevoke(p, sequencer, delegator, requests, position.value);
      case Decrease(_) =>
        r := ExecuteDecrease(p, sequencer, delegator, requests, position.value);
    }
  }

  // Bond more

  ghost function BondMoreError(s: Storage, c: Account, d: Account, more: Balance): Option<Error> {
    if d !in s.delegators then Some(DelegatorDNE)
    else if exists r :: r in RequestsOf(s.requests, c) && r.delegator == d && r.action.Revoke? then
      Some(PendingDelegationRevoke)
    else if !HasOwner(s.delegators[d].delegations, c) then Some(DelegationDNE)
    else if Get(s.btc, d) < more then Some(TransferFailed)
    else None
  }

  /** Whether a revocation is pending for this delegation. */
  method RequestRevokeExists(p: Pallet, sequencer: Account, delegator: Account) returns (b: bool)
    ensures b <==> exists r :: r in RequestsOf(p.scheduledRequests, sequencer) && r.delegator == delegator && r.action.Revoke?
  {
    var requests := RequestsOf(p.scheduledRequests, sequencer);
    for i := 0 to |requests|
      invariant forall k | 0 <= k < i :: !(requests[k].delegator == delegator && requests[k].action.Revoke?)
    {
      if requests[i].delegator == delegator && requests[i].action.Revoke? {
        assert requests[i] in requests;
        return true;
      }
    }
    return false;
  }

  /** What an increase needs: everything fits the balance type, and a tier to go to exists. */
  lemma IncreaseReady(s: Storage, c: Account, d: Account, more: Balance)
    requires Inv(s) && d in s.delegators && HasOwner(s.delegators[d].delegations, c) && more <= Get(s.btc, d)
    ensures c in s.info && d in Backers(TiersOf(s, c)) && d != PALLET && BondLessOk(s.info[c])
    ensures Ready(s, c, s.info[c]) && s.info[c].bond + Sum(Backers(TiersOf(s, c))) + more <= MAX_BALANCE
    ensures Backers(TiersOf(s, c))[d] + more <= s.delegators[d].total + more <= MAX_BALANCE
    ensures s.total + more <= MAX_BALANCE && s.delegators[d].id == d
    ensures TiersOf(s, c).top != []
  {
    hide ToMap, TierOk, BookOk, Backers;
    BondOnBothSides(s, c, d);
    BackerReturnable(s, c, Bond(d, Backers(TiersOf(s, c))[d]));
    InvReady(s, c);
    BalanceFits(s, d, more);
    DelegatorFits(s, d);
    BondInTotal(s, c, d);
    ShapeOf(s, c);
    RaiseCases(TiersOf(s, c), d, more);
  }

  /** Take the money, and enter the increase on both sides. */
  method EnterIncrease(p: Pallet, delegator: Account, candidate: Account, bond: Balance, more: Balance, state: Delegator)
    returns (r: Outcome<Error>, inTop: bool)
    requires Inv(p.View()) && delegator in p.delegatorState
    requires HasOwner(p.delegatorState[delegator].delegations, candidate)
    requires bond == AmountOf(p.delegatorState[delegator].delegations, candidate)
    requires forall q | q in RequestsOf(p.scheduledRequests, candidate) && q.delegator == delegator :: q.action.Decrease?
    requires more <= Get(p.btc, delegator) ==> state == Revised(p.delegatorState[delegator], candidate, bond + more)
    modifies p
    ensures Inv(p.View())
    ensures r == if Get(old(p.btc), delegator) < more then Fail(TransferFailed) else Pass
    ensures r.Fail? ==> p.View() == old(p.View())
    ensures r.Pass? ==> Increased(old(p.View()), p.View(), candidate, delegator, more)
    ensures r.Pass? ==> (inTop <==> delegator in ToMap(p.topDelegations[candidate].delegations))
  {
    hide ToMap, TierOk, BookOk, Backers, Inv, AmountOf, Distinct, HasOwner, Raise, PoolAfter, Moved, SeqSum,
      SortedByOwner, Covers, Above, Shape, Revised, ListsChanged, BondLessOk, Live, BookOf, Backed;
    ghost var s := p.View();
    InvKeyed(s);
    BondOnBothSides(s, candidate, delegator);
    var transferred := Transfer(p, delegator, PALLET, more);
    if !transferred {
      return Fail(TransferFailed), false;
    }
    IncreaseReady(s, candidate, delegator, more);
    ghost var s1 := p.View();
    inTop := IncreaseAtCandidate(p, candidate, delegator, bond, more);
    ghost var s2 := p.View();
    p.delegatorState := p.delegatorState[delegator := state];
    SideCarries(s, s1, s2, p.View(), candidate);
    IncreasedKeeps(s, p.View(), candidate, delegator, more);
    r := Pass;
  }

  /** Increase a delegation at once, with money of the delegator. */
  method DelegatorBondMore(p: Pallet, delegator: Account, candidate: Account, more: Balance)
    returns (r: Outcome<Error>, inTop: bool)
    requires Inv(p.View())
    modifies p
    ensures Inv(p.View())
    ensures r == Answer(BondMoreError(old(p.View()), candidate, delegator, more))
    ensures r.Fail? ==> p.View() == old(p.View())
    ensures r.Pass? ==> Increased(old(p.View()), p.View(), candidate, delegator, more)
    ensures r.Pass? ==> (inTop <==> delegator in ToMap(p.topDelegations[candidate].delegations))
  {
    hide ToMap, TierOk, BookOk, Backers, Inv, AmountOf, Distinct, HasOwner, Raise, PoolAfter, Revalue, Moved, SeqSum,
      SortedByOwner, Covers, Above, Shape;
    ghost var s := p.View();
    inTop := false;
    InvKeyed(s);
    if delegator !in p.delegatorState {
      return Fail(DelegatorDNE), false;
    }
    var state := p.delegatorState[delegator];
    var revokeExists := RequestRevokeExists(p, candidate, delegator);
    if revokeExists {
      return Fail(PendingDelegationRevoke), false;
    }
    BondOnBothSides(s, candidate, delegator);
    var before := GetBondAmount(state, candidate);
    if before.None? {
      return Fail(DelegationDNE), false;
    }
    var bumped, found := BumpBond(state.delegations, candidate, more);
    state := state.(delegations := bumped);
    state := state.(total := SatAdd(state.total, more));
    if more <= Get(p.btc, delegator) {
      IncreaseReady(s, candidate, delegator, more);
      RevisedIs(s.delegators[delegator], candidate, before.value, before.value + more, state.total);
    }
    r, inTop := EnterIncrease(p, delegator, candidate, before.value, more, state);
  }
}
