/** `Delegator`: the delegator's own record of its bonds, and how a bond is given back. */
module DelegatorRecord {
  import opened Config
  import opened Wrappers
  import opened Sums
  import opened Bonds
  import opened DelegationList
  import opened OrderedSets
  import opened Book
  import opened Storage

  datatype Error =
    | DelegatorDNE
    | CandidateDNE
    | DelegationDNE
    | DelegatorExists
    | CandidateExists
    | CandidateBondBelowMin
    | InsufficientBalance
    | DelegatorBondBelowMin
    | DelegationBelowMin
    | AlreadyOffline
    | AlreadyActive
    | CandidateAlreadyLeaving
    | CandidateNotLeaving
    | CandidateCannotLeaveYet
    | CannotGoOnlineIfLeaving
    | ExceedMaxDelegationsPerDelegator
    | AlreadyDelegatedCandidate
    | PendingCandidateRequestsDNE
    | PendingCandidateRequestAlreadyExists
    | PendingCandidateRequestNotDueYet
    | PendingDelegationRequestDNE
    | PendingDelegationRequestAlreadyExists
    | PendingDelegationRequestNotDueYet
    | CannotDelegateLessThanOrEqualToLowestBottomWhenFull
    | PendingDelegationRevoke
    | CandidateLimitReached
    | TransferFailed
    | TooLowCandidateCountWeightHintJoinCandidates
    | TooLowCandidateCountWeightHintCancelLeaveCandidates
    | TooLowCandidateCountToLeaveCandidates
    | TooLowCandidateDelegationCountToLeaveCandidates
    | TooLowDelegationCountToDelegate
    | TooLowCandidateDelegationCountToDelegate

  /** Storage after the delegation of `d` with `c` was given back on the delegator's side. */
  ghost function Released(s: Storage, c: Account, d: Account): Storage
    requires d in s.delegators && AmountOf(s.delegators[d].delegations, c) <= Get(s.btc, PALLET)
  {
    var rec := s.delegators[d];
    s.(delegators := Store(s.delegators, Parted(rec, c, PendingIn(RequestsOf(s.requests, c), d))),
    requests := Forget(s.requests, c, d),
    btc := Moved(s.btc, PALLET, d, AmountOf(rec.delegations, c)))
  }

  /** Pay the delegator back and lower the record's total. */
  method TotalSub(p: Pallet, state: Delegator, amount: Balance) returns (out: Delegator, r: Outcome<Error>)
    modifies p`btc
    ensures r == if amount <= Get(old(p.btc), PALLET) then Pass else Fail(TransferFailed)
    ensures out == state.(total := SatSub(state.total, amount))
    ensures p.btc == if r.Pass? then Moved(old(p.btc), PALLET, state.id, amount) else old(p.btc)
  {
    out := state.(total := SatSub(state.total, amount));
    var ok := Transfer(p, PALLET, state.id, amount);
    r := if ok then Pass else Fail(TransferFailed);
  }

  /** Remove the bond with `sequencer` and pay it back; what remains bonded, or none if there is no such bond. */
  method RmDelegation(p: Pallet, state: Delegator, sequencer: Account)
    returns (out: Delegator, remaining: Option<Balance>)
    requires SortedByOwner(state.delegations)
    requires sequencer in ToMap(state.delegations) ==>
               AmountOf(state.delegations, sequencer) <= Get(p.btc, PALLET)
    modifies p`btc
    ensures sequencer !in ToMap(state.delegations) ==>
              out == state && remaining == None && p.btc == old(p.btc)
    ensures sequencer in ToMap(state.delegations) ==>
              var amount := AmountOf(state.delegations, sequencer);
              && out == state.(delegations := Without(state.delegations, sequencer),
                               total := SatSub(state.total, amount))
              && remaining == Some(out.total)
              && p.btc == Moved(old(p.btc), PALLET, state.id, amount)
  {
    var delegations, amt := TakeBond(state.delegations, sequencer);
    if amt.Some? {
      WithoutKeepsByOwner(state.delegations, sequencer);
      SortDedupIdle(delegations);
      out := state.(delegations := SortDedup(delegations));
      var r;
      out, r := TotalSub(p, out, amt.value);
      assert r.Pass?; // decreasing the lock cannot fail
      remaining := Some(out.total);
    } else {
      out, remaining := state, None;
    }
  }

  /** Remove the delegator's request with this sequencer, if there is one; the caller stores the record. */
  method RemoveRequestWithState(p: Pallet, sequencer: Account, delegator: Account, state: Delegator)
    returns (out: Delegator)
    modifies p`scheduledRequests
    ensures p.scheduledRequests == Forget(old(p.scheduledRequests), sequencer, delegator)
    ensures out == state.(lessTotal :=
      SatSub(state.lessTotal, PendingIn(RequestsOf(old(p.scheduledRequests), sequencer), delegator)))
  {
    var requests := RequestsOf(p.scheduledRequests, sequencer);
    var position := PositionOf(requests, delegator);
    if position.Some? {
      DropRequestAt(requests, delegator, position.value);
      var request := requests[position.value];
      requests := requests[..position.value] + requests[position.value + 1..];
      out := state.(lessTotal := SatSub(state.lessTotal, request.action.amount));
      p.scheduledRequests := p.scheduledRequests[sequencer := requests];
    } else {
      NoRequestNoPending(requests, delegator);
      out := state;
    }
  }
}
