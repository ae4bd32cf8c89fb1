/** `CandidateMetadata`: removing a delegation, from the tier the cached figures point to. */
module CandidateRemoval {
  import opened Config
  import opened Wrappers
  import opened Sums
  import opened Bonds
  import opened DelegationList
  import opened Tiers
  import opened OrderedSets
  import opened Book
  import opened Storage
  import opened DelegatorRecord
  import opened CandidateRecord
  import opened CandidateState

  /** Only the lists of `c` and its pool entry changed, and its record is in order again. */
  ghost predicate Edited(s: Storage, s': Storage, c: Account, md: CandidateMetadata, out: CandidateMetadata) {
    && c in s.top && c in s.bottom && c in s'.top && c in s'.bottom
    && TierOk(out, s'.top[c], s'.bottom[c])
    && s' == s.(top := s.top[c := s'.top[c]], bottom := s.bottom[c := s'.bottom[c]],
                pool := PoolAfter(s.pool, c, out))
    && out.bond == md.bond && out.status == md.status && out.request == md.request
  }

  /** The candidate's stake fits the balance type. */
  ghost predicate Fits(s: Storage, c: Account, md: CandidateMetadata, more: Balance)
    requires c in s.top && c in s.bottom
  {
    md.bond + Sum(Backers(Tiered(s, c))) + more <= MAX_BALANCE
  }

  function Cut(b: Delegations, o: Account): Delegations {
    Delegations(Without(b.delegations, o), SatSub(b.total, AmountOf(b.delegations, o)))
  }

  lemma CutHolds(b: Delegations, o: Account)
    requires Covers(b) && Distinct(b.delegations)
    ensures Covers(Cut(b, o)) && Drift(Cut(b, o)) == Drift(b)
    ensures SeqSum(Cut(b, o).delegations) == SeqSum(b.delegations) - AmountOf(b.delegations, o)
  {
    SeqSumWithout(b.delegations, o);
  }

  ghost function TopWithout(top: Delegations, bottom: Delegations, o: Account): Delegations {
    if bottom.delegations == [] then Cut(top, o) else Push(Cut(top, o), bottom.delegations[0])
  }

  ghost function Rest(bottom: Delegations): Delegations {
    if bottom.delegations == [] then bottom else Shift(bottom)
  }

  /** The exact outcome of a removal from the top. */
  ghost predicate TopRemoved(s: Storage, s': Storage, c: Account, md: CandidateMetadata, o: Account, out: CandidateMetadata)
    requires c in s.top && c in s.bottom
  {
    var top, bottom := TopWithout(s.top[c], s.bottom[c], o), Rest(s.bottom[c]);
    && out == WithTop(WithBottom(md, bottom), top).(delegationCount := SatSub(md.delegationCount, 1))
    && s' == s.(top := s.top[c := top], bottom := s.bottom[c := bottom], pool := PoolAfter(s.pool, c, out))
  }

  lemma TopRemovedTotals(md: CandidateMetadata, top: Delegations, bottom: Delegations, o: Account)
    requires TierOk(md, top, bottom) && o in ToMap(top.delegations)
    requires md.bond + SeqSum(top.delegations) + SeqSum(bottom.delegations) <= MAX_BALANCE
    ensures TopWithout(top, bottom, o).total == SeqSum(TopWithout(top, bottom, o).delegations)
    ensures md.bond + TopWithout(top, bottom, o).total <= MAX_BALANCE
    ensures Covers(Rest(bottom)) && Drift(Rest(bottom)) == Drift(bottom)
  {
    CutHolds(top, o);
    if bottom.delegations != [] {
      ShiftHolds(bottom);
      PushHolds(Cut(top, o), bottom.delegations[0]);
    }
  }

  lemma TopRemovedOk(s: Storage, s': Storage, c: Account, md: CandidateMetadata, o: Account, out: CandidateMetadata)
    requires Ready(s, c, md) && Fits(s, c, md, 0) && o in ToMap(s.top[c].delegations)
    requires TopRemoved(s, s', c, md, o, out)
    ensures Edited(s, s', c, md, out)
    ensures Tiered(s', c) == Remove(Tiered(s, c), o)
    ensures Drift(s'.bottom[c]) == Drift(s.bottom[c])
  {
    hide Without, AmountOf, InsertDesc, ToMap, InsertByOwner, SeqSum;
    BackersSum(Tiered(s, c));
    RemoveHolds(Tiered(s, c), o);
    ToMapOwners(s.top[c].delegations);
    TopRemovedTotals(md, s.top[c], s.bottom[c], o);
  }

  /** The top's part of a removal; the greatest bottom delegation, if any, takes the free place. */
  method RmTopDelegation(p: Pallet, md: CandidateMetadata, candidate: Account, delegator: Account)
    returns (out: CandidateMetadata, r: Result<bool, Error>)
    requires candidate in p.topDelegations && candidate in p.bottomDelegations
    requires Ranked(p.topDelegations[candidate].delegations)
    requires CachedBottom(md, p.bottomDelegations[candidate])
    requires PoolHas(p.candidatePool, candidate, md)
    modifies p`topDelegations, p`bottomDelegations, p`candidatePool
    ensures r == if delegator in ToMap(old(p.topDelegations)[candidate].delegations)
                 then Success(md.totalCounted == out.totalCounted) else Failure(DelegationDNE)
    ensures r.Failure? ==> out == md && p.View() == old(p.View())
    ensures r.Success? ==> TopRemoved(old(p.View()), p.View(), candidate, md, delegator, out)
  {
    hide Without, AmountOf, InsertDesc, ToMap, InsertByOwner, SeqSum;
    out := md;
    var oldTotalCounted := md.totalCounted;
    var top := p.topDelegations[candidate];
    WithoutKeepsDesc(top.delegations, delegator);
    var rest, actualAmount := TakeBond(top.delegations, delegator);
    if actualAmount.None? {
      return out, Failure(DelegationDNE);
    }
    top := top.(delegations := rest);
    top := top.(total := SatSub(top.total, actualAmount.value));
    if out.bottomCapacity != Empty {
      var bottom := p.bottomDelegations[candidate];
      var highest := bottom.delegations[0];
      bottom := bottom.(delegations := bottom.delegations[1..]);
      bottom := bottom.(total := SatSub(bottom.total, highest.amount));
      out := ResetBottomData(out, bottom);
      p.bottomDelegations := p.bottomDelegations[candidate := bottom];
      top := InsertSortedGreatestToLeast(top, highest);
    }
    out := ResetTopData(p, out, candidate, top);
    out := out.(delegationCount := SatSub(out.delegationCount, 1));
    p.topDelegations := p.topDelegations[candidate := top];
    r := Success(oldTotalCounted == out.totalCounted);
  }

  lemma RemovedFromBottom(md: CandidateMetadata, top: Delegations, bottom: Delegations, o: Account, out: CandidateMetadata)
    requires TierOk(md, top, bottom) && o in ToMap(bottom.delegations)
    requires out == WithBottom(md, Cut(bottom, o)).(delegationCount := SatSub(md.delegationCount, 1))
    ensures TierOk(out, top, Cut(bottom, o))
    ensures Tiers(top.delegations, Cut(bottom, o).delegations) == Remove(Tiers(top.delegations, bottom.delegations), o)
    ensures Drift(Cut(bottom, o)) == Drift(bottom)
  {
    var t := Tiers(top.delegations, bottom.delegations);
    RemoveHolds(t, o);
    ToMapOwners(top.delegations);
    CutHolds(bottom, o);
  }

  /** The bottom's part of a removal. */
  method RmBottomDelegation(p: Pallet, md: CandidateMetadata, candidate: Account, delegator: Account)
    returns (out: CandidateMetadata, r: Result<bool, Error>)
    requires Ready(p.View(), candidate, md)
    modifies p
    ensures r.Success? <==> delegator in ToMap(old(p.bottomDelegations)[candidate].delegations)
    ensures r.Failure? ==> r.error == DelegationDNE && out == md && p.View() == old(p.View())
    ensures r.Success? ==>
              && Edited(old(p.View()), p.View(), candidate, md, out)
              && Tiered(p.View(), candidate) == Remove(Tiered(old(p.View()), candidate), delegator)
              && Drift(p.bottomDelegations[candidate]) == Drift(old(p.bottomDelegations)[candidate])
              && r.value == false
  {
    ghost var s := p.View();
    out := md;
    var bottom := p.bottomDelegations[candidate];
    var rest, actualAmount := TakeBond(bottom.delegations, delegator);
    if actualAmount.None? {
      return out, Failure(DelegationDNE);
    }
    bottom := bottom.(delegations := rest);
    bottom := bottom.(total := SatSub(bottom.total, actualAmount.value));
    out := ResetBottomData(out, bottom);
    out := out.(delegationCount := SatSub(out.delegationCount, 1));
    p.bottomDelegations := p.bottomDelegations[candidate := bottom];
    RemovedFromBottom(md, s.top[candidate], s.bottom[candidate], delegator, out);
    PoolAfterIdle(s.pool, candidate, md);
    r := Success(false);
  }

  /**
   Remove a delegation recorded at `amount`. Although the tier is guessed from the cached figures, an existing
   delegation is always found, and an absent one always reported.
   */
  method RmDelegationIfExists(p: Pallet, md: CandidateMetadata, candidate: Account, delegator: Account, amount: Balance)
    returns (out: CandidateMetadata, r: Result<bool, Error>)
    requires Ready(p.View(), candidate, md) && Fits(p.View(), candidate, md, 0)
    requires delegator in Backers(Tiered(p.View(), candidate)) ==>
               amount == Backers(Tiered(p.View(), candidate))[delegator]
    modifies p
    ensures r.Success? <==> delegator in Backers(Tiered(old(p.View()), candidate))
    ensures r.Failure? ==> r.error == DelegationDNE && out == md && p.View() == old(p.View())
    ensures r.Success? ==>
              && Edited(old(p.View()), p.View(), candidate, md, out)
              && Tiered(p.View(), candidate) == Remove(Tiered(old(p.View()), candidate), delegator)
              && Drift(p.bottomDelegations[candidate]) == Drift(old(p.bottomDelegations)[candidate])
  {
    if delegator in Backers(Tiered(p.View(), candidate)) {
      TierOf(Tiered(p.View(), candidate), delegator);
    }
    var amountGeqLowestTop := amount >= md.lowestTop;
    var topIsNotFull := md.topCapacity != Full;
    var lowestTopEqHighestBottom := md.lowestTop == md.highestBottom;
    ghost var s := p.View();
    if topIsNotFull || (amountGeqLowestTop && !lowestTopEqHighestBottom) {
      out, r := RmTopDelegation(p, md, candidate, delegator);
      if r.Success? {
        TopRemovedOk(s, p.View(), candidate, md, delegator, out);
      }
    } else if amountGeqLowestTop && lowestTopEqHighestBottom {
      out, r := RmTopDelegation(p, md, candidate, delegator);
      if r == Failure(DelegationDNE) {
        out, r := RmBottomDelegation(p, md, candidate, delegator);
      } else {
        TopRemovedOk(s, p.View(), candidate, md, delegator, out);
      }
    } else {
      out, r := RmBottomDelegation(p, md, candidate, delegator);
    }
  }
}
