/** `CandidateMetadata`: the two-tier delegation list, edited step by step and routed by cached figures. */
module CandidateState {
  import opened Config
  import opened Wrappers
  import opened Sums
  import opened Bonds
  import opened DelegationList
  import opened Tiers
  import opened OrderedSets
  import opened Book
  import opened Storage
  import opened DelegatorRecord
  import opened CandidateRecord

  /** A bond of candidate `c` that can be given back: its delegator records it and the pallet can pay. */
  ghost predicate Returnable(s: Storage, c: Account, b: Bond) {
    && b.owner in s.delegators
    && s.delegators[b.owner].id == b.owner
    && SortedByOwner(s.delegators[b.owner].delegations)
    && c in ToMap(s.delegators[b.owner].delegations)
    && AmountOf(s.delegators[b.owner].delegations, c) == b.amount <= Get(s.btc, PALLET)
  }

  ghost predicate KickReady(s: Storage, c: Account) {
    && c in s.bottom
    && (|s.bottom[c].delegations| == MAX_BOTTOM ==> Returnable(s, c, Last(s.bottom[c].delegations)))
  }

  /** Storage without the lowest bottom delegation of `c`, if the bottom is full. */
  ghost function AfterKick(s: Storage, c: Account): Storage
    requires KickReady(s, c)
  {
    if |s.bottom[c].delegations| == MAX_BOTTOM then Released(s, c, Last(s.bottom[c].delegations).owner) else s
  }

  /** The bottom takes a delegation in; a full bottom first loses its lowest delegation. */
  method AddBottomDelegation(p: Pallet, md: CandidateMetadata, bumpedFromTop: bool, candidate: Account, x: Bond)
    returns (out: CandidateMetadata)
    requires KickReady(p.View(), candidate)
    requires Ranked(p.bottomDelegations[candidate].delegations)
    requires |p.bottomDelegations[candidate].delegations| <= MAX_BOTTOM
    modifies p
    ensures var s := old(p.View());
            var bottom := Push(MakeRoom(s.bottom[candidate]), x);
            && p.View() == AfterKick(s, candidate).(bottom := s.bottom[candidate := bottom])
            && out == WithBottom(md, bottom).(delegationCount := md.delegationCount +
                 if |s.bottom[candidate].delegations| < MAX_BOTTOM && !bumpedFromTop then 1 else 0)
  {
    hide Without, AmountOf, InsertDesc, ToMap, InsertByOwner, SeqSum, PendingIn, DropRequest;
    out := md;
    var bottom := p.bottomDelegations[candidate];
    var increaseDelegationCount;
    if |bottom.delegations| == MAX_BOTTOM {
      var kicked := bottom.delegations[|bottom.delegations| - 1];
      bottom := bottom.(delegations := bottom.delegations[..|bottom.delegations| - 1]);
      bottom := bottom.(total := SatSub(bottom.total, kicked.amount));
      var state := p.delegatorState[kicked.owner];
      var leaving := |state.delegations| == 1;
      SortedWithout(state.delegations, candidate);
      var remaining;
      state, remaining := RmDelegation(p, state, candidate);
      state := RemoveRequestWithState(p, candidate, kicked.owner, state);
      if leaving {
        p.delegatorState := p.delegatorState - {kicked.owner};
      } else {
        p.delegatorState := p.delegatorState[kicked.owner := state];
      }
      RankedInit(p.bottomDelegations[candidate].delegations);
      increaseDelegationCount := false;
    } else {
      increaseDelegationCount := !bumpedFromTop;
    }
    if increaseDelegationCount {
      out := out.(delegationCount := out.delegationCount + 1);
    }
    bottom := InsertSortedGreatestToLeast(bottom, x);
    out := ResetBottomData(out, bottom);
    p.bottomDelegations := p.bottomDelegations[candidate := bottom];
  }

  /** The lists with their totals after an addition. */
  ghost function AddedTop(top: Delegations, x: Bond): Delegations {
    if |top.delegations| < MAX_TOP then Push(top, x)
    else if Lowest(top.delegations) < x.amount then Push(Pop(top), x)
    else top
  }

  ghost function AddedBottom(top: Delegations, bottom: Delegations, x: Bond): Delegations {
    if |top.delegations| < MAX_TOP then bottom
    else if Lowest(top.delegations) < x.amount then Push(MakeRoom(bottom), Last(top.delegations))
    else Push(MakeRoom(bottom), x)
  }

  /** What the tier methods need of the storage: the candidate is in order and its pool entry is current. */
  ghost predicate Ready(s: Storage, c: Account, md: CandidateMetadata) {
    && c in s.top && c in s.bottom
    && TierOk(md, s.top[c], s.bottom[c])
    && PoolHas(s.pool, c, md)
  }

  ghost function Tiered(s: Storage, c: Account): Tiers
    requires c in s.top && c in s.bottom
  {
    Tiers(s.top[c].delegations, s.bottom[c].delegations)
  }

  /** The top takes a delegation in; a full top first moves its lowest one down. */
  method AddTopDelegation(p: Pallet, md: CandidateMetadata, candidate: Account, x: Bond)
    returns (out: CandidateMetadata, less: Option<Balance>)
    requires Ready(p.View(), candidate, md) && KickReady(p.View(), candidate)
    requires |p.topDelegations[candidate].delegations| == MAX_TOP ==> md.lowestTop < x.amount
    modifies p
    ensures var s := old(p.View());
            var top, bottom := AddedTop(s.top[candidate], x), AddedBottom(s.top[candidate], s.bottom[candidate], x);
            && p.View() == AfterKick(s, candidate).(top := s.top[candidate := top], bottom := s.bottom[candidate := bottom],
                                                    pool := PoolAfter(s.pool, candidate, out))
            && out == WithTop(WithBottom(md, bottom), top).(delegationCount := md.delegationCount +
                        if IsFull(Tiered(s, candidate)) then 0 else 1)
            && less == (if IsFull(Tiered(s, candidate)) then Some(Lowest(s.bottom[candidate].delegations)) else None)
  {
    hide Without, AmountOf, InsertDesc, ToMap, InsertByOwner, SeqSum, PendingIn, DropRequest;
    less := None;
    out := md;
    var top := p.topDelegations[candidate];
    ghost var s := p.View();
    if |top.delegations| == MAX_TOP {
      var newBottom := top.delegations[|top.delegations| - 1];
      top := top.(delegations := top.delegations[..|top.delegations| - 1]);
      top := top.(total := SatSub(top.total, newBottom.amount));
      if out.bottomCapacity == Full {
        less := Some(out.lowestBottom);
      }
      out := AddBottomDelegation(p, out, true, candidate, newBottom);
      RankedInit(s.top[candidate].delegations);
    }
    top := InsertSortedGreatestToLeast(top, x);
    out := ResetTopData(p, out, candidate, top);
    if less.None? {
      out := out.(delegationCount := out.delegationCount + 1);
    }
    p.topDelegations := p.topDelegations[candidate := top];
  }

  /** The totals follow the lists, and the bottom total's excess over its list stays what it was. */
  lemma AddedTotals(md: CandidateMetadata, top: Delegations, bottom: Delegations, x: Bond)
    requires TierOk(md, top, bottom)
    requires SeqSum(top.delegations) + SeqSum(bottom.delegations) + x.amount <= MAX_BALANCE
    ensures AddedTop(top, x).total == SeqSum(AddedTop(top, x).delegations)
    ensures Covers(AddedBottom(top, bottom, x))
    ensures Carries(AddedBottom(top, bottom, x), Drift(bottom))
  {
    if |top.delegations| < MAX_TOP {
      InsertDescHolds(top.delegations, x);
    } else {
      PopHolds(top);
      InsertDescHolds(Init(top.delegations), x);
      var bumped := if Lowest(top.delegations) < x.amount then Last(top.delegations) else x;
      if |bottom.delegations| == MAX_BOTTOM {
        PopHolds(bottom);
      }
      PushHolds(MakeRoom(bottom), bumped);
    }
  }

  lemma AddedOk(md: CandidateMetadata, top: Delegations, bottom: Delegations, x: Bond, out: CandidateMetadata)
    requires TierOk(md, top, bottom)
    requires x.owner !in Backers(Tiers(top.delegations, bottom.delegations))
    requires md.bond + SeqSum(top.delegations) + SeqSum(bottom.delegations) + x.amount <= MAX_BALANCE
    requires out == WithTop(WithBottom(md, AddedBottom(top, bottom, x)), AddedTop(top, x)).(
                    delegationCount := md.delegationCount +
                    if IsFull(Tiers(top.delegations, bottom.delegations)) then 0 else 1)
    ensures TierOk(out, AddedTop(top, x), AddedBottom(top, bottom, x))
    ensures Tiers(AddedTop(top, x).delegations, AddedBottom(top, bottom, x).delegations)
         == Add(Tiers(top.delegations, bottom.delegations), x)
  {
    var t := Tiers(top.delegations, bottom.delegations);
    AddHolds(t, x);
    AddedTotals(md, top, bottom, x);
    AddedSums(md, top, bottom, x);
  }

  lemma AddedSums(md: CandidateMetadata, top: Delegations, bottom: Delegations, x: Bond)
    requires TierOk(md, top, bottom)
    ensures SeqSum(AddedTop(top, x).delegations) <= SeqSum(top.delegations) + x.amount
  {
    InsertDescHolds(top.delegations, x);
    if top.delegations != [] {
      SeqSumLast(top.delegations);
      InsertDescHolds(Init(top.delegations), x);
    }
  }

  /** What the bottom total owes to the past is carried along, exactly up to the limit of the type. */
  ghost predicate DriftKept(s: Storage, s': Storage, c: Account)
    requires c in s.top && c in s.bottom && c in s'.bottom
  {
    Carries(s'.bottom[c], Drift(s.bottom[c]))
  }

  datatype DelegatorAdded = AddedToTop(newTotal: Balance) | AddedToBottom

  /**
   Add a delegation. The cached figures alone decide where it goes; that is where the lists would put it.
   Returns the amount of the delegation that was kicked, if one was.
   */
  method AddDelegation(p: Pallet, md: CandidateMetadata, candidate: Account, x: Bond)
    returns (out: CandidateMetadata, r: Result<(DelegatorAdded, Option<Balance>), Error>)
    requires Ready(p.View(), candidate, md) && KickReady(p.View(), candidate)
    requires x.owner !in Backers(Tiered(p.View(), candidate))
    requires md.bond + Sum(Backers(Tiered(p.View(), candidate))) + x.amount <= MAX_BALANCE
    modifies p
    ensures var t := Tiered(old(p.View()), candidate);
            r.Failure? <==> Refuses(t, x.amount)
    ensures r.Failure? ==> r.error == CannotDelegateLessThanOrEqualToLowestBottomWhenFull
    ensures r.Failure? ==> p.View() == old(p.View()) && out == md
    ensures r.Success? ==>
              var s, s' := old(p.View()), p.View();
              var t := Tiered(s, candidate);
              && candidate in s'.top && candidate in s'.bottom
              && TierOk(out, s'.top[candidate], s'.bottom[candidate])
              && Tiered(s', candidate) == Add(t, x)
              && s' == AfterKick(s, candidate).(top := s.top[candidate := s'.top[candidate]],
                                                bottom := s.bottom[candidate := s'.bottom[candidate]],
                                                pool := PoolAfter(s.pool, candidate, out))
              && out.bond == md.bond && out.status == md.status && out.request == md.request
              && r.value.1 == (if IsFull(t) then Some(Last(t.bottom).amount) else None)
              && (r.value.0.AddedToTop? <==> |t.top| < MAX_TOP || Lowest(t.top) < x.amount)
              && (r.value.0.AddedToTop? ==> r.value.0.newTotal == out.totalCounted)
              && DriftKept(s, s', candidate)
  {
    hide Without, AmountOf, InsertDesc, ToMap, InsertByOwner, SeqSum;
    ghost var s := p.View();
    ghost var top, bottom := s.top[candidate], s.bottom[candidate];
    BackersSum(Tiered(s, candidate));
    AddedTotals(md, top, bottom, x);
    var less: Option<Balance> := None;
    if md.topCapacity == Full {
      if md.lowestTop < x.amount {
        out, less := AddTopDelegation(p, md, candidate, x);
        AddedOk(md, top, bottom, x, out);
        r := Success((AddedToTop(out.totalCounted), less));
      } else {
        if md.bottomCapacity == Full {
          if !(x.amount > md.lowestBottom) {
            return md, Failure(CannotDelegateLessThanOrEqualToLowestBottomWhenFull);
          }
          less := Some(md.lowestBottom);
        }
        out := AddBottomDelegation(p, md, false, candidate, x);
        PoolAfterIdle(s.pool, candidate, md);
        AddedOk(md, top, bottom, x, out);
        r := Success((AddedToBottom, less));
      }
    } else {
      var unused;
      out, unused := AddTopDelegation(p, md, candidate, x);
      AddedOk(md, top, bottom, x, out);
      r := Success((AddedToTop(out.totalCounted), None));
    }
  }
}
