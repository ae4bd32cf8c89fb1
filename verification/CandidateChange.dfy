/** `CandidateMetadata`: increasing and decreasing a delegation, in the tier the cached figures point to. */
module CandidateChange {
  import opened Config
  import opened Wrappers
  import opened Sums
  import opened Bonds
  import opened DelegationList
  import opened Tiers
  import opened OrderedSets
  import opened Book
  import opened Storage
  import opened DelegatorRecord
  import opened CandidateRecord
  import opened CandidateState
  import opened CandidateRemoval

  /** The list with the bond of `o` at a new amount, and the given total. */
  function Changed(b: Delegations, o: Account, amount: Balance, total: Balance): Delegations {
    Delegations(SortDesc(Revalue(b.delegations, o, amount)), total)
  }

  lemma ChangedHolds(b: Delegations, o: Account, amount: Balance, total: Balance)
    requires Distinct(b.delegations) && o in ToMap(b.delegations)
    ensures SeqSum(Changed(b, o, amount, total).delegations) ==
            SeqSum(b.delegations) - AmountOf(b.delegations, o) + amount
    ensures AmountOf(b.delegations, o) <= SeqSum(b.delegations)
  {
    ToMapOwners(b.delegations);
    SeqSumRevalue(b.delegations, o, amount);
    SeqSumWithout(b.delegations, o);
    SortDescHolds(Revalue(b.delegations, o, amount));
  }

  // Increase

  lemma ShapeRanked(t: Tiers)
    requires Shape(t)
    ensures Ranked(t.top) && Ranked(t.bottom)
  {
  }

  /** The exact outcome of an increase in the top. */
  ghost predicate RaisedInTop(s: Storage, s': Storage, c: Account, md: CandidateMetadata, o: Account, more: Balance,
                              out: CandidateMetadata)
    requires c in s.top && c in s.bottom
  {
    var top := Changed(s.top[c], o, SatAdd(AmountOf(s.top[c].delegations, o), more), SatAdd(s.top[c].total, more));
    && out == WithTop(md, top)
    && s' == s.(top := s.top[c := top], pool := PoolAfter(s.pool, c, out))
  }

  lemma RaisedInTopOk(s: Storage, s': Storage, c: Account, md: CandidateMetadata, o: Account, more: Balance,
                      out: CandidateMetadata)
    requires Ready(s, c, md) && Fits(s, c, md, more) && o in ToMap(s.top[c].delegations)
    requires RaisedInTop(s, s', c, md, o, more, out)
    ensures Edited(s, s', c, md, out)
    ensures Tiered(s', c) == Raise(Tiered(s, c), o, more)
    ensures s'.bottom[c] == s.bottom[c] && o in ToMap(s'.top[c].delegations)
  {
    hide Without, AmountOf, InsertDesc, ToMap, SeqSum, SortDesc, Revalue, Shape, Backers, Put, Raise;
    var t, top := Tiered(s, c), s.top[c];
    BackersSum(t);
    ShapeRanked(t);
    TopBacker(t, o);
    RaiseHolds(t, o, more);
    RaiseCases(t, o, more);
    ChangedHolds(top, o, AmountOf(top.delegations, o) + more, top.total + more);
    RankedRevalue(top.delegations, o, AmountOf(top.delegations, o) + more);
    assert s.bottom[c := s.bottom[c]] == s.bottom;
  }

  /** The top's part of an increase: the delegation moves up among the counted ones. */
  method IncreaseTopDelegation(p: Pallet, md: CandidateMetadata, candidate: Account, delegator: Account, more: Balance)
    returns (out: CandidateMetadata, r: Result<bool, Error>)
    requires candidate in p.topDelegations && candidate in p.bottomDelegations
    requires Distinct(p.topDelegations[candidate].delegations)
    requires PoolHas(p.candidatePool, candidate, md)
    modifies p`topDelegations, p`candidatePool
    ensures r == if delegator in ToMap(old(p.topDelegations)[candidate].delegations)
                 then Success(true) else Failure(DelegationDNE)
    ensures r.Failure? ==> out == md && p.View() == old(p.View())
    ensures r.Success? ==> RaisedInTop(old(p.View()), p.View(), candidate, md, delegator, more, out)
  {
    hide Without, AmountOf, InsertDesc, ToMap, InsertByOwner, SeqSum, SortDesc, Revalue;
    out := md;
    var top := p.topDelegations[candidate];
    var bumped, inTop := BumpBond(top.delegations, delegator, more);
    if !inTop {
      return out, Failure(DelegationDNE);
    }
    top := top.(delegations := bumped);
    top := top.(total := SatAdd(top.total, more));
    top := SortGreatestToLeast(top);
    out := ResetTopData(p, out, candidate, top);
    p.topDelegations := p.topDelegations[candidate := top];
    r := Success(true);
  }

  /** The exact outcome of an increase in the bottom, which may lift the delegation into the top. */
  ghost predicate RaisedInBottom(s: Storage, s': Storage, c: Account, md: CandidateMetadata, o: Account, bond: Balance,
                                 more: Balance, out: CandidateMetadata)
    requires c in s.top && c in s.bottom && s.top[c].delegations != []
  {
    var amount := SatAdd(AmountOf(s.bottom[c].delegations, o), more);
    if SatAdd(bond, more) > md.lowestTop then
      var lifted := Delegations(Without(s.bottom[c].delegations, o), SatSub(s.bottom[c].total, bond));
      var top := if |s.top[c].delegations| >= MAX_TOP then Push(Pop(s.top[c]), Bond(o, amount))
                 else Push(s.top[c], Bond(o, amount));
      var bottom := if |s.top[c].delegations| >= MAX_TOP then Push(lifted, Last(s.top[c].delegations)) else lifted;
      && out == WithBottom(WithTop(md, top), bottom)
      && s' == s.(top := s.top[c := top], bottom := s.bottom[c := bottom], pool := PoolAfter(s.pool, c, out))
    else
      var bottom := Changed(s.bottom[c], o, amount, SatAdd(s.bottom[c].total, more));
      && out == WithBottom(md, bottom)
      && s' == s.(bottom := s.bottom[c := bottom])
  }

  lemma LiftedTotals(md: CandidateMetadata, top: Delegations, bottom: Delegations, o: Account, more: Balance)
    requires TierOk(md, top, bottom) && o in ToMap(bottom.delegations) && top.delegations != []
    requires SeqSum(top.delegations) + SeqSum(bottom.delegations) + more <= MAX_BALANCE
    ensures var amount := AmountOf(bottom.delegations, o) + more;
            var top', bottom' := Push(Pop(top), Bond(o, amount)), Push(Cut(bottom, o), Last(top.delegations));
            && amount <= MAX_BALANCE
            && top'.total == SeqSum(top'.delegations) <= SeqSum(top.delegations) + SeqSum(bottom.delegations) + more
            && Covers(bottom') && Carries(bottom', Drift(bottom))
  {
    hide Without, AmountOf, InsertDesc, ToMap, SeqSum;
    ChangedHolds(bottom, o, 0, 0);
    CutHolds(bottom, o);
    PopHolds(top);
    PushHolds(Pop(top), Bond(o, AmountOf(bottom.delegations, o) + more));
    PushHolds(Cut(bottom, o), Last(top.delegations));
  }

  lemma LiftedOk(md: CandidateMetadata, top: Delegations, bottom: Delegations, o: Account, more: Balance)
    requires TierOk(md, top, bottom) && o in ToMap(bottom.delegations)
    requires md.bond + SeqSum(top.delegations) + SeqSum(bottom.delegations) + more <= MAX_BALANCE
    requires AmountOf(bottom.delegations, o) + more > md.lowestTop
    ensures top.delegations != [] && |top.delegations| >= MAX_TOP
    ensures var amount := AmountOf(bottom.delegations, o) + more;
            var top', bottom' := Push(Pop(top), Bond(o, amount)), Push(Cut(bottom, o), Last(top.delegations));
            && TierOk(WithBottom(WithTop(md, top'), bottom'), top', bottom')
            && Tiers(top'.delegations, bottom'.delegations)
            == Raise(Tiers(top.delegations, bottom.delegations), o, more)
            && o in ToMap(top'.delegations)
  {
    hide Without, AmountOf, InsertDesc, ToMap, SeqSum, Shape, Raise, Drift;
    var t := Tiers(top.delegations, bottom.delegations);
    LiftedTiers(top, bottom, o, more);
    LiftedTotals(md, top, bottom, o, more);
  }

  lemma LiftedTiers(top: Delegations, bottom: Delegations, o: Account, more: Balance)
    requires var t := Tiers(top.delegations, bottom.delegations);
             Shape(t) && o in ToMap(t.bottom) && AmountOf(t.bottom, o) + more > Lowest(t.top)
    ensures top.delegations != [] && |top.delegations| >= MAX_TOP
    ensures var top', bottom' := Push(Pop(top), Bond(o, AmountOf(bottom.delegations, o) + more)),
                                 Push(Cut(bottom, o), Last(top.delegations));
            && Tiers(top'.delegations, bottom'.delegations)
            == Raise(Tiers(top.delegations, bottom.delegations), o, more)
            && Shape(Tiers(top'.delegations, bottom'.delegations))
            && |top'.delegations| == |top.delegations| && |bottom'.delegations| == |bottom.delegations|
            && o in ToMap(top'.delegations)
  {
    hide Without, AmountOf, InsertDesc, ToMap, SortDesc, Revalue, Shape, Backers, Raise;
    var t := Tiers(top.delegations, bottom.delegations);
    BottomBacker(t, o);
    RaiseHolds(t, o, more);
    RaiseCases(t, o, more);
    BottomStays(t, o);
    LiftedIsInTop(t, o, AmountOf(bottom.delegations, o) + more);
  }

  lemma LiftedIsInTop(t: Tiers, o: Account, amount: Balance)
    requires Shape(t) && t.top != [] && o in ToMap(t.bottom)
    ensures o in ToMap(InsertDesc(Init(t.top), Bond(o, amount)))
  {
    RankedInit(t.top);
    RankedInsert(Init(t.top), Bond(o, amount));
  }

  lemma GrownOk(md: CandidateMetadata, top: Delegations, bottom: Delegations, o: Account, more: Balance)
    requires TierOk(md, top, bottom) && o in ToMap(bottom.delegations)
    requires SeqSum(bottom.delegations) + more <= MAX_BALANCE
    requires AmountOf(bottom.delegations, o) + more <= md.lowestTop
    ensures var bottom' := Changed(bottom, o, AmountOf(bottom.delegations, o) + more, SatAdd(bottom.total, more));
            && TierOk(WithBottom(md, bottom'), top, bottom')
            && top.delegations != []
            && Tiers(top.delegations, bottom'.delegations)
            == Raise(Tiers(top.delegations, bottom.delegations), o, more)
            && Carries(bottom', Drift(bottom))
  {
    hide Without, AmountOf, InsertDesc, ToMap, SeqSum, SortDesc, Revalue, Shape, Backers, Put, Raise;
    var t := Tiers(top.delegations, bottom.delegations);
    BottomBacker(t, o);
    RaiseHolds(t, o, more);
    RaiseCases(t, o, more);
    BottomStays(t, o);
    ShapeRanked(t);
    ChangedHolds(bottom, o, AmountOf(bottom.delegations, o) + more, SatAdd(bottom.total, more));
  }

  lemma TierShape(md: CandidateMetadata, top: Delegations, bottom: Delegations)
    requires TierOk(md, top, bottom)
    ensures Shape(Tiers(top.delegations, bottom.delegations)) && Covers(bottom)
  {
  }

  lemma BottomStays(t: Tiers, o: Account)
    requires Shape(t) && o in ToMap(t.bottom)
    ensures o !in ToMap(t.top)
  {
  }

  lemma RaisedIntoTopOk(s: Storage, s': Storage, c: Account, md: CandidateMetadata, o: Account, bond: Balance,
                        more: Balance, out: CandidateMetadata)
    requires Ready(s, c, md) && Fits(s, c, md, more)
    requires o in ToMap(s.bottom[c].delegations) && bond == Backers(Tiered(s, c))[o]
    requires s.top[c].delegations != [] && RaisedInBottom(s, s', c, md, o, bond, more, out)
    requires bond + more > md.lowestTop
    ensures Edited(s, s', c, md, out)
    ensures Tiered(s', c) == Raise(Tiered(s, c), o, more)
    ensures DriftKept(s, s', c)
    ensures o in ToMap(s'.top[c].delegations)
  {
    hide Without, AmountOf, InsertDesc, ToMap, SeqSum, SortDesc, Revalue, Shape, Backers, Put, Raise, TierOk, Covers;
    var t := Tiered(s, c);
    TierShape(md, s.top[c], s.bottom[c]);
    BackersSum(t);
    BottomBacker(t, o);
    SumEntry(Backers(t), o);
    LiftedTotals(md, s.top[c], s.bottom[c], o, more);
    LiftedOk(md, s.top[c], s.bottom[c], o, more);
  }

  lemma RaisedBelowOk(s: Storage, s': Storage, c: Account, md: CandidateMetadata, o: Account, bond: Balance,
                      more: Balance, out: CandidateMetadata)
    requires Ready(s, c, md) && Fits(s, c, md, more)
    requires o in ToMap(s.bottom[c].delegations) && bond == Backers(Tiered(s, c))[o]
    requires s.top[c].delegations != [] && RaisedInBottom(s, s', c, md, o, bond, more, out)
    requires bond + more <= md.lowestTop
    ensures Edited(s, s', c, md, out)
    ensures Tiered(s', c) == Raise(Tiered(s, c), o, more)
    ensures DriftKept(s, s', c)
    ensures o !in ToMap(s'.top[c].delegations)
  {
    hide Without, AmountOf, InsertDesc, ToMap, SeqSum, SortDesc, Revalue, Shape, Backers, Put, Raise, TierOk, Covers;
    var t := Tiered(s, c);
    TierShape(md, s.top[c], s.bottom[c]);
    BackersSum(t);
    BottomBacker(t, o);
    SumEntry(Backers(t), o);
    BottomStays(t, o);
    GrownOk(md, s.top[c], s.bottom[c], o, more);
    PoolAfterIdle(s.pool, c, md);
    assert s.top[c := s.top[c]] == s.top;
  }

  lemma RaisedInBottomOk(s: Storage, s': Storage, c: Account, md: CandidateMetadata, o: Account, bond: Balance,
                         more: Balance, out: CandidateMetadata)
    requires Ready(s, c, md) && Fits(s, c, md, more)
    requires o in ToMap(s.bottom[c].delegations) && bond == Backers(Tiered(s, c))[o]
    requires s.top[c].delegations != [] && RaisedInBottom(s, s', c, md, o, bond, more, out)
    ensures Edited(s, s', c, md, out)
    ensures Tiered(s', c) == Raise(Tiered(s, c), o, more)
    ensures DriftKept(s, s', c)
    ensures (bond + more > md.lowestTop) <==> o in ToMap(s'.top[c].delegations)
  {
    hide ToMap, Backers, Raise, Ready, Fits, RaisedInBottom, Edited, DriftKept;
    if bond + more > md.lowestTop {
      RaisedIntoTopOk(s, s', c, md, o, bond, more, out);
    } else {
      RaisedBelowOk(s, s', c, md, o, bond, more, out);
    }
  }

  /** The bottom's part of an increase: the delegation moves up, and out of the bottom if it outgrows the top's last. */
  method IncreaseBottomDelegation(p: Pallet, md: CandidateMetadata, candidate: Account, delegator: Account,
                                  bond: Balance, more: Balance)
    returns (out: CandidateMetadata, r: Result<bool, Error>)
    requires candidate in p.topDelegations && candidate in p.bottomDelegations
    requires Ranked(p.topDelegations[candidate].delegations) && p.topDelegations[candidate].delegations != []
    requires Ranked(p.bottomDelegations[candidate].delegations)
    requires PoolHas(p.candidatePool, candidate, md)
    modifies p`topDelegations, p`bottomDelegations, p`candidatePool
    ensures r == if delegator in ToMap(old(p.bottomDelegations)[candidate].delegations)
                 then Success(SatAdd(bond, more) > md.lowestTop) else Failure(DelegationDNE)
    ensures r.Failure? ==> out == md && p.View() == old(p.View())
    ensures r.Success? ==> RaisedInBottom(old(p.View()), p.View(), candidate, md, delegator, bond, more, out)
  {
    hide Without, AmountOf, InsertDesc, ToMap, InsertByOwner, SeqSum, SortDesc, Revalue, Put;
    out := md;
    var bottom := p.bottomDelegations[candidate];
    var inTopAfter := SatAdd(bond, more) > md.lowestTop;
    if inTopAfter {
      WithoutKeepsDesc(bottom.delegations, delegator);
      var rest, amount := TakeBond(bottom.delegations, delegator);
      if amount.None? {
        return out, Failure(DelegationDNE);
      }
      bottom := bottom.(delegations := rest);
      bottom := bottom.(total := SatSub(bottom.total, bond));
      var top := p.topDelegations[candidate];
      if TopCapacity(top.delegations) == Full {
        RankedInit(top.delegations);
        var newBottom := top.delegations[|top.delegations| - 1];
        top := top.(delegations := top.delegations[..|top.delegations| - 1]);
        top := top.(total := SatSub(top.total, newBottom.amount));
        bottom := InsertSortedGreatestToLeast(bottom, newBottom);
      }
      top := InsertSortedGreatestToLeast(top, Bond(delegator, SatAdd(amount.value, more)));
      out := ResetTopData(p, out, candidate, top);
      p.topDelegations := p.topDelegations[candidate := top];
    } else {
      var bumped, inBottom := BumpBond(bottom.delegations, delegator, more);
      if !inBottom {
        return out, Failure(DelegationDNE);
      }
      bottom := bottom.(delegations := bumped);
      bottom := bottom.(total := SatAdd(bottom.total, more));
      bottom := SortGreatestToLeast(bottom);
    }
    out := ResetBottomData(out, bottom);
    p.bottomDelegations := p.bottomDelegations[candidate := bottom];
    r := Success(inTopAfter);
  }

  /**
   Increase a delegation recorded at `bond`; returns whether it is in the top afterwards. Although the tier is
   guessed from the cached figures, an existing delegation is always found, and an absent one always reported.
   */
  method IncreaseDelegation(p: Pallet, md: CandidateMetadata, candidate: Account, delegator: Account,
                            bond: Balance, more: Balance)
    returns (out: CandidateMetadata, r: Result<bool, Error>)
    requires Ready(p.View(), candidate, md) && Fits(p.View(), candidate, md, more)
    requires delegator in Backers(Tiered(p.View(), candidate))
    requires bond == Backers(Tiered(p.View(), candidate))[delegator]
    modifies p`topDelegations, p`bottomDelegations, p`candidatePool
    ensures r.Success?
    ensures Edited(old(p.View()), p.View(), candidate, md, out)
    ensures Tiered(p.View(), candidate) == Raise(Tiered(old(p.View()), candidate), delegator, more)
    ensures DriftKept(old(p.View()), p.View(), candidate)
    ensures r.value <==> delegator in ToMap(p.topDelegations[candidate].delegations)
  {
    hide Without, AmountOf, InsertDesc, ToMap, InsertByOwner, SeqSum, SortDesc, Revalue, Put;
    ghost var s := p.View();
    TierOf(Tiered(s, candidate), delegator);
    SumEntry(Backers(Tiered(s, candidate)), delegator);
    var lowestTopEqHighestBottom := md.lowestTop == md.highestBottom;
    var bondGeqLowestTop := bond >= md.lowestTop;
    if bondGeqLowestTop && !lowestTopEqHighestBottom {
      out, r := IncreaseTopDelegation(p, md, candidate, delegator, more);
    } else if bondGeqLowestTop && lowestTopEqHighestBottom {
      out, r := IncreaseTopDelegation(p, md, candidate, delegator, more);
      if r == Failure(DelegationDNE) {
        out, r := IncreaseBottomDelegation(p, md, candidate, delegator, bond, more);
      }
    } else {
      out, r := IncreaseBottomDelegation(p, md, candidate, delegator, bond, more);
    }
    if delegator in ToMap(s.top[candidate].delegations) {
      RaisedInTopOk(s, p.View(), candidate, md, delegator, more, out);
    } else {
      RaisedInBottomOk(s, p.View(), candidate, md, delegator, bond, more, out);
    }
  }

  // Decrease

  /** The exact outcome of a decrease in the top, which may drop the delegation into the bottom. */
  ghost predicate LoweredInTop(s: Storage, s': Storage, c: Account, md: CandidateMetadata, o: Account, bond: Balance,
                               less: Balance, out: CandidateMetadata)
    requires c in s.top && c in s.bottom
  {
    var amount := SatSub(AmountOf(s.top[c].delegations, o), less);
    if SatSub(bond, less) < md.highestBottom && md.topCapacity == Full && s.bottom[c].delegations != [] then
      var top := Push(Cut(s.top[c], o), s.bottom[c].delegations[0]);
      var bottom := Push(Shift(s.bottom[c]), Bond(o, amount));
      && out == WithTop(WithBottom(md, bottom), top)
      && s' == s.(top := s.top[c := top], bottom := s.bottom[c := bottom], pool := PoolAfter(s.pool, c, out))
    else
      var top := Changed(s.top[c], o, amount, SatSub(s.top[c].total, less));
      && out == WithTop(md, top)
      && s' == s.(top := s.top[c := top], pool := PoolAfter(s.pool, c, out))
  }

  /** The top's part of a decrease: the delegation moves down, and out of the top if the bottom has a larger one. */
  method DecreaseTopDelegation(p: Pallet, md: CandidateMetadata, candidate: Account, delegator: Account,
                               bond: Balance, less: Balance)
    returns (out: CandidateMetadata, r: Result<bool, Error>)
    requires candidate in p.topDelegations && candidate in p.bottomDelegations
    requires Ranked(p.topDelegations[candidate].delegations)
    requires Ranked(p.bottomDelegations[candidate].delegations)
    requires CachedBottom(md, p.bottomDelegations[candidate])
    requires PoolHas(p.candidatePool, candidate, md)
    modifies p`topDelegations, p`bottomDelegations, p`candidatePool
    ensures r == if delegator in ToMap(old(p.topDelegations)[candidate].delegations)
                 then Success(!(SatSub(bond, less) < md.highestBottom && md.topCapacity == Full
                                && md.bottomCapacity != Empty))
                 else Failure(DelegationDNE)
    ensures r.Failure? ==> out == md && p.View() == old(p.View())
    ensures r.Success? ==> LoweredInTop(old(p.View()), p.View(), candidate, md, delegator, bond, less, out)
  {
    hide Without, AmountOf, InsertDesc, ToMap, InsertByOwner, SeqSum, SortDesc, Revalue, Put;
    out := md;
    var bondAfterLessThanHighestBottom := SatSub(bond, less) < md.highestBottom;
    var fullTopAndNonemptyBottom := md.topCapacity == Full && md.bottomCapacity != Empty;
    var top := p.topDelegations[candidate];
    var inTopAfter;
    if bondAfterLessThanHighestBottom && fullTopAndNonemptyBottom {
      WithoutKeepsDesc(top.delegations, delegator);
      var rest, amount := TakeBond(top.delegations, delegator);
      if amount.None? {
        return out, Failure(DelegationDNE);
      }
      top := Delegations(rest, SatSub(top.total, amount.value));
      var delegation := Bond(delegator, SatSub(amount.value, less));
      var bottom := p.bottomDelegations[candidate];
      var highest := bottom.delegations[0];
      bottom := bottom.(delegations := bottom.delegations[1..]);
      bottom := bottom.(total := SatSub(bottom.total, highest.amount));
      top := InsertSortedGreatestToLeast(top, highest);
      bottom := InsertSortedGreatestToLeast(bottom, delegation);
      out := ResetBottomData(out, bottom);
      p.bottomDelegations := p.bottomDelegations[candidate := bottom];
      inTopAfter := false;
    } else {
      var cut, isInTop := CutBond(top.delegations, delegator, less);
      if !isInTop {
        return out, Failure(DelegationDNE);
      }
      top := top.(delegations := cut);
      top := top.(total := SatSub(top.total, less));
      top := SortGreatestToLeast(top);
      inTopAfter := true;
    }
    out := ResetTopData(p, out, candidate, top);
    p.topDelegations := p.topDelegations[candidate := top];
    r := Success(inTopAfter);
  }

  lemma SunkTotals(md: CandidateMetadata, top: Delegations, bottom: Delegations, o: Account, less: Balance)
    requires TierOk(md, top, bottom) && o in ToMap(top.delegations) && bottom.delegations != []
    requires SeqSum(top.delegations) + SeqSum(bottom.delegations) <= MAX_BALANCE
    requires less <= AmountOf(top.delegations, o)
    requires bottom.delegations[0].amount <= AmountOf(top.delegations, o)
    ensures var amount := AmountOf(top.delegations, o) - less;
            var top', bottom' := Push(Cut(top, o), bottom.delegations[0]), Push(Shift(bottom), Bond(o, amount));
            && top'.total == SeqSum(top'.delegations) <= SeqSum(top.delegations)
            && Covers(bottom') && Carries(bottom', Drift(bottom))
  {
    hide Without, AmountOf, InsertDesc, ToMap;
    ChangedHolds(top, o, 0, 0);
    CutHolds(top, o);
    ShiftHolds(bottom);
    PushHolds(Cut(top, o), bottom.delegations[0]);
    PushHolds(Shift(bottom), Bond(o, AmountOf(top.delegations, o) - less));
  }

  lemma SunkOk(md: CandidateMetadata, top: Delegations, bottom: Delegations, o: Account, less: Balance)
    requires TierOk(md, top, bottom) && o in ToMap(top.delegations)
    requires md.bond + SeqSum(top.delegations) + SeqSum(bottom.delegations) <= MAX_BALANCE
    requires less <= AmountOf(top.delegations, o)
    requires AmountOf(top.delegations, o) - less < md.highestBottom
    ensures bottom.delegations != [] && md.topCapacity == Full
    ensures bottom.delegations[0].amount <= AmountOf(top.delegations, o)
    ensures var amount := AmountOf(top.delegations, o) - less;
            var top', bottom' := Push(Cut(top, o), bottom.delegations[0]), Push(Shift(bottom), Bond(o, amount));
            && TierOk(WithTop(WithBottom(md, bottom'), top'), top', bottom')
            && Tiers(top'.delegations, bottom'.delegations)
            == Lower(Tiers(top.delegations, bottom.delegations), o, less)
            && o !in ToMap(top'.delegations)
  {
    hide Without, AmountOf, InsertDesc, ToMap, SeqSum, SortDesc, Revalue, Shape, Backers, Put, Lower;
    var t := Tiers(top.delegations, bottom.delegations);
    TopBacker(t, o);
    BottomMeansFull(t);
    LowerHolds(t, o, less);
    LowerCases(t, o, less);
    SunkTotals(md, top, bottom, o, less);
    SunkIsNotInTop(t, o);
  }

  lemma BottomMeansFull(t: Tiers)
    requires Shape(t)
    ensures t.bottom != [] ==> TopCapacity(t.top) == Full
  {
  }

  lemma SunkIsNotInTop(t: Tiers, o: Account)
    requires Shape(t) && t.bottom != [] && o in ToMap(t.top)
    ensures o !in ToMap(InsertDesc(Without(t.top, o), t.bottom[0]))
  {
    RankedWithout(t.top, o);
    RankedTail(t.bottom);
    RankedInsert(Without(t.top, o), t.bottom[0]);
  }

  lemma ShrunkInTopOk(md: CandidateMetadata, top: Delegations, bottom: Delegations, o: Account, less: Balance)
    requires TierOk(md, top, bottom) && o in ToMap(top.delegations)
    requires md.bond + SeqSum(top.delegations) <= MAX_BALANCE
    requires less <= AmountOf(top.delegations, o)
    requires AmountOf(top.delegations, o) - less >= md.highestBottom
    ensures var top' := Changed(top, o, AmountOf(top.delegations, o) - less, SatSub(top.total, less));
            && TierOk(WithTop(md, top'), top', bottom)
            && Tiers(top'.delegations, bottom.delegations)
            == Lower(Tiers(top.delegations, bottom.delegations), o, less)
            && o in ToMap(top'.delegations)
  {
    hide Without, AmountOf, InsertDesc, ToMap, SeqSum, SortDesc, Revalue, Shape, Backers, Put, Lower;
    var t, amount := Tiers(top.delegations, bottom.delegations), AmountOf(top.delegations, o) - less;
    TopBacker(t, o);
    LowerHolds(t, o, less);
    LowerCases(t, o, less);
    ShapeRanked(t);
    ChangedHolds(top, o, amount, SatSub(top.total, less));
    RankedRevalue(top.delegations, o, amount);
  }

  lemma SunkIntoBottomOk(s: Storage, s': Storage, c: Account, md: CandidateMetadata, o: Account, bond: Balance,
                         less: Balance, out: CandidateMetadata)
    requires Ready(s, c, md) && Fits(s, c, md, 0)
    requires o in ToMap(s.top[c].delegations) && less <= bond == Backers(Tiered(s, c))[o]
    requires LoweredInTop(s, s', c, md, o, bond, less, out)
    requires bond - less < md.highestBottom
    ensures Edited(s, s', c, md, out)
    ensures Tiered(s', c) == Lower(Tiered(s, c), o, less)
    ensures DriftKept(s, s', c)
    ensures o !in ToMap(s'.top[c].delegations)
  {
    hide Without, AmountOf, InsertDesc, ToMap, SeqSum, SortDesc, Revalue, Shape, Backers, Put, Lower, TierOk, Covers;
    var t := Tiered(s, c);
    TierShape(md, s.top[c], s.bottom[c]);
    BackersSum(t);
    TopBacker(t, o);
    SunkOk(md, s.top[c], s.bottom[c], o, less);
    SunkTotals(md, s.top[c], s.bottom[c], o, less);
  }

  lemma ShrunkOk(s: Storage, s': Storage, c: Account, md: CandidateMetadata, o: Account, bond: Balance,
                 less: Balance, out: CandidateMetadata)
    requires Ready(s, c, md) && Fits(s, c, md, 0)
    requires o in ToMap(s.top[c].delegations) && less <= bond == Backers(Tiered(s, c))[o]
    requires LoweredInTop(s, s', c, md, o, bond, less, out)
    requires bond - less >= md.highestBottom
    ensures Edited(s, s', c, md, out)
    ensures Tiered(s', c) == Lower(Tiered(s, c), o, less)
    ensures DriftKept(s, s', c)
    ensures o in ToMap(s'.top[c].delegations)
  {
    hide Without, AmountOf, InsertDesc, ToMap, SortDesc, Revalue, Shape, Backers, Put, Lower, TierOk, Covers;
    var t := Tiered(s, c);
    TierShape(md, s.top[c], s.bottom[c]);
    BackersSum(t);
    TopBacker(t, o);
    ShrunkInTopOk(md, s.top[c], s.bottom[c], o, less);
    TotalWithin(md, s.top[c], s.bottom[c]);
    assert s.bottom[c := s.bottom[c]] == s.bottom;
  }

  lemma TotalWithin(md: CandidateMetadata, top: Delegations, bottom: Delegations)
    requires TierOk(md, top, bottom)
    ensures bottom.total <= MAX_BALANCE
  {
  }

  lemma LoweredInTopOk(s: Storage, s': Storage, c: Account, md: CandidateMetadata, o: Account, bond: Balance,
                       less: Balance, out: CandidateMetadata)
    requires Ready(s, c, md) && Fits(s, c, md, 0)
    requires o in ToMap(s.top[c].delegations) && less <= bond == Backers(Tiered(s, c))[o]
    requires LoweredInTop(s, s', c, md, o, bond, less, out)
    ensures Edited(s, s', c, md, out)
    ensures Tiered(s', c) == Lower(Tiered(s, c), o, less)
    ensures DriftKept(s, s', c)
    ensures (bond - less >= md.highestBottom) <==> o in ToMap(s'.top[c].delegations)
  {
    hide ToMap, Backers, Lower, Ready, Fits, LoweredInTop, Edited, DriftKept;
    if bond - less < md.highestBottom {
      SunkIntoBottomOk(s, s', c, md, o, bond, less, out);
    } else {
      ShrunkOk(s, s', c, md, o, bond, less, out);
    }
  }

  /** The bottom's part of a decrease. The total of the bottom list is left as it was. */
  method DecreaseBottomDelegation(p: Pallet, md: CandidateMetadata, candidate: Account, delegator: Account, less: Balance)
    returns (out: CandidateMetadata, r: Result<bool, Error>)
    requires candidate in p.bottomDelegations && Distinct(p.bottomDelegations[candidate].delegations)
    modifies p`bottomDelegations
    ensures r == if delegator in ToMap(old(p.bottomDelegations)[candidate].delegations)
                 then Success(false) else Failure(DelegationDNE)
    ensures r.Failure? ==> out == md && p.bottomDelegations == old(p.bottomDelegations)
    ensures r.Success? ==>
              var bottom := old(p.bottomDelegations)[candidate];
              var amount := SatSub(AmountOf(bottom.delegations, delegator), less);
              var bottom' := Changed(bottom, delegator, amount, bottom.total);
              && out == WithBottom(md, bottom')
              && p.bottomDelegations == old(p.bottomDelegations)[candidate := bottom']
  {
    hide Without, AmountOf, InsertDesc, ToMap, SeqSum, SortDesc, Revalue;
    out := md;
    var bottom := p.bottomDelegations[candidate];
    var cut, inBottom := CutBond(bottom.delegations, delegator, less);
    if !inBottom {
      return out, Failure(DelegationDNE);
    }
    bottom := bottom.(delegations := cut);
    bottom := SortGreatestToLeast(bottom);
    out := ResetBottomData(out, bottom);
    p.bottomDelegations := p.bottomDelegations[candidate := bottom];
    r := Success(false);
  }

  lemma ShrunkInBottomOk(md: CandidateMetadata, top: Delegations, bottom: Delegations, o: Account, less: Balance)
    requires TierOk(md, top, bottom) && o in ToMap(bottom.delegations)
    requires less <= AmountOf(bottom.delegations, o)
    ensures var bottom' := Changed(bottom, o, AmountOf(bottom.delegations, o) - less, bottom.total);
            && TierOk(WithBottom(md, bottom'), top, bottom')
            && Tiers(top.delegations, bottom'.delegations)
            == Lower(Tiers(top.delegations, bottom.delegations), o, less)
            && Drift(bottom') == Drift(bottom) + less
            && o !in ToMap(top.delegations)
  {
    hide Without, AmountOf, InsertDesc, ToMap, SeqSum, SortDesc, Revalue, Shape, Backers, Put, Lower;
    var t, amount := Tiers(top.delegations, bottom.delegations), AmountOf(bottom.delegations, o) - less;
    BottomBacker(t, o);
    BottomStays(t, o);
    LowerHolds(t, o, less);
    LowerCases(t, o, less);
    ShapeRanked(t);
    ChangedHolds(bottom, o, amount, bottom.total);
  }

  lemma LoweredInBottomOk(s: Storage, s': Storage, c: Account, md: CandidateMetadata, o: Account,
                          less: Balance, out: CandidateMetadata)
    requires Ready(s, c, md)
    requires o in ToMap(s.bottom[c].delegations) && less <= Backers(Tiered(s, c))[o]
    requires var bottom' := Changed(s.bottom[c], o, SatSub(AmountOf(s.bottom[c].delegations, o), less), s.bottom[c].total);
             out == WithBottom(md, bottom') && s' == s.(bottom := s.bottom[c := bottom'])
    ensures Edited(s, s', c, md, out)
    ensures Tiered(s', c) == Lower(Tiered(s, c), o, less)
    ensures Drift(s'.bottom[c]) == Drift(s.bottom[c]) + less
    ensures o !in ToMap(s'.top[c].delegations)
  {
    hide Without, AmountOf, InsertDesc, ToMap, SeqSum, SortDesc, Revalue, Shape, Backers, Put, Lower, TierOk, Covers;
    TierShape(md, s.top[c], s.bottom[c]);
    BottomBacker(Tiered(s, c), o);
    ShrunkInBottomOk(md, s.top[c], s.bottom[c], o, less);
    PoolAfterIdle(s.pool, c, md);
    assert s.top[c := s.top[c]] == s.top;
  }

  /**
   Decrease a delegation recorded at `bond`; returns whether it is in the top afterwards. The delegation is always
   found. A delegation that was in the bottom leaves the amount behind in the total of the bottom.
   */
  method DecreaseDelegation(p: Pallet, md: CandidateMetadata, candidate: Account, delegator: Account,
                            bond: Balance, less: Balance)
    returns (out: CandidateMetadata, r: Result<bool, Error>)
    requires Ready(p.View(), candidate, md) && Fits(p.View(), candidate, md, 0)
    requires delegator in Backers(Tiered(p.View(), candidate))
    requires less <= bond == Backers(Tiered(p.View(), candidate))[delegator]
    modifies p`topDelegations, p`bottomDelegations, p`candidatePool
    ensures r.Success?
    ensures Edited(old(p.View()), p.View(), candidate, md, out)
    ensures Tiered(p.View(), candidate) == Lower(Tiered(old(p.View()), candidate), delegator, less)
    ensures delegator in ToMap(old(p.topDelegations)[candidate].delegations) ==>
              DriftKept(old(p.View()), p.View(), candidate)
    ensures delegator !in ToMap(old(p.topDelegations)[candidate].delegations) ==>
              Drift(p.bottomDelegations[candidate]) == Drift(old(p.bottomDelegations)[candidate]) + less
    ensures r.value <==> delegator in ToMap(p.topDelegations[candidate].delegations)
  {
    hide Without, AmountOf, InsertDesc, ToMap, InsertByOwner, SeqSum, SortDesc, Revalue, Put;
    ghost var s := p.View();
    TierOf(Tiered(s, candidate), delegator);
    var lowestTopEqHighestBottom := md.lowestTop == md.highestBottom;
    var bondGeqLowestTop := bond >= md.lowestTop;
    if bondGeqLowestTop && !lowestTopEqHighestBottom {
      out, r := DecreaseTopDelegation(p, md, candidate, delegator, bond, less);
    } else if bondGeqLowestTop && lowestTopEqHighestBottom {
      out, r := DecreaseTopDelegation(p, md, candidate, delegator, bond, less);
      if r == Failure(DelegationDNE) {
        out, r := DecreaseBottomDelegation(p, md, candidate, delegator, less);
      }
    } else {
      out, r := DecreaseBottomDelegation(p, md, candidate, delegator, less);
    }
    if delegator in ToMap(s.top[candidate].delegations) {
      LoweredInTopOk(s, p.View(), candidate, md, delegator, bond, less, out);
    } else {
      LoweredInBottomOk(s, p.View(), candidate, md, delegator, less, out);
    }
  }
}
