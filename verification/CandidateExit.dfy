/** `execute_leave_candidates`: a candidate leaves and all its delegations are given back. */
module CandidateExit {
  import opened Config
  import opened Wrappers
  import opened Sums
  import opened Bonds
  import opened DelegationList
  import opened Tiers
  import opened OrderedSets
  import opened Book
  import opened Bookkeeping
  import opened Storage
  import opened DelegatorRecord
  import opened CandidateRecord
  import opened CandidateState
  import opened Accounting
  import opened Candidates
  import opened Ledger

  ghost predicate CanRelease(s: Storage, c: Account, d: Account) {
    d in s.delegators && AmountOf(s.delegators[d].delegations, c) <= Get(s.btc, PALLET)
  }

  /** Storage after the bonds of the list were given back, one after the other. */
  ghost function ReturnAll(s: Storage, c: Account, l: seq<Bond>): Storage {
    if l == [] then s else
      var m := ReturnAll(s, c, Init(l));
      if CanRelease(m, c, Last(l).owner) then Released(m, c, Last(l).owner) else m
  }

  /** The delegation book in the middle of an exit: the bonds of `l` are gone from the candidate's side, too. */
  ghost function BookWithout(s: Storage, m: Storage, c: Account, l: seq<Bond>): Book
    requires Keyed(s) && c in s.info
  {
    Book(BookOf(s).backing[c := Backers(TiersOf(s, c)) - ToMap(l).Keys], m.delegators, m.requests)
  }

  /** A list of bonds the candidate still holds. */
  ghost predicate Held(s: Storage, c: Account, l: seq<Bond>)
    requires Keyed(s) && c in s.info
  {
    && Distinct(l)
    && forall b | b in l :: b.owner in Backers(TiersOf(s, c)) && Backers(TiersOf(s, c))[b.owner] == b.amount
  }

  /** What giving back a list of bonds does: the rest of the book stays in order, and exactly the bonds are paid. */
  ghost predicate Returned(s: Storage, m: Storage, c: Account, l: seq<Bond>)
    requires Keyed(s) && c in s.info
  {
    && m == s.(delegators := m.delegators, requests := m.requests, btc := m.btc)
    && BookOk(BookWithout(s, m, c, l))
    && Get(m.btc, PALLET) + SeqSum(l) == Get(s.btc, PALLET)
    && Sum(m.btc) == Sum(s.btc)
  }

  lemma ReturnNone(s: Storage, c: Account, none: seq<Bond>)
    requires Inv(s) && c in s.info && none == []
    ensures Returned(s, s, c, none)
  {
    NothingTaken(s, c, none);
    hide BookOk, Backers, ToMap, TierOk, PoolOk;
  }

  lemma NothingTaken(s: Storage, c: Account, none: seq<Bond>)
    requires Keyed(s) && c in s.info && none == []
    ensures BookWithout(s, s, c, none) == BookOf(s)
  {
    hide Backers;
    assert ToMap(none) == map[];
    var m := Backers(TiersOf(s, c));
    assert m - ToMap(none).Keys == m;
    assert BookOf(s).backing[c := m] == BookOf(s).backing;
  }

  lemma ReturnOne(s: Storage, m: Storage, c: Account, l: seq<Bond>)
    requires Inv(s) && c in s.info && l != [] && Held(s, c, l) && Returned(s, m, c, Init(l))
    ensures CanRelease(m, c, Last(l).owner)
    ensures m.delegators[Last(l).owner].id == Last(l).owner
    ensures SortedByOwner(m.delegators[Last(l).owner].delegations)
    ensures c in ToMap(m.delegators[Last(l).owner].delegations)
    ensures AmountOf(m.delegators[Last(l).owner].delegations, c) == Last(l).amount > 0
    ensures Returned(s, Released(m, c, Last(l).owner), c, l)
  {
    hide Backers, TierOk, Moved, Parted, Store, Forget, Sum, SeqSum, ToMap, AmountOf, BookOk, BookWithout, Held, PoolOk,
      SortedByOwner;
    var b, bk := Last(l), BookWithout(s, m, c, Init(l));
    LastIsHeld(s, c, l);
    StillBacked(s, m, c, l);
    BondInBook(bk, c, b.owner);
    SumOfHeld(s, c, l);
    SeqSumLast(l);
    ReleaseKeeps(bk, c, b.owner);
    MovedHolds(m.btc, PALLET, b.owner, b.amount);
    ReleasedWithout(s, m, c, l);
  }

  lemma StillBacked(s: Storage, m: Storage, c: Account, l: seq<Bond>)
    requires Keyed(s) && c in s.info && l != [] && Held(s, c, l)
    ensures var bk := BookWithout(s, m, c, Init(l));
            && bk.delegators == m.delegators && c in bk.backing
            && Last(l).owner in bk.backing[c] && bk.backing[c][Last(l).owner] == Last(l).amount
  {
    hide Backers, ToMap;
    LastIsHeld(s, c, l);
  }

  lemma ReleasedWithout(s: Storage, m: Storage, c: Account, l: seq<Bond>)
    requires Keyed(s) && c in s.info && l != [] && Held(s, c, l) && CanRelease(m, c, Last(l).owner)
    requires c in BookWithout(s, m, c, Init(l)).backing
    requires Last(l).owner in BookWithout(s, m, c, Init(l)).delegators
    ensures Release(BookWithout(s, m, c, Init(l)), c, Last(l).owner)
         == BookWithout(s, Released(m, c, Last(l).owner), c, l)
  {
    hide Backers, ToMap, Parted, Store, Forget, Moved, AmountOf, Held;
    LastIsHeld(s, c, l);
    var all := Backers(TiersOf(s, c));
    assert all - ToMap(Init(l)).Keys - {Last(l).owner} == all - ToMap(l).Keys;
  }

  lemma BondInBook(bk: Book, c: Account, d: Account)
    requires BookOk(bk) && c in bk.backing && d in bk.backing[c]
    ensures d in bk.delegators && d != PALLET && bk.delegators[d].id == d
    ensures SortedByOwner(bk.delegators[d].delegations) && c in ToMap(bk.delegators[d].delegations)
    ensures AmountOf(bk.delegators[d].delegations, c) == bk.backing[c][d] >= MIN_DELEGATION
  {
    BondIn(bk, c, d);
  }

  lemma LastIsHeld(s: Storage, c: Account, l: seq<Bond>)
    requires Keyed(s) && c in s.info && l != [] && Held(s, c, l)
    ensures Held(s, c, Init(l))
    ensures Last(l).owner in Backers(TiersOf(s, c)) && Backers(TiersOf(s, c))[Last(l).owner] == Last(l).amount
    ensures Last(l).owner !in ToMap(Init(l))
    ensures ToMap(l).Keys == ToMap(Init(l)).Keys + {Last(l).owner}
  {
    hide Backers;
    assert l == Init(l) + [Last(l)];
    ToMapRemove(l, Init(l), Last(l));
  }

  /** The held bonds are part of the live stake, so the pallet can pay them all. */
  lemma SumOfHeld(s: Storage, c: Account, l: seq<Bond>)
    requires Inv(s) && c in s.info && Held(s, c, l)
    ensures SeqSum(l) <= Get(s.btc, PALLET)
  {
    hide Backers, TierOk, BookOk, SeqSum;
    ToMapHolds(l);
    SumToMap(l);
    forall o | o in ToMap(l)
      ensures ToMap(l)[o] <= Get(Backers(TiersOf(s, c)), o)
    {
      assert Bond(o, ToMap(l)[o]) in l;
    }
    SumMonotone(ToMap(l), Backers(TiersOf(s, c)));
    InvReady(s, c);
  }

  /** Nothing remains bonded exactly when no bond remains. */
  ghost predicate ZeroMeansGone(rec: Delegator, c: Account) {
    SatSub(rec.total, AmountOf(rec.delegations, c)) == 0 <==> Without(rec.delegations, c) == []
  }

  lemma ZeroIsGone(bk: Book, c: Account, d: Account)
    requires BookOk(bk) && c in bk.backing && d in bk.backing[c]
    ensures d in bk.delegators && ZeroMeansGone(bk.delegators[d], c)
  {
    hide Without, AmountOf, PendingIn, DropRequest;
    ReleaseRecord(bk, c, d);
    var rec := Parted(bk.delegators[d], c, PendingIn(RequestsOf(bk.requests, c), d));
    if rec.delegations == [] {
      SumZero(ToMap(rec.delegations));
    } else {
      FirstBondCounts(rec);
    }
  }

  lemma FirstBondCounts(rec: Delegator)
    requires DelegatorOk(rec.id, rec)
    ensures rec.total > 0
  {
    var o := rec.delegations[0].owner;
    assert o in ToMap(rec.delegations);
    SumEntry(ToMap(rec.delegations), o);
  }

  lemma {:induction false} ReturnAllHolds(s: Storage, c: Account, l: seq<Bond>)
    requires Inv(s) && c in s.info && Held(s, c, l)
    ensures Returned(s, ReturnAll(s, c, l), c, l)
  {
    hide Returned, Held, Inv, Released;
    if l == [] {
      ReturnNone(s, c, l);
    } else {
      InvKeyed(s);
      LastIsHeld(s, c, l);
      ReturnAllHolds(s, c, Init(l));
      ReturnOne(s, ReturnAll(s, c, Init(l)), c, l);
    }
  }

  /** Return one delegation: the closure of the exit, with its look-up that always finds the delegator. */
  method ReturnStake(p: Pallet, candidate: Account, bond: Bond)
    requires bond.owner in p.delegatorState
    requires p.delegatorState[bond.owner].id == bond.owner
    requires SortedByOwner(p.delegatorState[bond.owner].delegations)
    requires candidate in ToMap(p.delegatorState[bond.owner].delegations)
    requires CanRelease(p.View(), candidate, bond.owner)
    requires ZeroMeansGone(p.delegatorState[bond.owner], candidate)
    modifies p
    ensures p.View() == Released(old(p.View()), candidate, bond.owner)
  {
    hide ToMap, Without, AmountOf, PendingIn, DropRequest, Moved, SortedByOwner;
    var delegator := p.delegatorState[bond.owner];
    var remaining;
    delegator, remaining := RmDelegation(p, delegator, candidate);
    if remaining.Some? {
      delegator := RemoveRequestWithState(p, candidate, bond.owner, delegator);
      if remaining.value == 0 {
        p.delegatorState := p.delegatorState - {bond.owner};
      } else {
        p.delegatorState := p.delegatorState[bond.owner := delegator];
      }
    }
  }

  /** What `ReturnStake` needs in the middle of an exit. */
  lemma NextIsReturnable(s: Storage, m: Storage, c: Account, l: seq<Bond>)
    requires Inv(s) && c in s.info && l != [] && Held(s, c, l) && m == ReturnAll(s, c, Init(l))
    ensures Last(l).owner in m.delegators
    ensures m.delegators[Last(l).owner].id == Last(l).owner
    ensures SortedByOwner(m.delegators[Last(l).owner].delegations)
    ensures c in ToMap(m.delegators[Last(l).owner].delegations)
    ensures CanRelease(m, c, Last(l).owner)
    ensures ZeroMeansGone(m.delegators[Last(l).owner], c)
    ensures ReturnAll(s, c, l) == Released(m, c, Last(l).owner)
  {
    hide ToMap, Without, AmountOf, Backers, Held, SortedByOwner, BookOk, Released, BookWithout, ZeroMeansGone;
    LastIsHeld(s, c, l);
    ReturnAllHolds(s, c, Init(l));
    ReturnOne(s, m, c, l);
    StillBacked(s, m, c, l);
    ZeroIsGone(BookWithout(s, m, c, Init(l)), c, Last(l).owner);
  }

  /** Return the bonds of a list, one after the other, after those of `before`. */
  method ReturnEach(p: Pallet, candidate: Account, bonds: seq<Bond>, ghost s: Storage, ghost before: seq<Bond>)
    requires Inv(s) && candidate in s.info && Held(s, candidate, before + bonds)
    requires p.View() == ReturnAll(s, candidate, before)
    modifies p
    ensures p.View() == ReturnAll(s, candidate, before + bonds)
  {
    hide Inv, Held, ReturnAll, Released, CanRelease, ZeroMeansGone, ToMap, SortedByOwner;
    assert before + bonds[..0] == before;
    for i := 0 to |bonds|
      invariant p.View() == ReturnAll(s, candidate, before + bonds[..i])
    {
      ghost var l := before + bonds[..i + 1];
      assert Init(l) == before + bonds[..i] && Last(l) == bonds[i];
      HeldPrefix(s, candidate, before + bonds, |l|);
      assert (before + bonds)[..|l|] == l;
      NextIsReturnable(s, p.View(), candidate, l);
      ReturnStake(p, candidate, bonds[i]);
    }
    assert bonds[..|bonds|] == bonds;
  }

  lemma HeldPrefix(s: Storage, c: Account, l: seq<Bond>, n: nat)
    requires Inv(s) && c in s.info && Held(s, c, l) && n <= |l|
    ensures Held(s, c, l[..n])
  {
    hide Backers, BookOk, TierOk, PoolOk;
  }

  /** All delegations of a candidate, in the order the exit gives them back. */
  ghost function AllBonds(s: Storage, c: Account): seq<Bond>
    requires Keyed(s) && c in s.info
  {
    s.top[c].delegations + s.bottom[c].delegations
  }

  lemma AllBondsHeld(s: Storage, c: Account)
    requires Inv(s) && c in s.info
    ensures Held(s, c, AllBonds(s, c))
    ensures ToMap(AllBonds(s, c)).Keys == Backers(TiersOf(s, c)).Keys
    ensures SeqSum(AllBonds(s, c)) == Sum(Backers(TiersOf(s, c)))
  {
    hide BookOk, PoolOk, MoneyOk;
    ShapeOf(s, c);
    Concatenated(TiersOf(s, c).top, TiersOf(s, c).bottom);
  }

  lemma Concatenated(s: seq<Bond>, t: seq<Bond>)
    requires Distinct(s) && Distinct(t) && ToMap(s).Keys !! ToMap(t).Keys
    ensures Distinct(s + t) && ToMap(s + t) == ToMap(s) + ToMap(t)
    ensures forall b | b in s + t :: b.owner in ToMap(s) + ToMap(t) && (ToMap(s) + ToMap(t))[b.owner] == b.amount
    ensures SeqSum(s + t) == Sum(ToMap(s) + ToMap(t))
  {
    ToMapHolds(s);
    ToMapHolds(t);
    forall b | b in s + t
      ensures b.owner in ToMap(s) + ToMap(t) && (ToMap(s) + ToMap(t))[b.owner] == b.amount
    {
      assert b == Bond(b.owner, b.amount);
    }
    ConcatenatedDistinct(s, t);
    ConcatenatedMap(s, t);
    SumToMap(s + t);
  }

  lemma ConcatenatedDistinct(s: seq<Bond>, t: seq<Bond>)
    requires Distinct(s) && Distinct(t) && ToMap(s).Keys !! ToMap(t).Keys
    ensures Distinct(s + t)
  {
    hide ToMap;
    ToMapOwners(s);
    ToMapOwners(t);
    forall i, j | 0 <= i < |s| && 0 <= j < |t|
      ensures s[i].owner != t[j].owner
    {
      assert s[i] in s && t[j] in t;
      assert s[i].owner in ToMap(s) && t[j].owner in ToMap(t);
    }
  }

  lemma {:induction false} ConcatenatedMap(s: seq<Bond>, t: seq<Bond>)
    requires Distinct(s + t) && ToMap(s).Keys !! ToMap(t).Keys
    ensures ToMap(s + t) == ToMap(s) + ToMap(t)
  {
    if s == [] {
      assert s + t == t;
    } else {
      assert (s + t)[1..] == s[1..] + t;
      ConcatenatedMap(s[1..], t);
    }
  }

  /** Candidate `c` left: everything it held for others was given back, its own bond was not. */
  ghost predicate Exited(s: Storage, s': Storage, c: Account) {
    && Keyed(s) && c in s.info && s.info[c].status.Leaving? && s.info[c].status.when <= s.round
    && var m := ReturnAll(s, c, AllBonds(s, c));
       s' == m.(info := s.info - {c}, top := s.top - {c}, bottom := s.bottom - {c},
                requests := m.requests - {c}, locks := s.locks - {c},
                total := SatSub(s.total, SatAdd(SatAdd(s.info[c].bond, s.top[c].total), s.bottom[c].total)))
  }

  lemma ExitedBook(s: Storage, s': Storage, c: Account)
    requires Inv(s) && Exited(s, s', c)
    ensures Keyed(s') && BookOk(BookOf(s'))
    ensures Get(s'.btc, PALLET) + Sum(Backers(TiersOf(s, c))) == Get(s.btc, PALLET)
    ensures Sum(s'.btc) == Sum(s.btc)
    ensures s'.pool == s.pool
  {
    hide Backers, TierOk, BookOk, ToMap, Held, PoolOk, MoneyOk, ReturnAll, SeqSum, Sum;
    var l := AllBonds(s, c);
    var m := ReturnAll(s, c, l);
    AllBondsHeld(s, c);
    ReturnAllHolds(s, c, l);
    var bk := BookWithout(s, m, c, l);
    assert bk.backing[c] == map[];
    CloseKeeps(bk, c);
    ClosedBook(s, s', m, c, l);
  }

  lemma ClosedBook(s: Storage, s': Storage, m: Storage, c: Account, l: seq<Bond>)
    requires Keyed(s) && c in s.info
    requires s' == s'.(info := s.info - {c}, top := s.top - {c}, bottom := s.bottom - {c},
                       delegators := m.delegators, requests := m.requests - {c})
    ensures Keyed(s') && BookOf(s') == Close(BookWithout(s, m, c, l), c)
  {
    hide Backers, ToMap;
    var b, b' := Close(BookWithout(s, m, c, l), c).backing, BookOf(s').backing;
    assert b.Keys == b'.Keys;
    forall e | e in b
      ensures b'[e] == b[e]
    {
      assert TiersOf(s', e) == TiersOf(s, e);
    }
  }

  lemma ExitedLive(s: Storage, s': Storage, c: Account)
    requires Keyed(s) && c in s.info
    requires s'.info == s.info - {c} && s'.top == s.top - {c} && s'.bottom == s.bottom - {c}
    ensures Keyed(s') && Live(s') + StakeOf(s, c) == Live(s)
  {
    hide Backers, Sum;
    var m, m' := Stakes(s), Stakes(s');
    assert m'.Keys == m.Keys - {c};
    forall e | e in m'
      ensures m'[e] == m[e]
    {
      assert TiersOf(s', e) == TiersOf(s, e);
    }
    assert m' == m - {c};
    SumDrop(m, c);
  }

  lemma ExitedPool(s: Storage, s': Storage, c: Account)
    requires PoolOk(s) && c in s.info && s.info[c].status != Active
    requires s'.info == s.info - {c} && s'.pool == s.pool
    ensures PoolOk(s')
  {
    hide ToMap, SortedByOwner;
    assert ActiveStakes(s'.info) == ActiveStakes(s.info);
  }

  lemma ExitedCandidates(s: Storage, s': Storage, c: Account)
    requires Keyed(s) && CandidatesOk(s)
    requires s'.info == s.info - {c} && s'.top == s.top - {c} && s'.bottom == s.bottom - {c}
    ensures Keyed(s') && CandidatesOk(s')
  {
    hide TierOk, BondLessOk;
  }

  /**
   An exit keeps every invariant. The pallet keeps exactly the candidate's own bond, which is then nobody's, and
   the total loses what decreases in the bottom left behind, on top of the stake.
   */
  lemma ExitedKeeps(s: Storage, s': Storage, c: Account)
    requires Inv(s) && Exited(s, s', c)
    ensures Inv(s')
    ensures Live(s') == Live(s) - StakeOf(s, c)
    ensures Get(s'.btc, PALLET) - Live(s') == Get(s.btc, PALLET) - Live(s) + s.info[c].bond
    ensures StakeOf(s, c) + Drift(s.bottom[c]) <= s.total && StakeOf(s, c) + Drift(s.bottom[c]) <= MAX_BALANCE ==>
              Live(s') - s'.total == Live(s) - s.total + Drift(s.bottom[c])
  {
    hide Backers, TierOk, BookOk, PoolOk, ReturnAll, Sum, Live, SeqSum, CandidatesOk;
    ExitedBook(s, s', c);
    ExitedLive(s, s', c);
    ExitedPool(s, s', c);
    ExitedCandidates(s, s', c);
    BackingTotal(s, c);
  }

  /** The recorded totals of a candidate are its stake plus what decreases in the bottom left behind. */
  lemma BackingTotal(s: Storage, c: Account)
    requires Inv(s) && c in s.info
    ensures s.info[c].bond + s.top[c].total + s.bottom[c].total == StakeOf(s, c) + Drift(s.bottom[c])
    ensures Drift(s.bottom[c]) >= 0
    ensures StakeOf(s, c) <= Live(s) <= MAX_BALANCE
  {
    hide BookOk, PoolOk, Backers;
    InvReady(s, c);
    BackersSum(TiersOf(s, c));
    SumEntry(s.btc, PALLET);
  }

  function ExecuteLeaveError(s: Storage, c: Account, hint: nat): Option<Error> {
    if c !in s.info then Some(CandidateDNE)
    else if hint < s.info[c].delegationCount then Some(TooLowCandidateDelegationCountToLeaveCandidates)
    else if !s.info[c].status.Leaving? then Some(CandidateNotLeaving)
    else if s.round < s.info[c].status.when then Some(CandidateCannotLeaveYet)
    else None
  }

  /** Execute a due exit: once due, it cannot fail, and every delegation is paid back. */
  method ExecuteLeaveCandidates(p: Pallet, candidate: Account, hint: nat) returns (r: Outcome<Error>)
    requires Inv(p.View())
    modifies p
    ensures Inv(p.View())
    ensures r == Answer(ExecuteLeaveError(old(p.View()), candidate, hint))
    ensures r.Fail? ==> p.View() == old(p.View())
    ensures r.Pass? ==> Exited(old(p.View()), p.View(), candidate)
  {
    hide Inv, Held, Released, CanRelease, ToMap, Backers, ReturnAll;
    ghost var s := p.View();
    InvKeyed(s);
    if candidate !in p.candidateInfo {
      return Fail(CandidateDNE);
    }
    var state := p.candidateInfo[candidate];
    if !(state.delegationCount <= hint) {
      return Fail(TooLowCandidateDelegationCountToLeaveCandidates);
    }
    if !state.status.Leaving? {
      return Fail(CandidateNotLeaving);
    }
    if !(p.round >= state.status.when) {
      return Fail(CandidateCannotLeaveYet);
    }
    AllBondsHeld(s, candidate);
    HeldPrefix(s, candidate, AllBonds(s, candidate), |s.top[candidate].delegations|);
    NoneReturned(s, candidate);
    var totalBacking := state.bond;
    var top := p.topDelegations[candidate];
    var bottom := p.bottomDelegations[candidate];
    assert AllBonds(s, candidate)[..|top.delegations|] == [] + top.delegations;
    ReturnEach(p, candidate, top.delegations, s, []);
    totalBacking := SatAdd(totalBacking, top.total);
    assert [] + top.delegations == top.delegations;
    ReturnEach(p, candidate, bottom.delegations, s, top.delegations);
    totalBacking := SatAdd(totalBacking, bottom.total);
    ReturnFrame(s, candidate, AllBonds(s, candidate));
    p.locks := p.locks - {candidate};
    p.candidateInfo := p.candidateInfo - {candidate};
    p.scheduledRequests := p.scheduledRequests - {candidate};
    p.topDelegations := p.topDelegations - {candidate};
    p.bottomDelegations := p.bottomDelegations - {candidate};
    p.total := SatSub(p.total, totalBacking);
    ExitedKeeps(s, p.View(), candidate);
    r := Pass;
  }

  lemma NoneReturned(s: Storage, c: Account)
    ensures ReturnAll(s, c, []) == s
  {
  }

  lemma {:induction false} ReturnFrame(s: Storage, c: Account, l: seq<Bond>)
    ensures var m := ReturnAll(s, c, l);
            m == s.(delegators := m.delegators, requests := m.requests, btc := m.btc)
  {
    hide Moved, Store, Parted, Forget, AmountOf, PendingIn;
    if l != [] {
      ReturnFrame(s, c, Init(l));
    }
  }
}
