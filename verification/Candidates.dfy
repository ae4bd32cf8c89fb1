/** The candidate's own dispatchables: joining, going offline and online, leaving, and its self bond. */
module Candidates {
  import opened Config
  import opened Wrappers
  import opened Sums
  import opened Bonds
  import opened DelegationList
  import opened Tiers
  import opened OrderedSets
  import opened Book
  import opened Bookkeeping
  import opened Storage
  import opened DelegatorRecord
  import opened CandidateRecord
  import opened Accounting

  // What each dispatchable does

  /** An account became an active candidate without any stake. */
  ghost predicate Admitted(s: Storage, s': Storage, c: Account) {
    && c !in s.info && c !in s.delegators && c != PALLET && |s.pool| < MAX_CANDIDATES
    && s' == s.(info := s.info[c := NEW_CANDIDATE],
                top := s.top[c := NO_DELEGATIONS],
                bottom := s.bottom[c := NO_DELEGATIONS],
                pool := InsertByOwner(s.pool, Bond(c, 0)),
                locks := s.locks + {c})
  }

  /** A candidate changed its status; exactly the active candidates are in the pool. */
  ghost predicate StatusChanged(s: Storage, s': Storage, c: Account, status: Status) {
    && c in s.info
    && (status == Active ==> s.info[c].status != Active && |s.pool| < MAX_CANDIDATES)
    && s' == s.(info := s.info[c := s.info[c].(status := status)],
                pool := if status == Active then InsertByOwner(s.pool, Bond(c, s.info[c].totalCounted))
                        else Without(s.pool, c))
  }

  /** A candidate moved `more` of its own into its bond. */
  ghost predicate BondRaised(s: Storage, s': Storage, c: Account, more: Balance) {
    && c in s.info && more <= Get(s.btc, c)
    && var md := s.info[c].(bond := s.info[c].bond + more, totalCounted := s.info[c].totalCounted + more);
       s' == s.(info := s.info[c := md], pool := PoolAfter(s.pool, c, md),
                total := s.total + more, btc := Moved(s.btc, c, PALLET, more))
  }

  /** A candidate's pending request took `less` out of its bond, back to the candidate. */
  ghost predicate BondLowered(s: Storage, s': Storage, c: Account, less: Balance) {
    && c in s.info && less <= Get(s.btc, PALLET)
    && s.info[c].request.Some? && s.info[c].request.value.amount == less
    && s.info[c].request.value.whenExecutable <= s.round
    && less <= s.info[c].bond && less <= s.info[c].totalCounted
    && var md := s.info[c].(bond := s.info[c].bond - less, totalCounted := s.info[c].totalCounted - less, request := None);
       s' == s.(info := s.info[c := md], pool := PoolAfter(s.pool, c, md),
                total := SatSub(s.total, less), btc := Moved(s.btc, PALLET, c, less))
  }

  /** A candidate's request to lower its bond was noted or withdrawn. */
  ghost predicate BondLessNoted(s: Storage, s': Storage, c: Account, request: Option<BondLessRequest>) {
    && c in s.info
    && (request.Some? ==> request.value.amount < s.info[c].bond && s.info[c].request == None
                          && request.value.whenExecutable == s.round + CANDIDATE_BOND_LESS_DELAY)
    && s' == s.(info := s.info[c := s.info[c].(request := request)])
  }

  // All of it keeps the invariant

  /** A candidate without delegations, as it joins, is in order. */
  lemma EmptyTiersOk(md: CandidateMetadata, b: Delegations)
    requires md == CandidateMetadata(0, 0, 0, 0, 0, 0, Empty, Empty, md.request, md.status)
    requires b.delegations == [] && b.total == 0
    ensures TierOk(md, b, b)
    ensures Backers(Tiers(b.delegations, b.delegations)) == map[]
  {
    NoBonds(b.delegations);
    hide ToMap, Shape, Backers;
  }

  lemma NoBonds(none: seq<Bond>)
    requires none == []
    ensures Shape(Tiers(none, none)) && Backers(Tiers(none, none)) == map[]
  {
  }

  /** The list figures survive any change of the bond, the request and the status. */
  lemma TierOkSame(md: CandidateMetadata, md': CandidateMetadata, top: Delegations, bottom: Delegations)
    requires TierOk(md, top, bottom)
    requires md' == md.(bond := md'.bond, totalCounted := md'.totalCounted, request := md'.request, status := md'.status)
    requires md'.totalCounted + md.bond == md.totalCounted + md'.bond
    ensures TierOk(md', top, bottom)
  {
    hide Shape, SeqSum;
  }

  lemma AdmittedKeeps(s: Storage, s': Storage, c: Account)
    requires Inv(s) && Admitted(s, s', c)
    ensures Inv(s')
    ensures Live(s') == Live(s) && BookOf(s') == Open(BookOf(s), c)
  {
    hide ToMap, TierOk, BookOk, Backers, SortedByOwner, InsertByOwner, Sum, NEW_CANDIDATE, NO_DELEGATIONS, Live, BookOf, PoolOk;
    AdmittedCandidates(s, s', c);
    AdmittedBook(s, s', c);
    AdmittedLive(s, s', c);
    OpenKeeps(BookOf(s), c);
    AdmittedPool(s, s', c);
  }

  lemma AdmittedIsEmpty(s: Storage, s': Storage, c: Account)
    requires Keyed(s) && Admitted(s, s', c)
    ensures TierOk(s'.info[c], s'.top[c], s'.bottom[c]) && BondLessOk(s'.info[c]) && s'.info[c].bond == 0
    ensures Keyed(s') && Backers(TiersOf(s', c)) == map[]
  {
    hide TierOk, Backers;
    EmptyTiersOk(s'.info[c], s'.top[c]);
  }

  lemma AdmittedCandidates(s: Storage, s': Storage, c: Account)
    requires Keyed(s) && CandidatesOk(s) && Admitted(s, s', c)
    ensures Keyed(s') && CandidatesOk(s')
    ensures BookOf(s).backing.Keys == s.info.Keys && BookOf(s).delegators == s.delegators
  {
    hide TierOk, Backers, BondLessOk, NEW_CANDIDATE, NO_DELEGATIONS;
    AdmittedIsEmpty(s, s', c);
  }

  lemma AdmittedPool(s: Storage, s': Storage, c: Account)
    requires PoolOk(s) && Admitted(s, s', c)
    ensures PoolOk(s')
  {
    hide ToMap, SortedByOwner, InsertByOwner, NO_DELEGATIONS;
    assert c !in ActiveStakes(s.info);
    ToMapInsertByOwner(s.pool, Bond(c, 0));
    assert ActiveStakes(s'.info) == ActiveStakes(s.info)[c := 0];
  }

  /** Joining adds a candidate with nothing behind it, and leaves all others as they are. */
  lemma AdmittedFrame(s: Storage, s': Storage, c: Account)
    requires Keyed(s) && Admitted(s, s', c)
    ensures Keyed(s') && s'.info.Keys == s.info.Keys + {c} && c !in s.info
    ensures s'.info[c].bond == 0 && Backers(TiersOf(s', c)) == map[]
    ensures s'.delegators == s.delegators && s'.requests == s.requests
    ensures forall e | e in s.info :: s'.info[e] == s.info[e] && TiersOf(s', e) == TiersOf(s, e)
  {
    hide Backers, NEW_CANDIDATE, NO_DELEGATIONS, InsertByOwner, TierOk, BondLessOk;
    AdmittedIsEmpty(s, s', c);
  }

  lemma MapAdded<T>(m: map<Account, T>, m': map<Account, T>, c: Account, v: T)
    requires m'.Keys == m.Keys + {c} && c !in m && m'[c] == v
    requires forall e | e in m :: m'[e] == m[e]
    ensures m' == m[c := v]
  {
  }

  lemma AdmittedBook(s: Storage, s': Storage, c: Account)
    requires Keyed(s) && Admitted(s, s', c)
    ensures Keyed(s') && BookOf(s') == Open(BookOf(s), c)
  {
    hide Backers, Admitted, TiersOf;
    AdmittedFrame(s, s', c);
    BookAt(s);
    BookAt(s');
    hide BookOf, Keyed;
    MapAdded(BookOf(s).backing, BookOf(s').backing, c, map[]);
  }

  lemma BookAt(s: Storage)
    requires Keyed(s)
    ensures BookOf(s).delegators == s.delegators && BookOf(s).requests == s.requests
    ensures BookOf(s).backing.Keys == s.info.Keys
    ensures forall e | e in s.info :: BookOf(s).backing[e] == Backers(TiersOf(s, e))
  {
    hide Backers;
  }

  lemma AdmittedLive(s: Storage, s': Storage, c: Account)
    requires Keyed(s) && Admitted(s, s', c)
    ensures Keyed(s') && Live(s') == Live(s)
  {
    hide Backers, Sum, Admitted, TiersOf;
    AdmittedFrame(s, s', c);
    SumZero(map[]);
    StakesAt(s);
    StakesAt(s');
    hide Stakes, Keyed;
    MapAdded(Stakes(s), Stakes(s'), c, 0);
    SumUpdate(Stakes(s), c, 0);
  }

  lemma StakesAt(s: Storage)
    requires Keyed(s)
    ensures Stakes(s).Keys == s.info.Keys
    ensures forall e | e in s.info :: Stakes(s)[e] == s.info[e].bond + Sum(Backers(TiersOf(s, e)))
  {
    hide Backers, Sum;
  }

  /** A change of a candidate's record alone leaves the delegation book as it is. */
  lemma SameLists(s: Storage, s': Storage, c: Account)
    requires Keyed(s) && c in s.info && c in s'.info && s'.info == s.info[c := s'.info[c]]
    requires s'.top == s.top && s'.bottom == s.bottom
    requires s'.delegators == s.delegators && s'.requests == s.requests
    ensures Keyed(s') && OnlyCandidate(s, s', c) && BookOf(s') == BookOf(s)
    ensures Live(s') + s.info[c].bond == Live(s) + s'.info[c].bond
  {
    hide Backers, Sum;
    assert s.top[c := s.top[c]] == s.top && s.bottom[c := s.bottom[c]] == s.bottom;
    assert BookOf(s').backing == BookOf(s).backing;
    LiveChanged(s, s', c);
  }

  /** What a change of one record keeps, apart from the pool and the money. */
  lemma RecordChanged(s: Storage, s': Storage, c: Account)
    requires Inv(s) && c in s.info && c in s'.info && s'.info == s.info[c := s'.info[c]]
    requires s'.top == s.top && s'.bottom == s.bottom
    requires s'.delegators == s.delegators && s'.requests == s.requests
    requires var md, md' := s.info[c], s'.info[c];
             && md' == md.(bond := md'.bond, totalCounted := md'.totalCounted, request := md'.request, status := md'.status)
             && md'.totalCounted + md.bond == md.totalCounted + md'.bond
             && BondLessOk(md')
    ensures Keyed(s') && CandidatesOk(s') && BookOf(s') == BookOf(s) && BookOk(BookOf(s'))
    ensures Live(s') + s.info[c].bond == Live(s) + s'.info[c].bond
  {
    hide TierOk, BookOk, Backers, Sum, BondLessOk;
    SameLists(s, s', c);
    TierOkSame(s.info[c], s'.info[c], s.top[c], s.bottom[c]);
    CandidatesKept(s, s', c);
  }

  lemma StatusChangedKeeps(s: Storage, s': Storage, c: Account, status: Status)
    requires Inv(s) && StatusChanged(s, s', c, status)
    ensures Inv(s') && Live(s') == Live(s) && BookOf(s') == BookOf(s)
  {
    hide ToMap, BookOk, TierOk, SortedByOwner, InsertByOwner, Without, Sum, Live, BookOf, PoolOk;
    RecordChanged(s, s', c);
    StatusChangedPool(s, s', c, status);
  }

  lemma StatusChangedPool(s: Storage, s': Storage, c: Account, status: Status)
    requires PoolOk(s) && StatusChanged(s, s', c, status)
    ensures PoolOk(s')
  {
    hide ToMap, SortedByOwner, InsertByOwner, Without;
    if status == Active {
      assert c !in ActiveStakes(s.info);
      ToMapInsertByOwner(s.pool, Bond(c, s.info[c].totalCounted));
      assert ActiveStakes(s'.info) == ActiveStakes(s.info)[c := s.info[c].totalCounted];
    } else {
      SortedWithout(s.pool, c);
      assert ActiveStakes(s'.info) == ActiveStakes(s.info) - {c};
    }
  }

  lemma BondRaisedKeeps(s: Storage, s': Storage, c: Account, more: Balance)
    requires Inv(s) && BondRaised(s, s', c, more)
    ensures Inv(s') && BookOf(s') == BookOf(s)
    ensures Get(s'.btc, PALLET) - Live(s') == Get(s.btc, PALLET) - Live(s)
    ensures Live(s') - s'.total == Live(s) - s.total
  {
    hide ToMap, BookOk, TierOk, SortedByOwner, Put, Sum, Moved, Live, BookOf, PoolOk, PoolAfter;
    RecordChanged(s, s', c);
    PoolKept(s, s', c);
    MovedHolds(s.btc, c, PALLET, more);
  }

  lemma BondLoweredKeeps(s: Storage, s': Storage, c: Account, less: Balance)
    requires Inv(s) && BondLowered(s, s', c, less)
    ensures Inv(s') && BookOf(s') == BookOf(s)
    ensures Get(s'.btc, PALLET) - Live(s') == Get(s.btc, PALLET) - Live(s)
    ensures s.total >= less ==> Live(s') - s'.total == Live(s) - s.total
  {
    hide ToMap, BookOk, TierOk, SortedByOwner, Put, Sum, Moved, Live, BookOf, PoolOk, PoolAfter;
    RecordChanged(s, s', c);
    PoolKept(s, s', c);
    MovedHolds(s.btc, PALLET, c, less);
  }

  lemma BondLessNotedKeeps(s: Storage, s': Storage, c: Account, request: Option<BondLessRequest>)
    requires Inv(s) && BondLessNoted(s, s', c, request)
    ensures Inv(s') && BookOf(s') == BookOf(s) && Live(s') == Live(s)
  {
    hide ToMap, BookOk, TierOk, SortedByOwner, Put, Sum, Live, BookOf, PoolOk;
    RecordChanged(s, s', c);
    BondLessNotedPool(s, s', c, request);
  }

  lemma BondLessNotedPool(s: Storage, s': Storage, c: Account, request: Option<BondLessRequest>)
    requires PoolOk(s) && BondLessNoted(s, s', c, request)
    ensures PoolOk(s')
  {
    hide ToMap, SortedByOwner;
    assert ActiveStakes(s'.info) == ActiveStakes(s.info);
  }

  // The dispatchables

  function Answer(error: Option<Error>): Outcome<Error> {
    match error
    case None => Pass
    case Some(e) => Fail(e)
  }

  function JoinCandidatesError(s: Storage, c: Account, freeBalance: Balance, hint: nat): Option<Error> {
    if c in s.info then Some(CandidateExists)
    else if c in s.delegators then Some(DelegatorExists)
    else if hint < |s.pool| then Some(TooLowCandidateCountWeightHintJoinCandidates)
    else if |s.pool| == MAX_CANDIDATES then Some(CandidateLimitReached)
    else if freeBalance < MIN_CANDIDATE_STK then Some(InsufficientBalance)
    else None
  }

  /** Become a candidate; `freeBalance` is the account's native balance. */
  method JoinCandidatesInner(p: Pallet, acc: Account, freeBalance: Balance, hint: nat) returns (r: Outcome<Error>)
    requires Inv(p.View()) && acc != PALLET
    modifies p
    ensures Inv(p.View())
    ensures r == Answer(JoinCandidatesError(old(p.View()), acc, freeBalance, hint))
    ensures r.Fail? ==> p.View() == old(p.View())
    ensures r.Pass? ==> Admitted(old(p.View()), p.View(), acc)
  {
    hide ToMap, BookOk, TierOk, SortedByOwner, InsertByOwner, Sum, BookOf, MoneyOk, CandidatesOk;
    ghost var s := p.View();
    if acc in p.candidateInfo {
      return Fail(CandidateExists);
    }
    if acc in p.delegatorState {
      return Fail(DelegatorExists);
    }
    var candidates := new BoundedOrderedSet.FromSortedSet(p.candidatePool, MAX_CANDIDATES);
    if hint < |candidates.items| {
      return Fail(TooLowCandidateCountWeightHintJoinCandidates);
    }
    assert acc !in ActiveStakes(s.info);
    var maybeInserted := candidates.TryInsert(Bond(acc, 0));
    if maybeInserted.Failure? {
      return Fail(CandidateLimitReached);
    }
    assert maybeInserted.value;
    if freeBalance < MIN_CANDIDATE_STK {
      return Fail(InsufficientBalance);
    }
    p.locks := p.locks + {acc};
    p.candidateInfo := p.candidateInfo[acc := NEW_CANDIDATE];
    p.topDelegations := p.topDelegations[acc := NO_DELEGATIONS];
    p.bottomDelegations := p.bottomDelegations[acc := NO_DELEGATIONS];
    p.candidatePool := candidates.items;
    AdmittedKeeps(s, p.View(), acc);
    r := Pass;
  }

  function GoOfflineError(s: Storage, c: Account): Option<Error> {
    if c !in s.info then Some(CandidateDNE)
    else if s.info[c].status != Active then Some(AlreadyOffline)
    else None
  }

  /** Out of the pool, with everything still bonded. */
  method GoOfflineInner(p: Pallet, sequencer: Account) returns (r: Outcome<Error>)
    requires Inv(p.View())
    modifies p
    ensures Inv(p.View())
    ensures r == Answer(GoOfflineError(old(p.View()), sequencer))
    ensures r.Fail? ==> p.View() == old(p.View())
    ensures r.Pass? ==> StatusChanged(old(p.View()), p.View(), sequencer, Idle)
  {
    hide ToMap, BookOk, TierOk, SortedByOwner, Without, Sum, BookOf, MoneyOk, CandidatesOk;
    ghost var s := p.View();
    if sequencer !in p.candidateInfo {
      return Fail(CandidateDNE);
    }
    var state := p.candidateInfo[sequencer];
    var candidates := new BoundedOrderedSet.FromSortedSet(p.candidatePool, MAX_CANDIDATES);
    if state.status != Active {
      return Fail(AlreadyOffline);
    }
    state := state.(status := Idle);
    var removed := candidates.Remove(sequencer);
    if removed {
      p.candidatePool := candidates.items;
    }
    p.candidateInfo := p.candidateInfo[sequencer := state];
    assert sequencer in ActiveStakes(s.info);
    StatusChangedKeeps(s, p.View(), sequencer, Idle);
    r := Pass;
  }

  function GoOnlineError(s: Storage, c: Account): Option<Error> {
    if c !in s.info then Some(CandidateDNE)
    else if s.info[c].status == Active then Some(AlreadyActive)
    else if s.info[c].status.Leaving? then Some(CannotGoOnlineIfLeaving)
    else if |s.pool| == MAX_CANDIDATES then Some(CandidateLimitReached)
    else None
  }

  /** Back into the pool, with the stake counted by now. */
  method GoOnlineInner(p: Pallet, sequencer: Account) returns (r: Outcome<Error>)
    requires Inv(p.View())
    modifies p
    ensures Inv(p.View())
    ensures r == Answer(GoOnlineError(old(p.View()), sequencer))
    ensures r.Fail? ==> p.View() == old(p.View())
    ensures r.Pass? ==> StatusChanged(old(p.View()), p.View(), sequencer, Active)
  {
    hide ToMap, BookOk, TierOk, SortedByOwner, InsertByOwner, Sum, BookOf, MoneyOk, CandidatesOk;
    ghost var s := p.View();
    if sequencer !in p.candidateInfo {
      return Fail(CandidateDNE);
    }
    var state := p.candidateInfo[sequencer];
    var candidates := new BoundedOrderedSet.FromSortedSet(p.candidatePool, MAX_CANDIDATES);
    if state.status == Active {
      return Fail(AlreadyActive);
    }
    if state.status.Leaving? {
      return Fail(CannotGoOnlineIfLeaving);
    }
    state := state.(status := Active);
    assert sequencer !in ActiveStakes(s.info);
    var maybeInserted := candidates.TryInsert(Bond(sequencer, state.totalCounted));
    if maybeInserted.Failure? {
      return Fail(CandidateLimitReached);
    }
    assert maybeInserted.value;
    p.candidatePool := candidates.items;
    p.candidateInfo := p.candidateInfo[sequencer := state];
    StatusChangedKeeps(s, p.View(), sequencer, Active);
    r := Pass;
  }

  function ScheduleLeaveError(s: Storage, c: Account, hint: nat): Option<Error> {
    if c !in s.info then Some(CandidateDNE)
    else if s.info[c].status.Leaving? then Some(CandidateAlreadyLeaving)
    else if hint < |s.pool| then Some(TooLowCandidateCountToLeaveCandidates)
    else None
  }

  /** Announce the exit: out of the pool at once, out of the pallet no sooner than the delay allows. */
  method ScheduleLeaveCandidates(p: Pallet, sequencer: Account, hint: nat) returns (r: Outcome<Error>)
    requires Inv(p.View())
    modifies p
    ensures Inv(p.View())
    ensures r == Answer(ScheduleLeaveError(old(p.View()), sequencer, hint))
    ensures r.Fail? ==> p.View() == old(p.View())
    ensures r.Pass? ==>
              StatusChanged(old(p.View()), p.View(), sequencer, Leaving(old(p.round) + LEAVE_CANDIDATES_DELAY))
  {
    hide ToMap, BookOk, TierOk, SortedByOwner, Without, Sum, BookOf, MoneyOk, CandidatesOk;
    ghost var s := p.View();
    if sequencer !in p.candidateInfo {
      return Fail(CandidateDNE);
    }
    var state := p.candidateInfo[sequencer];
    if state.status.Leaving? {
      return Fail(CandidateAlreadyLeaving);
    }
    state := state.(status := Leaving(p.round + LEAVE_CANDIDATES_DELAY));
    var candidates := new BoundedOrderedSet.FromSortedSet(p.candidatePool, MAX_CANDIDATES);
    if hint < |candidates.items| {
      return Fail(TooLowCandidateCountToLeaveCandidates);
    }
    var removed := candidates.Remove(sequencer);
    if removed {
      p.candidatePool := candidates.items;
    } else {
      OutOfPoolIdle(s, sequencer);
    }
    p.candidateInfo := p.candidateInfo[sequencer := state];
    StatusChangedKeeps(s, p.View(), sequencer, state.status);
    r := Pass;
  }

  lemma OutOfPoolIdle(s: Storage, c: Account)
    requires Inv(s) && c !in ToMap(s.pool)
    ensures Without(s.pool, c) == s.pool
  {
    ToMapOwners(s.pool);
    WithoutHolds(s.pool, c);
  }

  function CancelLeaveError(s: Storage, c: Account, hint: nat): Option<Error> {
    if c !in s.info then Some(CandidateDNE)
    else if !s.info[c].status.Leaving? then Some(CandidateNotLeaving)
    else if hint < |s.pool| then Some(TooLowCandidateCountWeightHintCancelLeaveCandidates)
    else if |s.pool| == MAX_CANDIDATES then Some(CandidateLimitReached)
    else None
  }

  /** Stay after all: the exit is called off, and the pool has the candidate back. */
  method CancelLeaveCandidates(p: Pallet, sequencer: Account, hint: nat) returns (r: Outcome<Error>)
    requires Inv(p.View())
    modifies p
    ensures Inv(p.View())
    ensures r == Answer(CancelLeaveError(old(p.View()), sequencer, hint))
    ensures r.Fail? ==> p.View() == old(p.View())
    ensures r.Pass? ==> StatusChanged(old(p.View()), p.View(), sequencer, Active)
  {
    hide ToMap, BookOk, TierOk, SortedByOwner, InsertByOwner, Sum, BookOf, MoneyOk, CandidatesOk;
    ghost var s := p.View();
    if sequencer !in p.candidateInfo {
      return Fail(CandidateDNE);
    }
    var state := p.candidateInfo[sequencer];
    if !state.status.Leaving? {
      return Fail(CandidateNotLeaving);
    }
    state := state.(status := Active);
    var candidates := new BoundedOrderedSet.FromSortedSet(p.candidatePool, MAX_CANDIDATES);
    if hint < |candidates.items| {
      return Fail(TooLowCandidateCountWeightHintCancelLeaveCandidates);
    }
    assert sequencer !in ActiveStakes(s.info);
    var maybeInserted := candidates.TryInsert(Bond(sequencer, state.totalCounted));
    if maybeInserted.Failure? {
      return Fail(CandidateLimitReached);
    }
    assert maybeInserted.value;
    p.candidatePool := candidates.items;
    p.candidateInfo := p.candidateInfo[sequencer := state];
    StatusChangedKeeps(s, p.View(), sequencer, Active);
    r := Pass;
  }

  function BondMoreError(s: Storage, c: Account, more: Balance): Option<Error> {
    if c !in s.info then Some(CandidateDNE)
    else if Get(s.btc, c) < more then Some(InsufficientBalance)
    else None
  }

  /** Bond more of the candidate's own money. */
  method CandidateBondMoreInner(p: Pallet, sequencer: Account, more: Balance) returns (r: Outcome<Error>)
    requires Inv(p.View())
    modifies p
    ensures Inv(p.View())
    ensures r == Answer(BondMoreError(old(p.View()), sequencer, more))
    ensures r.Fail? ==> p.View() == old(p.View())
    ensures r.Pass? ==> BondRaised(old(p.View()), p.View(), sequencer, more)
  {
    hide ToMap, BookOk, TierOk, SortedByOwner, Put, Sum, BookOf, Moved, Backers, Inv, Live, StakeOf, ActiveStakes,
      Keyed, BondLessOk;
    ghost var s := p.View();
    if sequencer !in p.candidateInfo {
      return Fail(CandidateDNE);
    }
    var state := p.candidateInfo[sequencer];
    if Get(p.btc, sequencer) < more {
      return Fail(InsufficientBalance);
    }
    ReadyToRaise(s, sequencer, more);
    p.total := SatAdd(p.total, more);
    state := state.(bond := SatAdd(state.bond, more));
    var transferred := Transfer(p, sequencer, PALLET, more);
    assert transferred;
    state := state.(totalCounted := SatAdd(state.totalCounted, more));
    p.candidateInfo := p.candidateInfo[sequencer := state];
    if state.status == Active {
      UpdateActive(p, sequencer, state.totalCounted);
    }
    BondRaisedKeeps(s, p.View(), sequencer, more);
    r := Pass;
  }

  /** What a larger bond needs: everything fits the balance type, and the pool has the candidate if it is active. */
  lemma ReadyToRaise(s: Storage, c: Account, more: Balance)
    requires Inv(s) && c in s.info && more <= Get(s.btc, c)
    ensures PoolHas(s.pool, c, s.info[c]) && |s.pool| <= MAX_CANDIDATES && SortedByOwner(s.pool)
    ensures s.total + more <= MAX_BALANCE
    ensures s.info[c].bond + more <= s.info[c].totalCounted + more <= MAX_BALANCE
  {
    hide ToMap, BookOk, TierOk, Backers, Inv, Live, StakeOf;
    InvKeyed(s);
    InvReady(s, c);
    PalletIsNoCandidate(s, c);
    BalanceFits(s, c, more);
    CountedFits(s, c);
  }

  lemma CountedFits(s: Storage, c: Account)
    requires Inv(s) && c in s.info
    ensures s.info[c].bond <= s.info[c].totalCounted <= StakeOf(s, c)
    ensures BondLessOk(s.info[c])
    ensures s.total <= Live(s)
  {
    hide Shape, BookOk, Backers, SeqSum, Sum, PoolOk;
    BackersSum(TiersOf(s, c));
  }

  lemma PalletIsNoCandidate(s: Storage, c: Account)
    requires Inv(s) && c in s.info
    ensures c != PALLET
  {
  }

  function ScheduleBondLessError(s: Storage, c: Account, less: Balance): Option<Error> {
    if c !in s.info then Some(CandidateDNE)
    else if s.info[c].request.Some? then Some(PendingCandidateRequestAlreadyExists)
    else if s.info[c].bond <= less then Some(CandidateBondBelowMin)
    else None
  }

  /** Ask for a part of the own bond back. */
  method ScheduleCandidateBondLess(p: Pallet, sequencer: Account, less: Balance) returns (r: Outcome<Error>)
    requires Inv(p.View())
    modifies p
    ensures Inv(p.View())
    ensures r == Answer(ScheduleBondLessError(old(p.View()), sequencer, less))
    ensures r.Fail? ==> p.View() == old(p.View())
    ensures r.Pass? ==>
              BondLessNoted(old(p.View()), p.View(), sequencer,
                            Some(BondLessRequest(less, old(p.round) + CANDIDATE_BOND_LESS_DELAY)))
  {
    hide Inv;
    ghost var s := p.View();
    if sequencer !in p.candidateInfo {
      return Fail(CandidateDNE);
    }
    var state := p.candidateInfo[sequencer];
    if state.request.Some? {
      return Fail(PendingCandidateRequestAlreadyExists);
    }
    if !(state.bond > less) {
      return Fail(CandidateBondBelowMin);
    }
    var whenExecutable := p.round + CANDIDATE_BOND_LESS_DELAY;
    state := state.(request := Some(BondLessRequest(less, whenExecutable)));
    p.candidateInfo := p.candidateInfo[sequencer := state];
    BondLessNotedKeeps(s, p.View(), sequencer, state.request);
    r := Pass;
  }

  function CancelBondLessError(s: Storage, c: Account): Option<Error> {
    if c !in s.info then Some(CandidateDNE)
    else if s.info[c].request.None? then Some(PendingCandidateRequestsDNE)
    else None
  }

  /** Take that request back. */
  method CancelCandidateBondLess(p: Pallet, sequencer: Account) returns (r: Outcome<Error>)
    requires Inv(p.View())
    modifies p
    ensures Inv(p.View())
    ensures r == Answer(CancelBondLessError(old(p.View()), sequencer))
    ensures r.Fail? ==> p.View() == old(p.View())
    ensures r.Pass? ==> BondLessNoted(old(p.View()), p.View(), sequencer, None)
  {
    hide Inv;
    ghost var s := p.View();
    if sequencer !in p.candidateInfo {
      return Fail(CandidateDNE);
    }
    var state := p.candidateInfo[sequencer];
    if state.request.None? {
      return Fail(PendingCandidateRequestsDNE);
    }
    state := state.(request := None);
    p.candidateInfo := p.candidateInfo[sequencer := state];
    BondLessNotedKeeps(s, p.View(), sequencer, None);
    r := Pass;
  }

  function ExecuteBondLessError(s: Storage, c: Account): Option<Error> {
    if c !in s.info then Some(CandidateDNE)
    else if s.info[c].request.None? then Some(PendingCandidateRequestsDNE)
    else if s.round < s.info[c].request.value.whenExecutable then Some(PendingCandidateRequestNotDueYet)
    else None
  }

  /** Pay the requested part of the own bond back; once it is due, nothing can go wrong. */
  method ExecuteCandidateBondLessInner(p: Pallet, candidate: Account) returns (r: Outcome<Error>)
    requires Inv(p.View())
    modifies p
    ensures Inv(p.View())
    ensures r == Answer(ExecuteBondLessError(old(p.View()), candidate))
    ensures r.Fail? ==> p.View() == old(p.View())
    ensures r.Pass? ==>
              BondLowered(old(p.View()), p.View(), candidate, old(p.candidateInfo)[candidate].request.value.amount)
  {
    hide ToMap, BookOk, TierOk, SortedByOwner, Put, Sum, BookOf, Moved, Backers, Inv, Live, StakeOf;
    ghost var s := p.View();
    if candidate !in p.candidateInfo {
      return Fail(CandidateDNE);
    }
    var state := p.candidateInfo[candidate];
    if state.request.None? {
      return Fail(PendingCandidateRequestsDNE);
    }
    var request := state.request.value;
    if !(request.whenExecutable <= p.round) {
      return Fail(PendingCandidateRequestNotDueYet);
    }
    InvKeyed(s);
    InvReady(s, candidate);
    CountedFits(s, candidate);
    p.total := SatSub(p.total, request.amount);
    state := state.(bond := SatSub(state.bond, request.amount));
    var transferred := Transfer(p, PALLET, candidate, request.amount);
    assert transferred;
    state := state.(totalCounted := SatSub(state.totalCounted, request.amount));
    if state.status == Active {
      UpdateActive(p, candidate, state.totalCounted);
    }
    state := state.(request := None);
    p.candidateInfo := p.candidateInfo[candidate := state];
    BondLoweredKeeps(s, p.View(), candidate, request.amount);
    r := Pass;
  }
}
