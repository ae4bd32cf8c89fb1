/**
 A run after which `Total` is below the live stake: a delegation in the bottom is decreased, its candidate exits, and
 another candidate stays. It works for any size of the tiers: the top is filled first.
 */
module LossyExit {
  import opened Config
  import opened Wrappers
  import opened Sums
  import opened Bonds
  import opened DelegationList
  import opened Tiers
  import opened OrderedSets
  import opened Book
  import opened Storage
  import opened DelegatorRecord
  import opened CandidateRecord
  import opened CandidateState
  import opened Accounting
  import opened Delegate
  import opened Candidates
  import opened Ledger
  import DelegationRequests
  import Execution = RequestExecution
  import opened CandidateExit
  import opened Dispatch
  import opened Effects
  import opened Runs

  // The cast

  const LEAVER: Account := PALLET + 1

  const STAYER: Account := PALLET + 2

  function Backer(i: nat): Account {
    PALLET + 3 + i
  }

  /** The delegator that finds the top full. */
  const LAST: Account := Backer(MAX_TOP)

  const AMOUNT: Balance := MIN_DELEGATION + 1

  ghost predicate StayerReady(s: Storage) {
    STAYER !in s.delegators && Get(s.btc, STAYER) >= 1
  }

  /** Only the leaver is a candidate, and nothing is left behind in its bottom total. */
  ghost predicate LeaverOnly(s: Storage) {
    && Inv(s) && Keyed(s) && s.info.Keys == {LEAVER} && s.info[LEAVER].status == Active
    && StayerReady(s)
  }

  /** `k` delegations fill the top so far. */
  ghost predicate Filling(s: Storage, k: nat) {
    && LeaverOnly(s)
    && |s.top[LEAVER].delegations| == k && s.bottom[LEAVER].delegations == [] && Drift(s.bottom[LEAVER]) == 0
    && (forall b | b in s.top[LEAVER].delegations :: b.amount == AMOUNT)
    && s.requests == map[]
    && (forall i | k <= i <= MAX_TOP :: Backer(i) !in s.delegators && Get(s.btc, Backer(i)) >= AMOUNT)
  }

  /** The last delegation waits in the bottom. */
  ghost predicate Waiting(s: Storage) {
    && LeaverOnly(s)
    && s.bottom[LEAVER].delegations == [Bond(LAST, AMOUNT)] && Drift(s.bottom[LEAVER]) == 0
    && s.requests == map[]
    && LAST in s.delegators && s.delegators[LAST] == Delegator(LAST, [Bond(LEAVER, AMOUNT)], AMOUNT, 0)
  }

  /** Its decrease is requested. */
  ghost predicate Requested(s: Storage, when: RoundIndex) {
    && LeaverOnly(s)
    && s.bottom[LEAVER].delegations == [Bond(LAST, AMOUNT)] && Drift(s.bottom[LEAVER]) == 0
    && LAST in s.delegators && s.requests == map[LEAVER := [Request(LAST, when, Decrease(1))]]
  }

  /** The decrease is executed, and not taken off the bottom total. */
  ghost predicate Drifted(s: Storage) {
    LeaverOnly(s) && Drift(s.bottom[LEAVER]) >= 1
  }

  /** The leaver is leaving, and the pool is empty. */
  ghost predicate Departing(s: Storage, when: RoundIndex) {
    && Inv(s) && Keyed(s) && LEAVER in s.info && s.info[LEAVER].status == Leaving(when)
    && Drift(s.bottom[LEAVER]) >= 1
  }

  // The steps

  lemma JoinStep(s: Storage, s': Storage)
    requires Inv(s) && Inv(s') && s.info == map[] && s.requests == map[] && s.delegators == map[] && StayerReady(s)
    requires forall i | 0 <= i <= MAX_TOP :: Get(s.btc, Backer(i)) >= AMOUNT
    requires Admitted(s, s', LEAVER)
    ensures Filling(s', 0)
  {
    hide Inv, InsertByOwner, NEW_CANDIDATE, NO_DELEGATIONS, Drift;
    NewIsBlank();
    InvKeyed(s');
  }

  lemma NewIsBlank()
    ensures NO_DELEGATIONS.delegations == [] && Drift(NO_DELEGATIONS) == 0 && NEW_CANDIDATE.status == Active
  {
  }

  lemma NoDelegateError(s: Storage, i: nat)
    requires i <= MAX_TOP && Filling(s, i)
    ensures DelegateError(s, LEAVER, Backer(i), AMOUNT, s.info[LEAVER].delegationCount, 0) == None
  {
    hide Inv;
  }

  lemma FillStep(s: Storage, s': Storage, k: nat)
    requires k < MAX_TOP && Filling(s, k) && Inv(s') && Delegated(s, s', LEAVER, Backer(k), AMOUNT)
    ensures Filling(s', k + 1)
  {
    hide Inv, TierOk, InsertDesc, PoolAfter, Joined, Moved, SeqSum, Backers;
    InsertDescHolds(s.top[LEAVER].delegations, Bond(Backer(k), AMOUNT));
    StakeMoved(s, s', k);
    NoDrift(s, s');
  }

  lemma StakeMoved(s: Storage, s': Storage, k: nat)
    requires Filling(s, k) && Delegated(s, s', LEAVER, Backer(k), AMOUNT)
    ensures s'.requests == map[] && s'.info.Keys == {LEAVER} && StayerReady(s')
    ensures s'.delegators == s.delegators[Backer(k) := Joined(s.delegators, Backer(k), Bond(LEAVER, AMOUNT))]
    ensures forall i | k < i <= MAX_TOP :: Backer(i) !in s'.delegators && Get(s'.btc, Backer(i)) >= AMOUNT
  {
    hide Inv, TierOk, Add, PoolAfter, Joined, Moved, DriftKept;
    MovedHolds(s.btc, Backer(k), PALLET, AMOUNT);
    OnlyCandidateHolds(s, s', LEAVER);
  }

  lemma NoDrift(s: Storage, s': Storage)
    requires Inv(s') && LEAVER in s.top && LEAVER in s.bottom && LEAVER in s'.info && LEAVER in s'.bottom
    requires Drift(s.bottom[LEAVER]) == 0 && DriftKept(s, s', LEAVER)
    ensures Drift(s'.bottom[LEAVER]) == 0
  {
    hide Inv, SeqSum;
    InvKeyed(s');
    DriftIsNatural(s', LEAVER);
  }

  lemma WaitStep(s: Storage, s': Storage)
    requires Filling(s, MAX_TOP) && Inv(s') && Delegated(s, s', LEAVER, LAST, AMOUNT)
    ensures Waiting(s')
  {
    hide Inv, TierOk, PoolAfter, Moved, SeqSum, Backers;
    var top := s.top[LEAVER].delegations;
    assert Last(top) in top;
    assert InsertDesc([], Bond(LAST, AMOUNT)) == [Bond(LAST, AMOUNT)];
    StakeMoved(s, s', MAX_TOP);
    NoDrift(s, s');
  }

  lemma NoDecreaseError(s: Storage)
    requires Waiting(s)
    ensures DelegationRequests.ScheduleDecreaseError(s, LEAVER, LAST, 1) == None
  {
    hide Inv;
    var l := s.delegators[LAST].delegations;
    assert l[0] in l;
    assert AmountOf(l, LEAVER) == AMOUNT;
  }

  lemma RequestStep(s: Storage, s': Storage)
    requires Waiting(s) && Inv(s')
    requires Asked(s, s', LEAVER, Request(LAST, s.round + REVOKE_DELEGATION_DELAY, Decrease(1)))
    ensures Requested(s', s.round + REVOKE_DELEGATION_DELAY)
  {
    hide Inv, Backers, SeqSum, Backed, HasRequest;
    var r := Request(LAST, s.round + REVOKE_DELEGATION_DELAY, Decrease(1));
    assert RequestsOf(s.requests, LEAVER) + [r] == [r];
    assert s'.requests == map[LEAVER := [r]];
    InvKeyed(s');
  }

  lemma NoExecuteError(s: Storage, when: RoundIndex)
    requires Requested(s, when) && when <= s.round
    ensures Execution.ExecuteRequestError(s, LEAVER, LAST) == None
  {
    hide Inv;
    var l := RequestsOf(s.requests, LEAVER);
    assert l[0] in l;
  }

  lemma DriftStep(s: Storage, s': Storage, when: RoundIndex)
    requires Requested(s, when) && Inv(s') && when <= s.round && Step(s, ExecuteRequest(LAST, LEAVER), s')
    ensures Drifted(s')
  {
    hide Inv, Drift, Backers, Execution.Executed, ErrorOf, Revised;
    NoExecuteError(s, when);
    InvKeyed(s');
    assert ErrorOf(s, ExecuteRequest(LAST, LEAVER)) == None by { ExecuteErrorIs(s); }
    var q: Request :| q.delegator == LAST && Execution.Executed(s, s', LEAVER, q);
    OnlyRequestIs(s, s', when, q);
    ExecutedFrame(s, s', q);
  }

  lemma OnlyRequestIs(s: Storage, s': Storage, when: RoundIndex, q: Request)
    requires Requested(s, when) && Execution.Executed(s, s', LEAVER, q)
    ensures q.action == Decrease(1)
  {
    hide Inv, Revoked, Decreased, Execution.DriftAfterDecrease, Backers;
  }

  lemma ExecuteErrorIs(s: Storage)
    requires Keyed(s)
    ensures ErrorOf(s, ExecuteRequest(LAST, LEAVER)) == Execution.ExecuteRequestError(s, LEAVER, LAST)
  {
  }

  /** The decrease is not taken off the bottom total. */
  lemma ExecutedFrame(s: Storage, s': Storage, q: Request)
    requires LeaverOnly(s) && Inv(s') && Keyed(s') && Execution.Executed(s, s', LEAVER, q)
    requires q.delegator == LAST && q.action == Decrease(1)
    requires s.bottom[LEAVER].delegations == [Bond(LAST, AMOUNT)] && Drift(s.bottom[LEAVER]) == 0
    ensures LeaverOnly(s') && Drift(s'.bottom[LEAVER]) == 1
  {
    hide Inv, TierOk, Lower, Backers, PoolAfter, Moved, Revised, Forget, PendingIn, Drift;
    BottomIsNotTop(s);
    MovedHolds(s.btc, PALLET, LAST, q.action.amount);
    OnlyCandidateHolds(s, s', LEAVER);
  }

  lemma BottomIsNotTop(s: Storage)
    requires Inv(s) && Keyed(s) && LEAVER in s.info && s.bottom[LEAVER].delegations == [Bond(LAST, AMOUNT)]
    ensures LAST !in ToMap(s.top[LEAVER].delegations)
  {
    hide Inv;
    ShapeOf(s, LEAVER);
    assert LAST in ToMap(s.bottom[LEAVER].delegations);
  }

  lemma DepartStep(s: Storage, s': Storage)
    requires Drifted(s) && Inv(s') && StatusChanged(s, s', LEAVER, Leaving(s.round + LEAVE_CANDIDATES_DELAY))
    ensures Departing(s', s.round + LEAVE_CANDIDATES_DELAY) && StayerReady(s') && s'.info.Keys == {LEAVER}
    ensures s'.pool == []
  {
    hide Inv, Drift, Without;
    InvKeyed(s');
    NobodyInPool(s');
  }

  lemma NobodyInPool(s: Storage)
    requires Inv(s) && s.info.Keys == {LEAVER} && s.info[LEAVER].status != Active
    ensures s.pool == []
  {
    hide TierOk, BookOk, MoneyOk, ToMap;
    assert ActiveStakes(s.info) == map[];
    SumToMap(s.pool);
  }

  lemma StayStep(s: Storage, s': Storage, when: RoundIndex)
    requires Departing(s, when) && Inv(s') && Admitted(s, s', STAYER)
    ensures Departing(s', when) && STAYER in s'.info && Get(s'.btc, STAYER) == Get(s.btc, STAYER)
  {
    hide Inv, Drift, NEW_CANDIDATE, NO_DELEGATIONS, InsertByOwner;
    InvKeyed(s');
  }

  lemma BondStep(s: Storage, s': Storage, when: RoundIndex)
    requires Departing(s, when) && STAYER in s.info && Inv(s') && BondRaised(s, s', STAYER, 1)
    ensures Departing(s', when) && STAYER in s'.info && s'.info[STAYER].bond >= 1
  {
    hide Inv, Drift, PoolAfter, Moved;
    InvKeyed(s');
  }

  /** The exit loses what stayed behind, and some stake is left: `Total` falls short of it. */
  lemma ExitFallsShort(s: Storage, s': Storage, when: RoundIndex, hint: nat)
    requires Departing(s, when) && STAYER in s.info && s.info[STAYER].bond >= 1
    requires ErrorOf(s, ExecuteLeave(LEAVER, hint)) == None && Step(s, ExecuteLeave(LEAVER, hint), s')
    ensures Keyed(s') && Lost(s, ExecuteLeave(LEAVER, hint)) >= 1 && s'.total < Live(s')
  {
    hide Inv, Step, ErrorOf, Drift, Live;
    StepKeeps(s, ExecuteLeave(LEAVER, hint), s');
    InvKeyed(s');
    TotalBelowLive(s);
    StayerStays(s, s', hint);
  }

  lemma StayerStays(s: Storage, s': Storage, hint: nat)
    requires Inv(s) && Keyed(s) && Inv(s') && Keyed(s') && STAYER in s.info && s.info[STAYER].bond >= 1
    requires Step(s, ExecuteLeave(LEAVER, hint), s')
    ensures Live(s') >= 1
  {
    hide Inv, Step, ErrorOf, Backers, Live;
    OnlyTheTarget(s, ExecuteLeave(LEAVER, hint), s', STAYER);
    InvReady(s', STAYER);
  }

  // The run

  lemma RunExtended(tr: seq<Storage>, calls: seq<Call>, call: Call, s: Storage)
    requires Run(tr, calls) && Step(tr[|calls|], call, s)
    ensures Run(tr + [s], calls + [call])
  {
    hide Step, Genesis;
    var tr', calls' := tr + [s], calls + [call];
    forall i | 0 <= i < |calls'|
      ensures Step(tr'[i], calls'[i], tr'[i + 1])
    {
      if i < |calls| {
        assert tr'[i] == tr[i] && tr'[i + 1] == tr[i + 1] && calls'[i] == calls[i];
      }
    }
  }

  /** The history so far, which ends in the present state. */
  datatype History = History(states: seq<Storage>, calls: seq<Call>)

  ghost predicate LeadsTo(h: History, s: Storage) {
    Run(h.states, h.calls) && h.states[|h.calls|] == s && Inv(s) && Keyed(s)
  }

  /** Make one call that has no error. */
  method Do(p: Pallet, call: Call, ghost h: History) returns (ghost h': History)
    requires LeadsTo(h, p.View()) && Signed(call)
    modifies p
    ensures LeadsTo(h', p.View()) && Step(old(p.View()), call, p.View()) && Inv(p.View())
  {
    hide Run, Inv, Step, Keyed;
    ghost var s := p.View();
    var r := Dispatch.Dispatch(p, call);
    RunExtended(h.states, h.calls, call, p.View());
    InvKeyed(p.View());
    h' := History(h.states + [p.View()], h.calls + [call]);
    RunLengthOf(h);
  }

  lemma RunLengthOf(h: History)
    requires Run(h.states, h.calls)
    ensures |h.states| == |h.calls| + 1
  {
  }

  /** Let rounds pass. */
  method Wait(p: Pallet, rounds: nat, ghost h: History) returns (ghost h': History)
    requires LeadsTo(h, p.View())
    modifies p
    ensures LeadsTo(h', p.View()) && p.View() == old(p.View()).(round := old(p.round) + rounds)
  {
    hide LeadsTo;
    h' := h;
    for i := 0 to rounds
      invariant LeadsTo(h', p.View()) && p.View() == old(p.View()).(round := old(p.round) + i)
    {
      h' := Do(p, NextRound, h');
    }
  }

  /** Fill the top, and put one more delegation into the bottom. */
  method Fill(p: Pallet, ghost h: History) returns (ghost h': History)
    requires LeadsTo(h, p.View()) && Filling(p.View(), 0)
    modifies p
    ensures LeadsTo(h', p.View()) && Waiting(p.View())
  {
    hide LeadsTo, Filling, Waiting, Step, Inv;
    h' := h;
    for i := 0 to MAX_TOP + 1
      invariant LeadsTo(h', p.View())
      invariant if i <= MAX_TOP then Filling(p.View(), i) else Waiting(p.View())
    {
      ghost var s := p.View();
      LeaverIsThere(s, i);
      var hint := p.candidateInfo[LEAVER].delegationCount;
      h' := Do(p, DelegateTo(Backer(i), LEAVER, AMOUNT, hint, 0), h');
      FillOrWait(s, p.View(), i);
    }
  }

  lemma LeaverIsThere(s: Storage, k: nat)
    requires Filling(s, k)
    ensures Keyed(s) && LEAVER in s.info
  {
  }

  lemma FillOrWait(s: Storage, s': Storage, i: nat)
    requires i <= MAX_TOP && Filling(s, i) && Inv(s')
    requires Keyed(s) && LEAVER in s.info
    requires Step(s, DelegateTo(Backer(i), LEAVER, AMOUNT, s.info[LEAVER].delegationCount, 0), s')
    ensures if i < MAX_TOP then Filling(s', i + 1) else Waiting(s')
  {
    hide Filling, Waiting, Inv, Delegated, DelegateError;
    NoDelegateError(s, i);
    if i < MAX_TOP {
      FillStep(s, s', i);
    } else {
      WaitStep(s, s');
    }
  }

  /** Decrease the delegation in the bottom, as soon as that is due. */
  method DecreaseLast(p: Pallet, ghost h: History) returns (ghost h': History)
    requires LeadsTo(h, p.View()) && Waiting(p.View())
    modifies p
    ensures LeadsTo(h', p.View()) && Drifted(p.View())
  {
    hide Run, Waiting, Requested, Drifted, Step, Inv, Keyed;
    ghost var s := p.View();
    ghost var when := p.round + REVOKE_DELEGATION_DELAY;
    h' := Do(p, ScheduleDelegatorBondLess(LAST, LEAVER, 1), h);
    RequestBy(s, p.View());
    s := p.View();
    h' := Wait(p, REVOKE_DELEGATION_DELAY, h');
    RequestWaits(s, p.View(), when);
    s := p.View();
    RequestedOk(s, when);
    h' := Do(p, ExecuteRequest(LAST, LEAVER), h');
    DriftStep(s, p.View(), when);
  }

  lemma RequestBy(s: Storage, s': Storage)
    requires Waiting(s) && Inv(s') && Step(s, ScheduleDelegatorBondLess(LAST, LEAVER, 1), s')
    ensures Requested(s', s.round + REVOKE_DELEGATION_DELAY) && s'.round == s.round
  {
    hide Waiting, Requested, Inv, DelegationRequests.ScheduleDecreaseError, Backers;
    NoDecreaseError(s);
    RequestStep(s, s');
  }

  lemma RequestWaits(s: Storage, s': Storage, when: RoundIndex)
    requires Requested(s, when) && s' == s.(round := s'.round) && Inv(s')
    ensures Requested(s', when)
  {
    hide Inv, Drift;
  }

  lemma RequestedOk(s: Storage, when: RoundIndex)
    requires Requested(s, when)
    ensures Inv(s)
  {
    hide Inv;
  }

  /** The leaver departs, the stayer joins with a bond of one, and the exit becomes due. */
  method Depart(p: Pallet, ghost h: History) returns (ghost h': History)
    requires LeadsTo(h, p.View()) && Drifted(p.View())
    modifies p
    ensures LeadsTo(h', p.View()) && ReadyToExit(p.View())
  {
    hide Run, Drifted, Departing, Step, Inv, Keyed;
    ghost var s := p.View();
    var candidates := |p.candidatePool|;
    h' := Do(p, ScheduleLeave(LEAVER, candidates), h);
    ghost var when := s.round + LEAVE_CANDIDATES_DELAY;
    DepartBy(s, p.View());
    s := p.View();
    h' := Do(p, JoinCandidates(STAYER, MIN_CANDIDATE_STK, 0), h');
    StayBy(s, p.View(), when);
    s := p.View();
    h' := Do(p, CandidateBondMore(STAYER, 1), h');
    BondBy(s, p.View(), when);
    s := p.View();
    h' := Wait(p, LEAVE_CANDIDATES_DELAY, h');
    StillDeparting(s, p.View(), when);
  }

  ghost predicate ReadyToExit(s: Storage) {
    && (exists when: RoundIndex :: when <= s.round && Departing(s, when))
    && STAYER in s.info && s.info[STAYER].bond >= 1
  }

  lemma DepartBy(s: Storage, s': Storage)
    requires Drifted(s) && Inv(s') && Step(s, ScheduleLeave(LEAVER, |s.pool|), s')
    ensures Departing(s', s.round + LEAVE_CANDIDATES_DELAY) && StayerReady(s') && s'.info.Keys == {LEAVER}
    ensures s'.pool == [] && s'.round == s.round
  {
    hide Departing, Inv, Drift;
    DepartStep(s, s');
  }

  lemma StayBy(s: Storage, s': Storage, when: RoundIndex)
    requires Departing(s, when) && StayerReady(s) && s.info.Keys == {LEAVER} && s.pool == [] && Inv(s')
    requires Step(s, JoinCandidates(STAYER, MIN_CANDIDATE_STK, 0), s')
    ensures Departing(s', when) && STAYER in s'.info && Get(s'.btc, STAYER) >= 1 && s'.round == s.round
  {
    hide Departing, Inv, InsertByOwner, NEW_CANDIDATE, NO_DELEGATIONS;
    StayStep(s, s', when);
  }

  lemma BondBy(s: Storage, s': Storage, when: RoundIndex)
    requires Departing(s, when) && STAYER in s.info && Get(s.btc, STAYER) >= 1 && Inv(s')
    requires Step(s, CandidateBondMore(STAYER, 1), s')
    ensures Departing(s', when) && STAYER in s'.info && s'.info[STAYER].bond >= 1 && s'.round == s.round
  {
    hide Departing, Inv, PoolAfter, Moved;
    BondStep(s, s', when);
  }

  lemma StillDeparting(s: Storage, s': Storage, when: RoundIndex)
    requires Departing(s, when) && s' == s.(round := s'.round) && Inv(s') && when <= s'.round
    requires STAYER in s.info && s.info[STAYER].bond >= 1
    ensures ReadyToExit(s')
  {
    hide Inv, Drift;
    assert Departing(s', when);
  }

  /**
   The whole run: from genesis, with calls that all succeed, to a state in which `Total` is less than the stake
   that is live. Any ledger in which the actors can pay will do.
   */
  method TotalFallsShort(btc: map<Account, Balance>) returns (p: Pallet, ghost h: History)
    requires Sum(btc) <= MAX_BALANCE && Get(btc, STAYER) >= 1
    requires forall i | 0 <= i <= MAX_TOP :: Get(btc, Backer(i)) >= AMOUNT
    ensures LeadsTo(h, p.View()) && p.total < Live(p.View())
  {
    hide Run, Filling, Waiting, Drifted, Departing, Step, Inv, Live;
    p := new Pallet(btc, 1);
    h := History([p.View()], []);
    ghost var s := p.View();
    StartsRun(s);
    h := Do(p, JoinCandidates(LEAVER, MIN_CANDIDATE_STK, 0), h);
    JoinBy(s, p.View());
    h := Fill(p, h);
    h := DecreaseLast(p, h);
    h := Depart(p, h);
    s := p.View();
    LeaverStillThere(s);
    var hint := p.candidateInfo[LEAVER].delegationCount;
    h := Do(p, ExecuteLeave(LEAVER, hint), h);
    ExitBy(s, p.View(), hint);
  }

  lemma StartsRun(s: Storage)
    requires Sum(s.btc) <= MAX_BALANCE && s == Storage(map[], map[], map[], map[], map[], [], 0, s.btc, {}, 1)
    ensures LeadsTo(History([s], []), s)
  {
    hide Inv;
    GenesisOk(s.btc, 1);
    InvKeyed(s);
  }

  lemma JoinBy(s: Storage, s': Storage)
    requires Inv(s) && Inv(s') && s == Storage(map[], map[], map[], map[], map[], [], 0, s.btc, {}, 1)
    requires Get(s.btc, STAYER) >= 1 && forall i | 0 <= i <= MAX_TOP :: Get(s.btc, Backer(i)) >= AMOUNT
    requires Step(s, JoinCandidates(LEAVER, MIN_CANDIDATE_STK, 0), s')
    ensures Filling(s', 0)
  {
    hide Inv, Filling, InsertByOwner, NEW_CANDIDATE, NO_DELEGATIONS;
    JoinStep(s, s');
  }

  lemma LeaverStillThere(s: Storage)
    requires ReadyToExit(s)
    ensures LEAVER in s.info
  {
    hide Inv;
  }

  lemma ExitBy(s: Storage, s': Storage, hint: nat)
    requires ReadyToExit(s) && Keyed(s) && LEAVER in s.info && hint == s.info[LEAVER].delegationCount
    requires Step(s, ExecuteLeave(LEAVER, hint), s')
    ensures Keyed(s') && s'.total < Live(s')
  {
    hide Inv, Step, Live, Departing;
    var when: RoundIndex :| when <= s.round && Departing(s, when);
    NoLeaveError(s, when, hint);
    ExitFallsShort(s, s', when, hint);
  }

  lemma NoLeaveError(s: Storage, when: RoundIndex, hint: nat)
    requires Departing(s, when) && when <= s.round && hint == s.info[LEAVER].delegationCount
    ensures ErrorOf(s, ExecuteLeave(LEAVER, hint)) == None
  {
    hide Inv, Drift;
  }
}
