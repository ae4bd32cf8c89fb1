/** Whole runs of the staking pallet, from genesis on: what holds in every reachable state and over any history. */
module Runs {
  import opened Config
  import opened Wrappers
  import opened Sums
  import opened Bonds
  import opened DelegationList
  import opened Tiers
  import opened Book
  import opened Storage
  import opened CandidateRecord
  import opened Accounting
  import opened Candidates
  import opened Ledger
  import DelegationRequests
  import Execution = RequestExecution
  import opened CandidateExit
  import opened Dispatch
  import opened Effects
  import opened Holdings

  ghost predicate Genesis(s: Storage) {
    && s == Storage(map[], map[], map[], map[], map[], [], 0, s.btc, {}, s.round)
    && Sum(s.btc) <= MAX_BALANCE
  }

  /** `tr[0], tr[1], ...` are the states that the calls lead through from genesis. */
  ghost predicate Run(tr: seq<Storage>, calls: seq<Call>) {
    && |tr| == |calls| + 1
    && Genesis(tr[0])
    && forall i | 0 <= i < |calls| :: Step(tr[i], calls[i], tr[i + 1])
  }

  /** Every reachable state satisfies the whole invariant. */
  lemma {:induction false} AlwaysInv(tr: seq<Storage>, calls: seq<Call>, n: nat)
    requires Run(tr, calls) && n < |tr|
    ensures Inv(tr[n]) && Keyed(tr[n])
  {
    hide Inv, Step, Balanced;
    if n == 0 {
      GenesisOk(tr[0].btc, tr[0].round);
    } else {
      AlwaysInv(tr, calls, n - 1);
      StepKeeps(tr[n - 1], calls[n - 1], tr[n]);
    }
    InvKeyed(tr[n]);
  }

  lemma LinkOf(tr: seq<Storage>, calls: seq<Call>, n: nat)
    requires Run(tr, calls) && n < |calls|
    ensures Inv(tr[n]) && Keyed(tr[n]) && Inv(tr[n + 1]) && Keyed(tr[n + 1]) && Step(tr[n], calls[n], tr[n + 1])
    ensures Balanced(tr[n], tr[n + 1], Inflow(tr[n], calls[n]), Lost(tr[n], calls[n]))
  {
    hide Inv, Step, Balanced;
    AlwaysInv(tr, calls, n);
    AlwaysInv(tr, calls, n + 1);
    StepKeeps(tr[n], calls[n], tr[n + 1]);
  }

  // Custody

  ghost function AllForfeited(tr: seq<Storage>, calls: seq<Call>, n: nat): Balance
    requires n < |tr| && n <= |calls| && forall i | 0 <= i < n :: Keyed(tr[i])
  {
    if n == 0 then 0 else AllForfeited(tr, calls, n - 1) + Forfeited(tr[n - 1], calls[n - 1])
  }

  ghost function AllDeposited(tr: seq<Storage>, calls: seq<Call>, n: nat): Balance
    requires n < |tr| && n <= |calls| && forall i | 0 <= i < n :: Keyed(tr[i])
  {
    if n == 0 then 0 else AllDeposited(tr, calls, n - 1) + Deposited(tr[n - 1], calls[n - 1])
  }

  lemma AllKeyed(tr: seq<Storage>, calls: seq<Call>)
    requires Run(tr, calls)
    ensures forall i | 0 <= i < |tr| :: Keyed(tr[i])
  {
    hide Run;
    forall i | 0 <= i < |tr|
      ensures Keyed(tr[i])
    {
      AlwaysInv(tr, calls, i);
    }
  }

  /**
   The pallet's account holds exactly the live stake, the own bonds of candidates that left, and what it had or
   was given from outside.
   */
  lemma {:induction false} Custody(tr: seq<Storage>, calls: seq<Call>, n: nat)
    requires Run(tr, calls) && n < |tr|
    ensures forall i | 0 <= i < |tr| :: Keyed(tr[i])
    ensures Get(tr[n].btc, PALLET) ==
            Live(tr[n]) + AllForfeited(tr, calls, n) + AllDeposited(tr, calls, n) + Get(tr[0].btc, PALLET)
  {
    hide Inv, Step, Live, Forfeited, Deposited;
    AllKeyed(tr, calls);
    if n == 0 {
      assert Stakes(tr[0]) == map[];
      NothingLive(tr[0]);
    } else {
      Custody(tr, calls, n - 1);
      LinkOf(tr, calls, n - 1);
    }
  }

  lemma NothingLive(s: Storage)
    requires Keyed(s) && s.info == map[]
    ensures Live(s) == 0
  {
    assert Stakes(s) == map[];
  }

  // The total

  ghost function AllLost(tr: seq<Storage>, calls: seq<Call>, j: nat, n: nat): int
    requires j <= n < |tr| && n <= |calls| && forall i | 0 <= i < n :: Keyed(tr[i])
    decreases n - j
  {
    if n == j then 0 else AllLost(tr, calls, j, n - 1) + Lost(tr[n - 1], calls[n - 1])
  }

  /** `Total` never exceeds the live stake, and falls short of it by no more than what exits lost. */
  lemma {:induction false} TotalIsBounded(tr: seq<Storage>, calls: seq<Call>, n: nat)
    requires Run(tr, calls) && n < |tr|
    ensures forall i | 0 <= i < |tr| :: Keyed(tr[i])
    ensures Live(tr[n]) - AllLost(tr, calls, 0, n) <= tr[n].total <= Live(tr[n])
  {
    hide Inv, Step, Live, Lost;
    AllKeyed(tr, calls);
    if n == 0 {
      NothingLive(tr[0]);
    } else {
      TotalIsBounded(tr, calls, n - 1);
      LinkOf(tr, calls, n - 1);
      TotalBelowLive(tr[n]);
    }
  }

  lemma TotalBelowLive(s: Storage)
    requires Inv(s)
    ensures s.total <= Live(s)
  {
  }

  /** What the gap would be if exits had lost from the total only since state `j`, with nothing left of it then. */
  ghost function GapSince(tr: seq<Storage>, calls: seq<Call>, j: nat, n: nat): int
    requires j <= n < |tr| && n <= |calls| && forall i | 0 <= i <= n :: Keyed(tr[i])
  {
    Live(tr[j]) + AllLost(tr, calls, j, n)
  }

  /** The gap between the live stake and `Total` is the least of these. */
  ghost predicate GapIsLeast(tr: seq<Storage>, calls: seq<Call>, n: nat)
    requires n < |tr| && n <= |calls| && forall i | 0 <= i <= n :: Keyed(tr[i])
  {
    var gap := Live(tr[n]) - tr[n].total;
    && (forall j | 0 <= j <= n :: gap <= GapSince(tr, calls, j, n))
    && (exists j :: 0 <= j <= n && gap == GapSince(tr, calls, j, n))
  }

  /**
   By how much `Total` is below the live stake, exactly and in every run: the least, over all moments so far, of the
   live stake then and what exits have lost since. (A total that would go below zero is set to zero, and whatever
   it still owed is forgiven.)
   */
  lemma {:induction false} TotalIsExact(tr: seq<Storage>, calls: seq<Call>, n: nat)
    requires Run(tr, calls) && n < |tr|
    ensures |tr| == |calls| + 1 && forall i | 0 <= i < |tr| :: Keyed(tr[i])
    ensures GapIsLeast(tr, calls, n)
  {
    hide Inv, Step, Live, Lost, Run;
    LengthOf(tr, calls);
    AllKeyed(tr, calls);
    if n == 0 {
      NothingAtGenesis(tr, calls);
      assert Live(tr[0]) - tr[0].total == GapSince(tr, calls, 0, 0);
    } else {
      TotalIsExact(tr, calls, n - 1);
      GapStep(tr, calls, n);
    }
  }

  lemma NothingAtGenesis(tr: seq<Storage>, calls: seq<Call>)
    requires Run(tr, calls)
    ensures Keyed(tr[0]) && Live(tr[0]) == 0 && tr[0].total == 0
  {
    NothingLive(tr[0]);
  }

  lemma GapStep(tr: seq<Storage>, calls: seq<Call>, n: nat)
    requires Run(tr, calls) && 0 < n < |tr|
    requires |tr| == |calls| + 1 && forall i | 0 <= i < |tr| :: Keyed(tr[i])
    requires GapIsLeast(tr, calls, n - 1)
    ensures GapIsLeast(tr, calls, n)
  {
    hide Inv, Step, Live, Lost, Run;
    var lost := Lost(tr[n - 1], calls[n - 1]);
    LinkOf(tr, calls, n - 1);
    assert GapSince(tr, calls, n, n) == Live(tr[n]);
    forall j | 0 <= j < n
      ensures GapSince(tr, calls, j, n) == GapSince(tr, calls, j, n - 1) + lost
    {
    }
    if tr[n].total > 0 {
      var j :| 0 <= j < n && Live(tr[n - 1]) - tr[n - 1].total == GapSince(tr, calls, j, n - 1);
      assert Live(tr[n]) - tr[n].total == GapSince(tr, calls, j, n);
    }
  }

  /** As long as it stays positive, `Total` falls behind the live stake by exactly what exits lose. */
  lemma {:induction false} TotalWhilePositive(tr: seq<Storage>, calls: seq<Call>, j: nat, n: nat)
    requires Run(tr, calls) && j <= n < |tr|
    requires forall i | j < i <= n :: tr[i].total > 0
    ensures forall i | 0 <= i < |tr| :: Keyed(tr[i])
    ensures Live(tr[n]) - tr[n].total == Live(tr[j]) - tr[j].total + AllLost(tr, calls, j, n)
    decreases n - j
  {
    hide Inv, Step, Live, Lost, Run;
    AllKeyed(tr, calls);
    if n > j {
      TotalWhilePositive(tr, calls, j, n - 1);
      LengthOf(tr, calls);
      LinkOf(tr, calls, n - 1);
    }
  }

  lemma LengthOf(tr: seq<Storage>, calls: seq<Call>)
    requires Run(tr, calls)
    ensures |tr| == |calls| + 1
  {
  }

  lemma LostIsNatural(s: Storage, call: Call)
    requires Inv(s) && Keyed(s)
    ensures Lost(s, call) >= 0
  {
    hide BookOk, PoolOk, MoneyOk, ErrorOf, Shape, CachedTop, CachedBottom, SeqSum;
  }

  /** `Total` equals the live stake if and only if no exit has lost anything since there last was no stake at all. */
  lemma TotalMeetsStake(tr: seq<Storage>, calls: seq<Call>, n: nat)
    requires Run(tr, calls) && n < |tr|
    ensures |tr| == |calls| + 1 && forall i | 0 <= i < |tr| :: Keyed(tr[i])
    ensures tr[n].total == Live(tr[n]) <==>
            exists j :: 0 <= j <= n && Live(tr[j]) == 0 && forall i | j <= i < n :: Lost(tr[i], calls[i]) == 0
  {
    hide Inv, Step, Live, Lost, Run;
    TotalIsExact(tr, calls, n);
    TotalIsBounded(tr, calls, n);
    forall j | 0 <= j <= n
      ensures AllLost(tr, calls, j, n) >= 0
      ensures AllLost(tr, calls, j, n) == 0 <==> forall i | j <= i < n :: Lost(tr[i], calls[i]) == 0
    {
      SumOfLost(tr, calls, j, n);
    }
    if tr[n].total == Live(tr[n]) {
      var j :| 0 <= j <= n && GapSince(tr, calls, j, n) == 0;
      assert Live(tr[j]) == 0 && AllLost(tr, calls, j, n) == 0;
    }
    if j :| 0 <= j <= n && Live(tr[j]) == 0 && forall i | j <= i < n :: Lost(tr[i], calls[i]) == 0 {
      assert GapSince(tr, calls, j, n) == 0;
    }
  }

  lemma {:induction false} SumOfLost(tr: seq<Storage>, calls: seq<Call>, j: nat, n: nat)
    requires Run(tr, calls) && j <= n < |tr|
    ensures forall i | 0 <= i < |tr| :: Keyed(tr[i])
    ensures AllLost(tr, calls, j, n) >= 0
    ensures AllLost(tr, calls, j, n) == 0 <==> forall i | j <= i < n :: Lost(tr[i], calls[i]) == 0
    decreases n - j
  {
    hide Inv, Step, Live, Lost, Run;
    LengthOf(tr, calls);
    AllKeyed(tr, calls);
    if n > j {
      SumOfLost(tr, calls, j, n - 1);
      AlwaysInv(tr, calls, n - 1);
      LostIsNatural(tr[n - 1], calls[n - 1]);
    }
  }

  // What bottom decreases leave behind

  /** The decreases executed in the bottom of `c` since it joined. */
  ghost function AllLeftBehind(tr: seq<Storage>, calls: seq<Call>, c: Account, n: nat): Balance
    requires n < |tr| && n <= |calls| && forall i | 0 <= i < n :: Keyed(tr[i])
  {
    if n == 0 || c !in tr[n - 1].info then 0
    else AllLeftBehind(tr, calls, c, n - 1) + LeftBehind(tr[n - 1], calls[n - 1], c)
  }

  /** At every moment since `c` joined, its bottom delegations and what was left behind there fit the type together. */
  ghost predicate AlwaysFits(tr: seq<Storage>, calls: seq<Call>, c: Account, n: nat)
    requires n < |tr| && n <= |calls| && forall i | 0 <= i <= n :: Keyed(tr[i])
  {
    c in tr[n].bottom ==>
      && AllLeftBehind(tr, calls, c, n) + SeqSum(tr[n].bottom[c].delegations) <= MAX_BALANCE
      && (n > 0 ==> AlwaysFits(tr, calls, c, n - 1))
  }

  /**
   The bottom total of a candidate exceeds its bottom delegations by no more than the decreases executed in the bottom
   since it joined, and by exactly that if and only if these and the bottom always fitted the balance type together.
   */
  lemma {:induction false} DriftOverRuns(tr: seq<Storage>, calls: seq<Call>, c: Account, n: nat)
    requires Run(tr, calls) && n < |tr| && c in tr[n].info
    ensures |tr| == |calls| + 1 && forall i | 0 <= i < |tr| :: Keyed(tr[i])
    ensures c in tr[n].bottom
    ensures 0 <= Drift(tr[n].bottom[c]) <= AllLeftBehind(tr, calls, c, n)
    ensures Drift(tr[n].bottom[c]) == AllLeftBehind(tr, calls, c, n) <==> AlwaysFits(tr, calls, c, n)
  {
    hide Inv, Step, Live, LeftBehind, Run, SeqSum;
    LengthOf(tr, calls);
    AllKeyed(tr, calls);
    AlwaysInv(tr, calls, n);
    DriftIsNatural(tr[n], c);
    if n == 0 {
      NobodyAtGenesis(tr, calls, c);
    } else {
      LinkOf(tr, calls, n - 1);
      DriftIsExplained(tr[n - 1], calls[n - 1], tr[n], c);
      if c in tr[n - 1].info {
        DriftOverRuns(tr, calls, c, n - 1);
      } else {
        NothingLeftByNobody(tr[n - 1], calls[n - 1], c);
      }
    }
  }

  lemma NobodyAtGenesis(tr: seq<Storage>, calls: seq<Call>, c: Account)
    requires Run(tr, calls)
    ensures c !in tr[0].info
  {
  }

  lemma NothingLeftByNobody(s: Storage, call: Call, c: Account)
    requires Keyed(s) && c !in s.info
    ensures LeftBehind(s, call, c) == 0
  {
  }

  lemma DriftIsNatural(s: Storage, c: Account)
    requires Inv(s) && Keyed(s) && c in s.info
    ensures Drift(s.bottom[c]) >= 0
  {
    hide BookOk, PoolOk, MoneyOk, Shape, CachedTop, CachedBottom, SeqSum;
  }

  /** If no candidate exits after a decrease in its bottom, `Total` equals the live stake throughout. */
  lemma TotalWithoutLateExits(tr: seq<Storage>, calls: seq<Call>, n: nat)
    requires Run(tr, calls) && n < |tr|
    requires |tr| == |calls| + 1 && forall i | 0 <= i < |tr| :: Keyed(tr[i])
    requires forall i | 0 <= i < n && calls[i].ExecuteLeave? && ErrorOf(tr[i], calls[i]) == None ::
               AllLeftBehind(tr, calls, calls[i].candidate, i) == 0
    ensures tr[n].total == Live(tr[n])
  {
    hide Inv, Step, Live, ErrorOf, Run, Drift, AllLeftBehind;
    forall i | 0 <= i < n
      ensures Lost(tr[i], calls[i]) == 0
    {
      var c := calls[i];
      if c.ExecuteLeave? && c.candidate in tr[i].info {
        DriftOverRuns(tr, calls, c.candidate, i);
      }
    }
    SumOfLost(tr, calls, 0, n);
    TotalIsBounded(tr, calls, n);
  }

  // Wealth

  ghost function AllChanges(tr: seq<Storage>, calls: seq<Call>, e: Account, n: nat): int
    requires n < |tr| && n <= |calls| && forall i | 0 <= i < n :: Keyed(tr[i])
  {
    if n == 0 then 0 else AllChanges(tr, calls, e, n - 1) + Change(tr[n - 1], calls[n - 1], e)
  }

  /** What an account owns, bonded or not, changes over a run only by transfers and by the exit of its own candidacy. */
  lemma {:induction false} WealthOverRuns(tr: seq<Storage>, calls: seq<Call>, e: Account, n: nat)
    requires Run(tr, calls) && n < |tr| && e != PALLET
    ensures forall i | 0 <= i < |tr| :: Keyed(tr[i])
    ensures Wealth(tr[n], e) == Wealth(tr[0], e) + AllChanges(tr, calls, e, n)
  {
    hide Inv, Step, Wealth, Change, Run;
    LengthOf(tr, calls);
    AllKeyed(tr, calls);
    if n > 0 {
      WealthOverRuns(tr, calls, e, n - 1);
      LinkWealth(tr, calls, e, n - 1);
    }
  }

  lemma LinkWealth(tr: seq<Storage>, calls: seq<Call>, e: Account, n: nat)
    requires Run(tr, calls) && n < |calls| && e != PALLET
    ensures n < |tr| - 1 && Keyed(tr[n])
    ensures Wealth(tr[n + 1], e) == Wealth(tr[n], e) + Change(tr[n], calls[n], e)
  {
    hide Inv, Step, Wealth, Change;
    LinkOf(tr, calls, n);
    WealthKept(tr[n], calls[n], tr[n + 1], e);
  }

  // Delays

  /** Since state `i` the request has been on the list without interruption. */
  ghost predicate PendingSince(tr: seq<Storage>, c: Account, r: Request, i: nat, n: nat) {
    n < |tr| && forall k | i < k <= n :: r in RequestsOf(tr[k].requests, c)
  }

  /** Every pending request was put on the list by its delegator's own call, one delay before it becomes due. */
  lemma {:induction false} RequestOrigin(tr: seq<Storage>, calls: seq<Call>, c: Account, r: Request, n: nat)
    returns (i: nat)
    requires Run(tr, calls) && n < |tr| && r in RequestsOf(tr[n].requests, c)
    ensures i < n && Keyed(tr[i]) && Schedules(tr[i], calls[i], c, r) && PendingSince(tr, c, r, i, n)
  {
    hide Inv, Step, Keyed, Schedules, Balanced;
    if n == 0 {
      NoRequestsAtGenesis(tr, calls, c);
      assert false;
    } else {
      LinkOf(tr, calls, n - 1);
      if r in RequestsOf(tr[n - 1].requests, c) {
        i := RequestOrigin(tr, calls, c, r, n - 1);
      } else {
        RequestIsScheduled(tr[n - 1], calls[n - 1], tr[n], c, r);
        i := n - 1;
      }
    }
  }

  lemma NoRequestsAtGenesis(tr: seq<Storage>, calls: seq<Call>, c: Account)
    requires Run(tr, calls)
    ensures RequestsOf(tr[0].requests, c) == []
  {
  }

  /** Since state `i` the candidate has been leaving, to be gone no earlier than `when`. */
  ghost predicate LeavingSince(tr: seq<Storage>, c: Account, when: RoundIndex, i: nat, n: nat) {
    n < |tr| && forall k | i < k <= n :: c in tr[k].info && tr[k].info[c].status == Leaving(when)
  }

  /** A candidate that is leaving scheduled that itself, and has not cancelled it since. */
  lemma {:induction false} LeavingOrigin(tr: seq<Storage>, calls: seq<Call>, c: Account, when: RoundIndex, n: nat)
    returns (i: nat)
    requires Run(tr, calls) && n < |tr| && c in tr[n].info && tr[n].info[c].status == Leaving(when)
    ensures i < n && Keyed(tr[i]) && calls[i].ScheduleLeave? && calls[i].who == c && ErrorOf(tr[i], calls[i]) == None
    ensures when == tr[i].round + LEAVE_CANDIDATES_DELAY && LeavingSince(tr, c, when, i, n)
  {
    hide Inv, Step, Keyed, ErrorOf, Balanced;
    if n == 0 {
      NobodyAtGenesis(tr, calls, c);
      assert false;
    } else {
      LinkOf(tr, calls, n - 1);
      RecordExplained(tr[n - 1], calls[n - 1], tr[n], c);
      if c in tr[n - 1].info && tr[n - 1].info[c].status == Leaving(when) {
        i := LeavingOrigin(tr, calls, c, when, n - 1);
      } else {
        i := n - 1;
      }
    }
  }

  /** Since state `i` the candidate's request to lower its bond has been pending. */
  ghost predicate LessSince(tr: seq<Storage>, c: Account, q: BondLessRequest, i: nat, n: nat) {
    n < |tr| && forall k | i < k <= n :: c in tr[k].info && tr[k].info[c].request == Some(q)
  }

  lemma {:induction false} BondLessOrigin(tr: seq<Storage>, calls: seq<Call>, c: Account, q: BondLessRequest, n: nat)
    returns (i: nat)
    requires Run(tr, calls) && n < |tr| && c in tr[n].info && tr[n].info[c].request == Some(q)
    ensures i < n && Keyed(tr[i]) && calls[i] == ScheduleCandidateBondLess(c, q.amount)
    ensures ErrorOf(tr[i], calls[i]) == None
    ensures q.whenExecutable == tr[i].round + CANDIDATE_BOND_LESS_DELAY && LessSince(tr, c, q, i, n)
  {
    hide Inv, Step, Keyed, ErrorOf, Balanced;
    if n == 0 {
      NobodyAtGenesis(tr, calls, c);
      assert false;
    } else {
      LinkOf(tr, calls, n - 1);
      RecordExplained(tr[n - 1], calls[n - 1], tr[n], c);
      if c in tr[n - 1].info && tr[n - 1].info[c].request == Some(q) {
        i := BondLessOrigin(tr, calls, c, q, n - 1);
      } else {
        i := n - 1;
      }
    }
  }

  /** Call `n` pays `d` what it asked for with a call a full delay earlier, and pending ever since. */
  ghost predicate LeavesByRequest(tr: seq<Storage>, calls: seq<Call>, c: Account, d: Account, n: nat, i: nat, r: Request)
    requires n < |calls| < |tr| && Keyed(tr[n]) && Keyed(tr[n + 1])
  {
    && calls[n] == ExecuteRequest(d, c) && r.delegator == d
    && i < n && Keyed(tr[i]) && Schedules(tr[i], calls[i], c, r) && PendingSince(tr, c, r, i, n)
    && tr[i].round + REVOKE_DELEGATION_DELAY <= tr[n].round
    && StakeWith(tr[n + 1], c, d) == StakeWith(tr[n], c, d) - r.action.amount
  }

  /** Call `n` is the exit of `c`, scheduled with a call a full delay earlier and not cancelled since. */
  ghost predicate LeavesByExit(tr: seq<Storage>, calls: seq<Call>, c: Account, n: nat, i: nat)
    requires n < |calls| < |tr|
  {
    && calls[n].ExecuteLeave? && calls[n].candidate == c
    && i < n && Keyed(tr[i]) && calls[i].ScheduleLeave? && calls[i].who == c && ErrorOf(tr[i], calls[i]) == None
    && LeavingSince(tr, c, tr[i].round + LEAVE_CANDIDATES_DELAY, i, n)
    && tr[i].round + LEAVE_CANDIDATES_DELAY <= tr[n].round
  }

  ghost predicate LeavesByKick(tr: seq<Storage>, calls: seq<Call>, c: Account, d: Account, n: nat)
    requires n < |calls| < |tr| && Keyed(tr[n]) && Keyed(tr[n + 1])
  {
    calls[n].DelegateTo? && calls[n].candidate == c && KickedBy(tr[n], tr[n + 1], c, d, calls[n].amount)
  }

  /**
   Stake leaves a candidate only by its delegator's own request after the full delay, by a larger newcomer's kick,
   or by the candidate's own exit after its full delay.
   */
  lemma StakeLeavesOnlyBy(tr: seq<Storage>, calls: seq<Call>, c: Account, d: Account, n: nat)
    requires Run(tr, calls) && n < |calls|
    requires Keyed(tr[n]) && Keyed(tr[n + 1]) && StakeWith(tr[n + 1], c, d) < StakeWith(tr[n], c, d)
    ensures || (exists i, r :: LeavesByRequest(tr, calls, c, d, n, i, r))
            || LeavesByKick(tr, calls, c, d, n)
            || (exists i :: LeavesByExit(tr, calls, c, n, i))
  {
    hide Inv, Step, StakeWith, ErrorOf, Schedules, PendingSince, LeavingSince, Balanced, KickedBy, Run, LeavesByRequest,
      LeavesByExit;
    LengthOf(tr, calls);
    LinkOf(tr, calls, n);
    StakeIsExplained(tr[n], calls[n], tr[n + 1], c, d);
    if calls[n].ExecuteLeave? {
      ExitIsLate(tr, calls, c, n);
    } else if calls[n].ExecuteRequest? {
      RequestIsLate(tr, calls, c, d, n);
    }
  }

  /** Stake comes to a candidate only by its delegator's own call, and by just the amount of the call. */
  lemma StakeGrowsOnlyBy(tr: seq<Storage>, calls: seq<Call>, c: Account, d: Account, n: nat)
    requires Run(tr, calls) && n < |calls|
    requires Keyed(tr[n]) && Keyed(tr[n + 1])
    ensures GainExplained(tr[n], calls[n], tr[n + 1], c, d)
  {
    hide Inv, Step, StakeWith, ErrorOf, Balanced, Run, GainExplained, LossExplained;
    LengthOf(tr, calls);
    LinkOf(tr, calls, n);
    StakeIsExplained(tr[n], calls[n], tr[n + 1], c, d);
  }

  lemma RequestIsLate(tr: seq<Storage>, calls: seq<Call>, c: Account, d: Account, n: nat)
    requires Run(tr, calls) && n < |calls| && calls[n] == ExecuteRequest(d, c)
    requires Keyed(tr[n]) && Keyed(tr[n + 1]) && PaidByRequest(tr[n], tr[n + 1], c, d)
    ensures exists i, r :: LeavesByRequest(tr, calls, c, d, n, i, r)
  {
    hide Inv, Step, StakeWith, Schedules, PendingSince, Keyed;
    var r :| r in RequestsOf(tr[n].requests, c) && r.delegator == d && r.whenExecutable <= tr[n].round
             && StakeWith(tr[n + 1], c, d) == StakeWith(tr[n], c, d) - r.action.amount;
    var i := RequestOrigin(tr, calls, c, r, n);
    assert r.whenExecutable == tr[i].round + REVOKE_DELEGATION_DELAY by { DueAfterDelay(tr[i], calls[i], c, r); }
    assert LeavesByRequest(tr, calls, c, d, n, i, r);
  }

  lemma DueAfterDelay(s: Storage, call: Call, c: Account, r: Request)
    requires Keyed(s) && Schedules(s, call, c, r)
    ensures r.whenExecutable == s.round + REVOKE_DELEGATION_DELAY
  {
  }

  lemma ExitIsLate(tr: seq<Storage>, calls: seq<Call>, c: Account, n: nat)
    requires Run(tr, calls) && n < |calls| && calls[n].ExecuteLeave? && calls[n].candidate == c && ExitDue(tr[n], c)
    ensures exists i :: LeavesByExit(tr, calls, c, n, i)
  {
    hide Inv, Step, ErrorOf, Keyed, LeavingSince;
    var i := LeavingOrigin(tr, calls, c, tr[n].info[c].status.when, n);
    assert LeavesByExit(tr, calls, c, n, i);
  }

  /** A candidate leaves the pallet only by such an exit. */
  lemma CandidateLeavesOnlyByExit(tr: seq<Storage>, calls: seq<Call>, c: Account, n: nat)
    requires Run(tr, calls) && n < |calls| && c in tr[n].info && c !in tr[n + 1].info
    ensures exists i :: LeavesByExit(tr, calls, c, n, i)
  {
    hide Inv, Step, ErrorOf, Balanced, Run, LeavesByExit, Untouched;
    LengthOf(tr, calls);
    LinkOf(tr, calls, n);
    GoneByExit(tr[n], calls[n], tr[n + 1], c);
    ExitIsLate(tr, calls, c, n);
  }

  /** The own bond of a candidate that stays shrinks only by its own request after the full delay. */
  lemma OwnBondShrinksOnlyBy(tr: seq<Storage>, calls: seq<Call>, c: Account, n: nat) returns (i: nat)
    requires Run(tr, calls) && n < |calls| && c in tr[n].info && c in tr[n + 1].info
    requires tr[n + 1].info[c].bond < tr[n].info[c].bond
    ensures calls[n] == ExecuteCandidateBondLess(c) && tr[n].info[c].request.Some?
    ensures var q := tr[n].info[c].request.value;
            && i < n && calls[i] == ScheduleCandidateBondLess(c, q.amount)
            && LessSince(tr, c, q, i, n)
            && tr[i].round + CANDIDATE_BOND_LESS_DELAY <= tr[n].round
            && tr[n + 1].info[c].bond == tr[n].info[c].bond - q.amount
  {
    hide Inv, Step, ErrorOf, Balanced, LessSince, Keyed;
    LinkOf(tr, calls, n);
    RecordExplained(tr[n], calls[n], tr[n + 1], c);
    i := BondLessOrigin(tr, calls, c, tr[n].info[c].request.value, n);
  }

  // Progress

  /** In every reachable state a due request executes: its delegator exists, the minima hold, and the money is there. */
  lemma DueRequestExecutes(tr: seq<Storage>, calls: seq<Call>, c: Account, r: Request, n: nat)
    requires Run(tr, calls) && n < |tr|
    requires r in RequestsOf(tr[n].requests, c) && r.whenExecutable <= tr[n].round
    ensures Keyed(tr[n]) && ErrorOf(tr[n], ExecuteRequest(r.delegator, c)) == None
  {
    hide ToMap, TierOk, Backers, Step, Run, BookOk, PoolOk, MoneyOk;
    AlwaysInv(tr, calls, n);
    RequestIsBacked(tr[n], c, r);
    DelegationRequests.OneEach(tr[n], c);
  }

  /** A due exit executes, given a large enough weight hint. */
  lemma DueExitExecutes(tr: seq<Storage>, calls: seq<Call>, c: Account, hint: nat, n: nat)
    requires Run(tr, calls) && n < |tr| && ExitDue(tr[n], c) && tr[n].info[c].delegationCount <= hint
    ensures Keyed(tr[n]) && ErrorOf(tr[n], ExecuteLeave(c, hint)) == None
  {
    hide Inv, Step, Run;
    AlwaysInv(tr, calls, n);
  }

  // The counted stake

  /**
   What a candidate's rank rests on, in every reachable state: its own bond and the largest MAX_TOP of the
   delegations its delegators have with it, wherever the incremental edits put them.
   */
  lemma CountedIsTheLargest(tr: seq<Storage>, calls: seq<Call>, c: Account, n: nat, chosen: set<Account>)
    requires Run(tr, calls) && n < |tr| && c in tr[n].info
    ensures Keyed(tr[n])
    ensures var m, top, md := Backers(TiersOf(tr[n], c)), ToMap(tr[n].top[c].delegations).Keys, tr[n].info[c];
            && top <= m.Keys && |top| == (if |m| <= MAX_TOP then |m| else MAX_TOP)
            && md.totalCounted == md.bond + Sum(Chosen(m, top))
            && (chosen <= m.Keys && |chosen| <= MAX_TOP ==> md.bond + Sum(Chosen(m, chosen)) <= md.totalCounted)
            && (forall d :: Lookup(m, d) == Lookup(BondsOf(tr[n].delegators, d), c))
            && (md.status == Active ==> Bond(c, md.totalCounted) in tr[n].pool)
            && (md.status != Active ==> !HasOwner(tr[n].pool, c))
  {
    hide Run, Step, ToMap, Inv, Backers;
    AlwaysInv(tr, calls, n);
    CountedOf(tr[n], c, chosen);
    MirrorOf(tr[n], c);
    PoolEntry(tr[n], c);
  }

  lemma CountedOf(s: Storage, c: Account, chosen: set<Account>)
    requires Inv(s) && Keyed(s) && c in s.info
    ensures var m, top, md := Backers(TiersOf(s, c)), ToMap(s.top[c].delegations).Keys, s.info[c];
            && top <= m.Keys && |top| == (if |m| <= MAX_TOP then |m| else MAX_TOP)
            && md.totalCounted == md.bond + Sum(Chosen(m, top))
            && (chosen <= m.Keys && |chosen| <= MAX_TOP ==> md.bond + Sum(Chosen(m, chosen)) <= md.totalCounted)
  {
    hide BookOk, PoolOk, MoneyOk, ToMap, Backers, Shape, SeqSum;
    var t := TiersOf(s, c);
    ShapeOf(s, c);
    TopIsASelection(t);
    if chosen <= Backers(t).Keys && |chosen| <= MAX_TOP {
      TopIsLargest(t, chosen);
    }
  }

  lemma MirrorOf(s: Storage, c: Account)
    requires Inv(s) && Keyed(s) && c in s.info
    ensures forall d :: Lookup(Backers(TiersOf(s, c)), d) == Lookup(BondsOf(s.delegators, d), c)
  {
    hide TierOk, PoolOk, MoneyOk, ToMap, Backers, DelegatorsOk, RequestsOk, LessOk;
    var bk := BookOf(s);
    forall d
      ensures Lookup(Backers(TiersOf(s, c)), d) == Lookup(BondsOf(s.delegators, d), c)
    {
      assert Lookup(BackersOf(bk, c), d) == Lookup(BondsOf(bk.delegators, d), c);
    }
  }

  lemma PoolEntry(s: Storage, c: Account)
    requires Inv(s) && c in s.info
    ensures s.info[c].status == Active ==> Bond(c, s.info[c].totalCounted) in s.pool
    ensures s.info[c].status != Active ==> !HasOwner(s.pool, c)
  {
    hide TierOk, BookOk, MoneyOk, ToMap;
    ToMapOwners(s.pool);
    ToMapHolds(s.pool);
    if s.info[c].status == Active {
      assert c in ActiveStakes(s.info);
    }
  }

  // Locks and cached figures

  /** Whoever is a candidate has a native lock, and nobody else has. */
  lemma {:induction false} LocksAreCandidates(tr: seq<Storage>, calls: seq<Call>, n: nat)
    requires Run(tr, calls) && n < |tr|
    ensures tr[n].locks == tr[n].info.Keys
  {
    hide Inv, Step, Balanced, Keyed;
    if n > 0 {
      LocksAreCandidates(tr, calls, n - 1);
      LinkOf(tr, calls, n - 1);
      LocksKept(tr[n - 1], calls[n - 1], tr[n]);
    }
  }

  ghost predicate IsLeast(v: Balance, m: map<Account, Balance>) {
    if m == map[] then v == 0 else (exists o :: o in m && m[o] == v) && forall o | o in m :: v <= m[o]
  }

  ghost predicate IsGreatest(v: Balance, m: map<Account, Balance>) {
    if m == map[] then v == 0 else (exists o :: o in m && m[o] == v) && forall o | o in m :: v >= m[o]
  }

  ghost predicate IsCapacity(capacity: Capacity, size: nat, most: nat) {
    && (capacity == Full <==> size == most)
    && (capacity == Empty <==> size == 0)
    && size <= most
  }

  /** In every reachable state the cached figures of a candidate are what their names say. */
  lemma CachedFiguresAreTrue(tr: seq<Storage>, calls: seq<Call>, c: Account, n: nat)
    requires Run(tr, calls) && n < |tr| && c in tr[n].info
    ensures Keyed(tr[n])
    ensures var md, top, bottom := tr[n].info[c], ToMap(tr[n].top[c].delegations), ToMap(tr[n].bottom[c].delegations);
            && top.Keys !! bottom.Keys && md.delegationCount == |top| + |bottom|
            && IsLeast(md.lowestTop, top) && IsCapacity(md.topCapacity, |top|, MAX_TOP)
            && IsLeast(md.lowestBottom, bottom) && IsGreatest(md.highestBottom, bottom)
            && IsCapacity(md.bottomCapacity, |bottom|, MAX_BOTTOM)
            && (bottom != map[] ==> md.topCapacity == Full)
  {
    hide Run, Step, ToMap, Inv;
    AlwaysInv(tr, calls, n);
    FiguresOf(tr[n], c);
  }

  lemma FiguresOf(s: Storage, c: Account)
    requires Inv(s) && Keyed(s) && c in s.info
    ensures var md, top, bottom := s.info[c], ToMap(s.top[c].delegations), ToMap(s.bottom[c].delegations);
            && top.Keys !! bottom.Keys && md.delegationCount == |top| + |bottom|
            && IsLeast(md.lowestTop, top) && IsCapacity(md.topCapacity, |top|, MAX_TOP)
            && IsLeast(md.lowestBottom, bottom) && IsGreatest(md.highestBottom, bottom)
            && IsCapacity(md.bottomCapacity, |bottom|, MAX_BOTTOM)
            && (bottom != map[] ==> md.topCapacity == Full)
  {
    hide BookOk, PoolOk, MoneyOk, ToMap, SeqSum, Above;
    EndsOf(s.top[c].delegations);
    EndsOf(s.bottom[c].delegations);
  }

  lemma EndsOf(l: seq<Bond>)
    requires Ranked(l)
    ensures |ToMap(l)| == |l| && (ToMap(l) == map[] <==> l == [])
    ensures IsLeast(Lowest(l), ToMap(l)) && IsGreatest(Highest(l), ToMap(l))
  {
    hide ToMap;
    SumToMap(l);
    EndsBound(l);
  }
}
