/** What becomes of a round's points: noted when it ends, kept until they are due, and paid to everybody. */
module PayoutRuns {
  import opened Config
  import opened Wrappers
  import opened Sums
  import opened Bonds
  import opened Book
  import opened Storage
  import opened Accounting
  import opened Shares
  import opened Snapshots
  import opened Payouts
  import opened Payees
  import opened Selection
  import opened Rounds
  import opened Dispatch
  import opened World
  import opened RoundRuns
  import opened FallBack

  // Noted

  /** Step `i` ends round `r`. */
  predicate Ends(tr: seq<World>, r: RoundIndex, i: nat) {
    i + 1 < |tr| && tr[i].staking.round == r && tr[i + 1].staking.round == r + 1
  }

  /** When a round ends its payout is noted if and only if points were earned, at the commission of that block. */
  lemma PayoutIsNoted(tr: seq<World>, ev: seq<Event>, r: RoundIndex, i: nat)
    requires WorldRun(tr, ev) && Ends(tr, r, i)
    ensures i < |ev| && ev[i].Block?
    ensures r in tr[i + 1].rounds.delayed <==> Get(tr[i].rounds.points, r) > 0
    ensures r in tr[i + 1].rounds.delayed ==>
              tr[i + 1].rounds.delayed[r] == DelayedPayout(ROUND_REWARD, ev[i].commission)
    ensures Get(tr[i + 1].rounds.points, r) == Get(tr[i].rounds.points, r)
    ensures Row(tr[i + 1].rounds.awarded, r) == Row(tr[i].rounds.awarded, r)
    ensures Row(tr[i + 1].rounds.atStake, r) == Row(tr[i].rounds.atStake, r)
  {
    hide WorldStep, GenesisWorld, WorldRun, Owed;
    RunLength(tr, ev);
    RunStep(tr, ev, i);
    RowsOk(tr, ev, i, r);
    ClockStep(tr[i], ev[i], tr[i + 1]);
    FreshStep(tr[i], ev[i], tr[i + 1], r);
    SnapshotStep(tr[i], ev[i], tr[i + 1], r);
    NotedStep(tr[i], ev[i], tr[i + 1]);
  }

  lemma NotedStep(w: World, e: Event, w': World)
    requires WorldStep(w, e, w') && e.Block? && w'.staking.round == w.staking.round + 1
    ensures Get(w.rounds.points, w.staking.round) > 0 ==>
              && w.staking.round in w'.rounds.delayed
              && w'.rounds.delayed[w.staking.round] == DelayedPayout(ROUND_REWARD, e.commission)
  {
    hide IsSelection, Exposures, Panics, MayPay, AfterPayment, AfterSelection;
    ClockStep(w, e, w');
    if e.chosen.Some? {
      var begun := AfterOpening(w.rounds, w.staking.round, w'.now, e.commission, e.paid);
      SelectionRows(w.staking, begun, w'.staking.round, e.chosen.value, w.staking.round);
    }
  }

  // Kept

  /** What is recorded for round `r` in state `k` is what it ended with by step `i`, but for the sequencers paid by then. */
  ghost predicate KeptFrom(tr: seq<World>, ev: seq<Event>, r: RoundIndex, i: nat, k: nat)
    requires i < |ev| && ev[i].Block? && i < k < |tr|
  {
    var w := tr[k];
    && r < w.staking.round
    && (r in w.rounds.delayed ==>
          && w.rounds.delayed[r] == DelayedPayout(ROUND_REWARD, ev[i].commission)
          && Get(w.rounds.points, r) == Get(tr[i].rounds.points, r) > 0)
    && (forall c | c in Row(w.rounds.atStake, r) ::
          && c in Row(tr[i].rounds.atStake, r) && Row(w.rounds.atStake, r)[c] == Row(tr[i].rounds.atStake, r)[c]
          && Get(Row(w.rounds.awarded, r), c) == Get(Row(tr[i].rounds.awarded, r), c))
  }

  lemma {:induction false} AlwaysKept(tr: seq<World>, ev: seq<Event>, r: RoundIndex, i: nat, k: nat)
    requires WorldRun(tr, ev) && Ends(tr, r, i) && i < k < |tr|
    ensures i < |ev| && ev[i].Block? && KeptFrom(tr, ev, r, i, k)
    decreases k
  {
    hide WorldStep, GenesisWorld, WorldRun, Owed, KeptFrom;
    PayoutIsNoted(tr, ev, r, i);
    RunLength(tr, ev);
    if k == i + 1 {
      KeptAtEnd(tr, ev, r, i);
    } else {
      AlwaysKept(tr, ev, r, i, k - 1);
      RunStep(tr, ev, k - 1);
      KeptStep(tr, ev, r, i, k);
    }
  }

  lemma KeptAtEnd(tr: seq<World>, ev: seq<Event>, r: RoundIndex, i: nat)
    requires WorldRun(tr, ev) && Ends(tr, r, i)
    ensures i < |ev| && ev[i].Block? && KeptFrom(tr, ev, r, i, i + 1)
  {
    hide WorldRun;
    PayoutIsNoted(tr, ev, r, i);
  }

  lemma KeptStep(tr: seq<World>, ev: seq<Event>, r: RoundIndex, i: nat, k: nat)
    requires i < |ev| && ev[i].Block? && i + 1 < k < |tr| && k <= |ev| && KeptFrom(tr, ev, r, i, k - 1)
    requires WorldStep(tr[k - 1], ev[k - 1], tr[k])
    ensures KeptFrom(tr, ev, r, i, k)
  {
    hide WorldStep, Owed;
    ClockStep(tr[k - 1], ev[k - 1], tr[k]);
    SnapshotStep(tr[k - 1], ev[k - 1], tr[k], r);
    PointsStep(tr[k - 1], ev[k - 1], tr[k], r);
  }

  /** The payout stays noted until the round in which it is due has begun. */
  lemma {:induction false} PayoutWaits(tr: seq<World>, ev: seq<Event>, r: RoundIndex, j: nat, n: nat)
    requires WorldRun(tr, ev) && 0 < j <= n < |tr|
    requires r in tr[j].rounds.delayed && r < tr[j].staking.round
    requires j < n ==> tr[n - 1].staking.round < r + REWARD_PAYMENT_DELAY
    ensures r in tr[n].rounds.delayed
    decreases n
  {
    hide WorldStep, GenesisWorld, WorldRun, Owed;
    if j < n {
      RunLength(tr, ev);
      RoundsGrow(tr, ev, j, n - 1);
      if j < n - 1 {
        RoundsGrow(tr, ev, n - 2, n - 1);
      }
      PayoutWaits(tr, ev, r, j, n - 1);
      RunStep(tr, ev, n - 1);
      PointsStep(tr[n - 1], ev[n - 1], tr[n], r);
    }
  }

  // Paid

  /**
   A payment for a round that ended with step `i` goes by the points the sequencer had and the round had then, and by
   the snapshot it had then; it pays everybody in the snapshot, and nothing if there were no points.
   */
  lemma PaymentIsExact(tr: seq<World>, ev: seq<Event>, r: RoundIndex, i: nat, n: nat)
    requires WorldRun(tr, ev) && Ends(tr, r, i) && i < n < |ev| && PaidIn(ev[n]).Some? && PaidIn(ev[n]).value.round == r
    ensures ev[i].Block?
    ensures var q, total := PaidIn(ev[n]).value, Get(tr[i].rounds.points, r);
            var info := DelayedPayout(ROUND_REWARD, ev[i].commission);
            && q.sequencer in Row(tr[i].rounds.atStake, r) && q.snapshot == Row(tr[i].rounds.atStake, r)[q.sequencer]
            && q.points == Get(Row(tr[i].rounds.awarded, r), q.sequencer) && total > 0
            && (q.points == 0 ==> q.dues == [])
            && (q.points > 0 ==> PaysEverybody(q.sequencer, q.snapshot, q.points, total, info, q.dues))
  {
    hide WorldStep, GenesisWorld, WorldRun, PaysEverybody, Dues, Proper, Whole;
    RunLength(tr, ev);
    AlwaysKept(tr, ev, r, i, n);
    RunStep(tr, ev, n);
    ClockStep(tr[n], ev[n], tr[n + 1]);
    RowsOk(tr, ev, n, r);
    var q := PaidIn(ev[n]).value;
    EverybodyIsPaid(q.sequencer, q.snapshot, q.points, Get(tr[i].rounds.points, r),
                    DelayedPayout(ROUND_REWARD, ev[i].commission));
  }

  /** A snapshot that is there in one state and gone in a later one was paid in between. */
  lemma {:induction false} GoneIsPaid(tr: seq<World>, ev: seq<Event>, r: RoundIndex, c: Account, j: nat, n: nat)
    returns (k: nat)
    requires WorldRun(tr, ev) && j <= n < |tr| && r < tr[j].staking.round
    requires c in Row(tr[j].rounds.atStake, r) && c !in Row(tr[n].rounds.atStake, r)
    ensures j <= k < n && k < |ev| && PaidIn(ev[k]).Some?
    ensures PaidIn(ev[k]).value.round == r && PaidIn(ev[k]).value.sequencer == c
    decreases n
  {
    hide WorldStep, GenesisWorld, WorldRun, Owed;
    RunLength(tr, ev);
    if c in Row(tr[n - 1].rounds.atStake, r) {
      k := n - 1;
      RunStep(tr, ev, k);
      ClockStep(tr[k], ev[k], tr[n]);
      SnapshotStep(tr[k], ev[k], tr[n], r);
    } else {
      k := GoneIsPaid(tr, ev, r, c, j, n - 1);
    }
  }

  /**
   A round that ended with points is paid in full: if the round in which its rewards are due has L blocks and at most
   L - 1 sequencers had snapshots, each of these is paid once by its end.
   */
  lemma EveryoneIsPaid(tr: seq<World>, ev: seq<Event>, r: RoundIndex, i: nat, j: nat, n: nat, c: Account) returns (k: nat)
    requires WorldRun(tr, ev) && Ends(tr, r, i) && Get(tr[i].rounds.points, r) > 0
    requires i <= j < n < |ev| && Ends(tr, r + REWARD_PAYMENT_DELAY - 1, j) && Ends(tr, r + REWARD_PAYMENT_DELAY, n)
    requires Unpaid(tr[i], r) <= tr[n + 1].rounds.first - tr[j + 1].rounds.first - 1
    requires c in Row(tr[i].rounds.atStake, r)
    ensures Row(tr[n].rounds.atStake, r) == map[]
    ensures j < k < n && PaidIn(ev[k]).Some?
    ensures PaidIn(ev[k]).value.round == r && PaidIn(ev[k]).value.sequencer == c
  {
    hide WorldStep, GenesisWorld, WorldRun, Owed;
    RunLength(tr, ev);
    RowStaysUntilDue(tr, ev, r, i, j);
    RoundsGrow(tr, ev, j + 1, n);
    DrainedRound(tr, ev, r, j, n);
    k := GoneIsPaid(tr, ev, r, c, j + 1, n);
  }

  /** Until its rewards are due, a round keeps its payout and all its snapshots. */
  lemma RowStaysUntilDue(tr: seq<World>, ev: seq<Event>, r: RoundIndex, i: nat, j: nat)
    requires WorldRun(tr, ev) && Ends(tr, r, i) && Get(tr[i].rounds.points, r) > 0
    requires i <= j && Ends(tr, r + REWARD_PAYMENT_DELAY - 1, j)
    ensures r in tr[j + 1].rounds.delayed
    ensures Row(tr[j + 1].rounds.atStake, r) == Row(tr[i].rounds.atStake, r)
  {
    hide WorldStep, GenesisWorld, WorldRun, Owed;
    RunLength(tr, ev);
    PayoutIsNoted(tr, ev, r, i);
    PayoutWaits(tr, ev, r, i + 1, j + 1);
    if i < j {
      RoundsGrow(tr, ev, i + 1, j);
      SnapshotsWait(tr, ev, r, i + 1, j);
      RunStep(tr, ev, j);
      ClockStep(tr[j], ev[j], tr[j + 1]);
      SnapshotStep(tr[j], ev[j], tr[j + 1], r);
    }
  }

  // Snapshots

  /** A selection leaves, for each sequencer, a snapshot of what it and its delegators have and want to keep. */
  lemma SelectionIsExposed(tr: seq<World>, ev: seq<Event>, i: nat, c: Account)
    requires WorldRun(tr, ev) && i < |ev| && TakesSnapshot(ev[i]) && c in ev[i].chosen.value
    ensures i + 1 < |tr| && IsSelection(tr[i].staking.pool, ev[i].topN, ev[i].chosen.value)
    ensures var s, row := tr[i].staking, Row(tr[i + 1].rounds.atStake, tr[i + 1].staking.round + 1);
            && c in s.info && c in s.top && s.info[c].status == Active && c in row
            && ExposesAll(s, c, row[c])
  {
    hide WorldStep, GenesisWorld, WorldRun, Inv, IsSelection, SnapshotOf, ExposesAll;
    RunLength(tr, ev);
    RunStep(tr, ev, i);
    AlwaysOk(tr, ev, i);
    ChosenByBlock(tr[i], ev[i], tr[i + 1]);
    IsInPool(tr[i].staking.pool, ev[i].topN, ev[i].chosen.value, c);
    PoolIsOnRecord(tr[i].staking, c);
    SnapshotStep(tr[i], ev[i], tr[i + 1], tr[i + 1].staking.round + 1);
    ExposesOf(tr[i].staking, c);
  }

  lemma IsInPool(pool: seq<Bond>, n: nat, sel: seq<Account>, c: Account)
    requires IsSelection(pool, n, sel) && c in sel
    ensures HasOwner(pool, c)
  {
  }

  /** The bond, and each counted delegation less what is pending against it; the total is their sum. */
  ghost predicate ExposesAll(s: Storage, c: Account, x: SequencerSnapshot)
    requires c in s.info && c in s.top
  {
    var top, requests := s.top[c].delegations, RequestsOf(s.requests, c);
    && x.bond == s.info[c].bond && x.total == x.bond + SeqSum(x.delegations) && |x.delegations| == |top|
    && forall i | 0 <= i < |top| ::
         x.delegations[i].owner == top[i].owner
         && x.delegations[i].amount + PendingIn(requests, top[i].owner) == top[i].amount
  }

  lemma ExposesOf(s: Storage, c: Account)
    requires Inv(s) && c in s.info && c in s.top
    ensures ExposesAll(s, c, SnapshotOf(s, c))
  {
    hide Inv, PendingIn, SeqSum, Rewardable;
    SnapshotHolds(s, c);
  }

  /** Without a selection the next round gets exactly the snapshots of the current one. */
  lemma FallBackIsCopied(tr: seq<World>, ev: seq<Event>, i: nat)
    requires WorldRun(tr, ev) && i < |ev| && TakesSnapshot(ev[i]) && ev[i].chosen.value == []
    ensures i + 1 < |tr|
    ensures Row(tr[i + 1].rounds.atStake, tr[i + 1].staking.round + 1)
         == Row(tr[i + 1].rounds.atStake, tr[i + 1].staking.round)
  {
    hide WorldStep, GenesisWorld, WorldRun, Owed, RowOk, Row;
    RunLength(tr, ev);
    RunStep(tr, ev, i);
    AlwaysOk(tr, ev, i);
    ClockStep(tr[i], ev[i], tr[i + 1]);
    RowsOk(tr, ev, i, tr[i].staking.round + 2);
    NothingBeyond(tr[i]);
    if tr[i + 1].staking.round == tr[i].staking.round {
      NoEarlySnapshot(tr, ev, i);
    }
    CopyStep(tr[i], ev[i], tr[i + 1]);
  }

  lemma CopyStep(w: World, e: Event, w': World)
    requires WorldStep(w, e, w') && TakesSnapshot(e) && e.chosen.value == []
    requires Row(w.rounds.atStake, w'.staking.round + 1) == map[]
    ensures Row(w'.rounds.atStake, w'.staking.round + 1) == Row(w'.rounds.atStake, w'.staking.round)
  {
    hide WorldStep, Owed, Row;
    ClockStep(w, e, w');
    LiveRowStep(w, e, w', w'.staking.round);
    LiveRowStep(w, e, w', w'.staking.round + 1);
  }
}
