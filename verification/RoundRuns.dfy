/** Whole runs of staking and rounds: snapshots, payments and rewards over any history of blocks and calls. */
module RoundRuns {
  import opened Config
  import opened Wrappers
  import opened Sums
  import opened Bonds
  import opened Storage
  import opened Accounting
  import opened Shares
  import opened Snapshots
  import opened Payouts
  import opened Payees
  import opened Selection
  import opened Rounds
  import opened Dispatch
  import opened World

  ghost function Blank(length: nat): Rounds {
    Rounds(0, length, length * 3 / 4, map[], map[], map[], map[], [])
  }

  /** Genesis: the first sequencers are selected, the snapshot falls on three quarters of the round. */
  ghost predicate GenesisWorld(w: World) {
    && Inv(w.staking) && w.staking.round == 1 && w.now == 0
    && exists topN, sel :: FirstSelection(w, topN, sel)
  }

  ghost predicate FirstSelection(w: World, topN: nat, sel: seq<Account>) {
    IsSelection(w.staking.pool, topN, sel) && w.rounds == AfterSelection(w.staking, Blank(w.rounds.length), 0, sel)
  }

  ghost predicate WorldRun(tr: seq<World>, ev: seq<Event>) {
    && |tr| == |ev| + 1
    && GenesisWorld(tr[0])
    && forall i | 0 <= i < |ev| :: WorldStep(tr[i], ev[i], tr[i + 1])
  }

  lemma RunLength(tr: seq<World>, ev: seq<Event>)
    requires WorldRun(tr, ev)
    ensures |tr| == |ev| + 1
  {
  }

  lemma RunStep(tr: seq<World>, ev: seq<Event>, n: nat)
    requires WorldRun(tr, ev) && n < |ev|
    ensures n + 1 < |tr| && WorldStep(tr[n], ev[n], tr[n + 1])
  {
  }

  lemma GenesisFacts(w: World)
    requires GenesisWorld(w)
    ensures Inv(w.staking) && w.staking.round == 1 && w.now == 0 && w.rounds.first == 0
    ensures w.rounds.snapshotTimePoint == w.rounds.length * 3 / 4
    ensures w.rounds.points == map[] && w.rounds.awarded == map[] && w.rounds.delayed == map[]
    ensures forall r | r != 1 :: Row(w.rounds.atStake, r) == map[]
  {
    hide Inv, IsSelection, Exposures;
    var topN, sel :| FirstSelection(w, topN, sel);
  }

  // What always holds

  /** The staking side is in order, and the clock runs forward. */
  lemma {:induction false} AlwaysOk(tr: seq<World>, ev: seq<Event>, n: nat)
    requires WorldRun(tr, ev) && n < |tr|
    ensures Inv(tr[n].staking) && tr[n].staking.round >= 1 && tr[n].rounds.first <= tr[n].now
    ensures tr[n].rounds.snapshotTimePoint == tr[0].rounds.snapshotTimePoint
  {
    hide Inv, WorldStep, GenesisWorld;
    if n == 0 {
      GenesisFacts(tr[0]);
    } else {
      AlwaysOk(tr, ev, n - 1);
      ClockStep(tr[n - 1], ev[n - 1], tr[n]);
      StakingKept(tr[n - 1], ev[n - 1], tr[n]);
    }
  }

  lemma StakingKept(w: World, e: Event, w': World)
    requires Inv(w.staking) && w.staking.round >= 1 && WorldStep(w, e, w')
    ensures Inv(w'.staking) && w'.staking.round >= w.staking.round
  {
    hide Inv, Panics, Step, IsSelection, AfterOpening, AfterSelection, MayPay, Balanced;
    ClockStep(w, e, w');
    match e {
      case Block(_, _, _, _) => RoundChangeKeepsInv(w.staking, w'.staking);
      case Staking(call) => StepKeeps(w.staking, call, w'.staking);
      case _ =>
    }
  }

  /** A snapshot's total is exactly what its shares are taken of. */
  ghost predicate Whole(x: SequencerSnapshot) {
    x.total == x.bond + SeqSum(x.delegations)
  }

  /** What is recorded for round `r`, seen from the current round. */
  ghost predicate RowOk(w: World, r: RoundIndex) {
    var g, now := w.rounds, w.staking.round;
    && (r > now + 1 ==> Row(g.atStake, r) == map[])
    && (r > now ==> Row(g.awarded, r) == map[] && Get(g.points, r) == 0)
    && (r in g.delayed ==> r < now && Get(g.points, r) > 0 && g.delayed[r].totalStakingReward == ROUND_REWARD)
    && (forall c | c in Row(g.atStake, r) :: Whole(Row(g.atStake, r)[c]) && Proper(c, Row(g.atStake, r)[c]))
  }

  lemma {:induction false} RowsOk(tr: seq<World>, ev: seq<Event>, n: nat, r: RoundIndex)
    requires WorldRun(tr, ev) && n < |tr|
    ensures RowOk(tr[n], r)
  {
    hide Inv, WorldStep, GenesisWorld, RowOk;
    if n == 0 {
      GenesisRow(tr[0], r);
    } else {
      RowsOk(tr, ev, n - 1, r);
      AlwaysOk(tr, ev, n - 1);
      RowsOk(tr, ev, n - 1, tr[n].staking.round);
      RowKept(tr[n - 1], ev[n - 1], tr[n], r);
    }
  }

  lemma GenesisRow(w: World, r: RoundIndex)
    requires GenesisWorld(w)
    ensures RowOk(w, r)
  {
    hide Inv, IsSelection, Rewardable, SeqSum, Distinct, Exposures;
    GenesisFacts(w);
    var topN, sel :| FirstSelection(w, topN, sel);
    ExposedIsSound(w.staking, sel);
  }

  lemma RowKept(w: World, e: Event, w': World, r: RoundIndex)
    requires Inv(w.staking) && w.staking.round >= 1 && WorldStep(w, e, w')
    requires RowOk(w, r) && RowOk(w, w'.staking.round)
    ensures RowOk(w', r)
  {
    hide Inv, WorldStep, SeqSum, Distinct;
    ClockStep(w, e, w');
    StakingKept(w, e, w');
    SnapshotStep(w, e, w', r);
    if TakesSnapshot(e) {
      AddedIsSound(w, e, w'.staking.round);
    }
    if r < w.staking.round {
      PointsStep(w, e, w', r);
    } else {
      FreshStep(w, e, w', r);
    }
  }

  lemma AddedIsSound(w: World, e: Event, round: RoundIndex)
    requires Inv(w.staking) && TakesSnapshot(e) && RowOk(w, round)
    ensures forall c | c in Added(w, e, round) :: Whole(Added(w, e, round)[c]) && Proper(c, Added(w, e, round)[c])
  {
    hide Inv, SeqSum, Rewardable, Distinct;
    if e.chosen.value != [] {
      ExposedIsSound(w.staking, e.chosen.value);
    }
  }

  lemma ExposedIsSound(s: Storage, sel: seq<Account>)
    requires Inv(s)
    ensures forall c | c in Exposures(s, sel) :: Whole(Exposures(s, sel)[c]) && Proper(c, Exposures(s, sel)[c])
  {
    hide Inv, SeqSum, Rewardable, Distinct;
    forall c | c in Exposures(s, sel)
      ensures Proper(c, Exposures(s, sel)[c])
    {
      SnapshotIsProper(s, c);
    }
  }

  /** One step, seen from the points and payouts of the current round and those to come. */
  lemma FreshStep(w: World, e: Event, w': World, r: RoundIndex)
    requires WorldStep(w, e, w') && r >= w.staking.round && RowOk(w, r)
    ensures e.Award? && r == w.staking.round ==>
              && Get(w'.rounds.points, r) == SatPoints(Get(w.rounds.points, r), e.points)
              && Row(w'.rounds.awarded, r) == Row(w.rounds.awarded, r)[e.sequencer :=
                   SatPoints(Get(Row(w.rounds.awarded, r), e.sequencer), e.points)]
              && w'.rounds.delayed == w.rounds.delayed
    ensures !(e.Award? && r == w.staking.round) ==>
              && Get(w'.rounds.points, r) == Get(w.rounds.points, r)
              && Row(w'.rounds.awarded, r) == Row(w.rounds.awarded, r)
    ensures r in w'.rounds.delayed ==>
              && e.Block? && w'.staking.round == r + 1 && Get(w.rounds.points, r) > 0
              && w'.rounds.delayed[r] == DelayedPayout(ROUND_REWARD, e.commission)
  {
    hide Inv, IsSelection, Exposures, Step, Panics, Keyed, MayPay, AfterOpening, AfterSelection;
    match e {
      case Block(topN, commission, paid, chosen) =>
        ClockStep(w, e, w');
        var begun := AfterOpening(w.rounds, w.staking.round, w'.now, commission, paid);
        OpeningRows(w.rounds, w.staking.round, w'.now, commission, paid, r);
        OpenedFresh(w.rounds, w.staking.round, w'.now, commission, paid, r);
        if chosen.Some? {
          SelectionRows(w.staking, begun, w'.staking.round, chosen.value, r);
        }
      case _ =>
    }
  }

  lemma OpenedFresh(g: Rounds, current: RoundIndex, n: BlockNumber, commission: Share, paid: Option<Payment>, r: RoundIndex)
    requires g.first <= n && r >= current && r !in g.delayed
    requires if ShouldUpdate(g, n) then paid == None else MayPay(g, current, paid)
    ensures var g' := AfterOpening(g, current, n, commission, paid);
            r in g'.delayed ==>
              r == current && ShouldUpdate(g, n) && Get(g.points, r) > 0
              && g'.delayed[r] == DelayedPayout(ROUND_REWARD, commission)
  {
    hide MayPay, AfterPayment;
    if !ShouldUpdate(g, n) {
      PaymentRows(g, current, paid, r);
    }
  }

  // Pay at most once

  /** Once a round lies behind, an account without a snapshot for it never gets one. */
  lemma {:induction false} StaysSpent(tr: seq<World>, ev: seq<Event>, r: RoundIndex, c: Account, j: nat, n: nat)
    requires WorldRun(tr, ev) && j <= n < |tr|
    requires r < tr[j].staking.round && c !in Row(tr[j].rounds.atStake, r)
    ensures r < tr[n].staking.round && c !in Row(tr[n].rounds.atStake, r)
    decreases n - j
  {
    hide WorldStep, GenesisWorld, WorldRun;
    if j < n {
      StaysSpent(tr, ev, r, c, j, n - 1);
      RunLength(tr, ev);
      RunStep(tr, ev, n - 1);
      AlwaysOk(tr, ev, n - 1);
      StakingKept(tr[n - 1], ev[n - 1], tr[n]);
      SnapshotStep(tr[n - 1], ev[n - 1], tr[n], r);
    }
  }

  /** No snapshot is paid twice: two payments for the same round go to different sequencers. */
  lemma PaidOnce(tr: seq<World>, ev: seq<Event>, i: nat, j: nat)
    requires WorldRun(tr, ev) && i < j < |ev|
    requires PaidIn(ev[i]).Some? && PaidIn(ev[j]).Some? && PaidIn(ev[i]).value.round == PaidIn(ev[j]).value.round
    ensures PaidIn(ev[i]).value.sequencer != PaidIn(ev[j]).value.sequencer
  {
    hide WorldStep, GenesisWorld, WorldRun;
    var q := PaidIn(ev[i]).value;
    RunLength(tr, ev);
    RunStep(tr, ev, i);
    RunStep(tr, ev, j);
    ClockStep(tr[i], ev[i], tr[i + 1]);
    SnapshotStep(tr[i], ev[i], tr[i + 1], q.round);
    StaysSpent(tr, ev, q.round, q.sequencer, i + 1, j);
    ClockStep(tr[j], ev[j], tr[j + 1]);
  }

  // Draining

  /** How many snapshots of round `r` are still to be paid. */
  function Unpaid(w: World, r: RoundIndex): nat {
    |Row(w.rounds.atStake, r)|
  }

  /**
   While round `r` is due, every block that opens no round consumes one snapshot, and the next one after the last
   clears the payout: the number of blocks so far says exactly how much is left.
   */
  lemma {:induction false} DrainsBlockByBlock(tr: seq<World>, ev: seq<Event>, r: RoundIndex, j: nat, n: nat)
    requires WorldRun(tr, ev) && j <= n < |tr|
    requires r in tr[j].rounds.delayed
    requires r + REWARD_PAYMENT_DELAY == tr[j].staking.round == tr[n].staking.round
    ensures tr[j].now <= tr[n].now
    ensures var blocks := tr[n].now - tr[j].now;
            && Unpaid(tr[n], r) == (if blocks <= Unpaid(tr[j], r) then Unpaid(tr[j], r) - blocks else 0)
            && (r in tr[n].rounds.delayed <==> blocks <= Unpaid(tr[j], r))
            && (r !in tr[n].rounds.delayed ==> Get(tr[n].rounds.points, r) == 0)
    decreases n - j
  {
    hide WorldStep, GenesisWorld, WorldRun, MayPay, Owed;
    if j < n {
      RunLength(tr, ev);
      RunStep(tr, ev, n - 1);
      RoundsGrow(tr, ev, j, n - 1);
      RoundsGrow(tr, ev, n - 1, n);
      DrainsBlockByBlock(tr, ev, r, j, n - 1);
      RowsOk(tr, ev, n - 1, r);
      DrainStep(tr[n - 1], ev[n - 1], tr[n], r);
    }
  }

  lemma {:induction false} RoundsGrow(tr: seq<World>, ev: seq<Event>, j: nat, n: nat)
    requires WorldRun(tr, ev) && j <= n < |tr|
    ensures tr[j].staking.round <= tr[n].staking.round && tr[j].now <= tr[n].now
    decreases n - j
  {
    hide WorldStep, GenesisWorld, WorldRun;
    if j < n {
      RunLength(tr, ev);
      RoundsGrow(tr, ev, j, n - 1);
      RunStep(tr, ev, n - 1);
      ClockStep(tr[n - 1], ev[n - 1], tr[n]);
    }
  }

  lemma DrainStep(w: World, e: Event, w': World, r: RoundIndex)
    requires WorldStep(w, e, w') && RowOk(w, r)
    requires r + REWARD_PAYMENT_DELAY == w.staking.round == w'.staking.round
    ensures w'.now == w.now + (if e.Block? then 1 else 0)
    ensures Unpaid(w', r) ==
            if e.Block? && r in w.rounds.delayed && Unpaid(w, r) > 0 then Unpaid(w, r) - 1 else Unpaid(w, r)
    ensures r in w'.rounds.delayed <==> r in w.rounds.delayed && !(e.Block? && Unpaid(w, r) == 0)
    ensures r !in w'.rounds.delayed && (r !in w.rounds.delayed ==> Get(w.rounds.points, r) == 0) ==>
              Get(w'.rounds.points, r) == 0
  {
    hide WorldStep, SeqSum;
    ClockStep(w, e, w');
    SnapshotStep(w, e, w', r);
    PointsStep(w, e, w', r);
    if e.Block? {
      DueBlockPays(w, e, w', r);
    }
    if PaidIn(e).Some? {
      var m := Row(w.rounds.atStake, r);
      assert (m - {PaidIn(e).value.sequencer}).Keys == m.Keys - {PaidIn(e).value.sequencer};
      KeysCount(m);
      KeysCount(m - {PaidIn(e).value.sequencer});
    }
  }

  lemma KeysCount(m: map<Account, SequencerSnapshot>)
    ensures |m| == |m.Keys|
  {
  }

  lemma DueBlockPays(w: World, e: Event, w': World, r: RoundIndex)
    requires WorldStep(w, e, w') && RowOk(w, r) && e.Block?
    requires r + REWARD_PAYMENT_DELAY == w.staking.round == w'.staking.round
    ensures e.paid.Some? <==> r in w.rounds.delayed && Row(w.rounds.atStake, r) != map[]
    ensures e.paid.Some? ==> e.paid.value.round == r
  {
    hide IsSelection, Exposures, Dues, Panics, AfterOpening, AfterSelection;
    ClockStep(w, e, w');
  }

  /** From the start of its round until its rewards are due, a round's snapshots are left alone. */
  lemma {:induction false} SnapshotsWait(tr: seq<World>, ev: seq<Event>, r: RoundIndex, j: nat, n: nat)
    requires WorldRun(tr, ev) && j <= n < |tr|
    requires r <= tr[j].staking.round && tr[n].staking.round < r + REWARD_PAYMENT_DELAY
    ensures Row(tr[n].rounds.atStake, r) == Row(tr[j].rounds.atStake, r)
    decreases n - j
  {
    hide WorldStep, GenesisWorld, WorldRun, Owed, Row, Added;
    if j < n {
      RunLength(tr, ev);
      RunStep(tr, ev, n - 1);
      RoundsGrow(tr, ev, j, n - 1);
      RoundsGrow(tr, ev, n - 1, n);
      SnapshotsWait(tr, ev, r, j, n - 1);
      ClockStep(tr[n - 1], ev[n - 1], tr[n]);
      SnapshotStep(tr[n - 1], ev[n - 1], tr[n], r);
    }
  }

  /**
   The round in which `r` is due, from its opening by step `i` to its end with step `n`: with L blocks it pays
   L - 1 snapshots, so it drains them iff there are at most L - 1, and clears the payout iff there are fewer.
   */
  lemma DrainedRound(tr: seq<World>, ev: seq<Event>, r: RoundIndex, i: nat, n: nat)
    requires WorldRun(tr, ev) && i < n < |ev|
    requires tr[i].staking.round + 1 == tr[i + 1].staking.round == tr[n].staking.round == r + REWARD_PAYMENT_DELAY
    requires tr[n + 1].staking.round == tr[n].staking.round + 1
    requires r in tr[i + 1].rounds.delayed
    ensures var length, unpaid := tr[n + 1].rounds.first - tr[i + 1].rounds.first, Unpaid(tr[i + 1], r);
            && length >= 1
            && (Unpaid(tr[n], r) == 0 <==> unpaid <= length - 1)
            && (r !in tr[n].rounds.delayed <==> unpaid <= length - 2)
  {
    hide WorldStep, GenesisWorld, WorldRun, Owed;
    RunLength(tr, ev);
    RunStep(tr, ev, i);
    RunStep(tr, ev, n);
    ClockStep(tr[i], ev[i], tr[i + 1]);
    ClockStep(tr[n], ev[n], tr[n + 1]);
    DrainsBlockByBlock(tr, ev, r, i + 1, n);
  }

  /** What is not paid in its round stays unpaid for ever. */
  lemma {:induction false} LeftoverStays(tr: seq<World>, ev: seq<Event>, r: RoundIndex, j: nat, n: nat)
    requires WorldRun(tr, ev) && j <= n < |tr| && r + REWARD_PAYMENT_DELAY < tr[j].staking.round
    ensures Row(tr[n].rounds.atStake, r) == Row(tr[j].rounds.atStake, r)
    ensures r in tr[n].rounds.delayed <==> r in tr[j].rounds.delayed
    decreases n - j
  {
    hide WorldStep, GenesisWorld, WorldRun;
    if j < n {
      RunLength(tr, ev);
      LeftoverStays(tr, ev, r, j, n - 1);
      RunStep(tr, ev, n - 1);
      RoundsGrow(tr, ev, j, n - 1);
      ClockStep(tr[n - 1], ev[n - 1], tr[n]);
      SnapshotStep(tr[n - 1], ev[n - 1], tr[n], r);
      PointsStep(tr[n - 1], ev[n - 1], tr[n], r);
    }
  }

  // One snapshot per round

  /** How many snapshots were taken in round `r` up to state `n`. */
  function SnapshotsIn(tr: seq<World>, ev: seq<Event>, r: RoundIndex, n: nat): nat
    requires n < |tr| && n <= |ev|
  {
    if n == 0 then 0
    else SnapshotsIn(tr, ev, r, n - 1) + if TakesSnapshot(ev[n - 1]) && tr[n].staking.round == r then 1 else 0
  }

  /** The current round has come to its snapshot point. The first round begins without a block of its own. */
  predicate Reached(w: World) {
    w.rounds.first + w.rounds.snapshotTimePoint <= w.now && (w.rounds.snapshotTimePoint > 0 || w.staking.round > 1)
  }

  /** In the current round the snapshot has been taken once if its point was reached, and else not at all. */
  lemma {:induction false} OneSnapshot(tr: seq<World>, ev: seq<Event>, n: nat, r: RoundIndex)
    requires WorldRun(tr, ev) && n < |tr|
    ensures |tr| == |ev| + 1
    ensures r > tr[n].staking.round ==> SnapshotsIn(tr, ev, r, n) == 0
    ensures r == tr[n].staking.round ==> SnapshotsIn(tr, ev, r, n) == if Reached(tr[n]) then 1 else 0
  {
    hide WorldStep, GenesisWorld, WorldRun;
    RunLength(tr, ev);
    if n == 0 {
      GenesisFacts(tr[0]) by { RunGenesis(tr, ev); }
    } else {
      OneSnapshot(tr, ev, n - 1, r);
      RunStep(tr, ev, n - 1);
      AlwaysOk(tr, ev, n - 1);
      ClockStep(tr[n - 1], ev[n - 1], tr[n]);
    }
  }

  lemma RunGenesis(tr: seq<World>, ev: seq<Event>)
    requires WorldRun(tr, ev)
    ensures GenesisWorld(tr[0])
  {
  }

  /**
   A round of L blocks that ends with call `i` took exactly one snapshot if the snapshot point is below L, and
   none otherwise; and that is so for ever.
   */
  lemma {:induction false} EndedRound(tr: seq<World>, ev: seq<Event>, i: nat, n: nat)
    requires WorldRun(tr, ev) && i < n < |tr| && tr[i + 1].staking.round == tr[i].staking.round + 1
    ensures |tr| == |ev| + 1
    ensures var length := tr[i + 1].now - tr[i].rounds.first;
            SnapshotsIn(tr, ev, tr[i].staking.round, n) ==
            if tr[0].rounds.snapshotTimePoint < length && (tr[0].rounds.snapshotTimePoint > 0 || tr[i].staking.round > 1)
            then 1 else 0
    decreases n - i
  {
    hide WorldStep, GenesisWorld, WorldRun;
    RunLength(tr, ev);
    RunStep(tr, ev, n - 1);
    ClockStep(tr[n - 1], ev[n - 1], tr[n]);
    if n == i + 1 {
      OneSnapshot(tr, ev, i, tr[i].staking.round);
      AlwaysOk(tr, ev, i);
    } else {
      EndedRound(tr, ev, i, n - 1);
      RoundsGrow(tr, ev, i + 1, n - 1);
    }
  }

  // The sequencers and their snapshots

  /** At every moment of the run so far, the snapshot point lies within the round. */
  ghost predicate PointFits(tr: seq<World>, n: nat) {
    n < |tr| && forall i | 0 <= i <= n :: 1 <= tr[i].rounds.snapshotTimePoint < tr[i].rounds.length
  }

  /** The round that was last selected for. */
  function LastSelected(w: World): RoundIndex {
    if w.rounds.first + w.rounds.snapshotTimePoint <= w.now then w.staking.round + 1 else w.staking.round
  }

  /** The sequencers selected last are exactly those with snapshots for the round they were selected for. */
  ghost predicate Agrees(w: World) {
    && Row(w.rounds.atStake, LastSelected(w)).Keys == SetOf(w.rounds.selected)
    && (LastSelected(w) == w.staking.round ==> Row(w.rounds.atStake, w.staking.round + 1) == map[])
  }

  lemma {:induction false} SelectionAgrees(tr: seq<World>, ev: seq<Event>, n: nat)
    requires WorldRun(tr, ev) && n < |tr| && PointFits(tr, n)
    ensures Agrees(tr[n])
  {
    hide WorldStep, GenesisWorld, WorldRun, Agrees;
    if n == 0 {
      RunGenesis(tr, ev);
      GenesisAgrees(tr[0]);
    } else {
      SelectionAgrees(tr, ev, n - 1);
      RunLength(tr, ev);
      RunStep(tr, ev, n - 1);
      AlwaysOk(tr, ev, n - 1);
      RowsOk(tr, ev, n - 1, tr[n - 1].staking.round + 2);
      AgreesKept(tr[n - 1], ev[n - 1], tr[n]);
    }
  }

  lemma GenesisAgrees(w: World)
    requires GenesisWorld(w) && w.rounds.snapshotTimePoint >= 1
    ensures Agrees(w)
  {
    hide Inv, IsSelection, SnapshotOf;
    GenesisFacts(w);
    var topN, sel :| FirstSelection(w, topN, sel);
    ExposedAll(w.staking, topN, sel);
    SelectionRows(w.staking, Blank(w.rounds.length), 0, sel, 1);
  }

  lemma ExposedAll(s: Storage, topN: nat, sel: seq<Account>)
    requires Inv(s) && IsSelection(s.pool, topN, sel)
    ensures Exposures(s, sel).Keys == SetOf(sel)
  {
    hide Inv, SnapshotOf;
    forall c | c in sel
      ensures c in s.info && c in s.top && c in SetOf(sel)
    {
      PoolIsOnRecord(s, c);
      var i :| 0 <= i < |sel| && sel[i] == c;
    }
  }

  /** Payments are for past rounds: the snapshots of the current and the next round are only added to. */
  lemma LiveRowStep(w: World, e: Event, w': World, r: RoundIndex)
    requires WorldStep(w, e, w') && r >= w.staking.round
    ensures Row(w'.rounds.atStake, r) == Row(w.rounds.atStake, r) +
            (if TakesSnapshot(e) && r == w'.staking.round + 1 then Added(w, e, w'.staking.round) else map[])
  {
    hide WorldStep, Added, Owed;
    ClockStep(w, e, w');
    SnapshotStep(w, e, w', r);
  }

  lemma AgreesKept(w: World, e: Event, w': World)
    requires Inv(w.staking) && WorldStep(w, e, w') && Agrees(w) && RowOk(w, w.staking.round + 2)
    requires 1 <= w.rounds.snapshotTimePoint < w.rounds.length
    ensures Agrees(w')
  {
    hide Inv, WorldStep, Agrees, Owed, RowOk;
    ClockStep(w, e, w');
    if TakesSnapshot(e) {
      AgreesAfterSnapshot(w, e, w');
    } else if w'.staking.round == w.staking.round {
      AgreesAsBefore(w, e, w');
    } else {
      AgreesInNewRound(w, e, w');
    }
  }

  lemma AgreesAfterSnapshot(w: World, e: Event, w': World)
    requires Inv(w.staking) && WorldStep(w, e, w') && Agrees(w) && TakesSnapshot(e)
    requires 1 <= w.rounds.snapshotTimePoint
    ensures w'.staking.round == w.staking.round ==> Agrees(w')
  {
    hide Inv, WorldStep, Exposures, SetOf, Owed, Row;
    ClockStep(w, e, w');
    LiveRowStep(w, e, w', w'.staking.round + 1);
    SnapshotStep(w, e, w', w'.staking.round + 1);
    ChosenIsSelection(w, e, w');
    EmptySet(e.chosen.value);
  }

  lemma EmptySet(s: seq<Account>)
    ensures s == [] ==> SetOf(s) == {}
  {
  }

  lemma AgreesAsBefore(w: World, e: Event, w': World)
    requires WorldStep(w, e, w') && Agrees(w) && !TakesSnapshot(e) && w'.staking.round == w.staking.round
    ensures Agrees(w')
  {
    hide WorldStep, SetOf, Owed, Row;
    ClockStep(w, e, w');
    LiveRowStep(w, e, w', w.staking.round);
    LiveRowStep(w, e, w', w.staking.round + 1);
    SnapshotStep(w, e, w', w.staking.round);
  }

  lemma AgreesInNewRound(w: World, e: Event, w': World)
    requires WorldStep(w, e, w') && Agrees(w) && !TakesSnapshot(e) && w'.staking.round != w.staking.round
    requires RowOk(w, w.staking.round + 2)
    requires 1 <= w.rounds.snapshotTimePoint < w.rounds.length
    ensures Agrees(w')
  {
    hide WorldStep, SetOf, Owed, Row, RowOk;
    ClockStep(w, e, w');
    LiveRowStep(w, e, w', w.staking.round + 1);
    LiveRowStep(w, e, w', w.staking.round + 2);
    SnapshotStep(w, e, w', w.staking.round + 1);
    NothingBeyond(w);
  }

  lemma NothingBeyond(w: World)
    requires RowOk(w, w.staking.round + 2)
    ensures Row(w.rounds.atStake, w.staking.round + 2) == map[]
  {
  }

  lemma ChosenIsSelection(w: World, e: Event, w': World)
    requires Inv(w.staking) && WorldStep(w, e, w') && TakesSnapshot(e)
    ensures Exposures(w.staking, e.chosen.value).Keys == SetOf(e.chosen.value)
  {
    hide Inv, AfterOpening, AfterSelection, MayPay, Panics, Exposures, SetOf, IsSelection;
    ExposedAll(w.staking, e.topN, e.chosen.value);
  }
}
