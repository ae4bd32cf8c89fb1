/** Staking and rounds together, as blocks, dispatchables and awards change them; and what every such step keeps. */
module World {
  import opened Config
  import opened Wrappers
  import opened Sums
  import opened Bonds
  import opened Storage
  import opened Accounting
  import opened Shares
  import opened Snapshots
  import opened Payouts
  import opened Selection
  import opened Rounds
  import opened Dispatch
  import opened Effects

  datatype World = World(staking: Storage, rounds: Rounds, now: BlockNumber)

  datatype Event =
    | Block(topN: nat, commission: Share, paid: Option<Payment>, chosen: Option<seq<Account>>)
    | Staking(call: Call)
    | Award(sequencer: Account, points: nat)
    | SetBlocks(blocks: nat, totalSelected: nat)

  ghost predicate WorldStep(w: World, e: Event, w': World) {
    && w.rounds.first <= w.now
    && match e
       case Block(topN, commission, paid, chosen) =>
         && w'.now == w.now + 1
         && !Panics(w.staking, w.rounds, w'.now, topN)
         && Initialized(w.staking, w.rounds, w'.now, topN, commission, paid, chosen, w'.staking, w'.rounds)
       case Staking(call) =>
         call != NextRound && Step(w.staking, call, w'.staking) && w' == w.(staking := w'.staking)
       case Award(c, points) => w' == w.(rounds := PointsAwarded(w.rounds, w.staking.round, c, points))
       case SetBlocks(blocks, totalSelected) =>
         w' == w.(rounds := w.rounds.(length :=
                    if SetBlocksError(w.rounds, blocks, totalSelected).None? then blocks else w.rounds.length))
  }

  /** The consumed snapshot of this step, if there is one. */
  function PaidIn(e: Event): Option<Payment> {
    if e.Block? then e.paid else None
  }

  predicate TakesSnapshot(e: Event) {
    e.Block? && e.chosen.Some?
  }

  /** The state as the snapshot of this step finds it, and what it adds. */
  ghost function Added(w: World, e: Event, round: RoundIndex): map<Account, SequencerSnapshot>
    requires TakesSnapshot(e)
  {
    if e.chosen.value == [] then Row(w.rounds.atStake, round) else Exposures(w.staking, e.chosen.value)
  }

  // What a step does to the clock

  lemma ClockStep(w: World, e: Event, w': World)
    requires WorldStep(w, e, w')
    ensures w'.rounds.first <= w'.now && w'.rounds.snapshotTimePoint == w.rounds.snapshotTimePoint
    ensures !e.Block? ==> w'.now == w.now && w'.rounds.first == w.rounds.first && w'.staking.round == w.staking.round
    ensures e.Block? ==>
              && w'.now == w.now + 1
              && (if w'.now - w.rounds.first >= w.rounds.length
                  then w'.staking.round == w.staking.round + 1 && w'.rounds.first == w'.now && e.paid == None
                  else w'.staking.round == w.staking.round && w'.rounds.first == w.rounds.first)
              && w'.rounds.length == w.rounds.length
              && (e.chosen.Some? <==> w'.now - w'.rounds.first == w.rounds.snapshotTimePoint)
    ensures PaidIn(e).Some? ==>
              && PaidIn(e).value.round + REWARD_PAYMENT_DELAY == w.staking.round == w'.staking.round
              && PaidIn(e).value.sequencer in Row(w.rounds.atStake, PaidIn(e).value.round)
              && PaidIn(e).value.round in w.rounds.delayed
              && Owed(w.rounds, PaidIn(e).value.round, w.rounds.delayed[PaidIn(e).value.round], PaidIn(e).value)
  {
    hide IsSelection, Exposures, Step, Panics, Keyed, Initialized, Owed, RoundAt, ShouldUpdate, ShouldSnapshot;
    match e {
      case Block(topN, commission, paid, chosen) =>
        BlockClock(w, e, w');
        if paid.Some? {
          PaidClock(w, e, w');
        }
      case Staking(call) =>
        assert Keyed(w.staking) by { StepKeyed(w.staking, call, w'.staking); }
        RoundAfter(w.staking, call, w'.staking);
      case _ =>
    }
  }

  lemma BlockClock(w: World, e: Event, w': World)
    requires WorldStep(w, e, w') && e.Block?
    ensures w'.rounds.first <= w'.now && w'.rounds.snapshotTimePoint == w.rounds.snapshotTimePoint
    ensures if w'.now - w.rounds.first >= w.rounds.length
            then w'.staking.round == w.staking.round + 1 && w'.rounds.first == w'.now && e.paid == None
            else w'.staking.round == w.staking.round && w'.rounds.first == w.rounds.first
    ensures w'.rounds.length == w.rounds.length
    ensures e.chosen.Some? <==> w'.now - w'.rounds.first == w.rounds.snapshotTimePoint
  {
    hide IsSelection, Exposures, Panics, MayPay, AfterOpening, AfterSelection;
    var begun := AfterOpening(w.rounds, w.staking.round, w'.now, e.commission, e.paid);
    OpeningClock(w.rounds, w.staking.round, w'.now, e.commission, e.paid);
    if e.chosen.Some? {
      SelectionClock(w.staking, begun, w'.staking.round, e.chosen.value);
    }
  }

  lemma OpeningClock(g: Rounds, current: RoundIndex, n: BlockNumber, commission: Share, paid: Option<Payment>)
    requires g.first <= n
    ensures var g' := AfterOpening(g, current, n, commission, paid);
            && g'.first == (if n - g.first >= g.length then n else g.first)
            && g'.length == g.length && g'.snapshotTimePoint == g.snapshotTimePoint
  {
  }

  lemma SelectionClock(s: Storage, g: Rounds, current: RoundIndex, sel: seq<Account>)
    ensures var g' := AfterSelection(s, g, current, sel);
            g'.first == g.first && g'.length == g.length && g'.snapshotTimePoint == g.snapshotTimePoint
  {
    hide Exposures;
  }

  /** A block that pays opens no round, and pays what the round a delay ago still owes. */
  lemma PaidClock(w: World, e: Event, w': World)
    requires WorldStep(w, e, w') && e.Block? && e.paid.Some?
    ensures var q := e.paid.value;
            && q.round + REWARD_PAYMENT_DELAY == w.staking.round == w'.staking.round
            && q.sequencer in Row(w.rounds.atStake, q.round)
            && q.round in w.rounds.delayed
            && Owed(w.rounds, q.round, w.rounds.delayed[q.round], q)
  {
    hide IsSelection, Panics, AfterOpening, AfterSelection, Dues;
  }

  lemma StepKeyed(s: Storage, call: Call, s': Storage)
    requires Step(s, call, s')
    ensures Keyed(s)
  {
  }

  // What a step does to the snapshots, points and payouts of one round

  /** Whose snapshot of round `r` is consumed. */
  function Spent(paid: Option<Payment>, r: RoundIndex): set<Account> {
    if paid.Some? && paid.value.round == r then {paid.value.sequencer} else {}
  }

  lemma PaymentRows(g: Rounds, now: RoundIndex, paid: Option<Payment>, r: RoundIndex)
    requires MayPay(g, now, paid)
    ensures var g' := AfterPayment(g, now, paid);
            && Row(g'.atStake, r) == Row(g.atStake, r) - Spent(paid, r)
            && Row(g'.awarded, r) == Row(g.awarded, r) - Spent(paid, r)
            && g'.selected == g.selected
            && (if r in g.delayed && r + REWARD_PAYMENT_DELAY == now && paid == None
                then r !in g'.delayed && Get(g'.points, r) == 0
                     && (Get(g.points, r) == 0 || Row(g.atStake, r) == map[])
                else Get(g'.points, r) == Get(g.points, r) && (r in g'.delayed <==> r in g.delayed)
                     && (r in g.delayed ==> g'.delayed[r] == g.delayed[r]))
  {
    hide Dues;
  }

  lemma SelectionRows(s: Storage, g: Rounds, current: RoundIndex, sel: seq<Account>, r: RoundIndex)
    ensures var g' := AfterSelection(s, g, current, sel);
            && Row(g'.atStake, r) == Row(g.atStake, r) +
               (if r == current + 1 then if sel == [] then Row(g.atStake, current) else Exposures(s, sel) else map[])
            && g'.selected == (if sel == [] then g.selected else sel)
            && g'.awarded == g.awarded && g'.points == g.points && g'.delayed == g.delayed
  {
    hide Exposures;
  }

  /** The round change, or else the payment, of a block; seen from one round. */
  lemma OpeningRows(g: Rounds, current: RoundIndex, n: BlockNumber, commission: Share, paid: Option<Payment>, r: RoundIndex)
    requires g.first <= n && (if ShouldUpdate(g, n) then paid == None else MayPay(g, current, paid))
    ensures var g' := AfterOpening(g, current, n, commission, paid);
            && Row(g'.atStake, r) == Row(g.atStake, r) - Spent(paid, r)
            && Row(g'.awarded, r) == Row(g.awarded, r) - Spent(paid, r)
            && g'.selected == g.selected
            && (if !ShouldUpdate(g, n) && r in g.delayed && r + REWARD_PAYMENT_DELAY == current && paid == None
                then r !in g'.delayed && Get(g'.points, r) == 0
                     && (Get(g.points, r) == 0 || Row(g.atStake, r) == map[])
                else Get(g'.points, r) == Get(g.points, r)
                     && (r != current || !ShouldUpdate(g, n) ==> (r in g'.delayed <==> r in g.delayed)
                                                                  && (r in g.delayed ==> g'.delayed[r] == g.delayed[r])))
  {
    hide MayPay, AfterPayment;
    if !ShouldUpdate(g, n) {
      PaymentRows(g, current, paid, r);
    }
  }

  /** One step, seen from the snapshots of one round. */
  lemma SnapshotStep(w: World, e: Event, w': World, r: RoundIndex)
    requires WorldStep(w, e, w')
    ensures Row(w'.rounds.atStake, r) == Row(w.rounds.atStake, r) - Spent(PaidIn(e), r) +
            (if TakesSnapshot(e) && r == w'.staking.round + 1 then Added(w, e, w'.staking.round) else map[])
    ensures w'.rounds.selected ==
            if TakesSnapshot(e) && e.chosen.value != [] then e.chosen.value else w.rounds.selected
  {
    hide IsSelection, Exposures, Step, Panics, Keyed, MayPay, AfterOpening, AfterSelection;
    match e {
      case Block(topN, commission, paid, chosen) =>
        ClockStep(w, e, w');
        var begun := AfterOpening(w.rounds, w.staking.round, w'.now, commission, paid);
        OpeningRows(w.rounds, w.staking.round, w'.now, commission, paid, r);
        OpeningRows(w.rounds, w.staking.round, w'.now, commission, paid, w'.staking.round);
        if chosen.Some? {
          SelectionRows(w.staking, begun, w'.staking.round, chosen.value, r);
        }
      case _ =>
    }
  }

  /** One step, seen from the points and the payout of one past round. */
  lemma PointsStep(w: World, e: Event, w': World, r: RoundIndex)
    requires WorldStep(w, e, w') && r < w.staking.round
    ensures Row(w'.rounds.awarded, r) == Row(w.rounds.awarded, r) - Spent(PaidIn(e), r)
    ensures if e.Block? && r in w.rounds.delayed && r + REWARD_PAYMENT_DELAY == w.staking.round == w'.staking.round
               && e.paid == None
            then r !in w'.rounds.delayed && Get(w'.rounds.points, r) == 0
                 && (Get(w.rounds.points, r) == 0 || Row(w.rounds.atStake, r) == map[])
            else Get(w'.rounds.points, r) == Get(w.rounds.points, r)
                 && (r in w'.rounds.delayed <==> r in w.rounds.delayed)
                 && (r in w.rounds.delayed ==> w'.rounds.delayed[r] == w.rounds.delayed[r])
  {
    hide IsSelection, Exposures, Step, Panics, Keyed, MayPay, AfterOpening, AfterSelection;
    match e {
      case Block(topN, commission, paid, chosen) =>
        ClockStep(w, e, w');
        var begun := AfterOpening(w.rounds, w.staking.round, w'.now, commission, paid);
        OpeningRows(w.rounds, w.staking.round, w'.now, commission, paid, r);
        if chosen.Some? {
          SelectionRows(w.staking, begun, w'.staking.round, chosen.value, r);
        }
      case Staking(call) =>
      case _ =>
    }
  }

  /** On the staking side, a block that opens a round is the passing of a round, and other blocks are nothing. */
  lemma StakingSide(w: World, e: Event, w': World)
    requires WorldStep(w, e, w') && Keyed(w.staking)
    ensures w'.staking == w.staking
            || Step(w.staking, if e.Staking? then e.call else NextRound, w'.staking)
  {
    hide Step, Panics, MayPay, AfterOpening, AfterSelection, IsSelection, Keyed;
    match e {
      case Block(_, _, _, _) =>
        if ShouldUpdate(w.rounds, w'.now) {
          RoundIsStep(w.staking, w'.staking);
        }
      case _ =>
    }
  }

  lemma RoundIsStep(s: Storage, s': Storage)
    requires Keyed(s) && s' == s.(round := s.round + 1)
    ensures Step(s, NextRound, s')
  {
    hide Keyed;
  }
}
