/** The round machine: round changes, snapshots of the next sequencers, and delayed rewards, block by block. */
module Rounds {
  import opened Config
  import opened Wrappers
  import opened Sums
  import opened Bonds
  import opened Tiers
  import opened Book
  import opened Storage
  import opened Accounting
  import opened Shares
  import opened Snapshots
  import opened Payouts
  import opened Selection

  /** The storage items of the round machine as one value; the round's index is `Storage.round`. */
  datatype Rounds = Rounds(
    first: BlockNumber,
    length: nat,
    snapshotTimePoint: nat,
    points: map<RoundIndex, nat>,
    awarded: map<RoundIndex, map<Account, nat>>,
    delayed: map<RoundIndex, DelayedPayout>,
    atStake: map<RoundIndex, map<Account, SequencerSnapshot>>,
    selected: seq<Account>)

  class RoundBook {
    var first: BlockNumber
    var length: nat
    var snapshotTimePoint: nat
    var points: map<RoundIndex, nat>
    var awarded: map<RoundIndex, map<Account, nat>>
    var delayed: map<RoundIndex, DelayedPayout>
    var atStake: map<RoundIndex, map<Account, SequencerSnapshot>>
    var selected: seq<Account>

    ghost function View(): Rounds
      reads this
    {
      Rounds(first, length, snapshotTimePoint, points, awarded, delayed, atStake, selected)
    }
  }

  /** What a double map holds under its first key. */
  function Row<T>(m: map<RoundIndex, map<Account, T>>, r: RoundIndex): map<Account, T> {
    if r in m then m[r] else map[]
  }

  function Dropped<T>(m: map<RoundIndex, map<Account, T>>, r: RoundIndex, c: Account): map<RoundIndex, map<Account, T>> {
    m[r := Row(m, r) - {c}]
  }

  // Points

  function SatPoints(x: nat, y: nat): nat {
    if x + y <= MAX_POINTS then x + y else MAX_POINTS
  }

  ghost function PointsAwarded(g: Rounds, now: RoundIndex, c: Account, points: nat): Rounds {
    var row := Row(g.awarded, now);
    g.(awarded := g.awarded[now := row[c := SatPoints(Get(row, c), points)]],
    points := g.points[now := SatPoints(Get(g.points, now), points)])
  }

  /** Reward points for the current round. */
  method AwardPointsToSequencer(p: Pallet, g: RoundBook, sequencer: Account, points: nat)
    modifies g`awarded, g`points
    ensures g.View() == PointsAwarded(old(g.View()), p.round, sequencer, points)
  {
    var now := p.round;
    var row := Row(g.awarded, now);
    var totalPoints := SatPoints(Get(row, sequencer), points);
    g.awarded := g.awarded[now := row[sequencer := totalPoints]];
    g.points := g.points[now := SatPoints(Get(g.points, now), points)];
  }

  // Payouts

  datatype RewardPayment = Paid | Skipped | Finished

  /** One snapshot consumed: whose, for which round, with how many points, and the transfers that follow. */
  datatype Payment = Payment(round: RoundIndex, sequencer: Account, points: nat, snapshot: SequencerSnapshot,
                             dues: seq<Bond>)

  /** The payout of an ended round is noted if anybody earned points. */
  ghost function Prepared(g: Rounds, ended: RoundIndex, commission: Share): Rounds {
    if Get(g.points, ended) == 0 then g
    else g.(delayed := g.delayed[ended := DelayedPayout(ROUND_REWARD, commission)])
  }

  method PrepareStakingPayouts(g: RoundBook, now: RoundIndex, commission: Share)
    requires now >= 1
    modifies g`delayed
    ensures g.View() == Prepared(old(g.View()), now - 1, commission)
  {
    var preparePayoutForRound := now - 1;
    if Get(g.points, preparePayoutForRound) == 0 {
      return;
    }
    g.delayed := g.delayed[preparePayoutForRound := DelayedPayout(ROUND_REWARD, commission)];
  }

  /** The payment is one that round `r` still owes. */
  ghost predicate Owed(g: Rounds, r: RoundIndex, info: DelayedPayout, q: Payment) {
    && q.round == r
    && q.sequencer in Row(g.atStake, r) && q.snapshot == Row(g.atStake, r)[q.sequencer]
    && q.points == Get(Row(g.awarded, r), q.sequencer)
    && Get(g.points, r) > 0
    && q.dues == if q.points == 0 then [] else Dues(q.sequencer, q.snapshot, q.points, Get(g.points, r), info)
  }

  ghost function Consumed(g: Rounds, q: Payment): Rounds {
    g.(atStake := Dropped(g.atStake, q.round, q.sequencer), awarded := Dropped(g.awarded, q.round, q.sequencer))
  }

  /** Pay a single sequencer of the given round, whichever the storage iterator yields first. */
  method PayOneSequencerReward(g: RoundBook, paidForRound: RoundIndex, info: DelayedPayout)
    returns (result: RewardPayment, paid: Option<Payment>)
    modifies g`atStake, g`awarded
    ensures result == Finished <==> paid == None
    ensures paid == None <==> Get(old(g.points), paidForRound) == 0 || Row(old(g.atStake), paidForRound) == map[]
    ensures paid == None ==> g.View() == old(g.View())
    ensures paid.Some? ==>
              && Owed(old(g.View()), paidForRound, info, paid.value)
              && g.View() == Consumed(old(g.View()), paid.value)
              && (result == Skipped <==> paid.value.points == 0)
  {
    var totalPoints := Get(g.points, paidForRound);
    if totalPoints == 0 {
      return Finished, None;
    }
    var row := Row(g.atStake, paidForRound);
    if row == map[] {
      return Finished, None;
    }
    var sequencer :| sequencer in row;
    var state := row[sequencer];
    g.atStake := Dropped(g.atStake, paidForRound, sequencer);
    var pts := Get(Row(g.awarded, paidForRound), sequencer);
    g.awarded := Dropped(g.awarded, paidForRound, sequencer);
    if pts == 0 {
      return Skipped, Some(Payment(paidForRound, sequencer, 0, state, []));
    }
    var dues := PayRewards(sequencer, state, pts, totalPoints, info);
    return Paid, Some(Payment(paidForRound, sequencer, pts, state, dues));
  }

  /** The round whose rewards are paid in round `now`, if they are still to be paid. */
  function PayingRound(g: Rounds, now: RoundIndex): Option<RoundIndex> {
    if REWARD_PAYMENT_DELAY <= now && now - REWARD_PAYMENT_DELAY in g.delayed then Some(now - REWARD_PAYMENT_DELAY) else None
  }

  /** What a block that opens no round may pay. */
  ghost predicate MayPay(g: Rounds, now: RoundIndex, paid: Option<Payment>) {
    match PayingRound(g, now)
    case None => paid == None
    case Some(r) =>
      if Get(g.points, r) == 0 || Row(g.atStake, r) == map[] then paid == None
      else paid.Some? && Owed(g, r, g.delayed[r], paid.value)
  }

  ghost function AfterPayment(g: Rounds, now: RoundIndex, paid: Option<Payment>): Rounds {
    match PayingRound(g, now)
    case None => g
    case Some(r) =>
      match paid
      case None => g.(delayed := g.delayed - {r}, points := g.points - {r})
      case Some(q) => Consumed(g, q)
  }

  /** One payment per block, and the clean-up when nothing is left to pay. */
  method HandleDelayedPayouts(g: RoundBook, now: RoundIndex) returns (paid: Option<Payment>)
    modifies g`atStake, g`awarded, g`delayed, g`points
    ensures MayPay(old(g.View()), now, paid)
    ensures g.View() == AfterPayment(old(g.View()), now, paid)
  {
    var delay := REWARD_PAYMENT_DELAY;
    if now < delay {
      return None;
    }
    var paidForRound := now - delay;
    if paidForRound !in g.delayed {
      return None;
    }
    var result;
    result, paid := PayOneSequencerReward(g, paidForRound, g.delayed[paidForRound]);
    if result == Finished {
      g.delayed := g.delayed - {paidForRound};
      g.points := g.points - {paidForRound};
    }
  }

  // Snapshots

  ghost function Exposures(s: Storage, sel: seq<Account>): map<Account, SequencerSnapshot> {
    map c | c in sel && c in s.info && c in s.top :: SnapshotOf(s, c)
  }

  /** The round after `current` gets the snapshots of the selection, or of the current round if there is none. */
  ghost function AfterSelection(s: Storage, g: Rounds, current: RoundIndex, sel: seq<Account>): Rounds {
    var next := current + 1;
    if sel == [] then g.(atStake := g.atStake[next := Row(g.atStake, next) + Row(g.atStake, current)])
    else g.(atStake := g.atStake[next := Row(g.atStake, next) + Exposures(s, sel)], selected := sel)
  }

  /** All sequencers of the current round have snapshots to fall back on. */
  ghost predicate AllHaveSnapshots(g: Rounds, current: RoundIndex) {
    forall c | c in g.selected :: c in Row(g.atStake, current)
  }

  /** Copy the snapshots of the current round; the source expects one of every selected candidate, and panics without. */
  method CopySnapshots(g: RoundBook, current: RoundIndex) returns (ok: bool)
    modifies g`atStake
    ensures ok <==> AllHaveSnapshots(old(g.View()), current)
    ensures g.View() == old(g.View()).(atStake :=
              old(g.atStake)[current + 1 := Row(old(g.atStake), current + 1) + Row(old(g.atStake), current)])
  {
    var from := Row(g.atStake, current);
    var left := from.Keys;
    var copied: map<Account, SequencerSnapshot> := map[];
    while left != {}
      invariant left <= from.Keys
      invariant copied == map c | c in from.Keys - left :: from[c]
      decreases left
    {
      var account :| account in left;
      copied := copied[account := from[account]];
      left := left - {account};
    }
    assert copied == from;
    var to := Row(g.atStake, current + 1) + copied;
    g.atStake := g.atStake[current + 1 := to];
    ok := true;
    for i := 0 to |g.selected|
      invariant ok <==> forall k | 0 <= k < i :: g.selected[k] in from
    {
      if g.selected[i] !in from {
        ok := false;
      }
    }
  }

  /** Everybody in the pool is a candidate on record, and active: nobody idle or leaving can be selected. */
  lemma PoolIsOnRecord(s: Storage, c: Account)
    requires Inv(s) && HasOwner(s.pool, c)
    ensures c in s.info && c in s.top && s.info[c].status == Active
  {
    hide TierOk, Backers, MoneyOk, ToMap;
    ToMapOwners(s.pool);
    assert c in ActiveStakes(s.info);
  }

  /** Select the next round's sequencers and take their snapshots; `ok` is false where the source panics. */
  method SelectTopCandidates(p: Pallet, g: RoundBook, current: RoundIndex, topN: nat, arranged: seq<Bond>)
    returns (ok: bool, sequencers: seq<Account>)
    requires Inv(p.View())
    requires 0 < topN < |p.candidatePool| ==> Arranged(p.candidatePool, topN - 1, arranged)
    modifies g`atStake, g`selected
    ensures IsSelection(p.candidatePool, topN, sequencers)
    ensures ok <==> sequencers != [] || AllHaveSnapshots(old(g.View()), current)
    ensures g.View() == AfterSelection(p.View(), old(g.View()), current, sequencers)
  {
    hide Inv, SnapshotOf;
    ghost var s, v := p.View(), g.View();
    PoolInOrder(s);
    sequencers := ComputeTopCandidates(p.candidatePool, topN, arranged);
    if sequencers == [] {
      ok := CopySnapshots(g, current);
      return ok, sequencers;
    }
    var next := current + 1;
    var taken: map<Account, SequencerSnapshot> := map[];
    for i := 0 to |sequencers|
      invariant taken == Exposures(s, sequencers[..i])
      invariant g.View() == v
    {
      var account := sequencers[i];
      PoolIsOnRecord(s, account);
      var snapshot := TakeSnapshot(p, account);
      taken := taken[account := snapshot];
      assert sequencers[..i + 1] == sequencers[..i] + [account];
    }
    assert sequencers[..|sequencers|] == sequencers;
    g.atStake := g.atStake[next := Row(g.atStake, next) + taken];
    assert |sequencers| <= MAX_CANDIDATES;
    g.selected := sequencers;
    ok := true;
  }

  lemma PoolInOrder(s: Storage)
    requires Inv(s)
    ensures SortedByOwner(s.pool) && |s.pool| <= MAX_CANDIDATES
  {
  }

  // The hook

  predicate ShouldUpdate(g: Rounds, n: BlockNumber)
    requires g.first <= n
  {
    n - g.first >= g.length
  }

  predicate ShouldSnapshot(g: Rounds, n: BlockNumber)
    requires g.first <= n
  {
    n - g.first == g.snapshotTimePoint
  }

  /** The round change, or else the payment, that block `n` starts with. */
  ghost function AfterOpening(g: Rounds, current: RoundIndex, n: BlockNumber, commission: Share, paid: Option<Payment>)
    : Rounds
    requires g.first <= n
  {
    if ShouldUpdate(g, n) then Prepared(g.(first := n), current, commission)
    else AfterPayment(g, current, paid)
  }

  function RoundAt(g: Rounds, current: RoundIndex, n: BlockNumber): RoundIndex
    requires g.first <= n
  {
    if ShouldUpdate(g, n) then current + 1 else current
  }

  /** What block `n` does; `chosen` is the selection, if it takes the snapshot. */
  ghost predicate Initialized(s: Storage, g: Rounds, n: BlockNumber, topN: nat, commission: Share,
                              paid: Option<Payment>, chosen: Option<seq<Account>>, s': Storage, g': Rounds)
    requires g.first <= n
  {
    var current := RoundAt(g, s.round, n);
    var begun := AfterOpening(g, s.round, n, commission, paid);
    && (if ShouldUpdate(g, n) then paid == None else MayPay(g, s.round, paid))
    && s' == s.(round := current)
    && begun.first <= n
    && (chosen.Some? <==> ShouldSnapshot(begun, n))
    && match chosen
       case None => g' == begun
       case Some(sel) => IsSelection(s.pool, topN, sel) && g' == AfterSelection(s, begun, current, sel)
  }

  /** Block `n` cannot be built: the fall-back meets a selected candidate without a snapshot. */
  ghost predicate Panics(s: Storage, g: Rounds, n: BlockNumber, topN: nat)
    requires g.first <= n
  {
    && ShouldSnapshot(g.(first := if ShouldUpdate(g, n) then n else g.first), n)
    && (topN == 0 || s.pool == [])
    && !AllHaveSnapshots(g, RoundAt(g, s.round, n))
  }

  /** Change the round if it is time to, or else pay. */
  method OpenBlock(p: Pallet, g: RoundBook, n: BlockNumber, commission: Share) returns (paid: Option<Payment>)
    requires g.first <= n
    modifies p`round, g
    ensures var s, v := old(p.View()), old(g.View());
            && (if ShouldUpdate(v, n) then paid == None else MayPay(v, s.round, paid))
            && p.View() == s.(round := RoundAt(v, s.round, n))
            && g.View() == AfterOpening(v, s.round, n, commission, paid)
            && g.View() == v.(first := if ShouldUpdate(v, n) then n else v.first, delayed := g.delayed,
                              points := g.points, atStake := g.atStake, awarded := g.awarded)
            && Row(g.atStake, p.round) == Row(v.atStake, p.round)
  {
    hide MayPay, AfterPayment;
    ghost var s, v := p.View(), g.View();
    paid := None;
    if n - g.first >= g.length {
      p.round := p.round + 1;
      g.first := n;
      PrepareStakingPayouts(g, p.round, commission);
    } else {
      paid := HandleDelayedPayouts(g, p.round);
      PaymentSparesSnapshots(v, s.round, paid);
    }
  }

  /** Start block `n`; `trigger` is what the grouping pallet is called with. */
  method OnInitialize(p: Pallet, g: RoundBook, n: BlockNumber, topN: nat, commission: Share, arranged: seq<Bond>)
    returns (ok: bool, paid: Option<Payment>, chosen: Option<seq<Account>>,
             trigger: Option<(seq<Account>, BlockNumber, RoundIndex)>)
    requires Inv(p.View()) && g.first <= n
    requires 0 < topN < |p.candidatePool| ==> Arranged(p.candidatePool, topN - 1, arranged)
    modifies p`round, g
    ensures Inv(p.View())
    ensures Initialized(old(p.View()), old(g.View()), n, topN, commission, paid, chosen, p.View(), g.View())
    ensures ok <==> !Panics(old(p.View()), old(g.View()), n, topN)
    ensures trigger == if chosen.Some? then Some((g.selected, g.first + g.length, p.round + 1)) else None
  {
    hide Inv, IsSelection, Arranged, MayPay, AfterOpening, AfterSelection;
    ghost var s, v := p.View(), g.View();
    chosen, trigger, ok := None, None, true;
    paid := OpenBlock(p, g, n, commission);
    RoundChangeKeepsInv(s, p.View());
    if n - g.first == g.snapshotTimePoint {
      ghost var begun := g.View();
      var sequencers;
      ok, sequencers := SelectTopCandidates(p, g, p.round, topN, arranged);
      EmptySelection(p.candidatePool, topN, sequencers);
      SelectionSparesClock(p.View(), begun, p.round, sequencers);
      SnapshotsIgnoreRound(s, p.View(), begun, p.round, sequencers);
      chosen := Some(sequencers);
      trigger := Some((g.selected, g.first + g.length, p.round + 1));
    }
  }

  lemma SnapshotsIgnoreRound(s: Storage, s': Storage, g: Rounds, current: RoundIndex, sel: seq<Account>)
    requires s' == s.(round := s'.round)
    ensures AfterSelection(s', g, current, sel) == AfterSelection(s, g, current, sel)
  {
    hide Rewardable, SeqSum;
    assert Exposures(s', sel) == Exposures(s, sel);
  }

  /** Rewards are paid for past rounds, so the snapshots of the current one are not touched. */
  lemma PaymentSparesSnapshots(g: Rounds, now: RoundIndex, paid: Option<Payment>)
    requires MayPay(g, now, paid)
    ensures var g' := AfterPayment(g, now, paid);
            && Row(g'.atStake, now) == Row(g.atStake, now) && Row(g'.atStake, now + 1) == Row(g.atStake, now + 1)
            && g' == g.(delayed := g'.delayed, points := g'.points, atStake := g'.atStake, awarded := g'.awarded)
  {
  }

  lemma RoundChangeKeepsInv(s: Storage, s': Storage)
    requires Inv(s) && s' == s.(round := s'.round)
    ensures Inv(s')
  {
    hide TierOk, Backers, BookOk, Sum, ToMap, SortedByOwner, ActiveStakes;
    assert BookOf(s').backing == BookOf(s).backing;
    assert Stakes(s') == Stakes(s);
  }

  lemma EmptySelection(pool: seq<Bond>, n: nat, sel: seq<Account>)
    requires IsSelection(pool, n, sel)
    ensures sel == [] <==> n == 0 || pool == []
  {
  }

  lemma SelectionSparesClock(s: Storage, g: Rounds, current: RoundIndex, sel: seq<Account>)
    ensures var g' := AfterSelection(s, g, current, sel);
            g' == g.(atStake := g'.atStake, selected := g'.selected)
  {
  }

  // Changing the length of rounds

  datatype LengthError = CannotSetBelowMin | NoWritingSameValue | RoundLengthMustBeGreaterThanTotalSelectedSequencers

  function SetBlocksError(g: Rounds, blocks: nat, totalSelected: nat): Option<LengthError> {
    if blocks < MIN_BLOCKS_PER_ROUND then Some(CannotSetBelowMin)
    else if blocks == g.length then Some(NoWritingSameValue)
    else if blocks <= totalSelected then Some(RoundLengthMustBeGreaterThanTotalSelectedSequencers)
    else None
  }

  /** Set the number of blocks per round, from the current round on. The snapshot point stays. */
  method SetBlocksPerRound(g: RoundBook, blocks: nat, totalSelected: nat) returns (r: Outcome<LengthError>)
    modifies g`length
    ensures r == match SetBlocksError(old(g.View()), blocks, totalSelected) case None => Pass case Some(e) => Fail(e)
    ensures g.View() == old(g.View()).(length := if r.Pass? then blocks else old(g.length))
  {
    if blocks < MIN_BLOCKS_PER_ROUND {
      return Fail(CannotSetBelowMin);
    }
    if g.length == blocks {
      return Fail(NoWritingSameValue);
    }
    if blocks <= totalSelected {
      return Fail(RoundLengthMustBeGreaterThanTotalSelectedSequencers);
    }
    g.length := blocks;
    r := Pass;
  }
}
