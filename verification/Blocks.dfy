/** The beginning of a block with all that the staking pallet sets in motion, grouping included. */
module Blocks {
  import opened Config
  import opened Wrappers
  import opened Bonds
  import opened Sequences
  import opened Storage
  import opened Shares
  import opened Selection
  import opened Rounds
  import opened Grouping

  /** Everybody selected is in one group, and in one only. */
  ghost predicate AllGrouped(groups: seq<seq<Account>>, selected: seq<Account>) {
    forall a | a in selected :: exists k: nat :: OnlyGroupOf(groups, a, k)
  }

  /** The selected sequencers are shuffled into groups, and the processors, if they can take them, serve these next. */
  ghost predicate Grouped(g: Groups, g': Groups, selected: seq<Account>, random: nat, startingBlock: BlockNumber,
                          roundIndex: RoundIndex)
  {
    && |Shuffled(selected, random)| == |selected| && g.groupSize * g.groupNumber <= |selected|
    && g'.members == Split(Shuffled(selected, random), g.groupSize, g.groupNumber)
    && g'.nextRound == if AssignError(g.processors, g.groupNumber) == None then NextRound(startingBlock, roundIndex)
                       else g.nextRound
  }

  /**
   Start block `n`: the hook of the staking pallet, and with a snapshot the grouping of the selected sequencers,
   whose result is ignored. Whenever the sequencers are as many as the groups need, each of them is in exactly one
   group afterwards, even if no processors could be assigned; `AccountInGroup` then answers that group. What the groups
   are for starts with the next round.
   */
  method StartBlock(p: Pallet, g: RoundBook, groups: GroupBook, n: BlockNumber, commission: Share,
                    arranged: seq<Bond>, random: nat)
    returns (ok: bool, paid: Option<Payment>, chosen: Option<seq<Account>>)
    requires Inv(p.View()) && g.first <= n && NoRepeats(g.selected)
    requires var topN := groups.groupSize * groups.groupNumber;
             0 < topN < |p.candidatePool| ==> Arranged(p.candidatePool, topN - 1, arranged)
    modifies p`round, g, groups
    ensures Inv(p.View()) && NoRepeats(g.selected)
    ensures var topN := old(groups.groupSize) * old(groups.groupNumber);
            && Initialized(old(p.View()), old(g.View()), n, topN, commission, paid, chosen, p.View(), g.View())
            && (ok <==> !Panics(old(p.View()), old(g.View()), n, topN)
                        && (chosen.Some? && topN <= |g.selected| ==> GroupsFit(groups.groupSize, groups.groupNumber)))
            && (chosen == None ==> groups.View() == old(groups.View()))
            && (ok && chosen.Some? && |g.selected| == topN ==> AllGrouped(groups.members, g.selected))
            && (ok && chosen.Some? && topN <= |g.selected| ==>
                  Grouped(old(groups.View()), groups.View(), g.selected, random, g.first + g.length, p.round + 1))
            && (chosen.Some? && |g.selected| < topN ==> groups.View() == old(groups.View()))
    ensures groups.groupSize == old(groups.groupSize) && groups.groupNumber == old(groups.groupNumber)
  {
    hide Inv, Initialized, Panics, Arranged, NoRepeats, Shuffled, Split, AssignError;
    var topN := groups.groupSize * groups.groupNumber;
    ghost var s, v := p.View(), g.View();
    var trigger;
    ok, paid, chosen, trigger := OnInitialize(p, g, n, topN, commission, arranged);
    SelectedOnce(s, v, n, topN, commission, paid, chosen, p.View(), g.View());
    if trigger.Some? {
      var grouped, r := TriggerGroup(groups, trigger.value.0, trigger.value.1, trigger.value.2, random);
      ok := ok && grouped;
      if grouped && |g.selected| == topN {
        AllInOneGroup(g.selected, random, groups.groupSize, groups.groupNumber);
      }
    }
  }

  /** No sequencer is ever selected twice. */
  lemma SelectedOnce(s: Storage, g: Rounds, n: BlockNumber, topN: nat, commission: Share, paid: Option<Payment>,
                     chosen: Option<seq<Account>>, s': Storage, g': Rounds)
    requires g.first <= n && NoRepeats(g.selected)
    requires Initialized(s, g, n, topN, commission, paid, chosen, s', g')
    ensures NoRepeats(g'.selected)
  {
    hide Owed, Exposures;
    if chosen.Some? {
      SelectionFillsGroups(s.pool, topN, 1, chosen.value);
    }
  }

  lemma AllInOneGroup(candidates: seq<Account>, random: nat, size: nat, number: nat)
    requires NoRepeats(candidates) && size * number == |candidates|
    ensures |Shuffled(candidates, random)| == |candidates|
    ensures AllGrouped(Split(Shuffled(candidates, random), size, number), candidates)
  {
    hide Shuffled, Split, NoRepeats, OnlyGroupOf;
    ShuffledIsPermutation(candidates, random);
    forall a | a in candidates
      ensures exists k: nat :: OnlyGroupOf(Split(Shuffled(candidates, random), size, number), a, k)
    {
      var k := ExactlyOneGroup(candidates, random, size, number, a);
    }
  }
}
