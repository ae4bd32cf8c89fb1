/** Grouping the selected sequencers: shuffle, partition, and the processors that serve the groups. */
module Grouping {
  import opened Config
  import opened Wrappers
  import opened Bonds
  import opened Selection
  import opened Sequences

  datatype GroupingError =
    CandidatesNotEnough | GroupSizeTooLarge | GroupNumberTooLarge | AccountNotInGroup | TooManyProcessors | NoProcessors

  datatype NextRound = NextRound(startingBlock: BlockNumber, roundIndex: RoundIndex)

  datatype Processor = Processor(account: Account, ipAddress: string, groups: seq<nat>)

  datatype Groups = Groups(members: seq<seq<Account>>, nextRound: NextRound, groupSize: nat, groupNumber: nat,
                           processors: seq<Processor>)

  // The shuffle

  function Swapped(s: seq<Account>, i: nat, j: nat): seq<Account>
    requires i < |s| && j < |s|
  {
    s[i := s[j]][j := s[i]]
  }

  /** Positions n, n - 1, ..., 1 are swapped, each with the one the random value points to. */
  function ShuffledFrom(s: seq<Account>, n: nat, random: nat): seq<Account>
    requires n < |s| || n == 0
    decreases n
  {
    if n == 0 then s else ShuffledFrom(Swapped(s, n, random % (n + 1)), n - 1, random)
  }

  function Shuffled(s: seq<Account>, random: nat): seq<Account> {
    ShuffledFrom(s, if s == [] then 0 else |s| - 1, random)
  }

  /** The shuffle is a permutation, whatever the random value. */
  lemma {:induction false} ShuffledFromIsPermutation(s: seq<Account>, n: nat, random: nat)
    requires n < |s| || n == 0
    ensures multiset(ShuffledFrom(s, n, random)) == multiset(s) && |ShuffledFrom(s, n, random)| == |s|
    decreases n
  {
    if n > 0 {
      ShuffledFromIsPermutation(Swapped(s, n, random % (n + 1)), n - 1, random);
    }
  }

  lemma ShuffledIsPermutation(s: seq<Account>, random: nat)
    ensures multiset(Shuffled(s, random)) == multiset(s) && |Shuffled(s, random)| == |s|
  {
    ShuffledFromIsPermutation(s, if s == [] then 0 else |s| - 1, random);
  }

  /** `t` is `s` with the accounts at positions i and j exchanged. */
  ghost predicate Exchanged(s: seq<Account>, t: seq<Account>, i: nat, j: nat)
    requires i < |s| && j < |s|
  {
    |t| == |s| && t[i] == s[j] && t[j] == s[i] && forall k | 0 <= k < |s| && k != i && k != j :: t[k] == s[k]
  }

  /**
   The turns of the positions n, n - 1, ..., 1: each exchanges its account with the one that the random value, modulo
   one more than the position, points to. A position keeps what it got in its turn.
   */
  ghost predicate Turns(stages: seq<seq<Account>>, n: nat, random: nat) {
    && |stages| == n + 1
    && (forall k | 0 <= k <= n :: |stages[k]| == |stages[0]|) && (n < |stages[0]| || n == 0)
    && (forall k | 0 <= k < n ::
          Exchanged(stages[k], stages[k + 1], n - k, random % (n - k + 1)))
  }

  lemma {:induction false} ShuffleHasTurns(s: seq<Account>, n: nat, random: nat) returns (stages: seq<seq<Account>>)
    requires n < |s| || n == 0
    ensures Turns(stages, n, random) && stages[0] == s && stages[n] == ShuffledFrom(s, n, random)
    decreases n
  {
    if n == 0 {
      stages := [s];
    } else {
      var j := random % (n + 1);
      assert j <= n;
      var rest := ShuffleHasTurns(Swapped(s, n, j), n - 1, random);
      stages := [s] + rest;
      assert Exchanged(s, stages[1], n, j);
      forall k | 0 < k < n
        ensures Exchanged(stages[k], stages[k + 1], n - k, random % (n - k + 1))
      {
        assert Exchanged(rest[k - 1], rest[k], n - 1 - (k - 1), random % (n - 1 - (k - 1) + 1));
      }
    }
  }

  /** Positions below the first turn's are touched no more after their own. */
  lemma {:induction false} KeepsItsTurn(stages: seq<seq<Account>>, n: nat, random: nat, i: nat, m: nat)
    requires Turns(stages, n, random) && 0 < i <= n && n - i + 1 <= m <= n
    ensures stages[m][i] == stages[n - i][random % (i + 1)]
    decreases m
  {
    if m == n - i + 1 {
      assert Exchanged(stages[n - i], stages[n - i + 1], n - (n - i), random % (n - (n - i) + 1));
    } else {
      KeepsItsTurn(stages, n, random, i, m - 1);
      assert Exchanged(stages[m - 1], stages[m], n - (m - 1), random % (n - (m - 1) + 1));
      assert random % (n - (m - 1) + 1) <= n - (m - 1) < i;
    }
  }

  /**
   Who ends where: the last position gets the account that the random value points to at once, and every position the
   one it points to when its turn comes.
   */
  lemma WhoEndsWhere(s: seq<Account>, random: nat) returns (stages: seq<seq<Account>>)
    requires s != []
    ensures Turns(stages, |s| - 1, random) && stages[0] == s && |stages[0]| == |s| == |Shuffled(s, random)|
    ensures Shuffled(s, random)[|s| - 1] == s[random % |s|]
    ensures forall i | 0 < i < |s| :: Shuffled(s, random)[i] == stages[|s| - 1 - i][random % (i + 1)]
  {
    var n := |s| - 1;
    ShuffledIsPermutation(s, random);
    stages := ShuffleHasTurns(s, n, random);
    forall i | 0 < i < |s|
      ensures Shuffled(s, random)[i] == stages[n - i][random % (i + 1)]
    {
      KeepsItsTurn(stages, n, random, i, n);
    }
    if n == 0 {
      assert random % 1 == 0;
    }
  }

  method ShuffleAccounts(accounts: array<Account>, random: nat)
    modifies accounts
    ensures accounts[..] == Shuffled(old(accounts[..]), random)
  {
    if accounts.Length == 0 {
      return;
    }
    ghost var was := accounts[..];
    var i := accounts.Length - 1;
    while i > 0
      invariant 0 <= i < accounts.Length
      invariant ShuffledFrom(accounts[..], i, random) == ShuffledFrom(was, |was| - 1, random)
    {
      var j := random % (i + 1);
      ghost var before := accounts[..];
      accounts[i], accounts[j] := accounts[j], accounts[i];
      assert accounts[..] == Swapped(before, i, j);
      i := i - 1;
    }
  }

  // The partition

  function Reversed(s: seq<Account>): seq<Account> {
    if s == [] then [] else [s[|s| - 1]] + Reversed(s[..|s| - 1])
  }

  lemma {:induction false} ReversedHolds(s: seq<Account>)
    ensures |Reversed(s)| == |s| && forall i | 0 <= i < |s| :: Reversed(s)[i] == s[|s| - 1 - i]
  {
    if s != [] {
      ReversedHolds(s[..|s| - 1]);
    }
  }

  /** Groups popped from the end. */
  function Split(s: seq<Account>, size: nat, number: nat): seq<seq<Account>>
    requires size * number <= |s|
    decreases number
  {
    if number == 0 then [] else
      LastGroupFits(|s|, size, number);
      [Reversed(s[|s| - size..])] + Split(s[..|s| - size], size, number - 1)
  }

  lemma LastGroupFits(n: nat, size: nat, number: nat)
    requires number > 0 && size * number <= n
    ensures size <= n && size * (number - 1) <= n - size
  {
    assert size * number == size + size * (number - 1);
  }

  /** The k-th member of group g, counted from the end of the list. */
  lemma {:induction false} WhoIsInWhichGroup(s: seq<Account>, size: nat, number: nat, g: nat, k: nat)
    requires size * number <= |s| && g < number && k < size
    ensures |Split(s, size, number)| == number && |Split(s, size, number)[g]| == size
    ensures size * g + k < |s| && Split(s, size, number)[g][k] == s[|s| - 1 - (size * g + k)]
    decreases number
  {
    hide Split, Reversed;
    SplitLength(s, size, number);
    GroupsOf(s, size, number);
    if g == 0 {
      ReversedHolds(s[|s| - size..]);
      assert size * g == 0;
    } else {
      WhoIsInWhichGroup(s[..|s| - size], size, number - 1, g - 1, k);
      GroupBefore(size, g);
    }
  }

  /** The first group is popped from the whole list, and the others from what is left. */
  lemma GroupsOf(s: seq<Account>, size: nat, number: nat)
    requires size * number <= |s| && number > 0
    ensures size <= |s| && size * (number - 1) <= |s| - size
    ensures Split(s, size, number) == [Reversed(s[|s| - size..])] + Split(s[..|s| - size], size, number - 1)
  {
    hide Reversed;
    LastGroupFits(|s|, size, number);
  }

  lemma GroupBefore(size: nat, g: nat)
    requires g > 0
    ensures size * g == size * (g - 1) + size
  {
  }

  lemma {:induction false} SplitLength(s: seq<Account>, size: nat, number: nat)
    requires size * number <= |s|
    ensures |Split(s, size, number)| == number
    decreases number
  {
    if number > 0 {
      LastGroupFits(|s|, size, number);
      SplitLength(s[..|s| - size], size, number - 1);
    }
  }

  /** The groups: the right number, each of the right size, no account twice, and all of them the last popped. */
  ghost predicate Partition(s: seq<Account>, size: nat, number: nat, groups: seq<seq<Account>>) {
    && |groups| == number && size * number <= |s|
    && (forall g | 0 <= g < number :: |groups[g]| == size && NoRepeats(groups[g]))
    && (forall g, h | 0 <= g < h < number :: Apart(groups[g], groups[h]))
    && (forall g | 0 <= g < number :: Within(groups[g], s))
    && (forall i | |s| - size * number <= i < |s| :: InSome(groups, s[i]))
  }

  ghost predicate Apart(x: seq<Account>, y: seq<Account>) {
    forall a :: !(a in x && a in y)
  }

  ghost predicate Within(x: seq<Account>, y: seq<Account>) {
    forall a | a in x :: a in y
  }

  ghost predicate InSome(groups: seq<seq<Account>>, a: Account) {
    exists g :: 0 <= g < |groups| && a in groups[g]
  }

  lemma {:induction false} SplitIsPartition(s: seq<Account>, size: nat, number: nat)
    requires NoRepeats(s) && size * number <= |s|
    ensures Partition(s, size, number, Split(s, size, number))
    decreases number
  {
    if number > 0 {
      LastGroupFits(|s|, size, number);
      var rest, tail := s[..|s| - size], s[|s| - size..];
      SplitIsPartition(rest, size, number - 1);
      LastGroup(s, size);
      ConsPartition(s, size, number, Split(rest, size, number - 1));
    }
  }

  lemma LastGroup(s: seq<Account>, size: nat)
    requires NoRepeats(s) && size <= |s|
    ensures var tail := Reversed(s[|s| - size..]);
            |tail| == size && NoRepeats(tail) && (forall a :: a in tail <==> a in s[|s| - size..])
            && Apart(tail, s[..|s| - size])
  {
    var t := s[|s| - size..];
    ReversedHolds(t);
    var r := Reversed(t);
    forall a
      ensures a in r <==> a in t
    {
      if a in t {
        var i :| 0 <= i < |t| && t[i] == a;
        assert r[|t| - 1 - i] == a;
      }
    }
    forall a
      ensures !(a in r && a in s[..|s| - size])
    {
      if a in t {
        var i :| 0 <= i < |t| && t[i] == a;
        assert s[|s| - size + i] == a;
      }
    }
  }

  lemma ConsPartition(s: seq<Account>, size: nat, number: nat, others: seq<seq<Account>>)
    requires NoRepeats(s) && number > 0 && size * number <= |s| && size <= |s|
    requires Partition(s[..|s| - size], size, number - 1, others)
    requires var tail := Reversed(s[|s| - size..]);
             |tail| == size && NoRepeats(tail) && (forall a :: a in tail <==> a in s[|s| - size..])
             && Apart(tail, s[..|s| - size])
    ensures Partition(s, size, number, [Reversed(s[|s| - size..])] + others)
  {
    hide Reversed;
    var rest, tail := s[..|s| - size], Reversed(s[|s| - size..]);
    var groups := [tail] + others;
    assert size * number == size + size * (number - 1);
    forall i | |s| - size * number <= i < |s|
      ensures InSome(groups, s[i])
    {
      if i < |s| - size {
        assert rest[i] == s[i];
        assert InSome(others, rest[i]);
        var g :| 0 <= g < |others| && s[i] in others[g];
        assert groups[g + 1] == others[g];
      } else {
        assert s[|s| - size..][i - (|s| - size)] == s[i];
        assert s[i] in groups[0];
      }
    }
    forall g, h | 0 <= g < h < number
      ensures Apart(groups[g], groups[h])
    {
      assert groups[h] == others[h - 1];
      if g > 0 {
        assert groups[g] == others[g - 1];
      } else {
        assert Within(others[h - 1], rest);
      }
    }
    forall g | 0 <= g < number
      ensures |groups[g]| == size && NoRepeats(groups[g]) && Within(groups[g], s)
    {
      if g > 0 {
        assert groups[g] == others[g - 1];
        assert Within(others[g - 1], rest);
      }
    }
  }

  /** The shuffled candidates fall into disjoint groups; if there are just enough, each is in exactly one. */
  lemma ShuffleThenSplit(candidates: seq<Account>, random: nat, size: nat, number: nat)
    requires NoRepeats(candidates) && size * number <= |candidates|
    ensures |Shuffled(candidates, random)| == |candidates|
    ensures var groups := Split(Shuffled(candidates, random), size, number);
            && |groups| == number
            && (forall g | 0 <= g < number ::
                  |groups[g]| == size && NoRepeats(groups[g]) && Within(groups[g], candidates))
            && (forall g, h | 0 <= g < h < number :: Apart(groups[g], groups[h]))
            && (size * number == |candidates| ==> forall a | a in candidates :: InSome(groups, a))
  {
    hide Shuffled, Split, NoRepeats, Apart, InSome;
    var s := Shuffled(candidates, random);
    ShuffledIsPermutation(candidates, random);
    Rearranged(candidates, s);
    SplitIsPartition(s, size, number);
    var groups := Split(s, size, number);
    forall g | 0 <= g < number
      ensures Within(groups[g], candidates)
    {
      assert Within(groups[g], s);
    }
  }

  // The processors

  /** The groups of processor `i` of `m`, out of the first `n`. */
  function IdsOf(i: nat, m: Positive, n: nat): seq<nat> {
    if n == 0 then [] else IdsOf(i, m, n - 1) + (if (n - 1) % m == i then [n - 1] else [])
  }

  /** Exactly the ids congruent to i modulo m. */
  lemma {:induction false} IdsOfHolds(i: nat, m: Positive, n: nat)
    ensures forall g: nat :: g in IdsOf(i, m, n) <==> g < n && g % m == i
  {
    if n > 0 {
      IdsOfHolds(i, m, n - 1);
    }
  }

  function CeilDiv(n: nat, m: Positive): nat {
    (n + m - 1) / m
  }

  lemma QuotientIs(q: nat, m: Positive, t: nat)
    requires t < m
    ensures (q * m + t) / m == q
  {
    var x := q * m + t;
    Division(x, m);
    SameQuotient(q, x / m, m, t, x % m);
  }

  lemma Division(x: nat, m: Positive)
    ensures x == (x / m) * m + x % m && 0 <= x / m && x % m < m
  {
  }

  lemma SameQuotient(q: nat, k: nat, m: Positive, t: nat, r: nat)
    requires q * m + t == k * m + r && t < m && r < m
    ensures q == k
  {
    if q < k {
      Step(q, k, m);
    } else if k < q {
      Step(k, q, m);
    }
  }

  lemma Step(q: nat, k: nat, m: Positive)
    requires q < k
    ensures q * m + m <= k * m
  {
    assert (k - q - 1) * m >= 0;
    assert k * m == q * m + m + (k - q - 1) * m;
  }

  /** How many there are. */
  lemma {:induction false} IdsCount(i: nat, m: Positive, n: nat)
    requires i < m
    ensures |IdsOf(i, m, n)| == (n + m - 1 - i) / m
  {
    if n == 0 {
      QuotientIs(0, m, m - 1 - i);
    } else {
      IdsCount(i, m, n - 1);
      Division(n - 1, m);
      NextCount(i, m, n, (n - 1) / m, (n - 1) % m);
    }
  }

  lemma NextCount(i: nat, m: Positive, n: nat, q: nat, t: nat)
    requires i < m && n > 0 && t < m && n - 1 == q * m + t
    ensures (n + m - 1 - i) / m == (n + m - 2 - i) / m + (if t == i then 1 else 0)
  {
    if t > i {
      Quotient1(q, m, n + m - 1 - i, t - i);
      Quotient1(q, m, n + m - 2 - i, t - i - 1);
    } else if t == i {
      Quotient1(q, m, n + m - 1 - i, 0);
      QuotientIs(q, m, m - 1);
    } else {
      QuotientIs(q, m, t + m - i);
      QuotientIs(q, m, t + m - i - 1);
    }
  }

  lemma Quotient1(q: nat, m: Positive, x: nat, t: nat)
    requires t < m && x == q * m + m + t
    ensures x / m == q + 1
  {
    assert (q + 1) * m == q * m + m;
    QuotientIs(q + 1, m, t);
  }

  lemma {:induction false} IdsGrow(i: nat, m: Positive, k: nat, n: nat)
    requires k <= n
    ensures |IdsOf(i, m, k)| <= |IdsOf(i, m, n)|
    decreases n
  {
    if k < n {
      IdsGrow(i, m, k, n - 1);
    }
  }

  /** The first processor has the most groups. */
  lemma FirstHasMost(i: nat, m: Positive, n: nat)
    requires i < m
    ensures |IdsOf(i, m, n)| <= |IdsOf(0, m, n)| == CeilDiv(n, m)
  {
    IdsCount(i, m, n);
    IdsCount(0, m, n);
    SmallerQuotient(n + m - 1 - i, n + m - 1, m);
  }

  lemma SmallerQuotient(x: nat, y: nat, m: Positive)
    requires x <= y
    ensures x / m <= y / m
  {
    Division(x, m);
    Division(y, m);
    if x / m > y / m {
      Step(y / m, x / m, m);
    }
  }

  /** Groups are handed out in turn; the source's bound is `number - 1`, which wraps around for no groups. */
  function LastIds(number: nat): nat {
    if number == 0 then 0x1_0000_0000 else number
  }

  /** The processors with their groups replaced by those handed out in turn. */
  function Served(processors: seq<Processor>, n: nat): (out: seq<Processor>)
    ensures |out| == |processors|
  {
    seq(|processors|, i requires 0 <= i < |processors| =>
      processors[i].(groups := IdsOf(i, |processors|, n)))
  }

  /** Processor `i = id mod m` is the one to take group `id`, which is new to it. */
  lemma ServedNext(processors: seq<Processor>, id: nat, i: nat)
    requires processors != [] && i == id % |processors|
    ensures var now := Served(processors, id);
            && i < |now| && id !in now[i].groups
            && Served(processors, id + 1) == now[i := now[i].(groups := now[i].groups + [id])]
            && |IdsOf(i, |processors|, id + 1)| == |now[i].groups| + 1
  {
    hide IdsOf;
    var m := |processors|;
    Division(id, m);
    IdsOfHolds(i, m, id);
    var now := Served(processors, id);
    var next := now[i := now[i].(groups := now[i].groups + [id])];
    forall k | 0 <= k < m
      ensures Served(processors, id + 1)[k] == next[k]
    {
      IdsNext(k, m, id);
    }
    IdsNext(i, m, id);
  }

  lemma IdsNext(k: nat, m: Positive, id: nat)
    ensures IdsOf(k, m, id + 1) == if id % m == k then IdsOf(k, m, id) + [id] else IdsOf(k, m, id)
  {
  }

  // The storage and its operations

  class GroupBook {
    var members: seq<seq<Account>>
    var nextRound: NextRound
    var groupSize: nat
    var groupNumber: nat
    var processors: seq<Processor>

    ghost function View(): Groups
      reads this
    {
      Groups(members, nextRound, groupSize, groupNumber, processors)
    }
  }

  ghost predicate OneEntryEach(processors: seq<Processor>) {
    forall i, j | 0 <= i < j < |processors| :: processors[i].account != processors[j].account
  }

  ghost predicate GroupsOk(g: Groups) {
    && g.groupSize <= MAX_GROUP_SIZE && g.groupNumber <= MAX_GROUP_NUMBER
    && |g.processors| <= MAX_RUNNING_APP && OneEntryEach(g.processors)
  }

  method SetGroupMetric(g: GroupBook, groupSize: nat, groupNumber: nat) returns (r: Outcome<GroupingError>)
    requires GroupsOk(g.View())
    modifies g
    ensures GroupsOk(g.View())
    ensures r == if groupSize > MAX_GROUP_SIZE then Fail(GroupSizeTooLarge)
                 else if groupNumber > MAX_GROUP_NUMBER then Fail(GroupNumberTooLarge) else Pass
    ensures g.View() == if r.Pass? then old(g.View()).(groupSize := groupSize, groupNumber := groupNumber)
                        else old(g.View())
  {
    if !(groupSize <= MAX_GROUP_SIZE) {
      return Fail(GroupSizeTooLarge);
    }
    if !(groupNumber <= MAX_GROUP_NUMBER) {
      return Fail(GroupNumberTooLarge);
    }
    g.groupSize := groupSize;
    g.groupNumber := groupNumber;
    r := Pass;
  }

  /** Register a processor, or change its address: an account has one entry only. */
  method RegisterProcessor(g: GroupBook, who: Account, ipAddress: string) returns (r: Outcome<GroupingError>)
    requires GroupsOk(g.View())
    modifies g
    ensures GroupsOk(g.View())
    ensures g.View() == old(g.View()).(processors := g.processors)
    ensures r.Fail? <==> |old(g.processors)| == MAX_RUNNING_APP && forall p | p in old(g.processors) :: p.account != who
    ensures r.Fail? ==> r.error == TooManyProcessors && g.processors == old(g.processors)
    ensures r.Pass? ==>
              if exists i :: 0 <= i < |old(g.processors)| && old(g.processors)[i].account == who
              then exists i :: 0 <= i < |old(g.processors)| && old(g.processors)[i].account == who
                               && g.processors == old(g.processors)[i := old(g.processors)[i].(ipAddress := ipAddress)]
              else g.processors == old(g.processors) + [Processor(who, ipAddress, [])]
  {
    var processors := g.processors;
    for i := 0 to |processors|
      invariant forall k | 0 <= k < i :: processors[k].account != who
    {
      if processors[i].account == who {
        assert processors[i] in processors;
        if processors[i].ipAddress == ipAddress {
          assert processors == processors[i := processors[i].(ipAddress := ipAddress)];
          return Pass;
        }
        g.processors := processors[i := processors[i].(ipAddress := ipAddress)];
        return Pass;
      }
    }
    if |processors| >= MAX_RUNNING_APP {
      return Fail(TooManyProcessors);
    }
    g.processors := processors + [Processor(who, ipAddress, [])];
    r := Pass;
  }

  ghost function AssignError(processors: seq<Processor>, number: nat): Option<GroupingError> {
    if processors == [] then Some(NoProcessors)
    else if CeilDiv(LastIds(number), |processors|) > MAX_RUNNING_APP then Some(TooManyProcessors)
    else None
  }

  /** Hand the groups out in turn: it fails for capacity iff the fullest processor would have too many. */
  method AssignProcessorsToGroups(g: GroupBook, groupNumber: nat) returns (r: Outcome<GroupingError>)
    modifies g`processors
    ensures r == match AssignError(old(g.processors), groupNumber) case None => Pass case Some(e) => Fail(e)
    ensures g.processors ==
            if r.Pass? then Served(old(g.processors), LastIds(groupNumber)) else old(g.processors)
  {
    hide IdsOf, CeilDiv, LastIds;
    var processors := g.processors;
    if |processors| == 0 {
      return Fail(NoProcessors);
    }
    ghost var was := g.processors;
    var m := |processors|;
    for i := 0 to m
      invariant |processors| == m
      invariant forall k | 0 <= k < m :: processors[k] == if k < i then was[k].(groups := []) else was[k]
    {
      processors := processors[i := processors[i].(groups := [])];
    }
    NothingServed(was, processors);
    for id := 0 to LastIds(groupNumber)
      invariant g.processors == was && processors == Served(was, id)
      invariant forall i | 0 <= i < m :: |processors[i].groups| <= MAX_RUNNING_APP
    {
      var index := id % m;
      ServedNext(was, id, index);
      if id !in processors[index].groups {
        if |processors[index].groups| >= MAX_RUNNING_APP {
          IdsGrow(index, m, id + 1, LastIds(groupNumber));
          FirstHasMost(index, m, LastIds(groupNumber));
          return Fail(TooManyProcessors);
        }
        processors := processors[index := processors[index].(groups := processors[index].groups + [id])];
      }
    }
    FirstHasMost(0, m, LastIds(groupNumber));
    assert |processors[0].groups| == |IdsOf(0, m, LastIds(groupNumber))|;
    g.processors := processors;
    r := Pass;
  }

  lemma NothingServed(was: seq<Processor>, now: seq<Processor>)
    requires |now| == |was| && forall k | 0 <= k < |was| :: now[k] == was[k].(groups := [])
    ensures now == Served(was, 0)
  {
    forall k | 0 <= k < |was|
      ensures IdsOf(k, |was|, 0) == []
    {
    }
  }

  /** The bounded lists take the groups; the source expects so, and panics otherwise. */
  predicate GroupsFit(groupSize: nat, groupNumber: nat) {
    groupNumber <= MAX_GROUP_NUMBER && (groupNumber == 0 || groupSize <= MAX_GROUP_SIZE)
  }

  /** Shuffle the candidates and pop the groups off the end; `ok` is false where the source panics. */
  method FormGroups(candidates: seq<Account>, groupSize: nat, groupNumber: nat, random: nat)
    returns (ok: bool, groups: seq<seq<Account>>)
    requires groupSize * groupNumber <= |candidates|
    ensures |Shuffled(candidates, random)| == |candidates|
    ensures ok <==> GroupsFit(groupSize, groupNumber)
    ensures ok ==> groups == Split(Shuffled(candidates, random), groupSize, groupNumber)
  {
    hide Shuffled, Reversed;
    var accounts := new Account[|candidates|](i requires 0 <= i < |candidates| => candidates[i]);
    assert accounts[..] == candidates;
    ShuffleAccounts(accounts, random);
    ShuffledIsPermutation(candidates, random);
    ghost var shuffled := Shuffled(candidates, random);
    var left := accounts[..];
    groups := [];
    for i := 0 to groupNumber
      invariant groupSize * (groupNumber - i) <= |left|
      invariant |groups| == i <= MAX_GROUP_NUMBER && (i > 0 ==> groupSize <= MAX_GROUP_SIZE)
      invariant groups + Split(left, groupSize, groupNumber - i) == Split(shuffled, groupSize, groupNumber)
    {
      LastGroupFits(|left|, groupSize, groupNumber - i);
      var group;
      ghost var rest := Split(left[..|left| - groupSize], groupSize, groupNumber - i - 1);
      ok, group, left := PopGroup(left, groupSize);
      if !ok || |groups| >= MAX_GROUP_NUMBER {
        return false, groups;
      }
      assert groups + ([group] + rest) == groups + [group] + rest;
      groups := groups + [group];
    }
    ok := true;
  }

  /** The inner loop: pop one group off the end. */
  method PopGroup(candidates: seq<Account>, groupSize: nat)
    returns (ok: bool, group: seq<Account>, left: seq<Account>)
    requires groupSize <= |candidates|
    ensures ok <==> groupSize <= MAX_GROUP_SIZE
    ensures ok ==>
              group == Reversed(candidates[|candidates| - groupSize..]) && left == candidates[..|candidates| - groupSize]
  {
    var n := |candidates|;
    ok, group, left := true, [], candidates;
    for k := 0 to groupSize
      invariant left == candidates[..n - k] && |group| == k <= MAX_GROUP_SIZE
      invariant group + Reversed(left[n - groupSize..]) == Reversed(candidates[n - groupSize..])
    {
      var last := left[|left| - 1];
      assert left[n - groupSize..][..groupSize - k - 1] == left[..|left| - 1][n - groupSize..];
      assert group + ([last] + Reversed(left[..|left| - 1][n - groupSize..]))
          == group + [last] + Reversed(left[..|left| - 1][n - groupSize..]);
      left := left[..|left| - 1];
      if |group| >= MAX_GROUP_SIZE {
        return false, group, left;
      }
      group := group + [last];
    }
  }

  /**
   Group the candidates; `ok` is false where the source panics. Its caller ignores the result, so that what was
   written before an error stays.
   */
  method TriggerGroup(g: GroupBook, candidates: seq<Account>, startingBlock: BlockNumber, roundIndex: RoundIndex,
                      random: nat)
    returns (ok: bool, r: Outcome<GroupingError>)
    modifies g
    ensures GroupsOk(old(g.View())) ==> ok && GroupsOk(g.View())
    ensures g.groupSize == old(g.groupSize) && g.groupNumber == old(g.groupNumber)
    ensures var v, total := old(g.View()), old(g.groupSize) * old(g.groupNumber);
            && (ok <==> |candidates| < total || GroupsFit(v.groupSize, v.groupNumber))
            && if |candidates| < total then r == Fail(CandidatesNotEnough) && g.View() == v
               else
                 ok ==>
                   && |Shuffled(candidates, random)| == |candidates|
                   && r == (match AssignError(v.processors, v.groupNumber) case None => Pass case Some(e) => Fail(e))
                   && g.View() == v.(members := Split(Shuffled(candidates, random), v.groupSize, v.groupNumber),
                                     processors := if r.Pass? then Served(v.processors, LastIds(v.groupNumber))
                                                   else v.processors,
                                     nextRound := if r.Pass? then NextRound(startingBlock, roundIndex) else v.nextRound)
  {
    hide Shuffled, Split, AssignError;
    var groupSize, groupNumber := g.groupSize, g.groupNumber;
    if !(|candidates| >= groupSize * groupNumber) {
      return true, Fail(CandidatesNotEnough);
    }
    var groups;
    ok, groups := FormGroups(candidates, groupSize, groupNumber, random);
    if !ok {
      return false, Pass;
    }
    g.members := groups;
    r := AssignProcessorsToGroups(g, groupNumber);
    if r.Pass? {
      g.nextRound := NextRound(startingBlock, roundIndex);
    }
  }

  /** The account is in group `k` and in no other. */
  ghost predicate OnlyGroupOf(groups: seq<seq<Account>>, a: Account, k: nat) {
    k < |groups| && a in groups[k] && forall h | 0 <= h < |groups| && h != k :: a !in groups[h]
  }

  /** The group of an account: the first that has it. */
  method AccountInGroup(g: GroupBook, account: Account) returns (r: Result<nat, GroupingError>)
    ensures r.Success? ==>
              && r.value < |g.members| && account in g.members[r.value]
              && forall h | 0 <= h < r.value :: account !in g.members[h]
    ensures r.Failure? ==> r.error == AccountNotInGroup && !InSome(g.members, account)
    ensures forall k: nat | OnlyGroupOf(g.members, account, k) :: r == Success(k)
  {
    for index := 0 to |g.members|
      invariant forall h | 0 <= h < index :: account !in g.members[h]
    {
      if account in g.members[index] {
        return Success(index);
      }
    }
    return Failure(AccountNotInGroup);
  }

  /** The groups a processor serves. */
  method GetGroupIds(g: GroupBook, account: Account) returns (ids: seq<nat>)
    requires OneEntryEach(g.processors)
    ensures forall p | p in g.processors && p.account == account :: ids == p.groups
    ensures (forall p | p in g.processors :: p.account != account) ==> ids == []
  {
    for i := 0 to |g.processors|
      invariant forall k | 0 <= k < i :: g.processors[k].account != account
    {
      if g.processors[i].account == account {
        assert g.processors[i] in g.processors;
        return g.processors[i].groups;
      }
    }
    return [];
  }

  // What grouping achieves

  /** With just enough distinct candidates, each one is in exactly one group. */
  lemma ExactlyOneGroup(candidates: seq<Account>, random: nat, size: nat, number: nat, a: Account) returns (g: nat)
    requires NoRepeats(candidates) && size * number == |candidates| && a in candidates
    ensures |Shuffled(candidates, random)| == |candidates|
    ensures var groups := Split(Shuffled(candidates, random), size, number);
            |groups| == number && OnlyGroupOf(groups, a, g)
  {
    hide Shuffled, Split, NoRepeats;
    ShuffleThenSplit(candidates, random, size, number);
    var groups := Split(Shuffled(candidates, random), size, number);
    assert InSome(groups, a);
    g :| 0 <= g < |groups| && a in groups[g];
    forall h | 0 <= h < number && h != g
      ensures a !in groups[h]
    {
      if h < g {
        assert Apart(groups[h], groups[g]);
      } else {
        assert Apart(groups[g], groups[h]);
      }
    }
  }

  /** Every group below the number is served by exactly one processor, its number's remainder. */
  lemma EachGroupServedOnce(processors: seq<Processor>, number: Positive, id: nat, i: nat)
    requires id < number && i < |processors|
    ensures id in Served(processors, LastIds(number))[i].groups <==> i == id % |processors|
    ensures forall k | k in Served(processors, LastIds(number))[i].groups :: k < number
    ensures Served(processors, LastIds(number))[i].account == processors[i].account
    ensures Served(processors, LastIds(number))[i].ipAddress == processors[i].ipAddress
  {
    IdsOfHolds(i, |processors|, number);
  }

  /** The selection asks for exactly as many sequencers as the groups need, and has no account twice. */
  lemma SelectionFillsGroups(pool: seq<Bond>, size: nat, number: nat, sel: seq<Account>)
    requires IsSelection(pool, size * number, sel)
    ensures NoRepeats(sel)
    ensures |sel| == size * number <==> |pool| >= size * number
    ensures |sel| < size * number <==> |pool| < size * number
  {
  }

  /** Assigning fails just if there is nobody to assign to, or if somebody would get more groups than one may serve. */
  lemma AssignFailsExactly(processors: seq<Processor>, number: nat)
    ensures AssignError(processors, number) == Some(NoProcessors) <==> processors == []
    ensures AssignError(processors, number) == Some(TooManyProcessors) <==>
            exists p :: p in Served(processors, LastIds(number)) && |p.groups| > MAX_RUNNING_APP
    ensures AssignError(processors, number) in {None, Some(NoProcessors), Some(TooManyProcessors)}
    ensures number > 0 ==> LastIds(number) == number
    ensures number == 0 && |processors| * MAX_RUNNING_APP < 0x1_0000_0000 ==> AssignError(processors, number) != None
  {
    hide IdsOf, LastIds, CeilDiv;
    var n, out := LastIds(number), Served(processors, LastIds(number));
    if processors != [] {
      var m := |processors|;
      FirstHasMost(0, m, n);
      assert out[0] in out && |out[0].groups| == CeilDiv(n, m);
      forall p | p in out
        ensures |p.groups| <= CeilDiv(n, m)
      {
        var i :| 0 <= i < |out| && out[i] == p;
        FirstHasMost(i, m, n);
      }
      if CeilDiv(n, m) <= MAX_RUNNING_APP {
        CeilDivReaches(n, m, MAX_RUNNING_APP);
      }
    }
    LastIdsOf(number);
  }

  lemma LastIdsOf(number: nat)
    ensures LastIds(number) == if number > 0 then number else 0x1_0000_0000
  {
  }

  /** A rounded-up quotient within a limit means that the product reaches. */
  lemma CeilDivReaches(n: nat, m: Positive, most: nat)
    requires CeilDiv(n, m) <= most
    ensures n <= m * most
  {
    var q := (n + m - 1) / m;
    Division(n + m - 1, m);
    assert q * m <= most * m by {
      assert (most - q) * m >= 0;
    }
  }
}
