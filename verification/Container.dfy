/** The container pallet's allocator: registered applications, handed out to the groups first come first served. */
module Container {
  import opened Config
  import opened Wrappers
  import opened Sequences

  datatype AppInfo = AppInfo(appHash: nat, creator: Account, projectName: string, fileName: string, uploaded: bool,
                             size: nat, args: Option<string>, log: Option<string>, isDockerImage: Option<bool>,
                             dockerImage: Option<string>)

  datatype Error = AppNotExist

  datatype Apps = Apps(nextId: nat, infos: map<nat, AppInfo>, inuse: seq<bool>, groupApp: map<nat, nat>)

  // The invariant

  /** No application serves two groups. */
  ghost predicate Injective(m: map<nat, nat>) {
    forall g, h | g in m && h in m && g != h :: m[g] != m[h]
  }

  /** Application `i + 1` serves some group. */
  ghost predicate Serves(m: map<nat, nat>, app: nat) {
    exists g :: g in m && m[g] == app
  }

  /** Ids count up from one, a flag is up iff its application serves a group, and only registered ones do. */
  ghost predicate AppsOk(a: Apps) {
    && a.nextId == 1 + |a.inuse| && |a.inuse| <= MAX_REGISTERED_APPS
    && (forall id :: id in a.infos <==> 1 <= id < a.nextId)
    && Injective(a.groupApp)
    && (forall i | 0 <= i < |a.inuse| :: a.inuse[i] <==> Serves(a.groupApp, i + 1))
    && (forall g | g in a.groupApp :: a.groupApp[g] in a.infos)
  }

  class AppBook {
    var nextId: nat
    var infos: map<nat, AppInfo>
    var inuse: seq<bool>
    var groupApp: map<nat, nat>

    ghost function View(): Apps
      reads this
    {
      Apps(nextId, infos, inuse, groupApp)
    }

    constructor ()
      ensures AppsOk(View()) && View() == Apps(1, map[], [], map[])
    {
      nextId, infos, inuse, groupApp := 1, map[], [], map[];
    }
  }

  // Registration

  /** The body of the call: the counter and the record are written before the bounded list may refuse. */
  method RegisterBody(a: AppBook, info: AppInfo) returns (r: Outcome<Error>)
    modifies a
    ensures r == if |old(a.inuse)| >= MAX_REGISTERED_APPS then Fail(AppNotExist) else Pass
    ensures a.View() == old(a.View()).(nextId := old(a.nextId) + 1, infos := old(a.infos)[old(a.nextId) := info],
                                       inuse := if r.Pass? then old(a.inuse) + [false] else old(a.inuse))
  {
    var oldApplicationId := a.nextId;
    a.infos := a.infos[oldApplicationId := info];
    a.nextId := oldApplicationId + 1;
    if |a.inuse| >= MAX_REGISTERED_APPS {
      return Fail(AppNotExist);
    }
    a.inuse := a.inuse + [false];
    r := Pass;
  }

  /** The dispatchable: its storage is rolled back on an error. */
  method RegisterApp(a: AppBook, info: AppInfo) returns (r: Outcome<Error>)
    requires AppsOk(a.View())
    modifies a
    ensures AppsOk(a.View())
    ensures r == if |old(a.inuse)| == MAX_REGISTERED_APPS then Fail(AppNotExist) else Pass
    ensures a.View() == if r.Pass? then Registered(old(a.View()), info) else old(a.View())
  {
    var nextId, infos, inuse := a.nextId, a.infos, a.inuse;
    r := RegisterBody(a, info);
    if r.Fail? {
      a.nextId, a.infos, a.inuse := nextId, infos, inuse;
    } else {
      RegisteredOk(Apps(nextId, infos, inuse, a.groupApp), info);
    }
  }

  ghost function Registered(a: Apps, info: AppInfo): Apps {
    a.(nextId := a.nextId + 1, infos := a.infos[a.nextId := info], inuse := a.inuse + [false])
  }

  lemma RegisteredOk(a: Apps, info: AppInfo)
    requires AppsOk(a) && |a.inuse| < MAX_REGISTERED_APPS
    ensures AppsOk(Registered(a, info))
  {
    var b := Registered(a, info);
    assert !Serves(a.groupApp, a.nextId);
    forall i | 0 <= i < |b.inuse|
      ensures b.inuse[i] <==> Serves(b.groupApp, i + 1)
    {
    }
  }

  /** A registered application gets the next id, is recorded under it, and waits; all others stay as they are. */
  lemma RegisteredIsNext(a: Apps, info: AppInfo)
    requires AppsOk(a)
    ensures var b := Registered(a, info);
            && a.nextId !in a.infos && a.nextId in b.infos && b.infos[a.nextId] == info
            && (forall id | id in a.infos :: id in b.infos && b.infos[id] == a.infos[id])
            && b.nextId == a.nextId + 1 && b.groupApp == a.groupApp && !Serves(b.groupApp, a.nextId)
  {
  }

  // Allocation

  /** The first application not in use; the number of all if there is none. */
  function FirstFree(inuse: seq<bool>): (i: nat)
    ensures i <= |inuse|
    ensures forall k | 0 <= k < i :: inuse[k]
    ensures i < |inuse| ==> !inuse[i]
  {
    if inuse == [] then 0 else if !inuse[0] then 0 else 1 + FirstFree(inuse[1..])
  }

  function AllocatedOne(a: Apps, group: nat): Apps {
    var i := FirstFree(a.inuse);
    if group in a.groupApp || i == |a.inuse| then a
    else a.(inuse := a.inuse[i := true], groupApp := a.groupApp[group := i + 1])
  }

  /** One group after the other gets the first free application. */
  function Allocated(a: Apps, groups: seq<nat>): Apps {
    if groups == [] then a else AllocatedOne(Allocated(a, groups[..|groups| - 1]), groups[|groups| - 1])
  }

  lemma AllocatedOneOk(a: Apps, group: nat)
    requires AppsOk(a)
    ensures var b := AllocatedOne(a, group);
            && AppsOk(b) && |b.inuse| == |a.inuse| && b.infos == a.infos
            && (forall g | g in a.groupApp :: g in b.groupApp && b.groupApp[g] == a.groupApp[g])
            && (forall g | g in b.groupApp :: g in a.groupApp || g == group)
            && (forall k | 0 <= k < |a.inuse| && a.inuse[k] :: b.inuse[k])
            && (group in b.groupApp || forall k | 0 <= k < |b.inuse| :: b.inuse[k])
  {
    var b, i := AllocatedOne(a, group), FirstFree(a.inuse);
    if group !in a.groupApp && i < |a.inuse| {
      assert !Serves(a.groupApp, i + 1);
      forall k | 0 <= k < |b.inuse|
        ensures b.inuse[k] <==> Serves(b.groupApp, k + 1)
      {
        if k == i {
          assert b.groupApp[group] == k + 1;
        } else if a.inuse[k] {
          var g :| g in a.groupApp && a.groupApp[g] == k + 1;
          assert b.groupApp[g] == k + 1;
        }
      }
    }
  }

  /**
   Allocation keeps the invariant and every assignment made before, and gives nothing to a group that is not listed;
   afterwards every listed group has an application or every application is in use.
   */
  lemma {:induction false} AllocatedOk(a: Apps, groups: seq<nat>)
    requires AppsOk(a)
    ensures var b := Allocated(a, groups);
            && AppsOk(b) && |b.inuse| == |a.inuse| && b.infos == a.infos
            && (forall g | g in a.groupApp :: g in b.groupApp && b.groupApp[g] == a.groupApp[g])
            && (forall g | g in b.groupApp :: g in a.groupApp || g in groups)
            && (forall k | 0 <= k < |a.inuse| && a.inuse[k] :: b.inuse[k])
            && ((forall g | g in groups :: g in b.groupApp) || forall k | 0 <= k < |b.inuse| :: b.inuse[k])
  {
    if groups != [] {
      var rest, last := groups[..|groups| - 1], groups[|groups| - 1];
      assert groups == rest + [last];
      AllocatedOk(a, rest);
      AllocatedOneOk(Allocated(a, rest), last);
    }
  }

  /** The hook at the end of a block. */
  method OnFinalize(a: AppBook, groups: seq<nat>)
    modifies a`inuse, a`groupApp
    ensures a.View() == Allocated(old(a.View()), groups)
  {
    ghost var v := a.View();
    var inuseApps := a.inuse;
    assert groups[..0] == [];
    for i := 0 to |groups|
      invariant a.View() == Allocated(v, groups[..i]) && inuseApps == a.inuse
    {
      var group := groups[i];
      assert groups[..i + 1][..i] == groups[..i];
      ghost var before := a.View();
      if group !in a.groupApp {
        var index := 0;
        while index < |inuseApps| && inuseApps[index]
          invariant index <= |inuseApps| && forall k | 0 <= k < index :: inuseApps[k]
        {
          index := index + 1;
        }
        FirstFreeIs(inuseApps, index);
        if index < |inuseApps| {
          inuseApps := inuseApps[index := true];
          a.inuse := a.inuse[index := true];
          a.groupApp := a.groupApp[group := index + 1];
        }
      }
      assert a.View() == AllocatedOne(before, group);
    }
    assert groups[..|groups|] == groups;
  }

  lemma FirstFreeIs(inuse: seq<bool>, i: nat)
    requires i <= |inuse| && (forall k | 0 <= k < i :: inuse[k]) && (i < |inuse| ==> !inuse[i])
    ensures FirstFree(inuse) == i
  {
    var f := FirstFree(inuse);
  }

  /** First come, first served: a group that waits gets the lowest free application, if there is one. */
  lemma LowestFreeIsTaken(a: Apps, group: nat)
    requires AppsOk(a) && group !in a.groupApp
    ensures var b := AllocatedOne(a, group);
            if group in b.groupApp
            then b.groupApp[group] in a.infos && !Serves(a.groupApp, b.groupApp[group])
                 && (forall id | 1 <= id < b.groupApp[group] :: Serves(a.groupApp, id))
            else forall id | id in a.infos :: Serves(a.groupApp, id)
  {
    var i := FirstFree(a.inuse);
    forall id | 1 <= id && id <= i
      ensures Serves(a.groupApp, id)
    {
      assert a.inuse[id - 1];
    }
  }

  // Who is served first

  /** The allocation after the first `k` groups. */
  function Upto(a: Apps, groups: seq<nat>, k: nat): Apps
    requires k <= |groups|
  {
    Allocated(a, groups[..k])
  }

  lemma NextTurn(a: Apps, groups: seq<nat>, k: nat)
    requires k < |groups|
    ensures Upto(a, groups, k + 1) == AllocatedOne(Upto(a, groups, k), groups[k])
  {
    assert groups[..k + 1][..k] == groups[..k];
  }

  lemma {:induction false} OnlyGrows(a: Apps, groups: seq<nat>, k: nat, n: nat)
    requires AppsOk(a) && k <= n <= |groups|
    ensures var b, c := Upto(a, groups, k), Upto(a, groups, n);
            && AppsOk(b) && AppsOk(c) && |b.inuse| == |c.inuse|
            && (forall g | g in b.groupApp :: g in c.groupApp && c.groupApp[g] == b.groupApp[g])
            && (forall i | 0 <= i < |b.inuse| && b.inuse[i] :: c.inuse[i])
            && ((forall i | 0 <= i < |b.inuse| :: b.inuse[i]) ==> c == b)
    decreases n
  {
    hide AppsOk, Allocated, AllocatedOne;
    AllocatedOk(a, groups[..k]);
    if k < n {
      OnlyGrows(a, groups, k, n - 1);
      NextTurn(a, groups, n - 1);
      AllocatedOneOk(Upto(a, groups, n - 1), groups[n - 1]);
      NothingFree(Upto(a, groups, n - 1), groups[n - 1]);
    }
  }

  lemma NothingFree(a: Apps, group: nat)
    ensures (forall i | 0 <= i < |a.inuse| :: a.inuse[i]) ==> AllocatedOne(a, group) == a
  {
  }

  lemma {:induction false} Waits(a: Apps, groups: seq<nat>, k: nat, h: nat)
    requires k <= |groups| && h !in a.groupApp && h !in groups[..k]
    ensures h !in Upto(a, groups, k).groupApp
  {
    if k > 0 {
      assert groups[..k - 1] == groups[..k][..k - 1];
      Waits(a, groups, k - 1, h);
      NextTurn(a, groups, k - 1);
      assert groups[k - 1] == groups[..k][k - 1];
    }
  }

  /** A group that waits when its turn comes gets the first free application then, or nothing at all. */
  lemma Turn(a: Apps, groups: seq<nat>, k: nat)
    requires AppsOk(a) && NoRepeats(groups) && k < |groups| && groups[k] !in a.groupApp
    ensures var before, after := Upto(a, groups, k), Allocated(a, groups);
            var first := FirstFree(before.inuse);
            && (groups[k] in after.groupApp <==> first < |before.inuse|)
            && (groups[k] in after.groupApp ==>
                  && after.groupApp[groups[k]] == first + 1 && Upto(a, groups, k + 1).inuse == before.inuse[first := true])
  {
    hide AppsOk, Allocated, FirstFree;
    assert groups[k] !in groups[..k] by {
      assert forall i | 0 <= i < k :: groups[..k][i] != groups[k];
    }
    Waits(a, groups, k, groups[k]);
    NextTurn(a, groups, k);
    OnlyGrows(a, groups, k, |groups|);
    OnlyGrows(a, groups, k + 1, |groups|);
    assert groups[..|groups|] == groups;
  }

  /** Of two waiting groups the earlier one is served first, and with the lower application. */
  lemma EarlierIsServedFirst(a: Apps, groups: seq<nat>, i: nat, j: nat)
    requires AppsOk(a) && NoRepeats(groups) && i < j < |groups|
    requires groups[i] !in a.groupApp && groups[j] !in a.groupApp
    ensures var b := Allocated(a, groups);
            groups[j] in b.groupApp ==> groups[i] in b.groupApp && b.groupApp[groups[i]] < b.groupApp[groups[j]]
  {
    hide AppsOk, Allocated;
    Turn(a, groups, i);
    Turn(a, groups, j);
    OnlyGrows(a, groups, i, j);
    OnlyGrows(a, groups, i + 1, j);
    var early, late := Upto(a, groups, i).inuse, Upto(a, groups, j).inuse;
    var first := FirstFree(late);
    if first < |late| {
      assert !early[first];
      assert FirstFree(early) <= first;
    }
  }

  // Runs

  datatype Event = Register(info: AppInfo) | Finalize(groups: seq<nat>)

  ghost function After(a: Apps, e: Event): Apps {
    match e
    case Register(info) => if |a.inuse| == MAX_REGISTERED_APPS then a else Registered(a, info)
    case Finalize(groups) => Allocated(a, groups)
  }

  ghost function AfterAll(ev: seq<Event>): Apps {
    if ev == [] then Apps(1, map[], [], map[]) else After(AfterAll(ev[..|ev| - 1]), ev[|ev| - 1])
  }

  lemma {:induction false} AlwaysOk(ev: seq<Event>)
    ensures AppsOk(AfterAll(ev))
  {
    if ev != [] {
      AlwaysOk(ev[..|ev| - 1]);
      AfterKeeps(AfterAll(ev[..|ev| - 1]), ev[|ev| - 1]);
    }
  }

  lemma AfterKeeps(a: Apps, e: Event)
    requires AppsOk(a)
    ensures AppsOk(After(a, e))
    ensures forall g | g in a.groupApp :: g in After(a, e).groupApp && After(a, e).groupApp[g] == a.groupApp[g]
  {
    match e {
      case Register(info) =>
        if |a.inuse| < MAX_REGISTERED_APPS {
          RegisteredOk(a, info);
        }
      case Finalize(groups) => AllocatedOk(a, groups);
    }
  }

  /** Over any run, a group once served keeps its application, and no other group ever gets it. */
  lemma {:induction false} NeverReassigned(ev: seq<Event>, n: nat, g: nat)
    requires n <= |ev| && g in AfterAll(ev[..n]).groupApp
    ensures g in AfterAll(ev).groupApp && AfterAll(ev).groupApp[g] == AfterAll(ev[..n]).groupApp[g]
    ensures forall h | h in AfterAll(ev).groupApp && h != g ::
              AfterAll(ev).groupApp[h] != AfterAll(ev[..n]).groupApp[g]
    decreases |ev|
  {
    AlwaysOk(ev);
    if n < |ev| {
      var before := ev[..|ev| - 1];
      assert before[..n] == ev[..n];
      NeverReassigned(before, n, g);
      AlwaysOk(before);
      AfterKeeps(AfterAll(before), ev[|ev| - 1]);
    } else {
      assert ev[..n] == ev;
    }
  }

  /** After any block, every group has its application or every registered one is in use. */
  lemma NoneWaitsInVain(ev: seq<Event>, groups: seq<nat>)
    ensures var a := AfterAll(ev + [Finalize(groups)]);
            || (forall g | g in groups :: g in a.groupApp && a.groupApp[g] in a.infos)
            || (forall id | id in a.infos :: Serves(a.groupApp, id))
  {
    var run := ev + [Finalize(groups)];
    assert run[..|run| - 1] == ev;
    AlwaysOk(ev);
    AlwaysOk(run);
    AllocatedOk(AfterAll(ev), groups);
    var a := AfterAll(run);
    assert forall id | id in a.infos && a.inuse[id - 1] :: Serves(a.groupApp, id);
  }
}
