/** A run of the scheduler with three slots that ends up with more than three jobs. The deploy list is that
    of two configurations with coverage. The first has two builds with one run each, the second one build
    with three runs; then each merges and reports. */
module CoverageRun {
  import opened Basics
  import opened JobGraph
  import opened JobTables
  import opened Apportion
  import opened DispatchPass
  import opened LateQueues
  import opened Scheduling

  // ----- the deploy list ---------------------------------------------------------------------

  /** Builds 0 to 2, runs 3 to 7, merges 8 and 9, reports 10 and 11, with the weights of their targets. */
  function CoverageJob(i: Item): Job
  {
    if i <= 1 then Job(0, 0, [], true, 5)
    else if i == 2 then Job(0, 1, [], true, 5)
    else if i <= 4 then Job(1, 0, [i - 3], true, 1)
    else if i <= 7 then Job(1, 1, [2], true, 1)
    else if i == 8 then Job(2, 0, [3, 4], false, 10)
    else if i == 9 then Job(2, 1, [5, 6, 7], false, 10)
    else Job(3, if i == 10 then 0 else 1, [i - 2], true, 10)
  }

  function CoverageGraph(): Graph
  {
    Graph([0, 1, 3, 4, 8, 10, 2, 5, 6, 7, 9, 11], map i: Item | i <= 11 :: CoverageJob(i), 4)
  }

  /** The dependencies, written out. */
  predicate Needs(i: Item, d: Item)
  {
    || (i == 3 && d == 0) || (i == 4 && d == 1) || (5 <= i <= 7 && d == 2)
    || (i == 8 && 3 <= d <= 4) || (i == 9 && 5 <= d <= 7) || (i == 10 && d == 8) || (i == 11 && d == 9)
  }

  lemma CoverageDeps(i: Item, d: Item)
    ensures Dep(CoverageGraph(), i, d) <==> Needs(i, d)
  {}

  lemma CoverageShape()
    ensures var g := CoverageGraph();
      && g.targets == 4 && Distinct(g.items) && (forall i: Item :: i in g.items <==> i <= 11)
      && (forall i: Item :: i in g.jobs <==> i <= 11) && (forall i :: i in g.jobs ==> g.jobs[i] == CoverageJob(i))
  {}

  lemma CoverageConfigs(i: Item, d: Item)
    requires Needs(i, d)
    ensures CoverageJob(d).cfg == CoverageJob(i).cfg && CoverageJob(d).target + 1 == CoverageJob(i).target
  {}

  lemma CoverageLayers()
    ensures Layers(CoverageGraph())
  {
    var g := CoverageGraph();
    CoverageShape();
    hide CoverageGraph, Dep, HasDependency, Distinct, CoverageJob;
    forall i, d | Dep(g, i, d)
      ensures i in g.jobs && d in g.jobs && g.jobs[d].target + 1 == g.jobs[i].target && g.jobs[d].cfg == g.jobs[i].cfg
    {
      CoverageDeps(i, d);
      CoverageConfigs(i, d);
    }
    forall i | i in g.jobs && g.jobs[i].target > 0 ensures HasDependency(g, i) {
      LaterJob(i);
      SomeDependency(i);
    }
    forall i | i in g.jobs ensures g.jobs[i].target < 4 && g.jobs[i].weight >= 1 { LaterJob(i); }
  }

  lemma LaterJob(i: Item)
    ensures CoverageJob(i).target < 4 && CoverageJob(i).weight >= 1 && (CoverageJob(i).target > 0 <==> i >= 3)
  {}

  lemma SomeDependency(i: Item)
    requires 3 <= i <= 11
    ensures HasDependency(CoverageGraph(), i)
  {
    var d := if i == 3 then 0 else if i == 4 then 1 else if i <= 7 then 2 else if i == 8 then 3
      else if i == 9 then 5 else i - 2;
    CoverageDeps(i, d);
    hide CoverageGraph, Dep;
    assert Dep(CoverageGraph(), i, d);
  }

  lemma CoverageCovered()
    ensures Covered(CoverageGraph())
  {
    var g := CoverageGraph();
    CoverageShape();
    hide CoverageGraph, Dep, Distinct, HasDependant;
    forall i | i in g.jobs && g.jobs[i].target + 1 < g.targets ensures HasDependant(g, i) { SomeDependant(i); }
  }

  lemma SomeDependant(i: Item)
    requires i <= 9
    ensures HasDependant(CoverageGraph(), i)
  {
    var j := if i <= 1 then i + 3 else if i == 2 then 5 else if i <= 4 then 8 else if i <= 7 then 9 else i + 2;
    CoverageDeps(j, i);
    hide CoverageGraph, Dep;
    assert Dep(CoverageGraph(), j, i);
  }

  // ----- what becomes free -------------------------------------------------------------------

  predicate FreeIn(st: Statuses, i: Item)
  {
    if i <= 2 then true
    else if i == 3 then Terminal(st, 0)
    else if i == 4 then Terminal(st, 1)
    else if i <= 7 then Terminal(st, 2)
    else if i == 8 then Terminal(st, 3) && Terminal(st, 4)
    else if i == 9 then Terminal(st, 5) && Terminal(st, 6) && Terminal(st, 7)
    else if i <= 11 then Terminal(st, i - 2)
    else false
  }

  lemma CoverageReady(st: Statuses, i: Item)
    requires i <= 11
    ensures Ready(CoverageGraph(), st, i) <==> FreeIn(st, i)
  {
    hide CoverageGraph, Dep, Terminal;
    var g := CoverageGraph();
    forall d ensures Dep(g, i, d) <==> Needs(i, d) { CoverageDeps(i, d); }
    assert || i <= 2 || Needs(i, 0) || Needs(i, 1) || Needs(i, 2) || (Needs(i, 3) && Needs(i, 4))
           || (Needs(i, 5) && Needs(i, 6) && Needs(i, 7)) || Needs(i, 8) || Needs(i, 9);
  }

  /** After some items were queued, exactly those that wait for nothing have a status. */
  lemma Settled(st: Statuses, st': Statuses, i: Item)
    requires OnlyQueued(st, st') && Sound(CoverageGraph(), st', {})
    ensures i in st' <==> FreeIn(st, i)
    ensures i in st' ==> st'[i] == if i in st then st[i] else Queued
  {
    CoverageShape();
    hide CoverageGraph, Ready, Distinct;
    if i <= 11 {
      CoverageReady(st', i);
      assert forall d :: Terminal(st', d) <==> Terminal(st, d);
    }
  }

  // ----- the states of the run ---------------------------------------------------------------

  function Builds(v0: Status, v1: Status, v2: Status): Statuses
  {
    map[0 := v0, 1 := v1, 2 := v2]
  }

  predicate Same(st: Statuses, st': Statuses, i: Item)
  {
    (i in st <==> i in st') && (i in st ==> st[i] == st'[i])
  }

  lemma SameEverywhere(st: Statuses, st': Statuses)
    requires forall i :: Same(st, st', i)
    ensures st == st'
  {
    forall i ensures i in st <==> i in st' { assert Same(st, st', i); }
    forall i | i in st ensures st[i] == st'[i] { assert Same(st, st', i); }
  }

  /** The builds are queued first. */
  lemma FirstQueued(st: Statuses)
    requires OnlyQueued(map[], st) && Sound(CoverageGraph(), st, {})
    ensures st == Builds(Queued, Queued, Queued)
  {
    hide Sound, OnlyQueued, CoverageGraph;
    var st' := Builds(Queued, Queued, Queued);
    forall i ensures Same(st, st', i) { Settled(map[], st, i); }
    SameEverywhere(st, st');
  }

  /** The first build passes, and its run is queued. */
  lemma BuildPassed(st: Statuses)
    requires OnlyQueued(Builds(Dispatched, Dispatched, Dispatched)[0 := Passed], st) && Sound(CoverageGraph(), st, {})
    ensures st == Builds(Passed, Dispatched, Dispatched)[3 := Queued]
  {
    hide Sound, OnlyQueued, CoverageGraph;
    var st' := Builds(Passed, Dispatched, Dispatched)[3 := Queued];
    forall i ensures Same(st, st', i) { Settled(Builds(Dispatched, Dispatched, Dispatched)[0 := Passed], st, i); }
    SameEverywhere(st, st');
  }

  /** That run passes, and its merge still waits for the other one. */
  lemma RunPassed(st: Statuses)
    requires OnlyQueued(Builds(Passed, Dispatched, Dispatched)[3 := Passed], st) && Sound(CoverageGraph(), st, {})
    ensures st == Builds(Passed, Dispatched, Dispatched)[3 := Passed]
  {
    hide Sound, OnlyQueued, CoverageGraph;
    var st' := Builds(Passed, Dispatched, Dispatched)[3 := Passed];
    forall i ensures Same(st, st', i) { Settled(Builds(Passed, Dispatched, Dispatched)[3 := Passed], st, i); }
    SameEverywhere(st, st');
  }

  /** The second build fails, and its run is queued all the same. */
  lemma BuildFailed(st: Statuses)
    requires OnlyQueued(Builds(Passed, Failed, Dispatched)[3 := Passed], st) && Sound(CoverageGraph(), st, {})
    ensures st == Builds(Passed, Failed, Dispatched)[3 := Passed][4 := Queued]
  {
    hide Sound, OnlyQueued, CoverageGraph;
    var st' := Builds(Passed, Failed, Dispatched)[3 := Passed][4 := Queued];
    forall i ensures Same(st, st', i) { Settled(Builds(Passed, Failed, Dispatched)[3 := Passed], st, i); }
    SameEverywhere(st, st');
  }

  function Crowded(): Statuses
  {
    Builds(Passed, Failed, Passed)[3 := Passed][4 := Queued][5 := Queued][6 := Queued][7 := Queued]
  }

  /** The third build passes, and its three runs are queued. */
  lemma RunsQueued(st: Statuses)
    requires OnlyQueued(Builds(Passed, Failed, Passed)[3 := Passed][4 := Queued], st) && Sound(CoverageGraph(), st, {})
    ensures st == Crowded()
  {
    hide Sound, OnlyQueued, CoverageGraph;
    var st' := Crowded();
    forall i ensures Same(st, st', i) { Settled(Builds(Passed, Failed, Passed)[3 := Passed][4 := Queued], st, i); }
    SameEverywhere(st, st');
  }

  // ----- a pass that starts too many ---------------------------------------------------------

  /** Four runs are queued, three of which may run; the one that may not is the first. */
  ghost predicate CrowdedStart(s: Start)
  {
    && Starts(s) && s.g == CoverageGraph() && s.st == Crowded() && s.slots == 3 && s.broken == {}
    && |s.queued| == 4 && s.queued[0] == s.queued[2] == s.queued[3] == []
    && s.queued[1] != [] && s.queued[1][0] == 4
  }

  lemma CrowdedPasses(d: Item)
    ensures d in Crowded() && Crowded()[d] == Passed <==> d == 0 || d == 2 || d == 3
    ensures Terminal(Crowded(), d) <==> d <= 3
    ensures d in Crowded() <==> d <= 7
    ensures d in Crowded() && Crowded()[d] == Queued <==> 4 <= d <= 7
  {}

  lemma MayRunIn(i: Item)
    requires 4 <= i <= 8
    ensures i in CoverageGraph().jobs && (MayRun(CoverageGraph(), Crowded(), i) <==> i != 4)
  {
    var g, st := CoverageGraph(), Crowded();
    CoverageShape();
    forall d ensures Dep(g, i, d) <==> Needs(i, d) { CoverageDeps(i, d); }
    forall d ensures d in st && st[d] == Passed <==> d == 0 || d == 2 || d == 3 { CrowdedPasses(d); }
    hide CoverageGraph, Crowded, Dep, Distinct;
    assert i == 4 ==> Dep(g, i, 1);
    assert i == 8 ==> Dep(g, i, 3);
  }

  /** The queue of the builds is still empty when its turn comes. */
  lemma NoBuilds(s: Start, p: Pass)
    requires CrowdedStart(s) && Complete(s, p)
    ensures |p.queues| == 4 && p.queues[0] == []
  {
    assert TurnOk(s, p, 0) by { hide TurnOk, Starts, CoverageGraph, Crowded; }
    CoverageShape();
    hide IsPass, HeadsKnown, Served, ShareOf, AllGone, AnyBroke, AnyDropped, Starts, Distinct;
    if p.queues[0] != [] {
      var j := p.queues[0][0];
      assert Arrives(s, p, 0, j) by { hide Arrives, CoverageGraph, Crowded; }
      hide CoverageGraph;
      CrowdedPasses(j);
    }
  }

  lemma QueuedRuns(s: Start, p: Pass, i: Item)
    requires CrowdedStart(s) && Complete(s, p) && 4 <= i <= 7
    ensures |p.queues| == |p.popped| == 4 && i in p.queues[1] && p.queues[1] != [] && p.queues[1][0] == 4
      && Distinct(p.queues[1])
  {
    CoverageShape();
    CrowdedPasses(i);
    hide CoverageGraph, Crowded, Starts, Distinct, HeadsKnown, Served, ShareOf, Arrives;
    FoundInQueue(s, p, 1, i);
    assert TurnOk(s, p, 1);
  }

  /** The weights that the pass starts with, and those that its first two turns find. */
  lemma CrowdedWeights(s: Start, p: Pass)
    requires CrowdedStart(s) && Complete(s, p)
    ensures |p.queues| == 4 && HeadsKnown(s.g, s.queued) && HeadsKnown(s.g, p.queues)
    ensures HeadWeight(s.g, s.queued, 4) == 1 && HeadWeight(s.g, p.queues, 1) == 0 && HeadWeight(s.g, p.queues, 2) == 1
  {
    PassShape(s, p);
    CoverageShape();
    QueuedRuns(s, p, 4);
    NoBuilds(s, p);
    hide CoverageGraph, Crowded, Starts, Complete;
    assert s.g.jobs[4].weight == 1;
    HeadWeights(s.g, s.queued);
    HeadWeights(s.g, p.queues);
  }

  /** Four weights, added up. */
  lemma HeadWeights(g: Graph, q: seq<seq<Item>>)
    requires |q| == 4 && HeadsKnown(g, q)
    ensures HeadWeight(g, q, 0) == 0
    ensures HeadWeight(g, q, 1) == if q[0] == [] then 0 else g.jobs[q[0][0]].weight
    ensures HeadWeight(g, q, 2) == HeadWeight(g, q, 1) + if q[1] == [] then 0 else g.jobs[q[1][0]].weight
    ensures HeadWeight(g, q, 3) == HeadWeight(g, q, 2) + if q[2] == [] then 0 else g.jobs[q[2][0]].weight
    ensures HeadWeight(g, q, 4) == HeadWeight(g, q, 3) + if q[3] == [] then 0 else g.jobs[q[3][0]].weight
  {}

  /** The runs get all three slots. */
  lemma RunsShare(s: Start, p: Pass)
    requires CrowdedStart(s) && Complete(s, p)
    ensures |p.queues| == |p.popped| == 4 && HeadsKnown(s.g, s.queued) && HeadsKnown(s.g, p.queues)
    ensures ShareOf(s.g, s.queued, s.slots, p.queues, 1) == 3
    ensures Served(s.g, s.st, p.queues[1], p.popped[1], 3)
  {
    CrowdedWeights(s, p);
    assert TurnOk(s, p, 1) by { hide TurnOk; }
    hide CoverageGraph, Crowded, Starts, IsPass, HeadsKnown, HeadWeight, Served;
    assert Share(3, 0, 1) == 0 && Share(3, 1, 1) == 3;
  }

  /** Three of them can be taken. */
  lemma RunsTurn(s: Start, p: Pass)
    requires CrowdedStart(s) && Complete(s, p)
    ensures |p.queues| == 4 && HeadsKnown(s.g, s.queued) && HeadsKnown(s.g, p.queues) && TurnSize(s, p, 1) >= 3
  {
    RunsShare(s, p);
    forall i | 5 <= i <= 7 ensures i in Picks(s.g, s.st, p.queues[1]) {
      QueuedRuns(s, p, i);
      MayRunIn(i);
      hide CrowdedStart, Complete, CoverageGraph, Crowded, MayRun, Picks;
      PicksAre(s.g, s.st, p.queues[1]);
    }
    hide CrowdedStart, Complete, CoverageGraph, Crowded, MayRun, Picks, ShareOf, HeadsKnown;
    ThreeMembers(Picks(s.g, s.st, p.queues[1]), 5, 6, 7);
  }

  lemma ThreeMembers(l: seq<Item>, a: Item, b: Item, c: Item)
    requires a in l && b in l && c in l && a != b && b != c && a != c
    ensures |l| >= 3
  {
    var x :| 0 <= x < |l| && l[x] == a;
    var y :| 0 <= y < |l| && l[y] == b;
    var z :| 0 <= z < |l| && l[z] == c;
    assert x != y && y != z && x != z;
  }

  /** The run of the failed build is taken off first, and cancelled. */
  lemma RunDropped(s: Start, p: Pass)
    requires CrowdedStart(s) && Complete(s, p)
    ensures Dropped(s, p, 4)
  {
    RunsShare(s, p);
    QueuedRuns(s, p, 4);
    MayRunIn(4);
    CoverageShape();
    hide CrowdedStart, Complete, CoverageGraph, Crowded, MayRun, HeadsKnown, ShareOf;
    assert p.queues[1][..0] == [];
    assert p.popped[1] > 0;
    assert p.queues[1][..p.popped[1]][0] == 4;
  }

  /** What the merge depends on is gone, the last of it by being cancelled. */
  lemma MergeFreed(s: Start, p: Pass)
    requires CrowdedStart(s) && Dropped(s, p, 4)
    ensures AllGone(s, p, 8) && AnyDropped(s, p, 8) && !AnyBroke(s, p, 8)
  {
    hide Starts, Dropped, Gone, Dep, MayRun, CoverageGraph, Crowded, Terminal, Layers, Distinct;
    StartsSound(s);
    CoverageShape();
    CrowdedPasses(3);
    DepsBelow(s.g, 8);
    GoneParts(s, p, 3);
    GoneParts(s, p, 4);
    forall d ensures Dep(s.g, 8, d) <==> Needs(8, d) { CoverageDeps(8, d); }
    assert Dep(s.g, 8, 4);
  }

  /** So the merge, whose other run has passed, is queued late. */
  lemma MergeArrives(s: Start, p: Pass)
    requires CrowdedStart(s) && Complete(s, p)
    ensures |p.queues| == 4 && 8 in p.queues[2]
  {
    hide Starts, Dropped, CoverageGraph, Crowded, IsPass, AllGone, AnyDropped, AnyBroke, Distinct;
    RunDropped(s, p);
    MergeFreed(s, p);
    CoverageShape();
    CrowdedPasses(8);
    FoundInQueue(s, p, 2, 8);
  }

  /** Its weight was not in the total, so that its queue gets slots beyond the three. */
  lemma MergeShare(s: Start, p: Pass)
    requires CrowdedStart(s) && Complete(s, p)
    ensures |p.queues| == 4 && HeadsKnown(s.g, s.queued) && HeadsKnown(s.g, p.queues)
    ensures ShareOf(s.g, s.queued, s.slots, p.queues, 2) == 30
  {
    hide Complete, CoverageGraph, Crowded, Starts, HeadsKnown, Distinct, HeadWeight;
    CrowdedWeights(s, p);
    MergeArrives(s, p);
    MergeWeight(s, p, p.queues[2][0]);
    HeadWeights(s.g, p.queues);
    assert Share(3, 1, 1) == 3 && Share(3, 11, 1) == 33;
  }

  lemma MergeWeight(s: Start, p: Pass, j: Item)
    requires CrowdedStart(s) && Complete(s, p) && |p.queues| == 4 && j in p.queues[2]
    ensures j in s.g.jobs && s.g.jobs[j].weight == 10 && Distinct(p.queues[2])
  {
    hide Starts, Crowded, HeadsKnown, Served, ShareOf, Arrives, Distinct, CoverageGraph;
    assert TurnOk(s, p, 2);
    CoverageShape();
  }

  lemma MergeTurn(s: Start, p: Pass)
    requires CrowdedStart(s) && Complete(s, p)
    ensures |p.queues| == 4 && HeadsKnown(s.g, s.queued) && HeadsKnown(s.g, p.queues) && TurnSize(s, p, 2) >= 1
  {
    hide Complete, CoverageGraph, Crowded, Starts, HeadsKnown, Picks, MayRun, Distinct, ShareOf;
    MergeShare(s, p);
    MergeArrives(s, p);
    MergeWeight(s, p, 8);
    MayRunIn(8);
    PicksAre(s.g, s.st, p.queues[2]);
    assert 8 in Picks(s.g, s.st, p.queues[2]);
  }

  /** Every pass from such a state takes more items than there are slots. */
  lemma Overruns(s: Start, p: Pass)
    requires CrowdedStart(s) && Complete(s, p)
    ensures Size(s, p) > 3
  {
    RunsTurn(s, p);
    MergeTurn(s, p);
    hide CrowdedStart, Complete, HeadsKnown, Picks, ShareOf;
    ShareNonNegative(s, p, 0);
    ShareNonNegative(s, p, 3);
    FourTurns(s, p);
  }

  lemma FourTurns(s: Start, p: Pass)
    requires HeadsKnown(s.g, s.queued) && HeadsKnown(s.g, p.queues) && |p.queues| == 4
    ensures Size(s, p) == TurnSize(s, p, 0) + TurnSize(s, p, 1) + TurnSize(s, p, 2) + TurnSize(s, p, 3)
  {
    hide TurnSize, HeadsKnown;
    assert PassSize(s, p, 0) == 0;
    assert PassSize(s, p, 1) == TurnSize(s, p, 0);
    assert PassSize(s, p, 2) == TurnSize(s, p, 0) + TurnSize(s, p, 1);
    assert PassSize(s, p, 3) == PassSize(s, p, 2) + TurnSize(s, p, 2);
  }

  // ----- the run -----------------------------------------------------------------------------

  /** Takes the final answer of a running item. */
  method Finish(s: Scheduler, item: Item, v: Status)
    requires s.Valid({}, {}) && item in s.itemStatus && s.itemStatus[item] == Dispatched && Final(v)
    modifies s
    ensures s.Valid({}, {}) && Sound(s.g, s.itemStatus, {})
    ensures OnlyQueued(old(s.itemStatus)[item := v], s.itemStatus)
    ensures TotalLength(s.running) == TotalLength(old(s.running)) - 1
    ensures |s.queued| == |old(s.queued)| && forall u :: 0 <= u < |s.queued| ==> old(s.queued)[u] <= s.queued[u]
  {
    hide s.Valid, OnlyQueued, TotalLength, Sound, Layers, ListsOk;
    s.RunningFacts(item, {});
    var t := s.g.jobs[item].target;
    s.Conclude(t, IndexOf(s.running[t], item), v);
    s.QueuesListed();
  }

  lemma QueueHolds(s: Scheduler, u: nat, i: Item)
    requires s.Valid({}, {})
    ensures |s.queued| == s.g.targets
    ensures u < |s.queued| ==>
      Distinct(s.queued[u]) && (i in s.queued[u] <==> Belongs(s.g, s.itemStatus, Queued, {}, u, i))
  {
    hide Layered, Sound, Launched, AtTarget;
  }

  /** Every queued item may run, only one target has any, and there is a slot for each. */
  ghost predicate OneQueueFits(s: Scheduler, t: nat)
    reads s
  {
    && s.Valid({}, {}) && s.broken == {} && t < |s.queued| && s.queued[t] != []
    && TotalLength(s.running) + |s.queued[t]| <= s.maxParallel
    && (forall u :: 0 <= u < |s.queued| && u != t ==> s.queued[u] == [])
    && forall i :: i in s.itemStatus && s.itemStatus[i] == Queued ==> i in s.g.jobs && MayRun(s.g, s.itemStatus, i)
  }

  /** Then a dispatch pass launches them all. */
  method LaunchQueue(s: Scheduler, ghost t: nat)
    requires OneQueueFits(s, t)
    modifies s
    ensures s.Valid({}, {}) && AllStarted(old(s.itemStatus), s.itemStatus)
    ensures TotalLength(s.running) == TotalLength(old(s.running)) + |old(s.queued)[t]|
  {
    hide s.Valid, TotalLength, Sound, Layers, ListsOk, Forward, MayRun, Size, Calm, AllQueuedMayRun, LateWeight, Share;
    hide TotalHeadWeight, Progress, Working, AllStarted, IsPass, InPass, Starts, AllTaken, Gone;
    ghost var start := Start(s.g, s.itemStatus, s.queued, s.maxParallel - TotalLength(s.running), {});
    s.QueueHeads();
    ghost var allotted, pass := s.Dispatch();
    OneQueuePass(start, pass, t);
    ClearPass(start, pass);
    s.QueueHeads();
    s.QueuesListed();
    assert forall u :: 0 <= u < |s.queued| ==> s.queued[u] == [];
    forall i | i in s.itemStatus ensures s.itemStatus[i] != Queued { NothingQueued(s, i); }
    ClearStatuses(start, pass, s.itemStatus);
    WorkingAll(start.queued[t], {});
  }

  lemma NothingQueued(s: Scheduler, i: Item)
    requires s.Valid({}, {}) && i in s.itemStatus && forall u :: 0 <= u < |s.queued| ==> s.queued[u] == []
    ensures s.itemStatus[i] != Queued
  {
    hide HasDependency, HasDependant, Launched, AtTarget;
    assert i in s.g.jobs && s.g.jobs[i].target < s.g.targets by { hide TablesOk; }
    hide Sound, Layered;
    assert i !in s.queued[s.g.jobs[i].target];
  }

  lemma NobodyRuns(s: Scheduler)
    requires s.Valid({}, {}) && forall i :: i in s.itemStatus ==> s.itemStatus[i] != Dispatched
    ensures TotalLength(s.running) == 0
  {
    hide Layered, Sound, Launched, AtTarget;
    forall t | 0 <= t < |s.running| ensures s.running[t] == [] {
      assert forall i :: i in s.running[t] <==> Belongs(s.g, s.itemStatus, Dispatched, {}, t, i);
      NoElements(s.running[t]);
    }
    EmptyTotal(s.running);
  }

  /** With the given statuses, the queue of target u holds exactly these items. */
  lemma QueueIs(s: Scheduler, u: nat, items: set<Item>)
    requires s.Valid({}, {}) && u < |s.queued|
      && forall i: Item :: i in items <==> Belongs(s.g, s.itemStatus, Queued, {}, u, i)
    ensures Distinct(s.queued[u]) && |s.queued[u]| == |items| && forall i: Item :: i in s.queued[u] <==> i in items
  {
    hide s.Valid, Belongs;
    QueueHolds(s, u, 0);
    forall i: Item ensures i in s.queued[u] <==> i in items { QueueHolds(s, u, i); }
    DistinctSize(s.queued[u]);
    assert ListSet(s.queued[u]) == items;
  }

  /** The scheduler at the start of the run, with the builds queued. */
  method Begin() returns (s: Scheduler)
    ensures fresh(s) && s.maxParallel == 3 && s.broken == {} && s.g == CoverageGraph() && s.Valid({}, {})
    ensures s.itemStatus == Builds(Queued, Queued, Queued)
  {
    var g := CoverageGraph();
    CoverageLayers();
    CoverageCovered();
    CoverageShape();
    hide Layers, Covered, Sound, TablesOk, CoverageGraph, Builds, OnlyQueued, ListsOk, Distinct;
    s := new Scheduler(g.items, g, 3, 3, {}, map[]);
    hide s.Valid;
    s.EnqueueFirst();
    s.QueuesListed();
    FirstQueued(s.itemStatus);
  }

  /** The queued items are the given ones, all of target t, and they may run. */
  ghost predicate OnlyTheseQueued(g: Graph, st: Statuses, t: nat, items: set<Item>)
  {
    && (forall u: nat, i: Item :: Belongs(g, st, Queued, {}, u, i) <==> u == t && i in items)
    && (forall i :: i in st && st[i] == Queued ==> i in g.jobs && MayRun(g, st, i))
  }

  lemma TheseFit(s: Scheduler, t: nat, items: set<Item>)
    requires s.Valid({}, {}) && s.broken == {} && t < s.g.targets && items != {}
    requires OnlyTheseQueued(s.g, s.itemStatus, t, items) && TotalLength(s.running) + |items| <= s.maxParallel
    ensures OneQueueFits(s, t) && |s.queued[t]| == |items|
  {
    hide s.Valid, Belongs, MayRun, TotalLength, Distinct;
    QueueHolds(s, t, 0);
    QueueIs(s, t, items);
    forall u | 0 <= u < |s.queued| && u != t ensures s.queued[u] == [] { QueueIs(s, u, {}); }
  }

  lemma BuildsFirst()
    ensures OnlyTheseQueued(CoverageGraph(), Builds(Queued, Queued, Queued), 0, {0, 1, 2})
  {
    var g, st := CoverageGraph(), Builds(Queued, Queued, Queued);
    CoverageShape();
    hide CoverageGraph, Dep, Distinct;
    forall i | i in st ensures MayRun(g, st, i) {
      forall d ensures !Dep(g, i, d) { CoverageDeps(i, d); }
    }
  }

  lemma RunFirst()
    ensures OnlyTheseQueued(CoverageGraph(), Builds(Passed, Dispatched, Dispatched)[3 := Queued], 1, {3})
  {
    var g, st := CoverageGraph(), Builds(Passed, Dispatched, Dispatched)[3 := Queued];
    CoverageShape();
    hide CoverageGraph, Dep, Distinct;
    forall d ensures Dep(g, 3, d) <==> Needs(3, d) { CoverageDeps(3, d); }
    assert MayRun(g, st, 3);
    hide MayRun;
  }

  ghost predicate Ours(s: Scheduler)
    reads s
  {
    s.maxParallel == 3 && s.broken == {} && s.g == CoverageGraph() && s.Valid({}, {})
  }

  /** The three builds are launched, and the first one passes. */
  method FirstBuild(s: Scheduler)
    requires Ours(s) && s.itemStatus == Builds(Queued, Queued, Queued)
    modifies s
    ensures Ours(s) && s.itemStatus == Builds(Passed, Dispatched, Dispatched)[3 := Queued]
      && TotalLength(s.running) == 2
  {
    hide s.Valid, CoverageGraph, OneQueueFits, OnlyTheseQueued, Sound, OnlyQueued, TotalLength;
    NobodyRuns(s);
    BuildsFirst();
    CoverageShape();
    TheseFit(s, 0, {0, 1, 2});
    LaunchQueue(s, 0);
    AllBuilding(s.itemStatus);
    Finish(s, 0, Passed);
    BuildPassed(s.itemStatus);
  }

  lemma AllBuilding(st: Statuses)
    requires AllStarted(Builds(Queued, Queued, Queued), st)
    ensures st == Builds(Dispatched, Dispatched, Dispatched)
  {}

  /** Its run is launched and passes. */
  method FirstRun(s: Scheduler)
    requires Ours(s) && s.itemStatus == Builds(Passed, Dispatched, Dispatched)[3 := Queued]
    requires TotalLength(s.running) == 2
    modifies s
    ensures Ours(s) && s.itemStatus == Builds(Passed, Dispatched, Dispatched)[3 := Passed]
  {
    hide s.Valid, CoverageGraph, OneQueueFits, OnlyTheseQueued, Sound, OnlyQueued, TotalLength;
    RunFirst();
    CoverageShape();
    TheseFit(s, 1, {3});
    LaunchQueue(s, 1);
    RunStarted(s.itemStatus);
    Finish(s, 3, Passed);
    assert Builds(Passed, Dispatched, Dispatched)[3 := Dispatched][3 := Passed]
        == Builds(Passed, Dispatched, Dispatched)[3 := Passed];
    RunPassed(s.itemStatus);
  }

  lemma RunStarted(st: Statuses)
    requires AllStarted(Builds(Passed, Dispatched, Dispatched)[3 := Queued], st)
    ensures st == Builds(Passed, Dispatched, Dispatched)[3 := Dispatched]
  {}

  /** The second build fails and the third passes: the queue of runs starts with the one that may not run. */
  method OtherBuilds(s: Scheduler)
    requires Ours(s) && s.itemStatus == Builds(Passed, Dispatched, Dispatched)[3 := Passed]
    modifies s
    ensures Ours(s) && s.itemStatus == Crowded() && |s.queued| == 4 && s.queued[1] != [] && s.queued[1][0] == 4
  {
    hide s.Valid, CoverageGraph, Sound, OnlyQueued, TotalLength, Belongs, Distinct;
    Finish(s, 1, Failed);
    assert Builds(Passed, Dispatched, Dispatched)[3 := Passed][1 := Failed]
        == Builds(Passed, Failed, Dispatched)[3 := Passed];
    BuildFailed(s.itemStatus);
    FailedRunQueued();
    CoverageShape();
    QueueHolds(s, 1, 4);
    QueueIs(s, 1, {4});
    HeadOfOne(s.queued[1], 4);
    Finish(s, 2, Passed);
    assert Builds(Passed, Failed, Dispatched)[3 := Passed][4 := Queued][2 := Passed]
        == Builds(Passed, Failed, Passed)[3 := Passed][4 := Queued];
    RunsQueued(s.itemStatus);
  }

  lemma FailedRunQueued()
    ensures var g, st := CoverageGraph(), Builds(Passed, Failed, Dispatched)[3 := Passed][4 := Queued];
      forall i: Item :: i in {4} <==> Belongs(g, st, Queued, {}, 1, i)
  {
    CoverageShape();
    hide CoverageGraph, Distinct;
  }

  lemma HeadOfOne(l: seq<Item>, i: Item)
    requires |l| == |{i}| && forall x: Item :: x in l <==> x in {i}
    ensures l == [i]
  {
    assert l[0] in l;
  }

  /** `max_parallel` is not a bound: no launch fails, three slots are there, and more than three jobs run. */
  method RunsTooMany() returns (s: Scheduler)
    ensures fresh(s) && s.maxParallel == 3 && s.broken == {} && s.Valid({}, {}) && TotalLength(s.running) > 3
  {
    hide s.Valid, CoverageGraph, Builds, TotalLength;
    s := Begin();
    FirstBuild(s);
    FirstRun(s);
    OtherBuilds(s);
    LaunchTooMany(s);
  }

  method LaunchTooMany(s: Scheduler)
    requires Ours(s) && s.itemStatus == Crowded() && |s.queued| == 4 && s.queued[1] != [] && s.queued[1][0] == 4
    modifies s
    ensures Ours(s) && TotalLength(s.running) > 3
  {
    hide s.Valid, CoverageGraph, Builds, TotalLength, Crowded, Calm, LateWeight, Share, Progress, Size, Forward;
    hide AllQueuedMayRun, TotalHeadWeight, IsPass, InPass, Leftover, AllTaken, RunningGrew;
    ghost var start := Start(s.g, s.itemStatus, s.queued, 3, {});
    CrowdedQueues(s);
    ghost var allotted, pass := s.Dispatch();
    Overruns(start, pass);
  }

  lemma CrowdedQueues(s: Scheduler)
    requires Ours(s) && s.itemStatus == Crowded() && |s.queued| == 4 && s.queued[1] != [] && s.queued[1][0] == 4
    ensures TotalLength(s.running) == 0
    ensures CrowdedStart(Start(s.g, s.itemStatus, s.queued, 3, {}))
  {
    hide s.Valid, CoverageGraph, TotalLength, Crowded, Distinct, ListsOk, Layers, Sound;
    forall i ensures i in Crowded() ==> Crowded()[i] != Dispatched { NotDispatched(i); }
    NobodyRuns(s);
    s.QueuesListed();
    CoverageShape();
    forall u | u == 0 || u == 2 || u == 3 ensures s.queued[u] == [] {
      forall i: Item ensures i in {} <==> Belongs(s.g, s.itemStatus, Queued, {}, u, i) { CrowdedPasses(i); }
      QueueIs(s, u, {});
    }
  }

  lemma NotDispatched(i: Item)
    ensures i in Crowded() ==> Crowded()[i] != Dispatched
  {}
}
