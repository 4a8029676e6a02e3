/** The jobs a dvsim scheduler is given, their statuses, and what every status change keeps. */
module JobGraph {
  import opened Basics

  type Item = nat
  type Cfg = nat

  /** A Deploy item. Targets are numbered in the order in which the scheduler first meets them. */
  datatype Job = Job(target: nat, cfg: Cfg, deps: seq<Item>, needsAll: bool, weight: nat)

  datatype Status = Queued | Dispatched | Passed | Failed | Killed

  type Statuses = map<Item, Status>

  /** The items in scope, each once, and how many targets they are spread over. */
  datatype Graph = Graph(items: seq<Item>, jobs: map<Item, Job>, targets: nat)

  /** d is a dependency of i, and both are in scope. */
  predicate Dep(g: Graph, i: Item, d: Item)
  {
    i in g.jobs && d in g.jobs && d in g.jobs[i].deps
  }

  /** The layered shape of the deploy lists: builds, then runs, then coverage merging and reporting,
      each depending only on the previous layer of its own configuration. */
  ghost predicate Layers(g: Graph)
  {
    && g.targets >= 1
    && Distinct(g.items) && (forall i :: i in g.items <==> i in g.jobs)
    && (forall i :: i in g.jobs ==> g.jobs[i].target < g.targets && g.jobs[i].weight >= 1)
    && (forall i, d :: Dep(g, i, d) ==> g.jobs[d].target + 1 == g.jobs[i].target && g.jobs[d].cfg == g.jobs[i].cfg)
    && (forall i :: i in g.jobs && g.jobs[i].target > 0 ==> HasDependency(g, i))
  }

  /** Somebody depends on every item that is not in the last target. */
  ghost predicate Covered(g: Graph)
  {
    forall i :: i in g.jobs && g.jobs[i].target + 1 < g.targets ==> HasDependant(g, i)
  }

  ghost predicate Layered(g: Graph)
  {
    Layers(g) && Covered(g)
  }

  ghost predicate HasDependency(g: Graph, i: Item)
  {
    exists d :: Dep(g, i, d)
  }

  ghost predicate HasDependant(g: Graph, i: Item)
  {
    exists j :: Dep(g, j, i)
  }

  predicate Final(v: Status)
  {
    v == Passed || v == Failed || v == Killed
  }

  predicate Terminal(st: Statuses, i: Item)
  {
    i in st && Final(st[i])
  }

  /** Every dependency of i that is in scope has finished. */
  ghost predicate Ready(g: Graph, st: Statuses, i: Item)
  {
    forall d :: Dep(g, i, d) ==> Terminal(st, d)
  }

  /** Enough dependencies of i have passed for it to run. */
  ghost predicate MayRun(g: Graph, st: Statuses, i: Item)
    requires i in g.jobs
  {
    if g.jobs[i].needsAll
    then forall d :: Dep(g, i, d) ==> d in st && st[d] == Passed
    else exists d :: Dep(g, i, d) && d in st && st[d] == Passed
  }

  /** What every reachable status map satisfies: an item has a status only if its dependencies have
      finished; an item without one still waits for a dependency, except for those in `pending`. */
  ghost predicate Sound(g: Graph, st: Statuses, pending: set<Item>)
  {
    && (forall i :: i in st ==> i in g.jobs && Ready(g, st, i))
    && (forall i :: i in g.jobs && i !in st && i !in pending ==> !Ready(g, st, i))
    && (forall i :: i in pending ==> i in g.jobs && i !in st && Ready(g, st, i))
  }

  /** The calls of `launcher.launch()` so far: each item at most once, only items that may run, and
      every item that is dispatched or has passed or failed was launched. */
  ghost predicate Launched(g: Graph, st: Statuses, launches: seq<Item>)
  {
    && Distinct(launches)
    && (forall i :: i in launches ==> i in g.jobs && i in st && st[i] != Queued && MayRun(g, st, i))
    && (forall i :: i in st && (st[i] == Dispatched || st[i] == Passed || st[i] == Failed) ==> i in launches)
  }

  /** The final answers launchers have given: they are the statuses of the items that gave them, and
      nothing has passed or failed without one. */
  ghost predicate Reported(st: Statuses, answers: Statuses)
  {
    && (forall i :: i in answers ==> i in st && st[i] == answers[i] && Final(st[i]))
    && (forall i :: i in st && (st[i] == Passed || st[i] == Failed) ==> i in answers)
  }

  lemma ReportedKept(st: Statuses, answers: Statuses, i: Item, v: Status)
    requires Reported(st, answers) && !Terminal(st, i) && v != Passed && v != Failed
    ensures Reported(st[i := v], answers)
  {}

  lemma ReportedAnswer(st: Statuses, answers: Statuses, i: Item, v: Status)
    requires Reported(st, answers) && Final(v)
    ensures Reported(st[i := v], answers[i := v])
  {}

  /** The scheduled items that wait for nothing else once i has finished. */
  ghost function Freed(g: Graph, st: Statuses, i: Item): set<Item>
  {
    set j | j in g.jobs && j !in st && Dep(g, j, i) && Ready(g, st, j)
  }

  // ----- single status changes ---------------------------------------------------------------

  lemma InitialSound(g: Graph)
    requires Layers(g)
    ensures Sound(g, map[], set i | i in g.jobs && g.jobs[i].target == 0) && Launched(g, map[], [])
  {
    hide HasDependency;
    forall i | i in g.jobs ensures Ready(g, map[], i) <==> g.jobs[i].target == 0 {
      InitiallyReady(g, i);
    }
  }

  lemma InitiallyReady(g: Graph, i: Item)
    requires Layers(g) && i in g.jobs
    ensures Ready(g, map[], i) <==> g.jobs[i].target == 0
  {
    if g.jobs[i].target > 0 {
      assert HasDependency(g, i);
      var d :| Dep(g, i, d);
      assert !Terminal(map[], d);
    }
  }

  /** A change that finishes nobody makes nobody ready. */
  lemma ReadySame(g: Graph, st: Statuses, i: Item, v: Status, j: Item)
    requires !Terminal(st, i) && !Final(v)
    ensures Ready(g, st[i := v], j) == Ready(g, st, j)
  {
    var st' := st[i := v];
    assert forall d :: Terminal(st', d) == Terminal(st, d);
  }

  /** A ready item's dependencies are settled, so whether it may run is settled too. */
  lemma MayRunSettled(g: Graph, st: Statuses, i: Item, v: Status, j: Item)
    requires j in g.jobs && Ready(g, st, j) && !Terminal(st, i)
    ensures MayRun(g, st[i := v], j) == MayRun(g, st, j)
  {
    assert forall d :: Dep(g, j, d) ==> d != i;
  }

  lemma LaunchedKept(g: Graph, st: Statuses, pending: set<Item>, i: Item, v: Status, launches: seq<Item>)
    requires Sound(g, st, pending) && Launched(g, st, launches) && !Terminal(st, i)
    requires i in launches ==> v != Queued
    requires v == Dispatched || v == Passed || v == Failed ==> i in launches
    ensures Launched(g, st[i := v], launches)
  {
    forall j | j in launches ensures MayRun(g, st[i := v], j) { MayRunSettled(g, st, i, v, j); }
  }

  /** Queueing an item that waits for nothing. */
  lemma EnqueueSound(g: Graph, st: Statuses, pending: set<Item>, i: Item, launches: seq<Item>)
    requires Sound(g, st, pending) && i in pending && Launched(g, st, launches)
    ensures Sound(g, st[i := Queued], pending - {i}) && Launched(g, st[i := Queued], launches)
  {
    forall j ensures Ready(g, st[i := Queued], j) == Ready(g, st, j) { ReadySame(g, st, i, Queued, j); }
    LaunchedKept(g, st, pending, i, Queued, launches);
  }

  /** Launching a queued item that may run. */
  lemma LaunchSound(g: Graph, st: Statuses, pending: set<Item>, i: Item, launches: seq<Item>)
    requires Sound(g, st, pending) && i in st && st[i] == Queued && Launched(g, st, launches) && MayRun(g, st, i)
    ensures Sound(g, st[i := Dispatched], pending) && Launched(g, st[i := Dispatched], launches + [i])
  {
    var st' := st[i := Dispatched];
    forall j ensures Ready(g, st', j) == Ready(g, st, j) { ReadySame(g, st, i, Dispatched, j); }
    forall j | j in launches + [i] ensures MayRun(g, st', j) { MayRunSettled(g, st, i, Dispatched, j); }
    assert i !in launches;
  }

  /** Finishing an item frees exactly the items that waited for it last. */
  lemma FinishSound(g: Graph, st: Statuses, pending: set<Item>, i: Item, v: Status, launches: seq<Item>)
    requires Sound(g, st, pending) && !Terminal(st, i) && (i in st || i in pending) && Final(v)
    requires Launched(g, st, launches) && (v != Killed ==> i in launches)
    ensures Sound(g, st[i := v], pending - {i} + Freed(g, st[i := v], i))
    ensures Launched(g, st[i := v], launches)
    ensures forall j :: Dep(g, j, i) ==> j !in st[i := v] && j !in pending
  {
    var st' := st[i := v];
    var pending' := pending - {i} + Freed(g, st', i);
    forall j | j !in st && Dep(g, j, i) ensures j !in pending { assert !Terminal(st, i); }
    forall j | Dep(g, j, i) ensures j !in st' {
      assert Ready(g, st, i) && !Ready(g, st, j);
    }
    forall j | j in st || j in pending ensures Ready(g, st', j) {
      assert Ready(g, st, j);
      assert forall d :: Terminal(st, d) ==> Terminal(st', d);
    }
    forall j | j in g.jobs && j !in st' && j !in pending' ensures !Ready(g, st', j) {
      if Ready(g, st', j) {
        assert !Dep(g, j, i);
        assert forall d :: Dep(g, j, d) ==> Terminal(st', d) && d != i;
        assert Ready(g, st, j);
      }
    }
    LaunchedKept(g, st, pending, i, v, launches);
  }

  // ----- whole runs --------------------------------------------------------------------------

  /** No stuck runs: when nothing is queued or dispatched, every item has finished. */
  lemma NothingActiveAllDone(g: Graph, st: Statuses, i: Item)
    requires Layers(g) && Sound(g, st, {}) && i in g.jobs
    requires forall j :: j in st ==> Final(st[j])
    ensures Terminal(st, i)
    decreases g.jobs[i].target
  {
    if i !in st {
      var d :| Dep(g, i, d) && !Terminal(st, d);
      NothingActiveAllDone(g, st, d);
    }
  }

  /** How far an item is from finishing: scheduled 3, queued 2, dispatched 1, finished 0. */
  function Rank(st: Statuses, i: Item): nat
  {
    if i !in st then 3 else if st[i] == Queued then 2 else if st[i] == Dispatched then 1 else 0
  }

  /** Statuses only move forward, and a final status stays. */
  ghost predicate Forward(st: Statuses, st': Statuses)
  {
    forall i :: i in st ==> i in st' && Rank(st', i) <= Rank(st, i) && (Final(st[i]) ==> st'[i] == st[i])
  }

  lemma ForwardTransitive(a: Statuses, b: Statuses, c: Statuses)
    requires Forward(a, b) && Forward(b, c)
    ensures Forward(a, c)
  {}

  /** Remaining work: ranks plus the `D` answers each job may still give. */
  function Work(items: seq<Item>, st: Statuses, patience: map<Item, nat>): nat
  {
    if |items| == 0 then 0
    else
      var i := items[|items| - 1];
      Work(items[..|items| - 1], st, patience) + Rank(st, i) + if i in patience then patience[i] else 0
  }

  ghost predicate Shrinks(patience: map<Item, nat>, patience': map<Item, nat>)
  {
    forall i :: i in patience' ==> i in patience && patience'[i] <= patience[i]
  }

  lemma {:induction false} WorkMonotone(items: seq<Item>, st: Statuses, p: map<Item, nat>, st': Statuses,
                                        p': map<Item, nat>)
    requires Forward(st, st') && Shrinks(p, p')
    ensures Work(items, st', p') <= Work(items, st, p)
    ensures (exists i :: i in items && Rank(st', i) < Rank(st, i)) ==> Work(items, st', p') < Work(items, st, p)
    ensures (exists i :: i in items && i in p && i in p' && p'[i] < p[i]) ==> Work(items, st', p') < Work(items, st, p)
  {
    if |items| > 0 {
      var n := |items| - 1;
      assert items == items[..n] + [items[n]];
      WorkMonotone(items[..n], st, p, st', p');
      assert Rank(st', items[n]) <= Rank(st, items[n]);
    }
  }
}
