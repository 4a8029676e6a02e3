/** When the lookup of a finished item's configuration in the next target fails: the list is gone once
    all its items have a status. */
module JobLookup {
  import opened Basics
  import opened JobGraph
  import opened JobTables

  /** There is a next target, and every item in it of i's configuration has a status. */
  ghost predicate LookupFails(g: Graph, st: Statuses, i: Item)
    requires i in g.jobs
  {
    && g.jobs[i].target + 1 < g.targets
    && forall j :: j in g.jobs && KeyOf(g, j) == Key(g.jobs[i].target + 1, g.jobs[i].cfg) ==> j in st
  }

  /** That is when the key is missing from the dictionary. */
  lemma LookupFailsIff(g: Graph, sched: Schedule, st: Statuses, i: Item)
    requires ScheduleOk(g, sched, st) && i in g.jobs
    ensures LookupFails(g, st, i) <==>
      g.jobs[i].target + 1 < g.targets && Key(g.jobs[i].target + 1, g.jobs[i].cfg) !in sched
  {
    KeyPresentIff(g, sched, st, Key(g.jobs[i].target + 1, g.jobs[i].cfg));
    hide ScheduleOk;
  }

  // ----- runs --------------------------------------------------------------------------------

  /** The statuses, and the launches so far. */
  datatype State = State(st: Statuses, launches: seq<Item>)

  /** The given items, if they have no status yet, are queued. */
  ghost function WithQueued(g: Graph, st: Statuses, items: set<Item>): Statuses
  {
    map j | j in g.jobs && (j in st || j in items) :: if j in st then st[j] else Queued
  }

  /** i may finish with v: its launcher answers, or it is taken off its queue and may not run. */
  ghost predicate Finishes(g: Graph, st: Statuses, i: Item, v: Status)
  {
    && i in g.jobs && i in st && Final(v)
    && (st[i] == Dispatched || (st[i] == Queued && !MayRun(g, st, i) && v == Killed))
  }

  ghost predicate LaunchStep(g: Graph, a: State, b: State, i: Item)
  {
    && i in g.jobs && i in a.st && a.st[i] == Queued && MayRun(g, a.st, i)
    && b == State(a.st[i := Dispatched], a.launches + [i])
  }

  ghost predicate FinishStep(g: Graph, a: State, b: State, i: Item, v: Status)
  {
    && Finishes(g, a.st, i, v) && !LookupFails(g, a.st[i := v], i)
    && b == State(WithQueued(g, a.st[i := v], Freed(g, a.st[i := v], i)), a.launches)
  }

  /** A step: a queued item that may run is launched, or an item finishes and its lookup succeeds. */
  ghost predicate Step(g: Graph, a: State, b: State)
  {
    (exists i :: LaunchStep(g, a, b, i)) || (exists i, v :: FinishStep(g, a, b, i, v))
  }

  ghost function AtStart(g: Graph): State
  {
    State(WithQueued(g, map[], set i | i in g.jobs && g.jobs[i].target == 0), [])
  }

  /** Any number of steps from the start, in any order. */
  ghost predicate Reached(g: Graph, run: seq<State>)
  {
    && |run| >= 1 && run[0] == AtStart(g)
    && forall n, m :: 0 <= n && m == n + 1 && m < |run| ==> Step(g, run[n], run[m])
  }

  ghost predicate FailsAfter(g: Graph, run: seq<State>, i: Item, v: Status)
  {
    && Reached(g, run)
    && Finishes(g, run[|run| - 1].st, i, v) && LookupFails(g, run[|run| - 1].st[i := v], i)
  }

  /** Some steps lead to a state in which an item finishes and its lookup fails. */
  ghost predicate CanFail(g: Graph)
  {
    exists run, i, v :: FailsAfter(g, run, i, v)
  }

  // ----- runs keep the invariants ------------------------------------------------------------

  ghost predicate Kept(g: Graph, a: State)
  {
    Sound(g, a.st, {}) && Launched(g, a.st, a.launches)
  }

  lemma StartKept(g: Graph)
    requires Layers(g)
    ensures Kept(g, AtStart(g))
  {
    InitialSound(g);
    hide Layers, Sound, Launched, WithQueued;
    QueuedSound(g, map[], set i | i in g.jobs && g.jobs[i].target == 0, []);
  }

  /** Queueing all that is free. */
  lemma QueuedSound(g: Graph, st: Statuses, pending: set<Item>, launches: seq<Item>)
    requires Sound(g, st, pending) && Launched(g, st, launches)
    ensures Sound(g, WithQueued(g, st, pending), {}) && Launched(g, WithQueued(g, st, pending), launches)
  {
    hide Ready, MayRun, Distinct;
    var st' := WithQueued(g, st, pending);
    assert forall d :: Terminal(st', d) <==> Terminal(st, d);
    assert forall d :: d in st' && st'[d] == Passed <==> d in st && st[d] == Passed;
    forall j ensures Ready(g, st', j) <==> Ready(g, st, j) { SameReady(g, st, st', j); }
    forall j | j in g.jobs ensures MayRun(g, st', j) == MayRun(g, st, j) { SameRunnable(g, st, st', j); }
  }

  lemma SameReady(g: Graph, st: Statuses, st': Statuses, j: Item)
    requires forall d :: Terminal(st', d) <==> Terminal(st, d)
    ensures Ready(g, st', j) <==> Ready(g, st, j)
  {
    hide Terminal;
  }

  lemma SameRunnable(g: Graph, st: Statuses, st': Statuses, j: Item)
    requires j in g.jobs && forall d :: d in st' && st'[d] == Passed <==> d in st && st[d] == Passed
    ensures MayRun(g, st', j) == MayRun(g, st, j)
  {}

  lemma StepKept(g: Graph, a: State, b: State)
    requires Kept(g, a) && Step(g, a, b)
    ensures Kept(g, b)
  {
    hide Sound, Launched, MayRun, LookupFails;
    if i :| LaunchStep(g, a, b, i) {
      LaunchSound(g, a.st, {}, i, a.launches);
    } else {
      var i, v :| FinishStep(g, a, b, i, v);
      FinishKept(g, a, i, v);
    }
  }

  lemma FinishKept(g: Graph, a: State, i: Item, v: Status)
    requires Kept(g, a) && Finishes(g, a.st, i, v)
    ensures Kept(g, State(WithQueued(g, a.st[i := v], Freed(g, a.st[i := v], i)), a.launches))
  {
    var st := a.st[i := v];
    assert v != Killed ==> i in a.launches by { hide Sound, MayRun; }
    hide Sound, Launched, MayRun, Freed, WithQueued;
    FinishSound(g, a.st, {}, i, v, a.launches);
    assert {} - {i} + Freed(g, st, i) == Freed(g, st, i);
    QueuedSound(g, st, Freed(g, st, i), a.launches);
  }

  lemma {:induction false} ReachedKept(g: Graph, run: seq<State>)
    requires Layers(g) && Reached(g, run)
    ensures Kept(g, run[|run| - 1])
    decreases |run|
  {
    hide Layers, Kept, Step;
    var n := |run| - 1;
    if n == 0 {
      StartKept(g);
    } else {
      ReachedKept(g, run[..n]);
      StepKept(g, run[n - 1], run[n]);
    }
  }

  // ----- when a lookup can fail --------------------------------------------------------------

  /** In a layered graph some run leads to a lookup that fails if and only if some item before the last
      target has no dependant. */
  lemma CoveredExact(g: Graph)
    requires Layers(g)
    ensures CanFail(g) <==> !Covered(g)
  {
    hide Layers, Reached, Finishes, LookupFails, HasDependant;
    if run: seq<State>, i, v :| FailsAfter(g, run, i, v) {
      ReachedShape(g, run);
      ReachedKept(g, run);
      FinishesNext(g, run[|run| - 1].st, i, v);
      if HasDependant(g, i) { NeverFails(g, run[|run| - 1].st, i, v); }
    }
    if i :| i in g.jobs && g.jobs[i].target + 1 < g.targets && !HasDependant(g, i) {
      var run := [AtStart(g)];
      StartReached(g);
      assert !Terminal(AtStart(g).st, i);
      DelayedFails(g, run, i);
    }
  }

  lemma StartReached(g: Graph)
    ensures Reached(g, [AtStart(g)])
  {}

  lemma FinishesNext(g: Graph, st: Statuses, i: Item, v: Status)
    requires Finishes(g, st, i, v) && LookupFails(g, st[i := v], i)
    ensures i in g.jobs && i in st && !Terminal(st, i) && g.jobs[i].target + 1 < g.targets
  {
    hide MayRun;
  }

  /** Whatever finishes an item that somebody depends on, from any state that keeps the invariants. */
  lemma NeverFails(g: Graph, st: Statuses, i: Item, v: Status)
    requires Layers(g) && Sound(g, st, {}) && HasDependant(g, i) && i in st && !Terminal(st, i) && i in g.jobs
    ensures !LookupFails(g, st[i := v], i)
  {
    var j :| Dep(g, j, i);
    DependantKeys(g, i);
    hide Layers;
    assert j in st ==> Ready(g, st, j);
  }

  /** An active item other than i, up to i's target. */
  predicate Other(g: Graph, st: Statuses, i: Item, x: Item)
  {
    && i in g.jobs && x in g.jobs && x != i && g.jobs[x].target <= g.jobs[i].target && x in st && !Final(st[x])
  }

  /** A run that delays an item without dependants until everything else up to its target has finished
      ends with a failing lookup, that item's or an earlier one. */
  lemma {:induction false} DelayedFails(g: Graph, run: seq<State>, i: Item)
    requires Layers(g) && Reached(g, run) && i in g.jobs && g.jobs[i].target + 1 < g.targets && !HasDependant(g, i)
    requires !Terminal(run[|run| - 1].st, i)
    ensures CanFail(g)
    decreases Work(g.items, run[|run| - 1].st, map[])
  {
    hide Layers, Reached, Kept, MayRun, HasDependant, LookupFails, Finishes, Work, Step, WithQueued;
    ReachedShape(g, run);
    ReachedKept(g, run);
    var st := run[|run| - 1].st;
    var x := i;
    if y :| Other(g, st, i, y) {
      x := y;
    } else {
      OnlyOneLeft(g, run[|run| - 1], i);
    }
    var next := MoveOn(g, run, x, i);
    if next != [] {
      DelayedFails(g, next, i);
    }
  }

  lemma ReachedShape(g: Graph, run: seq<State>)
    requires Reached(g, run)
    ensures |run| >= 1
  {
    hide Step;
  }

  /** One step more for x, or its lookup fails. */
  lemma MoveOn(g: Graph, run: seq<State>, x: Item, i: Item) returns (next: seq<State>)
    requires Layers(g) && Reached(g, run) && |run| >= 1 && i in g.jobs
    requires var st := run[|run| - 1].st;
      && x in g.jobs && x in st && !Final(st[x]) && !Terminal(st, i)
      && (x == i ==> LookupFails(g, st, x))
    ensures next == [] ==> CanFail(g)
    ensures next != [] ==>
      && Reached(g, next) && !Terminal(next[|next| - 1].st, i)
      && Work(g.items, next[|next| - 1].st, map[]) < Work(g.items, run[|run| - 1].st, map[])
  {
    hide Layers, Reached, MayRun, LookupFails, Work, WithQueued;
    var a := run[|run| - 1];
    if a.st[x] == Queued && MayRun(g, a.st, x) {
      var b := State(a.st[x := Dispatched], a.launches + [x]);
      assert LaunchStep(g, a, b, x);
      assert Step(g, a, b);
      next := run + [b];
      OneMore(g, run, b);
      LessWork(g, a.st, b.st, x);
    } else {
      var v := if a.st[x] == Dispatched then Passed else Killed;
      assert Finishes(g, a.st, x, v);
      SameKeysLookup(g, a.st, x, v);
      if LookupFails(g, a.st[x := v], x) {
        assert FailsAfter(g, run, x, v);
        next := [];
      } else {
        var b := State(WithQueued(g, a.st[x := v], Freed(g, a.st[x := v], x)), a.launches);
        assert FinishStep(g, a, b, x, v);
        assert Step(g, a, b);
        next := run + [b];
        OneMore(g, run, b);
        ReachedKept(g, run);
        ReleasedStatuses(g, a.st, x, v);
        LessWork(g, a.st, b.st, x);
      }
    }
  }

  lemma SameKeysLookup(g: Graph, st: Statuses, x: Item, v: Status)
    requires x in g.jobs && x in st
    ensures LookupFails(g, st[x := v], x) == LookupFails(g, st, x)
  {}

  lemma OneMore(g: Graph, run: seq<State>, b: State)
    requires Reached(g, run) && |run| >= 1 && Step(g, run[|run| - 1], b)
    ensures Reached(g, run + [b])
  {
    hide Step;
  }

  lemma ReleasedStatuses(g: Graph, st: Statuses, x: Item, v: Status)
    requires Sound(g, st, {}) && x in st
    ensures var st' := WithQueued(g, st[x := v], Freed(g, st[x := v], x));
      && (forall j :: j in st && j != x ==> j in st' && st'[j] == st[j])
      && (forall j :: j in st' && j !in st ==> st'[j] == Queued)
      && x in st' && st'[x] == v
  {
    hide Ready, Freed;
  }

  lemma LessWork(g: Graph, st: Statuses, st': Statuses, x: Item)
    requires Layers(g) && x in g.jobs && x in st && x in st' && Rank(st', x) < Rank(st, x) && !Final(st[x])
    requires forall j :: j in st && j != x ==> j in st' && st'[j] == st[j]
    ensures Work(g.items, st', map[]) < Work(g.items, st, map[])
  {
    assert x in g.items by { hide HasDependency; }
    hide Layers, Work;
    WorkMonotone(g.items, st, map[], st', map[]);
  }

  /** Up to i's target everything else has finished. */
  lemma {:induction false} OthersDone(g: Graph, st: Statuses, i: Item, y: Item)
    requires Layers(g) && Sound(g, st, {}) && i in g.jobs && !HasDependant(g, i) && forall x :: !Other(g, st, i, x)
    requires y in g.jobs && y != i && g.jobs[y].target <= g.jobs[i].target
    ensures Terminal(st, y)
    decreases g.jobs[y].target
  {
    assert !Other(g, st, i, y);
    if y !in st {
      var d := Unfinished(g, st, y);
      assert d != i;
      DependencyTarget(g, y, d);
      hide Layers, Sound;
      OthersDone(g, st, i, d);
    }
  }

  lemma DependencyTarget(g: Graph, y: Item, d: Item)
    requires Layers(g) && Dep(g, y, d)
    ensures g.jobs[d].target + 1 == g.jobs[y].target
  {
    hide HasDependency;
  }

  lemma Unfinished(g: Graph, st: Statuses, y: Item) returns (d: Item)
    requires Sound(g, st, {}) && y in g.jobs && y !in st
    ensures Dep(g, y, d) && !Terminal(st, d)
  {
    d :| Dep(g, y, d) && !Terminal(st, d);
  }

  /** Then i is active, and its own lookup fails. */
  lemma OnlyOneLeft(g: Graph, a: State, i: Item)
    requires Layers(g) && Kept(g, a) && i in g.jobs && g.jobs[i].target + 1 < g.targets && !HasDependant(g, i)
    requires !Terminal(a.st, i) && forall x :: !Other(g, a.st, i, x)
    ensures i in a.st && !Final(a.st[i]) && LookupFails(g, a.st, i)
  {
    var st, t := a.st, g.jobs[i].target;
    assert Sound(g, st, {}) by { hide Sound, Launched; }
    hide Layers, Kept, Sound, HasDependant;
    if i !in st {
      var d := Unfinished(g, st, i);
      DependencyTarget(g, i, d);
      OthersDone(g, st, i, d);
    }
    forall j | j in g.jobs && g.jobs[j].target == t + 1 ensures j in st {
      if j !in st {
        var d := Unfinished(g, st, j);
        DependencyTarget(g, j, d);
        NotDependant(g, i, j);
        OthersDone(g, st, i, d);
      }
    }
  }

  lemma NotDependant(g: Graph, i: Item, j: Item)
    requires !HasDependant(g, i)
    ensures !Dep(g, j, i)
  {}

  // ----- an instance -------------------------------------------------------------------------

  /** Two builds, and the run of the first. */
  function GuiGraph(): Graph
  {
    var build := Job(0, 0, [], true, 1);
    Graph([0, 1, 2], map[0 := build, 1 := build, 2 := Job(1, 0, [0], true, 1)], 2)
  }

  /** GUI mode keeps one run whatever the number of builds: there the lookup can fail. */
  lemma GuiModeFails()
    ensures Layers(GuiGraph()) && CanFail(GuiGraph())
  {
    var g := GuiGraph();
    assert forall x, d :: Dep(g, x, d) <==> x == 2 && d == 0;
    assert HasDependency(g, 2) by { assert Dep(g, 2, 0); }
    hide HasDependency, Dep, CanFail;
    assert Layers(g);
    hide Layers;
    assert !HasDependant(g, 1);
    CoveredExact(g);
  }
}
