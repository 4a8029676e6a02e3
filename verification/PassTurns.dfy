/** One turn of the scheduler's dispatch pass is one turn of a pass on values, whichever launches fail. */
module PassTurns {
  import opened Basics
  import opened JobGraph
  import opened JobTables
  import opened DispatchPass

  /** A turn: from st over mid to st', taking n items off the queue that it finds. */
  ghost predicate Turns(s: Start, p: Pass, st: Statuses, q: seq<seq<Item>>, n: nat, mid: Statuses, st': Statuses)
  {
    && Finds(s, st, q) && InPass(s, p, st) && |p.queues| == |p.popped| < |q| && n <= |q[|p.queues|]|
    && Culled(s.g, |p.queues|, st, mid, q[|p.queues|][..n])
    && LaunchedAll(s.g, mid, st', Picks(s.g, st, q[|p.queues|][..n]), s.broken)
  }

  function After(p: Pass, q: seq<seq<Item>>, n: nat): Pass
    requires |p.queues| < |q|
  {
    Extend(p, q[|p.queues|], n)
  }

  /** The items that a turn takes off are queued items of its target; it takes those that may run. */
  lemma FrontItems(s: Start, p: Pass, st: Statuses, q: seq<seq<Item>>, n: nat, mid: Statuses, st': Statuses, i: Item)
    requires Turns(s, p, st, q, n, mid, st')
    ensures var l := q[|p.queues|];
      && (i in l ==> i in s.g.jobs && s.g.jobs[i].target == |p.queues| && i in st && st[i] == Queued)
      && (i in l[..n] ==> i in l)
      && (i in Picks(s.g, st, l[..n]) <==> i in l[..n] && i in s.g.jobs && MayRun(s.g, s.st, i))
      && (i in s.g.jobs ==> MayRun(s.g, st, i) == MayRun(s.g, s.st, i))
  {
    hide Layers, Sound, InPass, Culled, LaunchedAll, Picks, MayRun, Forward;
    var t := |p.queues|;
    var l := q[t];
    assert i in l <==> Belongs(s.g, st, Queued, {}, t, i);
    assert Distinct(l);
    assert Distinct(l[..n]);
    PicksAre(s.g, st, l[..n]);
    if i in s.g.jobs {
      assert SamePassed(s.st, st) by { PassedSame(s, p, st); }
      SameMayRun(s.g, s.st, st, i);
    }
  }

  lemma PassedSame(s: Start, p: Pass, st: Statuses)
    requires InPass(s, p, st)
    ensures SamePassed(s.st, st)
  {
    hide Gone;
  }

  /** i is taken off the queue of its target and may, or may not, run. */
  ghost predicate TakenOff(s: Start, front: seq<Item>, i: Item, runs: bool)
  {
    i in front && i in s.g.jobs && MayRun(s.g, s.st, i) == runs
  }

  /** What the turn does to one item, told by its statuses before and after. */
  lemma ItemTurn(s: Start, p: Pass, st: Statuses, q: seq<seq<Item>>, n: nat, mid: Statuses, st': Statuses, i: Item)
    requires Turns(s, p, st, q, n, mid, st')
    ensures var front := q[|p.queues|][..n];
      && (Terminal(mid, i) <==> Terminal(st, i) || TakenOff(s, front, i, false))
      && (i in mid ==> (Terminal(st', i) <==> Terminal(mid, i) || (TakenOff(s, front, i, true) && i in s.broken)))
      && (TakenOff(s, front, i, true) ==> i in mid && !Terminal(mid, i))
  {
    FrontItems(s, p, st, q, n, mid, st', i);
    hide Finds, InPass, MayRun, SamePassed, Picks;
    var l := q[|p.queues|];
    ItemCulled(s.g, |p.queues|, st, mid, l[..n], i);
    ItemLaunched(s.g, mid, st', Picks(s.g, st, l[..n]), s.broken, i);
    hide Culled, LaunchedAll, Terminal;
  }

  lemma ItemCulled(g: Graph, t: nat, st: Statuses, mid: Statuses, front: seq<Item>, i: Item)
    requires Culled(g, t, st, mid, front)
    ensures Terminal(mid, i) <==> Terminal(st, i) || (i in front && i in g.jobs && !MayRun(g, st, i))
  {
    hide MayRun, Sound, SamePassed;
  }

  lemma ItemLaunched(g: Graph, mid: Statuses, st: Statuses, taken: seq<Item>, broken: set<Item>, i: Item)
    requires LaunchedAll(g, mid, st, taken, broken)
    ensures i in mid ==> (Terminal(st, i) <==> Terminal(mid, i) || (i in taken && i in broken))
    ensures i in taken ==> i in mid && !Terminal(mid, i)
  {
    hide Sound;
  }

  /** Items killed along with a failed launch are in later targets. */
  lemma {:induction false} SweptAbove(s: Start, p: Pass, st: Statuses, q: seq<seq<Item>>, n: nat, mid: Statuses,
                                      st': Statuses, i: Item)
    requires Turns(s, p, st, q, n, mid, st') && i in st' && i !in mid
    ensures i in s.g.jobs && s.g.jobs[i].target > |p.queues| && Terminal(st', i)
    decreases Level(s.g, i)
  {
    var d := LastFinished(s, p, st, q, n, mid, st', i);
    assert Terminal(st', i) && i in s.g.jobs by { hide Finds, InPass, Culled, MayRun, Picks; }
    assert Layers(s.g) by { hide Layers; }
    DepsBelow(s.g, i);
    ItemTurn(s, p, st, q, n, mid, st', d);
    FrontItems(s, p, st, q, n, mid, st', d);
    hide Turns, Layers;
    if d !in mid { SweptAbove(s, p, st, q, n, mid, st', d); }
  }

  /** A dependency that finished in the second stage. */
  lemma LastFinished(s: Start, p: Pass, st: Statuses, q: seq<seq<Item>>, n: nat, mid: Statuses, st': Statuses, i: Item)
    returns (d: Item)
    requires Turns(s, p, st, q, n, mid, st') && i in st' && i !in mid
    ensures i in s.g.jobs && Dep(s.g, i, d) && !Terminal(mid, d) && Terminal(st', d) && d in st'
  {
    hide Finds, InPass, MayRun, Picks, SamePassed;
    assert Ready(s.g, st', i) && i in s.g.jobs;
    assert !Ready(s.g, mid, i);
    d :| Dep(s.g, i, d) && !Terminal(mid, d);
  }

  // ----- what is gone after a turn -----------------------------------------------------------

  /** Statuses of items up to the turn's target change only by being taken off. */
  lemma EarlyItem(s: Start, p: Pass, st: Statuses, q: seq<seq<Item>>, n: nat, mid: Statuses, st': Statuses, i: Item)
    requires Turns(s, p, st, q, n, mid, st') && i in s.g.jobs && s.g.jobs[i].target <= |p.queues|
    ensures var front := q[|p.queues|][..n];
      Terminal(st', i) <==>
        Terminal(st, i) || TakenOff(s, front, i, false) || (TakenOff(s, front, i, true) && i in s.broken)
  {
    ItemTurn(s, p, st, q, n, mid, st', i);
    if i in st' && i !in mid { SweptAbove(s, p, st, q, n, mid, st', i); }
    assert i in mid ==> i in st' by { hide Finds, InPass, Culled, MayRun, Picks; }
    hide Turns, TakenOff;
  }

  lemma GoneEarlier(s: Start, p: Pass, st: Statuses, q: seq<seq<Item>>, n: nat, mid: Statuses, st': Statuses, i: Item)
    requires Turns(s, p, st, q, n, mid, st') && i in s.g.jobs && s.g.jobs[i].target < |p.queues|
    ensures Terminal(st', i) <==> Gone(s, After(p, q, n), i)
  {
    EarlyItem(s, p, st, q, n, mid, st', i);
    FrontItems(s, p, st, q, n, mid, st', i);
    GoneBefore(s, p, st, i);
    assert Layers(s.g) by { hide Layers; }
    hide Turns, Gone, Layers;
    GoneSame(s, p, q[|p.queues|], n, i);
  }

  lemma GoneAtTurn(s: Start, p: Pass, st: Statuses, q: seq<seq<Item>>, n: nat, mid: Statuses, st': Statuses, i: Item)
    requires Turns(s, p, st, q, n, mid, st') && i in s.g.jobs && s.g.jobs[i].target == |p.queues|
    ensures Terminal(st', i) <==> Gone(s, After(p, q, n), i)
  {
    var p', front := After(p, q, n), q[|p.queues|][..n];
    EarlyItem(s, p, st, q, n, mid, st', i);
    GoneBefore(s, p, st, i);
    assert Layers(s.g) by { hide Layers; }
    hide Turns, Layers, Gone;
    SweptSame(s, p, q[|p.queues|], n, i);
    TakenAtTurn(s, p, q[|p.queues|], n, i);
    GoneParts(s, p, i);
    GoneParts(s, p', i);
    hide Dropped, Broke, TakenOff, Swept, Terminal;
  }

  lemma TakenAtTurn(s: Start, p: Pass, l: seq<Item>, n: nat, i: Item)
    requires |p.queues| == |p.popped| && n <= |l| && i in s.g.jobs && s.g.jobs[i].target == |p.queues|
    ensures !Dropped(s, p, i) && !Broke(s, p, i)
    ensures Dropped(s, Extend(p, l, n), i) == TakenOff(s, l[..n], i, false)
    ensures Broke(s, Extend(p, l, n), i) == (TakenOff(s, l[..n], i, true) && i in s.broken)
  {
    FrontSame(p, l, n, |p.queues|);
    hide Front, MayRun;
  }

  lemma SweptSame(s: Start, p: Pass, l: seq<Item>, n: nat, i: Item)
    requires Layers(s.g) && |p.queues| == |p.popped| && i in s.g.jobs && s.g.jobs[i].target <= |p.queues|
    ensures Swept(s, Extend(p, l, n), i) == Swept(s, p, i)
  {
    var p' := Extend(p, l, n);
    DepsBelow(s.g, i);
    hide Layers;
    forall e | Dep(s.g, i, e)
      ensures Gone(s, p', e) == Gone(s, p, e) && Dropped(s, p', e) == Dropped(s, p, e)
        && Broke(s, p', e) == Broke(s, p, e)
    {
      GoneSame(s, p, l, n, e);
    }
    hide Gone, Dropped, Broke, Extend;
    assert AllGone(s, p', i) == AllGone(s, p, i);
    assert AnyDropped(s, p', i) == AnyDropped(s, p, i) && AnyBroke(s, p', i) == AnyBroke(s, p, i);
  }

  /** Beyond the turn's target nothing is taken off yet. */
  lemma NotTurned(s: Start, p: Pass, i: Item)
    requires |p.queues| == |p.popped| && i in s.g.jobs && s.g.jobs[i].target >= |p.queues|
    ensures !Dropped(s, p, i) && !Broke(s, p, i)
    ensures Gone(s, p, i) <==> Terminal(s.st, i) || Swept(s, p, i)
  {
    FrontSame(p, [], 0, s.g.jobs[i].target);
    hide Front;
    GoneParts(s, p, i);
  }

  /** What the turn says about the dependencies of a later item. */
  ghost predicate DepsKnown(s: Start, p': Pass, st': Statuses, i: Item)
  {
    forall e :: Dep(s.g, i, e) ==> (Terminal(st', e) <==> Gone(s, p', e))
  }

  lemma TurnBasics(s: Start, p: Pass, st: Statuses, q: seq<seq<Item>>, n: nat, mid: Statuses, st': Statuses)
    requires Turns(s, p, st, q, n, mid, st')
    ensures Layers(s.g) && InPass(s, p, st) && |p.queues| == |p.popped| < |q| && n <= |q[|p.queues|]|
    ensures Sound(s.g, s.st, {}) && Sound(s.g, st, {}) && Sound(s.g, mid, {}) && Sound(s.g, st', {})
    ensures forall i :: i in s.st ==> i in st
    ensures forall i :: i in st ==> i in mid
    ensures forall i :: i in mid ==> i in st'
    ensures forall i :: Terminal(st, i) ==> Terminal(st', i)
  {
    forall i | Terminal(st, i) ensures Terminal(st', i) { ItemTurn(s, p, st, q, n, mid, st', i); }
    hide Layers, InPass, Sound, MayRun, Picks, ListsOk, SamePassed;
  }

  /** A dependency of a later item is taken off in this turn if it is dropped or breaks at all. */
  lemma LaterDependency(s: Start, p: Pass, st: Statuses, q: seq<seq<Item>>, n: nat, mid: Statuses, st': Statuses,
                        i: Item, e: Item)
    requires Turns(s, p, st, q, n, mid, st') && i in s.g.jobs && s.g.jobs[i].target > |p.queues| && Dep(s.g, i, e)
    ensures var p', front := After(p, q, n), q[|p.queues|][..n];
      && (Dropped(s, p', e) <==> TakenOff(s, front, e, false))
      && (Broke(s, p', e) <==> TakenOff(s, front, e, true) && e in s.broken)
    ensures !Dropped(s, p, e) && !Broke(s, p, e)
  {
    TurnBasics(s, p, st, q, n, mid, st');
    FrontItems(s, p, st, q, n, mid, st', e);
    DepsBelow(s.g, i);
    hide Turns, Layers, InPass, Sound, MayRun;
    var p', t := After(p, q, n), |p.queues|;
    NotTurned(s, p, e);
    if s.g.jobs[e].target == t {
      FrontSame(p, q[t], n, t);
      hide Front;
    } else {
      NotTurned(s, p', e);
    }
  }

  /** A scheduled item of a later target that has a status before the turn has been killed. */
  lemma KilledEarlier(s: Start, p: Pass, st: Statuses, i: Item)
    requires InPass(s, p, st) && |p.queues| == |p.popped| && i in s.g.jobs && s.g.jobs[i].target > |p.queues|
    requires i !in s.st && i in st
    ensures Terminal(st, i) && AllGone(s, p, i)
  {
    assert !Final(st[i]) ==> MovedInPass(s, p, st, i) by { hide Gone; }
    hide InPass;
    assert Terminal(st, i);
    GoneBefore(s, p, st, i);
    NotTurned(s, p, i);
    hide Gone, AllGone;
  }

  lemma DependencyStays(s: Start, p: Pass, st: Statuses, q: seq<seq<Item>>, n: nat, mid: Statuses, st': Statuses,
                        i: Item, e: Item)
    requires Turns(s, p, st, q, n, mid, st') && i in s.g.jobs && s.g.jobs[i].target > |p.queues|
    requires Dep(s.g, i, e) && Gone(s, p, e) && DepsKnown(s, After(p, q, n), st', i)
    ensures Gone(s, After(p, q, n), e) && !Dropped(s, After(p, q, n), e)
  {
    TurnBasics(s, p, st, q, n, mid, st');
    hide Turns, Gone, Dropped, Layers, Sound, InPass, After;
    GoneBefore(s, p, st, e);
    LaterDependency(s, p, st, q, n, mid, st', i, e);
    FrontItems(s, p, st, q, n, mid, st', e);
  }

  lemma LaterKilled(s: Start, p: Pass, st: Statuses, q: seq<seq<Item>>, n: nat, mid: Statuses, st': Statuses, i: Item)
    requires Turns(s, p, st, q, n, mid, st') && i in s.g.jobs && s.g.jobs[i].target > |p.queues|
    requires i !in s.st && i in st && DepsKnown(s, After(p, q, n), st', i)
    ensures Terminal(st', i) && Swept(s, After(p, q, n), i)
  {
    hide Turns, Gone, Dropped, InPass, Layers, Sound, After, DepsKnown, Broke, Terminal;
    TurnBasics(s, p, st, q, n, mid, st');
    var p' := After(p, q, n);
    KilledEarlier(s, p, st, i);
    DepsBelow(s.g, i);
    forall e | Dep(s.g, i, e) ensures Gone(s, p', e) && !Dropped(s, p', e) {
      DependencyStays(s, p, st, q, n, mid, st', i, e);
    }
  }

  /** A scheduled item queued in this turn. */
  lemma LaterQueued(s: Start, p: Pass, st: Statuses, q: seq<seq<Item>>, n: nat, mid: Statuses, st': Statuses, i: Item)
    requires Turns(s, p, st, q, n, mid, st') && i in s.g.jobs && s.g.jobs[i].target > |p.queues|
    requires i !in st && i in mid
    ensures !Terminal(st', i) && !Swept(s, After(p, q, n), i)
  {
    hide Turns, Gone, Dropped, Broke, InPass, Layers, Sound, After, TakenOff, Ready, AllGone;
    TurnBasics(s, p, st, q, n, mid, st');
    var p' := After(p, q, n);
    NewlyQueued(s, p, st, q, n, mid, st', i);
    ItemTurn(s, p, st, q, n, mid, st', i);
    FrontItems(s, p, st, q, n, mid, st', i);
    TakenOffIsFront(s, q[|p.queues|][..n], i);
    SettledIff(s.g, st, i);
    SettledIff(s.g, mid, i);
    var d := NotFinished(s.g, st, i);
    forall e | Dep(s.g, i, e) ensures !Broke(s, p', e) && (Terminal(st, e) || Dropped(s, p', e)) {
      ReadyDependency(s.g, mid, i, e);
      ItemTurn(s, p, st, q, n, mid, st', e);
      LaterDependency(s, p, st, q, n, mid, st', i, e);
    }
  }

  lemma NewlyQueued(s: Start, p: Pass, st: Statuses, q: seq<seq<Item>>, n: nat, mid: Statuses, st': Statuses, i: Item)
    requires Turns(s, p, st, q, n, mid, st') && i !in st && i in mid
    ensures mid[i] == Queued
  {
    hide Finds, InPass, MayRun, Sound, LaunchedAll, Picks;
  }

  lemma TakenOffIsFront(s: Start, front: seq<Item>, i: Item)
    ensures TakenOff(s, front, i, true) || TakenOff(s, front, i, false) ==> i in front
  {}

  /** A job has a status exactly when what it depends on has finished. */
  lemma SettledIff(g: Graph, st: Statuses, i: Item)
    requires Sound(g, st, {}) && i in g.jobs
    ensures i in st <==> Ready(g, st, i)
  {
    hide Ready;
  }

  lemma NotFinished(g: Graph, st: Statuses, i: Item) returns (d: Item)
    requires !Ready(g, st, i)
    ensures Dep(g, i, d) && !Terminal(st, d)
  {
    d :| Dep(g, i, d) && !Terminal(st, d);
  }

  lemma ReadyDependency(g: Graph, st: Statuses, i: Item, e: Item)
    requires Ready(g, st, i) && Dep(g, i, e)
    ensures Terminal(st, e)
  {}

  lemma ReadyIffGone(s: Start, p: Pass, st: Statuses, i: Item)
    requires Layers(s.g) && DepsKnown(s, p, st, i)
    ensures Ready(s.g, st, i) <==> AllGone(s, p, i)
  {
    DepsBelow(s.g, i);
    hide Layers, Gone, Terminal;
  }

  /** A scheduled item without a status when the launches start. */
  lemma LaterSwept(s: Start, p: Pass, st: Statuses, q: seq<seq<Item>>, n: nat, mid: Statuses, st': Statuses, i: Item)
    requires Turns(s, p, st, q, n, mid, st') && i in s.g.jobs && s.g.jobs[i].target > |p.queues|
    requires i !in mid && i !in s.st && DepsKnown(s, After(p, q, n), st', i)
    ensures Terminal(st', i) <==> Swept(s, After(p, q, n), i)
  {
    hide Turns, Gone, Dropped, Broke, InPass, Layers, Sound, After, Ready, AllGone, AnyDropped, AnyBroke, DepsKnown;
    TurnBasics(s, p, st, q, n, mid, st');
    var p' := After(p, q, n);
    if i in st' { SweptAbove(s, p, st, q, n, mid, st', i); }
    SettledIff(s.g, st', i);
    SettledIff(s.g, mid, i);
    ReadyIffGone(s, p', st', i);
    if i in st' && AnyDropped(s, p', i) && !AnyBroke(s, p', i) {
      AllFinished(s, p, st, q, n, mid, st', i);
    }
  }

  lemma AllFinished(s: Start, p: Pass, st: Statuses, q: seq<seq<Item>>, n: nat, mid: Statuses, st': Statuses, i: Item)
    requires Turns(s, p, st, q, n, mid, st') && i in s.g.jobs && s.g.jobs[i].target > |p.queues|
    requires AnyDropped(s, After(p, q, n), i) && !AnyBroke(s, After(p, q, n), i) && Ready(s.g, st', i)
    ensures Ready(s.g, mid, i)
  {
    hide Turns, After, AnyDropped, AnyBroke;
    forall e | Dep(s.g, i, e) ensures Terminal(mid, e) { DependencyFinished(s, p, st, q, n, mid, st', i, e); }
  }

  /** With a dropped dependency, all dependencies are in the turn's target; one that has not broken has
      finished in the first stage if at all. */
  lemma DependencyFinished(s: Start, p: Pass, st: Statuses, q: seq<seq<Item>>, n: nat, mid: Statuses, st': Statuses,
                           i: Item, e: Item)
    requires Turns(s, p, st, q, n, mid, st') && i in s.g.jobs && s.g.jobs[i].target > |p.queues|
    requires AnyDropped(s, After(p, q, n), i) && !AnyBroke(s, After(p, q, n), i)
    requires Dep(s.g, i, e) && Terminal(st', e)
    ensures Terminal(mid, e)
  {
    var p' := After(p, q, n);
    TurnBasics(s, p, st, q, n, mid, st');
    DepsBelow(s.g, i);
    var d :| Dep(s.g, i, d) && Dropped(s, p', d);
    LaterDependency(s, p, st, q, n, mid, st', i, d);
    FrontItems(s, p, st, q, n, mid, st', d);
    assert s.g.jobs[e].target == |p.queues| && !Broke(s, p', e) by { hide Turns, Layers, InPass, Sound, Broke; }
    LaterDependency(s, p, st, q, n, mid, st', i, e);
    ItemTurn(s, p, st, q, n, mid, st', e);
    if e !in mid { SweptAbove(s, p, st, q, n, mid, st', e); }
    hide *;
  }

  lemma GoneLater(s: Start, p: Pass, st: Statuses, q: seq<seq<Item>>, n: nat, mid: Statuses, st': Statuses, i: Item)
    requires Turns(s, p, st, q, n, mid, st') && i in s.g.jobs && s.g.jobs[i].target > |p.queues|
    requires DepsKnown(s, After(p, q, n), st', i)
    ensures Terminal(st', i) <==> Gone(s, After(p, q, n), i)
  {
    hide Turns, Gone, InPass, Layers, Sound, DepsKnown, TakenOff;
    TurnBasics(s, p, st, q, n, mid, st');
    var p' := After(p, q, n);
    NotTurned(s, p', i);
    if i in s.st {
      NotTurned(s, p, i);
      GoneBefore(s, p, st, i);
      ItemTurn(s, p, st, q, n, mid, st', i);
      FrontItems(s, p, st, q, n, mid, st', i);
      TakenOffIsFront(s, q[|p.queues|][..n], i);
    } else if i in st {
      LaterKilled(s, p, st, q, n, mid, st', i);
    } else if i in mid {
      LaterQueued(s, p, st, q, n, mid, st', i);
    } else {
      LaterSwept(s, p, st, q, n, mid, st', i);
    }
  }

  /** After the turn, what has finished is exactly what the pass says is gone. */
  lemma {:induction false} GoneNext(s: Start, p: Pass, st: Statuses, q: seq<seq<Item>>, n: nat, mid: Statuses,
                                    st': Statuses, i: Item)
    requires Turns(s, p, st, q, n, mid, st')
    ensures Terminal(st', i) <==> Gone(s, After(p, q, n), i)
    decreases Level(s.g, i)
  {
    hide Turns, InPass, Layers, Gone;
    TurnBasics(s, p, st, q, n, mid, st');
    if i !in s.g.jobs {
      NoJob(s, After(p, q, n), st', i);
    } else if s.g.jobs[i].target < |p.queues| {
      GoneEarlier(s, p, st, q, n, mid, st', i);
    } else if s.g.jobs[i].target == |p.queues| {
      GoneAtTurn(s, p, st, q, n, mid, st', i);
    } else {
      hide Sound;
      DepsBelow(s.g, i);
      forall e | Dep(s.g, i, e) ensures Terminal(st', e) <==> Gone(s, After(p, q, n), e) {
        GoneNext(s, p, st, q, n, mid, st', e);
      }
      GoneLater(s, p, st, q, n, mid, st', i);
    }
  }

  lemma NoJob(s: Start, p: Pass, st: Statuses, i: Item)
    requires i !in s.g.jobs && Sound(s.g, s.st, {}) && Sound(s.g, st, {})
    ensures !Terminal(st, i) && !Gone(s, p, i)
  {
    hide Ready;
  }

  // ----- whole statuses ----------------------------------------------------------------------

  /** Items that are active after the turn, and were not so before the pass. */
  lemma MovedNext(s: Start, p: Pass, st: Statuses, q: seq<seq<Item>>, n: nat, mid: Statuses, st': Statuses, i: Item)
    requires Turns(s, p, st, q, n, mid, st')
    requires i in st' && !Final(st'[i]) && (i in s.st ==> s.st[i] != st'[i])
    ensures MovedInPass(s, After(p, q, n), st', i)
  {
    var t, l, p' := |p.queues|, q[|p.queues|], After(p, q, n);
    FrontItems(s, p, st, q, n, mid, st', i);
    ActiveAfter(s, p, st, q, n, mid, st', i);
    assert forall u :: 0 <= u < t ==> p'.queues[u] == p.queues[u];
    assert p'.queues[t] == l;
    if i in st && st[i] == st'[i] {
      assert MovedInPass(s, p, st, i) by { hide Gone, Finds, Culled, LaunchedAll; }
      hide Turns, Picks, MayRun, After;
    }
    hide Turns, Picks, MayRun, After;
  }

  lemma ActiveAfter(s: Start, p: Pass, st: Statuses, q: seq<seq<Item>>, n: nat, mid: Statuses, st': Statuses, i: Item)
    requires Turns(s, p, st, q, n, mid, st') && i in st' && !Final(st'[i])
    ensures i in mid && !Final(mid[i])
    ensures || (i in q[|p.queues|][..n] && st'[i] == Dispatched)
            || (i in st && st[i] == st'[i])
            || (i in s.g.jobs && s.g.jobs[i].target == |p.queues| + 1 && st'[i] == Queued)
    ensures i in st && st[i] == Queued && i in s.g.jobs && s.g.jobs[i].target == |p.queues| ==> i in q[|p.queues|]
  {
    FrontItems(s, p, st, q, n, mid, st', i);
    ItemTurn(s, p, st, q, n, mid, st', i);
    assert i in st && st[i] == Queued && i in s.g.jobs && s.g.jobs[i].target == |p.queues| ==> i in q[|p.queues|] by {
      hide InPass, Culled, LaunchedAll, Layers, Sound, Forward, Picks;
      assert i in q[|p.queues|] <==> Belongs(s.g, st, Queued, {}, |p.queues|, i);
    }
    hide Finds, InPass, MayRun, Sound, Picks, SamePassed;
  }

  lemma PassedAfter(s: Start, p: Pass, st: Statuses, q: seq<seq<Item>>, n: nat, mid: Statuses, st': Statuses)
    requires Turns(s, p, st, q, n, mid, st')
    ensures SamePassed(s.st, st')
  {
    PassedSame(s, p, st);
    assert SamePassed(st, mid) by { hide Finds, InPass, LaunchedAll, MayRun, Sound, Picks; }
    assert SamePassed(mid, st') by { hide Finds, InPass, Culled, MayRun, Sound, Picks; }
    hide Turns;
  }

  lemma InPassNext(s: Start, p: Pass, st: Statuses, q: seq<seq<Item>>, n: nat, mid: Statuses, st': Statuses)
    requires Turns(s, p, st, q, n, mid, st')
    ensures InPass(s, After(p, q, n), st')
  {
    hide Turns, Gone, Terminal, SamePassed, MovedInPass, After, Finds, Layers, Distinct;
    TurnShape(s, p, st, q, n, mid, st');
    PassedAfter(s, p, st, q, n, mid, st');
    forall i ensures Terminal(st', i) <==> Gone(s, After(p, q, n), i) { GoneNext(s, p, st, q, n, mid, st', i); }
    forall i | i in st' && !Final(st'[i]) && (i in s.st ==> s.st[i] != st'[i])
      ensures MovedInPass(s, After(p, q, n), st', i)
    {
      MovedNext(s, p, st, q, n, mid, st', i);
    }
  }

  /** The turns so far are the first turns of a pass, the statuses are those after them, and the items they
      took have been launched. */
  ghost predicate Follows(s: Start, p: Pass, st: Statuses, more: seq<Item>)
  {
    IsPass(s, p) && InPass(s, p, st) && Popped(p) && more == AllTaken(s.g, s.st, p)
  }

  lemma FollowsStart(s: Start)
    requires HeadsKnown(s.g, s.queued) && Sound(s.g, s.st, {}) && Layers(s.g)
    ensures Follows(s, Pass([], []), s.st, [])
  {
    var p := Pass([], []);
    forall i ensures Terminal(s.st, i) <==> Gone(s, p, i) { NothingGone(s, i); }
    hide MayRun, Gone, Terminal;
  }

  lemma {:induction false} NothingGone(s: Start, i: Item)
    requires Sound(s.g, s.st, {}) && Layers(s.g)
    ensures Terminal(s.st, i) <==> Gone(s, Pass([], []), i)
    decreases Level(s.g, i)
  {
    var p := Pass([], []);
    if i in s.g.jobs {
      NotTurned(s, p, i);
      if i !in s.st {
        assert !Ready(s.g, s.st, i) by { hide Layers, Ready; }
        var d :| Dep(s.g, i, d) && !Terminal(s.st, d);
        DepsBelow(s.g, i);
        NothingGone(s, d);
      }
    }
    hide Layers, Sound, Gone;
    GoneParts(s, p, i);
  }

  /** One turn more: it finds a queue, takes off n items, of which it takes those that may run. */
  lemma FollowsNext(s: Start, p: Pass, st: Statuses, more: seq<Item>, q: seq<seq<Item>>, n: nat, mid: Statuses,
                    st': Statuses)
    requires Follows(s, p, st, more) && Turns(s, p, st, q, n, mid, st')
    requires |p.queues| < |s.queued| && s.queued[|p.queues|] <= q[|p.queues|]
    requires HeadsKnown(s.g, s.queued) && HeadsKnown(s.g, p.queues + [q[|p.queues|]])
    requires Served(s.g, st, q[|p.queues|], n, ShareOf(s.g, s.queued, s.slots, p.queues + [q[|p.queues|]], |p.queues|))
    ensures Follows(s, After(p, q, n), st', more + Picks(s.g, st, q[|p.queues|][..n]))
  {
    hide Turns, IsPass, InPass, Served, ShareOf, HeadsKnown, Arrives, Layers, Distinct, Picks, Popped, AllTaken, Finds;
    TurnShape(s, p, st, q, n, mid, st');
    var t, l := |p.queues|, q[|p.queues|];
    forall j ensures j in l[|s.queued[t]|..] <==> Arrives(s, p, t, j) { FoundArrivals(s, st, q, p, j); }
    ServedSame(s, p, st, l, n, ShareOf(s.g, s.queued, s.slots, p.queues + [l], t));
    PassNext(s, p, l, n);
    InPassNext(s, p, st, q, n, mid, st');
    TakenNext(s.g, s.st, p, l, n);
  }

  lemma TurnShape(s: Start, p: Pass, st: Statuses, q: seq<seq<Item>>, n: nat, mid: Statuses, st': Statuses)
    requires Turns(s, p, st, q, n, mid, st')
    ensures Finds(s, st, q) && InPass(s, p, st) && |p.queues| == |p.popped| < |q| && n <= |q[|p.queues|]|
    ensures Layers(s.g) && Distinct(q[|p.queues|])
    ensures forall j :: j in q[|p.queues|] ==> j in s.g.jobs && s.g.jobs[j].target == |p.queues|
  {
    forall j | j in q[|p.queues|] ensures j in s.g.jobs && s.g.jobs[j].target == |p.queues| {
      FrontItems(s, p, st, q, n, mid, st', j);
    }
    hide InPass, Culled, LaunchedAll, Layers, Sound, Forward, Picks;
  }

  lemma ServedSame(s: Start, p: Pass, st: Statuses, l: seq<Item>, n: nat, share: int)
    requires InPass(s, p, st) && n <= |l| && Served(s.g, st, l, n, share)
    ensures Served(s.g, s.st, l, n, share) && Picks(s.g, st, l[..n]) == Picks(s.g, s.st, l[..n])
  {
    PassedSame(s, p, st);
    hide InPass, MayRun, Picks;
    SamePicks(s.g, s.st, st, l[..n]);
    if n > 0 { SamePicks(s.g, s.st, st, l[..n - 1]); }
  }

  lemma TakenNext(g: Graph, st: Statuses, p: Pass, l: seq<Item>, n: nat)
    requires Popped(p) && n <= |l|
    ensures Popped(Extend(p, l, n)) && AllTaken(g, st, Extend(p, l, n)) == AllTaken(g, st, p) + Picks(g, st, l[..n])
  {
    hide Picks;
    TakenSame(g, st, p, l, n, |p.queues|);
  }
}
