/** When a dispatch pass finds a queue filled that was empty at its start, the cause of handing out more
    slots than are free; and when it launches more jobs than there are free slots. */
module LateQueues {
  import opened Basics
  import opened Bits
  import opened JobGraph
  import opened JobTables
  import opened Apportion
  import opened DispatchPass

  /** What a pass may start from. */
  ghost predicate Starts(s: Start)
  {
    Layers(s.g) && Sound(s.g, s.st, {}) && ListsOk(s.g, s.queued, s.st, Queued, {})
  }

  ghost predicate Complete(s: Start, p: Pass)
  {
    IsPass(s, p) && |p.queues| == |s.queued|
  }

  // ----- what would become of an item, if all queues were served to the end ------------------

  /** i would finish without running: cancelled, failing to launch, or killed with what it depends on. */
  ghost predicate Falls(s: Start, i: Item)
    decreases Level(s.g, i), 4
  {
    || Drops(s, i) || Breaks(s, i)
    || (i in s.g.jobs && i !in s.st && AllFall(s, i) && !Comes(s, i))
  }

  /** i would be taken off its queue and cancelled. */
  ghost predicate Drops(s: Start, i: Item)
    decreases Level(s.g, i), 3
  {
    InLine(s, i) && i in s.g.jobs && !MayRun(s.g, s.st, i)
  }

  /** i would be taken off its queue and fail to launch. */
  ghost predicate Breaks(s: Start, i: Item)
    decreases Level(s.g, i), 3
  {
    InLine(s, i) && i in s.g.jobs && MayRun(s.g, s.st, i) && i in s.broken
  }

  /** i is queued, or would be. */
  ghost predicate InLine(s: Start, i: Item)
    decreases Level(s.g, i), 2
  {
    if i in s.st then s.st[i] == Queued else Comes(s, i)
  }

  /** All that j depends on has finished or would finish without running. */
  ghost predicate AllFall(s: Start, j: Item)
    decreases Level(s.g, j), 0
  {
    forall d :: Dep(s.g, j, d) ==> Level(s.g, d) < Level(s.g, j) && (Terminal(s.st, d) || Falls(s, d))
  }

  /** j is scheduled and would be queued: what it depends on would finish without running, and the last of
      it by being cancelled. */
  ghost predicate Comes(s: Start, j: Item)
    decreases Level(s.g, j), 1
  {
    && j in s.g.jobs && j !in s.st && AllFall(s, j)
    && (forall d :: Dep(s.g, j, d) && Level(s.g, d) < Level(s.g, j) ==> !Breaks(s, d))
    && (exists d :: Dep(s.g, j, d) && Level(s.g, d) < Level(s.g, j) && Drops(s, d))
  }

  /** Nobody would be queued in a target whose queue is empty. */
  ghost predicate Calm(s: Start)
  {
    forall j :: j in s.g.jobs && s.g.jobs[j].target < |s.queued| && Comes(s, j) ==> s.queued[s.g.jobs[j].target] != []
  }

  /** No queue that was empty at the start is filled when its turn comes. */
  ghost predicate NoneLate(s: Start, p: Pass)
    requires |p.queues| <= |s.queued|
  {
    forall t :: 0 <= t < |p.queues| && s.queued[t] == [] ==> p.queues[t] == []
  }

  lemma QueuedStatus(s: Start, t: nat, i: Item)
    requires Starts(s) && t < |s.queued|
    ensures i in s.queued[t] <==> i in s.g.jobs && s.g.jobs[i].target == t && i in s.st && s.st[i] == Queued
  {
    hide Layers, Sound;
    assert i in s.queued[t] <==> Belongs(s.g, s.st, Queued, {}, t, i);
  }

  /** What is in a queue at its turn is queued, or would be according to the pass. */
  lemma FoundInQueue(s: Start, p: Pass, t: nat, i: Item)
    requires Starts(s) && IsPass(s, p) && t < |p.queues|
    ensures i in p.queues[t] <==>
      || (i in s.g.jobs && s.g.jobs[i].target == t && i in s.st && s.st[i] == Queued)
      || Arrives(s, p, t, i)
  {
    assert TurnOk(s, p, t);
    hide IsPass, HeadsKnown, Served, ShareOf, Arrives, Starts;
    QueuedStatus(s, t, i);
    var q := p.queues[t];
    assert q == s.queued[t] + q[|s.queued[t]|..];
  }

  lemma InFront(p: Pass, t: nat, i: Item)
    requires i in Front(p, t)
    ensures t < |p.queues| && i in p.queues[t]
  {}

  // ----- a pass does nothing else ------------------------------------------------------------

  /** Whatever the number of slots, what happens to an item in a pass is what would. */
  lemma {:induction false} Foretold(s: Start, p: Pass, i: Item)
    requires Starts(s) && IsPass(s, p) && i in s.g.jobs
    ensures Arrives(s, p, s.g.jobs[i].target, i) ==> Comes(s, i)
    ensures Swept(s, p, i) ==> Falls(s, i) && !Comes(s, i)
    ensures Dropped(s, p, i) ==> Drops(s, i)
    ensures Broke(s, p, i) ==> Breaks(s, i)
    ensures Gone(s, p, i) ==> Terminal(s.st, i) || Falls(s, i)
    decreases s.g.jobs[i].target
  {
    assert Layers(s.g) by { hide Layers; }
    DepsBelow(s.g, i);
    hide Starts, Layers, IsPass, Gone, Falls;
    forall e | Dep(s.g, i, e) ensures Foreseen(s, p, e) { Foretold(s, p, e); }
    hide Foreseen;
    ArrivalComes(s, p, i);
    SweptFalls(s, p, i);
    if i in Front(p, s.g.jobs[i].target) {
      InFront(p, s.g.jobs[i].target, i);
      FoundInQueue(s, p, s.g.jobs[i].target, i);
    }
    GoneParts(s, p, i);
    FallsParts(s, i);
    hide Front, Comes, Arrives, Swept, MayRun;
  }

  /** The statement of the lemma, for a dependency. */
  ghost predicate Foreseen(s: Start, p: Pass, i: Item)
  {
    && (Swept(s, p, i) ==> Falls(s, i) && !Comes(s, i))
    && (Dropped(s, p, i) ==> Drops(s, i)) && (Broke(s, p, i) ==> Breaks(s, i))
    && (Gone(s, p, i) ==> Terminal(s.st, i) || Falls(s, i))
  }

  lemma FallsParts(s: Start, i: Item)
    ensures Falls(s, i) <==>
      Drops(s, i) || Breaks(s, i) || (i in s.g.jobs && i !in s.st && AllFall(s, i) && !Comes(s, i))
    ensures Drops(s, i) <==> InLine(s, i) && i in s.g.jobs && !MayRun(s.g, s.st, i)
    ensures Breaks(s, i) <==> InLine(s, i) && i in s.g.jobs && MayRun(s.g, s.st, i) && i in s.broken
    ensures InLine(s, i) <==> if i in s.st then s.st[i] == Queued else Comes(s, i)
    ensures Comes(s, i) ==> AllFall(s, i)
  {}

  lemma SweptParts(s: Start, p: Pass, j: Item)
    ensures Swept(s, p, j) <==>
      j in s.g.jobs && j !in s.st && AllGone(s, p, j) && (AnyBroke(s, p, j) || !AnyDropped(s, p, j))
    ensures AllGone(s, p, j) ==> forall d :: Dep(s.g, j, d) ==> Gone(s, p, d)
  {}

  /** A dependency that is gone would break, or be dropped, only if it does. */
  lemma GoneKind(s: Start, p: Pass, e: Item)
    requires Foreseen(s, p, e) && Gone(s, p, e)
    ensures Breaks(s, e) ==> Broke(s, p, e)
    ensures Drops(s, e) ==> Dropped(s, p, e)
  {
    GoneParts(s, p, e);
    FallsParts(s, e);
    SweptParts(s, p, e);
    hide Gone, Falls, Comes, Front, AllGone, AnyBroke, AnyDropped, Drops, Breaks, InLine, Swept;
  }

  lemma AllGoneFall(s: Start, p: Pass, i: Item)
    requires forall e :: Dep(s.g, i, e) ==> Foreseen(s, p, e)
    ensures AllGone(s, p, i) ==> AllFall(s, i)
  {
    hide Gone, Falls, Drops, Breaks, Dropped, Broke, Swept, Comes;
  }

  lemma ArrivalComes(s: Start, p: Pass, i: Item)
    requires Layers(s.g) && i in s.g.jobs && forall e :: Dep(s.g, i, e) ==> Foreseen(s, p, e)
    ensures Arrives(s, p, s.g.jobs[i].target, i) ==> Comes(s, i)
  {
    hide Gone, Breaks, Drops, Dropped, Broke, Foreseen, AllFall, AllGone, Layers;
    if Arrives(s, p, s.g.jobs[i].target, i) {
      AllGoneFall(s, p, i);
      SweptParts(s, p, i);
      DepsBelow(s.g, i);
      forall e | Dep(s.g, i, e) ensures !Breaks(s, e) && (Dropped(s, p, e) ==> Drops(s, e)) {
        GoneKind(s, p, e);
        ForeseenParts(s, p, e);
      }
    }
  }

  lemma ForeseenParts(s: Start, p: Pass, e: Item)
    requires Foreseen(s, p, e)
    ensures (Dropped(s, p, e) ==> Drops(s, e)) && (Broke(s, p, e) ==> Breaks(s, e))
  {
    hide Dropped, Broke, Drops, Breaks, Gone, Swept, Comes, Falls;
  }

  lemma SweptFalls(s: Start, p: Pass, i: Item)
    requires Layers(s.g) && i in s.g.jobs && forall e :: Dep(s.g, i, e) ==> Foreseen(s, p, e)
    ensures Swept(s, p, i) ==> Falls(s, i) && !Comes(s, i)
  {
    hide Gone, Breaks, Drops, Dropped, Broke, Foreseen, AllFall, AllGone, Layers, Falls, Swept;
    SweptParts(s, p, i);
    FallsParts(s, i);
    if Swept(s, p, i) {
      AllGoneFall(s, p, i);
      DepsBelow(s.g, i);
      forall e | Dep(s.g, i, e) ensures (Broke(s, p, e) ==> Breaks(s, e)) && (Drops(s, e) ==> Dropped(s, p, e)) {
        GoneKind(s, p, e);
        ForeseenParts(s, p, e);
      }
    }
  }

  /** From a calm state no queue fills up late, whatever the number of slots and whichever launches fail. */
  lemma CalmNoneLate(s: Start, p: Pass)
    requires Starts(s) && IsPass(s, p) && Calm(s)
    ensures NoneLate(s, p)
  {
    hide Starts, Comes, Arrives, HeadsKnown;
    forall t | 0 <= t < |p.queues| && s.queued[t] == [] ensures p.queues[t] == [] {
      if p.queues[t] != [] {
        var j := p.queues[t][0];
        FoundInQueue(s, p, t, j);
        QueuedStatus(s, t, j);
        ArrivesJob(s, p, t, j);
        Foretold(s, p, j);
      }
    }
  }

  lemma ArrivesJob(s: Start, p: Pass, t: nat, j: Item)
    ensures Arrives(s, p, t, j) ==> j in s.g.jobs && s.g.jobs[j].target == t && j !in s.st
  {}

  // ----- states in which every queued item may run -------------------------------------------

  /** Every queued item may run, and no launch fails. */
  ghost predicate Clear(s: Start)
  {
    s.broken == {} && forall i :: i in s.st && s.st[i] == Queued ==> i in s.g.jobs && MayRun(s.g, s.st, i)
  }

  /** Then nobody finishes without running, and nobody would be queued. */
  lemma {:induction false} ClearFates(s: Start, i: Item)
    requires Clear(s) && Sound(s.g, s.st, {})
    ensures !Drops(s, i) && !Breaks(s, i) && !Comes(s, i) && !Falls(s, i)
    decreases Level(s.g, i)
  {
    forall d | Dep(s.g, i, d) && Level(s.g, d) < Level(s.g, i) ensures !Drops(s, d) && !Falls(s, d) {
      ClearFates(s, d);
    }
    assert !Comes(s, i) by { hide Falls, Drops, Breaks, AllFall, Sound; }
    FallsParts(s, i);
    if i in s.g.jobs && i !in s.st && AllFall(s, i) {
      assert Ready(s.g, s.st, i) by { hide Falls, Sound; }
      assert false by { hide Falls, AllFall, Ready, MayRun; }
    }
    hide Falls, Drops, Breaks, AllFall, Comes, MayRun, InLine, Sound;
  }

  /** A pass from such a state finishes nobody and finds the queues as they were. */
  lemma ClearPass(s: Start, p: Pass)
    requires Starts(s) && Complete(s, p) && Clear(s)
    ensures p.queues == s.queued
    ensures forall i :: Gone(s, p, i) <==> Terminal(s.st, i)
  {
    assert Sound(s.g, s.st, {}) by { hide Sound; }
    hide IsPass, Starts, Clear, Gone, Arrives, Terminal, Sound;
    forall t | 0 <= t < |p.queues| ensures p.queues[t] == s.queued[t] { ClearTurn(s, p, t); }
    forall i ensures Gone(s, p, i) <==> Terminal(s.st, i) { ClearGone(s, p, i); }
  }

  lemma ClearTurn(s: Start, p: Pass, t: nat)
    requires Starts(s) && Complete(s, p) && Clear(s) && t < |p.queues|
    ensures p.queues[t] == s.queued[t]
  {
    assert TurnOk(s, p, t);
    assert Sound(s.g, s.st, {}) by { hide Sound; }
    hide IsPass, HeadsKnown, Served, ShareOf, Arrives, Comes, Starts, Clear, Distinct;
    var more := p.queues[t][|s.queued[t]|..];
    if more != [] {
      ArrivesJob(s, p, t, more[0]);
      Foretold(s, p, more[0]);
      ClearFates(s, more[0]);
    }
  }

  lemma ClearGone(s: Start, p: Pass, i: Item)
    requires Starts(s) && Complete(s, p) && Clear(s)
    ensures Gone(s, p, i) <==> Terminal(s.st, i)
  {
    assert Sound(s.g, s.st, {}) by { hide Sound; }
    GoneParts(s, p, i);
    hide IsPass, Starts, Clear, Gone, Falls;
    if i in s.g.jobs {
      Foretold(s, p, i);
      ClearFates(s, i);
    }
  }

  /** What a pass leaves of the statuses if, from such a state, it empties all queues: what was queued is
      dispatched. */
  ghost predicate AllStarted(st: Statuses, st': Statuses)
  {
    && st'.Keys == st.Keys
    && forall i :: i in st ==> st'[i] == if st[i] == Queued then Dispatched else st[i]
  }

  lemma ClearStatuses(s: Start, p: Pass, st: Statuses)
    requires Starts(s) && Complete(s, p) && Clear(s) && InPass(s, p, st) && Sound(s.g, st, {}) && Forward(s.st, st)
    requires forall i :: i in st ==> st[i] != Queued
    ensures AllStarted(s.st, st)
  {
    hide Starts, Complete, Clear, InPass, Gone, Sound, Terminal, Forward;
    StartsSound(s);
    ClearPass(s, p);
    forall i ensures Terminal(st, i) <==> Terminal(s.st, i) { GoneBefore(s, p, st, i); }
    SameKeys(s.g, s.st, st);
    forall i | i in s.st ensures st[i] == if s.st[i] == Queued then Dispatched else s.st[i] {
      StatusKept(s.st, st, i);
    }
  }

  lemma StartsSound(s: Start)
    requires Starts(s)
    ensures Layers(s.g) && Sound(s.g, s.st, {})
  {
    hide Sound, Layers;
  }

  lemma StatusKept(st: Statuses, st': Statuses, i: Item)
    requires Forward(st, st') && i in st && (Terminal(st', i) <==> Terminal(st, i))
    ensures i in st' && (st'[i] == Queued || st'[i] == if st[i] == Queued then Dispatched else st[i])
  {}

  lemma SameKeys(g: Graph, st: Statuses, st': Statuses)
    requires Sound(g, st, {}) && Sound(g, st', {}) && forall i :: Terminal(st', i) <==> Terminal(st, i)
    ensures st'.Keys == st.Keys
  {
    hide Terminal;
    forall i | i in g.jobs ensures i in st' <==> i in st { assert Ready(g, st', i) <==> Ready(g, st, i); }
    hide Ready;
  }

  /** One queue alone, with a slot for each of its items, is emptied. */
  lemma OneQueuePass(s: Start, p: Pass, t: nat)
    requires Starts(s) && Complete(s, p) && Clear(s) && t < |s.queued| && 1 <= |s.queued[t]| <= s.slots
    requires forall u :: 0 <= u < |s.queued| && u != t ==> s.queued[u] == []
    ensures |p.popped| == |p.queues| == |s.queued| && p.popped[t] == |p.queues[t]| == |s.queued[t]|
    ensures AllTaken(s.g, s.st, p) == s.queued[t]
  {
    OneQueueEmptied(s, p, t);
    ClearPass(s, p);
    PassShape(s, p);
    OneQueueTaken(s, p, t, |p.queues|);
    forall i | i in s.queued[t] ensures i in s.g.jobs && MayRun(s.g, s.st, i) { QueuedStatus(s, t, i); }
    hide Starts, IsPass, Gone, HeadsKnown;
    assert p.queues[t][..p.popped[t]] == s.queued[t];
    PicksAll(s.g, s.st, s.queued[t]);
  }

  lemma {:induction false} OneQueueTaken(s: Start, p: Pass, t: nat, n: nat)
    requires Popped(p) && t < |p.queues| && n <= |p.queues|
    requires forall u :: 0 <= u < |p.queues| && u != t ==> p.queues[u] == []
    ensures Taken(s.g, s.st, p, n) == if n <= t then [] else Picks(s.g, s.st, p.queues[t][..p.popped[t]])
  {
    if n > 0 { OneQueueTaken(s, p, t, n - 1); }
  }

  lemma {:induction false} PicksAll(g: Graph, st: Statuses, l: seq<Item>)
    requires forall i :: i in l ==> i in g.jobs && MayRun(g, st, i)
    ensures Picks(g, st, l) == l
  {
    hide MayRun;
    if l != [] { PicksAll(g, st, l[..|l| - 1]); }
  }

  lemma OneQueueEmptied(s: Start, p: Pass, t: nat)
    requires Starts(s) && Complete(s, p) && Clear(s) && t < |s.queued| && 1 <= |s.queued[t]| <= s.slots
    requires forall u :: 0 <= u < |s.queued| && u != t ==> s.queued[u] == []
    ensures |p.popped| == |p.queues| == |s.queued| && p.popped[t] == |p.queues[t]| == |s.queued[t]|
  {
    ClearPass(s, p);
    assert TurnOk(s, p, t);
    hide Starts, Clear, Gone, Arrives, ShareOf;
    OneQueueShare(s, t);
    var q, n := p.queues[t], p.popped[t];
    assert q[..n][..n] == q[..n];
    PicksPrefix(s.g, s.st, q[..n], n);
  }

  lemma OneQueueShare(s: Start, t: nat)
    requires HeadsKnown(s.g, s.queued) && t < |s.queued| && s.queued[t] != []
    requires forall u :: 0 <= u < |s.queued| && u != t ==> s.queued[u] == []
    ensures ShareOf(s.g, s.queued, s.slots, s.queued, t) == s.slots
  {
    OneQueueWeight(s, t, t);
    OneQueueWeight(s, t, t + 1);
    OneQueueWeight(s, t, |s.queued|);
    var w := s.g.jobs[s.queued[t][0]].weight;
    NoShare(s.slots, w);
    RoundWithLateWeight(s.slots, w, 0);
    hide HeadWeight, HeadsKnown, Share;
  }

  lemma {:induction false} OneQueueWeight(s: Start, t: nat, n: nat)
    requires HeadsKnown(s.g, s.queued) && t < |s.queued| && s.queued[t] != [] && n <= |s.queued|
    requires forall u :: 0 <= u < |s.queued| && u != t ==> s.queued[u] == []
    ensures HeadWeight(s.g, s.queued, n) == if n <= t then 0 else s.g.jobs[s.queued[t][0]].weight
  {
    if n > 0 { OneQueueWeight(s, t, n - 1); }
  }

  // ----- other states ------------------------------------------------------------------------

  /** The items of a target that could be served: queued or scheduled, and allowed to run. */
  ghost function Hopeful(s: Start, t: nat): set<Item>
  {
    set i | i in s.g.jobs && s.g.jobs[i].target == t && (i in s.st ==> s.st[i] == Queued) && MayRun(s.g, s.st, i)
  }

  /** Every queue's share exceeds the number of items of its target that could be served. */
  ghost predicate Roomy(s: Start)
    requires HeadsKnown(s.g, s.queued)
  {
    forall t :: 0 <= t < |s.queued| && s.queued[t] != [] ==>
      |Hopeful(s, t)| < ShareOf(s.g, s.queued, s.slots, s.queued, t)
  }

  lemma FewPicks(s: Start, l: seq<Item>, t: nat)
    requires Distinct(l)
    requires forall i :: i in l ==> i in s.g.jobs && s.g.jobs[i].target == t && (i in s.st ==> s.st[i] == Queued)
    ensures |Picks(s.g, s.st, l)| <= |Hopeful(s, t)|
  {
    PicksAre(s.g, s.st, l);
    hide MayRun, Picks;
    var r := Picks(s.g, s.st, l);
    DistinctSize(r);
    var taken := set x | x in r;
    assert taken <= Hopeful(s, t);
    SubsetSize(taken, Hopeful(s, t));
  }

  lemma {:induction false} SubsetSize(a: set<Item>, b: set<Item>)
    requires a <= b
    ensures |a| <= |b|
  {
    if a != {} {
      var x :| x in a;
      SubsetSize(a - {x}, b - {x});
    }
  }

  /** Without late queues the weights found are those at the start. */
  lemma {:induction false} SameWeights(g: Graph, q0: seq<seq<Item>>, qs: seq<seq<Item>>, t: nat)
    requires HeadsKnown(g, q0) && HeadsKnown(g, qs) && t <= |qs| <= |q0|
    requires forall u :: 0 <= u < t ==> q0[u] <= qs[u] && (q0[u] == [] ==> qs[u] == [])
    ensures HeadWeight(g, qs, t) == HeadWeight(g, q0, t)
  {
    if t > 0 { SameWeights(g, q0, qs, t - 1); }
  }

  /** A roomy turn empties its queue. */
  lemma RoomyEmpties(s: Start, p: Pass, t: nat)
    requires Starts(s) && Complete(s, p) && HeadsKnown(s.g, s.queued) && Roomy(s) && NoneLate(s, p)
    requires t < |s.queued| && s.queued[t] != []
    ensures p.popped[t] == |p.queues[t]|
  {
    SameShare(s, p, t);
    NotServedYet(s, p, t);
    assert TurnOk(s, p, t);
    hide IsPass, HeadsKnown, NoneLate, ShareOf, Arrives, Starts, Hopeful, Picks;
    var q, n := p.queues[t], p.popped[t];
    FewPicks(s, q, t);
    PicksPrefix(s.g, s.st, q, n);
  }

  lemma SameShare(s: Start, p: Pass, t: nat)
    requires Complete(s, p) && HeadsKnown(s.g, s.queued) && NoneLate(s, p) && t < |s.queued|
    ensures HeadsKnown(s.g, p.queues)
    ensures ShareOf(s.g, s.queued, s.slots, p.queues, t) == ShareOf(s.g, s.queued, s.slots, s.queued, t)
  {
    hide Served, Arrives, Distinct, HeadWeight;
    forall u | 0 <= u < |s.queued| ensures s.queued[u] <= p.queues[u] { assert TurnOk(s, p, u); }
    hide TurnOk;
    SameWeights(s.g, s.queued, p.queues, t);
    SameWeights(s.g, s.queued, p.queues, t + 1);
  }

  /** A turn finds only items that are queued or were scheduled before the pass. */
  lemma NotServedYet(s: Start, p: Pass, t: nat)
    requires Starts(s) && IsPass(s, p) && t < |p.queues|
    ensures forall i :: i in p.queues[t] ==> i in s.st ==> s.st[i] == Queued
  {
    hide IsPass, Arrives, Starts;
    forall i | i in p.queues[t] ensures i in s.st ==> s.st[i] == Queued {
      FoundInQueue(s, p, t, i);
      ArrivesJob(s, p, t, i);
    }
  }

  /** With roomy turns and no late queue, what would happen to an item does. */
  ghost predicate Smooth(s: Start, p: Pass)
  {
    Starts(s) && Complete(s, p) && HeadsKnown(s.g, s.queued) && Roomy(s) && NoneLate(s, p)
  }

  lemma {:induction false} Fulfilled(s: Start, p: Pass, i: Item)
    requires Smooth(s, p) && i in s.g.jobs && s.g.jobs[i].target < |s.queued|
    ensures Comes(s, i) ==> Arrives(s, p, s.g.jobs[i].target, i)
    ensures Drops(s, i) ==> Dropped(s, p, i)
    ensures Breaks(s, i) ==> Broke(s, p, i)
    ensures Falls(s, i) ==> Gone(s, p, i)
    decreases s.g.jobs[i].target
  {
    assert Layers(s.g) by { hide Layers, HeadsKnown, Roomy; }
    DepsBelow(s.g, i);
    hide Smooth, Layers, Gone, Falls, Comes, Drops, Breaks, Arrives, Dropped, Broke, Swept, InLine;
    forall e | Dep(s.g, i, e) ensures Fulfils(s, p, e) {
      Fulfilled(s, p, e);
      BothWays(s, p, e);
    }
    ComesArrives(s, p, i);
    FallsSwept(s, p, i);
    FallsParts(s, i);
    GoneParts(s, p, i);
    if InLine(s, i) {
      ServedInLine(s, p, i);
    }
  }

  /** Both directions, for a dependency. */
  ghost predicate Fulfils(s: Start, p: Pass, i: Item)
  {
    && (Drops(s, i) <==> Dropped(s, p, i)) && (Breaks(s, i) <==> Broke(s, p, i))
    && (Falls(s, i) ==> Gone(s, p, i)) && (Terminal(s.st, i) ==> Gone(s, p, i))
  }

  lemma BothWays(s: Start, p: Pass, i: Item)
    requires Smooth(s, p) && i in s.g.jobs
    requires (Drops(s, i) ==> Dropped(s, p, i)) && (Breaks(s, i) ==> Broke(s, p, i)) && (Falls(s, i) ==> Gone(s, p, i))
    ensures Fulfils(s, p, i)
  {
    Foretold(s, p, i);
    GoneParts(s, p, i);
    hide Gone, Falls, Drops, Breaks, Dropped, Broke, Swept, Comes, Arrives, Starts, Roomy, IsPass;
  }

  lemma ComesArrives(s: Start, p: Pass, i: Item)
    requires Layers(s.g) && i in s.g.jobs && forall e :: Dep(s.g, i, e) ==> Fulfils(s, p, e)
    ensures Comes(s, i) ==> Arrives(s, p, s.g.jobs[i].target, i)
    ensures AllFall(s, i) ==> AllGone(s, p, i)
  {
    DepsBelow(s.g, i);
    hide Layers, Gone, Falls, Drops, Breaks, Dropped, Broke, Terminal;
    FallsParts(s, i);
  }

  lemma FallsSwept(s: Start, p: Pass, i: Item)
    requires Layers(s.g) && i in s.g.jobs && forall e :: Dep(s.g, i, e) ==> Fulfils(s, p, e)
    ensures i !in s.st && AllFall(s, i) && !Comes(s, i) ==> Swept(s, p, i)
  {
    DepsBelow(s.g, i);
    ComesArrives(s, p, i);
    SweptParts(s, p, i);
    hide Layers, Gone, Falls, Drops, Breaks, Dropped, Broke, Terminal, Swept, AllFall, AllGone, Arrives;
  }

  /** An item that is queued, or would be, is taken off. */
  lemma ServedInLine(s: Start, p: Pass, i: Item)
    requires Smooth(s, p) && i in s.g.jobs && s.g.jobs[i].target < |s.queued| && InLine(s, i)
    requires Comes(s, i) ==> Arrives(s, p, s.g.jobs[i].target, i)
    ensures !MayRun(s.g, s.st, i) ==> Dropped(s, p, i)
    ensures MayRun(s.g, s.st, i) && i in s.broken ==> Broke(s, p, i)
  {
    var t := s.g.jobs[i].target;
    FallsParts(s, i);
    hide Comes, Arrives, Starts, Roomy, MayRun, IsPass, InLine;
    FoundInQueue(s, p, t, i);
    assert i in p.queues[t];
    assert s.queued[t] != [];
    RoomyEmpties(s, p, t);
    PassShape(s, p);
    hide HeadsKnown, NoneLate;
    assert p.queues[t][..p.popped[t]] == p.queues[t];
  }

  /** From any other state, with roomy turns, some queue does fill up late. */
  lemma NotCalmLate(s: Start, p: Pass)
    requires Starts(s) && Complete(s, p) && HeadsKnown(s.g, s.queued) && Roomy(s) && !Calm(s)
    ensures !NoneLate(s, p)
  {
    hide Starts, Roomy, Comes, IsPass, Arrives, HeadsKnown;
    var j :| j in s.g.jobs && s.g.jobs[j].target < |s.queued| && Comes(s, j) && s.queued[s.g.jobs[j].target] == [];
    if NoneLate(s, p) {
      Fulfilled(s, p, j);
      FoundInQueue(s, p, s.g.jobs[j].target, j);
    }
  }

  // ----- the weight that comes late ----------------------------------------------------------

  /** The weight of the queues that were empty at the start and are not when their turn comes. */
  function LateWeight(g: Graph, q0: seq<seq<Item>>, qs: seq<seq<Item>>): nat
  {
    if HeadsKnown(g, q0) && HeadsKnown(g, qs) && |qs| <= |q0| && HeadWeight(g, qs, |qs|) >= HeadWeight(g, q0, |qs|)
    then HeadWeight(g, qs, |qs|) - HeadWeight(g, q0, |qs|)
    else 0
  }

  lemma {:induction false} LateWeightSign(g: Graph, q0: seq<seq<Item>>, qs: seq<seq<Item>>, t: nat)
    requires HeadsKnown(g, q0) && HeadsKnown(g, qs) && t <= |qs| <= |q0|
    requires forall u :: 0 <= u < t ==> q0[u] <= qs[u]
    ensures HeadWeight(g, qs, t) >= HeadWeight(g, q0, t)
    ensures HeadWeight(g, qs, t) == HeadWeight(g, q0, t) <==> forall u :: 0 <= u < t && q0[u] == [] ==> qs[u] == []
  {
    if t > 0 {
      LateWeightSign(g, q0, qs, t - 1);
      assert q0[t - 1] <= qs[t - 1];
    }
  }

  /** Exactly when weight comes late: never from a calm state, and from every other state as soon as the
      shares exceed what could be served. */
  lemma LateExact(s: Start, p: Pass)
    requires Starts(s) && Complete(s, p)
    ensures HeadsKnown(s.g, s.queued)
    ensures TotalHeadWeight(s.g, p.queues) == TotalHeadWeight(s.g, s.queued) + LateWeight(s.g, s.queued, p.queues)
    ensures Calm(s) ==> LateWeight(s.g, s.queued, p.queues) == 0
    ensures Roomy(s) ==> (LateWeight(s.g, s.queued, p.queues) == 0 <==> Calm(s))
  {
    hide Served, ShareOf, Arrives, Calm, Roomy, Starts, HeadWeight, Distinct;
    forall u | 0 <= u < |s.queued| ensures s.queued[u] <= p.queues[u] { assert TurnOk(s, p, u); }
    hide TurnOk;
    LateWeightSign(s.g, s.queued, p.queues, |s.queued|);
    if Calm(s) {
      CalmNoneLate(s, p);
    } else if Roomy(s) {
      NotCalmLate(s, p);
    }
  }

  /** Every state is roomy for enough slots: so only calm states never find weight late. */
  lemma EnoughIsRoomy(s: Start)
    requires Layers(s.g) && HeadsKnown(s.g, s.queued)
    requires s.slots == HeadWeight(s.g, s.queued, |s.queued|) * (|s.g.items| + 1)
    ensures Roomy(s)
  {
    hide Layers, Hopeful, ShareOf;
    forall t | 0 <= t < |s.queued| && s.queued[t] != []
      ensures |Hopeful(s, t)| < ShareOf(s.g, s.queued, s.slots, s.queued, t)
    {
      HopefulBound(s, t);
      EnoughAt(s.g, s.queued, |s.g.items| + 1, t);
    }
  }

  lemma EnoughAt(g: Graph, q0: seq<seq<Item>>, c: nat, t: nat)
    requires HeadsKnown(g, q0) && t < |q0| && q0[t] != []
    ensures ShareOf(g, q0, HeadWeight(g, q0, |q0|) * c, q0, t) >= c
  {
    HeadWeightPositive(g, q0, |q0|, t);
    var h, h' := HeadWeight(g, q0, t), HeadWeight(g, q0, t + 1);
    assert h' >= h + 1;
    hide HeadWeight, HeadsKnown, Share;
    ShareGap(HeadWeight(g, q0, |q0|), c, h, h');
  }

  lemma ShareGap(total: nat, c: nat, h: nat, h': nat)
    requires total >= 1 && h' >= h + 1
    ensures Share(total * c, h', total) - Share(total * c, h, total) >= c
  {
    hide Share;
    ExactShare(total, c, h);
    ExactShare(total, c, h');
    MulMono(c, h + 1, h');
    assert c * (h + 1) == c * h + c;
  }

  lemma HopefulBound(s: Start, t: nat)
    requires Layers(s.g)
    ensures |Hopeful(s, t)| <= |s.g.items|
  {
    hide HasDependency, MayRun;
    DistinctSize(s.g.items);
    var all := set x | x in s.g.items;
    assert Hopeful(s, t) <= all;
    SubsetSize(Hopeful(s, t), all);
  }

  lemma ExactShare(total: nat, c: nat, sum: nat)
    requires total >= 1
    ensures Share(total * c, sum, total) == c * sum
  {
    var x := c * sum;
    assert (total * c) * sum == x * total + 0 == total * x + 0 by { Regrouped(total, c, sum); }
    DivShift(x, 0, total);
    assert 0 / total == 0 && 0 % total == 0;
  }

  lemma Regrouped(a: nat, b: nat, c: nat)
    ensures (a * b) * c == (b * c) * a && (b * c) * a == a * (b * c)
  {}

  // ----- too many jobs -----------------------------------------------------------------------

  /** A pass launches more jobs than there are free slots if and only if, over the targets, the smaller of
      share and items that may run add up to more. */
  lemma OverrunExact(s: Start, p: Pass)
    requires Complete(s, p)
    ensures |AllTaken(s.g, s.st, p)| > s.slots <==> Size(s, p) > s.slots
  {
    hide IsPass;
    AllTakenCount(s, p);
  }

  /** A pass that has something to dispatch, in which every turn finds its share of items that may run. */
  ghost predicate Busy(s: Start, p: Pass)
  {
    Complete(s, p) && TotalHeadWeight(s.g, s.queued) >= 1 && Full(s, p, |p.queues|)
  }

  /** The late weight does not change the number of slots handed out. */
  predicate LateRoundsAway(s: Start, p: Pass)
  {
    RoundsAway(s.slots, TotalHeadWeight(s.g, s.queued), s.slots * LateWeight(s.g, s.queued, p.queues))
  }

  /** For such a pass, that is when the late weight does not round away. */
  lemma OverrunWhenFull(s: Start, p: Pass)
    requires Starts(s) && Busy(s, p)
    ensures Size(s, p) > s.slots <==> !LateRoundsAway(s, p)
  {
    hide IsPass, Starts, Full, HeadWeight, Share, Calm, Roomy, RoundsAway, LateWeight, PassSize, HeadsKnown;
    PassShape(s, p);
    LateExact(s, p);
    SizeBound(s, p, |p.queues|);
    RoundWithLateWeight(s.slots, TotalHeadWeight(s.g, s.queued), LateWeight(s.g, s.queued, p.queues));
  }

  /** Without late weight no pass launches more jobs than there are free slots. */
  lemma NoOverrun(s: Start, p: Pass)
    requires Starts(s) && Complete(s, p) && LateWeight(s.g, s.queued, p.queues) == 0
    ensures Size(s, p) <= s.slots
  {
    hide Starts, HeadWeight, Share, Calm, Roomy, LateWeight, PassSize, HeadsKnown, IsPass;
    PassShape(s, p);
    LateExact(s, p);
    if TotalHeadWeight(s.g, s.queued) >= 1 {
      SizeBound(s, p, |p.queues|);
      RoundWithLateWeight(s.slots, TotalHeadWeight(s.g, s.queued), 0);
      assert s.slots * 0 == 0;
    } else {
      NothingShared(s, p, |p.queues|);
    }
  }

  lemma {:induction false} NothingShared(s: Start, p: Pass, n: nat)
    requires HeadsKnown(s.g, s.queued) && HeadsKnown(s.g, p.queues) && n <= |p.queues|
    requires HeadWeight(s.g, s.queued, |s.queued|) == 0
    ensures PassSize(s, p, n) <= 0
  {
    hide HeadsKnown, Picks, HeadWeight;
    if n > 0 { NothingShared(s, p, n - 1); }
  }

  /** The items taken in the first n turns are different, and of the first n targets. */
  lemma {:induction false} TakenAre(s: Start, p: Pass, n: nat)
    requires IsPass(s, p) && Popped(p) && n <= |p.queues|
    ensures Distinct(Taken(s.g, s.st, p, n))
    ensures forall i :: i in Taken(s.g, s.st, p, n) ==> i in s.g.jobs && s.g.jobs[i].target < n
  {
    hide IsPass, Picks, Distinct;
    if n == 0 {
      NothingDistinct();
    } else {
      TakenAre(s, p, n - 1);
      TurnTakes(s, p, n - 1);
      var a, b := Taken(s.g, s.st, p, n - 1), Picks(s.g, s.st, p.queues[n - 1][..p.popped[n - 1]]);
      assert forall i :: i in a ==> i !in b;
      JoinLists(a, b);
    }
  }

  lemma NothingDistinct()
    ensures Distinct<Item>([])
  {}

  lemma TurnTakes(s: Start, p: Pass, t: nat)
    requires IsPass(s, p) && Popped(p) && t < |p.queues|
    ensures var b := Picks(s.g, s.st, p.queues[t][..p.popped[t]]);
      Distinct(b) && forall i :: i in b ==> i in s.g.jobs && s.g.jobs[i].target == t
  {
    assert TurnOk(s, p, t);
    hide IsPass, HeadsKnown, Served, ShareOf, Arrives, MayRun, Picks;
    var front := p.queues[t][..p.popped[t]];
    assert Distinct(front);
    PicksAre(s.g, s.st, front);
  }

  /** With as many free slots as there are items no pass exceeds them, late weight or not. */
  lemma EnoughSlots(s: Start, p: Pass)
    requires Layers(s.g) && Complete(s, p) && s.slots >= |s.g.items|
    ensures Size(s, p) <= s.slots
  {
    PassShape(s, p);
    AllTakenCount(s, p);
    TakenAre(s, p, |p.queues|);
    hide IsPass, HasDependency, HeadsKnown, Popped, Taken, PassSize;
    var l := Taken(s.g, s.st, p, |p.queues|);
    DistinctSize(l);
    DistinctSize(s.g.items);
    SubsetSize(set x | x in l, set x | x in s.g.items);
  }
}
