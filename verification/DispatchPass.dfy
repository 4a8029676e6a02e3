/** One pass of the scheduler's `_dispatch`, on values: the queues as each target's turn finds them, how
    far each is served, and what becomes of the items, whichever launches fail. */
module DispatchPass {
  import opened Basics
  import opened JobGraph
  import opened JobTables
  import opened Apportion

  // ----- weights -----------------------------------------------------------------------------

  /** Is the head of every queue a known item? */
  predicate HeadsKnown(g: Graph, queued: seq<seq<Item>>)
  {
    forall u :: 0 <= u < |queued| && queued[u] != [] ==> queued[u][0] in g.jobs && g.jobs[queued[u][0]].weight >= 1
  }

  /** The weights at the heads of the first t queues, as `_dispatch` adds them up. */
  function HeadWeight(g: Graph, queued: seq<seq<Item>>, t: nat): nat
    requires t <= |queued| && HeadsKnown(g, queued)
  {
    if t == 0 then 0
    else HeadWeight(g, queued, t - 1) + if queued[t - 1] == [] then 0 else g.jobs[queued[t - 1][0]].weight
  }

  /** The total weight at the heads of all queues. */
  function TotalHeadWeight(g: Graph, queued: seq<seq<Item>>): nat
  {
    if HeadsKnown(g, queued) then HeadWeight(g, queued, |queued|) else 0
  }

  lemma {:induction false} HeadWeightPositive(g: Graph, queued: seq<seq<Item>>, t: nat, u: nat)
    requires u < t <= |queued| && queued[u] != [] && HeadsKnown(g, queued)
    ensures HeadWeight(g, queued, t) >= 1
  {
    if u < t - 1 { HeadWeightPositive(g, queued, t - 1, u); }
  }

  /** Weights of queues depend only on the queues added up. */
  lemma {:induction false} HeadWeightPrefix(g: Graph, a: seq<seq<Item>>, b: seq<seq<Item>>, t: nat)
    requires HeadsKnown(g, a) && HeadsKnown(g, b) && t <= |a| && t <= |b|
    requires forall u :: 0 <= u < t ==> a[u] == b[u]
    ensures HeadWeight(g, a, t) == HeadWeight(g, b, t)
  {
    if t > 0 { HeadWeightPrefix(g, a, b, t - 1); }
  }

  // ----- items that may run ------------------------------------------------------------------

  /** The items of a queue that may run, in order. */
  ghost function Picks(g: Graph, st: Statuses, l: seq<Item>): seq<Item>
  {
    if l == [] then []
    else
      var n := |l| - 1;
      Picks(g, st, l[..n]) + if l[n] in g.jobs && MayRun(g, st, l[n]) then [l[n]] else []
  }

  /** The same items have passed. */
  ghost predicate SamePassed(st: Statuses, st': Statuses)
  {
    forall i :: (i in st && st[i] == Passed) <==> (i in st' && st'[i] == Passed)
  }

  /** Whether an item may run depends only on what has passed. */
  lemma SameMayRun(g: Graph, st: Statuses, st': Statuses, i: Item)
    requires SamePassed(st, st') && i in g.jobs
    ensures MayRun(g, st, i) == MayRun(g, st', i)
  {}

  lemma {:induction false} SamePicks(g: Graph, st: Statuses, st': Statuses, l: seq<Item>)
    requires SamePassed(st, st')
    ensures Picks(g, st, l) == Picks(g, st', l)
  {
    if l != [] {
      SamePicks(g, st, st', l[..|l| - 1]);
      var i := l[|l| - 1];
      if i in g.jobs { SameMayRun(g, st, st', i); }
      hide MayRun;
    }
  }

  lemma {:induction false} PicksPrefix(g: Graph, st: Statuses, l: seq<Item>, n: nat)
    requires n <= |l|
    ensures |Picks(g, st, l[..n])| <= |Picks(g, st, l)| <= |l|
    decreases |l|
  {
    hide MayRun;
    if n < |l| {
      assert l[..|l| - 1][..n] == l[..n];
      PicksPrefix(g, st, l[..|l| - 1], n);
    } else {
      assert l[..n] == l;
      if |l| > 0 {
        assert l[..|l| - 1][..0] == [];
        PicksPrefix(g, st, l[..|l| - 1], 0);
      }
    }
  }

  lemma {:induction false} PicksAre(g: Graph, st: Statuses, l: seq<Item>)
    requires Distinct(l)
    ensures Distinct(Picks(g, st, l))
    ensures forall i :: i in Picks(g, st, l) <==> i in l && i in g.jobs && MayRun(g, st, i)
  {
    hide MayRun;
    if l != [] {
      var n := |l| - 1;
      assert l == l[..n] + [l[n]] && l[n] !in l[..n];
      PicksAre(g, st, l[..n]);
    }
  }

  // ----- a pass ------------------------------------------------------------------------------

  /** What a pass starts from: statuses, queues and free slots, and the items whose launch fails. */
  datatype Start = Start(g: Graph, st: Statuses, queued: seq<seq<Item>>, slots: nat, broken: set<Item>)

  /** The queues as the targets' turns found them, and how many items each turn took off. */
  datatype Pass = Pass(queues: seq<seq<Item>>, popped: seq<nat>)

  /** The slots given to target t: the running share of the weights, less what was given before. */
  function ShareOf(g: Graph, q0: seq<seq<Item>>, slots: nat, queues: seq<seq<Item>>, t: nat): int
    requires HeadsKnown(g, q0) && HeadsKnown(g, queues) && t < |queues|
  {
    var total := HeadWeight(g, q0, |q0|);
    if total == 0 then 0
    else Share(slots, HeadWeight(g, queues, t + 1), total) - Share(slots, HeadWeight(g, queues, t), total)
  }

  /** What the first n targets are given. */
  function Given(g: Graph, q0: seq<seq<Item>>, slots: nat, queues: seq<seq<Item>>, n: nat): int
    requires HeadsKnown(g, q0) && HeadsKnown(g, queues) && n <= |queues|
  {
    if n == 0 then 0 else Given(g, q0, slots, queues, n - 1) + ShareOf(g, q0, slots, queues, n - 1)
  }

  /** Up to every target the slots given are the nearest integer to the slots times the weights found so far,
      over the total weight at the start; so each target's share is the difference of two such integers. */
  lemma {:induction false} GivenNearest(g: Graph, q0: seq<seq<Item>>, slots: nat, queues: seq<seq<Item>>, n: nat)
    requires HeadsKnown(g, q0) && HeadsKnown(g, queues) && n <= |queues| && HeadWeight(g, q0, |q0|) >= 1
    ensures IsShare(slots, HeadWeight(g, queues, n), HeadWeight(g, q0, |q0|), Given(g, q0, slots, queues, n))
    ensures Given(g, q0, slots, queues, n) == Share(slots, HeadWeight(g, queues, n), HeadWeight(g, q0, |q0|))
  {
    hide IsShare, Share, HeadsKnown;
    ShareNearest(slots, HeadWeight(g, queues, n), HeadWeight(g, q0, |q0|));
    if n == 0 {
      NoShare(slots, HeadWeight(g, q0, |q0|));
    } else {
      GivenNearest(g, q0, slots, queues, n - 1);
      hide HeadWeight;
    }
  }

  /** A turn takes items off the queue until it has taken its share of items that may run. */
  ghost predicate Served(g: Graph, st: Statuses, q: seq<Item>, n: nat, share: int)
  {
    && n <= |q|
    && (n < |q| ==> |Picks(g, st, q[..n])| >= share)
    && (n > 0 ==> |Picks(g, st, q[..n - 1])| < share)
  }

  /** The items taken off the queue of target t. */
  function Front(p: Pass, t: nat): seq<Item>
  {
    if t < |p.queues| && t < |p.popped| && p.popped[t] <= |p.queues[t]| then p.queues[t][..p.popped[t]] else []
  }

  function Level(g: Graph, i: Item): nat
  {
    if i in g.jobs then g.jobs[i].target else 0
  }

  /** d is taken off its queue and may not run: it is cancelled. */
  ghost predicate Dropped(s: Start, p: Pass, d: Item)
  {
    d in s.g.jobs && d in Front(p, s.g.jobs[d].target) && !MayRun(s.g, s.st, d)
  }

  /** d is taken off its queue, may run, and its launch fails. */
  ghost predicate Broke(s: Start, p: Pass, d: Item)
  {
    d in s.g.jobs && d in Front(p, s.g.jobs[d].target) && MayRun(s.g, s.st, d) && d in s.broken
  }

  ghost predicate AnyDropped(s: Start, p: Pass, j: Item)
  {
    exists d :: Dep(s.g, j, d) && Dropped(s, p, d)
  }

  ghost predicate AnyBroke(s: Start, p: Pass, j: Item)
  {
    exists d :: Dep(s.g, j, d) && Broke(s, p, d)
  }

  /** All that j depends on is gone. */
  ghost predicate AllGone(s: Start, p: Pass, j: Item)
    decreases Level(s.g, j), 0
  {
    forall d :: Dep(s.g, j, d) ==> Level(s.g, d) < Level(s.g, j) && Gone(s, p, d)
  }

  /** j is scheduled, and what it depends on is gone, the last of it not by being cancelled: it is killed
      with its predecessors. */
  ghost predicate Swept(s: Start, p: Pass, j: Item)
    decreases Level(s.g, j), 1
  {
    && j in s.g.jobs && j !in s.st && AllGone(s, p, j)
    && (AnyBroke(s, p, j) || !AnyDropped(s, p, j))
  }

  /** d had finished before the pass, or finishes in it. */
  ghost predicate Gone(s: Start, p: Pass, d: Item)
    decreases Level(s.g, d), 2
  {
    Terminal(s.st, d) || Dropped(s, p, d) || Broke(s, p, d) || Swept(s, p, d)
  }

  /** j is scheduled in target t, and what it depends on is gone, the last of it by being cancelled: it is
      queued meanwhile. */
  ghost predicate Arrives(s: Start, p: Pass, t: nat, j: Item)
  {
    && j in s.g.jobs && j !in s.st && s.g.jobs[j].target == t && AllGone(s, p, j)
    && !AnyBroke(s, p, j) && AnyDropped(s, p, j)
  }

  ghost predicate TurnOk(s: Start, p: Pass, t: nat)
    requires t < |p.queues| == |p.popped| <= |s.queued| && HeadsKnown(s.g, s.queued) && HeadsKnown(s.g, p.queues)
  {
    && s.queued[t] <= p.queues[t] && Distinct(p.queues[t])
    && (forall j :: j in p.queues[t] ==> j in s.g.jobs && s.g.jobs[j].target == t)
    && (forall j :: j in p.queues[t][|s.queued[t]|..] <==> Arrives(s, p, t, j))
    && Served(s.g, s.st, p.queues[t], p.popped[t], ShareOf(s.g, s.queued, s.slots, p.queues, t))
  }

  /** The first turns of a pass. */
  ghost predicate IsPass(s: Start, p: Pass)
  {
    && |p.queues| == |p.popped| <= |s.queued| && HeadsKnown(s.g, s.queued) && HeadsKnown(s.g, p.queues)
    && forall t :: 0 <= t < |p.queues| ==> TurnOk(s, p, t)
  }

  function Extend(p: Pass, q: seq<Item>, n: nat): Pass
  {
    Pass(p.queues + [q], p.popped + [n])
  }

  /** One turn more. */
  lemma PassNext(s: Start, p: Pass, q: seq<Item>, n: nat)
    requires IsPass(s, p) && |p.queues| < |s.queued| && HeadsKnown(s.g, p.queues + [q])
    requires Layers(s.g)
    requires var t := |p.queues|;
      && s.queued[t] <= q && Distinct(q) && (forall j :: j in q ==> j in s.g.jobs && s.g.jobs[j].target == t)
      && (forall j :: j in q[|s.queued[t]|..] <==> Arrives(s, p, t, j))
    requires Served(s.g, s.st, q, n, ShareOf(s.g, s.queued, s.slots, p.queues + [q], |p.queues|))
    ensures IsPass(s, Extend(p, q, n))
  {
    var p', k := Extend(p, q, n), |p.queues|;
    hide TurnOk, Arrives, Layers, HeadWeight, Served, Distinct, ShareOf;
    forall t | 0 <= t <= k ensures TurnOk(s, p', t) {
      if t < k {
        TurnSame(s, p, q, n, t);
      } else {
        TurnNew(s, p, q, n);
      }
    }
  }

  lemma TurnSame(s: Start, p: Pass, q: seq<Item>, n: nat, t: nat)
    requires Layers(s.g) && t < |p.queues| == |p.popped| < |s.queued|
    requires HeadsKnown(s.g, s.queued) && HeadsKnown(s.g, p.queues) && HeadsKnown(s.g, p.queues + [q])
    requires TurnOk(s, p, t)
    ensures TurnOk(s, Extend(p, q, n), t)
  {
    var p' := Extend(p, q, n);
    hide Arrives, Layers, HeadWeight, Served, Distinct, HeadsKnown, ShareOf;
    SharePrefix(s.g, s.queued, s.slots, p.queues, p'.queues, t);
    forall j ensures Arrives(s, p', t, j) == Arrives(s, p, t, j) { ArrivesSame(s, p, q, n, t, j); }
    assert p'.queues[t] == p.queues[t] && p'.popped[t] == p.popped[t];
  }

  lemma SharePrefix(g: Graph, q0: seq<seq<Item>>, slots: nat, a: seq<seq<Item>>, b: seq<seq<Item>>, t: nat)
    requires HeadsKnown(g, q0) && HeadsKnown(g, a) && HeadsKnown(g, b) && t < |a| && t < |b|
    requires forall u :: 0 <= u <= t ==> a[u] == b[u]
    ensures ShareOf(g, q0, slots, a, t) == ShareOf(g, q0, slots, b, t)
  {
    hide HeadsKnown, HeadWeight, Share;
    HeadWeightPrefix(g, a, b, t + 1);
    HeadWeightPrefix(g, a, b, t);
  }

  lemma TurnNew(s: Start, p: Pass, q: seq<Item>, n: nat)
    requires Layers(s.g) && |p.queues| == |p.popped| < |s.queued|
    requires HeadsKnown(s.g, s.queued) && HeadsKnown(s.g, p.queues + [q])
    requires var t := |p.queues|;
      && s.queued[t] <= q && Distinct(q) && (forall j :: j in q ==> j in s.g.jobs && s.g.jobs[j].target == t)
      && (forall j :: j in q[|s.queued[t]|..] <==> Arrives(s, p, t, j))
    requires Served(s.g, s.st, q, n, ShareOf(s.g, s.queued, s.slots, p.queues + [q], |p.queues|))
    ensures TurnOk(s, Extend(p, q, n), |p.queues|)
  {
    var p', t := Extend(p, q, n), |p.queues|;
    hide Arrives, Layers, Served, Distinct, HeadsKnown, ShareOf;
    forall j ensures Arrives(s, p', t, j) == Arrives(s, p, t, j) { ArrivesSame(s, p, q, n, t, j); }
    assert p'.queues[t] == q && p'.popped[t] == n;
  }

  lemma FrontSame(p: Pass, q: seq<Item>, n: nat, t: nat)
    requires |p.queues| == |p.popped|
    ensures t < |p.queues| ==> Front(Extend(p, q, n), t) == Front(p, t)
    ensures t == |p.queues| && n <= |q| ==> Front(Extend(p, q, n), t) == q[..n]
    ensures t >= |p.queues| ==> Front(p, t) == []
    ensures t > |p.queues| ==> Front(Extend(p, q, n), t) == []
  {}

  /** A turn more changes nothing about the targets before it. */
  lemma {:induction false} GoneSame(s: Start, p: Pass, q: seq<Item>, n: nat, d: Item)
    requires Layers(s.g) && |p.queues| == |p.popped| && d in s.g.jobs && s.g.jobs[d].target < |p.queues|
    ensures Gone(s, Extend(p, q, n), d) == Gone(s, p, d)
    ensures Dropped(s, Extend(p, q, n), d) == Dropped(s, p, d) && Broke(s, Extend(p, q, n), d) == Broke(s, p, d)
    decreases s.g.jobs[d].target
  {
    var p' := Extend(p, q, n);
    FrontSame(p, q, n, s.g.jobs[d].target);
    DepsBelow(s.g, d);
    hide Layers, MayRun, Terminal, Front;
    forall e | Dep(s.g, d, e)
      ensures Gone(s, p', e) == Gone(s, p, e) && Dropped(s, p', e) == Dropped(s, p, e)
        && Broke(s, p', e) == Broke(s, p, e)
    {
      GoneSame(s, p, q, n, e);
    }
    hide Gone, Dropped, Broke, Extend;
    assert AllGone(s, p', d) == AllGone(s, p, d);
    assert AnyDropped(s, p', d) == AnyDropped(s, p, d) && AnyBroke(s, p', d) == AnyBroke(s, p, d);
    GoneParts(s, p, d);
    GoneParts(s, p', d);
  }

  lemma GoneParts(s: Start, p: Pass, d: Item)
    ensures Gone(s, p, d) <==> Terminal(s.st, d) || Dropped(s, p, d) || Broke(s, p, d) || Swept(s, p, d)
  {}

  lemma DepsBelow(g: Graph, i: Item)
    requires Layers(g)
    ensures forall d :: Dep(g, i, d) ==> g.jobs[d].target + 1 == g.jobs[i].target
  {
    hide HasDependency;
  }

  lemma ArrivesSame(s: Start, p: Pass, q: seq<Item>, n: nat, t: nat, j: Item)
    requires Layers(s.g) && |p.queues| == |p.popped| && t <= |p.queues|
    ensures Arrives(s, Extend(p, q, n), t, j) == Arrives(s, p, t, j)
  {
    if j in s.g.jobs && s.g.jobs[j].target == t {
      var p' := Extend(p, q, n);
      DepsBelow(s.g, j);
      hide Layers;
      forall e | Dep(s.g, j, e)
        ensures Gone(s, p', e) == Gone(s, p, e) && Dropped(s, p', e) == Dropped(s, p, e)
          && Broke(s, p', e) == Broke(s, p, e)
      {
        GoneSame(s, p, q, n, e);
      }
      hide Gone, Dropped, Broke, Extend;
      assert AllGone(s, p', j) == AllGone(s, p, j);
      assert AnyDropped(s, p', j) == AnyDropped(s, p, j) && AnyBroke(s, p', j) == AnyBroke(s, p, j);
    }
  }

  // ----- what a pass launches ----------------------------------------------------------------

  ghost predicate Popped(p: Pass)
  {
    |p.queues| == |p.popped| && forall t :: 0 <= t < |p.queues| ==> p.popped[t] <= |p.queues[t]|
  }

  /** The items taken to be launched in the first n turns. */
  ghost function Taken(g: Graph, st: Statuses, p: Pass, n: nat): seq<Item>
    requires Popped(p) && n <= |p.queues|
  {
    if n == 0 then [] else Taken(g, st, p, n - 1) + Picks(g, st, p.queues[n - 1][..p.popped[n - 1]])
  }

  /** The items a pass takes to be launched. */
  ghost function AllTaken(g: Graph, st: Statuses, p: Pass): seq<Item>
  {
    if Popped(p) then Taken(g, st, p, |p.queues|) else []
  }

  lemma {:induction false} TakenSame(g: Graph, st: Statuses, p: Pass, q: seq<Item>, k: nat, n: nat)
    requires Popped(p) && k <= |q| && n <= |p.queues|
    ensures Popped(Extend(p, q, k)) && Taken(g, st, Extend(p, q, k), n) == Taken(g, st, p, n)
  {
    if n > 0 { TakenSame(g, st, p, q, k, n - 1); }
  }

  /** A turn takes its share of the items that may run, or all there are. */
  lemma ServedCount(g: Graph, st: Statuses, q: seq<Item>, n: nat, share: nat)
    requires Served(g, st, q, n, share)
    ensures |Picks(g, st, q[..n])| <= share
    ensures |Picks(g, st, q[..n])| == share <==> |Picks(g, st, q)| >= share
    ensures |Picks(g, st, q[..n])| < share ==> |Picks(g, st, q[..n])| == |Picks(g, st, q)|
  {
    PicksPrefix(g, st, q, n);
    if n > 0 { assert q[..n][..n - 1] == q[..n - 1]; }
    hide MayRun;
    assert n == |q| ==> q[..n] == q;
  }

  lemma PassShape(s: Start, p: Pass)
    requires IsPass(s, p)
    ensures Popped(p) && |p.queues| <= |s.queued| && HeadsKnown(s.g, s.queued) && HeadsKnown(s.g, p.queues)
  {
    hide Arrives, Distinct, HeadsKnown, ShareOf, Picks;
    forall t | 0 <= t < |p.queues| ensures p.popped[t] <= |p.queues[t]| { assert TurnOk(s, p, t); }
  }

  /** What one turn takes: the smaller of its share and the items in its queue that may run. */
  ghost function TurnSize(s: Start, p: Pass, t: nat): int
    requires HeadsKnown(s.g, s.queued) && HeadsKnown(s.g, p.queues) && t < |p.queues|
  {
    var share, runnable := ShareOf(s.g, s.queued, s.slots, p.queues, t), |Picks(s.g, s.st, p.queues[t])|;
    if share < runnable then share else runnable
  }

  /** The sum of what the first n turns take. */
  ghost function PassSize(s: Start, p: Pass, n: nat): int
    requires HeadsKnown(s.g, s.queued) && HeadsKnown(s.g, p.queues) && n <= |p.queues|
  {
    if n == 0 then 0 else PassSize(s, p, n - 1) + TurnSize(s, p, n - 1)
  }

  ghost function Size(s: Start, p: Pass): int
  {
    if HeadsKnown(s.g, s.queued) && HeadsKnown(s.g, p.queues) then PassSize(s, p, |p.queues|) else 0
  }

  lemma ShareNonNegative(s: Start, p: Pass, t: nat)
    requires HeadsKnown(s.g, s.queued) && HeadsKnown(s.g, p.queues) && t < |p.queues|
    ensures ShareOf(s.g, s.queued, s.slots, p.queues, t) >= 0
  {
    var total, h, h' := HeadWeight(s.g, s.queued, |s.queued|), HeadWeight(s.g, p.queues, t), HeadWeight(s.g,
        p.queues, t + 1);
    assert h <= h';
    hide HeadWeight, HeadsKnown, Share;
    if total > 0 { ShareMonotone(s.slots, h, h', total); }
  }

  lemma TurnCount(s: Start, p: Pass, t: nat)
    requires IsPass(s, p) && Popped(p) && t < |p.queues| && HeadsKnown(s.g, s.queued) && HeadsKnown(s.g, p.queues)
    ensures |Picks(s.g, s.st, p.queues[t][..p.popped[t]])| == TurnSize(s, p, t)
  {
    assert TurnOk(s, p, t);
    hide IsPass, HeadsKnown, Picks, Arrives, Distinct, Popped, Served, ShareOf;
    ShareNonNegative(s, p, t);
    ServedCount(s.g, s.st, p.queues[t], p.popped[t], ShareOf(s.g, s.queued, s.slots, p.queues, t));
  }

  /** How many items a pass launches, whatever the queues hold. */
  lemma {:induction false} TakenCount(s: Start, p: Pass, n: nat)
    requires IsPass(s, p) && n <= |p.queues|
    ensures Popped(p) && HeadsKnown(s.g, s.queued) && HeadsKnown(s.g, p.queues)
    ensures |Taken(s.g, s.st, p, n)| == PassSize(s, p, n)
  {
    hide IsPass, Picks, Popped, HeadsKnown, TurnSize;
    PassShape(s, p);
    if n > 0 {
      TakenCount(s, p, n - 1);
      TurnCount(s, p, n - 1);
    }
  }

  /** The items taken number the sum, over the targets, of the smaller of share and items that may run. */
  lemma AllTakenCount(s: Start, p: Pass)
    requires IsPass(s, p)
    ensures |AllTaken(s.g, s.st, p)| == Size(s, p)
  {
    hide IsPass, Popped, HeadsKnown, Taken, PassSize;
    TakenCount(s, p, |p.queues|);
  }

  /** Every turn finds at least its share of items that may run. */
  ghost predicate Full(s: Start, p: Pass, n: nat)
    requires HeadsKnown(s.g, s.queued) && HeadsKnown(s.g, p.queues) && n <= |p.queues|
  {
    forall t :: 0 <= t < n ==> |Picks(s.g, s.st, p.queues[t])| >= ShareOf(s.g, s.queued, s.slots, p.queues, t)
  }

  /** The sum is at most the share of all weight found, and exactly that if and only if all turns are full. */
  lemma {:induction false} SizeBound(s: Start, p: Pass, n: nat)
    requires HeadsKnown(s.g, s.queued) && HeadsKnown(s.g, p.queues) && n <= |p.queues|
    requires HeadWeight(s.g, s.queued, |s.queued|) >= 1
    ensures var share := Share(s.slots, HeadWeight(s.g, p.queues, n), HeadWeight(s.g, s.queued, |s.queued|));
      PassSize(s, p, n) <= share && (PassSize(s, p, n) == share <==> Full(s, p, n))
  {
    hide Picks, HeadsKnown, Share;
    if n == 0 {
      NoShare(s.slots, HeadWeight(s.g, s.queued, |s.queued|));
      assert HeadWeight(s.g, p.queues, 0) == 0;
    } else {
      hide HeadWeight;
      SizeBound(s, p, n - 1);
      FullNext(s, p, n - 1);
    }
  }

  lemma FullNext(s: Start, p: Pass, t: nat)
    requires HeadsKnown(s.g, s.queued) && HeadsKnown(s.g, p.queues) && t < |p.queues|
    ensures Full(s, p, t + 1) <==>
      Full(s, p, t) && |Picks(s.g, s.st, p.queues[t])| >= ShareOf(s.g, s.queued, s.slots, p.queues, t)
  {
    hide Picks, ShareOf, HeadsKnown;
  }

  lemma NoShare(slots: nat, total: nat)
    requires total >= 1
    ensures Share(slots, 0, total) == 0
  {}

  // ----- following a pass through the scheduler's states -------------------------------------

  predicate Unbroken(l: seq<Item>, broken: set<Item>)
  {
    forall i :: i in l ==> i !in broken
  }

  /** First stage of a turn: those of the items in `front` that may not run have finished, and nothing
      else has; the items queued meanwhile are in the next target. */
  ghost predicate Culled(g: Graph, t: nat, st: Statuses, mid: Statuses, front: seq<Item>)
  {
    && (forall i :: Terminal(mid, i) <==> Terminal(st, i) || (i in front && i in g.jobs && !MayRun(g, st, i)))
    && (forall i :: i in st && !Terminal(mid, i) ==> i in mid && mid[i] == st[i])
    && (forall i :: i in mid && i !in st ==> mid[i] == Queued && i in g.jobs && g.jobs[i].target == t + 1)
    && SamePassed(st, mid) && Sound(g, mid, {})
  }

  /** Second stage: the queued items in `taken` are launched, those whose launch fails are killed, and with
      them items that had no status. */
  ghost predicate LaunchedAll(g: Graph, mid: Statuses, st: Statuses, taken: seq<Item>, broken: set<Item>)
  {
    && (forall i :: i in taken ==> i in mid && mid[i] == Queued)
    && (forall i :: i in mid ==>
          i in st && st[i] == if i !in taken then mid[i] else if i in broken then Killed else Dispatched)
    && (forall i :: i in st && i !in mid ==> st[i] == Killed)
    && Sound(g, st, {})
  }

  /** The statuses after the turns of p. */
  ghost predicate InPass(s: Start, p: Pass, st: Statuses)
  {
    && (forall i :: Terminal(st, i) <==> Gone(s, p, i))
    && SamePassed(s.st, st)
    && (forall i :: i in st && !Final(st[i]) && (i in s.st ==> s.st[i] != st[i]) ==> MovedInPass(s, p, st, i))
  }

  lemma GoneBefore(s: Start, p: Pass, st: Statuses, i: Item)
    requires InPass(s, p, st)
    ensures Terminal(st, i) <==> Gone(s, p, i)
  {
    hide Gone, Terminal;
  }

  /** i has been in the queue that the turn of its target found, or waits for that turn. */
  ghost predicate MovedInPass(s: Start, p: Pass, st: Statuses, i: Item)
    requires i in st
  {
    && i in s.g.jobs
    && if s.g.jobs[i].target < |p.queues| then i in p.queues[s.g.jobs[i].target]
       else st[i] == Queued && s.g.jobs[i].target == |p.queues|
  }

  /** What the scheduler finds at a turn, given what it started from. */
  ghost predicate Finds(s: Start, st: Statuses, q: seq<seq<Item>>)
  {
    && Layers(s.g) && Sound(s.g, s.st, {}) && ListsOk(s.g, s.queued, s.st, Queued, {})
    && Sound(s.g, st, {}) && ListsOk(s.g, q, st, Queued, {}) && Forward(s.st, st)
  }

  /** A queue has grown exactly by the items whose dependencies are gone, the last by being cancelled. */
  lemma FoundArrivals(s: Start, st: Statuses, q: seq<seq<Item>>, p: Pass, j: Item)
    requires Finds(s, st, q) && InPass(s, p, st) && |p.queues| == |p.popped|
    requires |p.queues| < |s.queued| && s.queued[|p.queues|] <= q[|p.queues|]
    ensures var t := |p.queues|; j in q[t][|s.queued[t]|..] <==> Arrives(s, p, t, j)
  {
    var t := |p.queues|;
    NewInQueue(s, st, q, t, j);
    if j in s.g.jobs && j !in s.st && s.g.jobs[j].target == t {
      DepsBelow(s.g, j);
      assert j in st ==> Ready(s.g, st, j);
      assert j !in st ==> !Ready(s.g, st, j);
      hide Layers, ListsOk, Sound, Forward;
      assert Terminal(st, j) <==> Gone(s, p, j);
      assert Ready(s.g, st, j) <==> AllGone(s, p, j) by {
        hide Gone;
      }
      FrontSame(p, [], 0, t);
      hide Front, Ready, AllGone, AnyBroke, AnyDropped, Terminal, MayRun;
    }
  }

  /** The new items of a queue are those that were scheduled before and are queued now. */
  lemma NewInQueue(s: Start, st: Statuses, q: seq<seq<Item>>, t: nat, j: Item)
    requires Finds(s, st, q) && t < |s.queued| && s.queued[t] <= q[t]
    ensures j in q[t][|s.queued[t]|..] <==>
      j in s.g.jobs && s.g.jobs[j].target == t && j !in s.st && j in st && st[j] == Queued
  {
    hide Layers, Sound;
    var q0 := s.queued;
    assert j in q[t] <==> Belongs(s.g, st, Queued, {}, t, j);
    assert j in q0[t] <==> Belongs(s.g, s.st, Queued, {}, t, j);
    assert Distinct(q[t]) && q[t] == q0[t] + q[t][|q0[t]|..];
    assert j in q0[t] ==> j !in q[t][|q0[t]|..];
  }
}
