/** Why an item ends up killed: as long as nobody interrupts the run, its launcher said so, its launch or one
    it depends on failed, or too few of its dependencies passed. */
module JobOutcomes {
  import opened Basics
  import opened JobGraph
  import opened JobTables
  import opened DispatchPass
  import opened LateQueues

  /** i depends, over items killed without being launched, on one whose launch failed. */
  ghost predicate SweptBy(g: Graph, st: Statuses, launches: seq<Item>, broken: set<Item>, i: Item)
    decreases Level(g, i)
  {
    exists d :: Dep(g, i, d) && Level(g, d) < Level(g, i) && d in st && st[d] == Killed
      && if d in launches then d in broken else SweptBy(g, st, launches, broken, d)
  }

  /** Why i was killed, if no launcher said so. */
  ghost predicate Reason(g: Graph, st: Statuses, launches: seq<Item>, broken: set<Item>, i: Item)
  {
    if i in launches then i in broken
    else i in g.jobs && (!MayRun(g, st, i) || SweptBy(g, st, launches, broken, i))
  }

  /** Launchers that answer were launched without failing, failed launches are killed, and every other killed
      item has a reason. */
  ghost predicate Accounted(g: Graph, st: Statuses, launches: seq<Item>, answers: Statuses, broken: set<Item>)
  {
    && (forall i :: i in answers ==> i in launches && i !in broken)
    && (forall i :: i in launches && i in broken ==> i in st && st[i] == Killed)
    && (forall i :: i in st && st[i] == Killed && i !in answers ==> Reason(g, st, launches, broken, i))
  }

  /** How every item ends: launched without failing, with its launcher's final answer, or killed for a reason. */
  ghost predicate Outcomes(g: Graph, st: Statuses, launches: seq<Item>, answers: Statuses, broken: set<Item>)
  {
    forall i :: i in g.jobs ==>
      && i in st
      && if i in launches && i !in broken then i in answers && st[i] == answers[i]
         else i !in answers && st[i] == Killed && Reason(g, st, launches, broken, i)
  }

  lemma AllAccounted(g: Graph, st: Statuses, launches: seq<Item>, answers: Statuses, broken: set<Item>)
    requires Accounted(g, st, launches, answers, broken) && Reported(st, answers) && Launched(g, st, launches)
    requires forall i :: i in g.jobs ==> Terminal(st, i)
    ensures Outcomes(g, st, launches, answers, broken)
  {
    hide SweptBy, MayRun, Distinct;
  }

  /** Without failing launches, exactly the items that may run are launched. */
  lemma LaunchedIffMayRun(g: Graph, st: Statuses, launches: seq<Item>, answers: Statuses, i: Item)
    requires Outcomes(g, st, launches, answers, {}) && Launched(g, st, launches) && i in g.jobs
    ensures i in launches <==> MayRun(g, st, i)
  {
    if i !in launches {
      assert Reason(g, st, launches, {}, i);
      NobodySwept(g, st, launches, i);
    }
  }

  lemma {:induction false} NobodySwept(g: Graph, st: Statuses, launches: seq<Item>, i: Item)
    ensures !SweptBy(g, st, launches, {}, i)
    decreases Level(g, i)
  {
    if SweptBy(g, st, launches, {}, i) {
      var d :| Dep(g, i, d) && Level(g, d) < Level(g, i) && d in st && st[d] == Killed
        && if d in launches then d in {} else SweptBy(g, st, launches, {}, d);
      NobodySwept(g, st, launches, d);
    }
  }

  // ----- steps -------------------------------------------------------------------------------

  /** A reason stays one while statuses move on and other items are launched. */
  lemma {:induction false} SweptKept(g: Graph, st: Statuses, st': Statuses, launches: seq<Item>, launches': seq<Item>,
                                     broken: set<Item>, i: Item)
    requires SweptBy(g, st, launches, broken, i) && Forward(st, st')
    requires forall j :: j in st && st[j] == Killed ==> (j in launches' <==> j in launches)
    ensures SweptBy(g, st', launches', broken, i)
    decreases Level(g, i)
  {
    var d :| Dep(g, i, d) && Level(g, d) < Level(g, i) && d in st && st[d] == Killed
      && if d in launches then d in broken else SweptBy(g, st, launches, broken, d);
    assert d in st' && st'[d] == Killed by { hide SweptBy; }
    if d !in launches { SweptKept(g, st, st', launches, launches', broken, d); }
  }

  lemma ReasonKept(g: Graph, st: Statuses, st': Statuses, launches: seq<Item>, launches': seq<Item>,
                   broken: set<Item>, i: Item)
    requires Sound(g, st, {}) && Forward(st, st') && i in st && st[i] == Killed
    requires forall j :: j in st && st[j] == Killed ==> (j in launches' <==> j in launches)
    requires Reason(g, st, launches, broken, i)
    ensures Reason(g, st', launches', broken, i)
  {
    assert i in g.jobs && Ready(g, st, i) by { hide Ready; }
    hide Sound;
    if i !in launches {
      if MayRun(g, st, i) {
        SweptKept(g, st, st', launches, launches', broken, i);
      } else {
        SettledMayRun(g, st, st', i);
      }
    }
    hide *;
  }

  lemma SettledMayRun(g: Graph, st: Statuses, st': Statuses, i: Item)
    requires i in g.jobs && Ready(g, st, i) && Forward(st, st')
    ensures MayRun(g, st', i) == MayRun(g, st, i)
  {
    forall d | Dep(g, i, d) ensures d in st && d in st' && st'[d] == st[d] { assert Terminal(st, d); }
  }

  /** A launcher gives a final answer; then some items are queued. */
  lemma AnswerAccounted(g: Graph, st: Statuses, st': Statuses, launches: seq<Item>, answers: Statuses,
                        broken: set<Item>, i: Item, v: Status)
    requires Accounted(g, st, launches, answers, broken) && Sound(g, st, {}) && Launched(g, st, launches)
    requires i in st && st[i] == Dispatched && Final(v) && Forward(st, st')
    requires forall j :: j in st' && st'[j] == Killed ==> (j == i || (j in st && st[j] == Killed))
    ensures Accounted(g, st', launches, answers[i := v], broken)
  {
    hide Reason, MayRun, Distinct;
    assert i in launches && i !in broken;
    hide Launched;
    forall j | j in st' && st'[j] == Killed && j !in answers[i := v] ensures Reason(g, st', launches, broken, j) {
      ReasonKept(g, st, st', launches, launches, broken, j);
    }
    hide Sound;
  }

  // ----- a dispatch pass ---------------------------------------------------------------------

  /** The pass takes exactly the items in the fronts of the queues that may run. */
  lemma {:induction false} TakenExactly(s: Start, p: Pass, n: nat, i: Item)
    requires IsPass(s, p) && Popped(p) && n <= |p.queues|
    ensures i in Taken(s.g, s.st, p, n) <==>
      i in s.g.jobs && s.g.jobs[i].target < n && i in Front(p, s.g.jobs[i].target) && MayRun(s.g, s.st, i)
  {
    hide IsPass, Picks, MayRun;
    if n > 0 {
      TakenExactly(s, p, n - 1, i);
      FrontExactly(s, p, n - 1, i);
    }
  }

  lemma FrontExactly(s: Start, p: Pass, t: nat, i: Item)
    requires IsPass(s, p) && Popped(p) && t < |p.queues|
    ensures i in Picks(s.g, s.st, p.queues[t][..p.popped[t]]) <==>
      i in s.g.jobs && s.g.jobs[i].target == t && i in Front(p, t) && MayRun(s.g, s.st, i)
  {
    assert TurnOk(s, p, t);
    hide IsPass, HeadsKnown, Served, ShareOf, Arrives, MayRun, Picks;
    var front := p.queues[t][..p.popped[t]];
    assert Distinct(front) && Front(p, t) == front;
    PicksAre(s.g, s.st, front);
  }

  /** What holds before and after a pass. */
  ghost predicate PassedOver(s: Start, p: Pass, st: Statuses, launches: seq<Item>, answers: Statuses)
  {
    && Starts(s) && Complete(s, p) && InPass(s, p, st) && Popped(p)
    && Launched(s.g, s.st, launches) && Reported(s.st, answers) && Reported(st, answers) && Forward(s.st, st)
  }

  /** An item in the front of a queue was not launched before; it is launched if it may run. */
  lemma FrontNew(s: Start, p: Pass, st: Statuses, launches: seq<Item>, answers: Statuses, i: Item)
    requires PassedOver(s, p, st, launches, answers) && i in s.g.jobs && i in Front(p, s.g.jobs[i].target)
    ensures i !in launches && (i in s.st ==> s.st[i] == Queued)
    ensures i in AllTaken(s.g, s.st, p) <==> MayRun(s.g, s.st, i)
    ensures i !in s.st ==> Arrives(s, p, s.g.jobs[i].target, i)
  {
    hide Starts, IsPass, InPass, Reported, Forward, MayRun, Arrives, Distinct;
    var t := s.g.jobs[i].target;
    InFront(p, t, i);
    FoundInQueue(s, p, t, i);
    ArrivesJob(s, p, t, i);
    TakenExactly(s, p, |p.queues|, i);
    hide Front;
  }

  /** What is newly gone is killed. */
  lemma GoneIsKilled(s: Start, p: Pass, st: Statuses, launches: seq<Item>, answers: Statuses, i: Item)
    requires PassedOver(s, p, st, launches, answers) && Gone(s, p, i) && !Terminal(s.st, i)
    ensures i in st && st[i] == Killed && i !in answers
  {
    GoneBefore(s, p, st, i);
    assert SamePassed(s.st, st) by { hide Gone, Starts, IsPass; }
    hide Starts, IsPass, Gone, Launched, Forward, InPass;
  }

  lemma BrokeLaunched(s: Start, p: Pass, st: Statuses, launches: seq<Item>, answers: Statuses, i: Item)
    requires PassedOver(s, p, st, launches, answers) && Broke(s, p, i)
    ensures i in AllTaken(s.g, s.st, p) && i in s.broken && i in s.g.jobs && !Terminal(s.st, i) && Gone(s, p, i)
  {
    hide PassedOver, Front, MayRun, AllTaken;
    FrontNew(s, p, st, launches, answers, i);
    GoneParts(s, p, i);
    hide Gone;
  }

  /** A cancelled item was not launched, and still may not run. */
  lemma DroppedReason(s: Start, p: Pass, st: Statuses, launches: seq<Item>, answers: Statuses, i: Item)
    requires PassedOver(s, p, st, launches, answers) && Dropped(s, p, i)
    ensures Reason(s.g, st, launches + AllTaken(s.g, s.st, p), s.broken, i)
  {
    assert SamePassed(s.st, st) by { hide Starts, IsPass, Gone; }
    hide PassedOver, Front, MayRun, AllTaken, SweptBy;
    FrontNew(s, p, st, launches, answers, i);
    SameMayRun(s.g, s.st, st, i);
  }

  lemma SweptNotLaunched(s: Start, p: Pass, st: Statuses, launches: seq<Item>, answers: Statuses, i: Item)
    requires PassedOver(s, p, st, launches, answers) && Swept(s, p, i)
    ensures i !in launches && i !in AllTaken(s.g, s.st, p) && i in s.g.jobs && i !in s.st
  {
    SweptParts(s, p, i);
    assert i !in launches by { hide Starts, IsPass, InPass, Reported, MayRun; }
    assert Popped(p) && IsPass(s, p) by { hide Starts, IsPass, InPass, Reported, MayRun; }
    hide PassedOver, MayRun, IsPass, Swept, AllGone, AnyBroke, AnyDropped;
    TakenExactly(s, p, |p.queues|, i);
    if i in Front(p, s.g.jobs[i].target) {
      FrontNew(s, p, st, launches, answers, i);
    }
  }

  /** The dependency through which i was swept: a failed launch, or swept itself. */
  lemma SweptCause(s: Start, p: Pass, st: Statuses, launches: seq<Item>, answers: Statuses, i: Item)
    returns (d: Item)
    requires PassedOver(s, p, st, launches, answers) && Swept(s, p, i)
    ensures Dep(s.g, i, d) && Level(s.g, d) < Level(s.g, i) && d in s.g.jobs && Gone(s, p, d) && !Terminal(s.st, d)
    ensures Broke(s, p, d) || Swept(s, p, d)
  {
    SweptParts(s, p, i);
    StartsSound(s);
    DepsBelow(s.g, i);
    if AnyBroke(s, p, i) {
      d :| Dep(s.g, i, d) && Broke(s, p, d);
      BrokeLaunched(s, p, st, launches, answers, d);
    } else {
      assert !Ready(s.g, s.st, i) by { hide Ready, Layers, PassedOver, Gone, Swept; }
      hide PassedOver, Layers, Sound, Swept;
      d :| Dep(s.g, i, d) && !Terminal(s.st, d);
      GoneParts(s, p, d);
      hide Gone;
    }
  }

  lemma SweptReason(s: Start, st: Statuses, launches: seq<Item>, i: Item, d: Item)
    requires i in s.g.jobs && i !in launches && Dep(s.g, i, d) && Level(s.g, d) < Level(s.g, i)
    requires d in st && st[d] == Killed
    requires if d in launches then d in s.broken else SweptBy(s.g, st, launches, s.broken, d)
    ensures SweptBy(s.g, st, launches, s.broken, i) && Reason(s.g, st, launches, s.broken, i)
  {
    hide MayRun;
  }

  /** The pass has a reason for everybody it kills. */
  lemma {:induction false} GoneReason(s: Start, p: Pass, st: Statuses, launches: seq<Item>, answers: Statuses, i: Item)
    requires PassedOver(s, p, st, launches, answers) && Gone(s, p, i) && !Terminal(s.st, i) && i in s.g.jobs
    ensures Reason(s.g, st, launches + AllTaken(s.g, s.st, p), s.broken, i)
    ensures Swept(s, p, i) ==>
      && i !in launches + AllTaken(s.g, s.st, p)
      && SweptBy(s.g, st, launches + AllTaken(s.g, s.st, p), s.broken, i)
    decreases Level(s.g, i)
  {
    hide PassedOver, Gone, Swept, AllTaken, MayRun, SweptBy, Broke, Dropped, Terminal;
    GoneParts(s, p, i);
    if Swept(s, p, i) {
      SweptNotLaunched(s, p, st, launches, answers, i);
      var d := SweptCause(s, p, st, launches, answers, i);
      GoneIsKilled(s, p, st, launches, answers, d);
      if Broke(s, p, d) {
        BrokeLaunched(s, p, st, launches, answers, d);
      } else {
        GoneReason(s, p, st, launches, answers, d);
      }
      SweptReason(s, st, launches + AllTaken(s.g, s.st, p), i, d);
    } else if Broke(s, p, i) {
      BrokeLaunched(s, p, st, launches, answers, i);
      assert Reason(s.g, st, launches + AllTaken(s.g, s.st, p), s.broken, i) by { hide SweptBy, MayRun; }
    } else {
      DroppedReason(s, p, st, launches, answers, i);
    }
  }

  /** A dispatch pass keeps the account. */
  lemma PassAccounted(s: Start, p: Pass, st: Statuses, launches: seq<Item>, answers: Statuses)
    requires PassedOver(s, p, st, launches, answers) && Accounted(s.g, s.st, launches, answers, s.broken)
    requires Sound(s.g, st, {})
    ensures Accounted(s.g, st, launches + AllTaken(s.g, s.st, p), answers, s.broken)
  {
    hide PassedOver, AllTaken, Reason, Gone, Sound;
    var launches' := launches + AllTaken(s.g, s.st, p);
    forall i | i in launches' && i in s.broken ensures i in st && st[i] == Killed {
      if i in launches { FinalKept(s, p, st, launches, answers, i); } else { TakenBreaks(s, p, st, launches,
          answers, i); }
    }
    forall i | i in st && st[i] == Killed && i !in answers ensures Reason(s.g, st, launches', s.broken, i) {
      KilledReason(s, p, st, launches, answers, i);
    }
  }

  lemma FinalKept(s: Start, p: Pass, st: Statuses, launches: seq<Item>, answers: Statuses, i: Item)
    requires PassedOver(s, p, st, launches, answers) && i in s.st && s.st[i] == Killed
    ensures i in st && st[i] == Killed
  {
    hide Starts, IsPass, InPass, Reported, Launched;
  }

  lemma TakenBreaks(s: Start, p: Pass, st: Statuses, launches: seq<Item>, answers: Statuses, i: Item)
    requires PassedOver(s, p, st, launches, answers) && i in AllTaken(s.g, s.st, p) && i in s.broken
    ensures i in st && st[i] == Killed
  {
    assert Popped(p) && IsPass(s, p) by { hide Starts, IsPass, InPass, Reported, MayRun; }
    hide PassedOver, MayRun, IsPass, Gone;
    TakenExactly(s, p, |p.queues|, i);
    BrokeLaunched(s, p, st, launches, answers, i);
    GoneIsKilled(s, p, st, launches, answers, i);
  }

  lemma KilledReason(s: Start, p: Pass, st: Statuses, launches: seq<Item>, answers: Statuses, i: Item)
    requires PassedOver(s, p, st, launches, answers) && Accounted(s.g, s.st, launches, answers, s.broken)
    requires Sound(s.g, st, {}) && i in st && st[i] == Killed && i !in answers
    ensures Reason(s.g, st, launches + AllTaken(s.g, s.st, p), s.broken, i)
  {
    assert Starts(s) && Forward(s.st, st) && InPass(s, p, st) by { hide Starts, IsPass, InPass, Reported, MayRun; }
    StartsSound(s);
    assert i in s.g.jobs by { hide Ready; }
    if Terminal(s.st, i) {
      assert i in s.st && s.st[i] == Killed by { hide Starts, Sound, Layers; }
      forall j | j in s.st && s.st[j] == Killed
        ensures j in launches + AllTaken(s.g, s.st, p) <==> j in launches
      {
        NotTakenAgain(s, p, st, launches, answers, j);
      }
      hide PassedOver, AllTaken, Starts, InPass, Sound, Layers;
      assert Reason(s.g, s.st, launches, s.broken, i) by { hide Reason; }
      ReasonKept(s.g, s.st, st, launches, launches + AllTaken(s.g, s.st, p), s.broken, i);
    } else {
      GoneBefore(s, p, st, i);
      hide *;
      GoneReason(s, p, st, launches, answers, i);
    }
  }

  lemma NotTakenAgain(s: Start, p: Pass, st: Statuses, launches: seq<Item>, answers: Statuses, j: Item)
    requires PassedOver(s, p, st, launches, answers) && j in s.st && s.st[j] == Killed
    ensures j !in AllTaken(s.g, s.st, p)
  {
    assert Popped(p) && IsPass(s, p) by { hide Starts, IsPass, InPass, Reported, MayRun; }
    hide PassedOver, MayRun, IsPass;
    TakenExactly(s, p, |p.queues|, j);
    if j in s.g.jobs && j in Front(p, s.g.jobs[j].target) { FrontNew(s, p, st, launches, answers, j); }
  }
}
