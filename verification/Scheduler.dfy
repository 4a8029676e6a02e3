/** The dvsim job scheduler: util/dvsim/Scheduler.py. */
module Scheduling {
  import opened Basics
  import opened Bits
  import opened JobGraph
  import opened JobTables
  import opened Apportion
  import opened DispatchPass
  import opened PassTurns
  import opened LateQueues
  import opened JobOutcomes

  /** The index after the given one on a circle of n. */
  function NextIndex(index: int, n: nat): int
  {
    if index + 1 < n then index + 1 else 0
  }

  /** The next element of a circular list, and its index; None where an empty list raises an error. */
  method GetNextItem<T>(arr: seq<T>, index: int) returns (r: Option<(T, nat)>)
    requires index >= -1
    ensures r.None? <==> arr == []
    ensures r.Some? ==> 0 <= NextIndex(index, |arr|) == r.value.1 < |arr| && r.value.0 == arr[r.value.1]
  {
    var next: nat := index + 1;
    if next < |arr| {
      return Some((arr[next], next));
    }
    next := 0;
    if next < |arr| {
      return Some((arr[next], next));
    }
    return None;
  }

  /** What a launcher said about an item. */
  datatype Answer = Answer(item: Item, status: Status)

  /** The log of polls and the final answers agree, and nobody is polled again after a final answer. */
  ghost predicate Logged(polls: seq<Answer>, answers: Statuses)
  {
    && (forall x :: 0 <= x < |polls| && Final(polls[x].status) ==>
          polls[x].item in answers && answers[polls[x].item] == polls[x].status)
    && (forall i :: i in answers ==> Answer(i, answers[i]) in polls)
    && (forall x, y :: 0 <= x < y < |polls| && polls[x].item == polls[y].item ==> !Final(polls[x].status))
  }

  lemma LoggedStart()
    ensures Logged([], map[])
  {}

  lemma LoggedNext(polls: seq<Answer>, answers: Statuses, a: Answer)
    requires Logged(polls, answers) && a.item !in answers
    ensures Logged(polls + [a], if Final(a.status) then answers[a.item := a.status] else answers)
  {
    var more := polls + [a];
    var answers' := if Final(a.status) then answers[a.item := a.status] else answers;
    assert more[|polls|] == a;
    forall i | i in answers' ensures Answer(i, answers'[i]) in more {
      if i in answers && i != a.item { assert Answer(i, answers[i]) in polls; }
    }
  }

  lemma ForwardMayRun(g: Graph, st: Statuses, st': Statuses, i: Item)
    requires i in g.jobs && Ready(g, st, i) && Forward(st, st')
    ensures Ready(g, st', i) && MayRun(g, st', i) == MayRun(g, st, i)
  {
    forall d | Dep(g, i, d) ensures Terminal(st', d) && d in st && st'[d] == st[d] { assert Terminal(st, d); }
  }

  class Scheduler {
    const g: Graph
    const total: seq<nat>
    const maxParallel: nat
    const maxPoll: nat

    // The targets and configurations in the order in which they were first met.
    const keys: seq<Key>

    // The items whose launch raises an error.
    const broken: set<Item>

    var scheduled: Schedule
    var queued: seq<seq<Item>>
    var running: seq<seq<Item>>
    var passed: seq<set<Item>>
    var failed: seq<set<Item>>
    var killed: seq<set<Item>>
    var itemStatus: Statuses
    var lastTargetPolled: int
    var lastItemPolled: seq<int>

    // The launchers, as seen from outside: which items were launched so far, the answers to all polls,
    // the final one among the answers of each item, and how many more times each job will answer that
    // it is still running.
    var launches: seq<Item>
    var polls: seq<Answer>
    var answers: Statuses
    var patience: map<Item, nat>

    ghost function AllTables(): Tables
      reads this`scheduled, this`queued, this`running, this`passed, this`failed, this`killed
    {
      Tables(scheduled, queued, running, passed, failed, killed)
    }

    /** What holds between any two steps of a run. `pending` are scheduled items that have just become
        free to go on, `held` queued items that a dispatch pass has taken off their queue. */
    ghost predicate Valid(pending: set<Item>, held: set<Item>)
      reads this`scheduled, this`queued, this`running, this`passed, this`failed, this`killed
      reads this`itemStatus, this`lastTargetPolled, this`lastItemPolled, this`launches, this`answers
    {
      && Layered(g)
      && TablesOk(g, AllTables(), itemStatus, held)
      && Sound(g, itemStatus, pending)
      && Launched(g, itemStatus, launches)
      && Reported(itemStatus, answers)
      && -1 <= lastTargetPolled < g.targets && |lastItemPolled| == g.targets
      && (forall t :: 0 <= t < g.targets ==> lastItemPolled[t] >= -1)
      && |total| == g.targets && (forall t :: 0 <= t < g.targets ==> total[t] == |AtTarget(g, t)|)
    }

    /** Everybody who was killed so far was killed for a reason; kept by everything but an interrupt. */
    ghost predicate Accounts()
      reads this`itemStatus, this`launches, this`answers
    {
      Accounted(g, itemStatus, launches, answers, broken)
    }

    lemma KnownFacts()
      requires Valid({}, {})
      ensures Sound(g, itemStatus, {}) && Launched(g, itemStatus, launches) && Reported(itemStatus, answers)
    {}

    /** Between steps, each target's items are shared out over the tables without loss or overlap. */
    lemma Census(t: nat)
      requires Valid({}, {}) && t < g.targets
      ensures |queued| == |running| == |passed| == |failed| == |killed| == |total| == g.targets
      ensures |Scheduled(g, itemStatus, t)| + |queued[t]| + |running[t]|
        + |passed[t]| + |failed[t]| + |killed[t]| == total[t]
      ensures forall i :: i in AtTarget(g, t) ==> InOneTable(g, AllTables(), itemStatus, t, i)
    {
      hide Layered, Sound, Launched;
      QueueSize(g, AllTables(), itemStatus, {});
      SizesAddUp(g, AllTables(), itemStatus, t);
    }

    // ----- queries ---------------------------------------------------------------------------

    method OkToEnqueue(item: Item) returns (ok: bool)
      requires item in g.jobs
      ensures ok <==> Ready(g, itemStatus, item)
    {
      var deps := g.jobs[item].deps;
      for a := 0 to |deps|
        invariant forall b :: 0 <= b < a ==> deps[b] in g.jobs ==> Terminal(itemStatus, deps[b])
      {
        var dep := deps[a];
        if dep !in g.jobs {
          continue;
        }
        if dep !in itemStatus || !Final(itemStatus[dep]) {
          assert Dep(g, item, dep);
          return false;
        }
      }
      return true;
    }

    /** Whether a queued item may run; the status of every dependency in scope is there and final. */
    method OkToRun(item: Item) returns (ok: bool)
      requires item in g.jobs && Ready(g, itemStatus, item)
      ensures ok <==> MayRun(g, itemStatus, item)
    {
      var deps := g.jobs[item].deps;
      var needsAll := g.jobs[item].needsAll;
      for a := 0 to |deps|
        invariant forall b :: 0 <= b < a && deps[b] in g.jobs ==>
          deps[b] in itemStatus && (itemStatus[deps[b]] == Passed) == needsAll
      {
        var dep := deps[a];
        if dep !in g.jobs {
          continue;
        }
        assert Dep(g, item, dep);
        var depStatus := itemStatus[dep];
        assert Final(depStatus);
        if needsAll {
          if depStatus == Failed || depStatus == Killed {
            return false;
          }
        } else {
          if depStatus == Passed {
            return true;
          }
        }
      }
      return needsAll;
    }

    /** Of the listed items, those that depend on `item` and wait for nothing else. */
    method ReadyDependants(list: seq<Item>, item: Item) returns (r: seq<Item>)
      requires item in g.jobs && Distinct(list) && forall j :: j in list ==> j in g.jobs
      ensures Distinct(r)
      ensures forall j :: j in r <==> j in list && Dep(g, j, item) && Ready(g, itemStatus, j)
      ensures r == Kept(list, set j | j in list && Dep(g, j, item) && Ready(g, itemStatus, j))
    {
      hide Ready;
      ghost var chosen := set j | j in list && Dep(g, j, item) && Ready(g, itemStatus, j);
      r := [];
      for a := 0 to |list|
        invariant Distinct(r) && r == Kept(list[..a], chosen)
        invariant forall j :: j in r <==> j in list[..a] && Dep(g, j, item) && Ready(g, itemStatus, j)
      {
        var next := list[a];
        assert list[..a + 1] == list[..a] + [next] && next !in list[..a];
        assert list[..a + 1][..a] == list[..a];
        if item !in g.jobs[next].deps {
          continue;
        }
        var ok := OkToEnqueue(next);
        if ok {
          r := r + [next];
        }
      }
      assert list[..|list|] == list;
    }

    /** The items that become free to go on because `item` has finished; None where looking up its
        configuration in the next target raises an error. */
    method GetSuccessors(item: Item) returns (r: Option<seq<Item>>)
      requires Layers(g) && ScheduleOk(g, scheduled, itemStatus) && item in g.jobs
      requires forall j :: Dep(g, j, item) ==> j !in itemStatus
      ensures var key := Key(g.jobs[item].target + 1, g.jobs[item].cfg);
        r.None? <==> key.target < g.targets && key !in scheduled
      ensures HasDependant(g, item) ==> r.Some?
      ensures r.Some? ==> Distinct(r.value) && ListSet(r.value) == Freed(g, itemStatus, item)
      ensures r.Some? ==> r.value == NextInLine(g, scheduled, itemStatus, item)
    {
      var target, cfg := g.jobs[item].target + 1, g.jobs[item].cfg;
      DependantsListed(g, scheduled, itemStatus, item);
      hide Layers, ScheduleOk, Ready, Distinct;
      if target == g.targets {
        BeyondLast(g, scheduled, itemStatus, Key(target, cfg));
        return Some([]);
      }
      if Key(target, cfg) !in scheduled {
        return None;
      }
      var list := scheduled[Key(target, cfg)];
      var successors := ReadyDependants(list, item);
      SuccessorsAre(g, itemStatus, list, item, successors);
      hide Freed, Kept, ListSet;
      return Some(successors);
    }

    // ----- moving items ----------------------------------------------------------------------

    method RemoveFromScheduled(item: Item)
      requires item in g.jobs
      modifies this`scheduled
      ensures scheduled == Unschedule(old(scheduled), KeyOf(g, item), item)
    {
      var key := Key(g.jobs[item].target, g.jobs[item].cfg);
      if key in scheduled {
        var list := Remove(scheduled[key], item);
        scheduled := if list == [] then scheduled - {key} else scheduled[key := list];
      }
    }

    method EnqueueItem(item: Item, ghost pending: set<Item>, ghost held: set<Item>)
      requires Valid(pending, held) && item in pending
      modifies this`scheduled, this`queued, this`itemStatus
      ensures Valid(pending - {item}, held)
      ensures itemStatus == old(itemStatus)[item := Queued]
      ensures item in g.jobs && g.jobs[item].target < |old(queued)|
      ensures queued == Append(old(queued), g.jobs[item].target, item)
    {
      hide Layered, TablesOk, Sound, Launched, Reported;
      PendingFacts(pending, held, item);
      ReportedKept(itemStatus, answers, item, Queued);
      EnqueueTables(g, AllTables(), itemStatus, held, item);
      EnqueueSound(g, itemStatus, pending, item, launches);
      var t := g.jobs[item].target;
      itemStatus := itemStatus[item := Queued];
      queued := queued[t := queued[t] + [item]];
      RemoveFromScheduled(item);
    }

    lemma PendingFacts(pending: set<Item>, held: set<Item>, item: Item)
      requires Valid(pending, held) && item in pending
      ensures item in g.jobs && item !in itemStatus && g.jobs[item].target < g.targets
      ensures |queued| == |running| == |passed| == |failed| == |killed| == g.targets
      ensures item !in queued[g.jobs[item].target] && item !in held
    {
      hide HasDependency, HasDependant;
      assert !Belongs(g, itemStatus, Queued, held, g.jobs[item].target, item);
    }

    /** Queues the given free items, all of one target. */
    method EnqueueAll(successors: seq<Item>, ghost target: nat, ghost held: set<Item>)
      requires Valid(ListSet(successors), held) && Distinct(successors)
      requires forall j :: j in successors ==> j in g.jobs && g.jobs[j].target == target
      modifies this`scheduled, this`queued, this`itemStatus
      ensures Valid({}, held)
      ensures OnlyQueued(old(itemStatus), itemStatus)
      ensures QueueGrew(old(queued), queued, target)
      ensures queued == AppendAll(old(queued), target, successors)
    {
      hide Valid, ListSet, AppendAll;
      AppendNothing(queued, target);
      for a := 0 to |successors|
        invariant Valid(ListSet(successors[a..]), held)
        invariant OnlyQueued(old(itemStatus), itemStatus)
        invariant QueueGrew(old(queued), queued, target)
        invariant queued == AppendAll(old(queued), target, successors[..a])
      {
        var next := successors[a];
        NextLeft(successors, a);
        PendingFacts(ListSet(successors[a..]), held, next);
        EnqueueItem(next, ListSet(successors[a..]), held);
        assert successors[..a + 1] == successors[..a] + [next];
        AppendNext(old(queued), target, successors[..a], next);
      }
      EmptyListSet(successors[|successors|..]);
      assert successors[..|successors|] == successors;
    }

    /** Queues every item that waited only for `item`. */
    method EnqueueSuccessors(item: Item, ghost held: set<Item>)
      requires item in g.jobs && Valid(Freed(g, itemStatus, item), held)
      requires forall j :: Dep(g, j, item) ==> j !in itemStatus
      modifies this`scheduled, this`queued, this`itemStatus
      ensures Valid({}, held)
      ensures OnlyQueued(old(itemStatus), itemStatus)
      ensures QueueGrew(old(queued), queued, g.jobs[item].target + 1)
      ensures queued == AppendAll(old(queued), g.jobs[item].target + 1,
          NextInLine(g, old(scheduled), old(itemStatus), item))
    {
      hide Valid, NextInLine, AppendAll, ListSet, Freed, Distinct, OnlyQueued, QueueGrew;
      var successors := NextSuccessors(item, Freed(g, itemStatus, item), held);
      FreedTargets(item, held, successors);
      EnqueueAll(successors, g.jobs[item].target + 1, held);
    }

    lemma FreedTargets(item: Item, held: set<Item>, l: seq<Item>)
      requires item in g.jobs && Valid(Freed(g, itemStatus, item), held) && ListSet(l) == Freed(g, itemStatus, item)
      ensures forall j :: j in l ==> j in g.jobs && g.jobs[j].target == g.jobs[item].target + 1
    {
      assert Layers(g) by { hide Layers, Covered, TablesOk, Sound, Launched; }
      hide Valid, HasDependency;
      assert forall j :: j in l ==> j in ListSet(l) && Dep(g, j, item);
    }

    /** `_cancel_item` without its successors: a scheduled, queued or held item goes straight to killed. */
    method CancelItem(item: Item, ghost pending: set<Item>, ghost held: set<Item>)
      requires Valid(pending, held) && item in g.jobs
      requires item in pending || (item in itemStatus && itemStatus[item] == Queued)
      modifies this`scheduled, this`queued, this`killed, this`itemStatus
      ensures itemStatus == old(itemStatus)[item := Killed]
      ensures Valid(pending - {item} + Freed(g, itemStatus, item), held - {item})
      ensures forall j :: Dep(g, j, item) ==> j !in itemStatus && j !in pending
      ensures |queued| == |old(queued)| == g.targets
      ensures g.jobs[item].target < g.targets
      ensures item in pending || item in held ==> queued == old(queued)
      ensures item !in pending && item !in held ==>
        queued == old(queued)[g.jobs[item].target := Remove(old(queued)[g.jobs[item].target], item)]
    {
      hide Layered, TablesOk, Sound, Launched, Reported, Freed, Dep, Remove, Unschedule, AtTarget;
      CancelFacts(item, pending, held);
      itemStatus := itemStatus[item := Killed];
      var t := g.jobs[item].target;
      killed := killed[t := killed[t] + {item}];
      if item in queued[t] {
        queued := queued[t := Remove(queued[t], item)];
      } else {
        RemoveFromScheduled(item);
      }
    }

    lemma CancelFacts(item: Item, pending: set<Item>, held: set<Item>)
      requires Valid(pending, held) && item in g.jobs
      requires item in pending || (item in itemStatus && itemStatus[item] == Queued)
      ensures g.jobs[item].target < g.targets && |queued| == |killed| == g.targets
      ensures item in queued[g.jobs[item].target] <==> !(item in pending || item in held)
      ensures TablesOk(g, CancelIn(g, AllTables(), item), itemStatus[item := Killed], held - {item})
      ensures var st := itemStatus[item := Killed];
        && Sound(g, st, pending - {item} + Freed(g, st, item)) && Launched(g, st, launches) && Reported(st, answers)
        && forall j :: Dep(g, j, item) ==> j !in st && j !in pending
    {
      hide HasDependency, HasDependant, TablesOk, Reported;
      ReportedKept(itemStatus, answers, item, Killed);
      assert g.jobs[item].target < g.targets;
      CancelTables(g, AllTables(), itemStatus, held, item);
      FinishSound(g, itemStatus, pending, item, Killed, launches);
    }

    /** Kills everything that would have run after `item`. */
    method CancelSuccessors(item: Item, ghost held: set<Item>)
      requires item in g.jobs && Valid(Freed(g, itemStatus, item), held)
      requires forall j :: Dep(g, j, item) ==> j !in itemStatus
      modifies this`scheduled, this`queued, this`killed, this`itemStatus
      ensures Valid({}, held) && queued == old(queued)
      ensures OnlyKilled(old(itemStatus), itemStatus)
    {
      hide Valid, Freed, Dep, ListSet, Distinct;
      var items := NextSuccessors(item, Freed(g, itemStatus, item), held);
      while items != []
        invariant Distinct(items) && Valid(ListSet(items), held) && queued == old(queued)
        invariant OnlyKilled(old(itemStatus), itemStatus)
        decreases |g.jobs.Keys - itemStatus.Keys|
      {
        items := CancelOne(items, held);
      }
      EmptyListSet(items);
    }

    /** One step of the worklist: kill its last item and put that item's successors on it. */
    method CancelOne(items: seq<Item>, ghost held: set<Item>) returns (rest: seq<Item>)
      requires items != [] && Distinct(items) && Valid(ListSet(items), held)
      modifies this`scheduled, this`queued, this`killed, this`itemStatus
      ensures Distinct(rest) && Valid(ListSet(rest), held) && queued == old(queued)
      ensures OnlyKilled(old(itemStatus), itemStatus)
      ensures |g.jobs.Keys - itemStatus.Keys| < |g.jobs.Keys - old(itemStatus).Keys|
    {
      hide Valid, Freed, Dep, ListSet;
      var n := |items| - 1;
      var next := items[n];
      LastLeft(items);
      PendingFacts(ListSet(items), held, next);
      CancelItem(next, ListSet(items), held);
      FreedIsNew(g, itemStatus, next, ListSet(items));
      assert g.jobs.Keys - itemStatus.Keys == (g.jobs.Keys - old(itemStatus).Keys) - {next};
      assert held - {next} == held;
      var more := NextSuccessors(next, ListSet(items[..n]) + Freed(g, itemStatus, next), held);
      JoinLists(items[..n], more);
      rest := items[..n] + more;
    }

    /** With somebody depending on every item, the lookup never fails. */
    method NextSuccessors(item: Item, ghost pending: set<Item>, ghost held: set<Item>) returns (r: seq<Item>)
      requires Valid(pending, held) && item in g.jobs
      requires forall j :: Dep(g, j, item) ==> j !in itemStatus
      ensures Distinct(r) && ListSet(r) == Freed(g, itemStatus, item)
      ensures r == NextInLine(g, scheduled, itemStatus, item)
    {
      hide NextInLine;
      var found := GetSuccessors(item);
      r := found.value;
    }

    /** `_kill_item` */
    method KillItem(item: Item, ghost held: set<Item>)
      requires Valid({}, held) && item in itemStatus && itemStatus[item] == Dispatched
      modifies this`scheduled, this`queued, this`running, this`killed, this`itemStatus
      ensures Valid({}, held) && queued == old(queued)
      ensures item in g.jobs && g.jobs[item].target < |old(running)|
      ensures running == old(running)[g.jobs[item].target := Remove(old(running)[g.jobs[item].target], item)]
      ensures item in old(running)[g.jobs[item].target]
      ensures item in itemStatus && itemStatus[item] == Killed
      ensures OnlyKilled(old(itemStatus)[item := Killed], itemStatus)
    {
      hide Valid, Freed, Dep, RemoveAt;
      RunningFacts(item, held);
      MarkKilled(item, held);
      CancelSuccessors(item, held);
    }

    method MarkKilled(item: Item, ghost held: set<Item>)
      requires Valid({}, held) && item in itemStatus && itemStatus[item] == Dispatched
      requires item in g.jobs && g.jobs[item].target < |running| && item in running[g.jobs[item].target]
      modifies this`running, this`killed, this`itemStatus
      ensures itemStatus == old(itemStatus)[item := Killed]
      ensures Valid(Freed(g, itemStatus, item), held)
      ensures forall j :: Dep(g, j, item) ==> j !in itemStatus
      ensures running == old(running)[g.jobs[item].target := Remove(old(running)[g.jobs[item].target], item)]
    {
      hide Layered, TablesOk, Sound, Launched, Reported, Freed, Dep, AtTarget;
      var t := g.jobs[item].target;
      ReportedKept(itemStatus, answers, item, Killed);
      FinishFacts(t, IndexOf(running[t], item), Killed, held);
      itemStatus := itemStatus[item := Killed];
      killed := killed[t := killed[t] + {item}];
      running := running[t := Remove(running[t], item)];
    }

    lemma RunningFacts(item: Item, held: set<Item>)
      requires Valid({}, held) && item in itemStatus && itemStatus[item] == Dispatched
      ensures item in g.jobs && g.jobs[item].target < |running| == g.targets
      ensures item in running[g.jobs[item].target]
    {
      hide HasDependency, HasDependant;
      assert Belongs(g, itemStatus, Dispatched, {}, g.jobs[item].target, item);
    }

    /** Moves a running item to the set its final answer names. */
    method FinishItem(target: nat, idx: nat, v: Status, ghost held: set<Item>)
      requires Valid({}, held) && Final(v) && target < |running| && idx < |running[target]|
      modifies this`running, this`passed, this`failed, this`killed, this`itemStatus, this`answers
      ensures var item := old(running)[target][idx];
        && itemStatus == old(itemStatus)[item := v] && answers == old(answers)[item := v]
        && item in old(itemStatus) && old(itemStatus)[item] == Dispatched
        && item in g.jobs && g.jobs[item].target == target < g.targets
        && Valid(Freed(g, itemStatus, item), held)
        && (forall j :: Dep(g, j, item) ==> j !in itemStatus)
      ensures running == Take(old(running), target, idx)
    {
      hide Layered, TablesOk, Sound, Launched, Reported, Freed, Dep, RemoveAt, AtTarget;
      FinishFacts(target, idx, v, held);
      var item := running[target][idx];
      ReportedAnswer(itemStatus, answers, item, v);
      answers := answers[item := v];
      if v == Passed {
        passed := passed[target := passed[target] + {item}];
      } else if v == Failed {
        failed := failed[target := failed[target] + {item}];
      } else {
        killed := killed[target := killed[target] + {item}];
      }
      running := running[target := RemoveAt(running[target], idx)];
      itemStatus := itemStatus[item := v];
    }

    lemma FinishFacts(target: nat, idx: nat, v: Status, held: set<Item>)
      requires Valid({}, held) && Final(v) && target < |running| && idx < |running[target]|
      ensures |running| == |passed| == |failed| == |killed| == g.targets
      ensures Belongs(g, itemStatus, Dispatched, {}, target, running[target][idx])
      ensures var i := running[target][idx]; var st := itemStatus[i := v];
        && TablesOk(g, FinishIn(AllTables(), target, i, v).(running := Take(running, target, idx)), st, held)
        && Sound(g, st, Freed(g, st, i)) && Launched(g, st, launches)
        && forall j :: Dep(g, j, i) ==> j !in st
    {
      hide HasDependency, HasDependant, TablesOk;
      var i := running[target][idx];
      FinishTables(g, AllTables(), itemStatus, held, target, idx, v);
      FinishSound(g, itemStatus, {}, i, v, launches);
      assert {} - {i} + Freed(g, itemStatus[i := v], i) == Freed(g, itemStatus[i := v], i);
    }

    // ----- polling ---------------------------------------------------------------------------

    /** A launcher's answer: still running, at most finitely often, or any final status. */
    method PollLauncher(item: Item) returns (v: Status)
      modifies this`polls, this`patience
      ensures v != Queued && polls == old(polls) + [Answer(item, v)] && Shrinks(old(patience), patience)
      ensures v == Dispatched ==> item in patience && item in old(patience) && patience[item] < old(patience)[item]
    {
      var busy: bool, good: bool, bad: bool := *, *, *;
      if busy && item in patience && patience[item] > 0 {
        patience := patience[item := patience[item] - 1];
        v := Dispatched;
      } else {
        v := if good then Passed else if bad then Failed else Killed;
      }
      polls := polls + [Answer(item, v)];
    }

    /** Polls the next running item of a target: a final answer becomes its status and frees the items
        that waited for it, any other answer changes nothing. */
    method PollOne(target: nat) returns (changed: bool)
      requires Valid({}, {}) && Logged(polls, answers) && target < |running| && running[target] != []
      modifies this`scheduled, this`queued, this`running, this`passed, this`failed, this`killed, this`itemStatus
      modifies this`lastItemPolled, this`polls, this`answers, this`patience
      ensures Valid({}, {}) && Logged(polls, answers)
      ensures Forward(old(itemStatus), itemStatus) && Shrinks(old(patience), patience)
      ensures Work(g.items, itemStatus, patience) < Work(g.items, old(itemStatus), old(patience))
      ensures |polls| == |old(polls)| + 1 && old(polls) <= polls
      ensures |old(lastItemPolled)| == g.targets
        && 0 <= NextIndex(old(lastItemPolled)[target], |old(running)[target]|) < |old(running)[target]|
      ensures var a, idx := polls[|old(polls)|], NextIndex(old(lastItemPolled)[target], |old(running)[target]|);
        && a.item == old(running)[target][idx]
        && lastItemPolled == old(lastItemPolled)[target := if Final(a.status) then idx - 1 else idx]
      ensures var a := polls[|old(polls)|];
        if Final(a.status) then OnlyQueued(old(itemStatus)[a.item := a.status], itemStatus)
        else itemStatus == old(itemStatus)
      ensures OtherTargetsSame(old(running), running, target) && TotalLength(running) >= TotalLength(old(running)) - 1
      ensures polls[|old(polls)|].item in old(itemStatus) && old(itemStatus)[polls[|old(polls)|].item] == Dispatched
      ensures polls[|old(polls)|].item in g.jobs && g.jobs[polls[|old(polls)|].item].target == target
      ensures NoneStarted(old(itemStatus), itemStatus)
      ensures old(answers).Keys <= answers.Keys && (changed <==> old(answers).Keys < answers.Keys)
      ensures old(Accounts()) ==> Accounts()
    {
      hide Valid, Logged, Forward, Shrinks, Work, Rank, TotalLength, OnlyQueued, NoneStarted;
      hide Accounted, Sound, Launched, Reported, NextInLine, AppendAll, QueueGrew;
      KnownFacts();
      var item, idx := NextRunning(target);
      var v := PollLauncher(item);
      LoggedNext(old(polls), answers, Answer(item, v));
      if v == Dispatched {
        KeptIsForward(itemStatus, itemStatus);
        StartsNone(itemStatus);
        WorkDrops(old(itemStatus), old(patience), item);
        return false;
      }
      Conclude(target, idx, v);
      FinishedForward(old(itemStatus), item, v, itemStatus);
      FinishedStartsNone(old(itemStatus), item, v, itemStatus);
      if old(Accounts()) {
        AnswerKept(g, old(itemStatus), itemStatus, launches, old(answers), broken, item, v);
      }
      WorkDrops(old(itemStatus), old(patience), item);
      return true;
    }

    /** Takes a final answer: files the item, steps the polling index back, queues what it freed. */
    method Conclude(target: nat, idx: nat, v: Status)
      requires Valid({}, {}) && Final(v) && target < |running| && idx < |running[target]|
      modifies this`scheduled, this`queued, this`running, this`passed, this`failed, this`killed, this`itemStatus
      modifies this`lastItemPolled, this`answers
      ensures Valid({}, {}) && answers == old(answers)[old(running)[target][idx] := v]
      ensures |lastItemPolled| == |old(lastItemPolled)| == g.targets && target < g.targets
      ensures lastItemPolled == old(lastItemPolled)[target := idx - 1]
      ensures OnlyQueued(old(itemStatus)[old(running)[target][idx] := v], itemStatus)
      ensures QueueGrew(old(queued), queued, target + 1)
      ensures var item := old(running)[target][idx];
        item in g.jobs && queued == AppendAll(old(queued), target + 1,
          NextInLine(g, old(scheduled), old(itemStatus)[item := v], item))
      ensures running == Take(old(running), target, idx) && TotalLength(running) == TotalLength(old(running)) - 1
    {
      hide Valid, Freed, Dep, RemoveAt, TotalLength, NextInLine, AppendAll;
      var item := running[target][idx];
      FinishItem(target, idx, v, {});
      TotalLengthUpdate(old(running), target, RemoveAt(old(running)[target], idx));
      ShorterByOne(old(running)[target], idx);
      var previous: int := idx;
      SetLastItem(target, previous - 1, Freed(g, itemStatus, item), {});
      EnqueueSuccessors(item, {});
    }

    method SetLastItem(target: nat, idx: int, ghost pending: set<Item>, ghost held: set<Item>)
      requires Valid(pending, held) && target < g.targets && idx >= -1
      modifies this`lastItemPolled
      ensures Valid(pending, held)
      ensures |lastItemPolled| == |old(lastItemPolled)| == g.targets
        && lastItemPolled == old(lastItemPolled)[target := idx]
    {
      hide Layered, TablesOk, Sound, Launched;
      lastItemPolled := lastItemPolled[target := idx];
    }

    method NextRunning(target: nat) returns (item: Item, idx: nat)
      requires Valid({}, {}) && target < |running| && running[target] != []
      modifies this`lastItemPolled
      ensures Valid({}, {}) && idx < |running[target]| && item == running[target][idx]
      ensures |lastItemPolled| == |old(lastItemPolled)| == g.targets
        && lastItemPolled == old(lastItemPolled)[target := idx]
      ensures idx == NextIndex(old(lastItemPolled)[target], |running[target]|)
      ensures item in g.items && item in itemStatus && itemStatus[item] == Dispatched && item !in answers
      ensures item in g.jobs && g.jobs[item].target == target
    {
      RunningAt(target);
      RunningTarget(target);
      var next := GetNextItem(running[target], lastItemPolled[target]);
      item, idx := next.value.0, next.value.1;
      hide Valid;
      SetLastItem(target, idx, {}, {});
    }

    lemma RunningAt(target: nat)
      requires Valid({}, {}) && target < |running|
      ensures target < |running| == |lastItemPolled| == g.targets && lastItemPolled[target] >= -1
      ensures forall i :: i in running[target] ==>
        i in g.items && i in itemStatus && itemStatus[i] == Dispatched && i !in answers
    {
      hide HasDependency, HasDependant;
      forall i | i in running[target]
        ensures i in g.items && i in itemStatus && itemStatus[i] == Dispatched && i !in answers
      {
        assert Belongs(g, itemStatus, Dispatched, {}, target, i);
      }
    }

    /** Work goes down when an item moved on or answered one of its remaining `D`s. */
    lemma WorkDrops(st: Statuses, p: map<Item, nat>, item: Item)
      requires Forward(st, itemStatus) && Shrinks(p, patience) && item in g.items
      requires Rank(itemStatus, item) < Rank(st, item) || (item in p && item in patience && patience[item] < p[item])
      ensures Work(g.items, itemStatus, patience) < Work(g.items, st, p)
    {
      WorkMonotone(g.items, st, p, itemStatus, patience);
    }

    method NextTarget() returns (target: nat)
      requires Valid({}, {})
      modifies this`lastTargetPolled
      ensures Valid({}, {}) && target < |running| == g.targets
      ensures target == lastTargetPolled == NextIndex(old(lastTargetPolled), g.targets)
      ensures forall w :: 0 <= w < |running| && w != target ==>
        Distance(w, lastTargetPolled, g.targets) < Distance(w, old(lastTargetPolled), g.targets)
    {
      hide Sound, Launched, Covered, AtTarget;
      QueueHeads();
      hide TablesOk;
      target := lastTargetPolled + 1;
      if target >= g.targets {
        target := 0;
      }
      lastTargetPolled := target;
    }

    /** Polls one target until it runs dry or the polls left are used up. */
    method PollTarget(target: nat, polling: nat) returns (changed: bool, left: nat)
      requires Valid({}, {}) && Logged(polls, answers) && target < |running| && polling <= TotalLength(running)
      modifies this`scheduled, this`queued, this`running, this`passed, this`failed, this`killed, this`itemStatus
      modifies this`lastItemPolled, this`polls, this`answers, this`patience
      ensures Valid({}, {}) && Logged(polls, answers)
      ensures Forward(old(itemStatus), itemStatus) && Shrinks(old(patience), patience)
      ensures left <= polling && left <= TotalLength(running) && OtherTargetsSame(old(running), running, target)
      ensures left == 0 || running[target] == []
      ensures polling > 0 && old(running)[target] != [] ==> PolledAt(g, polls, |old(polls)|, target)
      ensures |polls| == |old(polls)| + (polling - left) && old(polls) <= polls
      ensures left == polling ==> running == old(running) && itemStatus == old(itemStatus) && patience == old(patience)
      ensures PolledRunning(old(itemStatus), polls, |old(polls)|) && NoneStarted(old(itemStatus), itemStatus)
      ensures old(answers).Keys <= answers.Keys && (changed <==> old(answers).Keys < answers.Keys)
      ensures left < polling ==> Work(g.items, itemStatus, patience) < Work(g.items, old(itemStatus), old(patience))
      ensures old(Accounts()) ==> Accounts()
    {
      hide Valid, Logged, Forward, Shrinks, Work, TotalLength, NoneStarted, PolledRunning, PolledAt, Accounts;
      StartsNone(itemStatus);
      PolledNobody(itemStatus, polls);
      left, changed := polling, false;
      KeptIsForward(itemStatus, itemStatus);
      ShrinksSelf(patience);
      while running[target] != [] && left > 0
        invariant Valid({}, {}) && Logged(polls, answers)
        invariant Forward(old(itemStatus), itemStatus) && Shrinks(old(patience), patience)
        invariant left <= polling && left <= TotalLength(running) && OtherTargetsSame(old(running), running, target)
        invariant left < polling ==> PolledAt(g, polls, |old(polls)|, target)
        invariant old(Accounts()) ==> Accounts()
        invariant |polls| == |old(polls)| + (polling - left) && old(polls) <= polls
        invariant PolledRunning(old(itemStatus), polls, |old(polls)|) && NoneStarted(old(itemStatus), itemStatus)
        invariant old(answers).Keys <= answers.Keys && (changed <==> old(answers).Keys < answers.Keys)
        invariant left == polling ==>
          running == old(running) && itemStatus == old(itemStatus) && patience == old(patience)
        invariant left < polling ==> Work(g.items, itemStatus, patience) < Work(g.items, old(itemStatus), old(patience))
        decreases left
      {
        ghost var st, p, asked := itemStatus, patience, polls;
        var moved := PollOne(target);
        PolledOne(st, polls, |asked|);
        PolledAtNow(g, polls, |old(polls)|, target);
        PolledMore(old(itemStatus), st, itemStatus, |old(polls)|, asked, polls);
        left := left - 1;
        changed := changed || moved;
        ForwardTransitive(old(itemStatus), st, itemStatus);
        ShrinksTransitive(old(patience), p, patience);
      }
    }

    /** `_poll`: exactly as many polls as asked for or as there are running items, whichever is less;
        something changed exactly when a job gave a final answer, or nothing is running. */
    method Poll() returns (changed: bool)
      requires Valid({}, {}) && Logged(polls, answers)
      modifies this`scheduled, this`queued, this`running, this`passed, this`failed, this`killed, this`itemStatus
      modifies this`lastTargetPolled, this`lastItemPolled, this`polls, this`answers, this`patience
      ensures Valid({}, {}) && Logged(polls, answers) && old(polls) <= polls
      ensures Forward(old(itemStatus), itemStatus) && Shrinks(old(patience), patience)
      ensures |polls| == |old(polls)| + Min(maxPoll, TotalLength(old(running)))
      ensures |polls| == |old(polls)| ==>
        changed && running == old(running) && queued == old(queued) && itemStatus == old(itemStatus)
          && patience == old(patience)
      ensures PolledRunning(old(itemStatus), polls, |old(polls)|)
      ensures |polls| > |old(polls)| ==> (changed <==> old(answers).Keys < answers.Keys)
      ensures maxPoll >= 1 ==>
        Nearer(g, old(running), old(lastTargetPolled), running, lastTargetPolled, polls, |old(polls)|)
      ensures |polls| > |old(polls)| ==>
        Work(g.items, itemStatus, patience) < Work(g.items, old(itemStatus), old(patience))
      ensures old(Accounts()) ==> Accounts()
    {
      hide Accounts;
      hide Valid, Logged, Forward, Shrinks, Work, TotalLength, NoneStarted, PolledRunning, Nearer, PolledAt;
      hide OtherTargetsSame, Distance;
      StartsNone(itemStatus);
      PolledNobody(itemStatus, polls);
      KeptIsForward(itemStatus, itemStatus);
      ShrinksSelf(patience);
      var polling := Min(maxPoll, TotalLength(running));
      if polling == 0 {
        NobodyRunning(g, running, lastTargetPolled, polls);
        return true;
      }
      changed := false;
      var left: nat := polling;
      ghost var w: nat;
      w := TotalLengthPositive(running);
      ghost var began := false;
      while left > 0
        invariant Valid({}, {}) && Logged(polls, answers)
        invariant Forward(old(itemStatus), itemStatus) && Shrinks(old(patience), patience)
        invariant left <= polling && left <= TotalLength(running)
        invariant |polls| == |old(polls)| + (polling - left) && old(polls) <= polls
        invariant PolledRunning(old(itemStatus), polls, |old(polls)|) && NoneStarted(old(itemStatus), itemStatus)
        invariant old(answers).Keys <= answers.Keys && (changed <==> old(answers).Keys < answers.Keys)
        invariant left == polling ==> itemStatus == old(itemStatus) && patience == old(patience)
        invariant left < polling ==> Work(g.items, itemStatus, patience) < Work(g.items, old(itemStatus), old(patience))
        invariant left > 0 ==> w < |running| && running[w] != []
        invariant old(Accounts()) ==> Accounts()
        invariant if began
          then Nearer(g, old(running), old(lastTargetPolled), running, lastTargetPolled, polls, |old(polls)|)
          else running == old(running) && lastTargetPolled == old(lastTargetPolled) && left == polling
        decreases left, Distance(w, lastTargetPolled, g.targets)
      {
        ghost var st, p, asked, before, was, last := itemStatus, patience, polls, left, running, lastTargetPolled;
        var target := NextTarget();
        var moved;
        moved, left := PollTarget(target, left);
        NearerNext(g, old(running), old(lastTargetPolled), was, last, running, lastTargetPolled, asked, polls,
          |old(polls)|, began);
        began := true;
        PolledMore(old(itemStatus), st, itemStatus, |old(polls)|, asked, polls);
        changed := changed || moved;
        ForwardTransitive(old(itemStatus), st, itemStatus);
        ShrinksTransitive(old(patience), p, patience);
        if 0 < left < before {
          w := TotalLengthPositive(running);
        }
      }
    }

    // ----- dispatching -----------------------------------------------------------------------

    lemma QueuedFacts(held: set<Item>, target: nat)
      requires Valid({}, held) && target < |queued|
      ensures |queued| == |running| == g.targets
      ensures forall i :: i in queued[target] ==>
        i in g.items && i in g.jobs && g.jobs[i].target == target && g.jobs[i].weight >= 1
      ensures forall i :: i in queued[target] ==>
        i in itemStatus && itemStatus[i] == Queued && i !in held && Ready(g, itemStatus, i)
    {
      hide HasDependency, HasDependant;
      forall i | i in queued[target]
        ensures i in g.items && i in g.jobs && g.jobs[i].target == target && i in itemStatus
          && itemStatus[i] == Queued && i !in held
      {
        assert Belongs(g, itemStatus, Queued, held, target, i);
      }
    }

    lemma HeldFacts(held: set<Item>, item: Item)
      requires Valid({}, held) && item in held
      ensures |running| == g.targets && item in g.items && item in g.jobs && g.jobs[item].target < g.targets
      ensures item in itemStatus && itemStatus[item] == Queued && Ready(g, itemStatus, item)
      ensures item !in running[g.jobs[item].target]
    {
      hide HasDependency, HasDependant;
      assert !Belongs(g, itemStatus, Dispatched, {}, g.jobs[item].target, item);
    }

    /** Takes the head off a queue; `Valid` then counts it as held. */
    method PopQueue(target: nat, ghost held: set<Item>) returns (item: Item)
      requires Valid({}, held) && target < |queued| && queued[target] != []
      modifies this`queued
      ensures item == old(queued)[target][0] && queued == old(queued)[target := old(queued)[target][1..]]
      ensures Valid({}, held + {item})
    {
      hide Layered, Sound, Launched;
      HoldTables(g, AllTables(), itemStatus, held, target);
      hide TablesOk;
      item := queued[target][0];
      queued := queued[target := queued[target][1..]];
    }

    /** Takes the head off a queue; an item that may not run is killed and its successors queued. */
    method TakeNext(target: nat, ghost held: set<Item>) returns (item: Item, ok: bool)
      requires Valid({}, held) && target < |queued| && queued[target] != []
      modifies this`scheduled, this`queued, this`killed, this`itemStatus
      ensures item == old(queued)[target][0] && item in g.jobs && item !in held
      ensures ok <==> MayRun(g, old(itemStatus), item)
      ensures Valid({}, if ok then held + {item} else held)
      ensures ok ==> itemStatus == old(itemStatus) && queued == old(queued)[target := old(queued)[target][1..]]
      ensures !ok ==> QueueGrew(old(queued)[target := old(queued)[target][1..]], queued, target + 1)
      ensures Forward(old(itemStatus), itemStatus)
      ensures !ok ==> Rank(itemStatus, item) < Rank(old(itemStatus), item)
      ensures !ok ==> OnlyQueued(old(itemStatus)[item := Killed], itemStatus)
      ensures item in old(itemStatus) && old(itemStatus)[item] == Queued
    {
      hide Valid, Freed, Dep, Ready, MayRun, Forward, Rank;
      QueuedFacts(held, target);
      item := PopQueue(target, held);
      ok := OkToRun(item);
      KeptIsForward(itemStatus, itemStatus);
      if !ok {
        CancelHeld(item, held);
        EnqueueSuccessors(item, held);
        CancelledForward(old(itemStatus), item, itemStatus);
      }
    }

    method CancelHeld(item: Item, ghost held: set<Item>)
      requires Valid({}, held + {item}) && item !in held && item in g.jobs && item in itemStatus
        && itemStatus[item] == Queued
      modifies this`scheduled, this`queued, this`killed, this`itemStatus
      ensures itemStatus == old(itemStatus)[item := Killed] && queued == old(queued)
      ensures Valid(Freed(g, itemStatus, item), held)
      ensures forall j :: Dep(g, j, item) ==> j !in itemStatus
    {
      hide Valid, Freed, Dep;
      CancelItem(item, {}, held + {item});
      assert {} - {item} + Freed(g, itemStatus, item) == Freed(g, itemStatus, item);
      assert held + {item} - {item} == held;
    }

    /** Up to `slots` items of a target that may run, in queue order. */
    method TakeRunnable(target: nat, slots: nat) returns (toDispatch: seq<Item>)
      requires Valid({}, {}) && target < |queued| && queued[target] != [] && slots > 0
      modifies this`scheduled, this`queued, this`killed, this`itemStatus
      ensures Valid({}, ListSet(toDispatch)) && Distinct(toDispatch) && |toDispatch| <= slots
      ensures AllMayRun(g, itemStatus, toDispatch)
      ensures Serving(g, old(itemStatus), itemStatus, old(queued), queued, target, slots, toDispatch)
      ensures queued[target] == [] || |toDispatch| == slots
      ensures |queued[target]| < |old(queued)[target]|
    {
      toDispatch := [];
      EmptyListSet(toDispatch);
      QueuedFacts({}, target);
      hide Valid, AllMayRun, ListSet, Distinct, MayRun, Ready, Serving, OnlyQueued, QueueGrew, Forward;
      ServingStart(g, itemStatus, queued, target, slots);
      while queued[target] != [] && |toDispatch| < slots
        invariant Valid({}, ListSet(toDispatch)) && Distinct(toDispatch) && |toDispatch| <= slots
        invariant AllMayRun(g, itemStatus, toDispatch)
        invariant |queued| == |old(queued)|
        invariant Serving(g, old(itemStatus), itemStatus, old(queued), queued, target, slots, toDispatch)
        invariant if toDispatch == [] && queued == old(queued) then true else |queued[target]| < |old(queued)[target]|
        decreases |queued[target]|
      {
        ghost var st, q, taken := itemStatus, queued, toDispatch;
        HeldReady(ListSet(toDispatch));
        var next, ok := TakeNext(target, ListSet(toDispatch));
        StillRunnable(toDispatch, st, itemStatus);
        ServingNext(g, old(itemStatus), st, itemStatus, old(queued), q, queued, target, slots, taken, ok);
        if ok {
          Snoc(toDispatch, next);
          RunnableSnoc(toDispatch, next);
          toDispatch := toDispatch + [next];
        }
      }
    }

    lemma QueuesHeld(held: set<Item>)
      requires Valid({}, held)
      ensures Sound(g, itemStatus, {}) && ListsOk(g, queued, itemStatus, Queued, held)
    {}

    lemma RunnableSnoc(l: seq<Item>, i: Item)
      requires AllMayRun(g, itemStatus, l) && i in g.jobs && MayRun(g, itemStatus, i)
      ensures AllMayRun(g, itemStatus, l + [i])
    {}

    lemma HeldReady(held: set<Item>)
      requires Valid({}, held)
      ensures forall i :: i in held ==> i in g.jobs && Ready(g, itemStatus, i)
    {
      hide Layered;
    }

    lemma StillRunnable(items: seq<Item>, st: Statuses, st': Statuses)
      requires forall i :: i in ListSet(items) ==> i in g.jobs && Ready(g, st, i)
      requires Forward(st, st') && AllMayRun(g, st, items)
      ensures AllMayRun(g, st', items)
    {
      forall i | i in items ensures i in g.jobs && MayRun(g, st', i) {
        assert i in ListSet(items);
        ForwardMayRun(g, st, st', i);
      }
    }

    /** Appends a held item to the running list and launches it. */
    method StartItem(item: Item, ghost held: set<Item>)
      requires Valid({}, held) && item in held && item in g.jobs && MayRun(g, itemStatus, item)
      modifies this`running, this`itemStatus, this`launches
      ensures Valid({}, held - {item}) && itemStatus == old(itemStatus)[item := Dispatched]
      ensures launches == old(launches) + [item]
      ensures |old(running)| == g.targets && g.jobs[item].target < g.targets
      ensures running == Append(old(running), g.jobs[item].target, item)
    {
      hide Layered, TablesOk, Sound, Launched, Reported, AtTarget, MayRun;
      HeldFacts(held, item);
      ReportedKept(itemStatus, answers, item, Dispatched);
      StartTables(g, AllTables(), itemStatus, held, item);
      LaunchSound(g, itemStatus, {}, item, launches);
      var t := g.jobs[item].target;
      running := running[t := running[t] + [item]];
      itemStatus := itemStatus[item := Dispatched];
      launches := launches + [item];
    }

    /** Launches a held item; a launch that fails kills it and everything after it. */
    method LaunchItem(item: Item, ghost held: set<Item>)
      requires Valid({}, held) && item in held && item in g.jobs && MayRun(g, itemStatus, item)
      modifies this`scheduled, this`queued, this`running, this`killed, this`itemStatus, this`launches
      ensures Valid({}, held - {item}) && queued == old(queued)
      ensures launches == old(launches) + [item]
      ensures Forward(old(itemStatus), itemStatus) && Rank(itemStatus, item) < Rank(old(itemStatus), item)
      ensures |old(running)| == g.targets && g.jobs[item].target < g.targets
      ensures running == if item in broken then old(running) else Append(old(running), g.jobs[item].target, item)
      ensures item in old(itemStatus) && old(itemStatus)[item] == Queued
      ensures OnlyKilled(old(itemStatus)[item := if item in broken then Killed else Dispatched], itemStatus)
    {
      hide Valid, Dep, MayRun, Forward, Rank, Remove;
      HeldFacts(held, item);
      StartItem(item, held);
      var t := g.jobs[item].target;
      ghost var started := itemStatus;
      KeptIsForward(started, started);
      StartedForward(old(itemStatus), item, started, started);
      if item in broken {
        KillItem(item, held - {item});
        RemoveLast(old(running)[t], item);
        KilledForward(started, item, itemStatus);
        StartedForward(old(itemStatus), item, started, itemStatus);
      }
    }

    method LaunchAll(toDispatch: seq<Item>)
      requires Valid({}, ListSet(toDispatch)) && Distinct(toDispatch) && AllMayRun(g, itemStatus, toDispatch)
      modifies this`scheduled, this`queued, this`running, this`killed, this`itemStatus, this`launches
      ensures Valid({}, {}) && queued == old(queued) && Forward(old(itemStatus), itemStatus)
      ensures launches == old(launches) + toDispatch
      ensures forall i :: i in toDispatch ==> Rank(itemStatus, i) < Rank(old(itemStatus), i)
      ensures RunningGrew(old(running), running, toDispatch, broken)
      ensures LaunchedAll(g, old(itemStatus), itemStatus, toDispatch, broken)
    {
      hide RunningGrew, Append, Valid, Forward, AllMayRun, ListSet, Rank, TotalLength, Dep, MayRun, Ready;
      hide Distinct, LaunchedAll;
      hide OnlyKilled, Sound, ListsOk;
      KeptIsForward(itemStatus, itemStatus);
      assert toDispatch[0..] == toDispatch && toDispatch[..0] == [];
      QueuesHeld(ListSet(toDispatch));
      LaunchedNone(g, itemStatus, broken);
      NoneGrew(running, broken);
      for a := 0 to |toDispatch|
        invariant Valid({}, ListSet(toDispatch[a..])) && AllMayRun(g, itemStatus, toDispatch[a..])
        invariant queued == old(queued) && Forward(old(itemStatus), itemStatus)
        invariant launches == old(launches) + toDispatch[..a]
        invariant forall b :: 0 <= b < a ==> Rank(itemStatus, toDispatch[b]) < Rank(old(itemStatus), toDispatch[b])
        invariant RunningGrew(old(running), running, toDispatch[..a], broken)
        invariant LaunchedAll(g, old(itemStatus), itemStatus, toDispatch[..a], broken)
      {
        ghost var st, left, lists := itemStatus, ListSet(toDispatch[a..]), running;
        NextLeft(toDispatch, a);
        RunnableHead(toDispatch, a);
        HeldReady(left);
        LaunchItem(toDispatch[a], left);
        ForwardTransitive(old(itemStatus), st, itemStatus);
        RanksStay(old(itemStatus), st, itemStatus, toDispatch, a);
        StillRunnableRest(toDispatch, a, st, itemStatus);
        assert toDispatch[..a + 1] == toDispatch[..a] + [toDispatch[a]];
        QueuesHeld(ListSet(toDispatch[a + 1..]));
        LaunchedMore(g, old(itemStatus), st, itemStatus, toDispatch, a, broken);
        GrewByOne(old(running), lists, running, g.jobs[toDispatch[a]].target, toDispatch, a, broken);
      }
      EmptyListSet(toDispatch[|toDispatch|..]);
      assert toDispatch[..|toDispatch|] == toDispatch;
    }

    lemma RunnableHead(l: seq<Item>, a: nat)
      requires a < |l| && AllMayRun(g, itemStatus, l[a..])
      ensures l[a] in g.jobs && MayRun(g, itemStatus, l[a])
    {
      assert l[a] == l[a..][0];
    }

    lemma StillRunnableRest(l: seq<Item>, a: nat, st: Statuses, st': Statuses)
      requires a < |l| && AllMayRun(g, st, l[a..]) && Forward(st, st')
      requires forall i :: i in ListSet(l[a..]) ==> i in g.jobs && Ready(g, st, i)
      ensures AllMayRun(g, st', l[a + 1..])
    {
      StillRunnable(l[a..], st, st');
      assert l[a..] == [l[a]] + l[a + 1..];
    }

    /** Serves one queue with its share of the slots. */
    method DispatchTarget(target: nat, slots: nat) returns (ghost mid: Statuses)
      requires Valid({}, {}) && target < |queued| && queued[target] != [] && slots > 0
      modifies this`scheduled, this`queued, this`running, this`killed, this`itemStatus, this`launches
      ensures Valid({}, {}) && Forward(old(itemStatus), itemStatus) && old(launches) <= launches
      ensures Progress(g, old(itemStatus), itemStatus)
      ensures |queued| == |old(queued)| && |queued[target]| <= |old(queued)[target]|
      ensures QueueServed(old(queued), queued, target)
      ensures ServedInOrder(g, old(itemStatus), old(queued)[target], queued[target], launches[|old(launches)|..])
      ensures AllMayRun(g, old(itemStatus), old(queued)[target]) ==> QueueServedOnly(old(queued), queued, target)
      ensures Served(g, old(itemStatus), old(queued)[target], |old(queued)[target]| - |queued[target]|, slots)
      ensures var more := launches[|old(launches)|..];
        |more| <= slots && RunningGrew(old(running), running, more, broken)
      ensures Culled(g, target, old(itemStatus), mid, old(queued)[target][..|old(queued)[target]| - |queued[target]|])
      ensures LaunchedAll(g, mid, itemStatus, launches[|old(launches)|..], broken)
    {
      hide Valid, Forward, AllMayRun, ListSet, Rank, TotalLength, QueueServed, QueueServedOnly, Dep, Ready, Distinct;
      hide LaunchedAll, RunningGrew, Serving, Served, Culled, ServedInOrder, Moved, Sound, ListsOk, Layers;
      QueuesListed();
      ghost var head := queued[target][0];
      QueuedFacts({}, target);
      var toDispatch := TakeRunnable(target, slots);
      mid := itemStatus;
      ServingEnds(g, old(itemStatus), mid, old(queued), queued, target, slots, toDispatch);
      QueuesHeld(ListSet(toDispatch));
      ServingCulls(g, old(itemStatus), mid, old(queued), queued, target, slots, toDispatch);
      LaunchAll(toDispatch);
      ForwardTransitive(old(itemStatus), mid, itemStatus);
      MovedOn(old(itemStatus), mid, itemStatus, toDispatch, head);
    }

    lemma QueueHeads()
      requires Valid({}, {})
      ensures |queued| == |running| == g.targets && HeadsKnown(g, queued)
    {
      hide HasDependency, HasDependant, Sound, Launched, ScheduleOk, SetsOk;
      forall u | 0 <= u < |queued| && queued[u] != [] ensures queued[u][0] in g.jobs {
        assert Belongs(g, itemStatus, Queued, {}, u, queued[u][0]);
      }
    }

    lemma QueuesReady()
      requires Valid({}, {})
      ensures forall t, i :: 0 <= t < |queued| && i in queued[t] ==> i in g.jobs && Ready(g, itemStatus, i)
    {
      hide Layered, Launched, ScheduleOk, SetsOk;
      forall t, i | 0 <= t < |queued| && i in queued[t] ensures i in g.jobs && Ready(g, itemStatus, i) {
        assert Belongs(g, itemStatus, Queued, {}, t, i);
      }
    }

    /** What holds at the turn of `target` in a dispatch pass that started from s, with the launches and the
        running items that it found: p are the turns so far, sumWeight the weights found in them and filled
        the slots handed out. */
    ghost predicate Dispatching(s: Start, launched: seq<Item>, lists: seq<seq<Item>>, target: nat, sumWeight: nat,
                                filled: nat, p: Pass)
      reads this`scheduled, this`queued, this`running, this`passed, this`failed, this`killed
      reads this`itemStatus, this`lastTargetPolled, this`lastItemPolled, this`launches, this`answers
    {
      && Valid({}, {}) && Forward(s.st, itemStatus) && launched <= launches
      && s.g == g && s.broken == broken && HeadsKnown(g, s.queued) && Starts(s)
      && Untouched(s.queued, queued, target) && target <= |queued|
      && Weighed(g, s.queued, p, target, sumWeight)
      && Allotted(s, queued, sumWeight, filled)
      && (filled > 0 ==> Progress(g, s.st, itemStatus))
      && (AllQueuedMayRun(g, s.st, s.queued) ==> CalmSoFar(s, itemStatus, queued, target, sumWeight))
      && Leftover(p, queued)
      && var more := launches[|launched|..];
        && |more| <= filled && RunningGrew(lists, running, more, broken)
        && Follows(s, p, itemStatus, more)
    }

    /** Serves one queue with its share of the slots, if it has any. */
    method ServeTurn(target: nat, share: nat) returns (ghost mid: Statuses)
      requires Valid({}, {}) && target < |queued|
      modifies this`scheduled, this`queued, this`running, this`killed, this`itemStatus, this`launches
      ensures Valid({}, {}) && Forward(old(itemStatus), itemStatus) && old(launches) <= launches
      ensures share > 0 && old(queued)[target] != [] ==> Progress(g, old(itemStatus), itemStatus)
      ensures |queued| == |old(queued)| && |queued[target]| <= |old(queued)[target]|
      ensures old(queued)[target] == [] ==> queued == old(queued) && launches == old(launches)
      ensures QueueServed(old(queued), queued, target)
      ensures ServedInOrder(g, old(itemStatus), old(queued)[target], queued[target], launches[|old(launches)|..])
      ensures AllMayRun(g, old(itemStatus), old(queued)[target]) ==> QueueServedOnly(old(queued), queued, target)
      ensures old(queued)[target] != [] ==>
        Served(g, old(itemStatus), old(queued)[target], |old(queued)[target]| - |queued[target]|, share)
      ensures var more := launches[|old(launches)|..];
        |more| <= share && RunningGrew(old(running), running, more, broken)
      ensures Culled(g, target, old(itemStatus), mid, old(queued)[target][..|old(queued)[target]| - |queued[target]|])
      ensures LaunchedAll(g, mid, itemStatus, launches[|old(launches)|..], broken)
    {
      hide Valid, Forward, AllMayRun, TotalLength, QueueServed, QueueServedOnly, Served, ServedInOrder, Progress;
      hide Culled, LaunchedAll, Sound, ListsOk, RunningGrew;
      if queued[target] == [] || share <= 0 {
        KeptIsForward(itemStatus, itemStatus);
        ServedNone(queued, target);
        QueuesHeld({});
        NotServed(g, target, itemStatus, queued[target], share, broken);
        assert launches[|launches|..] == [];
        NoneGrew(running, broken);
        mid := itemStatus;
        return;
      }
      mid := DispatchTarget(target, share);
    }

    /** One turn: the share of a queue is that of all weights up to its own, less what was handed out. */
    method TakeTurn(target: nat, totalWeight: nat, sumWeight: nat, filled: nat, slots: nat, ghost s: Start,
                    ghost launched: seq<Item>, ghost lists: seq<seq<Item>>, ghost p: Pass)
      returns (sum: nat, full: nat, ghost p': Pass)
      requires Dispatching(s, launched, lists, target, sumWeight, filled, p) && target < |queued| && slots == s.slots
      requires totalWeight == TotalHeadWeight(g, s.queued)
      modifies this`scheduled, this`queued, this`running, this`killed, this`itemStatus, this`launches
      ensures |queued| == |old(queued)| && Dispatching(s, launched, lists, target + 1, sum, full, p')
    {
      hide Valid, Forward, TotalLength, Progress, Share, Follows, Untouched, ListsOk, QueueServed, Allotted, Weighed;
      hide QueueServedOnly, AllQueuedMayRun, CalmSoFar, Served, ServedInOrder, HeadsKnown, Leftover, Starts;
      hide AllMayRun, HeadWeight, Culled, LaunchedAll;
      hide RunningGrew, Sound, Layers, Ready, TotalHeadWeight, ShareOf;
      QueueHeads();
      QueuesReady();
      QueuesListed();
      KnownHead(g, queued, target);
      ghost var q, st, more, was := queued, itemStatus, launches[|launched|..], running;
      sum := sumWeight + if queued[target] == [] then 0 else g.jobs[queued[target][0]].weight;
      var share := 0;
      TurnWeighs(s, p, q, target, sumWeight, sum, filled);
      if queued[target] != [] {
        share := Share(slots, sum, totalWeight) - filled;
      }
      full := filled + share;
      ghost var mid := ServeTurn(target, share);
      ghost var n := |q[target]| - |queued[target]|;
      ghost var taken := launches[|old(launches)|..];
      p' := Extend(p, q[target], n);
      ForwardTransitive(s.st, st, itemStatus);
      TurnServed(s, p, st, itemStatus, q, queued, target, sumWeight, sum, filled, full, n);
      LeftoverNext(g, st, p, q, queued, target, taken);
      if share > 0 { ProgressLater(g, s.st, st, itemStatus); }
      if filled > 0 { ProgressEarlier(g, s.st, st, itemStatus); }
      assert launches[|launched|..] == more + taken;
      GrewTwice(lists, was, running, more, taken, broken);
      TurnFollows(s, p, st, mid, itemStatus, q, queued, target, share, more, taken);
    }

    lemma QueuesListed()
      requires Valid({}, {})
      ensures Layers(g) && Sound(g, itemStatus, {}) && ListsOk(g, queued, itemStatus, Queued, {})
    {}

    /** The loop over the targets, handing out the free slots by the running sum of weights. */
    method DispatchSlots(slots: nat) returns (ghost allotted: nat, ghost pass: Pass)
      requires Valid({}, {}) && slots > 0
      modifies this`scheduled, this`queued, this`running, this`killed, this`itemStatus, this`launches
      ensures Valid({}, {}) && Forward(old(itemStatus), itemStatus) && old(launches) <= launches
      ensures Handed(g, old(queued), slots, pass.queues, allotted)
      ensures allotted > 0 ==> Progress(g, old(itemStatus), itemStatus)
      ensures AllQueuedMayRun(g, old(itemStatus), old(queued)) ==>
        LateWeight(g, old(queued), pass.queues) == 0
      ensures var more := launches[|old(launches)|..];
        |more| <= allotted && RunningGrew(old(running), running, more, broken)
      ensures PassDone(Start(g, old(itemStatus), old(queued), slots, broken), old(launches), pass)
    {
      ghost var s, launched, lists := Start(g, itemStatus, queued, slots, broken), launches, running;
      hide RunningGrew, Valid, Forward, Dispatching, HeadWeight, HeadsKnown, PassDone;
      QueueHeads();
      PassStarts(s);
      var totalWeight := HeadWeight(g, queued, |queued|);
      var sumWeight: nat, filled: nat := 0, 0;
      pass := Pass([], []);
      for target := 0 to |queued|
        invariant |queued| == |old(queued)|
        invariant Dispatching(s, launched, lists, target, sumWeight, filled, pass)
      {
        sumWeight, filled, pass :=
          TakeTurn(target, totalWeight, sumWeight, filled, slots, s, launched, lists, pass);
      }
      allotted := filled;
      PassEnds(s, launched, lists, sumWeight, filled, pass);
    }

    /** A dispatch pass that started from s is over: p are its turns, what it took was launched, and what it
        left is still queued. */
    ghost predicate PassDone(s: Start, launched: seq<Item>, p: Pass)
      reads this`queued, this`itemStatus, this`launches
    {
      && Starts(s) && Complete(s, p) && InPass(s, p, itemStatus) && Leftover(p, queued)
      && launches == launched + AllTaken(s.g, s.st, p)
    }

    lemma PassStarts(s: Start)
      requires Valid({}, {}) && s == Start(g, itemStatus, queued, s.slots, broken)
      ensures Dispatching(s, launches, running, 0, 0, 0, Pass([], []))
    {
      hide Valid, Forward, RunningGrew, Share, Follows, ListsOk, HeadsKnown, Layers, Sound;
      QueueHeads();
      QueuesListed();
      KeptIsForward(itemStatus, itemStatus);
      assert launches[|launches|..] == [];
      NoneGrew(running, broken);
      FollowsStart(s);
      StartsWeighed(s);
    }

    lemma PassEnds(s: Start, launched: seq<Item>, lists: seq<seq<Item>>, sumWeight: nat, filled: nat, p: Pass)
      requires Dispatching(s, launched, lists, |queued|, sumWeight, filled, p) && |queued| == |s.queued|
      ensures Valid({}, {}) && Forward(s.st, itemStatus) && launched <= launches
      ensures Handed(g, s.queued, s.slots, p.queues, filled)
      ensures filled > 0 ==> Progress(g, s.st, itemStatus)
      ensures AllQueuedMayRun(g, s.st, s.queued) ==> LateWeight(g, s.queued, p.queues) == 0
      ensures var more := launches[|launched|..];
        |more| <= filled && RunningGrew(lists, running, more, broken)
      ensures PassDone(s, launched, p)
    {
      hide Valid, Forward, RunningGrew, Progress, Share, IsPass, InPass, Starts, AllQueuedMayRun, StillCalm;
      hide AllTaken, HeadsKnown, HeadWeight, Leftover;
      WeighedAll(s, p, queued, sumWeight, filled);
    }

    /** `_dispatch`. `allotted` is the sum of the shares handed out, `pass` the queues as the turns of their
        targets found them. */
    method Dispatch() returns (ghost allotted: nat, ghost pass: Pass)
      requires Valid({}, {})
      modifies this`scheduled, this`queued, this`running, this`killed, this`itemStatus, this`launches
      ensures Valid({}, {}) && Forward(old(itemStatus), itemStatus) && old(launches) <= launches
      ensures |launches| - |old(launches)| <= allotted
      ensures RunningGrew(old(running), running, launches[|old(launches)|..], broken)
      ensures var used, W := TotalLength(old(running)), TotalHeadWeight(g, old(queued));
        allotted == if used >= maxParallel || W == 0 then 0
                    else Share(maxParallel - used, W + LateWeight(g, old(queued), pass.queues), W)
      ensures var used, W := TotalLength(old(running)), TotalHeadWeight(g, old(queued));
        used < maxParallel && W >= 1 ==>
          IsShare(maxParallel - used, W + LateWeight(g, old(queued), pass.queues), W, allotted)
      ensures TotalLength(old(running)) < maxParallel && TotalHeadWeight(g, old(queued)) >= 1 ==>
        Progress(g, old(itemStatus), itemStatus)
      ensures TotalLength(old(running)) < maxParallel && LateWeight(g, old(queued), pass.queues) == 0 ==>
        TotalLength(running) <= maxParallel
      ensures TotalLength(old(running)) < maxParallel && AllQueuedMayRun(g, old(itemStatus), old(queued)) ==>
        LateWeight(g, old(queued), pass.queues) == 0
      ensures TotalLength(old(running)) < maxParallel ==>
        var s := Start(g, old(itemStatus), old(queued), maxParallel - TotalLength(old(running)), broken);
        && PassDone(s, old(launches), pass)
        && |launches| == |old(launches)| + Size(s, pass)
        && (Calm(s) ==> TotalLength(running) <= maxParallel)
        && (Unbroken(launches[|old(launches)|..], broken) ==>
              (TotalLength(running) > maxParallel <==> Size(s, pass) > s.slots))
      ensures old(Accounts()) ==> Accounts()
    {
      hide Valid, Forward, AllQueuedMayRun, TotalLength, Progress, Share, Calm, LateWeight, Working;
      hide Unbroken, Handed, IsPass, InPass, Roomy, HeadsKnown, Leftover, Size;
      hide AllTaken, Starts, TotalHeadWeight, Accounted, Sound, Launched, Reported, IsShare;
      KnownFacts();
      allotted, pass := 0, Pass([], []);
      KeptIsForward(itemStatus, itemStatus);
      assert launches[|launches|..] == [];
      NoneGrew(running, broken);
      var used := TotalLength(running);
      if used >= maxParallel {
        return;
      }
      ghost var s := Start(g, itemStatus, queued, maxParallel - used, broken);
      allotted, pass := DispatchSlots(maxParallel - used);
      ghost var more := launches[|old(launches)|..];
      assert more == AllTaken(g, s.st, pass);
      WorkingAll(more, broken);
      HandedSlots(g, s.queued, s.slots, pass.queues, allotted);
      LateExact(s, pass);
      AllTakenCount(s, pass);
      if old(Accounts()) {
        DispatchAccounted(s, old(launches), pass);
      }
    }

    lemma DispatchAccounted(s: Start, launched: seq<Item>, p: Pass)
      requires Valid({}, {}) && PassDone(s, launched, p) && Forward(s.st, itemStatus) && s.g == g && s.broken == broken
      requires Launched(g, s.st, launched) && Reported(s.st, answers) && Accounted(g, s.st, launched, answers, broken)
      ensures Accounts()
    {
      hide Accounted, Sound, Launched, Reported, Popped, Gone, Starts, IsPass, InPass, Leftover, AllTaken, Forward;
      KnownFacts();
      hide Valid;
      PassShape(s, p);
      PassAccounted(s, p, itemStatus, launched, answers);
    }

    // ----- killing ---------------------------------------------------------------------------

    /** `_cancel_item` with its successors, for the item at the head of a queue. */
    method CancelHead(target: nat)
      requires Valid({}, {}) && target < |queued| && queued[target] != []
      modifies this`scheduled, this`queued, this`killed, this`itemStatus
      ensures Valid({}, {}) && Forward(old(itemStatus), itemStatus)
      ensures queued == old(queued)[target := old(queued)[target][1..]]
    {
      hide Valid, Freed, Dep, Ready, Forward, Remove;
      QueuedFacts({}, target);
      var item := queued[target][0];
      RemoveHead(queued[target]);
      CancelItem(item, {}, {});
      assert {} - {item} + Freed(g, itemStatus, item) == Freed(g, itemStatus, item);
      assert {} - {item} == {};
      CancelSuccessors(item, {});
      QueuedKilledForward(old(itemStatus), item, itemStatus);
    }

    /** Cancels a copy of a queue, item by item, with their successors. */
    method CancelQueue(target: nat)
      requires Valid({}, {}) && target < |queued|
      modifies this`scheduled, this`queued, this`killed, this`itemStatus
      ensures Valid({}, {}) && Forward(old(itemStatus), itemStatus)
      ensures queued == old(queued)[target := []]
    {
      hide Valid, Forward;
      KeptIsForward(itemStatus, itemStatus);
      var copy := queued[target];
      for a := 0 to |copy|
        invariant Valid({}, {}) && Forward(old(itemStatus), itemStatus)
        invariant queued == old(queued)[target := copy[a..]]
      {
        ghost var st := itemStatus;
        CancelHead(target);
        ForwardTransitive(old(itemStatus), st, itemStatus);
        assert copy[a..][1..] == copy[a + 1..];
      }
    }

    /** Kills a copy of a running list, item by item. */
    method KillRunning(target: nat)
      requires Valid({}, {}) && target < |running|
      modifies this`scheduled, this`queued, this`running, this`killed, this`itemStatus
      ensures Valid({}, {}) && Forward(old(itemStatus), itemStatus)
      ensures queued == old(queued) && running == old(running)[target := []]
    {
      hide Valid, Forward, Remove;
      KeptIsForward(itemStatus, itemStatus);
      var copy := running[target];
      for a := 0 to |copy|
        invariant Valid({}, {}) && Forward(old(itemStatus), itemStatus)
        invariant queued == old(queued) && running == old(running)[target := copy[a..]]
      {
        ghost var st := itemStatus;
        RunningAt(target);
        RunningTarget(target);
        assert copy[a..][0] == copy[a];
        RemoveHead(copy[a..]);
        KillItem(copy[a], {});
        KilledForward(st, copy[a], itemStatus);
        ForwardTransitive(old(itemStatus), st, itemStatus);
        assert copy[a..][1..] == copy[a + 1..];
      }
    }

    lemma RunningTarget(target: nat)
      requires Valid({}, {}) && target < |running|
      ensures forall i :: i in running[target] ==> i in g.jobs && g.jobs[i].target == target
    {
      hide Layered, Sound, Launched;
      forall i | i in running[target] ensures i in g.jobs && g.jobs[i].target == target {
        assert Belongs(g, itemStatus, Dispatched, {}, target, i);
      }
    }

    /** `_kill`: afterwards every item has finished. */
    method Kill()
      requires Valid({}, {})
      modifies this`scheduled, this`queued, this`running, this`killed, this`itemStatus
      ensures Valid({}, {}) && Forward(old(itemStatus), itemStatus)
      ensures AllTerminal(g, itemStatus)
      ensures forall t :: 0 <= t < |running| ==> running[t] == [] && queued[t] == []
      ensures |running| == |queued|
    {
      hide Valid, Forward;
      QueueHeads();
      KeptIsForward(itemStatus, itemStatus);
      for target := 0 to |queued|
        invariant Valid({}, {}) && Forward(old(itemStatus), itemStatus) && |queued| == |running| == g.targets
        invariant forall t :: 0 <= t < target ==> queued[t] == []
      {
        ghost var st := itemStatus;
        CancelQueue(target);
        ForwardTransitive(old(itemStatus), st, itemStatus);
      }
      for target := 0 to |running|
        invariant Valid({}, {}) && Forward(old(itemStatus), itemStatus) && |queued| == |running| == g.targets
        invariant forall t :: 0 <= t < |queued| ==> queued[t] == []
        invariant forall t :: 0 <= t < target ==> running[t] == []
      {
        ghost var st := itemStatus;
        KillRunning(target);
        ForwardTransitive(old(itemStatus), st, itemStatus);
      }
      IdleIsDone();
    }

    /** With nothing queued and nothing running, every item has finished. */
    lemma IdleIsDone()
      requires Valid({}, {})
      requires forall t :: 0 <= t < |queued| ==> queued[t] == []
      requires forall t :: 0 <= t < |running| ==> running[t] == []
      ensures AllTerminal(g, itemStatus)
    {
      hide HasDependency, HasDependant;
      forall j | j in itemStatus ensures Final(itemStatus[j]) {
        var t := g.jobs[j].target;
        assert !Belongs(g, itemStatus, Queued, {}, t, j) && !Belongs(g, itemStatus, Dispatched, {}, t, j);
      }
      forall i | i in g.jobs ensures Terminal(itemStatus, i) { NothingActiveAllDone(g, itemStatus, i); }
    }

    // ----- running ---------------------------------------------------------------------------

    /** `_check_if_done` */
    method CheckIfDone() returns (done: bool)
      requires Valid({}, {})
      ensures done <==> AllTerminal(g, itemStatus)
    {
      hide HasDependency, HasDependant, Sound, Launched;
      QueueSize(g, AllTables(), itemStatus, {});
      hide TablesOk;
      done := true;
      for target := 0 to g.targets
        invariant done <==> forall i :: i in g.jobs && g.jobs[i].target < target ==> Terminal(itemStatus, i)
      {
        var count := |passed[target]| + |failed[target]| + |killed[target]|;
        DoneCount(g, AllTables(), itemStatus, target);
        done := done && count == total[target];
      }
    }

    /** The keys of the dictionary are known, each once. */
    ghost predicate KeysKnown()
      reads this`scheduled
    {
      Distinct(keys) && forall k :: k in scheduled ==> k in keys
    }

    /** `_get_successors(None)`: every item of the first target, configuration by configuration in the order in
        which they were first met. */
    method GetFirst(ghost pending: set<Item>) returns (successors: seq<Item>)
      requires Valid(pending, {}) && itemStatus == map[] && pending == FirstItems(g) && KeysKnown()
      ensures Distinct(successors) && ListSet(successors) == pending
      ensures successors == Gathered(scheduled, keys, 0)
    {
      hide Valid, ScheduleOk, Ready, Gathered, Distinct, FirstItems, KeysKnown;
      WaitingAll(pending);
      FirstReady(pending);
      GatheredNone(scheduled, 0);
      successors := [];
      NothingDistinct();
      for a := 0 to |keys|
        invariant Distinct(successors) && successors == Gathered(scheduled, keys[..a], 0)
        invariant forall i :: i in successors <==> i in g.jobs && g.jobs[i].target == 0 && KeyOf(g, i) in keys[..a]
      {
        var key := keys[a];
        assert keys[..a + 1] == keys[..a] + [key];
        NewKey(a);
        GatheredNext(scheduled, keys[..a], key, 0);
        if key.target == 0 && key in scheduled {
          UnderKey(key);
          var more := FirstOf(scheduled[key], pending);
          JoinFirst(successors, more, keys[..a], key);
          successors := successors + more;
        } else {
          NoneUnder(key);
        }
      }
      assert keys[..|keys|] == keys;
      AllUnderKeys(successors);
    }

    lemma NewKey(a: nat)
      requires KeysKnown() && a < |keys|
      ensures keys[a] !in keys[..a]
    {}

    lemma UnderKey(key: Key)
      requires ScheduleOk(g, scheduled, map[]) && key in scheduled && key.target == 0
      ensures forall i :: i in scheduled[key] ==> i in g.jobs && i in FirstItems(g)
    {
      forall i | i in scheduled[key] ensures i in g.jobs && i in FirstItems(g) { assert KeyOf(g, i) == key; }
    }

    lemma AllUnderKeys(l: seq<Item>)
      requires ScheduleOk(g, scheduled, map[]) && KeysKnown()
      requires forall i :: i in l <==> i in g.jobs && g.jobs[i].target == 0 && KeyOf(g, i) in keys
      ensures ListSet(l) == FirstItems(g)
    {
      forall i | i in g.jobs && g.jobs[i].target == 0 ensures KeyOf(g, i) in keys { assert Waiting(g, scheduled, i); }
    }

    lemma NoneUnder(key: Key)
      requires ScheduleOk(g, scheduled, map[]) && !(key.target == 0 && key in scheduled)
      ensures forall i :: i in g.jobs && g.jobs[i].target == 0 ==> KeyOf(g, i) != key
    {
      forall i | i in g.jobs && g.jobs[i].target == 0 ensures KeyOf(g, i) != key { assert Waiting(g, scheduled, i); }
    }

    lemma WaitingAll(pending: set<Item>)
      requires Valid(pending, {})
      ensures ScheduleOk(g, scheduled, itemStatus)
    {}

    lemma FirstReady(pending: set<Item>)
      requires Valid(pending, {})
      ensures forall i :: i in pending ==> i in g.jobs && i !in itemStatus && Ready(g, itemStatus, i)
    {
      hide Layered, TablesOk;
    }

    method FirstOf(list: seq<Item>, ghost pending: set<Item>) returns (r: seq<Item>)
      requires forall i :: i in list ==> i in g.jobs && i in pending
      requires forall i :: i in pending ==> Ready(g, itemStatus, i)
      ensures r == list
    {
      r := [];
      for a := 0 to |list|
        invariant r == list[..a]
      {
        assert list[a] in pending;
        var ok := OkToEnqueue(list[a]);
        if ok {
          r := r + [list[a]];
        }
      }
      assert list[..|list|] == list;
    }

    lemma JoinFirst(a: seq<Item>, b: seq<Item>, done: seq<Key>, key: Key)
      requires ScheduleOk(g, scheduled, map[]) && key !in done && key in scheduled && key.target == 0
        && b == scheduled[key]
      requires Distinct(a) && forall i :: i in a <==> i in g.jobs && g.jobs[i].target == 0 && KeyOf(g, i) in done
      ensures Distinct(a + b)
      ensures forall i :: i in a + b <==> i in g.jobs && g.jobs[i].target == 0 && KeyOf(g, i) in done + [key]
    {
      forall i | i in g.jobs && KeyOf(g, i) == key ensures i in b { assert Waiting(g, scheduled, i); }
      assert ListSet(a) !! ListSet(b);
      JoinLists(a, b);
    }

    /** Builds the tables from the list of items, which may name an item more than once. */
    constructor (items: seq<Item>, g: Graph, maxParallel: nat, maxPoll: nat, broken: set<Item>,
                 patience: map<Item, nat>)
      requires Layers(g) && forall i :: i in items <==> i in g.jobs
      ensures this.g == g && this.maxParallel == maxParallel && this.maxPoll == maxPoll
      ensures this.broken == broken && this.patience == patience
      ensures itemStatus == map[] && launches == [] && polls == [] && answers == map[]
      ensures lastTargetPolled == -1 && lastItemPolled == seq(g.targets, _ => -1)
      ensures KeysKnown() && KeysInOrder(g, items, keys)
      ensures forall k :: k in scheduled ==> InOrder(items, scheduled[k])
      ensures TablesOk(g, AllTables(), itemStatus, {}) && Sound(g, itemStatus, FirstItems(g))
      ensures Covered(g) ==> Valid(FirstItems(g), {})
    {
      this.g, this.maxParallel, this.maxPoll := g, maxParallel, maxPoll;
      this.broken, this.patience := broken, patience;
      var sched, order := AddToScheduled(g, items);
      var sizes := TotalSizes(g, sched);
      scheduled, total, keys := sched, sizes, order;
      queued, running := seq(g.targets, _ => []), seq(g.targets, _ => []);
      passed, failed, killed := seq(g.targets, _ => {}), seq(g.targets, _ => {}), seq(g.targets, _ => {});
      itemStatus, launches, polls, answers := map[], [], [], map[];
      lastTargetPolled, lastItemPolled := -1, seq(g.targets, _ => -1);
      new;
      InitialSound(g);
      hide Layers, Covered, Sound, Launched, ScheduleOk, InOrder, KeysInOrder, Distinct;
      InitialTables(g, AllTables());
      hide TablesOk;
    }

    /** `run`: every launcher that answers `D` only finitely often brings the run to an end, and then every
        item has finished. `interrupts` tells before which rounds an interrupt comes; the first one ends the
        run with that round. In a run without interrupts every item that is launched without failing gets its
        launcher's final answer, and the others are killed for a reason. */
    method Run(interrupts: nat -> bool) returns (results: Statuses, rounds: nat)
      requires Valid(FirstItems(g), {}) && itemStatus == map[] && polls == [] && answers == map[] && KeysKnown()
      requires maxParallel >= 1 && maxPoll >= 1
      modifies this
      ensures Valid({}, {}) && Logged(polls, answers) && results == itemStatus
      ensures results.Keys == g.jobs.Keys && forall i :: i in results ==> Final(results[i])
      ensures rounds >= 1 && Quiet(interrupts, rounds - 1)
      ensures Quiet(interrupts, rounds) ==> Outcomes(g, results, launches, answers, broken)
      ensures interrupts(0) ==> launches == [] && polls == []
    {
      hide Accounts, Accounted, Outcomes, Quiet, OnlyQueued, QueueGrew, Nearer;
      hide Valid, Logged, ListSet, Forward, Shrinks, Work, TotalLength, Progress, Share, AllMayRun, TotalHeadWeight;
      EnqueueFirst();
      QuietStart(interrupts);
      var stopNow, done := false, false;
      rounds := 0;
      while !done
        invariant Valid({}, {}) && Logged(polls, answers)
        invariant stopNow ==> done
        invariant if done then rounds >= 1 && Quiet(interrupts, rounds - 1) else Quiet(interrupts, rounds)
        invariant Quiet(interrupts, rounds) ==> Accounts()
        invariant rounds == 0 || interrupts(0) ==> launches == [] && polls == []
        invariant interrupts(0) ==> rounds <= 1
        invariant done ==> AllTerminal(g, itemStatus)
        decreases !done, Work(g.items, itemStatus, patience)
      {
        QuietNext(interrupts, rounds);
        stopNow := stopNow || interrupts(rounds);
        done := Round(stopNow);
        rounds := rounds + 1;
      }
      KeysAreJobs();
      if Quiet(interrupts, rounds) { RunAccounted(); }
      results := itemStatus;
    }

    /** `_enqueue_successors(None)`: queues every item of the first target. */
    method EnqueueFirst()
      requires Valid(FirstItems(g), {}) && itemStatus == map[] && polls == [] && answers == map[] && KeysKnown()
      modifies this`scheduled, this`queued, this`itemStatus
      ensures Valid({}, {}) && Logged(polls, answers) && Accounts() && launches == []
      ensures OnlyQueued(map[], itemStatus) && QueueGrew(old(queued), queued, 0)
      ensures queued == AppendAll(old(queued), 0, Gathered(old(scheduled), keys, 0))
    {
      hide KeysKnown, Gathered, AppendAll, Distinct;
      hide Valid, Logged, ListSet, Accounts, OnlyQueued, QueueGrew;
      LoggedStart();
      NothingLaunched();
      var first := GetFirst(FirstItems(g));
      FirstTargets(first);
      EnqueueAll(first, 0, {});
      NothingKilledYet();
    }

    /** One round of the main loop: it ends the run or leaves less work. */
    method Round(stopNow: bool) returns (done: bool)
      requires Valid({}, {}) && Logged(polls, answers) && maxParallel >= 1 && maxPoll >= 1
      modifies this
      ensures Valid({}, {}) && Logged(polls, answers) && Forward(old(itemStatus), itemStatus)
      ensures done ==> AllTerminal(g, itemStatus)
      ensures !done ==> Work(g.items, itemStatus, patience) < Work(g.items, old(itemStatus), old(patience))
      ensures stopNow ==> done && launches == old(launches) && polls == old(polls)
      ensures !stopNow && old(Accounts()) ==> Accounts()
      ensures old(polls) <= polls
      ensures !stopNow ==> Nearer(g, old(running), old(lastTargetPolled), running, lastTargetPolled, polls,
          |old(polls)|)
    {
      hide Valid, Logged, Forward, Shrinks, Work, TotalLength, Progress, Share, AllMayRun, TotalHeadWeight;
      hide Nearer, RunningGrew, Size, Calm, PassDone, AllQueuedMayRun, LateWeight, Unbroken, Accounts;
      KeptIsForward(itemStatus, itemStatus);
      ShrinksSelf(patience);
      if stopNow {
        Kill();
        EmptyTotal(running);
        EmptyWeight(g, queued);
      }
      ghost var st1, p1, polled := itemStatus, patience, |polls|;
      var changed := Poll();
      var tick: bool := *;
      changed := changed || tick;
      ghost var st2, lists := itemStatus, running;
      if |polls| == polled {
        IdleUnlessQueued();
      }
      ghost var allotted, pass := Dispatch();
      if !stopNow {
        NearerKept(g, old(running), old(lastTargetPolled), lists, lastTargetPolled, running, polls, |old(polls)|,
          launches[|old(launches)|..], broken);
      }
      done := false;
      if changed {
        done := CheckIfDone();
      }
      ForwardTransitive(old(itemStatus), st1, st2);
      ForwardTransitive(old(itemStatus), st2, itemStatus);
      AllTerminalKept(g, st1, st2);
      AllTerminalKept(g, st2, itemStatus);
      WorkSteps(g, old(itemStatus), st1, st2, itemStatus, p1, patience);
    }

    /** When no item is running, either some queue has a head or every item has finished. */
    lemma IdleUnlessQueued()
      requires Valid({}, {}) && TotalLength(running) == 0
      ensures TotalHeadWeight(g, queued) >= 1 || AllTerminal(g, itemStatus)
    {
      hide Valid;
      QueueHeads();
      TotalLengthZero(running);
      if exists t :: 0 <= t < |queued| && queued[t] != [] {
        var t :| 0 <= t < |queued| && queued[t] != [];
        HeadWeightPositive(g, queued, |queued|, t);
      } else {
        IdleIsDone();
      }
    }

    lemma FirstTargets(first: seq<Item>)
      requires ListSet(first) == FirstItems(g)
      ensures forall i :: i in first ==> i in g.jobs && g.jobs[i].target == 0
    {
      assert forall i :: i in first ==> i in ListSet(first);
    }

    lemma NothingLaunched()
      requires Valid(FirstItems(g), {}) && itemStatus == map[]
      ensures launches == []
    {
      hide Layered, TablesOk, Sound, Reported;
      NoElements(launches);
    }

    lemma NothingKilledYet()
      requires OnlyQueued(map[], itemStatus) && launches == [] && answers == map[]
      ensures Accounts()
    {}

    lemma RunAccounted()
      requires Valid({}, {}) && AllTerminal(g, itemStatus) && Accounts()
      ensures Outcomes(g, itemStatus, launches, answers, broken)
    {
      hide Accounted, Outcomes, Launched, Reported;
      KnownFacts();
      hide Valid;
      AllAccounted(g, itemStatus, launches, answers, broken);
    }

    lemma KeysAreJobs()
      requires Valid({}, {}) && AllTerminal(g, itemStatus)
      ensures itemStatus.Keys == g.jobs.Keys && forall i :: i in itemStatus ==> Final(itemStatus[i])
    {
      hide Layered, TablesOk, Launched;
    }
  }

  /** No interrupt comes before the first n rounds. */
  ghost predicate Quiet(interrupts: nat -> bool, n: nat)
  {
    forall k: nat :: k < n ==> !interrupts(k)
  }

  lemma QuietStart(interrupts: nat -> bool)
    ensures Quiet(interrupts, 0)
  {}

  lemma QuietNext(interrupts: nat -> bool, n: nat)
    ensures Quiet(interrupts, n + 1) <==> Quiet(interrupts, n) && !interrupts(n)
    ensures n >= 1 && Quiet(interrupts, n) ==> !interrupts(0)
  {}

  ghost predicate AllTerminal(g: Graph, st: Statuses)
  {
    forall i :: i in g.jobs ==> Terminal(st, i)
  }

  lemma AllTerminalKept(g: Graph, st: Statuses, st': Statuses)
    requires Forward(st, st')
    ensures AllTerminal(g, st) ==> AllTerminal(g, st')
  {}

  lemma EmptyWeight(g: Graph, queued: seq<seq<Item>>)
    requires forall t :: 0 <= t < |queued| ==> queued[t] == []
    ensures TotalHeadWeight(g, queued) == 0
  {
    EmptyHeads(g, queued, |queued|);
  }

  lemma {:induction false} EmptyHeads(g: Graph, queued: seq<seq<Item>>, n: nat)
    requires n <= |queued| && HeadsKnown(g, queued) && forall t :: 0 <= t < |queued| ==> queued[t] == []
    ensures HeadWeight(g, queued, n) == 0
  {
    if n > 0 { EmptyHeads(g, queued, n - 1); }
  }

  lemma EmptyTotal(lists: seq<seq<Item>>)
    requires forall t :: 0 <= t < |lists| ==> lists[t] == []
    ensures TotalLength(lists) == 0
  {
    if TotalLength(lists) > 0 {
      var t := TotalLengthPositive(lists);
    }
  }

  /** Work over a round: kill, poll, dispatch. */
  lemma WorkSteps(g: Graph, st0: Statuses, st1: Statuses, st2: Statuses, st3: Statuses, p: map<Item, nat>,
                  p': map<Item, nat>)
    requires Forward(st0, st1) && Forward(st1, st2) && Forward(st2, st3) && Shrinks(p, p')
    ensures Work(g.items, st1, p) <= Work(g.items, st0, p) && Work(g.items, st3, p') <= Work(g.items, st2, p')
    ensures Work(g.items, st2, p') <= Work(g.items, st1, p)
    ensures Progress(g, st2, st3) ==> Work(g.items, st3, p') < Work(g.items, st2, p')
  {
    ShrinksSelf(p);
    ShrinksSelf(p');
    WorkMonotone(g.items, st0, p, st1, p);
    WorkMonotone(g.items, st1, p, st2, p');
    WorkMonotone(g.items, st2, p', st3, p');
  }

  // ----- order -------------------------------------------------------------------------------

  /** The elements of l in the order in which they first occur in the whole list. */
  predicate InOrder(whole: seq<Item>, l: seq<Item>)
  {
    && (forall i :: i in l ==> i in whole)
    && forall a, b :: 0 <= a < b < |l| ==> IndexOf(whole, l[a]) < IndexOf(whole, l[b])
  }

  lemma OrderNothing(whole: seq<Item>)
    ensures InOrder(whole, [])
  {}

  /** Going through a list and keeping some elements, the a-th next. */
  lemma OrderMore(whole: seq<Item>, l: seq<Item>, a: nat)
    requires InOrder(whole, l) && a < |whole| && whole[a] !in l && forall i :: i in l ==> i in whole[..a]
    ensures InOrder(whole, l + [whole[a]]) || whole[a] in whole[..a]
  {
    if whole[a] !in whole[..a] {
      forall x | 0 <= x < |l| ensures IndexOf(whole, l[x]) < IndexOf(whole, whole[a]) {
        FirstAt(whole, a);
        FoundBefore(whole, a, l[x]);
      }
    }
  }

  lemma FirstAt(whole: seq<Item>, a: nat)
    requires a < |whole| && whole[a] !in whole[..a]
    ensures IndexOf(whole, whole[a]) == a
  {}

  lemma FoundBefore(whole: seq<Item>, a: nat, x: Item)
    requires a <= |whole| && x in whole[..a]
    ensures x in whole && IndexOf(whole, x) < a
  {}

  /** Some item with key x comes before all items with key y. */
  predicate KeyBefore(g: Graph, items: seq<Item>, x: Key, y: Key)
  {
    exists n :: 0 <= n < |items| && items[n] in g.jobs && KeyOf(g, items[n]) == x
      && forall m :: 0 <= m <= n && items[m] in g.jobs ==> KeyOf(g, items[m]) != y
  }

  /** The keys in the order in which they first occur in the list of items. */
  predicate KeysInOrder(g: Graph, items: seq<Item>, keys: seq<Key>)
  {
    forall a, b :: 0 <= a < b < |keys| ==> KeyBefore(g, items, keys[a], keys[b])
  }

  lemma NoKeys(g: Graph, items: seq<Item>)
    ensures KeysInOrder(g, items, [])
  {}

  ghost predicate HasKey(g: Graph, items: seq<Item>, k: Key)
  {
    exists i :: i in items && i in g.jobs && KeyOf(g, i) == k
  }

  lemma BuiltSoFar(g: Graph, items: seq<Item>, sched: Schedule, item: Item)
    requires Building(g, items, sched) && forall k :: k in sched ==> forall i :: i in sched[k] ==> i in items
    ensures forall k :: k in sched <==> HasKey(g, items, k)
    ensures item in items && item in g.jobs ==> Waiting(g, sched, item)
  {
    forall k | k in sched ensures HasKey(g, items, k) {
      var i := sched[k][0];
      assert i in sched[k] && i in items && i in g.jobs && KeyOf(g, i) == k;
    }
  }

  lemma KeyMore(g: Graph, items: seq<Item>, sched: Schedule, keys: seq<Key>, a: nat)
    requires a < |items| && items[a] in g.jobs && KeyOf(g, items[a]) !in sched && KeysInOrder(g, items, keys)
    requires forall k :: k in keys <==> k in sched
    requires forall k :: k in sched <==> HasKey(g, items[..a], k)
    ensures KeysInOrder(g, items, keys + [KeyOf(g, items[a])])
  {
    var key := KeyOf(g, items[a]);
    forall x | x in keys ensures KeyBefore(g, items, x, key) {
      assert HasKey(g, items[..a], x);
      var i :| i in items[..a] && i in g.jobs && KeyOf(g, i) == x;
      var n :| 0 <= n < a && items[..a][n] == i;
      forall m | 0 <= m <= n && items[m] in g.jobs ensures KeyOf(g, items[m]) != key {
        assert items[..a][m] == items[m];
        assert HasKey(g, items[..a], KeyOf(g, items[m]));
      }
      assert items[n] == i;
    }
    hide KeyBefore;
  }

  /** The lists under the keys of target t, one after the other. */
  ghost function Gathered(sched: Schedule, keys: seq<Key>, t: nat): seq<Item>
  {
    if keys == [] then []
    else
      var n := |keys| - 1;
      Gathered(sched, keys[..n], t) + if keys[n].target == t && keys[n] in sched then sched[keys[n]] else []
  }

  lemma GatheredNone(sched: Schedule, t: nat)
    ensures Gathered(sched, [], t) == []
  {}

  lemma GatheredNext(sched: Schedule, keys: seq<Key>, k: Key, t: nat)
    ensures Gathered(sched, keys + [k], t) ==
      Gathered(sched, keys, t) + if k.target == t && k in sched then sched[k] else []
  {
    assert (keys + [k])[..|keys|] == keys;
  }

  /** The elements of l that are in the set, in the order of l. */
  ghost function Kept(l: seq<Item>, keep: set<Item>): seq<Item>
  {
    if l == [] then []
    else
      var n := |l| - 1;
      Kept(l[..n], keep) + if l[n] in keep then [l[n]] else []
  }

  lemma {:induction false} KeptSame(l: seq<Item>, a: set<Item>, b: set<Item>)
    requires forall j :: j in l ==> (j in a <==> j in b)
    ensures Kept(l, a) == Kept(l, b)
  {
    if l != [] { KeptSame(l[..|l| - 1], a, b); }
  }

  lemma SuccessorsAre(g: Graph, st: Statuses, list: seq<Item>, item: Item, r: seq<Item>)
    requires forall j :: j in list ==> j in g.jobs && j !in st
    requires forall j :: Dep(g, j, item) ==> j in list
    requires forall j :: j in r <==> j in list && Dep(g, j, item) && Ready(g, st, j)
    requires r == Kept(list, set j | j in list && Dep(g, j, item) && Ready(g, st, j))
    ensures ListSet(r) == Freed(g, st, item) && r == Kept(list, Freed(g, st, item))
  {
    hide Ready, Dep, Kept;
    var chosen := set j | j in list && Dep(g, j, item) && Ready(g, st, j);
    assert forall j :: j in list ==> (j in chosen <==> j in Freed(g, st, item));
    KeptSame(list, chosen, Freed(g, st, item));
  }

  lemma BeyondLast(g: Graph, sched: Schedule, st: Statuses, k: Key)
    requires Layers(g) && ScheduleOk(g, sched, st) && k.target >= g.targets
    ensures k !in sched
  {
    hide HasDependency;
    KeyPresentIff(g, sched, st, k);
    hide ScheduleOk;
  }

  /** The items that waited only for i, in the order in which they are scheduled. */
  ghost function NextInLine(g: Graph, sched: Schedule, st: Statuses, i: Item): seq<Item>
    requires i in g.jobs
  {
    var k := Key(g.jobs[i].target + 1, g.jobs[i].cfg);
    if k in sched then Kept(sched[k], Freed(g, st, i)) else []
  }

  /** The items at the end of the queue of one target. */
  function AppendAll(queued: seq<seq<Item>>, t: nat, l: seq<Item>): seq<seq<Item>>
  {
    if t < |queued| then queued[t := queued[t] + l] else queued
  }

  lemma AppendNothing(queued: seq<seq<Item>>, t: nat)
    ensures AppendAll(queued, t, []) == queued
  {
    if t < |queued| { assert queued[t] + [] == queued[t]; }
  }

  lemma AppendNext(queued: seq<seq<Item>>, t: nat, l: seq<Item>, i: Item)
    requires t < |queued|
    ensures |AppendAll(queued, t, l)| == |queued|
    ensures Append(AppendAll(queued, t, l), t, i) == AppendAll(queued, t, l + [i])
  {
    assert queued[t] + (l + [i]) == queued[t] + l + [i];
  }

  // ----- building the tables -----------------------------------------------------------------

  /** What `add_to_scheduled` has built from the first items. */
  ghost predicate Building(g: Graph, items: seq<Item>, sched: Schedule)
  {
    && (forall k :: k in sched ==> sched[k] != [] && Distinct(sched[k]))
    && (forall k, i :: k in sched && i in sched[k] ==> i in g.jobs && KeyOf(g, i) == k)
    && (forall i :: i in items && i in g.jobs ==> Waiting(g, sched, i))
  }

  method AddToScheduled(g: Graph, items: seq<Item>) returns (sched: Schedule, keys: seq<Key>)
    requires forall i :: i in items <==> i in g.jobs
    ensures ScheduleOk(g, sched, map[])
    ensures Distinct(keys) && (forall k :: k in keys <==> k in sched) && KeysInOrder(g, items, keys)
    ensures forall k :: k in sched ==> InOrder(items, sched[k])
  {
    hide InOrder, KeysInOrder, HasKey;
    OrderNothing(items);
    NoKeys(g, items);
    sched, keys := map[], [];
    for a := 0 to |items|
      invariant Building(g, items[..a], sched)
      invariant forall k :: k in sched ==> InOrder(items, sched[k]) && forall i :: i in sched[k] ==> i in items[..a]
      invariant Distinct(keys) && (forall k :: k in keys <==> k in sched) && KeysInOrder(g, items, keys)
    {
      var item := items[a];
      assert items[..a + 1] == items[..a] + [item];
      hide Building;
      BuiltSoFar(g, items[..a], sched, item);
      var key := KeyOf(g, item);
      var list := if key in sched then sched[key] else [];
      BuildNext(g, items[..a], sched, item, list);
      if key !in sched {
        KeyMore(g, items, sched, keys, a);
        keys := keys + [key];
      }
      if item !in list {
        OrderMore(items, list, a);
        sched := sched[key := list + [item]];
      }
    }
    assert items[..|items|] == items;
    assert ScheduleOk(g, sched, map[]);
  }

  lemma BuildNext(g: Graph, items: seq<Item>, sched: Schedule, item: Item, list: seq<Item>)
    requires Building(g, items, sched) && item in g.jobs
    requires list == if KeyOf(g, item) in sched then sched[KeyOf(g, item)] else []
    ensures Building(g, items + [item], if item in list then sched else sched[KeyOf(g, item) := list + [item]])
  {
    var key := KeyOf(g, item);
    if item !in list {
      var sched' := sched[key := list + [item]];
      assert Distinct(list + [item]);
      forall i | i in items + [item] && i in g.jobs ensures Waiting(g, sched', i) {
        if i != item { assert i in items && Waiting(g, sched, i); }
      }
    } else {
      assert Waiting(g, sched, item);
    }
  }

  /** The items of target t without a status, under the given keys. */
  ghost function Listed(g: Graph, st: Statuses, t: nat, keys: set<Key>): set<Item>
  {
    set i | i in g.jobs && g.jobs[i].target == t && i !in st && KeyOf(g, i) in keys
  }

  /** `sum_dict_lists` of a target's dictionary is the number of its items still scheduled. */
  method SumDictLists(g: Graph, sched: Schedule, ghost st: Statuses, t: nat) returns (n: nat)
    requires ScheduleOk(g, sched, st)
    ensures n == |Scheduled(g, st, t)|
  {
    hide ScheduleOk, Scheduled, Listed;
    n := 0;
    var left := set k | k in sched && k.target == t;
    ghost var all, seen: set<Key> := left, {};
    ListedEnds(g, sched, st, t, all);
    while left != {}
      invariant seen + left == all && seen !! left
      invariant n == |Listed(g, st, t, seen)|
      decreases |left|
    {
      var key :| key in left;
      ListedNext(g, sched, st, t, seen, key);
      n := n + |sched[key]|;
      left, seen := left - {key}, seen + {key};
    }
    assert seen == all;
  }

  lemma ListedEnds(g: Graph, sched: Schedule, st: Statuses, t: nat, all: set<Key>)
    requires ScheduleOk(g, sched, st) && all == set k | k in sched && k.target == t
    ensures |Listed(g, st, t, {})| == 0 && Listed(g, st, t, all) == Scheduled(g, st, t)
  {
    assert Listed(g, st, t, {}) == {};
    forall i | i in Scheduled(g, st, t) ensures KeyOf(g, i) in all { assert Waiting(g, sched, i); }
  }

  lemma ListedNext(g: Graph, sched: Schedule, st: Statuses, t: nat, seen: set<Key>, key: Key)
    requires ScheduleOk(g, sched, st) && key in sched && key.target == t && key !in seen
    ensures |Listed(g, st, t, seen + {key})| == |Listed(g, st, t, seen)| + |sched[key]|
  {
    var list := ListSet(sched[key]);
    DistinctSize(sched[key]);
    KeyMembers(g, sched, st, key);
    forall i | i in g.jobs && i !in st && KeyOf(g, i) == key ensures i in list { assert Waiting(g, sched, i); }
    assert Listed(g, st, t, seen + {key}) == Listed(g, st, t, seen) + list;
    assert Listed(g, st, t, seen) !! list;
  }

  method TotalSizes(g: Graph, sched: Schedule) returns (sizes: seq<nat>)
    requires ScheduleOk(g, sched, map[])
    ensures |sizes| == g.targets && forall t :: 0 <= t < g.targets ==> sizes[t] == |AtTarget(g, t)|
  {
    hide ScheduleOk;
    sizes := [];
    for t := 0 to g.targets
      invariant |sizes| == t && forall u :: 0 <= u < t ==> sizes[u] == |AtTarget(g, u)|
    {
      var n := SumDictLists(g, sched, map[], t);
      assert Scheduled(g, map[], t) == AtTarget(g, t);
      sizes := sizes + [n];
    }
  }

  ghost function FirstItems(g: Graph): set<Item>
  {
    set i | i in g.jobs && g.jobs[i].target == 0
  }

  lemma RemoveLast(l: seq<Item>, i: Item)
    requires i !in l
    ensures Remove(l + [i], i) == l
  {
    var r := l + [i];
    assert r[|l|] == i && IndexOf(r, i) == |l|;
  }

  lemma RemoveHead(l: seq<Item>)
    requires l != []
    ensures Remove(l, l[0]) == l[1..]
  {}

  lemma QueuedKilledForward(st: Statuses, i: Item, st': Statuses)
    requires i in st && st[i] == Queued && OnlyKilled(st[i := Killed], st')
    ensures Forward(st, st')
  {}

  /** Some item moved on. */
  ghost predicate Progress(g: Graph, st: Statuses, st': Statuses)
  {
    exists i :: i in g.items && Rank(st', i) < Rank(st, i)
  }

  lemma MovedOn(st0: Statuses, st: Statuses, st': Statuses, l: seq<Item>, head: Item)
    requires Moved(st0, st, l, head) && Forward(st0, st) && Forward(st, st')
    requires forall i :: i in l ==> Rank(st', i) < Rank(st, i)
    ensures Rank(st', head) < Rank(st0, head)
  {}

  lemma RanksStay(st0: Statuses, st: Statuses, st': Statuses, l: seq<Item>, a: nat)
    requires a < |l| && Forward(st, st')
    requires forall b :: 0 <= b < a ==> Rank(st, l[b]) < Rank(st0, l[b])
    requires Forward(st0, st) && Rank(st', l[a]) < Rank(st, l[a])
    ensures forall b :: 0 <= b <= a ==> Rank(st', l[b]) < Rank(st0, l[b])
  {}

  lemma StartedForward(st: Statuses, i: Item, started: Statuses, st': Statuses)
    requires i in st && st[i] == Queued && started == st[i := Dispatched] && Forward(started, st')
    ensures Forward(st, st') && Rank(st', i) < Rank(st, i)
  {}

  lemma KilledForward(st: Statuses, i: Item, st': Statuses)
    requires i in st && st[i] == Dispatched && OnlyKilled(st[i := Killed], st')
    ensures Forward(st, st')
  {}

  /** From `target` on, queues have only been appended to. */
  ghost predicate Untouched(q0: seq<seq<Item>>, q: seq<seq<Item>>, target: nat)
  {
    |q| == |q0| && forall t :: target <= t < |q| ==> q0[t] <= q[t]
  }

  /** From `target` on, queues are as they were and hold only items that may run. */
  ghost predicate StillCalm(g: Graph, st: Statuses, q0: seq<seq<Item>>, q: seq<seq<Item>>, target: nat)
  {
    |q| == |q0| && forall t :: target <= t < |q| ==> q[t] == q0[t] && AllMayRun(g, st, q[t])
  }

  lemma KnownHead(g: Graph, q: seq<seq<Item>>, target: nat)
    requires HeadsKnown(g, q) && target < |q|
    ensures q[target] != [] ==> q[target][0] in g.jobs
  {}

  lemma UntouchedStart(g: Graph, st: Statuses, q: seq<seq<Item>>)
    requires HeadsKnown(g, q)
    ensures Untouched(q, q, 0) && HeadWeight(g, q, 0) == 0
    ensures (forall t :: 0 <= t < |q| ==> AllMayRun(g, st, q[t])) ==> StillCalm(g, st, q, q, 0)
  {}

  lemma UntouchedNext(g: Graph, st: Statuses, q0: seq<seq<Item>>, q: seq<seq<Item>>, target: nat)
    requires Untouched(q0, q, target) && target < |q| && HeadsKnown(g, q) && HeadsKnown(g, q0)
    ensures q0[target] <= q[target] && Untouched(q0, q, target + 1)
    ensures HeadWeight(g, q0, target + 1) == HeadWeight(g, q0, target) +
      if q0[target] == [] then 0 else g.jobs[q[target][0]].weight
    ensures StillCalm(g, st, q0, q, target) ==>
      q[target] == q0[target] && AllMayRun(g, st, q[target]) && StillCalm(g, st, q0, q, target + 1)
  {}

  /** All queued items may run. */
  ghost predicate AllQueuedMayRun(g: Graph, st: Statuses, q: seq<seq<Item>>)
  {
    forall t :: 0 <= t < |q| ==> AllMayRun(g, st, q[t])
  }

  ghost predicate CalmSoFar(s: Start, st: Statuses, q: seq<seq<Item>>, target: nat, sum: nat)
  {
    && StillCalm(s.g, st, s.queued, q, target)
    && HeadsKnown(s.g, s.queued) && target <= |s.queued| && sum == HeadWeight(s.g, s.queued, target)
  }

  /** The turns so far, whose weights add up to sum. */
  ghost predicate Weighed(g: Graph, q0: seq<seq<Item>>, p: Pass, target: nat, sum: nat)
  {
    && |p.queues| == |p.popped| == target <= |q0| && HeadsKnown(g, p.queues) && sum == HeadWeight(g, p.queues, target)
    && forall u :: 0 <= u < target ==> q0[u] <= p.queues[u]
  }

  ghost predicate Allotted(s: Start, q: seq<seq<Item>>, sum: nat, filled: nat)
  {
    var total := TotalHeadWeight(s.g, s.queued);
    if total == 0 then q == s.queued && filled == 0 else filled == Share(s.slots, sum, total)
  }

  /** The slots a pass over the given queues hands out. */
  ghost predicate Handed(g: Graph, q0: seq<seq<Item>>, slots: nat, qs: seq<seq<Item>>, allotted: nat)
  {
    var total := TotalHeadWeight(g, q0);
    if total == 0 then allotted == 0 else allotted == Share(slots, total + LateWeight(g, q0, qs), total)
  }

  lemma HandedSlots(g: Graph, q0: seq<seq<Item>>, slots: nat, qs: seq<seq<Item>>, allotted: nat)
    requires Handed(g, q0, slots, qs, allotted)
    ensures var total, late := TotalHeadWeight(g, q0), LateWeight(g, q0, qs);
      && allotted == (if total == 0 then 0 else Share(slots, total + late, total))
      && (total >= 1 && slots >= 1 ==> allotted >= 1)
      && (late == 0 ==> allotted <= slots)
      && (total >= 1 ==> IsShare(slots, total + late, total, allotted))
  {
    hide TotalHeadWeight, LateWeight, Share, IsShare;
    var total, late := TotalHeadWeight(g, q0), LateWeight(g, q0, qs);
    if total >= 1 {
      ShareNearest(slots, total + late, total);
      RoundWithLateWeight(slots, total, late);
      assert late == 0 ==> slots * late == 0;
    }
  }

  lemma StartsWeighed(s: Start)
    requires HeadsKnown(s.g, s.queued)
    ensures Weighed(s.g, s.queued, Pass([], []), 0, 0) && Allotted(s, s.queued, 0, 0)
    ensures Untouched(s.queued, s.queued, 0) && Leftover(Pass([], []), s.queued)
    ensures AllQueuedMayRun(s.g, s.st, s.queued) ==> CalmSoFar(s, s.st, s.queued, 0, 0)
  {
    UntouchedStart(s.g, s.st, s.queued);
    hide HeadsKnown;
    if TotalHeadWeight(s.g, s.queued) >= 1 { NoShare(s.slots, TotalHeadWeight(s.g, s.queued)); }
  }

  /** At a turn: the weight found is added, and the share is what that leaves. */
  lemma TurnWeighs(s: Start, p: Pass, q: seq<seq<Item>>, target: nat, sumWeight: nat, sum: nat, filled: nat)
    requires HeadsKnown(s.g, s.queued) && HeadsKnown(s.g, q) && Untouched(s.queued, q, target) && target < |q|
    requires Weighed(s.g, s.queued, p, target, sumWeight) && Allotted(s, q, sumWeight, filled)
    requires sum == sumWeight + if q[target] == [] then 0 else s.g.jobs[q[target][0]].weight
    ensures HeadsKnown(s.g, p.queues + [q[target]]) && HeadWeight(s.g, p.queues + [q[target]], target + 1) == sum
    ensures |p.queues| == |p.popped| == target < |s.queued| == |q| && s.queued[target] <= q[target]
    ensures q[target] != [] ==>
      TotalHeadWeight(s.g, s.queued) >= 1 && Share(s.slots, sum, TotalHeadWeight(s.g, s.queued)) >= filled
    ensures var share := if q[target] == [] then 0 else Share(s.slots, sum, TotalHeadWeight(s.g, s.queued)) - filled;
      ShareOf(s.g, s.queued, s.slots, p.queues + [q[target]], target) == share
  {
    hide Share, HeadWeight, HeadsKnown;
    OneMoreHead(s.g, p.queues, q, target);
    if q[target] != [] {
      PositiveTotal(s.g, s.queued, q, target);
      ShareMonotone(s.slots, sumWeight, sum, TotalHeadWeight(s.g, s.queued));
    }
  }

  lemma OneMoreHead(g: Graph, qs: seq<seq<Item>>, q: seq<seq<Item>>, target: nat)
    requires HeadsKnown(g, qs) && HeadsKnown(g, q) && |qs| == target < |q|
    ensures q[target] != [] ==> q[target][0] in g.jobs
    ensures HeadsKnown(g, qs + [q[target]])
    ensures HeadWeight(g, qs + [q[target]], target) == HeadWeight(g, qs, target)
    ensures HeadWeight(g, qs + [q[target]], target + 1)
         == HeadWeight(g, qs, target) + if q[target] == [] then 0 else g.jobs[q[target][0]].weight
  {
    HeadWeightPrefix(g, qs, qs + [q[target]], target);
  }

  /** After a turn. */
  lemma TurnServed(s: Start, p: Pass, st: Statuses, st': Statuses, q: seq<seq<Item>>, q': seq<seq<Item>>,
                   target: nat, sumWeight: nat, sum: nat, filled: nat, full: nat, n: nat)
    requires HeadsKnown(s.g, s.queued) && HeadsKnown(s.g, q) && Untouched(s.queued, q, target) && target < |q|
    requires Weighed(s.g, s.queued, p, target, sumWeight) && Allotted(s, q, sumWeight, filled)
    requires |q| == |s.queued| && |p.queues| == target && HeadsKnown(s.g, p.queues + [q[target]])
    requires HeadWeight(s.g, p.queues + [q[target]], target + 1) == sum && s.queued[target] <= q[target]
      && sum == sumWeight + if q[target] == [] then 0 else s.g.jobs[q[target][0]].weight
    requires if q[target] == [] then full == filled && q' == q
             else TotalHeadWeight(s.g, s.queued) >= 1 && full == Share(s.slots, sum, TotalHeadWeight(s.g, s.queued))
    requires QueueServed(q, q', target) && (AllMayRun(s.g, st, q[target]) ==> QueueServedOnly(q, q', target))
    requires Forward(st, st') && forall t, i :: 0 <= t < |q| && i in q[t] ==> i in s.g.jobs && Ready(s.g, st, i)
    requires AllQueuedMayRun(s.g, s.st, s.queued) ==> CalmSoFar(s, st, q, target, sumWeight)
    ensures |q'| == |q| && Untouched(s.queued, q', target + 1)
    ensures Weighed(s.g, s.queued, Extend(p, q[target], n), target + 1, sum) && Allotted(s, q', sum, full)
    ensures AllQueuedMayRun(s.g, s.st, s.queued) ==> CalmSoFar(s, st', q', target + 1, sum)
  {
    hide Share, Forward, AllMayRun, Ready, QueueServed, QueueServedOnly, AllQueuedMayRun;
    hide HeadWeight, HeadsKnown, Untouched, Weighed, StillCalm, TotalHeadWeight;
    ServedNext(s.g, st, st', s.queued, q, q', target);
    UntouchedNext(s.g, st, s.queued, q, target);
    WeighedNext(s, p, q, target, sumWeight, sum, n);
  }

  lemma WeighedNext(s: Start, p: Pass, q: seq<seq<Item>>, target: nat, sumWeight: nat, sum: nat, n: nat)
    requires Weighed(s.g, s.queued, p, target, sumWeight) && target < |q| == |s.queued|
    requires HeadsKnown(s.g, p.queues + [q[target]]) && s.queued[target] <= q[target]
    requires |p.queues| == target && HeadWeight(s.g, p.queues + [q[target]], target + 1) == sum
    ensures Weighed(s.g, s.queued, Extend(p, q[target], n), target + 1, sum)
  {
    hide HeadWeight, HeadsKnown;
  }

  lemma ProgressEarlier(g: Graph, a: Statuses, b: Statuses, c: Statuses)
    requires Progress(g, a, b) && Forward(b, c)
    ensures Progress(g, a, c)
  {
    var i :| i in g.items && Rank(b, i) < Rank(a, i);
    assert Rank(c, i) <= Rank(b, i);
  }

  /** What the turns of p left of the queues they found is still queued. */
  ghost predicate Leftover(p: Pass, q: seq<seq<Item>>)
  {
    && |p.queues| == |p.popped| <= |q|
    && forall u :: 0 <= u < |p.queues| ==> p.popped[u] <= |p.queues[u]| && q[u] == p.queues[u][p.popped[u]..]
  }

  lemma LeftoverNext(g: Graph, st: Statuses, p: Pass, q: seq<seq<Item>>, q': seq<seq<Item>>, target: nat,
                     taken: seq<Item>)
    requires Leftover(p, q) && |p.queues| == target < |q| == |q'| && QueueServed(q, q', target)
    requires ServedInOrder(g, st, q[target], q'[target], taken)
    ensures Leftover(Extend(p, q[target], |q[target]| - |q'[target]|), q')
  {
    hide Picks;
  }

  lemma TurnFollows(s: Start, p: Pass, st: Statuses, mid: Statuses, st': Statuses, q: seq<seq<Item>>,
                    q': seq<seq<Item>>, target: nat, share: nat, more: seq<Item>, taken: seq<Item>)
    requires Starts(s) && Follows(s, p, st, more) && |p.queues| == |p.popped| == target < |s.queued| == |q| == |q'|
    requires Sound(s.g, st, {}) && ListsOk(s.g, q, st, Queued, {}) && Forward(s.st, st) && s.queued[target] <= q[target]
    requires HeadsKnown(s.g, s.queued) && HeadsKnown(s.g, p.queues + [q[target]])
    requires ShareOf(s.g, s.queued, s.slots, p.queues + [q[target]], target) == share
    requires ServedInOrder(s.g, st, q[target], q'[target], taken)
    requires Culled(s.g, target, st, mid, q[target][..|q[target]| - |q'[target]|])
    requires LaunchedAll(s.g, mid, st', taken, s.broken)
    requires q[target] != [] ==> Served(s.g, st, q[target], |q[target]| - |q'[target]|, share)
    ensures Follows(s, Extend(p, q[target], |q[target]| - |q'[target]|), st', more + taken)
  {
    hide Layers, ListsOk, Sound, Forward, HeadsKnown, ShareOf, Culled, LaunchedAll, Picks, IsPass, InPass;
    hide Popped, AllTaken;
    FollowsNext(s, p, st, more, q, |q[target]| - |q'[target]|, mid, st');
  }

  lemma WeighedAll(s: Start, p: Pass, q: seq<seq<Item>>, sum: nat, filled: nat)
    requires HeadsKnown(s.g, s.queued) && Weighed(s.g, s.queued, p, |s.queued|, sum) && Allotted(s, q, sum, filled)
    ensures |p.queues| == |s.queued| && Handed(s.g, s.queued, s.slots, p.queues, filled)
    ensures sum == HeadWeight(s.g, s.queued, |s.queued|) ==> LateWeight(s.g, s.queued, p.queues) == 0
  {
    hide Share, HeadWeight, HeadsKnown;
    LateWeightSign(s.g, s.queued, p.queues, |s.queued|);
  }

  lemma NotServed(g: Graph, t: nat, st: Statuses, q: seq<Item>, share: nat, broken: set<Item>)
    requires (q == [] || share == 0) && Sound(g, st, {})
    ensures ServedInOrder(g, st, q, q, []) && Served(g, st, q, 0, share)
    ensures Culled(g, t, st, st, q[..0]) && LaunchedAll(g, st, st, [], broken)
  {
    OrderStart(g, st, q);
    hide MayRun, Sound;
    assert q[..0] == [];
  }

  lemma PositiveTotal(g: Graph, q0: seq<seq<Item>>, q: seq<seq<Item>>, target: nat)
    requires HeadsKnown(g, q0) && |q| == |q0| && target < |q| && q[target] != []
    requires TotalHeadWeight(g, q0) == 0 ==> q == q0
    ensures TotalHeadWeight(g, q0) >= 1
  {
    if q0[target] != [] { HeadWeightPositive(g, q0, |q0|, target); }
  }

  lemma ProgressLater(g: Graph, a: Statuses, b: Statuses, c: Statuses)
    requires Forward(a, b) && Progress(g, b, c)
    ensures Progress(g, a, c)
  {
    var i :| i in g.items && Rank(c, i) < Rank(b, i);
    assert Rank(b, i) <= Rank(a, i);
  }

  lemma ServedNext(g: Graph, st: Statuses, st': Statuses, q0: seq<seq<Item>>, q: seq<seq<Item>>, q': seq<seq<Item>>,
                   target: nat)
    requires target < |q0| && Untouched(q0, q, target) && QueueServed(q, q', target) && Forward(st, st')
    requires AllMayRun(g, st, q[target]) ==> QueueServedOnly(q, q', target)
    requires forall t, i :: 0 <= t < |q| && i in q[t] ==> i in g.jobs && Ready(g, st, i)
    ensures |q'| == |q0| && Untouched(q0, q', target + 1)
    ensures StillCalm(g, st, q0, q, target) ==> StillCalm(g, st', q0, q', target + 1)
  {
    if StillCalm(g, st, q0, q, target) {
      forall t | target + 1 <= t < |q'| ensures q'[t] == q0[t] && AllMayRun(g, st', q'[t]) {
        forall i | i in q'[t] ensures MayRun(g, st', i) { ForwardMayRun(g, st, st', i); }
      }
    }
  }

  ghost predicate AllMayRun(g: Graph, st: Statuses, l: seq<Item>)
  {
    forall i :: i in l ==> i in g.jobs && MayRun(g, st, i)
  }

  /** i is about to be dispatched, or has already moved on. */
  ghost predicate Moved(st: Statuses, st': Statuses, toDispatch: seq<Item>, i: Item)
  {
    i in toDispatch || Rank(st', i) < Rank(st, i)
  }

  /** First come, first served: a front part of the queue is gone, and those of it that may run were
      taken, in order. */
  ghost predicate ServedInOrder(g: Graph, st: Statuses, before: seq<Item>, after: seq<Item>, taken: seq<Item>)
  {
    && |after| <= |before| && after == before[|before| - |after|..]
    && taken == Picks(g, st, before[..|before| - |after|])
  }

  lemma OrderStart(g: Graph, st: Statuses, q: seq<Item>)
    ensures ServedInOrder(g, st, q, q, [])
  {
    assert q[0..] == q && q[..0] == [];
  }

  lemma OrderNext(g: Graph, st0: Statuses, st: Statuses, q0: seq<Item>, q: seq<Item>, taken: seq<Item>, ok: bool)
    requires ServedInOrder(g, st0, q0, q, taken) && q != [] && Forward(st0, st)
    requires q[0] in g.jobs && (ok <==> MayRun(g, st, q[0]))
    requires forall i :: i in q0 ==> i in g.jobs && Ready(g, st0, i)
    ensures ServedInOrder(g, st0, q0, q[1..], if ok then taken + [q[0]] else taken)
  {
    var n := |q0| - |q|;
    assert q0[n] == q[0] && q0[n] in q0;
    ForwardMayRun(g, st0, st, q0[n]);
    assert q0[..n + 1][..n] == q0[..n];
    hide MayRun;
    assert !ok ==> taken + [] == taken;
  }

  /** The items in `gone` that may not run have finished, and nothing else has; items without a status may have
      been queued. */
  ghost predicate Culling(g: Graph, st: Statuses, st': Statuses, gone: seq<Item>)
  {
    && (forall i :: Terminal(st', i) <==> Terminal(st, i) || (i in gone && i in g.jobs && !MayRun(g, st, i)))
    && (forall i :: i in st && !Terminal(st', i) ==> i in st' && st'[i] == st[i])
    && (forall i :: i in st' && i !in st ==> st'[i] == Queued)
    && SamePassed(st, st')
  }

  /** The queue of `target` is being served: from the front, in order, with every item taken off needed,
      and those that may not run finished. */
  ghost predicate Serving(g: Graph, st0: Statuses, st: Statuses, q0: seq<seq<Item>>, q: seq<seq<Item>>, target: nat,
                          slots: nat, taken: seq<Item>)
  {
    && |q| == |q0| && target < |q| && Forward(st0, st) && QueueServed(q0, q, target)
    && (forall i :: i in q0[target] ==> i in g.jobs && i in st0 && Ready(g, st0, i))
    && ServedInOrder(g, st0, q0[target], q[target], taken)
    && Needed(g, st0, st, q0[target], q[target], slots)
    && (if |q[target]| < |q0[target]| then Moved(st0, st, taken, q0[target][0])
        else taken == [] && st == st0)
    && (AllMayRun(g, st0, q0[target]) ==> AllMayRun(g, st, q[target]) && QueueServedOnly(q0, q, target))
  }

  ghost predicate Needed(g: Graph, st0: Statuses, st: Statuses, before: seq<Item>, after: seq<Item>, slots: nat)
  {
    && |after| <= |before| && Culling(g, st0, st, before[..|before| - |after|])
    && (|after| < |before| ==> |Picks(g, st0, before[..|before| - |after| - 1])| < slots)
  }

  lemma ServingStart(g: Graph, st: Statuses, q: seq<seq<Item>>, target: nat, slots: nat)
    requires target < |q| && forall i :: i in q[target] ==> i in g.jobs && i in st && Ready(g, st, i)
    ensures Serving(g, st, st, q, q, target, slots, [])
  {
    hide Ready, MayRun, Forward, AllMayRun;
    ServedNone(q, target);
    OrderStart(g, st, q[target]);
    KeptIsForward(st, st);
    assert q[target][..0] == [];
  }

  lemma ServingNext(g: Graph, st0: Statuses, st: Statuses, st': Statuses, q0: seq<seq<Item>>, q: seq<seq<Item>>,
                    q': seq<seq<Item>>, target: nat, slots: nat, taken: seq<Item>, ok: bool)
    requires Serving(g, st0, st, q0, q, target, slots, taken) && q[target] != [] && |taken| < slots
    requires q[target][0] in g.jobs && (ok <==> MayRun(g, st, q[target][0])) && Forward(st, st')
    requires !Terminal(st, q[target][0])
    requires var popped := q[target := q[target][1..]];
      if ok then st' == st && q' == popped
      else
        && OnlyQueued(st[q[target][0] := Killed], st') && QueueGrew(popped, q', target + 1)
        && Rank(st', q[target][0]) < Rank(st, q[target][0])
    ensures |q'| == |q0| && |q'[target]| < |q[target]|
    ensures Serving(g, st0, st', q0, q', target, slots, if ok then taken + [q[target][0]] else taken)
  {
    hide Ready, MayRun, Forward, AllMayRun, QueueServed, QueueServedOnly, QueueGrew, OnlyQueued, Rank, Moved;
    hide ServedInOrder, Needed;
    var next := q[target][0];
    ForwardTransitive(st0, st, st');
    ServedStep(q0, q, q', target, ok);
    RunnableTail(g, st, st', q[target], ok);
    OrderNext(g, st0, st, q0[target], q[target], taken, ok);
    OrderLength(g, st0, q0[target], q[target], taken);
    NeededNext(g, st0, st, st', q0[target], q[target], taken, slots, ok);
    var more := if ok then taken + [next] else taken;
    MovedStep(st0, st, st', taken, more, q0[target][0], next, |q[target]| < |q0[target]|);
  }

  lemma OrderLength(g: Graph, st: Statuses, q0: seq<Item>, q: seq<Item>, taken: seq<Item>)
    requires ServedInOrder(g, st, q0, q, taken)
    ensures |q| <= |q0| && (|q| == |q0| ==> q == q0) && (q != [] ==> q[0] in q0)
  {}

  lemma RunnableTail(g: Graph, st: Statuses, st': Statuses, l: seq<Item>, ok: bool)
    requires l != [] && l[0] in g.jobs && (ok <==> MayRun(g, st, l[0])) && (ok ==> st' == st)
    ensures AllMayRun(g, st, l) ==> ok && AllMayRun(g, st', l[1..])
  {}

  lemma NeededNext(g: Graph, st0: Statuses, st: Statuses, st': Statuses, q0: seq<Item>, q: seq<Item>,
                   taken: seq<Item>, slots: nat, ok: bool)
    requires Needed(g, st0, st, q0, q, slots) && ServedInOrder(g, st0, q0, q, taken) && q != [] && |taken| < slots
    requires q[0] in g.jobs && (ok <==> MayRun(g, st, q[0]))
    requires if ok then st' == st else OnlyQueued(st[q[0] := Killed], st')
    requires !Terminal(st, q[0]) && q[0] in st0
    ensures Needed(g, st0, st', q0, q[1..], slots)
  {
    var n := |q0| - |q|;
    assert q0[..n + 1] == q0[..n] + [q[0]];
    hide MayRun, Picks, Culling;
    CullingNext(g, st0, st, st', q0[..n], q[0], ok);
  }

  lemma CullingNext(g: Graph, st0: Statuses, st: Statuses, st': Statuses, gone: seq<Item>, i: Item, ok: bool)
    requires Culling(g, st0, st, gone) && i in g.jobs && (ok <==> MayRun(g, st, i))
    requires if ok then st' == st else OnlyQueued(st[i := Killed], st')
    requires !Terminal(st, i) && i in st0
    ensures Culling(g, st0, st', gone + [i])
  {
    SameMayRun(g, st0, st, i);
    hide MayRun, Rank;
    if ok {
      assert st' == st;
    } else {
      KilledOnly(st, i, st');
    }
    hide OnlyQueued, Terminal;
  }

  lemma KilledOnly(st: Statuses, i: Item, st': Statuses)
    requires OnlyQueued(st[i := Killed], st') && !Terminal(st, i)
    ensures forall j :: Terminal(st', j) <==> Terminal(st, j) || j == i
    ensures SamePassed(st, st')
    ensures forall j :: j in st && j != i ==> j in st' && st'[j] == st[j]
    ensures forall j :: j in st' && j !in st && j != i ==> st'[j] == Queued
  {}

  /** A queue has been served. */
  lemma ServingEnds(g: Graph, st0: Statuses, st: Statuses, q0: seq<seq<Item>>, q: seq<seq<Item>>, target: nat,
                    slots: nat, taken: seq<Item>)
    requires Serving(g, st0, st, q0, q, target, slots, taken)
    requires |q[target]| < |q0[target]| && (q[target] == [] || |taken| == slots)
    ensures |q| == |q0| && Forward(st0, st) && QueueServed(q0, q, target) && Moved(st0, st, taken, q0[target][0])
    ensures ServedInOrder(g, st0, q0[target], q[target], taken)
    ensures AllMayRun(g, st0, q0[target]) ==> QueueServedOnly(q0, q, target)
    ensures var n := |q0[target]| - |q[target]|;
      Served(g, st0, q0[target], n, slots) && Culling(g, st0, st, q0[target][..n])
  {
    hide Culling, Picks, Forward, QueueServed, QueueServedOnly, AllMayRun, Ready;
  }

  /** Serving a queue is the first stage of a turn: only the next queue has grown. */
  lemma ServingCulls(g: Graph, st0: Statuses, st: Statuses, q0: seq<seq<Item>>, q: seq<seq<Item>>, target: nat,
                     slots: nat, taken: seq<Item>)
    requires Serving(g, st0, st, q0, q, target, slots, taken)
    requires Layers(g) && ListsOk(g, q0, st0, Queued, {}) && Sound(g, st, {})
      && ListsOk(g, q, st, Queued, ListSet(taken))
    ensures |q[target]| <= |q0[target]| && Culled(g, target, st0, st, q0[target][..|q0[target]| - |q[target]|])
  {
    hide Layers, ListsOk, Sound, Forward, QueueServed, QueueServedOnly, AllMayRun, Ready, ServedInOrder, Moved;
    hide Culling, Culled, Picks;
    var n := |q0[target]| - |q[target]|;
    forall i | i in st && i !in st0 ensures i in g.jobs && g.jobs[i].target == target + 1 {
      NewlyListed(g, st0, st, q0, q, target, slots, taken, i);
    }
    CullingEnds(g, target, st0, st, q0[target][..n]);
  }

  lemma CullingEnds(g: Graph, t: nat, st: Statuses, st': Statuses, gone: seq<Item>)
    requires Culling(g, st, st', gone) && Sound(g, st', {})
    requires forall i :: i in st' && i !in st ==> i in g.jobs && g.jobs[i].target == t + 1
    ensures Culled(g, t, st, st', gone)
  {
    hide MayRun, Sound, SamePassed;
  }

  lemma NewlyListed(g: Graph, st0: Statuses, st: Statuses, q0: seq<seq<Item>>, q: seq<seq<Item>>, target: nat,
                    slots: nat, taken: seq<Item>, i: Item)
    requires Serving(g, st0, st, q0, q, target, slots, taken) && i in st && i !in st0
    requires Layers(g) && ListsOk(g, q0, st0, Queued, {}) && Sound(g, st, {})
      && ListsOk(g, q, st, Queued, ListSet(taken))
    ensures i in g.jobs && g.jobs[i].target == target + 1
  {
    hide Layers, ListsOk, Sound, Forward, QueueServedOnly, AllMayRun, Ready, ServedInOrder, Moved, Culling, Picks;
    NewIsQueued(g, st0, st, q0[target][..|q0[target]| - |q[target]|], i);
    TakenWere(g, st0, q0[target], q[target], taken);
    SettledJob(g, st, i);
    var u := g.jobs[i].target;
    ListedAt(g, q0, st0, Queued, {}, u, i);
    ListedAt(g, q, st, Queued, ListSet(taken), u, i);
  }

  lemma NewIsQueued(g: Graph, st: Statuses, st': Statuses, gone: seq<Item>, i: Item)
    requires Culling(g, st, st', gone) && i in st' && i !in st
    ensures st'[i] == Queued
  {
    hide MayRun, SamePassed;
  }

  /** What was taken, and what is left, was in the queue. */
  lemma TakenWere(g: Graph, st: Statuses, q0: seq<Item>, q: seq<Item>, taken: seq<Item>)
    requires ServedInOrder(g, st, q0, q, taken)
    ensures forall x :: x in taken || x in q ==> x in q0
  {
    PicksAmong(g, st, q0[..|q0| - |q|]);
    hide Picks;
  }

  lemma SettledJob(g: Graph, st: Statuses, i: Item)
    requires Layers(g) && Sound(g, st, {}) && i in st
    ensures i in g.jobs && g.jobs[i].target < g.targets
  {
    hide HasDependency, Ready;
  }

  lemma ListedAt(g: Graph, lists: seq<seq<Item>>, st: Statuses, v: Status, except: set<Item>, t: nat, i: Item)
    requires ListsOk(g, lists, st, v, except) && t < g.targets
    ensures |lists| == g.targets && (i in lists[t] <==> Belongs(g, st, v, except, t, i))
  {
    hide Belongs;
  }

  lemma {:induction false} PicksAmong(g: Graph, st: Statuses, l: seq<Item>)
    ensures forall i :: i in Picks(g, st, l) ==> i in l
  {
    hide MayRun;
    if l != [] { PicksAmong(g, st, l[..|l| - 1]); }
  }

  /** Those of the launched items that are running: all but the ones whose launch fails. */
  function Working(l: seq<Item>, broken: set<Item>): nat
  {
    if l == [] then 0 else Working(l[..|l| - 1], broken) + if l[|l| - 1] in broken then 0 else 1
  }

  lemma {:induction false} WorkingConcat(a: seq<Item>, b: seq<Item>, broken: set<Item>)
    ensures Working(a + b, broken) == Working(a, broken) + Working(b, broken)
  {
    if b == [] {
      assert a + b == a;
    } else {
      var n := |b| - 1;
      assert (a + b)[..|a + b| - 1] == a + b[..n];
      WorkingConcat(a, b[..n], broken);
    }
  }

  lemma {:induction false} WorkingAll(l: seq<Item>, broken: set<Item>)
    ensures Working(l, broken) <= |l|
    ensures Unbroken(l, broken) ==> Working(l, broken) == |l|
  {
    if l != [] { WorkingAll(l[..|l| - 1], broken); }
  }

  /** The running lists have grown by as many items as were launched without failing. */
  ghost predicate RunningGrew(lists: seq<seq<Item>>, lists': seq<seq<Item>>, more: seq<Item>, broken: set<Item>)
  {
    && |lists'| == |lists| && (forall t :: 0 <= t < |lists| ==> lists[t] <= lists'[t])
    && TotalLength(lists') == TotalLength(lists) + Working(more, broken)
  }

  lemma NoneGrew(lists: seq<seq<Item>>, broken: set<Item>)
    ensures RunningGrew(lists, lists, [], broken)
  {}

  lemma GrewByOne(lists: seq<seq<Item>>, a: seq<seq<Item>>, b: seq<seq<Item>>, t: nat, l: seq<Item>, n: nat,
                  broken: set<Item>)
    requires n < |l| && t < |a| && RunningGrew(lists, a, l[..n], broken)
    requires b == if l[n] in broken then a else Append(a, t, l[n])
    ensures RunningGrew(lists, b, l[..n + 1], broken)
  {
    assert l[..n + 1][..n] == l[..n];
    hide TotalLength;
    TotalLengthUpdate(a, t, a[t] + [l[n]]);
  }

  lemma GrewTwice(lists: seq<seq<Item>>, a: seq<seq<Item>>, b: seq<seq<Item>>, more: seq<Item>, taken: seq<Item>,
                  broken: set<Item>)
    requires RunningGrew(lists, a, more, broken) && RunningGrew(a, b, taken, broken)
    ensures RunningGrew(lists, b, more + taken, broken)
  {
    hide TotalLength, Working;
    WorkingConcat(more, taken, broken);
  }

  lemma LaunchedNone(g: Graph, st: Statuses, broken: set<Item>)
    requires Sound(g, st, {})
    ensures LaunchedAll(g, st, st, [], broken)
  {
    hide Sound;
  }

  lemma LaunchedMore(g: Graph, st0: Statuses, st: Statuses, st': Statuses, l: seq<Item>, a: nat, broken: set<Item>)
    requires a < |l| && Distinct(l) && l[a] in st && st[l[a]] == Queued && Sound(g, st', {})
    requires LaunchedAll(g, st0, st, l[..a], broken)
    requires OnlyKilled(st[l[a] := if l[a] in broken then Killed else Dispatched], st')
    ensures LaunchedAll(g, st0, st', l[..a + 1], broken)
  {
    hide Sound;
    assert l[..a + 1] == l[..a] + [l[a]] && l[a] !in l[..a];
    assert l[a] in st0 && st0[l[a]] == Queued;
    hide Distinct;
  }

  lemma MovedStep(st0: Statuses, st: Statuses, st': Statuses, l: seq<Item>, l': seq<Item>, head: Item, next: Item,
                  popped: bool)
    requires Forward(st, st') && (l' == l || l' == l + [next])
    requires l' == l ==> Rank(st', next) < Rank(st, next)
    requires if popped then Moved(st0, st, l, head) else st == st0 && next == head
    ensures Moved(st0, st', l', head)
  {}

  lemma ServedNone(q: seq<seq<Item>>, target: nat)
    requires target < |q|
    ensures QueueServed(q, q, target) && QueueServedOnly(q, q, target)
  {}

  lemma ServedStep(q0: seq<seq<Item>>, q: seq<seq<Item>>, q': seq<seq<Item>>, target: nat, ok: bool)
    requires |q| == |q0| && target < |q0| && QueueServed(q0, q, target) && q[target] != []
    requires var popped := q[target := q[target][1..]]; if ok then q' == popped else QueueGrew(popped, q', target + 1)
    ensures |q'| == |q0| && QueueServed(q0, q', target) && q'[target] == q[target][1..]
    ensures ok && QueueServedOnly(q0, q, target) ==> QueueServedOnly(q0, q', target)
  {}

  /** No queue but that of `target` changed. */
  ghost predicate QueueServedOnly(queued: seq<seq<Item>>, queued': seq<seq<Item>>, target: nat)
  {
    && |queued'| == |queued|
    && (forall t :: 0 <= t < |queued| && t != target ==> queued'[t] == queued[t])
  }

  lemma Snoc(l: seq<Item>, i: Item)
    requires Distinct(l) && i !in ListSet(l)
    ensures Distinct(l + [i]) && ListSet(l + [i]) == ListSet(l) + {i}
  {}

  lemma CancelledForward(st: Statuses, i: Item, st': Statuses)
    requires i in st && st[i] == Queued && OnlyQueued(st[i := Killed], st')
    ensures Forward(st, st') && Rank(st', i) < Rank(st, i)
  {}

  /** The queue of `target` was served from the front, the next one may have grown. */
  ghost predicate QueueServed(queued: seq<seq<Item>>, queued': seq<seq<Item>>, target: nat)
  {
    && |queued'| == |queued|
    && (forall t :: 0 <= t < |queued| && t != target && t != target + 1 ==> queued'[t] == queued[t])
    && (target + 1 < |queued| ==> queued[target + 1] <= queued'[target + 1])
  }

  function Min(a: nat, b: nat): nat
  {
    if a < b then a else b
  }

  /** Steps from `last` around the circle of n targets until w comes up. */
  function Distance(w: nat, last: int, n: nat): nat
  {
    if w > last then if last >= -1 then w - last else 0
    else if last < n then w - last + n
    else 0
  }

  lemma ShrinksSelf(p: map<Item, nat>)
    ensures Shrinks(p, p)
  {}

  lemma ShrinksTransitive(a: map<Item, nat>, b: map<Item, nat>, c: map<Item, nat>)
    requires Shrinks(a, b) && Shrinks(b, c)
    ensures Shrinks(a, c)
  {}

  lemma ShorterByOne(l: seq<Item>, n: nat)
    requires n < |l|
    ensures |RemoveAt(l, n)| == |l| - 1
  {}

  lemma FinishedForward(st: Statuses, i: Item, v: Status, st': Statuses)
    requires i in st && st[i] == Dispatched && Final(v) && OnlyQueued(st[i := v], st')
    ensures Forward(st, st') && Rank(st', i) < Rank(st, i)
  {}

  /** Nothing is dispatched that was not before. */
  ghost predicate NoneStarted(st: Statuses, st': Statuses)
  {
    forall i :: i in st' && st'[i] == Dispatched ==> i in st && st[i] == Dispatched
  }

  lemma StartsNone(st: Statuses)
    ensures NoneStarted(st, st)
  {}

  lemma AnswerKept(g: Graph, st: Statuses, st': Statuses, launches: seq<Item>, answers: Statuses, broken: set<Item>,
                   i: Item, v: Status)
    requires Accounted(g, st, launches, answers, broken) && Sound(g, st, {}) && Launched(g, st, launches)
    requires i in st && st[i] == Dispatched && Final(v) && OnlyQueued(st[i := v], st')
    ensures Accounted(g, st', launches, answers[i := v], broken)
  {
    hide Accounted, Sound, Launched;
    FinishedForward(st, i, v, st');
    AnswerAccounted(g, st, st', launches, answers, broken, i, v);
  }

  lemma FinishedStartsNone(st: Statuses, i: Item, v: Status, st': Statuses)
    requires Final(v) && OnlyQueued(st[i := v], st')
    ensures NoneStarted(st, st')
  {}

  /** The polls from the n-th on were of items that were dispatched. */
  ghost predicate PolledRunning(st: Statuses, polls: seq<Answer>, n: nat)
  {
    forall x :: n <= x < |polls| ==> polls[x].item in st && st[polls[x].item] == Dispatched
  }

  lemma PolledNobody(st: Statuses, polls: seq<Answer>)
    ensures PolledRunning(st, polls, |polls|)
  {}

  lemma PolledOne(st: Statuses, polls: seq<Answer>, n: nat)
    requires |polls| == n + 1 && polls[n].item in st && st[polls[n].item] == Dispatched
    ensures PolledRunning(st, polls, n)
  {}

  lemma PolledMore(st0: Statuses, st: Statuses, st': Statuses, n: nat, polls: seq<Answer>, polls': seq<Answer>)
    requires polls <= polls' && n <= |polls| && PolledRunning(st0, polls, n) && PolledRunning(st, polls', |polls|)
    requires NoneStarted(st0, st) && NoneStarted(st, st')
    ensures PolledRunning(st0, polls', n) && NoneStarted(st0, st')
  {}

  // ----- the rotation of the targets ---------------------------------------------------------

  /** Some item of target w was polled after the first n polls. */
  predicate PolledAt(g: Graph, polls: seq<Answer>, n: nat, w: nat)
  {
    exists x :: n <= x < |polls| && polls[x].item in g.jobs && g.jobs[polls[x].item].target == w
  }

  lemma PolledAtNow(g: Graph, polls: seq<Answer>, n: nat, w: nat)
    requires n < |polls|
    ensures var i := polls[|polls| - 1].item; i in g.jobs && g.jobs[i].target == w ==> PolledAt(g, polls, n, w)
  {}

  ghost predicate OtherTargetsSame(lists: seq<seq<Item>>, lists': seq<seq<Item>>, target: nat)
  {
    |lists'| == |lists| && forall w :: 0 <= w < |lists| && w != target ==> lists'[w] == lists[w]
  }

  /** Every target with running items was polled after the first n polls, or has kept them and its turn has
      come nearer. */
  ghost predicate Nearer(g: Graph, was: seq<seq<Item>>, last: int, running: seq<seq<Item>>, last': int,
                         polls: seq<Answer>, n: nat)
  {
    && |running| == |was|
    && forall w :: 0 <= w < |was| && was[w] != [] ==>
        || PolledAt(g, polls, n, w)
        || (was[w] <= running[w] && Distance(w, last', g.targets) < Distance(w, last, g.targets))
  }

  lemma NobodyRunning(g: Graph, running: seq<seq<Item>>, last: int, polls: seq<Answer>)
    ensures TotalLength(running) == 0 ==> Nearer(g, running, last, running, last, polls, |polls|)
  {
    if TotalLength(running) == 0 { TotalLengthZero(running); }
    hide TotalLength, PolledAt, Distance;
  }

  /** Dispatching takes nothing off the running lists. */
  lemma NearerKept(g: Graph, r0: seq<seq<Item>>, last0: int, r: seq<seq<Item>>, last: int, r': seq<seq<Item>>,
                   polls: seq<Answer>, n: nat, more: seq<Item>, broken: set<Item>)
    requires Nearer(g, r0, last0, r, last, polls, n) && RunningGrew(r, r', more, broken)
    ensures Nearer(g, r0, last0, r', last, polls, n)
  {
    hide PolledAt, Distance, TotalLength;
  }

  /** One turn more in the same call. */
  lemma NearerNext(g: Graph, r0: seq<seq<Item>>, last0: int, r: seq<seq<Item>>, last: int, r': seq<seq<Item>>,
                   target: int, polls: seq<Answer>, polls': seq<Answer>, n: nat, began: bool)
    requires if began then Nearer(g, r0, last0, r, last, polls, n) else r == r0 && last == last0
    requires 0 <= target < |r| && n <= |polls| && polls <= polls' && OtherTargetsSame(r, r', target)
    requires forall w :: 0 <= w < |r| && w != target ==> Distance(w, target, g.targets) < Distance(w, last, g.targets)
    requires r[target] != [] ==> PolledAt(g, polls', |polls|, target)
    ensures Nearer(g, r0, last0, r', target, polls', n)
  {
    hide Distance;
    forall w | 0 <= w < |r0| && r0[w] != []
      ensures PolledAt(g, polls', n, w)
        || (r0[w] <= r'[w] && Distance(w, target, g.targets) < Distance(w, last0, g.targets))
    {
      PolledAtKept(g, polls, polls', n, w);
      if w == target && r[target] != [] { PolledAtEarlier(g, polls', n, |polls|, w); }
      hide PolledAt;
    }
    hide PolledAt;
  }

  /** What polling depends on between two rounds of the main loop, and how many polls there were so far. */
  datatype View = View(running: seq<seq<Item>>, last: int, polled: nat)

  /** Two rounds one after the other, as `Round` promises them. */
  ghost predicate NextRound(g: Graph, polls: seq<Answer>, a: View, b: View)
  {
    && a.polled <= b.polled <= |polls| && |a.running| == |b.running| == g.targets
    && -1 <= a.last < g.targets && -1 <= b.last < g.targets
    && Nearer(g, a.running, a.last, b.running, b.last, polls[..b.polled], a.polled)
  }

  ghost predicate Rounds(g: Graph, polls: seq<Answer>, views: seq<View>)
  {
    forall r, r' :: 0 <= r && r' == r + 1 && r' < |views| ==> NextRound(g, polls, views[r], views[r'])
  }

  /** Until it is polled, a target with running items comes one step nearer in every round. */
  lemma {:induction false} StepsNearer(g: Graph, polls: seq<Answer>, views: seq<View>, w: nat)
    requires |views| >= 2 && Rounds(g, polls, views) && w < |views[0].running| && views[0].running[w] != []
    ensures var n := |views| - 1;
      && |views[n].running| == g.targets && views[n].polled <= |polls| && -1 <= views[n].last < g.targets
      && (|| PolledAt(g, polls[..views[n].polled], views[0].polled, w)
          || (w < g.targets && views[n].running[w] != []
              && Distance(w, views[n].last, g.targets) + n <= Distance(w, views[0].last, g.targets)))
    decreases |views|
  {
    hide PolledAt, Distance;
    var n := |views| - 1;
    assert NextRound(g, polls, views[n - 1], views[n]) && NextRound(g, polls, views[0], views[1]);
    if n > 1 {
      var earlier := views[..n];
      assert forall r :: 0 <= r < n ==> earlier[r] == views[r];
      StepsNearer(g, polls, earlier, w);
      PolledAtKept(g, polls[..views[n - 1].polled], polls[..views[n].polled], views[0].polled, w);
      if PolledAt(g, polls[..views[n].polled], views[n - 1].polled, w) {
        PolledLonger(g, polls, views);
        PolledAtEarlier(g, polls[..views[n].polled], views[0].polled, views[n - 1].polled, w);
      }
    }
  }

  lemma {:induction false} PolledLonger(g: Graph, polls: seq<Answer>, views: seq<View>)
    requires |views| >= 2 && Rounds(g, polls, views)
    ensures views[0].polled <= views[|views| - 2].polled
    decreases |views|
  {
    hide Nearer;
    var n := |views| - 1;
    if n > 1 {
      assert NextRound(g, polls, views[n - 2], views[n - 1]);
      assert forall r :: 0 <= r < n ==> views[..n][r] == views[r];
      PolledLonger(g, polls, views[..n]);
    }
  }

  /** No target starves: one with running items is polled within as many rounds as there are targets. */
  lemma PolledWithin(g: Graph, polls: seq<Answer>, views: seq<View>, w: nat)
    requires |views| == g.targets + 1 && Rounds(g, polls, views)
    requires w < |views[0].running| == g.targets && views[0].running[w] != []
    ensures PolledAt(g, polls, views[0].polled, w)
  {
    StepsNearer(g, polls, views, w);
    assert NextRound(g, polls, views[0], views[1]);
    hide Rounds, NextRound, PolledAt;
    var n := |views| - 1;
    PolledAtKept(g, polls[..views[n].polled], polls, views[0].polled, w);
  }

  lemma PolledAtKept(g: Graph, polls: seq<Answer>, polls': seq<Answer>, n: nat, w: nat)
    requires polls <= polls'
    ensures PolledAt(g, polls, n, w) ==> PolledAt(g, polls', n, w)
  {
    if PolledAt(g, polls, n, w) {
      var x :| n <= x < |polls| && polls[x].item in g.jobs && g.jobs[polls[x].item].target == w;
      assert polls'[x] == polls[x];
    }
  }

  lemma PolledAtEarlier(g: Graph, polls: seq<Answer>, n: nat, m: nat, w: nat)
    requires n <= m && PolledAt(g, polls, m, w)
    ensures PolledAt(g, polls, n, w)
  {}

  /** Some items without a status were killed, and nothing else changed. */
  ghost predicate OnlyKilled(st: Statuses, st': Statuses)
  {
    && (forall j :: j in st ==> j in st' && st'[j] == st[j])
    && (forall j :: j in st' && j !in st ==> st'[j] == Killed)
  }

  lemma FreedIsNew(g: Graph, st: Statuses, i: Item, pending: set<Item>)
    requires forall j :: Dep(g, j, i) ==> j !in pending
    ensures Freed(g, st, i) !! pending
  {}

  lemma LastLeft(l: seq<Item>)
    requires Distinct(l) && |l| > 0
    ensures var n := |l| - 1; l[n] in ListSet(l) && ListSet(l) - {l[n]} == ListSet(l[..n])
  {
    var n := |l| - 1;
    assert l == l[..n] + [l[n]];
    assert l[n] !in l[..n];
  }

  /** Some items without a status became queued, and nothing else changed. */
  ghost predicate OnlyQueued(st: Statuses, st': Statuses)
  {
    && (forall j :: j in st ==> j in st' && st'[j] == st[j])
    && (forall j :: j in st' && j !in st ==> st'[j] == Queued)
  }

  /** Items were appended to the queue of one target, and nothing else changed. */
  ghost predicate QueueGrew(queued: seq<seq<Item>>, queued': seq<seq<Item>>, target: nat)
  {
    && |queued'| == |queued|
    && (forall t :: 0 <= t < |queued| && t != target ==> queued'[t] == queued[t])
    && (forall t :: 0 <= t < |queued| ==> queued[t] <= queued'[t])
  }

  lemma EmptyListSet(l: seq<Item>)
    requires |l| == 0
    ensures ListSet(l) == {}
  {}

  lemma KeptIsForward(st: Statuses, st': Statuses)
    requires forall j :: j in st ==> j in st' && st'[j] == st[j]
    ensures Forward(st, st')
  {}

  lemma NextLeft(l: seq<Item>, a: nat)
    requires Distinct(l) && a < |l|
    ensures l[a] in ListSet(l[a..]) && ListSet(l[a..]) - {l[a]} == ListSet(l[a + 1..])
  {
    assert l[a..] == [l[a]] + l[a + 1..];
    assert l[a] !in l[a + 1..];
  }
}
