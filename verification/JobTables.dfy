/** The scheduler's tables of items by state, and what moving one item between them keeps. */
module JobTables {
  import opened Basics
  import opened JobGraph

  datatype Key = Key(target: nat, cfg: Cfg)

  type Schedule = map<Key, seq<Item>>

  function KeyOf(g: Graph, i: Item): Key
    requires i in g.jobs
  {
    Key(g.jobs[i].target, g.jobs[i].cfg)
  }

  // ----- lists -------------------------------------------------------------------------------

  function RemoveAt<T>(l: seq<T>, n: nat): (r: seq<T>)
    requires n < |l|
    ensures |r| == |l| - 1 && forall a :: 0 <= a < |r| ==> r[a] == l[if a < n then a else a + 1]
  {
    l[..n] + l[n + 1..]
  }

  function IndexOf<T(==)>(l: seq<T>, x: T): (n: nat)
    requires x in l
    ensures n < |l| && l[n] == x && x !in l[..n]
  {
    if l[0] == x then 0 else 1 + IndexOf(l[1..], x)
  }

  /** `list.remove`, ignoring an absent element. */
  function Remove<T(==)>(l: seq<T>, x: T): seq<T>
  {
    if x in l then RemoveAt(l, IndexOf(l, x)) else l
  }

  lemma RemoveAtMembers<T>(l: seq<T>, n: nat)
    requires Distinct(l) && n < |l|
    ensures Distinct(RemoveAt(l, n)) && forall x :: x in RemoveAt(l, n) <==> x in l && x != l[n]
  {
    var r := RemoveAt(l, n);
    forall x | x in l && x != l[n] ensures x in r {
      var a :| 0 <= a < |l| && l[a] == x;
      assert r[if a < n then a else a - 1] == x;
    }
    assert forall a :: 0 <= a < |r| ==> r[a] == l[if a < n then a else a + 1];
  }

  lemma RemoveMembers<T>(l: seq<T>, x: T)
    requires Distinct(l)
    ensures Distinct(Remove(l, x)) && forall y :: y in Remove(l, x) <==> y in l && y != x
  {
    if x in l { RemoveAtMembers(l, IndexOf(l, x)); }
  }

  // ----- items filed by status ---------------------------------------------------------------

  predicate Belongs(g: Graph, st: Statuses, v: Status, except: set<Item>, t: nat, i: Item)
  {
    i in g.jobs && g.jobs[i].target == t && i in st && st[i] == v && i !in except
  }

  /** Per target, the list holds each item of status v once, except for those in `except`. */
  ghost predicate ListsOk(g: Graph, lists: seq<seq<Item>>, st: Statuses, v: Status, except: set<Item>)
  {
    && |lists| == g.targets
    && (forall t :: 0 <= t < |lists| ==> Distinct(lists[t]))
    && (forall t, i :: 0 <= t < |lists| ==> (i in lists[t] <==> Belongs(g, st, v, except, t, i)))
  }

  ghost predicate SetsOk(g: Graph, sets: seq<set<Item>>, st: Statuses, v: Status)
  {
    && |sets| == g.targets
    && (forall t, i :: 0 <= t < |sets| ==> (i in sets[t] <==> Belongs(g, st, v, {}, t, i)))
  }

  /** The nested dictionary holds exactly the items without a status, under their own target and
      configuration, and drops a configuration whose list becomes empty. */
  ghost predicate ScheduleOk(g: Graph, sched: Schedule, st: Statuses)
  {
    && (forall k :: k in sched ==> sched[k] != [] && Distinct(sched[k]))
    && (forall k, i :: k in sched && i in sched[k] ==> i in g.jobs && KeyOf(g, i) == k)
    && (forall i :: i in g.jobs ==> (i !in st <==> Waiting(g, sched, i)))
  }

  predicate Waiting(g: Graph, sched: Schedule, i: Item)
    requires i in g.jobs
  {
    KeyOf(g, i) in sched && i in sched[KeyOf(g, i)]
  }

  /** The exact condition under which looking up a target and configuration finds a list: some item
      of theirs has no status yet. */
  lemma KeyPresentIff(g: Graph, sched: Schedule, st: Statuses, k: Key)
    requires ScheduleOk(g, sched, st)
    ensures k in sched <==> exists i :: i in g.jobs && KeyOf(g, i) == k && i !in st
  {
    if k in sched {
      var i := sched[k][0];
      assert i in g.jobs && Waiting(g, sched, i);
    }
  }

  /** Looking up a key finds items without a status, each once. */
  lemma KeyMembers(g: Graph, sched: Schedule, st: Statuses, k: Key)
    requires ScheduleOk(g, sched, st) && k in sched
    ensures Distinct(sched[k]) && forall j :: j in sched[k] ==> j in g.jobs && j !in st
  {
    forall j | j in sched[k] ensures j in g.jobs && j !in st { assert Waiting(g, sched, j); }
  }

  lemma DependantKeys(g: Graph, i: Item)
    requires Layers(g) && i in g.jobs
    ensures g.jobs[i].target < g.targets
    ensures forall j :: Dep(g, j, i) ==>
      g.jobs[i].target + 1 < g.targets && KeyOf(g, j) == Key(g.jobs[i].target + 1, g.jobs[i].cfg)
  {
    hide HasDependency;
  }

  lemma ScheduledIsListed(g: Graph, sched: Schedule, st: Statuses, i: Item)
    requires ScheduleOk(g, sched, st) && i in g.jobs && i !in st
    ensures KeyOf(g, i) in sched && i in sched[KeyOf(g, i)]
  {
    assert Waiting(g, sched, i);
  }

  /** Every dependant of an item that has just finished is still scheduled, next target, same cfg; so
      the lookup of that list succeeds if there is one. */
  lemma DependantsListed(g: Graph, sched: Schedule, st: Statuses, i: Item)
    requires Layers(g) && ScheduleOk(g, sched, st) && i in g.jobs
    requires forall j :: Dep(g, j, i) ==> j !in st
    ensures g.jobs[i].target < g.targets
    ensures var key := Key(g.jobs[i].target + 1, g.jobs[i].cfg);
      && (forall j :: Dep(g, j, i) ==> key.target < g.targets && key in sched && j in sched[key])
      && (key in sched ==> Distinct(sched[key]) && forall j :: j in sched[key] ==> j in g.jobs && j !in st)
  {
    DependantKeys(g, i);
    hide Layers, ScheduleOk, Distinct;
    forall j | Dep(g, j, i) ensures KeyOf(g, j) in sched && j in sched[KeyOf(g, j)] {
      ScheduledIsListed(g, sched, st, j);
    }
    var key := Key(g.jobs[i].target + 1, g.jobs[i].cfg);
    if key in sched { KeyMembers(g, sched, st, key); }
  }

  lemma ListsKeep(g: Graph, lists: seq<seq<Item>>, st: Statuses, v: Status, except: set<Item>, i: Item, v': Status)
    requires ListsOk(g, lists, st, v, except)
    requires i in except || (v' != v && (i in st ==> st[i] != v))
    ensures ListsOk(g, lists, st[i := v'], v, except)
  {}

  lemma ListsAdd(g: Graph, lists: seq<seq<Item>>, st: Statuses, v: Status, except: set<Item>, i: Item)
    requires ListsOk(g, lists, st, v, except) && i in g.jobs && g.jobs[i].target < g.targets
    requires i !in except && (i in st ==> st[i] != v)
    ensures var t := g.jobs[i].target; ListsOk(g, lists[t := lists[t] + [i]], st[i := v], v, except)
  {
    var t := g.jobs[i].target;
    assert i !in lists[t];
  }

  lemma ListsDrop(g: Graph, lists: seq<seq<Item>>, st: Statuses, v: Status, except: set<Item>, t: nat, n: nat,
                  v': Status)
    requires ListsOk(g, lists, st, v, except) && t < |lists| && n < |lists[t]| && v' != v
    ensures ListsOk(g, lists[t := RemoveAt(lists[t], n)], st[lists[t][n] := v'], v, except)
  {
    RemoveAtMembers(lists[t], n);
    assert Belongs(g, st, v, except, t, lists[t][n]);
  }

  /** Taking an item out of its list without changing its status. */
  lemma ListsHold(g: Graph, lists: seq<seq<Item>>, st: Statuses, v: Status, except: set<Item>, t: nat, n: nat)
    requires ListsOk(g, lists, st, v, except) && t < |lists| && n < |lists[t]|
    ensures ListsOk(g, lists[t := RemoveAt(lists[t], n)], st, v, except + {lists[t][n]})
  {
    RemoveAtMembers(lists[t], n);
    assert Belongs(g, st, v, except, t, lists[t][n]);
  }

  lemma ListsRelease(g: Graph, lists: seq<seq<Item>>, st: Statuses, v: Status, except: set<Item>, i: Item)
    requires ListsOk(g, lists, st, v, except) && (i in st ==> st[i] != v)
    ensures ListsOk(g, lists, st, v, except - {i})
  {}

  lemma SetsKeep(g: Graph, sets: seq<set<Item>>, st: Statuses, v: Status, i: Item, v': Status)
    requires SetsOk(g, sets, st, v) && v' != v && (i in st ==> st[i] != v)
    ensures SetsOk(g, sets, st[i := v'], v)
  {}

  lemma SetsAdd(g: Graph, sets: seq<set<Item>>, st: Statuses, v: Status, i: Item)
    requires SetsOk(g, sets, st, v) && i in g.jobs && g.jobs[i].target < g.targets
    ensures var t := g.jobs[i].target; SetsOk(g, sets[t := sets[t] + {i}], st[i := v], v)
  {}

  /** `_remove_from_scheduled` */
  function Unschedule(sched: Schedule, k: Key, i: Item): Schedule
  {
    if k !in sched then sched
    else
      var l := Remove(sched[k], i);
      if l == [] then sched - {k} else sched[k := l]
  }

  lemma ScheduleKeep(g: Graph, sched: Schedule, st: Statuses, i: Item, v: Status)
    requires ScheduleOk(g, sched, st) && i in st
    ensures ScheduleOk(g, sched, st[i := v])
  {}

  lemma ScheduleDrop(g: Graph, sched: Schedule, st: Statuses, i: Item, v: Status)
    requires ScheduleOk(g, sched, st) && i in g.jobs
    ensures ScheduleOk(g, Unschedule(sched, KeyOf(g, i), i), st[i := v])
  {
    var k := KeyOf(g, i);
    if k in sched {
      var l, sched' := Remove(sched[k], i), Unschedule(sched, k, i);
      RemoveMembers(sched[k], i);
      forall j | j in g.jobs ensures j !in st[i := v] <==> Waiting(g, sched', j) {
        if KeyOf(g, j) == k { assert j in l <==> j in sched[k] && j != i; }
      }
    }
  }

  /** Removing an item that is not listed changes nothing. */
  lemma UnscheduleAbsent(g: Graph, sched: Schedule, st: Statuses, i: Item)
    requires ScheduleOk(g, sched, st) && i in g.jobs && i in st
    ensures Unschedule(sched, KeyOf(g, i), i) == sched
  {
    assert !Waiting(g, sched, i);
  }

  // ----- all tables --------------------------------------------------------------------------

  datatype Tables = Tables(scheduled: Schedule, queued: seq<seq<Item>>, running: seq<seq<Item>>,
                           passed: seq<set<Item>>, failed: seq<set<Item>>, killed: seq<set<Item>>)

  /** Every item is in exactly the table its status names; `held` are the queued items that a
      dispatch pass has taken off their queue and not launched yet. */
  ghost predicate TablesOk(g: Graph, T: Tables, st: Statuses, held: set<Item>)
  {
    && ScheduleOk(g, T.scheduled, st)
    && ListsOk(g, T.queued, st, Queued, held)
    && ListsOk(g, T.running, st, Dispatched, {})
    && SetsOk(g, T.passed, st, Passed)
    && SetsOk(g, T.failed, st, Failed)
    && SetsOk(g, T.killed, st, Killed)
    && (forall i :: i in held ==> i in g.jobs && i in st && st[i] == Queued)
  }

  lemma InitialTables(g: Graph, T: Tables)
    requires ScheduleOk(g, T.scheduled, map[])
    requires |T.queued| == |T.running| == |T.passed| == |T.failed| == |T.killed| == g.targets
    requires forall t :: 0 <= t < g.targets ==> T.queued[t] == [] && T.running[t] == []
    requires forall t :: 0 <= t < g.targets ==> T.passed[t] == {} && T.failed[t] == {} && T.killed[t] == {}
    ensures TablesOk(g, T, map[], {})
  {
    hide ScheduleOk;
  }

  function Append(lists: seq<seq<Item>>, t: nat, i: Item): seq<seq<Item>>
    requires t < |lists|
  {
    lists[t := lists[t] + [i]]
  }

  function Take(lists: seq<seq<Item>>, t: nat, n: nat): seq<seq<Item>>
    requires t < |lists| && n < |lists[t]|
  {
    lists[t := RemoveAt(lists[t], n)]
  }

  function File(sets: seq<set<Item>>, t: nat, i: Item): seq<set<Item>>
    requires t < |sets|
  {
    sets[t := sets[t] + {i}]
  }

  /** Scheduled to queued. */
  lemma EnqueueTables(g: Graph, T: Tables, st: Statuses, held: set<Item>, i: Item)
    requires TablesOk(g, T, st, held) && i in g.jobs && i !in st && g.jobs[i].target < g.targets
    ensures TablesOk(g, T.(scheduled := Unschedule(T.scheduled, KeyOf(g, i), i),
                           queued := Append(T.queued, g.jobs[i].target, i)), st[i := Queued], held)
  {
    hide ListsOk, SetsOk, ScheduleOk, Unschedule, KeyOf;
    QueueSize(g, T, st, held);
    ScheduleDrop(g, T.scheduled, st, i, Queued);
    ListsAdd(g, T.queued, st, Queued, held, i);
    ListsKeep(g, T.running, st, Dispatched, {}, i, Queued);
    SetsKeep(g, T.passed, st, Passed, i, Queued);
    SetsKeep(g, T.failed, st, Failed, i, Queued);
    SetsKeep(g, T.killed, st, Killed, i, Queued);
  }

  lemma QueueSize(g: Graph, T: Tables, st: Statuses, held: set<Item>)
    requires TablesOk(g, T, st, held)
    ensures |T.queued| == |T.running| == |T.passed| == |T.failed| == |T.killed| == g.targets
  {}

  /** Scheduled to killed. */
  lemma CancelScheduledTables(g: Graph, T: Tables, st: Statuses, held: set<Item>, i: Item)
    requires TablesOk(g, T, st, held) && i in g.jobs && i !in st && g.jobs[i].target < g.targets
    ensures TablesOk(g, T.(scheduled := Unschedule(T.scheduled, KeyOf(g, i), i),
                           killed := File(T.killed, g.jobs[i].target, i)), st[i := Killed], held)
  {
    hide ListsOk, SetsOk, ScheduleOk, Unschedule, KeyOf;
    QueueSize(g, T, st, held);
    ScheduleDrop(g, T.scheduled, st, i, Killed);
    ListsKeep(g, T.queued, st, Queued, held, i, Killed);
    ListsKeep(g, T.running, st, Dispatched, {}, i, Killed);
    SetsKeep(g, T.passed, st, Passed, i, Killed);
    SetsKeep(g, T.failed, st, Failed, i, Killed);
    SetsAdd(g, T.killed, st, Killed, i);
  }

  /** Queued to killed. */
  lemma CancelQueuedTables(g: Graph, T: Tables, st: Statuses, held: set<Item>, t: nat, n: nat)
    requires TablesOk(g, T, st, held) && t < |T.queued| && n < |T.queued[t]|
    ensures var i := T.queued[t][n];
      t < |T.killed| && Belongs(g, st, Queued, held, t, i) &&
      TablesOk(g, T.(queued := Take(T.queued, t, n), killed := File(T.killed, t, i)), st[i := Killed], held)
  {
    var i := T.queued[t][n];
    QueueSize(g, T, st, held);
    assert Belongs(g, st, Queued, held, t, i);
    hide ListsOk, SetsOk, ScheduleOk;
    ScheduleKeep(g, T.scheduled, st, i, Killed);
    ListsDrop(g, T.queued, st, Queued, held, t, n, Killed);
    ListsKeep(g, T.running, st, Dispatched, {}, i, Killed);
    SetsKeep(g, T.passed, st, Passed, i, Killed);
    SetsKeep(g, T.failed, st, Failed, i, Killed);
    SetsAdd(g, T.killed, st, Killed, i);
  }

  /** Held by a dispatch pass to killed. */
  lemma CancelHeldTables(g: Graph, T: Tables, st: Statuses, held: set<Item>, i: Item)
    requires TablesOk(g, T, st, held) && i in held && g.jobs[i].target < g.targets
    ensures |T.killed| == g.targets
    ensures TablesOk(g, T.(killed := File(T.killed, g.jobs[i].target, i)), st[i := Killed], held - {i})
  {
    hide ListsOk, SetsOk, ScheduleOk;
    QueueSize(g, T, st, held);
    ScheduleKeep(g, T.scheduled, st, i, Killed);
    ListsKeep(g, T.queued, st, Queued, held, i, Killed);
    ListsRelease(g, T.queued, st[i := Killed], Queued, held, i);
    ListsKeep(g, T.running, st, Dispatched, {}, i, Killed);
    SetsKeep(g, T.passed, st, Passed, i, Killed);
    SetsKeep(g, T.failed, st, Failed, i, Killed);
    SetsAdd(g, T.killed, st, Killed, i);
  }

  /** `_cancel_item` without successors. */
  function CancelIn(g: Graph, T: Tables, i: Item): Tables
    requires i in g.jobs && g.jobs[i].target < |T.queued| && g.jobs[i].target < |T.killed|
  {
    var t := g.jobs[i].target;
    var filed := T.(killed := File(T.killed, t, i));
    if i in T.queued[t] then filed.(queued := T.queued[t := Remove(T.queued[t], i)])
    else filed.(scheduled := Unschedule(T.scheduled, KeyOf(g, i), i))
  }

  lemma CancelTables(g: Graph, T: Tables, st: Statuses, held: set<Item>, i: Item)
    requires TablesOk(g, T, st, held) && i in g.jobs && g.jobs[i].target < g.targets
    requires i in st ==> st[i] == Queued
    ensures |T.queued| == |T.killed| == g.targets
    ensures i in T.queued[g.jobs[i].target] <==> i in st && i !in held
    ensures TablesOk(g, CancelIn(g, T, i), st[i := Killed], held - {i})
  {
    QueueSize(g, T, st, held);
    var t := g.jobs[i].target;
    assert i in T.queued[t] <==> Belongs(g, st, Queued, held, t, i);
    if i in T.queued[t] {
      CancelQueuedTables(g, T, st, held, t, IndexOf(T.queued[t], i));
      assert held - {i} == held;
    } else if i in held {
      CancelHeldTables(g, T, st, held, i);
      UnscheduleAbsent(g, T.scheduled, st, i);
    } else {
      CancelScheduledTables(g, T, st, held, i);
      assert held - {i} == held;
    }
  }

  /** The head of a queue becomes held. */
  lemma HoldTables(g: Graph, T: Tables, st: Statuses, held: set<Item>, t: nat)
    requires TablesOk(g, T, st, held) && t < |T.queued| && |T.queued[t]| > 0
    ensures Belongs(g, st, Queued, held, t, T.queued[t][0])
    ensures TablesOk(g, T.(queued := T.queued[t := T.queued[t][1..]]), st, held + {T.queued[t][0]})
  {
    assert Belongs(g, st, Queued, held, t, T.queued[t][0]);
    hide ListsOk, SetsOk, ScheduleOk;
    ListsHold(g, T.queued, st, Queued, held, t, 0);
    assert RemoveAt(T.queued[t], 0) == T.queued[t][1..];
  }

  /** Held to running. */
  lemma StartTables(g: Graph, T: Tables, st: Statuses, held: set<Item>, i: Item)
    requires TablesOk(g, T, st, held) && i in held && g.jobs[i].target < g.targets
    ensures |T.running| == g.targets
    ensures TablesOk(g, T.(running := Append(T.running, g.jobs[i].target, i)), st[i := Dispatched], held - {i})
  {
    hide ListsOk, SetsOk, ScheduleOk;
    QueueSize(g, T, st, held);
    ScheduleKeep(g, T.scheduled, st, i, Dispatched);
    ListsKeep(g, T.queued, st, Queued, held, i, Dispatched);
    ListsRelease(g, T.queued, st[i := Dispatched], Queued, held, i);
    ListsAdd(g, T.running, st, Dispatched, {}, i);
    SetsKeep(g, T.passed, st, Passed, i, Dispatched);
    SetsKeep(g, T.failed, st, Failed, i, Dispatched);
    SetsKeep(g, T.killed, st, Killed, i, Dispatched);
  }

  function FinishIn(T: Tables, t: nat, i: Item, v: Status): Tables
    requires t < |T.passed| && t < |T.failed| && t < |T.killed|
  {
    if v == Passed then T.(passed := File(T.passed, t, i))
    else if v == Failed then T.(failed := File(T.failed, t, i))
    else T.(killed := File(T.killed, t, i))
  }

  /** Running to passed, failed or killed. */
  lemma FinishTables(g: Graph, T: Tables, st: Statuses, held: set<Item>, t: nat, n: nat, v: Status)
    requires TablesOk(g, T, st, held) && t < |T.running| && n < |T.running[t]| && Final(v)
    ensures |T.running| == |T.passed| == |T.failed| == |T.killed| == g.targets
    ensures var i := T.running[t][n];
      Belongs(g, st, Dispatched, {}, t, i) &&
      TablesOk(g, FinishIn(T, t, i, v).(running := Take(T.running, t, n)), st[i := v], held)
  {
    var i := T.running[t][n];
    QueueSize(g, T, st, held);
    assert Belongs(g, st, Dispatched, {}, t, i);
    hide ListsOk, SetsOk, ScheduleOk;
    ScheduleKeep(g, T.scheduled, st, i, v);
    ListsKeep(g, T.queued, st, Queued, held, i, v);
    ListsDrop(g, T.running, st, Dispatched, {}, t, n, v);
    if v == Passed { SetsAdd(g, T.passed, st, Passed, i); } else { SetsKeep(g, T.passed, st, Passed, i, v); }
    if v == Failed { SetsAdd(g, T.failed, st, Failed, i); } else { SetsKeep(g, T.failed, st, Failed, i, v); }
    if v == Killed { SetsAdd(g, T.killed, st, Killed, i); } else { SetsKeep(g, T.killed, st, Killed, i, v); }
  }

  // ----- counting ----------------------------------------------------------------------------

  ghost function AtTarget(g: Graph, t: nat): set<Item>
  {
    set i | i in g.jobs && g.jobs[i].target == t
  }

  /** The items of a target that have no status yet. */
  ghost function Scheduled(g: Graph, st: Statuses, t: nat): set<Item>
  {
    set i | i in g.jobs && g.jobs[i].target == t && i !in st
  }

  lemma {:induction false} DistinctSize<T>(l: seq<T>)
    requires Distinct(l)
    ensures |set x | x in l| == |l|
  {
    if |l| > 0 {
      var n := |l| - 1;
      DistinctSize(l[..n]);
      assert l[n] !in l[..n];
      assert (set x | x in l) == (set x | x in l[..n]) + {l[n]};
    }
  }

  ghost function ListSet(l: seq<Item>): set<Item>
  {
    set x | x in l
  }

  lemma NoElements(l: seq<Item>)
    requires forall i :: i !in l
    ensures l == []
  {
    if l != [] { HeadIsMember(l); }
  }

  lemma HeadIsMember(l: seq<Item>)
    requires l != []
    ensures l[0] in l
  {}

  lemma JoinLists(a: seq<Item>, b: seq<Item>)
    requires Distinct(a) && Distinct(b) && ListSet(a) !! ListSet(b)
    ensures Distinct(a + b) && ListSet(a + b) == ListSet(a) + ListSet(b)
  {
    var c := a + b;
    forall i, j | 0 <= i < j < |c| ensures c[i] != c[j] {
      if i < |a| <= j { assert c[i] in ListSet(a) && c[j] in ListSet(b); }
    }
  }

  function Slot(st: Statuses, i: Item): nat
  {
    if i !in st then 0
    else match st[i]
      case Queued => 1
      case Dispatched => 2
      case Passed => 3
      case Failed => 4
      case Killed => 5
  }

  ghost function InSlot(g: Graph, st: Statuses, t: nat, c: nat): set<Item>
  {
    set i | i in g.jobs && g.jobs[i].target == t && Slot(st, i) == c
  }

  ghost function FromSlot(g: Graph, st: Statuses, t: nat, c: nat): set<Item>
  {
    set i | i in g.jobs && g.jobs[i].target == t && Slot(st, i) >= c
  }

  lemma PeelSlot(g: Graph, st: Statuses, t: nat, c: nat)
    ensures |FromSlot(g, st, t, c)| == |InSlot(g, st, t, c)| + |FromSlot(g, st, t, c + 1)|
  {
    var a, b := InSlot(g, st, t, c), FromSlot(g, st, t, c + 1);
    assert a !! b;
    assert FromSlot(g, st, t, c) == a + b;
  }

  /** An item of target t is in exactly one of the six tables. */
  ghost predicate InOneTable(g: Graph, T: Tables, st: Statuses, t: nat, i: Item)
    requires t < |T.queued| && t < |T.running| && t < |T.passed| && t < |T.failed| && t < |T.killed|
  {
    (if i in Scheduled(g, st, t) then 1 else 0) + (if i in T.queued[t] then 1 else 0)
    + (if i in T.running[t] then 1 else 0) + (if i in T.passed[t] then 1 else 0)
    + (if i in T.failed[t] then 1 else 0) + (if i in T.killed[t] then 1 else 0) == 1
  }

  lemma TablesAreSlots(g: Graph, T: Tables, st: Statuses, t: nat)
    requires TablesOk(g, T, st, {}) && t < g.targets
    ensures Scheduled(g, st, t) == InSlot(g, st, t, 0)
    ensures ListSet(T.queued[t]) == InSlot(g, st, t, 1) && ListSet(T.running[t]) == InSlot(g, st, t, 2)
    ensures T.passed[t] == InSlot(g, st, t, 3) && T.failed[t] == InSlot(g, st, t, 4)
      && T.killed[t] == InSlot(g, st, t, 5)
  {
    forall i ensures i in T.queued[t] <==> i in InSlot(g, st, t, 1) {
      assert i in T.queued[t] <==> Belongs(g, st, Queued, {}, t, i);
    }
    forall i ensures i in T.running[t] <==> i in InSlot(g, st, t, 2) {
      assert i in T.running[t] <==> Belongs(g, st, Dispatched, {}, t, i);
    }
  }

  /** Per target, every item is in exactly one of the six tables, and their sizes add up. */
  lemma SizesAddUp(g: Graph, T: Tables, st: Statuses, t: nat)
    requires TablesOk(g, T, st, {}) && t < g.targets
    ensures |Scheduled(g, st, t)| + |T.queued[t]| + |T.running[t]|
      + |T.passed[t]| + |T.failed[t]| + |T.killed[t]| == |AtTarget(g, t)|
    ensures forall i :: i in AtTarget(g, t) ==> InOneTable(g, T, st, t, i)
  {
    TablesAreSlots(g, T, st, t);
    DistinctSize(T.queued[t]);
    DistinctSize(T.running[t]);
    forall i | i in AtTarget(g, t) ensures InOneTable(g, T, st, t, i) {
      assert i in ListSet(T.queued[t]) <==> i in T.queued[t];
      assert i in ListSet(T.running[t]) <==> i in T.running[t];
    }
    CountSlots(g, st, t);
  }

  lemma CountSlots(g: Graph, st: Statuses, t: nat)
    ensures |AtTarget(g, t)| == |InSlot(g, st, t, 0)| + |InSlot(g, st, t, 1)| + |InSlot(g, st, t, 2)|
      + |InSlot(g, st, t, 3)| + |InSlot(g, st, t, 4)| + |InSlot(g, st, t, 5)|
  {
    assert AtTarget(g, t) == FromSlot(g, st, t, 0);
    PeelSlot(g, st, t, 0);
    PeelSlot(g, st, t, 1);
    PeelSlot(g, st, t, 2);
    PeelSlot(g, st, t, 3);
    PeelSlot(g, st, t, 4);
    PeelSlot(g, st, t, 5);
    assert FromSlot(g, st, t, 6) == {};
  }

  /** The finished items of a target number its total exactly when all of them have finished. */
  lemma DoneCount(g: Graph, T: Tables, st: Statuses, t: nat)
    requires TablesOk(g, T, st, {}) && t < g.targets
    ensures |T.passed[t]| + |T.failed[t]| + |T.killed[t]| == |AtTarget(g, t)|
      <==> forall i :: i in AtTarget(g, t) ==> Terminal(st, i)
  {
    TablesAreSlots(g, T, st, t);
    CountSlots(g, st, t);
    var a, b, c := InSlot(g, st, t, 0), InSlot(g, st, t, 1), InSlot(g, st, t, 2);
    if forall i :: i in AtTarget(g, t) ==> Terminal(st, i) {
      assert a <= AtTarget(g, t) && b <= AtTarget(g, t) && c <= AtTarget(g, t);
      assert forall i :: i in AtTarget(g, t) ==> Slot(st, i) >= 3;
      assert a == {} && b == {} && c == {};
    } else {
      var i :| i in AtTarget(g, t) && !Terminal(st, i);
      assert i in a || i in b || i in c;
    }
  }

  function TotalLength(lists: seq<seq<Item>>): nat
  {
    if |lists| == 0 then 0 else TotalLength(lists[..|lists| - 1]) + |lists[|lists| - 1]|
  }

  lemma {:induction false} TotalLengthUpdate(lists: seq<seq<Item>>, t: nat, l: seq<Item>)
    requires t < |lists|
    ensures TotalLength(lists[t := l]) == TotalLength(lists) - |lists[t]| + |l|
  {
    var n := |lists| - 1;
    if t == n {
      assert lists[t := l][..n] == lists[..n];
    } else {
      assert lists[t := l][..n] == lists[..n][t := l];
      TotalLengthUpdate(lists[..n], t, l);
    }
  }

  lemma {:induction false} TotalLengthPositive(lists: seq<seq<Item>>) returns (t: nat)
    requires TotalLength(lists) > 0
    ensures t < |lists| && lists[t] != []
  {
    var n := |lists| - 1;
    if lists[n] != [] { t := n; } else { t := TotalLengthPositive(lists[..n]); }
  }

  lemma {:induction false} TotalLengthZero(lists: seq<seq<Item>>)
    requires TotalLength(lists) == 0
    ensures forall t :: 0 <= t < |lists| ==> lists[t] == []
  {
    if |lists| > 0 {
      var lower := lists[..|lists| - 1];
      TotalLengthZero(lower);
      assert forall t :: 0 <= t < |lower| ==> lists[t] == lower[t];
    }
  }
}
