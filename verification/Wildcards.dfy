/** What wildcard expansion means, when it fails, and why expanding a dictionary in place against
    itself gives the same result in every order. */
module Wildcards {
  import opened Basics
  import opened WildcardText

  /** The tokens each name stands for; None for a value of a type that cannot be printed. */
  type Env = map<string, Option<seq<Token>>>

  datatype Opts = Opts(ignored: set<string>, lenient: bool)

  datatype Error = Circular(name: string) | Unknown(name: string) | Unsupported(name: string)

  datatype Result<+T> = Ok(value: T) | Err(error: Error)

  function Then(v: seq<Token>, r: Result<seq<Token>>): Result<seq<Token>>
  {
    match r
    case Ok(w) => Ok(v + w)
    case Err(x) => Err(x)
  }

  /** Full expansion from left to right. */
  function Expand(e: Env, o: Opts, seen: set<string>, ts: seq<Token>): Result<seq<Token>>
    decreases |e.Keys - seen|, |ts|
  {
    if ts == [] then Ok([])
    else match ExpandToken(e, o, seen, ts)
      case Err(x) => Err(x)
      case Ok(v) => Then(v, Expand(e, o, seen, ts[1..]))
  }

  /** The expansion of the first token. */
  function ExpandToken(e: Env, o: Opts, seen: set<string>, ts: seq<Token>): Result<seq<Token>>
    requires ts != []
    decreases |e.Keys - seen|, |ts|, 0
  {
    match ts[0]
    case Text(_) => Ok([ts[0]])
    case Wild(n) =>
      if n in o.ignored then Ok([ts[0]])
      else if n in seen then Err(Circular(n))
      else if n !in e then if o.lenient then Ok([ts[0]]) else Err(Unknown(n))
      else if e[n].None? then Err(Unsupported(n))
      else
        assert e.Keys - (seen + {n}) == e.Keys - seen - {n};
        Expand(e, o, seen + {n}, e[n].value)
  }

  lemma {:induction false} ExpandConcat(e: Env, o: Opts, seen: set<string>, a: seq<Token>, b: seq<Token>)
    ensures Expand(e, o, seen, a + b) ==
      match Expand(e, o, seen, a)
      case Err(x) => Err(x)
      case Ok(v) => Then(v, Expand(e, o, seen, b))
  {
    if a == [] {
      assert a + b == b;
      var r := Expand(e, o, seen, b);
      assert r.Ok? ==> [] + r.value == r.value;
    } else {
      assert (a + b)[1..] == a[1..] + b;
      ExpandConcat(e, o, seen, a[1..], b);
      FirstTokenOnly(e, o, seen, a, a + b);
      var first, rest, last := ExpandToken(e, o, seen, a), Expand(e, o, seen, a[1..]), Expand(e, o, seen, b);
      hide ExpandToken;
      if first.Ok? && rest.Ok? && last.Ok? {
        assert first.value + (rest.value + last.value) == (first.value + rest.value) + last.value;
      }
    }
  }

  lemma FirstTokenOnly(e: Env, o: Opts, seen: set<string>, a: seq<Token>, b: seq<Token>)
    requires a != [] && b != [] && a[0] == b[0]
    ensures ExpandToken(e, o, seen, a) == ExpandToken(e, o, seen, b)
  {}

  // ----- what is left ------------------------------------------------------------------------

  /** Only text, ignored wildcards and, when errors are ignored, unknown ones. */
  ghost predicate Settled(e: Env, o: Opts, ts: seq<Token>)
  {
    forall n :: Wild(n) in ts ==> n in o.ignored || (o.lenient && n !in e)
  }

  /** A successful expansion leaves nothing to expand. */
  lemma {:induction false} ExpandSettles(e: Env, o: Opts, seen: set<string>, ts: seq<Token>)
    ensures var r := Expand(e, o, seen, ts); r.Ok? ==> Settled(e, o, r.value)
    decreases |e.Keys - seen|, |ts|
  {
    if ts != [] {
      TokenSettles(e, o, seen, ts);
      ExpandSettles(e, o, seen, ts[1..]);
      hide ExpandToken;
    }
  }

  lemma {:induction false} TokenSettles(e: Env, o: Opts, seen: set<string>, ts: seq<Token>)
    requires ts != []
    ensures var r := ExpandToken(e, o, seen, ts); r.Ok? ==> Settled(e, o, r.value)
    decreases |e.Keys - seen|, |ts|, 0
  {
    if ts[0].Wild? && ts[0].name in e && ts[0].name !in seen && e[ts[0].name].Some? {
      var n := ts[0].name;
      assert e.Keys - (seen + {n}) == e.Keys - seen - {n};
      ExpandSettles(e, o, seen + {n}, e[n].value);
    }
  }

  /** What is settled expands to itself. */
  lemma {:induction false} SettledExpands(e: Env, o: Opts, seen: set<string>, ts: seq<Token>)
    requires Settled(e, o, ts) && seen <= e.Keys
    ensures Expand(e, o, seen, ts) == Ok(ts)
  {
    if ts != [] {
      assert forall n :: Wild(n) in ts[1..] ==> Wild(n) in ts;
      SettledExpands(e, o, seen, ts[1..]);
      assert ts[0].Wild? ==> Wild(ts[0].name) in ts;
      assert ts == [ts[0]] + ts[1..];
    }
  }

  // ----- when expansion fails ----------------------------------------------------------------

  predicate Edge(e: Env, a: string, b: string)
  {
    a in e && e[a].Some? && Wild(b) in e[a].value
  }

  /** Names met by following wildcards, none of them ignored, from the tokens ts. */
  predicate IsWalk(e: Env, o: Opts, ts: seq<Token>, w: seq<string>)
  {
    && w != [] && Wild(w[0]) in ts
    && (forall i :: 0 <= i < |w| ==> w[i] !in o.ignored)
    && (forall i :: 0 <= i < |w| - 1 ==> Edge(e, w[i], w[i + 1]))
  }

  /** A name that cannot be expanded after those in `before`. */
  predicate Stops(e: Env, o: Opts, before: set<string>, n: string)
  {
    n in before || (n !in e && !o.lenient) || (n in e && e[n].None?)
  }

  function Set(w: seq<string>): set<string>
  {
    set x | x in w
  }

  predicate BadWalk(e: Env, o: Opts, seen: set<string>, ts: seq<Token>, w: seq<string>)
  {
    IsWalk(e, o, ts, w) && Stops(e, o, seen + Set(w[..|w| - 1]), w[|w| - 1])
  }

  lemma BadWalkTail(e: Env, o: Opts, seen: set<string>, ts: seq<Token>, w: seq<string>)
    requires |w| > 1
    ensures BadWalk(e, o, seen, ts, w) <==>
      && Wild(w[0]) in ts && w[0] !in o.ignored && w[0] in e && e[w[0]].Some?
      && BadWalk(e, o, seen + {w[0]}, e[w[0]].value, w[1..])
  {
    var t := w[1..];
    assert forall i :: 0 <= i < |t| ==> t[i] == w[i + 1];
    assert w[..|w| - 1] == [w[0]] + t[..|t| - 1];
    assert seen + Set(w[..|w| - 1]) == (seen + {w[0]}) + Set(t[..|t| - 1]);
    if BadWalk(e, o, seen, ts, w) {
      assert Edge(e, w[0], w[1]);
      forall i | 0 <= i < |t| - 1 ensures Edge(e, t[i], t[i + 1]) { assert Edge(e, w[i + 1], w[i + 2]); }
    }
    if IsWalkFrom(e, o, w) && IsWalk(e, o, e[w[0]].value, t) {
      forall i | 0 <= i < |w| - 1 ensures Edge(e, w[i], w[i + 1]) {
        if i > 0 { assert Edge(e, t[i - 1], t[i]); }
      }
      forall i | 0 <= i < |w| ensures w[i] !in o.ignored {
        if i > 0 { assert t[i - 1] !in o.ignored; }
      }
    }
  }

  predicate IsWalkFrom(e: Env, o: Opts, w: seq<string>)
    requires |w| > 1
  {
    w[0] !in o.ignored && w[0] in e && e[w[0]].Some?
  }

  lemma SingleBad(e: Env, o: Opts, seen: set<string>, ts: seq<Token>, n: string)
    requires Wild(n) in ts && n !in o.ignored
    ensures BadWalk(e, o, seen, ts, [n]) <==> Stops(e, o, seen, n)
  {
    assert [n][..0] == [];
    assert seen + Set([n][..0]) == seen;
  }

  /** The reason an error gives for stopping at n after the names in `before`. */
  predicate Explains(e: Env, o: Opts, before: set<string>, n: string, x: Error)
  {
    && x.name == n
    && match x
      case Circular(_) => n in before
      case Unknown(_) => n !in e && !o.lenient
      case Unsupported(_) => n in e && e[n].None?
  }

  /** A failing expansion has met a walk that stops, for the reason it reports. */
  lemma {:induction false} FailureHasWalk(e: Env, o: Opts, seen: set<string>, ts: seq<Token>)
    returns (w: seq<string>)
    requires Expand(e, o, seen, ts).Err?
    ensures BadWalk(e, o, seen, ts, w) && w != []
    ensures Explains(e, o, seen + Set(w[..|w| - 1]), w[|w| - 1], Expand(e, o, seen, ts).error)
    decreases |e.Keys - seen|, |ts|
  {
    hide BadWalk, IsWalk;
    var first := ExpandToken(e, o, seen, ts);
    if first.Ok? {
      w := FailureHasWalk(e, o, seen, ts[1..]);
      WalkWeaken(e, o, seen, ts[1..], ts, w);
    } else {
      var n := ts[0].name;
      assert Wild(n) in ts;
      SingleBad(e, o, seen, ts, n);
      if Stops(e, o, seen, n) {
        w := [n];
        assert seen + Set([n][..0]) == seen;
      } else {
        assert e.Keys - (seen + {n}) == e.Keys - seen - {n};
        var t := FailureHasWalk(e, o, seen + {n}, e[n].value);
        w := [n] + t;
        LongerWalk(e, o, seen, ts, n, t);
      }
    }
  }

  lemma LongerWalk(e: Env, o: Opts, seen: set<string>, ts: seq<Token>, n: string, t: seq<string>)
    requires Wild(n) in ts && n !in o.ignored && n in e && e[n].Some? && t != []
    requires BadWalk(e, o, seen + {n}, e[n].value, t)
    ensures var w := [n] + t;
      BadWalk(e, o, seen, ts, w) && seen + Set(w[..|w| - 1]) == seen + {n} + Set(t[..|t| - 1])
  {
    hide BadWalk;
    var w := [n] + t;
    assert w[1..] == t && w[..|w| - 1] == [n] + t[..|t| - 1];
    BadWalkTail(e, o, seen, ts, w);
  }

  lemma WalkWeaken(e: Env, o: Opts, seen: set<string>, ts: seq<Token>, more: seq<Token>, w: seq<string>)
    requires BadWalk(e, o, seen, ts, w) && forall t :: t in ts ==> t in more
    ensures BadWalk(e, o, seen, more, w)
  {}

  /** What a successful expansion says about each wildcard it met. */
  lemma {:induction false} SuccessAt(e: Env, o: Opts, seen: set<string>, ts: seq<Token>, n: string)
    requires Expand(e, o, seen, ts).Ok? && Wild(n) in ts && n !in o.ignored
    ensures !Stops(e, o, seen, n)
    ensures n in e ==> Expand(e, o, seen + {n}, e[n].value).Ok?
    decreases |ts|
  {
    if ts[0] != Wild(n) {
      assert Wild(n) in ts[1..];
      hide ExpandToken;
      SuccessAt(e, o, seen, ts[1..], n);
    }
  }

  lemma {:induction false} WalkFails(e: Env, o: Opts, seen: set<string>, ts: seq<Token>, w: seq<string>)
    requires BadWalk(e, o, seen, ts, w)
    ensures Expand(e, o, seen, ts).Err?
    decreases |w|
  {
    if |w| == 1 {
      assert w == [w[0]];
      SingleBad(e, o, seen, ts, w[0]);
    } else {
      BadWalkTail(e, o, seen, ts, w);
      WalkFails(e, o, seen + {w[0]}, e[w[0]].value, w[1..]);
    }
    hide Expand;
    if Expand(e, o, seen, ts).Ok? { SuccessAt(e, o, seen, ts, w[0]); }
  }

  /** Expansion fails exactly when some walk from the string repeats a name, meets an unknown one
      while errors are not ignored, or meets a value that cannot be printed. */
  lemma FailsIffBadWalk(e: Env, o: Opts, ts: seq<Token>)
    ensures Expand(e, o, {}, ts).Err? <==> exists w :: BadWalk(e, o, {}, ts, w)
  {
    hide BadWalk, Expand;
    if Expand(e, o, {}, ts).Err? { var w := FailureHasWalk(e, o, {}, ts); }
    if w :| BadWalk(e, o, {}, ts, w) { WalkFails(e, o, {}, ts, w); }
  }

  /** A walk that ends on a name it has been to before. */
  predicate CyclicWalk(e: Env, o: Opts, ts: seq<Token>, w: seq<string>)
  {
    IsWalk(e, o, ts, w) && w[|w| - 1] in w[..|w| - 1]
  }

  ghost predicate ReachesCycle(e: Env, o: Opts, ts: seq<Token>)
  {
    exists w :: CyclicWalk(e, o, ts, w)
  }

  ghost predicate ReachesUnprintable(e: Env, o: Opts, ts: seq<Token>)
  {
    exists w :: IsWalk(e, o, ts, w) && w[|w| - 1] in e && e[w[|w| - 1]].None?
  }

  /** With errors ignored, expansion fails exactly when a cycle of names that are not ignored or a
      value that cannot be printed can be reached, and the error it reports is one that is there. */
  lemma LenientFailures(e: Env, o: Opts, ts: seq<Token>)
    requires o.lenient
    ensures Expand(e, o, {}, ts).Err? <==> ReachesCycle(e, o, ts) || ReachesUnprintable(e, o, ts)
    ensures Expand(e, o, {}, ts).Err? ==>
      match Expand(e, o, {}, ts).error
      case Circular(_) => ReachesCycle(e, o, ts)
      case Unknown(_) => false
      case Unsupported(_) => ReachesUnprintable(e, o, ts)
  {
    hide Expand;
    if Expand(e, o, {}, ts).Err? {
      var w := FailureHasWalk(e, o, {}, ts);
      var m := |w| - 1;
      assert {} + Set(w[..m]) == Set(w[..m]);
      assert w[m] in w[..m] ==> CyclicWalk(e, o, ts, w);
    }
    if w :| CyclicWalk(e, o, ts, w) || (IsWalk(e, o, ts, w) && w[|w| - 1] in e && e[w[|w| - 1]].None?) {
      assert {} + Set(w[..|w| - 1]) == Set(w[..|w| - 1]);
      WalkFails(e, o, {}, ts, w);
    }
  }

  /** With errors ignored, and no unprintable value within reach, the circular error is raised exactly
      when a cycle of names that are not ignored can be reached. */
  lemma CircularIffCycle(e: Env, o: Opts, ts: seq<Token>)
    requires o.lenient && !ReachesUnprintable(e, o, ts)
    ensures var r := Expand(e, o, {}, ts); (r.Err? && r.error.Circular?) <==> ReachesCycle(e, o, ts)
    ensures Expand(e, o, {}, ts).Err? <==> ReachesCycle(e, o, ts)
  {
    hide Expand, ReachesCycle, ReachesUnprintable;
    LenientFailures(e, o, ts);
  }

  // ----- expanding a dictionary in place -----------------------------------------------------

  /** Independent of the names seen on the way, as long as both expansions succeed. */
  lemma {:induction false} SeenIrrelevant(e: Env, o: Opts, s1: set<string>, s2: set<string>, ts: seq<Token>)
    requires Expand(e, o, s1, ts).Ok? && Expand(e, o, s2, ts).Ok?
    ensures Expand(e, o, s1, ts) == Expand(e, o, s2, ts)
    decreases |e.Keys - s1|, |ts|
  {
    if ts != [] {
      SeenIrrelevant(e, o, s1, s2, ts[1..]);
      if ts[0].Wild? && ts[0].name !in o.ignored && ts[0].name in e {
        var n := ts[0].name;
        assert e.Keys - (s1 + {n}) == e.Keys - s1 - {n};
        SeenIrrelevant(e, o, s1 + {n}, s2 + {n}, e[n].value);
      }
    }
  }

  /** A part of a value, and what takes its place. */
  datatype Part = Part(before: seq<Token>, after: seq<Token>)

  function Before(ps: seq<Part>): seq<Token>
  {
    if ps == [] then [] else ps[0].before + Before(ps[1..])
  }

  function After(ps: seq<Part>): seq<Token>
  {
    if ps == [] then [] else ps[0].after + After(ps[1..])
  }

  /** Each part stays as it is or is replaced by its expansion. */
  ghost predicate PartsExpand(e: Env, o: Opts, ps: seq<Part>)
  {
    forall p :: p in ps ==> p.after == p.before || Expand(e, o, {}, p.before) == Ok(p.after)
  }

  /** Replacing parts of one value by their expansions changes no expansion that succeeds. */
  lemma {:induction false} ReplaceKeeps(e: Env, o: Opts, k: string, ps: seq<Part>, seen: set<string>, ts: seq<Token>)
    requires k in e && e[k] == Some(Before(ps)) && PartsExpand(e, o, ps)
    requires Expand(e, o, seen, ts).Ok? && seen <= e.Keys
    ensures Expand(e[k := Some(After(ps))], o, seen, ts) == Expand(e, o, seen, ts)
    decreases |e.Keys - seen|, |ts|
  {
    hide PartsExpand, Before, After;
    if ts != [] {
      ReplaceKeeps(e, o, k, ps, seen, ts[1..]);
      if ts[0].Wild? && ts[0].name !in o.ignored && ts[0].name in e {
        var n := ts[0].name;
        assert e.Keys - (seen + {n}) == e.Keys - seen - {n};
        if n == k {
          PartsKeep(e, o, k, ps, ps, seen + {k});
        } else {
          ReplaceKeeps(e, o, k, ps, seen + {n}, e[n].value);
        }
      }
    }
  }

  /** A partly expanded value expands to what the value expanded to. */
  lemma {:induction false} PartsKeep(e: Env, o: Opts, k: string, ps: seq<Part>, qs: seq<Part>, seen: set<string>)
    requires k in e && e[k] == Some(Before(ps)) && PartsExpand(e, o, ps) && PartsExpand(e, o, qs)
    requires Expand(e, o, seen, Before(qs)).Ok? && seen <= e.Keys
    ensures Expand(e[k := Some(After(ps))], o, seen, After(qs)) == Expand(e, o, seen, Before(qs))
    decreases |e.Keys - seen|, |Before(qs)| + |qs| + 1
  {
    if qs != [] {
      var e', q := e[k := Some(After(ps))], qs[0];
      ExpandConcat(e, o, seen, q.before, Before(qs[1..]));
      ExpandConcat(e', o, seen, q.after, After(qs[1..]));
      assert e'.Keys == e.Keys && q in qs;
      hide Expand;
      PartsKeep(e, o, k, ps, qs[1..], seen);
      if q.after == q.before {
        ReplaceKeeps(e, o, k, ps, seen, q.before);
      } else {
        SeenIrrelevant(e, o, seen, {}, q.before);
        ExpandSettles(e, o, {}, q.before);
        SettledExpands(e', o, seen, q.after);
      }
    }
  }

  /** Going round a cycle once more, from behind one of its names. */
  lemma CycleThrough(e: Env, o: Opts, ts: seq<Token>, w: seq<string>, p: nat, j: nat, src: seq<Token>)
    returns (c: seq<string>)
    requires IsWalk(e, o, ts, w) && j <= p < |w| - 1 && w[|w| - 1] == w[j] && Wild(w[p + 1]) in src
    ensures BadWalk(e, o, {}, src, c)
  {
    assert Edge(e, w[p], w[p + 1]);
    var m := |w| - 1;
    c := w[p + 1..] + w[j + 1..p + 1] + [w[p + 1]];
    var l := |c| - 1;
    forall i | 0 <= i < l ensures Edge(e, c[i], c[i + 1]) {
      if i < m - p - 1 {
        assert Edge(e, w[p + 1 + i], w[p + 2 + i]);
      } else {
        var a := j + (i - (m - p - 1));
        assert c[i] == w[a] && c[i + 1] == w[a + 1];
        assert Edge(e, w[a], w[a + 1]);
      }
    }
    assert c[l] == c[0] && c[0] in c[..l];
  }

  /** Replacing parts of one value by their expansions hides no failure: a bad walk leaves the value
      only through parts that stay. */
  lemma ReplaceHidesNothing(e: Env, o: Opts, k: string, ps: seq<Part>, ts: seq<Token>, w: seq<string>)
    requires k in e && e[k] == Some(Before(ps)) && PartsExpand(e, o, ps)
    requires BadWalk(e, o, {}, ts, w)
    ensures BadWalk(e[k := Some(After(ps))], o, {}, ts, w)
  {
    var e' := e[k := Some(After(ps))];
    var m := |w| - 1;
    hide Expand;
    forall i | 0 <= i < m ensures Edge(e', w[i], w[i + 1]) {
      assert Edge(e, w[i], w[i + 1]);
      if w[i] == k {
        var p := InSomePart(ps, Wild(w[i + 1]));
        WalkFrom(e, o, ts, w, i, p.before);
        FailsIffBadWalk(e, o, p.before);
        InAfter(ps, p, Wild(w[i + 1]));
      }
    }
  }

  lemma {:induction false} InSomePart(ps: seq<Part>, t: Token) returns (p: Part)
    requires t in Before(ps)
    ensures p in ps && t in p.before
  {
    if t in ps[0].before {
      p := ps[0];
    } else {
      p := InSomePart(ps[1..], t);
    }
  }

  lemma {:induction false} InAfter(ps: seq<Part>, p: Part, t: Token)
    requires p in ps
    ensures t in p.after ==> t in After(ps)
  {
    if p != ps[0] { InAfter(ps[1..], p, t); }
  }

  /** A bad walk, from behind an inner name, is a bad walk of any tokens that hold the next name. */
  lemma WalkFrom(e: Env, o: Opts, ts: seq<Token>, w: seq<string>, p: nat, src: seq<Token>)
    requires BadWalk(e, o, {}, ts, w) && p < |w| - 1 && Wild(w[p + 1]) in src
    ensures exists c :: BadWalk(e, o, {}, src, c)
  {
    var m := |w| - 1;
    var before := w[..m];
    if w[m] in before {
      var j :| 0 <= j < m && before[j] == w[m];
      if j <= p {
        var c := CycleThrough(e, o, ts, w, p, j, src);
      } else {
        TailIsBad(e, o, ts, w, p, j, src);
      }
    } else {
      TailIsBad(e, o, ts, w, p, 0, src);
    }
  }

  lemma TailIsBad(e: Env, o: Opts, ts: seq<Token>, w: seq<string>, p: nat, j: nat, src: seq<Token>)
    requires IsWalk(e, o, ts, w) && p < |w| - 1 && Wild(w[p + 1]) in src
    requires var m := |w| - 1;
      (p < j < m && w[j] == w[m]) || (w[m] !in w[..m] && Stops(e, o, Set(w[..m]), w[m]))
    ensures BadWalk(e, o, {}, src, w[p + 1..])
  {
    var m, c := |w| - 1, w[p + 1..];
    assert forall i :: 0 <= i < |c| ==> c[i] == w[p + 1 + i];
    forall i | 0 <= i < |c| - 1 ensures Edge(e, c[i], c[i + 1]) { assert Edge(e, w[p + 1 + i], w[p + 2 + i]); }
    if p < j < m && w[j] == w[m] {
      assert c[..|c| - 1][j - p - 1] == w[m];
    }
  }

  /** One step in place changes no expansion at all, success or failure. */
  lemma StepKeepsTokens(e: Env, o: Opts, k: string, ps: seq<Part>, ts: seq<Token>)
    requires k in e && e[k] == Some(Before(ps)) && PartsExpand(e, o, ps)
    ensures var e' := e[k := Some(After(ps))];
      && Expand(e', o, {}, ts).Ok? == Expand(e, o, {}, ts).Ok?
      && (Expand(e, o, {}, ts).Ok? ==> Expand(e', o, {}, ts) == Expand(e, o, {}, ts))
  {
    hide Expand, PartsExpand, Before, After, BadWalk;
    if Expand(e, o, {}, ts).Ok? {
      ReplaceKeeps(e, o, k, ps, {}, ts);
    } else {
      var w := FailureHasWalk(e, o, {}, ts);
      ReplaceHidesNothing(e, o, k, ps, ts, w);
      WalkFails(e[k := Some(After(ps))], o, {}, ts, w);
    }
  }

  // ----- expansion as rewriting --------------------------------------------------------------

  /** b is a with the wildcard at place p, known, printable and not ignored, replaced by its value. */
  predicate RewritesAt(e: Env, o: Opts, a: seq<Token>, b: seq<Token>, p: nat)
  {
    && p < |a| && a[p].Wild? && a[p].name !in o.ignored && a[p].name in e && e[a[p].name].Some?
    && b == a[..p] + e[a[p].name].value + a[p + 1..]
  }

  ghost predicate Rewrites(e: Env, o: Opts, a: seq<Token>, b: seq<Token>)
  {
    exists p: nat :: RewritesAt(e, o, a, b, p)
  }

  /** b comes from a by n replacements. */
  ghost predicate RewritesIn(e: Env, o: Opts, a: seq<Token>, b: seq<Token>, n: nat)
    decreases n
  {
    if n == 0 then a == b else exists c :: Rewrites(e, o, a, c) && RewritesIn(e, o, c, b, n - 1)
  }

  ghost predicate Reaches(e: Env, o: Opts, a: seq<Token>, b: seq<Token>)
  {
    exists n: nat :: RewritesIn(e, o, a, b, n)
  }

  lemma ReachesSelf(e: Env, o: Opts, a: seq<Token>)
    ensures Reaches(e, o, a, a)
  {
    assert RewritesIn(e, o, a, a, 0);
  }

  lemma {:induction false} RewritesOn(e: Env, o: Opts, a: seq<Token>, b: seq<Token>, c: seq<Token>, n: nat, m: nat)
    requires RewritesIn(e, o, a, b, n) && RewritesIn(e, o, b, c, m)
    ensures RewritesIn(e, o, a, c, n + m)
    decreases n
  {
    hide Rewrites;
    if n > 0 {
      var d :| Rewrites(e, o, a, d) && RewritesIn(e, o, d, b, n - 1);
      RewritesOn(e, o, d, b, c, n - 1, m);
    }
  }

  lemma ReachesOn(e: Env, o: Opts, a: seq<Token>, b: seq<Token>, c: seq<Token>)
    requires Reaches(e, o, a, b) && Reaches(e, o, b, c)
    ensures Reaches(e, o, a, c)
  {
    hide RewritesIn;
    var n: nat :| RewritesIn(e, o, a, b, n);
    var m: nat :| RewritesIn(e, o, b, c, m);
    RewritesOn(e, o, a, b, c, n, m);
  }

  /** Replacements between two unchanged parts. */
  lemma {:induction false} RewritesInside(e: Env, o: Opts, x: seq<Token>, a: seq<Token>, b: seq<Token>, y: seq<Token>,
                                          n: nat)
    requires RewritesIn(e, o, a, b, n)
    ensures RewritesIn(e, o, x + a + y, x + b + y, n)
    decreases n
  {
    if n > 0 {
      var c :| Rewrites(e, o, a, c) && RewritesIn(e, o, c, b, n - 1);
      hide Rewrites;
      RewritesInside(e, o, x, c, b, y, n - 1);
      OneInside(e, o, x, a, c, y);
    }
  }

  lemma OneInside(e: Env, o: Opts, x: seq<Token>, a: seq<Token>, c: seq<Token>, y: seq<Token>)
    requires Rewrites(e, o, a, c)
    ensures Rewrites(e, o, x + a + y, x + c + y)
  {
    var p: nat :| RewritesAt(e, o, a, c, p);
    var w, v := x + a + y, e[a[p].name].value;
    assert w[|x| + p] == a[p];
    assert w[..|x| + p] == x + a[..p] && w[|x| + p + 1..] == a[p + 1..] + y;
    assert x + (a[..p] + v + a[p + 1..]) + y == (x + a[..p]) + v + (a[p + 1..] + y);
    assert RewritesAt(e, o, w, x + c + y, |x| + p);
  }

  lemma ReachesInside(e: Env, o: Opts, x: seq<Token>, a: seq<Token>, b: seq<Token>, y: seq<Token>)
    requires Reaches(e, o, a, b)
    ensures Reaches(e, o, x + a + y, x + b + y)
  {
    hide RewritesIn;
    var n: nat :| RewritesIn(e, o, a, b, n);
    RewritesInside(e, o, x, a, b, y, n);
  }

  /** What expansion gives comes from the tokens by replacing wildcards by their values. */
  lemma {:induction false} ExpandReaches(e: Env, o: Opts, seen: set<string>, ts: seq<Token>)
    requires Expand(e, o, seen, ts).Ok?
    ensures Reaches(e, o, ts, Expand(e, o, seen, ts).value)
    decreases |e.Keys - seen|, |ts|
  {
    hide Reaches;
    if ts == [] {
      ReachesSelf(e, o, ts);
    } else {
      var first, rest := ExpandToken(e, o, seen, ts).value, Expand(e, o, seen, ts[1..]).value;
      TokenReaches(e, o, seen, ts);
      ExpandReaches(e, o, seen, ts[1..]);
      hide ExpandToken;
      ReachesInside(e, o, [], [ts[0]], first, ts[1..]);
      ReachesInside(e, o, first, ts[1..], rest, []);
      assert [] + [ts[0]] + ts[1..] == ts && [] + first + ts[1..] == first + ts[1..];
      assert first + ts[1..] + [] == first + ts[1..] && first + rest + [] == first + rest;
      ReachesOn(e, o, ts, first + ts[1..], first + rest);
    }
  }

  lemma {:induction false} TokenReaches(e: Env, o: Opts, seen: set<string>, ts: seq<Token>)
    requires ts != [] && ExpandToken(e, o, seen, ts).Ok?
    ensures Reaches(e, o, [ts[0]], ExpandToken(e, o, seen, ts).value)
    decreases |e.Keys - seen|, |ts|, 0
  {
    hide Reaches;
    if ts[0].Text? || ts[0].name in o.ignored || ts[0].name !in e {
      ReachesSelf(e, o, [ts[0]]);
    } else {
      var n := ts[0].name;
      assert e.Keys - (seen + {n}) == e.Keys - seen - {n};
      ExpandReaches(e, o, seen + {n}, e[n].value);
      OneReplaced(e, o, n);
      ReachesOn(e, o, [ts[0]], e[n].value, ExpandToken(e, o, seen, ts).value);
    }
  }

  lemma OneReplaced(e: Env, o: Opts, n: string)
    requires n !in o.ignored && n in e && e[n].Some?
    ensures Reaches(e, o, [Wild(n)], e[n].value)
  {
    var a, b := [Wild(n)], e[n].value;
    assert a[..0] + b + a[1..] == b;
    assert RewritesAt(e, o, a, b, 0);
    assert RewritesIn(e, o, b, b, 0);
    assert Rewrites(e, o, a, b);
    hide Rewrites;
    assert RewritesIn(e, o, a, b, 1);
  }

  // ----- every way of rewriting ends there ---------------------------------------------------

  /** A bad walk can be followed after a replacement as well. */
  lemma RewriteStaysBad(e: Env, o: Opts, a: seq<Token>, b: seq<Token>, w: seq<string>)
    requires Rewrites(e, o, a, b) && BadWalk(e, o, {}, a, w)
    ensures exists c :: BadWalk(e, o, {}, b, c)
  {
    var p: nat :| RewritesAt(e, o, a, b, p);
    if Wild(w[0]) in b {
      SameWalk(e, o, a, b, w);
    } else {
      assert a[p] == Wild(w[0]) by { OnlyOneGone(e, o, a, b, p, Wild(w[0])); }
      GoesOn(e, o, a, w);
      FirstEdge(e, o, a, w);
      WalkFrom(e, o, a, w, 0, b);
    }
  }

  /** A bad walk does not end on a name that can be replaced. */
  lemma GoesOn(e: Env, o: Opts, a: seq<Token>, w: seq<string>)
    requires BadWalk(e, o, {}, a, w) && w[0] in e && e[w[0]].Some?
    ensures |w| > 1
  {}

  lemma SameWalk(e: Env, o: Opts, a: seq<Token>, b: seq<Token>, w: seq<string>)
    requires BadWalk(e, o, {}, a, w) && Wild(w[0]) in b
    ensures BadWalk(e, o, {}, b, w)
  {}

  lemma FirstEdge(e: Env, o: Opts, a: seq<Token>, w: seq<string>)
    requires BadWalk(e, o, {}, a, w) && |w| > 1
    ensures Edge(e, w[0], w[1])
  {
    assert 0 <= 0 < |w| - 1;
  }

  lemma OnlyOneGone(e: Env, o: Opts, a: seq<Token>, b: seq<Token>, p: nat, t: Token)
    requires RewritesAt(e, o, a, b, p) && t in a && t !in b
    ensures a[p] == t
  {
    assert a == a[..p] + [a[p]] + a[p + 1..];
  }

  /** A replacement changes nothing about the expansion. */
  lemma RewriteExpands(e: Env, o: Opts, a: seq<Token>, b: seq<Token>)
    requires Rewrites(e, o, a, b) && Expand(e, o, {}, b).Ok?
    ensures Expand(e, o, {}, a) == Expand(e, o, {}, b)
  {
    var p: nat :| RewritesAt(e, o, a, b, p);
    var n, v := a[p].name, e[a[p].name].value;
    assert Expand(e, o, {}, a).Ok? by {
      hide Expand, Rewrites, BadWalk;
      if Expand(e, o, {}, a).Err? {
        var w := FailureHasWalk(e, o, {}, a);
        RewriteStaysBad(e, o, a, b, w);
        var c :| BadWalk(e, o, {}, b, c);
        WalkFails(e, o, {}, b, c);
      }
    }
    assert a == a[..p] + [a[p]] + a[p + 1..];
    ExpandConcat(e, o, {}, a[..p] + [a[p]], a[p + 1..]);
    ExpandConcat(e, o, {}, a[..p], [a[p]]);
    ExpandConcat(e, o, {}, a[..p] + v, a[p + 1..]);
    ExpandConcat(e, o, {}, a[..p], v);
    OneToken(e, o, n);
    hide Expand;
    SeenIrrelevant(e, o, {n}, {}, v);
  }

  lemma OneToken(e: Env, o: Opts, n: string)
    requires n !in o.ignored && n in e && e[n].Some?
    ensures Expand(e, o, {}, [Wild(n)]) == Expand(e, o, {n}, e[n].value)
  {
    assert {} + {n} == {n};
    var ts, r := [Wild(n)], Expand(e, o, {n}, e[n].value);
    assert ts[1..] == [];
    assert r.Ok? ==> r.value + [] == r.value;
  }

  lemma {:induction false} ReachedIsExpansion(e: Env, o: Opts, ts: seq<Token>, v: seq<Token>, n: nat)
    requires RewritesIn(e, o, ts, v, n) && Settled(e, o, v)
    ensures Expand(e, o, {}, ts) == Ok(v)
    decreases n
  {
    hide Rewrites, Expand;
    if n == 0 {
      SettledExpands(e, o, {}, v);
    } else {
      var c :| Rewrites(e, o, ts, c) && RewritesIn(e, o, c, v, n - 1);
      ReachedIsExpansion(e, o, c, v, n - 1);
      RewriteExpands(e, o, ts, c);
    }
  }

  /** Expansion gives v if and only if replacing wildcards by their values, one at a time and in any order,
      leads to v and leaves nothing to replace. */
  lemma ExpandIsNormalForm(e: Env, o: Opts, ts: seq<Token>, v: seq<Token>)
    ensures Expand(e, o, {}, ts) == Ok(v) <==> Reaches(e, o, ts, v) && Settled(e, o, v)
  {
    hide Expand, RewritesIn, Settled;
    if Expand(e, o, {}, ts) == Ok(v) {
      ExpandReaches(e, o, {}, ts);
      ExpandSettles(e, o, {}, ts);
    }
    if Reaches(e, o, ts, v) && Settled(e, o, v) {
      var n: nat :| RewritesIn(e, o, ts, v, n);
      ReachedIsExpansion(e, o, ts, v, n);
    }
  }
}
