/** `subst_wildcards` and `find_and_substitute_wildcards` of util/dvsim/utils.py, on strings. */
module WildcardSubst {
  import opened Basics
  import opened WildcardText
  import opened Wildcards

  /** Dictionary values: strings, integers or booleans, lists, dictionaries in the order of their keys,
      None, and anything that cannot be iterated over. */
  datatype Value = Str(s: string) | Num(n: int) | List(items: seq<Value>) | Fields(fields: seq<Field>) | Unset | Other

  datatype Field = Field(key: string, value: Value)

  type Dict = map<string, Value>

  // ----- printing values ---------------------------------------------------------------------

  function Digit(d: nat): char
    requires d < 10
  {
    '0' + d as char
  }

  function Digits(n: nat): string
  {
    if n < 10 then [Digit(n)] else Digits(n / 10) + [Digit(n % 10)]
  }

  function Decimal(n: int): string
  {
    if n < 0 then "-" + Digits(-n) else Digits(n)
  }

  function Join(ss: seq<string>): string
  {
    if ss == [] then ""
    else if |ss| == 1 then ss[0]
    else ss[0] + " " + Join(ss[1..])
  }

  function Names(fs: seq<Field>): (r: seq<string>)
    ensures |r| == |fs| && forall i :: 0 <= i < |fs| ==> r[i] == fs[i].key
  {
    seq(|fs|, i requires 0 <= i < |fs| => fs[i].key)
  }

  /** `_stringify_wildcard_value`, None where it raises an error. Iterating over a dictionary gives its
      keys. */
  function Stringify(v: Value): Option<string>
  {
    match v
    case Str(s) => Some(s)
    case Num(n) => Some(Decimal(n))
    case List(xs) => (match StringifyAll(xs) case Some(ss) => Some(Join(ss)) case None => None)
    case Fields(fs) => Some(Join(Names(fs)))
    case Unset => None
    case Other => None
  }

  function StringifyAll(xs: seq<Value>): (r: Option<seq<string>>)
    ensures r.Some? ==> |r.value| == |xs| && forall i :: 0 <= i < |xs| ==> Stringify(xs[i]) == Some(r.value[i])
    ensures r.None? ==> exists i :: 0 <= i < |xs| && Stringify(xs[i]).None?
  {
    if xs == [] then Some([])
    else match Stringify(xs[0])
      case None => None
      case Some(s) => (match StringifyAll(xs[1..]) case Some(ss) => Some([s] + ss) case None => None)
  }

  predicate AllDigits(s: string)
  {
    forall i :: 0 <= i < |s| ==> '0' <= s[i] <= '9'
  }

  /** The number that a string of digits stands for. */
  function ReadDigits(s: string): nat
    requires AllDigits(s)
  {
    if s == [] then 0 else 10 * ReadDigits(s[..|s| - 1]) + (s[|s| - 1] - '0') as nat
  }

  /** Digits without leading zeros, which read as the number. */
  lemma {:induction false} DigitsRead(n: nat)
    ensures AllDigits(Digits(n)) && ReadDigits(Digits(n)) == n
    ensures Digits(n) != [] && (Digits(n)[0] == '0' ==> n == 0)
  {
    if n < 10 {
      assert Digits(n)[..0] == [];
    } else {
      DigitsRead(n / 10);
      assert Digits(n)[..|Digits(n)| - 1] == Digits(n / 10);
    }
  }

  /** Numbers are printed in decimal, with a sign if negative. */
  lemma DecimalReads(n: int)
    ensures var s := if n < 0 then Decimal(n)[1..] else Decimal(n);
      && (n < 0 ==> Decimal(n)[0] == '-')
      && AllDigits(s) && ReadDigits(s) == (if n < 0 then -n else n)
      && s != [] && (s[0] == '0' ==> n == 0)
  {
    DigitsRead(if n < 0 then -n else n);
    if n < 0 { assert Decimal(n)[1..] == Digits(-n); }
  }

  /** Joining puts one space between neighbours, and nothing else. */
  lemma {:induction false} JoinConcat(a: seq<string>, b: seq<string>)
    requires a != [] && b != []
    ensures Join(a + b) == Join(a) + " " + Join(b)
  {
    assert (a + b)[1..] == a[1..] + b;
    if |a| > 1 { JoinConcat(a[1..], b); } else { assert a[1..] + b == b; }
  }

  /** What values print as: strings as themselves, numbers in decimal, lists as their items and dictionaries as
      their keys, separated by spaces; exactly values with something else in them cannot be printed. */
  lemma PrintedValue(v: Value)
    ensures v.Str? ==> Stringify(v) == Some(v.s)
    ensures v.Num? ==> Stringify(v) == Some(Decimal(v.n))
    ensures v.List? ==> (Stringify(v).Some? <==> forall i :: 0 <= i < |v.items| ==> Stringify(v.items[i]).Some?)
    ensures v.List? && Stringify(v).Some? ==>
      exists ss: seq<string> :: |ss| == |v.items| && Stringify(v) == Some(Join(ss))
        && forall i :: 0 <= i < |ss| ==> Stringify(v.items[i]) == Some(ss[i])
    ensures v.Fields? ==> Stringify(v) == Some(Join(Names(v.fields)))
    ensures v.Unset? || v.Other? ==> Stringify(v).None?
  {}

  // ----- the tokens of a value ---------------------------------------------------------------

  function JoinTokens(ss: seq<string>): seq<Token>
  {
    if ss == [] then []
    else if |ss| == 1 then Tokenize(ss[0])
    else Tokenize(ss[0]) + [Text(' ')] + JoinTokens(ss[1..])
  }

  function ValueTokens(v: Value): Option<seq<Token>>
  {
    match Stringify(v)
    case Some(s) => Some(Tokenize(s))
    case None => None
  }

  /** What each name stands for; a name whose value is None counts as not set. */
  function Meaning(d: Dict): Env
  {
    map n | n in d && !d[n].Unset? :: ValueTokens(d[n])
  }

  /** A name stands for what its value prints as. */
  lemma MeaningPrints(d: Dict, n: string)
    ensures n in Meaning(d) <==> n in d && !d[n].Unset?
    ensures n in Meaning(d) ==> (Meaning(d)[n].Some? <==> Stringify(d[n]).Some?)
    ensures n in Meaning(d) && Meaning(d)[n].Some? ==> Some(Render(Meaning(d)[n].value)) == Stringify(d[n])
  {
    hide Tokenize, Render;
    if n in Meaning(d) && Stringify(d[n]).Some? { RenderTokenize(Stringify(d[n]).value); }
  }

  /** Braces only in complete wildcards, and none of them asks for a command to be run. */
  ghost predicate Fine(o: Opts, ts: seq<Token>)
  {
    AllProper(ts) && (Wild("eval_cmd") in ts ==> "eval_cmd" in o.ignored)
  }

  /** All strings inside a value are fine, the keys of its dictionaries included. */
  ghost predicate FineValue(o: Opts, v: Value)
  {
    match v
    case Str(s) => Fine(o, Tokenize(s))
    case List(xs) => forall i :: 0 <= i < |xs| ==> FineValue(o, xs[i])
    case Fields(fs) => FineFields(o, fs)
    case _ => true
  }

  ghost predicate FineFields(o: Opts, fs: seq<Field>)
  {
    forall i :: 0 <= i < |fs| ==> Fine(o, Tokenize(fs[i].key)) && FineValue(o, fs[i].value)
  }

  ghost predicate FineDict(o: Opts, d: Dict)
  {
    forall n :: n in d ==> FineValue(o, d[n])
  }

  predicate NoBraces(s: string)
  {
    '{' !in s && '}' !in s
  }

  lemma {:induction false} DigitsNoBraces(n: nat)
    ensures NoBraces(Digits(n))
  {
    if n >= 10 { DigitsNoBraces(n / 10); }
  }

  lemma {:induction false} PlainTokens(s: string)
    requires NoBraces(s)
    ensures AllProper(Tokenize(s)) && forall n :: Wild(n) !in Tokenize(s)
    decreases |s|
  {
    if s != [] {
      assert s[0] in s && s[0] != '{';
      assert forall c :: c in s[1..] ==> c in s;
      PlainTokens(s[1..]);
    }
  }

  lemma NumberFine(o: Opts, n: int)
    ensures Fine(o, Tokenize(Decimal(n))) && forall x :: Wild(x) !in Tokenize(Decimal(n))
  {
    DigitsNoBraces(if n < 0 then -n else n);
    PlainTokens(Decimal(n));
  }

  /** The tokens of joined strings are the tokens of each, with a space between them. */
  lemma {:induction false} JoinFine(o: Opts, ss: seq<string>)
    requires forall i :: 0 <= i < |ss| ==> Fine(o, Tokenize(ss[i]))
    ensures Fine(o, JoinTokens(ss)) && Tokenize(Join(ss)) == JoinTokens(ss)
  {
    if ss == [] {
      TokenizeNothing();
    } else if |ss| > 1 {
      JoinFine(o, ss[1..]);
      var a, b := Tokenize(ss[0]), JoinTokens(ss[1..]);
      hide Tokenize, Render;
      RenderTokenize(ss[0]);
      RenderTokenize(Join(ss[1..]));
      SpaceRenders();
      RenderConcat(a + [Text(' ')], b);
      RenderConcat(a, [Text(' ')]);
      assert AllProper(a + [Text(' ')] + b);
      TokenizeRender(a + [Text(' ')] + b);
    }
  }

  lemma SpaceRenders()
    ensures Render([Text(' ')]) == " "
  {
    assert [Text(' ')][1..] == [];
  }

  /** A fine value prints as a fine string. */
  lemma {:induction false} ValueFine(o: Opts, v: Value)
    requires FineValue(o, v)
    ensures Stringify(v).Some? ==> Fine(o, Tokenize(Stringify(v).value))
  {
    hide Fine, Tokenize;
    match v
    case Num(n) => NumberFine(o, n);
    case List(xs) =>
      if StringifyAll(xs).Some? {
        AllFine(o, xs);
        JoinFine(o, StringifyAll(xs).value);
      }
    case Fields(fs) => JoinFine(o, Names(fs));
    case _ =>
  }

  lemma {:induction false} AllFine(o: Opts, xs: seq<Value>)
    requires (forall i :: 0 <= i < |xs| ==> FineValue(o, xs[i])) && StringifyAll(xs).Some?
    ensures forall i :: 0 <= i < |xs| ==> Fine(o, Tokenize(StringifyAll(xs).value[i]))
  {
    hide Fine, Tokenize;
    if xs != [] {
      ValueFine(o, xs[0]);
      AllFine(o, xs[1..]);
    }
  }

  // ----- expanding fine tokens ---------------------------------------------------------------

  ghost predicate FineEnv(o: Opts, e: Env)
  {
    forall n :: n in e && e[n].Some? ==> Fine(o, e[n].value)
  }

  lemma MeaningFine(o: Opts, d: Dict)
    requires FineDict(o, d)
    ensures FineEnv(o, Meaning(d))
  {
    hide Fine, Stringify;
    forall n | n in Meaning(d) && Meaning(d)[n].Some? ensures Fine(o, Meaning(d)[n].value) { ValueFine(o, d[n]); }
  }

  lemma {:induction false} ExpandFine(e: Env, o: Opts, seen: set<string>, ts: seq<Token>)
    requires FineEnv(o, e) && Fine(o, ts)
    ensures var r := Expand(e, o, seen, ts); r.Ok? ==> Fine(o, r.value)
    decreases |e.Keys - seen|, |ts|
  {
    if ts != [] {
      assert Fine(o, ts[1..]) && Proper(ts[0]);
      ExpandFine(e, o, seen, ts[1..]);
      if ts[0].Wild? {
        var n := ts[0].name;
        assert Wild(n) in ts;
        if n in e && n !in seen && e[n].Some? {
          assert e.Keys - (seen + {n}) == e.Keys - seen - {n};
          ExpandFine(e, o, seen + {n}, e[n].value);
        }
      }
    }
  }

  lemma {:induction false} TextExpands(e: Env, o: Opts, seen: set<string>, ts: seq<Token>)
    requires forall i :: 0 <= i < |ts| ==> ts[i].Text?
    ensures Expand(e, o, seen, ts) == Ok(ts)
  {
    if ts != [] {
      TextExpands(e, o, seen, ts[1..]);
      assert ts == [ts[0]] + ts[1..];
    }
  }

  /** Expansion, seen from the first wildcard of the string. */
  lemma ExpandAt(e: Env, o: Opts, seen: set<string>, ts: seq<Token>, k: nat)
    requires k < |ts| && forall i :: 0 <= i < k ==> ts[i].Text?
    ensures Expand(e, o, seen, ts) ==
      match ExpandToken(e, o, seen, ts[k..])
      case Err(x) => Err(x)
      case Ok(v) => Then(ts[..k] + v, Expand(e, o, seen, ts[k + 1..]))
  {
    assert ts == ts[..k] + ts[k..];
    TextExpands(e, o, seen, ts[..k]);
    ExpandConcat(e, o, seen, ts[..k], ts[k..]);
    assert ts[k..][1..] == ts[k + 1..];
    var r, rest := ExpandToken(e, o, seen, ts[k..]), Expand(e, o, seen, ts[k + 1..]);
    hide ExpandToken;
    if r.Ok? && rest.Ok? {
      assert ts[..k] + (r.value + rest.value) == (ts[..k] + r.value) + rest.value;
    }
  }

  function RenderResult(r: Result<seq<Token>>): Result<string>
  {
    match r
    case Ok(ts) => Ok(Render(ts))
    case Err(x) => Err(x)
  }

  /** Wildcards that are still to be replaced. */
  function Expandable(e: Env, o: Opts, ts: seq<Token>): nat
  {
    if ts == [] then 0
    else (if ts[0].Wild? && ts[0].name !in o.ignored && ts[0].name in e then 1 else 0) + Expandable(e, o, ts[1..])
  }

  lemma {:induction false} ExpandableConcat(e: Env, o: Opts, a: seq<Token>, b: seq<Token>)
    ensures Expandable(e, o, a + b) == Expandable(e, o, a) + Expandable(e, o, b)
  {
    if a == [] {
      assert a + b == b;
    } else {
      assert (a + b)[1..] == a[1..] + b;
      ExpandableConcat(e, o, a[1..], b);
    }
  }

  lemma {:induction false} SettledNotExpandable(e: Env, o: Opts, ts: seq<Token>)
    requires Settled(e, o, ts)
    ensures Expandable(e, o, ts) == 0
  {
    if ts != [] {
      assert forall n :: Wild(n) in ts[1..] ==> Wild(n) in ts;
      SettledNotExpandable(e, o, ts[1..]);
      assert ts[0].Wild? ==> Wild(ts[0].name) in ts;
    }
  }

  // ----- the scan ----------------------------------------------------------------------------

  /** The string is the settled part up to idx and the rest, and expanding the rest finishes the job. */
  ghost predicate Scanning(e: Env, o: Opts, seen: set<string>, whole: seq<Token>,
                           text: string, idx: nat, done: seq<Token>, rest: seq<Token>)
  {
    && text == Render(done) + Render(rest) && idx == |Render(done)|
    && Fine(o, rest)
    && Expand(e, o, seen, whole) == Then(done, Expand(e, o, seen, rest))
  }

  /** What the search in the unscanned part of the string finds. */
  lemma Found(o: Opts, rest: seq<Token>, k: nat)
    requires Fine(o, rest) && k == FirstWild(rest)
    ensures k == |rest| ==> Search(Render(rest), 0) == None
    ensures k < |rest| ==>
      var right, start := Render(rest), |Render(rest[..k])|;
      var end := start + |rest[k].name| + 2;
      && Search(right, 0) == Some((start, end)) && end <= |right| && right[start + 1..end - 1] == rest[k].name
      && right[..start] == Render(rest[..k]) && right[..end] == Render(rest[..k + 1])
      && right[end..] == Render(rest[k + 1..])
  {
    hide Render, RenderToken, FirstWild, Search, Fine, AllProper;
    FineIsProper(o, rest);
    SearchFindsFirst(rest);
    if k < |rest| { RenderSlices(rest, k); }
  }

  lemma FineIsProper(o: Opts, ts: seq<Token>)
    requires Fine(o, ts)
    ensures AllProper(ts)
  {}

  lemma RenderSlices(ts: seq<Token>, k: nat)
    requires k < |ts| && ts[k].Wild?
    ensures var s, start := Render(ts), |Render(ts[..k])|;
      var end := start + |ts[k].name| + 2;
      && end <= |s| && s[start + 1..end - 1] == ts[k].name
      && s[..start] == Render(ts[..k]) && s[..end] == Render(ts[..k + 1]) && s[end..] == Render(ts[k + 1..])
  {
    hide Render, RenderToken;
    RenderAround(ts, k);
    RenderUpTo(ts, k);
    Slices(Render(ts), Render(ts[..k]), ts[k], Render(ts[k + 1..]), Render(ts[..k + 1]));
  }

  lemma RenderUpTo(ts: seq<Token>, k: nat)
    requires k < |ts|
    ensures Render(ts[..k + 1]) == Render(ts[..k]) + RenderToken(ts[k])
  {
    hide Render, RenderToken;
    var front := ts[..k + 1];
    RenderAround(front, k);
    assert front[..k] == ts[..k];
    RenderNothing(front[k + 1..]);
  }

  lemma Slices(s: string, a: string, t: Token, b: string, ab: string)
    requires t.Wild? && s == a + RenderToken(t) + b && ab == a + RenderToken(t)
    ensures var end := |a| + |t.name| + 2;
      && end <= |s| && s[|a| + 1..end - 1] == t.name
      && s[..|a|] == a && s[..end] == ab && s[end..] == b
  {}

  lemma ScanStart(e: Env, o: Opts, seen: set<string>, whole: seq<Token>, text: string)
    requires Fine(o, whole) && text == Render(whole)
    ensures Scanning(e, o, seen, whole, text, 0, [], whole)
  {
    var r := Expand(e, o, seen, whole);
    assert r.Ok? ==> [] + r.value == r.value;
  }

  lemma RenderSplit(done: seq<Token>, rest: seq<Token>, n: nat)
    requires n <= |rest|
    ensures Render(done) + Render(rest) == Render(done + rest[..n]) + Render(rest[n..])
    ensures |Render(done + rest[..n])| == |Render(done)| + |Render(rest[..n])|
  {
    hide Render;
    assert rest == rest[..n] + rest[n..];
    RenderConcat(done, rest[..n]);
    RenderConcat(rest[..n], rest[n..]);
  }

  lemma ExpandSkip(e: Env, o: Opts, seen: set<string>, done: seq<Token>, rest: seq<Token>, k: nat)
    requires k == FirstWild(rest) < |rest| && ExpandToken(e, o, seen, rest[k..]) == Ok([rest[k]])
    ensures Then(done, Expand(e, o, seen, rest)) == Then(done + rest[..k + 1], Expand(e, o, seen, rest[k + 1..]))
  {
    ExpandAt(e, o, seen, rest, k);
    hide FirstWild, Expand, ExpandToken;
    assert rest[..k] + [rest[k]] == rest[..k + 1];
    var r := Expand(e, o, seen, rest[k + 1..]);
    if r.Ok? { assert done + (rest[..k + 1] + r.value) == (done + rest[..k + 1]) + r.value; }
  }

  lemma FineParts(o: Opts, ts: seq<Token>, a: nat, b: nat)
    requires Fine(o, ts) && a <= b <= |ts|
    ensures Fine(o, ts[a..b])
  {
    assert forall t :: t in ts[a..b] ==> t in ts;
  }

  lemma FineConcat(o: Opts, a: seq<Token>, b: seq<Token>)
    requires Fine(o, a) && Fine(o, b)
    ensures Fine(o, a + b)
  {}

  /** Stepping over a wildcard that stays. */
  lemma ScanSkip(e: Env, o: Opts, seen: set<string>, whole: seq<Token>, text: string, idx: nat,
                 done: seq<Token>, rest: seq<Token>, k: nat)
    requires Scanning(e, o, seen, whole, text, idx, done, rest) && k == FirstWild(rest) < |rest|
    requires ExpandToken(e, o, seen, rest[k..]) == Ok([rest[k]])
    ensures Scanning(e, o, seen, whole, text, idx + |Render(rest[..k + 1])|, done + rest[..k + 1], rest[k + 1..])
    ensures Expandable(e, o, rest[k + 1..]) <= Expandable(e, o, rest)
  {
    hide Render, FirstWild, Expand, ExpandToken, Fine, Expandable;
    ExpandSkip(e, o, seen, done, rest, k);
    RenderSplit(done, rest, k + 1);
    FineParts(o, rest, k + 1, |rest|);
    assert rest[k + 1..|rest|] == rest[k + 1..];
    assert rest == rest[..k + 1] + rest[k + 1..];
    ExpandableConcat(e, o, rest[..k + 1], rest[k + 1..]);
  }

  lemma ExpandReplace(e: Env, o: Opts, seen: set<string>, rest: seq<Token>, k: nat, v: seq<Token>)
    requires k == FirstWild(rest) < |rest| && ExpandToken(e, o, seen, rest[k..]) == Ok(v)
    requires Settled(e, o, v) && seen <= e.Keys
    ensures Expand(e, o, seen, rest[..k] + v + rest[k + 1..]) == Expand(e, o, seen, rest)
  {
    ExpandAt(e, o, seen, rest, k);
    hide FirstWild, Expand, ExpandToken;
    SettledExpands(e, o, seen, v);
    TextExpands(e, o, seen, rest[..k]);
    ExpandConcat(e, o, seen, rest[..k], v);
    ExpandConcat(e, o, seen, rest[..k] + v, rest[k + 1..]);
  }

  /** Replacing a wildcard by its full expansion. */
  lemma ScanReplace(e: Env, o: Opts, seen: set<string>, whole: seq<Token>, text: string, idx: nat,
                    done: seq<Token>, rest: seq<Token>, k: nat, v: seq<Token>)
    requires Scanning(e, o, seen, whole, text, idx, done, rest) && k == FirstWild(rest) < |rest|
    requires ExpandToken(e, o, seen, rest[k..]) == Ok(v) && Settled(e, o, v) && Fine(o, v) && seen <= e.Keys
    requires rest[k].name !in o.ignored && rest[k].name in e
    ensures var next := rest[..k] + v + rest[k + 1..];
      && Scanning(e, o, seen, whole, Render(done) + (Render(rest[..k]) + Render(v) + Render(rest[k + 1..])),
                  idx, done, next)
      && Expandable(e, o, next) < Expandable(e, o, rest)
  {
    hide Render, FirstWild, Expand, ExpandToken, Expandable, Settled, Fine;
    ExpandReplace(e, o, seen, rest, k, v);
    CountReplaced(e, o, rest, k, v);
    RenderConcat(rest[..k], v);
    RenderConcat(rest[..k] + v, rest[k + 1..]);
    FineParts(o, rest, 0, k);
    FineParts(o, rest, k + 1, |rest|);
    assert rest[0..k] == rest[..k] && rest[k + 1..|rest|] == rest[k + 1..];
    FineConcat(o, rest[..k], v);
    FineConcat(o, rest[..k] + v, rest[k + 1..]);
  }

  lemma CountReplaced(e: Env, o: Opts, rest: seq<Token>, k: nat, v: seq<Token>)
    requires k < |rest| && rest[k].Wild? && rest[k].name !in o.ignored && rest[k].name in e && Settled(e, o, v)
    ensures Expandable(e, o, rest[..k] + v + rest[k + 1..]) < Expandable(e, o, rest)
  {
    SettledNotExpandable(e, o, v);
    assert rest == rest[..k] + rest[k..];
    ExpandableConcat(e, o, rest[..k], rest[k..]);
    ExpandableConcat(e, o, rest[..k] + v, rest[k + 1..]);
    ExpandableConcat(e, o, rest[..k], v);
    assert rest[k..][1..] == rest[k + 1..];
  }

  lemma ScanEnd(e: Env, o: Opts, seen: set<string>, whole: seq<Token>, text: string, idx: nat, done: seq<Token>,
                rest: seq<Token>)
    requires Scanning(e, o, seen, whole, text, idx, done, rest) && FirstWild(rest) == |rest|
    ensures RenderResult(Expand(e, o, seen, whole)) == Ok(text)
  {
    TextExpands(e, o, seen, rest);
    RenderConcat(done, rest);
  }

  lemma ScanError(e: Env, o: Opts, seen: set<string>, whole: seq<Token>, text: string, idx: nat,
                  done: seq<Token>, rest: seq<Token>, k: nat, x: Error)
    requires Scanning(e, o, seen, whole, text, idx, done, rest) && k == FirstWild(rest) < |rest|
    requires ExpandToken(e, o, seen, rest[k..]) == Err(x)
    ensures RenderResult(Expand(e, o, seen, whole)) == Err(x)
  {
    ExpandAt(e, o, seen, rest, k);
  }

  // ----- substitution on strings -------------------------------------------------------------

  /** The string with the match at start .. end of its part from idx on replaced. */
  function Replaced(text: string, idx: nat, start: nat, end: nat, value: string): string
    requires idx <= |text| && start <= end <= |text[idx..]|
  {
    var right := text[idx..];
    text[..idx] + (right[..start] + value + right[end..])
  }

  /** t comes from s by replacing wildcards by their values, and has nothing left to replace. */
  ghost predicate NormalForm(e: Env, o: Opts, s: string, t: string)
  {
    Reaches(e, o, Tokenize(s), Tokenize(t)) && Settled(e, o, Tokenize(t))
  }

  lemma ExpandedString(e: Env, o: Opts, seen: set<string>, s: string)
    requires FineEnv(o, e) && Fine(o, Tokenize(s))
    ensures var r := RenderResult(Expand(e, o, seen, Tokenize(s))); r.Ok? ==> NormalForm(e, o, s, r.value)
  {
    hide Expand, Tokenize, Fine, Reaches, Settled, Render;
    if Expand(e, o, seen, Tokenize(s)).Ok? {
      ExpandReaches(e, o, seen, Tokenize(s));
      ExpandedValue(e, o, seen, Tokenize(s));
    }
  }

  /** And conversely: at the top level a string that has a normal form is expanded to it. */
  lemma NormalFormFound(e: Env, o: Opts, s: string, t: string)
    requires NormalForm(e, o, s, t)
    ensures RenderResult(Expand(e, o, {}, Tokenize(s))) == Ok(t)
  {
    hide Expand, Tokenize, Reaches, Settled, Render;
    ExpandIsNormalForm(e, o, Tokenize(s), Tokenize(t));
    RenderTokenize(t);
  }

  /** `_subst_wildcards`: works from left to right, replacing each wildcard by the expansion of its
      value and scanning the replaced text again. */
  method Subst(text0: string, d: Dict, o: Opts, seen: set<string>) returns (r: Result<string>)
    requires Fine(o, Tokenize(text0)) && FineDict(o, d) && seen <= Meaning(d).Keys
    ensures r == RenderResult(Expand(Meaning(d), o, seen, Tokenize(text0)))
    ensures r.Ok? ==> NormalForm(Meaning(d), o, text0, r.value)
    decreases |d.Keys - seen|
  {
    hide NormalForm;
    hide Scanning, Expand, ExpandToken, Render, Tokenize, Fine, FineDict, Expandable, Search, FirstWild;
    hide RenderResult, Meaning, Settled;
    ghost var e, whole := Meaning(d), Tokenize(text0);
    var text, idx := text0, 0;
    ghost var done, rest: seq<Token> := [], whole;
    RenderTokenize(text0);
    MeaningFine(o, d);
    ExpandedString(e, o, seen, text0);
    ScanStart(e, o, seen, whole, text);
    while true
      invariant idx <= |text| && Scanning(e, o, seen, whole, text, idx, done, rest)
      decreases Expandable(e, o, rest), |rest|
    {
      ghost var k := FirstWild(rest);
      ScanFound(e, o, seen, whole, text, idx, done, rest);
      var right := text[idx..];
      var found := Search(right, 0);
      if found.None? {
        ScanEnd(e, o, seen, whole, text, idx, done, rest);
        return Ok(text);
      }
      var (start, end) := found.value;
      var name := right[start + 1..end - 1];
      var looked := LookUp(name, d, o, seen, rest[k..]);
      match looked {
        case Err(x) =>
          ScanError(e, o, seen, whole, text, idx, done, rest, k, x);
          return Err(x);
        case Ok(None) =>
          ScanSkip(e, o, seen, whole, text, idx, done, rest, k);
          idx := idx + end;
          done, rest := done + rest[..k + 1], rest[k + 1..];
        case Ok(Some(value)) =>
          ghost var v := Tokenize(value);
          ScanReplace(e, o, seen, whole, text, idx, done, rest, k, v);
          text := Replaced(text, idx, start, end, value);
          rest := rest[..k] + v + rest[k + 1..];
      }
    }
  }

  lemma ScanFound(e: Env, o: Opts, seen: set<string>, whole: seq<Token>, text: string, idx: nat, done: seq<Token>,
                  rest: seq<Token>)
    requires Scanning(e, o, seen, whole, text, idx, done, rest) && idx <= |text|
    ensures text[idx..] == Render(rest) && text[..idx] == Render(done)
    ensures var k := FirstWild(rest);
      && (k == |rest| ==> Search(text[idx..], 0) == None)
      && (k < |rest| ==>
            var right, start := text[idx..], |Render(rest[..k])|;
            var end := start + |rest[k].name| + 2;
            && Search(right, 0) == Some((start, end)) && end <= |right| && right[start + 1..end - 1] == rest[k].name
            && right[..start] == Render(rest[..k]) && end == |Render(rest[..k + 1])|
            && right[end..] == Render(rest[k + 1..]))
  {
    hide Expand, Then, Fine, Render, Search, FirstWild;
    var left, right := Render(done), Render(rest);
    assert text == left + right && idx == |left|;
    hide Scanning;
    assert text[idx..] == right && text[..idx] == left;
    Found(o, rest, FirstWild(rest));
  }

  /** Looks a wildcard up: Ok(None) to leave it, Ok(Some(value)) to put its expansion in its place. */
  method LookUp(name: string, d: Dict, o: Opts, seen: set<string>, ghost ts: seq<Token>)
    returns (r: Result<Option<string>>)
    requires ts != [] && ts[0] == Wild(name) && FineDict(o, d) && seen <= Meaning(d).Keys
    ensures ExpandToken(Meaning(d), o, seen, ts) ==
      if r.Err? then Err(r.error) else if r.value.None? then Ok([ts[0]]) else Ok(Tokenize(r.value.value))
    ensures r.Ok? && r.value.Some? ==>
      var value := r.value.value;
      && Reaches(Meaning(d), o, [Wild(name)], Tokenize(value))
      && value == Render(Tokenize(value)) && Settled(Meaning(d), o, Tokenize(value)) && Fine(o, Tokenize(value))
      && name !in o.ignored && name in Meaning(d)
    decreases |d.Keys - seen|, 0
  {
    hide Expand, Tokenize, Fine, Reaches;
    ghost var e := Meaning(d);
    if name in o.ignored {
      return Ok(None);
    }
    if name in seen {
      return Err(Circular(name));
    }
    if name !in d || d[name].Unset? {
      if o.lenient {
        return Ok(None);
      }
      return Err(Unknown(name));
    }
    ValueFine(o, d[name]);
    var value := Stringify(d[name]);
    if value.None? {
      return Err(Unsupported(name));
    }
    assert d.Keys - (seen + {name}) == d.Keys - seen - {name};
    var expanded := Subst(value.value, d, o, seen + {name});
    if expanded.Err? {
      return Err(expanded.error);
    }
    MeaningFine(o, d);
    ExpandedValue(e, o, seen + {name}, e[name].value);
    OneReplaced(e, o, name);
    ReachesOn(e, o, [Wild(name)], e[name].value, Tokenize(expanded.value));
    return Ok(Some(expanded.value));
  }

  lemma ExpandedValue(e: Env, o: Opts, seen: set<string>, ts: seq<Token>)
    requires FineEnv(o, e) && Fine(o, ts) && Expand(e, o, seen, ts).Ok?
    ensures var v := Expand(e, o, seen, ts).value;
      Tokenize(Render(v)) == v && Settled(e, o, v) && Fine(o, v)
  {
    hide Expand, Tokenize, Render;
    ExpandFine(e, o, seen, ts);
    ExpandSettles(e, o, seen, ts);
    TokenizeRender(Expand(e, o, seen, ts).value);
  }

  // ----- whole dictionaries ------------------------------------------------------------------

  function SubstString(e: Env, o: Opts, s: string): Result<Value>
  {
    match RenderResult(Expand(e, o, {}, Tokenize(s)))
    case Ok(t) => Ok(Str(t))
    case Err(y) => Err(y)
  }

  /** What a value becomes: strings are expanded, also inside lists and dictionaries; lists inside
      lists stay as they are. */
  function SubstValue(e: Env, o: Opts, v: Value): Result<Value>
    decreases v, 1
  {
    match v
    case Str(s) => SubstString(e, o, s)
    case List(xs) => (match SubstItems(e, o, xs) case Ok(ys) => Ok(List(ys)) case Err(y) => Err(y))
    case Fields(fs) => (match SubstFields(e, o, fs) case Ok(gs) => Ok(Fields(gs)) case Err(y) => Err(y))
    case _ => Ok(v)
  }

  function SubstItem(e: Env, o: Opts, x: Value): Result<Value>
    decreases x, 2
  {
    if x.List? then Ok(x) else SubstValue(e, o, x)
  }

  function SubstItems(e: Env, o: Opts, xs: seq<Value>): (r: Result<seq<Value>>)
    ensures r.Ok? ==> |r.value| == |xs|
    decreases xs
  {
    if xs == [] then Ok([])
    else match SubstItem(e, o, xs[0])
      case Err(y) => Err(y)
      case Ok(x) => (match SubstItems(e, o, xs[1..]) case Ok(ys) => Ok([x] + ys) case Err(y) => Err(y))
  }

  function SubstFields(e: Env, o: Opts, fs: seq<Field>): (r: Result<seq<Field>>)
    ensures r.Ok? ==> |r.value| == |fs|
    decreases fs
  {
    if fs == [] then Ok([])
    else match SubstValue(e, o, fs[0].value)
      case Err(y) => Err(y)
      case Ok(x) =>
        match SubstFields(e, o, fs[1..])
        case Err(y) => Err(y)
        case Ok(gs) => Ok([Field(fs[0].key, x)] + gs)
  }

  /** The keys in the given order, each against the dictionary as it then is. */
  function SubstInOrder(d: Dict, o: Opts, order: seq<string>): Result<Dict>
    requires forall k :: k in order ==> k in d
  {
    if order == [] then Ok(d)
    else match SubstValue(Meaning(d), o, d[order[0]])
      case Err(y) => Err(y)
      case Ok(w) => SubstInOrder(d[order[0] := w], o, order[1..])
  }

  lemma StringMeaning(e: Env, o: Opts, s: string)
    requires FineEnv(o, e) && Fine(o, Tokenize(s)) && SubstString(e, o, s).Ok?
    ensures var r := SubstString(e, o, s).value;
      r.Str? && Fine(o, Tokenize(r.s)) && Expand(e, o, {}, Tokenize(s)) == Ok(Tokenize(r.s))
  {
    hide Expand, Tokenize, Fine;
    ExpandedValue(e, o, {}, Tokenize(s));
  }

  /** Keys stay as they are. */
  lemma {:induction false} NamesKept(e: Env, o: Opts, fs: seq<Field>)
    requires SubstFields(e, o, fs).Ok?
    ensures Names(SubstFields(e, o, fs).value) == Names(fs)
  {
    hide SubstValue;
    if fs != [] {
      NamesKept(e, o, fs[1..]);
      var gs := SubstFields(e, o, fs).value;
      assert gs[1..] == SubstFields(e, o, fs[1..]).value;
      assert forall i :: 0 < i < |fs| ==> gs[i].key == Names(gs[1..])[i - 1] && fs[i].key == Names(fs[1..])[i - 1];
    }
  }

  /** Substitution keeps values fine, whether they are set, and whether they can be printed. */
  lemma {:induction false} SubstFine(e: Env, o: Opts, v: Value)
    requires FineEnv(o, e) && FineValue(o, v) && SubstValue(e, o, v).Ok?
    ensures var w := SubstValue(e, o, v).value;
      FineValue(o, w) && w.Unset? == v.Unset? && Stringify(w).Some? == Stringify(v).Some?
    decreases v, 1
  {
    hide Fine, SubstString;
    match v
    case Str(s) => StringMeaning(e, o, s);
    case List(xs) => ItemsFine(e, o, xs);
    case Fields(fs) => FieldsFine(e, o, fs);
    case _ =>
  }

  lemma {:induction false} ItemsFine(e: Env, o: Opts, xs: seq<Value>)
    requires FineEnv(o, e) && (forall i :: 0 <= i < |xs| ==> FineValue(o, xs[i])) && SubstItems(e, o, xs).Ok?
    ensures var ys := SubstItems(e, o, xs).value;
      (forall i :: 0 <= i < |ys| ==> FineValue(o, ys[i])) && StringifyAll(ys).Some? == StringifyAll(xs).Some?
    decreases xs
  {
    hide FineValue;
    if xs != [] {
      if !xs[0].List? { SubstFine(e, o, xs[0]); }
      ItemsFine(e, o, xs[1..]);
      hide SubstValue, Stringify;
      var ys := SubstItems(e, o, xs).value;
      assert ys[1..] == SubstItems(e, o, xs[1..]).value;
    }
  }

  lemma {:induction false} FieldsFine(e: Env, o: Opts, fs: seq<Field>)
    requires FineEnv(o, e) && SubstFields(e, o, fs).Ok? && FineFields(o, fs)
    ensures FineFields(o, SubstFields(e, o, fs).value)
    decreases fs
  {
    hide Fine, Tokenize, FineValue;
    if fs != [] {
      SubstFine(e, o, fs[0].value);
      FieldsFine(e, o, fs[1..]);
      hide SubstValue, Stringify;
      assert SubstFields(e, o, fs).value[1..] == SubstFields(e, o, fs[1..]).value;
    }
  }

  // ----- what substitution does to each string -----------------------------------------------

  /** w is v with every string in it expanded, whatever dictionaries it is in; lists inside lists, keys and
      everything that is not a string are as they were. */
  ghost predicate Substituted(e: Env, o: Opts, v: Value, w: Value)
  {
    match v
    case Str(s) => w.Str? && Expand(e, o, {}, Tokenize(s)) == Ok(Tokenize(w.s))
    case List(xs) => w.List? && SubstitutedItems(e, o, xs, w.items)
    case Fields(fs) => w.Fields? && SubstitutedFields(e, o, fs, w.fields)
    case _ => w == v
  }

  ghost predicate SubstitutedItems(e: Env, o: Opts, xs: seq<Value>, ys: seq<Value>)
  {
    && |ys| == |xs|
    && forall i :: 0 <= i < |xs| ==> if xs[i].List? then ys[i] == xs[i] else Substituted(e, o, xs[i], ys[i])
  }

  ghost predicate SubstitutedFields(e: Env, o: Opts, fs: seq<Field>, gs: seq<Field>)
  {
    && |gs| == |fs|
    && forall i :: 0 <= i < |fs| ==> gs[i].key == fs[i].key && Substituted(e, o, fs[i].value, gs[i].value)
  }

  /** Substitution gives w if and only if w is such a value. */
  lemma {:induction false} SubstExact(e: Env, o: Opts, v: Value, w: Value)
    requires FineEnv(o, e) && FineValue(o, v)
    ensures SubstValue(e, o, v) == Ok(w) <==> Substituted(e, o, v, w)
    decreases v, 1
  {
    hide Expand, Tokenize, Fine;
    match v
    case Str(s) =>
      if SubstValue(e, o, v) == Ok(w) { StringMeaning(e, o, s); }
      if w.Str? { RenderTokenize(w.s); }
    case List(xs) => if w.List? { ItemsExact(e, o, xs, w.items); }
    case Fields(fs) => if w.Fields? { FieldsExact(e, o, fs, w.fields); }
    case _ =>
  }

  lemma {:induction false} ItemsExact(e: Env, o: Opts, xs: seq<Value>, ys: seq<Value>)
    requires FineEnv(o, e) && forall i :: 0 <= i < |xs| ==> FineValue(o, xs[i])
    ensures SubstItems(e, o, xs) == Ok(ys) <==> SubstitutedItems(e, o, xs, ys)
    decreases xs
  {
    hide FineValue, Substituted, SubstValue, Stringify;
    if |xs| == |ys| > 0 {
      if !xs[0].List? { SubstExact(e, o, xs[0], ys[0]); }
      ItemsExact(e, o, xs[1..], ys[1..]);
      ItemsHead(e, o, xs, ys);
      assert ys == [ys[0]] + ys[1..];
    }
  }

  lemma ItemsHead(e: Env, o: Opts, xs: seq<Value>, ys: seq<Value>)
    requires |xs| == |ys| > 0
    ensures SubstitutedItems(e, o, xs, ys) <==>
      && (if xs[0].List? then ys[0] == xs[0] else Substituted(e, o, xs[0], ys[0]))
      && SubstitutedItems(e, o, xs[1..], ys[1..])
  {
    hide Substituted;
    assert forall i :: 0 < i < |xs| ==> xs[i] == xs[1..][i - 1] && ys[i] == ys[1..][i - 1];
  }

  lemma {:induction false} FieldsExact(e: Env, o: Opts, fs: seq<Field>, gs: seq<Field>)
    requires FineEnv(o, e) && FineFields(o, fs)
    ensures SubstFields(e, o, fs) == Ok(gs) <==> SubstitutedFields(e, o, fs, gs)
    decreases fs
  {
    hide Fine, Tokenize, FineValue, Substituted, SubstValue, Stringify;
    if |fs| == |gs| > 0 {
      SubstExact(e, o, fs[0].value, gs[0].value);
      FieldsExact(e, o, fs[1..], gs[1..]);
      FieldsHead(e, o, fs, gs);
      assert gs == [gs[0]] + gs[1..];
    }
  }

  lemma FieldsHead(e: Env, o: Opts, fs: seq<Field>, gs: seq<Field>)
    requires |fs| == |gs| > 0
    ensures SubstitutedFields(e, o, fs, gs) <==>
      && gs[0].key == fs[0].key && Substituted(e, o, fs[0].value, gs[0].value)
      && SubstitutedFields(e, o, fs[1..], gs[1..])
  {
    hide Substituted;
    assert forall i :: 0 < i < |fs| ==> fs[i] == fs[1..][i - 1] && gs[i] == gs[1..][i - 1];
  }

  /** s is one of the strings in v that are expanded. */
  ghost predicate HasString(v: Value, s: string)
  {
    match v
    case Str(t) => t == s
    case List(xs) => ItemsHave(xs, s)
    case Fields(fs) => FieldsHave(fs, s)
    case _ => false
  }

  ghost predicate ItemsHave(xs: seq<Value>, s: string)
  {
    exists i :: 0 <= i < |xs| && !xs[i].List? && HasString(xs[i], s)
  }

  ghost predicate FieldsHave(fs: seq<Field>, s: string)
  {
    exists i :: 0 <= i < |fs| && HasString(fs[i].value, s)
  }

  /** Substitution that succeeds can expand every one of them. */
  lemma {:induction false} EachExpands(e: Env, o: Opts, v: Value, s: string)
    requires SubstValue(e, o, v).Ok? && HasString(v, s)
    ensures Expand(e, o, {}, Tokenize(s)).Ok?
    decreases v, 1
  {
    hide Expand, Tokenize;
    match v
    case List(xs) =>
      var i :| 0 <= i < |xs| && !xs[i].List? && HasString(xs[i], s);
      ItemSucceeds(e, o, xs, i);
      EachExpands(e, o, xs[i], s);
    case Fields(fs) =>
      var i :| 0 <= i < |fs| && HasString(fs[i].value, s);
      FieldSucceeds(e, o, fs, i);
      EachExpands(e, o, fs[i].value, s);
    case _ =>
  }

  lemma {:induction false} ItemSucceeds(e: Env, o: Opts, xs: seq<Value>, i: nat)
    requires SubstItems(e, o, xs).Ok? && i < |xs|
    ensures SubstItem(e, o, xs[i]).Ok?
  {
    hide SubstItem;
    if i > 0 { ItemSucceeds(e, o, xs[1..], i - 1); }
  }

  lemma {:induction false} FieldSucceeds(e: Env, o: Opts, fs: seq<Field>, i: nat)
    requires SubstFields(e, o, fs).Ok? && i < |fs|
    ensures SubstValue(e, o, fs[i].value).Ok?
  {
    hide SubstValue;
    if i > 0 { FieldSucceeds(e, o, fs[1..], i - 1); }
  }

  /** Substitution that fails has met one that cannot be expanded, and gives its error. */
  lemma {:induction false} SomeFails(e: Env, o: Opts, v: Value) returns (s: string)
    requires SubstValue(e, o, v).Err?
    ensures HasString(v, s) && Expand(e, o, {}, Tokenize(s)) == Err(SubstValue(e, o, v).error)
    decreases v, 1
  {
    hide Expand, Tokenize;
    match v
    case Str(t) => s := t;
    case List(xs) => s := SomeItemFails(e, o, xs);
    case Fields(fs) => s := SomeFieldFails(e, o, fs);
  }

  lemma {:induction false} SomeItemFails(e: Env, o: Opts, xs: seq<Value>) returns (s: string)
    requires SubstItems(e, o, xs).Err?
    ensures ItemsHave(xs, s) && Expand(e, o, {}, Tokenize(s)) == Err(SubstItems(e, o, xs).error)
    decreases xs
  {
    hide Expand, Tokenize, SubstValue, HasString;
    if SubstItem(e, o, xs[0]).Err? {
      s := SomeFails(e, o, xs[0]);
    } else {
      s := SomeItemFails(e, o, xs[1..]);
      var i :| 0 <= i < |xs| - 1 && !xs[1..][i].List? && HasString(xs[1..][i], s);
      assert xs[1..][i] == xs[i + 1];
    }
  }

  lemma {:induction false} SomeFieldFails(e: Env, o: Opts, fs: seq<Field>) returns (s: string)
    requires SubstFields(e, o, fs).Err?
    ensures FieldsHave(fs, s) && Expand(e, o, {}, Tokenize(s)) == Err(SubstFields(e, o, fs).error)
    decreases fs
  {
    hide Expand, Tokenize, SubstValue, HasString;
    if SubstValue(e, o, fs[0].value).Err? {
      s := SomeFails(e, o, fs[0].value);
    } else {
      s := SomeFieldFails(e, o, fs[1..]);
      var i :| 0 <= i < |fs| - 1 && HasString(fs[1..][i].value, s);
      assert fs[1..][i] == fs[i + 1];
    }
  }

  /** Nothing is left to expand in the strings of w. */
  ghost predicate AllSettled(e: Env, o: Opts, w: Value)
  {
    forall s :: HasString(w, s) ==> Settled(e, o, Tokenize(s))
  }

  lemma {:induction false} SubstitutedSettles(e: Env, o: Opts, v: Value, w: Value, s: string)
    requires Substituted(e, o, v, w) && HasString(w, s)
    ensures Settled(e, o, Tokenize(s))
    decreases v, 1
  {
    hide Expand, Tokenize, Settled;
    match v
    case Str(t) => ExpandSettles(e, o, {}, Tokenize(t));
    case List(xs) =>
      var i :| 0 <= i < |w.items| && !w.items[i].List? && HasString(w.items[i], s);
      SubstitutedSettles(e, o, xs[i], w.items[i], s);
    case Fields(fs) =>
      var i :| 0 <= i < |w.fields| && HasString(w.fields[i].value, s);
      SubstitutedSettles(e, o, fs[i].value, w.fields[i].value, s);
    case _ =>
  }

  lemma SubstitutedAllSettles(e: Env, o: Opts, v: Value, w: Value)
    requires Substituted(e, o, v, w)
    ensures AllSettled(e, o, w)
  {
    hide Substituted, HasString, Settled;
    forall s | HasString(w, s) ensures Settled(e, o, Tokenize(s)) { SubstitutedSettles(e, o, v, w, s); }
  }

  // ----- a substituted value is a partly expanded one ----------------------------------------

  /** What substituting in one item does to the string it prints as. */
  ghost predicate IsPart(e: Env, o: Opts, s: string, t: string)
  {
    s == t || Expand(e, o, {}, Tokenize(s)) == Ok(Tokenize(t))
  }

  lemma ItemMeaning(e: Env, o: Opts, x: Value)
    requires FineEnv(o, e) && FineValue(o, x) && SubstItem(e, o, x).Ok? && Stringify(x).Some?
    ensures var y := SubstItem(e, o, x).value;
      Stringify(y).Some? && IsPart(e, o, Stringify(x).value, Stringify(y).value)
  {
    hide Expand, Fine, SubstString;
    if x.Str? { StringMeaning(e, o, x.s); }
    if x.Fields? { NamesKept(e, o, x.fields); }
  }

  lemma {:induction false} ItemsMeaning(e: Env, o: Opts, xs: seq<Value>)
    requires FineEnv(o, e) && (forall i :: 0 <= i < |xs| ==> FineValue(o, xs[i]))
    requires SubstItems(e, o, xs).Ok? && StringifyAll(xs).Some?
    ensures var ss, ts := StringifyAll(xs), StringifyAll(SubstItems(e, o, xs).value);
      ts.Some? && forall i :: 0 <= i < |xs| ==> IsPart(e, o, ss.value[i], ts.value[i])
  {
    hide IsPart, FineValue, SubstItem, Stringify;
    if xs != [] {
      ItemMeaning(e, o, xs[0]);
      ItemsMeaning(e, o, xs[1..]);
      assert SubstItems(e, o, xs).value[1..] == SubstItems(e, o, xs[1..]).value;
    }
  }

  /** The parts of two joined lists of strings: the strings, and the spaces between them. */
  ghost function JoinParts(ss: seq<string>, ts: seq<string>): seq<Part>
    requires |ss| == |ts|
  {
    if ss == [] then []
    else
      var first := Part(Tokenize(ss[0]), Tokenize(ts[0]));
      if |ss| == 1 then [first]
      else [first, Part([Text(' ')], [Text(' ')])] + JoinParts(ss[1..], ts[1..])
  }

  lemma {:induction false} JoinPartsExpand(e: Env, o: Opts, ss: seq<string>, ts: seq<string>)
    requires |ss| == |ts| && forall i :: 0 <= i < |ss| ==> IsPart(e, o, ss[i], ts[i])
    ensures var ps := JoinParts(ss, ts);
      PartsExpand(e, o, ps) && Before(ps) == JoinTokens(ss) && After(ps) == JoinTokens(ts)
  {
    hide Expand, Tokenize, PartsExpand, Before, After, IsPart;
    if |ss| == 0 {
      NoParts(e, o);
    } else {
      var first, space := Part(Tokenize(ss[0]), Tokenize(ts[0])), Part([Text(' ')], [Text(' ')]);
      OnePart(e, o, ss[0], ts[0]);
      if |ss| == 1 {
        SinglePart(first);
      } else {
        JoinPartsExpand(e, o, ss[1..], ts[1..]);
        var rest := JoinParts(ss[1..], ts[1..]);
        TwoMoreParts(first, space, rest);
        MorePartsExpand(e, o, first, space, rest);
        assert first.before + (space.before + Before(rest)) == first.before + space.before + Before(rest);
        assert first.after + (space.after + After(rest)) == first.after + space.after + After(rest);
      }
    }
  }

  lemma NoParts(e: Env, o: Opts)
    ensures PartsExpand(e, o, []) && Before([]) == [] && After([]) == []
  {}

  lemma OnePart(e: Env, o: Opts, s: string, t: string)
    requires IsPart(e, o, s, t)
    ensures PartsExpand(e, o, [Part(Tokenize(s), Tokenize(t))])
  {
    hide Expand, Tokenize;
  }

  lemma MorePartsExpand(e: Env, o: Opts, p: Part, q: Part, ps: seq<Part>)
    requires PartsExpand(e, o, [p]) && q.before == q.after && PartsExpand(e, o, ps)
    ensures PartsExpand(e, o, [p, q] + ps)
  {
    hide Expand;
    assert p in [p];
  }

  lemma SinglePart(p: Part)
    ensures Before([p]) == p.before && After([p]) == p.after
  {}

  lemma TwoMoreParts(p: Part, q: Part, ps: seq<Part>)
    ensures Before([p, q] + ps) == p.before + (q.before + Before(ps))
    ensures After([p, q] + ps) == p.after + (q.after + After(ps))
  {
    assert ([p, q] + ps)[1..] == [q] + ps;
    assert ([q] + ps)[1..] == ps;
  }

  /** Substituting in a value replaces some parts of what it prints as by their expansions, and leaves
      the others. */
  lemma ValueMeaning(e: Env, o: Opts, v: Value) returns (ps: seq<Part>)
    requires FineEnv(o, e) && FineValue(o, v) && SubstValue(e, o, v).Ok? && Stringify(v).Some?
    ensures PartsExpand(e, o, ps) && ValueTokens(v) == Some(Before(ps))
    ensures ValueTokens(SubstValue(e, o, v).value) == Some(After(ps))
  {
    hide Expand, Tokenize, SubstString, Before, After, Fine;
    if v.List? {
      var xs, ys := v.items, SubstItems(e, o, v.items).value;
      ItemsMeaning(e, o, xs);
      ItemsFine(e, o, xs);
      AllFine(o, xs);
      AllFine(o, ys);
      var ss, ts := StringifyAll(xs).value, StringifyAll(ys).value;
      JoinFine(o, ss);
      JoinFine(o, ts);
      JoinPartsExpand(e, o, ss, ts);
      ps := JoinParts(ss, ts);
    } else {
      ItemMeaning(e, o, v);
      var p := Part(ValueTokens(v).value, ValueTokens(SubstValue(e, o, v).value).value);
      SinglePart(p);
      ps := [p];
    }
  }

  // ----- confluence on dictionaries ----------------------------------------------------------

  ghost predicate SameExpansions(e: Env, e': Env, o: Opts)
  {
    forall ts :: Expand(e', o, {}, ts).Ok? == Expand(e, o, {}, ts).Ok?
      && (Expand(e, o, {}, ts).Ok? ==> Expand(e', o, {}, ts) == Expand(e, o, {}, ts))
  }

  /** The two results are the same success, or both failures. */
  predicate Agree<T(==)>(a: Result<T>, b: Result<T>)
  {
    if a.Ok? then a == b else b.Err?
  }

  lemma {:induction false} ValueAgrees(e: Env, e': Env, o: Opts, v: Value)
    requires SameExpansions(e, e', o)
    ensures Agree(SubstValue(e, o, v), SubstValue(e', o, v))
    decreases v, 1
  {
    match v
    case Str(s) =>
      hide Expand;
      var ts := Tokenize(s);
      assert Expand(e', o, {}, ts).Ok? == Expand(e, o, {}, ts).Ok?;
    case List(xs) =>
      hide SameExpansions;
      ItemsAgree(e, e', o, xs);
    case Fields(fs) =>
      hide SameExpansions;
      FieldsAgree(e, e', o, fs);
    case _ =>
  }

  lemma {:induction false} ItemsAgree(e: Env, e': Env, o: Opts, xs: seq<Value>)
    requires SameExpansions(e, e', o)
    ensures Agree(SubstItems(e, o, xs), SubstItems(e', o, xs))
    decreases xs
  {
    hide SameExpansions, SubstValue;
    if xs != [] {
      if !xs[0].List? { ValueAgrees(e, e', o, xs[0]); }
      ItemsAgree(e, e', o, xs[1..]);
    }
  }

  lemma {:induction false} FieldsAgree(e: Env, e': Env, o: Opts, fs: seq<Field>)
    requires SameExpansions(e, e', o)
    ensures Agree(SubstFields(e, o, fs), SubstFields(e', o, fs))
    decreases fs
  {
    hide SameExpansions, SubstValue;
    if fs != [] {
      ValueAgrees(e, e', o, fs[0].value);
      FieldsAgree(e, e', o, fs[1..]);
    }
  }

  /** Storing a substituted value back changes no expansion, although it may be only partly expanded. */
  lemma StoreKeeps(d: Dict, o: Opts, k: string, w: Value)
    requires FineDict(o, d) && k in d && SubstValue(Meaning(d), o, d[k]) == Ok(w)
    ensures FineDict(o, d[k := w]) && SameExpansions(Meaning(d), Meaning(d[k := w]), o)
    ensures Meaning(d[k := w]).Keys == Meaning(d).Keys
  {
    hide Expand, SubstValue, FineValue, Stringify;
    var e := Meaning(d);
    MeaningFine(o, d);
    SubstFine(e, o, d[k]);
    if Stringify(d[k]).Some? && !d[k].Unset? {
      var ps := ValueMeaning(e, o, d[k]);
      assert Meaning(d[k := w]) == e[k := Some(After(ps))];
      forall ts
        ensures Expand(e[k := Some(After(ps))], o, {}, ts).Ok? == Expand(e, o, {}, ts).Ok?
        ensures Expand(e, o, {}, ts).Ok? ==> Expand(e[k := Some(After(ps))], o, {}, ts) == Expand(e, o, {}, ts)
      {
        StepKeepsTokens(e, o, k, ps, ts);
      }
    } else {
      assert Meaning(d[k := w]) == e;
    }
  }

  /** Substituting a dictionary's values while it is its own environment: whatever the order of the
      keys, it succeeds exactly when every value can be substituted against the original dictionary,
      and every value becomes what the original dictionary makes of it. */
  lemma {:induction false} DictConfluent(d: Dict, o: Opts, order: seq<string>)
    requires FineDict(o, d) && Distinct(order) && forall k :: k in order ==> k in d
    ensures var r := SubstInOrder(d, o, order);
      && (r.Ok? <==> forall k :: k in order ==> SubstValue(Meaning(d), o, d[k]).Ok?)
      && (r.Ok? ==> r.value.Keys == d.Keys && forall k :: k in d ==>
            if k in order then Ok(r.value[k]) == SubstValue(Meaning(d), o, d[k]) else r.value[k] == d[k])
    decreases |order|
  {
    if order != [] {
      var k, rest := order[0], order[1..];
      assert forall i :: 0 <= i < |rest| ==> rest[i] == order[i + 1];
      assert k !in rest && forall j :: j in order <==> j == k || j in rest;
      var e := Meaning(d);
      var r := SubstValue(e, o, d[k]);
      hide SubstValue, Meaning, FineDict;
      if r.Ok? {
        var d' := d[k := r.value];
        StoreKeeps(d, o, k, r.value);
        DictConfluent(d', o, rest);
        forall j | j in d && j != k ensures Agree(SubstValue(e, o, d[j]), SubstValue(Meaning(d'), o, d'[j])) {
          ValueAgrees(e, Meaning(d'), o, d[j]);
        }
      }
    }
  }

  /** Two orders of the same keys give the same dictionary, or both fail. */
  lemma OrderIrrelevant(d: Dict, o: Opts, a: seq<string>, b: seq<string>)
    requires FineDict(o, d) && Distinct(a) && Distinct(b)
    requires (forall k :: k in a <==> k in b) && forall k :: k in a ==> k in d
    ensures Agree(SubstInOrder(d, o, a), SubstInOrder(d, o, b))
  {
    hide FineDict, SubstValue, Meaning, SubstInOrder;
    DictConfluent(d, o, a);
    DictConfluent(d, o, b);
    var r, q := SubstInOrder(d, o, a), SubstInOrder(d, o, b);
    assert (forall k :: k in a ==> SubstValue(Meaning(d), o, d[k]).Ok?) <==>
        forall k :: k in b ==> SubstValue(Meaning(d), o, d[k]).Ok?;
    if r.Ok? {
      forall k | k in d ensures r.value[k] == q.value[k] {
        assert k in a ==> Ok(r.value[k]) == Ok(q.value[k]);
      }
      assert r.value == q.value;
    }
  }

  /** r is d with the values of the given keys substituted; no string in them has anything left to expand. */
  ghost predicate DictSubstituted(d: Dict, o: Opts, order: seq<string>, r: Dict)
  {
    && r.Keys == d.Keys
    && forall k :: k in d ==>
        if k in order then Substituted(Meaning(d), o, d[k], r[k]) && AllSettled(Meaning(d), o, r[k]) else r[k] == d[k]
  }

  /** k is one of the keys, and one of the strings in its value cannot be expanded. */
  ghost predicate CannotExpand(d: Dict, o: Opts, order: seq<string>, k: string, s: string)
  {
    k in order && k in d && HasString(d[k], s) && Expand(Meaning(d), o, {}, Tokenize(s)).Err?
  }

  /** Whatever the order of the keys, every string becomes its expansion against the original dictionary, and
      this fails exactly when one of the strings has none. */
  lemma DictMeaning(d: Dict, o: Opts, order: seq<string>)
    requires FineDict(o, d) && Distinct(order) && forall k :: k in order ==> k in d
    ensures var r := SubstInOrder(d, o, order);
      && (r.Ok? ==> DictSubstituted(d, o, order, r.value))
      && (r.Err? <==> exists k, s :: CannotExpand(d, o, order, k, s))
  {
    hide SubstInOrder, SubstValue, FineValue, Meaning, Substituted, AllSettled, Expand, HasString;
    var e, r := Meaning(d), SubstInOrder(d, o, order);
    MeaningFine(o, d);
    DictConfluent(d, o, order);
    if r.Ok? {
      forall k | k in d && k in order ensures Substituted(e, o, d[k], r.value[k]) && AllSettled(e, o, r.value[k]) {
        SubstExact(e, o, d[k], r.value[k]);
        SubstitutedAllSettles(e, o, d[k], r.value[k]);
      }
      forall k, s ensures !CannotExpand(d, o, order, k, s) {
        if k in order && k in d && HasString(d[k], s) { EachExpands(e, o, d[k], s); }
      }
    } else {
      var k :| k in order && SubstValue(e, o, d[k]).Err?;
      var s := SomeFails(e, o, d[k]);
      assert CannotExpand(d, o, order, k, s);
    }
  }

  /** `find_and_substitute_wildcards(d, d)`: rewrites the dictionary's values in place. */
  method FindAndSubstitute(d0: Dict, order: seq<string>, o: Opts) returns (r: Result<Dict>)
    requires FineDict(o, d0) && Distinct(order) && forall k :: k in order ==> k in d0
    ensures r == SubstInOrder(d0, o, order)
    ensures r.Ok? ==> DictSubstituted(d0, o, order, r.value)
    ensures r.Err? <==> exists k, s :: CannotExpand(d0, o, order, k, s)
  {
    hide DictSubstituted, CannotExpand;
    DictMeaning(d0, o, order);
    var d := d0;
    assert order[0..] == order;
    hide FineDict, Meaning, SubstValue;
    for a := 0 to |order|
      invariant FineDict(o, d) && d.Keys == d0.Keys
      invariant SubstInOrder(d, o, order[a..]) == SubstInOrder(d0, o, order)
    {
      assert order[a..][0] == order[a] && order[a..][1..] == order[a + 1..];
      FineAt(o, d, order[a]);
      var w := SubstituteValue(d[order[a]], d, o);
      if w.Err? {
        return Err(w.error);
      }
      StoreKeeps(d, o, order[a], w.value);
      d := d[order[a] := w.value];
    }
    return Ok(d);
  }

  lemma FineAt(o: Opts, d: Dict, k: string)
    requires FineDict(o, d) && k in d
    ensures FineValue(o, d[k])
  {}

  method SubstituteValue(v: Value, d: Dict, o: Opts) returns (r: Result<Value>)
    requires FineDict(o, d) && FineValue(o, v)
    ensures r == SubstValue(Meaning(d), o, v)
    ensures r.Ok? ==> Substituted(Meaning(d), o, v, r.value)
    decreases v, 1
  {
    hide FineDict, Meaning, Expand, Substituted;
    MeaningFine(o, d);
    forall w ensures SubstValue(Meaning(d), o, v) == Ok(w) <==> Substituted(Meaning(d), o, v, w) {
      SubstExact(Meaning(d), o, v, w);
    }
    match v {
      case Str(s) =>
        var t := Subst(s, d, o, {});
        return if t.Ok? then Ok(Str(t.value)) else Err(t.error);
      case List(xs) =>
        var ys := SubstituteItems(xs, d, o);
        return if ys.Ok? then Ok(List(ys.value)) else Err(ys.error);
      case Fields(fs) =>
        var gs := SubstituteFields(fs, d, o);
        return if gs.Ok? then Ok(Fields(gs.value)) else Err(gs.error);
      case _ =>
        return Ok(v);
    }
  }

  /** The loop over a list: dictionaries and strings in it are substituted, anything else is kept. */
  method SubstituteItems(xs: seq<Value>, d: Dict, o: Opts) returns (r: Result<seq<Value>>)
    requires FineDict(o, d) && forall i :: 0 <= i < |xs| ==> FineValue(o, xs[i])
    ensures r == SubstItems(Meaning(d), o, xs)
    decreases xs
  {
    hide FineDict, Meaning, FineValue, SubstValue;
    var ys: seq<Value> := [];
    ItemsEnds(Meaning(d), o, xs, ys);
    for i := 0 to |xs|
      invariant SubstItems(Meaning(d), o, xs) == Onto(ys, SubstItems(Meaning(d), o, xs[i..]))
    {
      var y := Ok(xs[i]);
      if xs[i].Fields? || xs[i].Str? {
        y := SubstituteValue(xs[i], d, o);
      }
      KeptItem(Meaning(d), o, xs[i]);
      ItemsNext(Meaning(d), o, ys, xs, i);
      if y.Err? {
        return Err(y.error);
      }
      ys := ys + [y.value];
    }
    ItemsEnds(Meaning(d), o, xs, ys);
    return Ok(ys);
  }

  lemma KeptItem(e: Env, o: Opts, x: Value)
    ensures SubstItem(e, o, x) == if x.Fields? || x.Str? then SubstValue(e, o, x) else Ok(x)
  {}

  /** The recursive call on a dictionary inside a value. It rewrites values that no wildcard can name,
      so that the environment stays as it is. */
  method SubstituteFields(fs: seq<Field>, d: Dict, o: Opts) returns (r: Result<seq<Field>>)
    requires FineDict(o, d) && FineFields(o, fs)
    ensures r == SubstFields(Meaning(d), o, fs)
    decreases fs
  {
    hide FineDict, Meaning, FineValue, SubstValue;
    var gs: seq<Field> := [];
    FieldsEnds(Meaning(d), o, fs, gs);
    for i := 0 to |fs|
      invariant SubstFields(Meaning(d), o, fs) == Onto(gs, SubstFields(Meaning(d), o, fs[i..]))
    {
      var y := SubstituteValue(fs[i].value, d, o);
      FieldsNext(Meaning(d), o, gs, fs, i);
      if y.Err? {
        return Err(y.error);
      }
      gs := gs + [Field(fs[i].key, y.value)];
    }
    FieldsEnds(Meaning(d), o, fs, gs);
    return Ok(gs);
  }

  function Onto<T>(ys: seq<T>, r: Result<seq<T>>): Result<seq<T>>
  {
    match r
    case Ok(zs) => Ok(ys + zs)
    case Err(y) => Err(y)
  }

  lemma ItemsEnds(e: Env, o: Opts, xs: seq<Value>, ys: seq<Value>)
    ensures xs[0..] == xs && Onto([], SubstItems(e, o, xs)) == SubstItems(e, o, xs)
    ensures Onto(ys, SubstItems(e, o, xs[|xs|..])) == Ok(ys)
  {
    var r := SubstItems(e, o, xs);
    assert r.Ok? ==> [] + r.value == r.value;
    assert ys + [] == ys;
  }

  lemma ItemsNext(e: Env, o: Opts, ys: seq<Value>, xs: seq<Value>, i: nat)
    requires i < |xs|
    ensures var y := SubstItem(e, o, xs[i]);
      Onto(ys, SubstItems(e, o, xs[i..])) ==
        if y.Err? then Err(y.error) else Onto(ys + [y.value], SubstItems(e, o, xs[i + 1..]))
  {
    hide SubstItem;
    assert xs[i..][1..] == xs[i + 1..];
    var y, rest := SubstItem(e, o, xs[i]), SubstItems(e, o, xs[i + 1..]);
    if y.Ok? && rest.Ok? { assert ys + ([y.value] + rest.value) == (ys + [y.value]) + rest.value; }
  }

  lemma FieldsEnds(e: Env, o: Opts, fs: seq<Field>, gs: seq<Field>)
    ensures fs[0..] == fs && Onto([], SubstFields(e, o, fs)) == SubstFields(e, o, fs)
    ensures Onto(gs, SubstFields(e, o, fs[|fs|..])) == Ok(gs)
  {
    var r := SubstFields(e, o, fs);
    assert r.Ok? ==> [] + r.value == r.value;
    assert gs + [] == gs;
  }

  lemma FieldsNext(e: Env, o: Opts, gs: seq<Field>, fs: seq<Field>, i: nat)
    requires i < |fs|
    ensures var y := SubstValue(e, o, fs[i].value);
      Onto(gs, SubstFields(e, o, fs[i..])) ==
        if y.Err? then Err(y.error)
        else Onto(gs + [Field(fs[i].key, y.value)], SubstFields(e, o, fs[i + 1..]))
  {
    hide SubstValue;
    assert fs[i..][1..] == fs[i + 1..];
    var y, rest := SubstValue(e, o, fs[i].value), SubstFields(e, o, fs[i + 1..]);
    if y.Ok? && rest.Ok? {
      var f := Field(fs[i].key, y.value);
      assert gs + ([f] + rest.value) == (gs + [f]) + rest.value;
    }
  }

  // ----- stray braces ------------------------------------------------------------------------

  /** One round of the loop of `Subst` at idx 0, where it replaces a wildcard: the value is a string in
      which no wildcard is found, so that its own expansion gives it back at once. */
  function RoundFromStart(text: string, d: Dict): Option<string>
  {
    match Search(text, 0)
    case None => None
    case Some((start, end)) =>
      var name := text[start + 1..end - 1];
      if name in d && d[name].Str? && Search(d[name].s, 0).None? then Some(Replaced(text, 0, start, end, d[name].s))
      else None
  }

  /** The string after n such rounds. */
  function Rounds(text: string, d: Dict, n: nat): Option<string>
    decreases n
  {
    if n == 0 then Some(text)
    else match RoundFromStart(text, d)
      case None => None
      case Some(next) => Rounds(next, d, n - 1)
  }

  lemma NoMatch(s: string)
    requires forall p :: 0 <= p < |s| ==> MatchAt(s, p).None?
    ensures Search(s, 0) == None
  {
    NoMatchFrom(s, 0);
  }

  lemma {:induction false} NoMatchFrom(s: string, p: nat)
    requires p <= |s| && forall q :: p <= q < |s| ==> MatchAt(s, q).None?
    ensures Search(s, p) == None
    decreases |s| - p
  {
    if p < |s| { NoMatchFrom(s, p + 1); }
  }

  /** Braces outside complete wildcards can make the loop rewrite a string back and forth forever: there
      is a next round after any number of rounds. */
  lemma StrayBracesLoop(n: nat)
    ensures var d := map["a" := Str("}}"), "b" := Str("{b{a")];
      Rounds("{b{a}", d, 2 * n) == Some("{b{a}") && Rounds("{b{a}", d, 2 * n + 1) == Some("{b}}")
  {
    OneRound();
    OtherRound();
    BackAndForth("{b{a}", "{b}}", map["a" := Str("}}"), "b" := Str("{b{a")], n);
  }

  lemma {:induction false} BackAndForth(a: string, b: string, d: Dict, n: nat)
    requires RoundFromStart(a, d) == Some(b) && RoundFromStart(b, d) == Some(a)
    ensures Rounds(a, d, 2 * n) == Some(a) && Rounds(a, d, 2 * n + 1) == Some(b)
  {
    hide RoundFromStart;
    if n > 0 {
      BackAndForth(a, b, d, n - 1);
      assert Rounds(a, d, 2 * n) == Rounds(b, d, 2 * n - 1) == Rounds(a, d, 2 * n - 2);
      assert Rounds(a, d, 2 * n + 1) == Rounds(b, d, 2 * n) == Rounds(a, d, 2 * n - 1);
    } else {
      assert Rounds(a, d, 1) == Rounds(b, d, 0);
    }
  }

  lemma OneRound()
    ensures RoundFromStart("{b{a}", map["a" := Str("}}"), "b" := Str("{b{a")]) == Some("{b}}")
  {
    NoMatch("}}");
    assert NameEnd("{b{a}", 1) == 2;
    assert MatchAt("{b{a}", 0) == None && MatchAt("{b{a}", 1) == None;
    MatchWild("{b", "a", "");
    assert "{b" + ("{" + "a" + "}") + "" == "{b{a}";
    assert Search("{b{a}", 0) == Search("{b{a}", 1) == Search("{b{a}", 2) == Some((2, 5));
    assert "{b{a}"[3..4] == "a" && Replaced("{b{a}", 0, 2, 5, "}}") == "{b}}";
  }

  lemma OtherRound()
    ensures RoundFromStart("{b}}", map["a" := Str("}}"), "b" := Str("{b{a")]) == Some("{b{a}")
  {
    NoMatch("{b{a");
    MatchWild("", "b", "}");
    assert "" + ("{" + "b" + "}") + "}" == "{b}}";
    assert Search("{b}}", 0) == Some((0, 3));
    assert "{b}}"[1..2] == "b" && Replaced("{b}}", 0, 0, 3, "{b{a") == "{b{a}";
  }
}
