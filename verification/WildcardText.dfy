/** Strings with wildcards, as characters and as tokens, and the regular expression that finds them. */
module WildcardText {
  import opened Basics

  predicate NameChar(c: char)
  {
    'A' <= c <= 'Z' || 'a' <= c <= 'z' || '0' <= c <= '9' || c == '_'
  }

  predicate IsName(s: string)
  {
    s != [] && forall i :: 0 <= i < |s| ==> NameChar(s[i])
  }

  datatype Token = Text(c: char) | Wild(name: string)

  /** A wildcard with a proper name, or a character that is not a brace. */
  predicate Proper(t: Token)
  {
    match t
    case Text(c) => c != '{' && c != '}'
    case Wild(n) => IsName(n)
  }

  predicate AllProper(ts: seq<Token>)
  {
    forall i :: 0 <= i < |ts| ==> Proper(ts[i])
  }

  function RenderToken(t: Token): string
  {
    match t
    case Text(c) => [c]
    case Wild(n) => "{" + n + "}"
  }

  function Render(ts: seq<Token>): string
  {
    if ts == [] then "" else RenderToken(ts[0]) + Render(ts[1..])
  }

  lemma {:induction false} RenderConcat(a: seq<Token>, b: seq<Token>)
    ensures Render(a + b) == Render(a) + Render(b)
  {
    if a == [] {
      assert a + b == b;
    } else {
      assert (a + b)[1..] == a[1..] + b;
      RenderConcat(a[1..], b);
    }
  }

  // ----- the regular expression --------------------------------------------------------------

  /** The end of the run of name characters starting at p. */
  function NameEnd(s: string, p: nat): (q: nat)
    requires p <= |s|
    ensures p <= q <= |s|
    decreases |s| - p
  {
    if p < |s| && NameChar(s[p]) then NameEnd(s, p + 1) else p
  }

  /** The end of a wildcard that starts at p, if one does. */
  function MatchAt(s: string, p: nat): (r: Option<nat>)
    requires p < |s|
    ensures r.Some? ==> p + 2 < r.value <= |s|
  {
    if s[p] != '{' then None
    else
      var q := NameEnd(s, p + 1);
      if q > p + 1 && q < |s| && s[q] == '}' then Some(q + 1) else None
  }

  /** Start and end of the leftmost wildcard at or after p. */
  function Search(s: string, p: nat): (r: Option<(nat, nat)>)
    requires p <= |s|
    ensures r.Some? ==> p <= r.value.0 && r.value.0 + 2 < r.value.1 <= |s|
    decreases |s| - p
  {
    if p == |s| then None
    else match MatchAt(s, p)
      case Some(q) => Some((p, q))
      case None => Search(s, p + 1)
  }

  /** The characters of a name, by their codes: letters, digits and the underscore. */
  lemma NameChars(c: char)
    ensures var n := c as int; NameChar(c) <==> 65 <= n <= 90 || 97 <= n <= 122 || 48 <= n <= 57 || n == 95
  {}

  /** A brace, one or more name characters and a closing brace. */
  predicate IsMatch(s: string, p: nat, q: nat)
  {
    && p + 2 < q <= |s| && s[p] == '{' && s[q - 1] == '}'
    && forall i :: p < i < q - 1 ==> NameChar(s[i])
  }

  lemma {:induction false} NameEndExact(s: string, p: nat)
    requires p <= |s|
    ensures var q := NameEnd(s, p);
      (forall i :: p <= i < q ==> NameChar(s[i])) && (q < |s| ==> !NameChar(s[q]))
    decreases |s| - p
  {
    if p < |s| && NameChar(s[p]) { NameEndExact(s, p + 1); }
  }

  /** The regular expression matches exactly there. */
  lemma MatchExact(s: string, p: nat, q: nat)
    requires p < |s|
    ensures MatchAt(s, p) == Some(q) <==> IsMatch(s, p, q)
  {
    NameEndExact(s, p + 1);
  }

  /** The search finds the leftmost match, in any string. */
  lemma {:induction false} SearchExact(s: string, p: nat)
    requires p <= |s|
    ensures Search(s, p).Some? ==>
      && IsMatch(s, Search(s, p).value.0, Search(s, p).value.1)
      && forall a, b :: p <= a < Search(s, p).value.0 ==> !IsMatch(s, a, b)
    ensures Search(s, p).None? ==> forall a, b :: p <= a < |s| ==> !IsMatch(s, a, b)
    decreases |s| - p
  {
    hide MatchAt, IsMatch;
    if p < |s| {
      if MatchAt(s, p).Some? {
        MatchExact(s, p, MatchAt(s, p).value);
      } else {
        forall b: nat ensures !IsMatch(s, p, b) { MatchExact(s, p, b); }
        SearchExact(s, p + 1);
      }
    }
  }

  lemma {:induction false} NameEndInName(pre: string, name: string, post: string, k: nat)
    requires forall i :: 0 <= i < |name| ==> NameChar(name[i])
    requires post != [] && !NameChar(post[0]) && k <= |name|
    ensures NameEnd(pre + name + post, |pre| + k) == |pre| + |name|
    decreases |name| - k
  {
    var s := pre + name + post;
    if k < |name| {
      assert s[|pre| + k] == name[k];
      NameEndInName(pre, name, post, k + 1);
    } else {
      assert s[|pre| + k] == post[0];
    }
  }

  /** A rendered wildcard is matched where it stands. */
  lemma MatchWild(pre: string, name: string, post: string)
    requires IsName(name)
    ensures MatchAt(pre + ("{" + name + "}") + post, |pre|) == Some(|pre| + |name| + 2)
  {
    var s := pre + ("{" + name + "}") + post;
    assert s == (pre + "{") + name + ("}" + post);
    NameEndInName(pre + "{", name, "}" + post, 0);
    assert s[|pre| + 1 + |name|] == '}';
  }

  // ----- tokens of a string ------------------------------------------------------------------

  function Tokenize(s: string): seq<Token>
    decreases |s|
  {
    if s == [] then []
    else match MatchAt(s, 0)
      case Some(q) => [Wild(s[1..q - 1])] + Tokenize(s[q..])
      case None => [Text(s[0])] + Tokenize(s[1..])
  }

  lemma TokenizeText(c: char, rest: string)
    requires c != '{'
    ensures Tokenize([c] + rest) == [Text(c)] + Tokenize(rest)
  {
    assert ([c] + rest)[1..] == rest;
  }

  lemma TokenizeWild(n: string, rest: string)
    requires IsName(n)
    ensures Tokenize(("{" + n + "}") + rest) == [Wild(n)] + Tokenize(rest)
  {
    var s := ("{" + n + "}") + rest;
    assert s == "" + ("{" + n + "}") + rest;
    MatchWild("", n, rest);
    hide MatchAt, IsName;
    assert s[1..|n| + 1] == n && s[|n| + 2..] == rest;
  }

  lemma {:induction false} TokenizeRender(ts: seq<Token>)
    requires AllProper(ts)
    ensures Tokenize(Render(ts)) == ts
  {
    hide Tokenize, IsName;
    if ts == [] {
      TokenizeNothing();
    } else {
      TokenizeRender(ts[1..]);
      assert ts == [ts[0]] + ts[1..];
      assert Proper(ts[0]);
      match ts[0] {
        case Text(c) => TokenizeText(c, Render(ts[1..]));
        case Wild(n) => TokenizeWild(n, Render(ts[1..]));
      }
    }
  }

  lemma TokenizeNothing()
    ensures Tokenize("") == []
  {}

  lemma {:induction false} NameEndIsName(s: string, p: nat)
    requires p <= |s|
    ensures forall i :: p <= i < NameEnd(s, p) ==> NameChar(s[i])
    decreases |s| - p
  {
    if p < |s| && NameChar(s[p]) { NameEndIsName(s, p + 1); }
  }

  lemma MatchShape(s: string)
    requires s != []
    ensures match MatchAt(s, 0)
      case Some(q) => s == RenderToken(Wild(s[1..q - 1])) + s[q..]
      case None => s == RenderToken(Text(s[0])) + s[1..]
  {
    hide NameEnd;
  }

  lemma {:induction false} RenderTokenize(s: string)
    ensures Render(Tokenize(s)) == s
    decreases |s|
  {
    if s != [] {
      MatchShape(s);
      hide MatchAt, Render, RenderToken;
      match MatchAt(s, 0)
      case Some(q) =>
        RenderTokenize(s[q..]);
        RenderFirst(Wild(s[1..q - 1]), Tokenize(s[q..]));
      case None =>
        RenderTokenize(s[1..]);
        RenderFirst(Text(s[0]), Tokenize(s[1..]));
    }
  }

  lemma RenderFirst(t: Token, ts: seq<Token>)
    ensures Render([t] + ts) == RenderToken(t) + Render(ts)
  {
    assert ([t] + ts)[1..] == ts;
  }

  // ----- searching a rendered token list -----------------------------------------------------

  /** The first wildcard token, or the number of tokens. */
  function FirstWild(ts: seq<Token>): (k: nat)
    ensures k <= |ts| && (k < |ts| ==> ts[k].Wild?)
    ensures forall i :: 0 <= i < k ==> ts[i].Text?
  {
    if ts == [] || ts[0].Wild? then 0 else 1 + FirstWild(ts[1..])
  }

  /** No match starts at a character that is not an opening brace. */
  lemma {:induction false} SearchSkipsText(pre: string, ts: seq<Token>, k: nat)
    requires AllProper(ts) && k <= FirstWild(ts)
    ensures |Render(ts[..k])| == k && k <= |Render(ts)|
    ensures Search(pre + Render(ts), |pre|) == Search(pre + Render(ts), |pre| + k)
    decreases k
  {
    hide Search, MatchAt, IsName, AllProper, FirstWild, Render;
    if k > 0 {
      var t, rest := ts[0], ts[1..];
      StartsWithText(ts);
      assert ts == [t] + rest && ts[..k] == [t] + rest[..k - 1];
      RenderFirst(t, rest);
      RenderFirst(t, rest[..k - 1]);
      assert pre + Render(ts) == (pre + [t.c]) + Render(rest);
      SearchSkipsText(pre + [t.c], rest, k - 1);
      SkipOne(pre, t.c, Render(rest));
    } else {
      RenderNothing(ts[..k]);
    }
  }

  lemma StartsWithText(ts: seq<Token>)
    requires AllProper(ts) && FirstWild(ts) > 0
    ensures ts[0].Text? && ts[0].c != '{' && AllProper(ts[1..]) && FirstWild(ts[1..]) == FirstWild(ts) - 1
  {
    assert Proper(ts[0]);
  }

  lemma RenderNothing(ts: seq<Token>)
    requires ts == []
    ensures Render(ts) == ""
  {}

  lemma SkipOne(pre: string, c: char, post: string)
    requires c != '{'
    ensures Search(pre + ([c] + post), |pre|) == Search(pre + ([c] + post), |pre| + 1)
  {
    assert (pre + ([c] + post))[|pre|] == c;
  }

  /** The search finds exactly the first wildcard token. */
  lemma SearchFindsFirst(ts: seq<Token>)
    requires AllProper(ts)
    ensures var k := FirstWild(ts); var start := |Render(ts[..k])|;
      Search(Render(ts), 0) == if k == |ts| then None else Some((start, start + |ts[k].name| + 2))
  {
    hide Render, FirstWild, MatchAt, IsName;
    var k := FirstWild(ts);
    SearchSkipsText("", ts, k);
    assert "" + Render(ts) == Render(ts);
    if k < |ts| {
      RenderAround(ts, k);
      assert Proper(ts[k]);
      MatchWild(Render(ts[..k]), ts[k].name, Render(ts[k + 1..]));
    } else {
      assert ts[..k] == ts;
    }
  }

  /** A rendering around one of its wildcards. */
  lemma RenderAround(ts: seq<Token>, k: nat)
    requires k < |ts|
    ensures Render(ts) == Render(ts[..k]) + RenderToken(ts[k]) + Render(ts[k + 1..])
  {
    assert ts == ts[..k] + ts[k..];
    RenderConcat(ts[..k], ts[k..]);
    assert ts[k..][1..] == ts[k + 1..];
  }
}
