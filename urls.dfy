/** Request paths: the trailing slash the base-URL getters enforce, and the
    query strings the endpoints build, with a parser that reads them back. */
module Urls {
  import opened Php

  predicate EndsWithSlash(u: string) {
    |u| > 0 && u[|u| - 1] == '/'
  }

  /** The base-URL rule: the shortest extension of `u` that ends with '/'.
      The empty URL becomes "/". */
  function WithTrailingSlash(u: string): (r: string)
    ensures EndsWithSlash(r)
    ensures u <= r && |r| <= |u| + 1
    ensures r == u <==> EndsWithSlash(u)
  {
    if !EndsWithSlash(u) then u + "/" else u
  }

  lemma TrailingSlashIdempotent(u: string)
    ensures WithTrailingSlash(WithTrailingSlash(u)) == WithTrailingSlash(u)
  {
  }

  /** A normalised base URL is never empty in the sense of `empty()`: the
      endpoint guards test the URL as it was set, not its normalised form. */
  lemma NormalisedNeverEmpty(u: string)
    ensures !Empty(WithTrailingSlash(u))
  {
  }

  /** One query parameter: its name and its value. */
  type Param = (string, string)

  /** `k1=v1&k2=v2&...`, exactly as the endpoints concatenate it. */
  function Encode(ps: seq<Param>): string
    requires |ps| > 0
    decreases |ps|
  {
    ps[0].0 + "=" + ps[0].1 + if |ps| == 1 then "" else "&" + Encode(ps[1..])
  }

  /** A path followed by its query string. */
  function Render(path: string, ps: seq<Param>): string
    requires |ps| > 0
  {
    path + "?" + Encode(ps)
  }

  /** Appending a parameter appends `&name=value`, the way the endpoints
      extend a query string. */
  lemma {:induction false} EncodeSnoc(ps: seq<Param>, name: string, value: string)
    requires |ps| > 0
    ensures Encode(ps + [(name, value)]) == Encode(ps) + "&" + name + "=" + value
    decreases |ps|
  {
    assert (ps + [(name, value)])[0] == ps[0];
    if |ps| == 1 {
      assert (ps + [(name, value)])[1..] == [(name, value)];
    } else {
      assert (ps + [(name, value)])[1..] == ps[1..] + [(name, value)];
      EncodeSnoc(ps[1..], name, value);
    }
  }

  lemma RenderSnoc(path: string, ps: seq<Param>, name: string, value: string)
    requires |ps| > 0
    ensures Render(path, ps + [(name, value)]) == Render(path, ps) + "&" + name + "=" + value
  {
    EncodeSnoc(ps, name, value);
  }

  /** `rendered + "&name=" + value`, the way the endpoints write it, extends
      the query by one parameter. */
  lemma RenderExtend(path: string, ps: seq<Param>, name: string, separator: string, value: string)
    requires |ps| > 0 && separator == "&" + name + "="
    ensures Render(path, ps) + separator + value == Render(path, ps + [(name, value)])
  {
    RenderSnoc(path, ps, name, value);
  }

  /** `lead + value`, with `lead` the literal `?name=`, is the query string
      of that one parameter. */
  lemma QueryFirst(name: string, lead: string, value: string)
    requires lead == "?" + name + "="
    ensures lead + value == "?" + Encode([(name, value)])
  {
  }

  /** A query string extended by `&name=value`, with `separator` the literal
      `&name=`, is the query string with one more parameter. */
  lemma QueryExtend(q: string, ps: seq<Param>, name: string, separator: string, value: string)
    requires |ps| > 0 && q == "?" + Encode(ps) && separator == "&" + name + "="
    ensures q + separator + value == "?" + Encode(ps + [(name, value)])
  {
    var e := Encode(ps);
    EncodeSnoc(ps, name, value);
    Associative(e, "&", name, "=");
    assert e + separator + value == Encode(ps + [(name, value)]);
    Associative("?", e, separator, value);
  }

  /** Proof helper: `(a + b) + c + d == a + (b + c + d)` for strings,
      which the solver does not always find by itself. */
  lemma Associative(a: string, b: string, c: string, d: string)
    ensures a + b + c + d == a + (b + c + d)
  {
  }

  /** A value that cannot end its parameter early. It may hold '=' and '?':
      a parameter is cut at its first '=', a URI at its first '?'. */
  predicate QueryValue(s: string) {
    '&' !in s
  }

  /** Parameters a parser can read back: no '&' anywhere, no '=' in a name. */
  predicate WellFormed(ps: seq<Param>) {
    forall i :: 0 <= i < |ps| ==> '&' !in ps[i].0 && '=' !in ps[i].0 && QueryValue(ps[i].1)
  }

  /** A parameter name a parser can read back. */
  predicate QueryName(s: string) {
    '&' !in s && '=' !in s
  }

  lemma WellFormedSnoc(ps: seq<Param>, name: string, value: string)
    requires WellFormed(ps) && QueryName(name) && QueryValue(value)
    ensures WellFormed(ps + [(name, value)])
  {
    var qs := ps + [(name, value)];
    forall i | 0 <= i < |qs| ensures '&' !in qs[i].0 && '=' !in qs[i].0 && QueryValue(qs[i].1) {
      if i < |ps| {
        assert qs[i] == ps[i];
      }
    }
  }

  lemma WellFormedAppend(ps: seq<Param>, qs: seq<Param>)
    requires WellFormed(ps) && WellFormed(qs)
    ensures WellFormed(ps + qs)
  {
    var rs := ps + qs;
    forall i | 0 <= i < |rs| ensures '&' !in rs[i].0 && '=' !in rs[i].0 && QueryValue(rs[i].1) {
      if i < |ps| {
        assert rs[i] == ps[i];
      } else {
        assert rs[i] == qs[i - |ps|];
      }
    }
  }

  /** Splits `s` at the first `c`: what precedes it, and what follows it if
      `c` occurs at all. */
  function Cut(s: string, c: char): (r: (string, Option<string>))
    ensures c !in r.0
    ensures r.1.None? ==> r.0 == s
    ensures r.1.Some? ==> s == r.0 + [c] + r.1.value
    decreases |s|
  {
    if |s| == 0 then ("", None)
    else if s[0] == c then ("", Some(s[1..]))
    else
      var t := Cut(s[1..], c);
      ([s[0]] + t.0, t.1)
  }

  lemma {:induction false} CutAt(a: string, c: char, b: string)
    requires c !in a
    ensures Cut(a + [c] + b, c) == (a, Some(b))
    decreases |a|
  {
    if |a| == 0 {
      assert a + [c] + b == [c] + b;
    } else {
      assert (a + [c] + b)[1..] == a[1..] + [c] + b;
      CutAt(a[1..], c, b);
      assert [a[0]] + a[1..] == a;
    }
  }

  lemma {:induction false} CutAbsent(a: string, c: char)
    requires c !in a
    ensures Cut(a, c) == (a, None)
    decreases |a|
  {
    if |a| > 0 {
      CutAbsent(a[1..], c);
      assert [a[0]] + a[1..] == a;
    }
  }

  /** One `name=value` item; a missing '=' gives an empty value. */
  function ParseParam(item: string): Param {
    var t := Cut(item, '=');
    (t.0, t.1.GetOr(""))
  }

  /** The '&'-separated items of a query string. */
  function ParseParams(q: string): seq<Param>
    decreases |q|
  {
    var t := Cut(q, '&');
    [ParseParam(t.0)] + if t.1.Some? then ParseParams(t.1.value) else []
  }

  /** A request URI split into its path and its query parameters. */
  function ParseUri(uri: string): (string, seq<Param>) {
    var t := Cut(uri, '?');
    (t.0, if t.1.Some? then ParseParams(t.1.value) else [])
  }

  lemma {:induction false} ParseEncode(ps: seq<Param>)
    requires |ps| > 0 && WellFormed(ps)
    ensures ParseParams(Encode(ps)) == ps
    decreases |ps|
  {
    var item := ps[0].0 + "=" + ps[0].1;
    CutAt(ps[0].0, '=', ps[0].1);
    assert ParseParam(item) == ps[0];
    assert '&' !in item by {
      assert '&' !in ps[0].0 && '&' !in ps[0].1;
    }
    if |ps| == 1 {
      assert Encode(ps) == item;
      CutAbsent(item, '&');
    } else {
      assert Encode(ps) == item + ['&'] + Encode(ps[1..]);
      CutAt(item, '&', Encode(ps[1..]));
      assert WellFormed(ps[1..]) by {
        forall i | 0 <= i < |ps| - 1
          ensures '&' !in ps[1..][i].0 && '=' !in ps[1..][i].0 && QueryValue(ps[1..][i].1)
        {
          assert ps[1..][i] == ps[i + 1];
        }
      }
      ParseEncode(ps[1..]);
    }
  }

  /** Reading a rendered URI back gives its path and parameters, in order. */
  lemma ParseRender(path: string, ps: seq<Param>)
    requires '?' !in path && |ps| > 0 && WellFormed(ps)
    ensures ParseUri(Render(path, ps)) == (path, ps)
  {
    CutAt(path, '?', Encode(ps));
    ParseEncode(ps);
  }

  /** Two requests share a URI only when they share path and parameters. */
  lemma RenderInjective(path1: string, ps1: seq<Param>, path2: string, ps2: seq<Param>)
    requires '?' !in path1 && |ps1| > 0 && WellFormed(ps1)
    requires '?' !in path2 && |ps2| > 0 && WellFormed(ps2)
    ensures Render(path1, ps1) == Render(path2, ps2) <==> path1 == path2 && ps1 == ps2
  {
    ParseRender(path1, ps1);
    ParseRender(path2, ps2);
  }

  /** A rendered integer can stand as a query value. */
  lemma IntToStringIsQueryValue(n: int)
    ensures QueryValue(IntToString(n))
  {
  }
}
