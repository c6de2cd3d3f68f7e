/** Query validation and the cache key (utils/helpers.js). */
module Helpers {
  import opened Values

  predicate IsDigit(c: char)
  {
    '0' <= c <= '9'
  }

  /** True when every character of `s` is a decimal digit. */
  function DigitsOnly(s: string): (b: bool)
    ensures b <==> forall i :: 0 <= i < |s| ==> IsDigit(s[i])
  {
    if s == [] then true else IsDigit(s[0]) && DigitsOnly(s[1..])
  }

  /** `/^[0-9]+$/` on a value that must be a string: one or more digits,
      nothing else. Non-strings (numbers included) and "" are rejected. */
  function IsNumStr(v: JsValue): (b: bool)
    ensures b <==> v.Str? && |v.s| >= 1 && forall i :: 0 <= i < |v.s| ==> '0' <= v.s[i] <= '9'
  {
    v.Str? && v.s != [] && DigitsOnly(v.s)
  }

  predicate NumericText(s: string)
  {
    IsNumStr(Str(s))
  }

  /** The query sent to the portal. */
  datatype Params = Params(programa: string, sede: string, recurso: string)

  predicate NumericParams(p: Params)
  {
    NumericText(p.programa) && NumericText(p.sede) && NumericText(p.recurso)
  }

  /** `programa-sede-recurso`. */
  function CacheKey(p: Params): (k: string)
    ensures |k| == |p.programa| + |p.sede| + |p.recurso| + 2
    ensures k[..|p.programa|] == p.programa && k[|p.programa|] == '-'
    ensures k[|p.programa| + 1..|p.programa| + 1 + |p.sede|] == p.sede
    ensures k[|p.programa| + 1 + |p.sede|] == '-' && k[|p.programa| + |p.sede| + 2..] == p.recurso
  {
    p.programa + "-" + p.sede + "-" + p.recurso
  }

  predicate DashFree(s: string)
  {
    forall i :: 0 <= i < |s| ==> s[i] != '-'
  }

  lemma NumericHasNoDash(s: string)
    requires NumericText(s)
    ensures DashFree(s)
  {
  }

  /** Position of the first '-' in `s`, or |s| when there is none. */
  function DashIndex(s: string): (i: nat)
    ensures i <= |s|
  {
    if s == [] || s[0] == '-' then 0 else 1 + DashIndex(s[1..])
  }

  lemma {:induction false} DashIndexAfterHead(a: string, b: string)
    requires DashFree(a)
    ensures DashIndex(a + "-" + b) == |a|
  {
    if a != [] {
      assert (a + "-" + b)[1..] == a[1..] + "-" + b;
      DashIndexAfterHead(a[1..], b);
    }
  }

  /** Splitting at the first '-' recovers both halves when the head has none. */
  lemma SplitAtDash(a: string, b: string, c: string, d: string)
    requires DashFree(a) && DashFree(c)
    requires a + "-" + b == c + "-" + d
    ensures a == c && b == d
  {
    var x := a + "-" + b;
    DashIndexAfterHead(a, b);
    DashIndexAfterHead(c, d);
    assert a == x[..|a|] == c;
    assert b == x[|a| + 1..] == d;
  }

  /** Digit-only fields contain no '-', so the key determines the query. */
  lemma CacheKeyInjective(p1: Params, p2: Params)
    requires NumericParams(p1) && NumericParams(p2)
    ensures CacheKey(p1) == CacheKey(p2) <==> p1 == p2
  {
    if CacheKey(p1) == CacheKey(p2) {
      NumericHasNoDash(p1.programa);
      NumericHasNoDash(p2.programa);
      NumericHasNoDash(p1.sede);
      NumericHasNoDash(p2.sede);
      var r1 := p1.sede + "-" + p1.recurso;
      var r2 := p2.sede + "-" + p2.recurso;
      KeyAsHeadAndRest(p1);
      KeyAsHeadAndRest(p2);
      SplitAtDash(p1.programa, r1, p2.programa, r2);
      SplitAtDash(p1.sede, p1.recurso, p2.sede, p2.recurso);
    }
  }

  lemma KeyAsHeadAndRest(p: Params)
    ensures CacheKey(p) == p.programa + "-" + (p.sede + "-" + p.recurso)
  {
  }

  /** The key is a tuple, not a set: exchanging two different fields changes it. */
  lemma CacheKeyOrderSensitive(p: Params)
    requires NumericParams(p)
    ensures p.programa != p.sede ==> CacheKey(Params(p.sede, p.programa, p.recurso)) != CacheKey(p)
    ensures p.sede != p.recurso ==> CacheKey(Params(p.programa, p.recurso, p.sede)) != CacheKey(p)
    ensures p.programa != p.recurso ==> CacheKey(Params(p.recurso, p.sede, p.programa)) != CacheKey(p)
  {
    CacheKeyInjective(p, Params(p.sede, p.programa, p.recurso));
    CacheKeyInjective(p, Params(p.programa, p.recurso, p.sede));
    CacheKeyInjective(p, Params(p.recurso, p.sede, p.programa));
  }
}
