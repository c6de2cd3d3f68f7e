/** String helpers the front end relies on: the date part of a timestamp
    (`fecha_inicio.split(" ")[0]`) and the default ordering of
    `Array.prototype.sort` on strings. */
module Text {

  /** `s.split(" ")[0]`: the text before the first space, or all of `s`. */
  function DatePrefix(s: string): (p: string)
    ensures |p| <= |s| && p == s[..|p|]
    ensures forall i :: 0 <= i < |p| ==> p[i] != ' '
    ensures |p| < |s| ==> s[|p|] == ' '
  {
    if s == [] || s[0] == ' ' then [] else [s[0]] + DatePrefix(s[1..])
  }

  /** `a` sorts strictly before `b`: character by character, a proper prefix
      first. */
  function Below(a: string, b: string): (lt: bool)
    ensures lt ==> a != b
    ensures |a| < |b| && a == b[..|a|] ==> lt
  {
    if a == [] then b != []
    else if b == [] then false
    else if a[0] != b[0] then a[0] < b[0]
    else Below(a[1..], b[1..])
  }

  lemma {:induction false} BelowIrreflexive(a: string)
    ensures !Below(a, a)
  {
    if a != [] {
      BelowIrreflexive(a[1..]);
    }
  }

  lemma {:induction false} BelowTransitive(a: string, b: string, c: string)
    requires Below(a, b) && Below(b, c)
    ensures Below(a, c)
  {
    if a != [] && b != [] && c != [] && a[0] == b[0] && b[0] == c[0] {
      BelowTransitive(a[1..], b[1..], c[1..]);
    }
  }

  lemma {:induction false} BelowTotal(a: string, b: string)
    ensures a == b || Below(a, b) || Below(b, a)
  {
    if a != [] && b != [] && a[0] == b[0] {
      BelowTotal(a[1..], b[1..]);
      if a[1..] == b[1..] {
        assert a == [a[0]] + a[1..] && b == [b[0]] + b[1..];
      }
    }
  }

  lemma BelowAsymmetric(a: string, b: string)
    ensures !(Below(a, b) && Below(b, a))
  {
    if Below(a, b) && Below(b, a) {
      BelowTransitive(a, b, a);
      BelowIrreflexive(a);
    }
  }

  /** "Not after" is transitive. */
  lemma NotBelowTransitive(a: string, b: string, c: string)
    requires !Below(a, b) && !Below(b, c)
    ensures !Below(a, c)
  {
    if Below(a, c) {
      BelowTotal(b, c);
      if Below(c, b) {
        BelowTransitive(a, c, b);
      }
    }
  }

  predicate Ascending(s: seq<string>)
  {
    forall i, j :: 0 <= i < j < |s| ==> !Below(s[j], s[i])
  }

  predicate Distinct<T(==)>(s: seq<T>)
  {
    forall i, j :: 0 <= i < j < |s| ==> s[i] != s[j]
  }

  predicate StrictlyAscending(s: seq<string>)
  {
    forall i, j :: 0 <= i < j < |s| ==> Below(s[i], s[j])
  }

  function Insert(x: string, s: seq<string>): (r: seq<string>)
    ensures multiset(r) == multiset(s) + multiset{x}
    ensures Ascending(s) ==> Ascending(r)
  {
    if s == [] then [x]
    else if !Below(s[0], x) then
      AscendingCons(x, s);
      [x] + s
    else
      var rest := Insert(x, s[1..]);
      assert s == [s[0]] + s[1..];
      if Ascending(s) then
        AscendingAfterHead(x, s, rest);
        [s[0]] + rest
      else
        [s[0]] + rest
  }

  lemma AscendingCons(x: string, s: seq<string>)
    requires s != [] && !Below(s[0], x)
    ensures Ascending(s) ==> Ascending([x] + s)
  {
    if Ascending(s) {
      forall j | 0 < j < |s| ensures !Below(s[j], x) {
        NotBelowTransitive(s[j], s[0], x);
      }
    }
  }

  lemma AscendingAfterHead(x: string, s: seq<string>, rest: seq<string>)
    requires s != [] && Ascending(s) && Below(s[0], x)
    requires multiset(rest) == multiset(s[1..]) + multiset{x}
    requires Ascending(s[1..]) ==> Ascending(rest)
    ensures Ascending([s[0]] + rest)
  {
    assert Ascending(s[1..]);
    forall j | 0 <= j < |rest| ensures !Below(rest[j], s[0]) {
      var y := rest[j];
      assert y in multiset(rest);
      if y == x {
        BelowAsymmetric(s[0], x);
      } else {
        assert y in multiset(s[1..]);
        var k :| 0 <= k < |s[1..]| && s[1..][k] == y;
        assert s[k + 1] == y;
      }
    }
  }

  /** `array.sort()` on strings, as an insertion sort. */
  function SortStrings(s: seq<string>): (r: seq<string>)
    ensures Ascending(r) && multiset(r) == multiset(s)
  {
    if s == [] then []
    else
      assert s == [s[0]] + s[1..];
      Insert(s[0], SortStrings(s[1..]))
  }

  lemma {:induction false} DistinctByCount<T>(s: seq<T>)
    ensures Distinct(s) <==> forall x :: multiset(s)[x] <= 1
  {
    if s != [] {
      DistinctByCount(s[1..]);
      assert s == [s[0]] + s[1..];
      if Distinct(s) {
        assert Distinct(s[1..]);
        assert s[0] !in s[1..];
      } else {
        var i, j :| 0 <= i < j < |s| && s[i] == s[j];
        if i == 0 {
          assert s[1..][j - 1] == s[0];
          assert multiset(s)[s[0]] >= 2;
        } else {
          assert s[1..][i - 1] == s[1..][j - 1];
          assert !Distinct(s[1..]);
          var x :| multiset(s[1..])[x] > 1;
          assert multiset(s)[x] > 1;
        }
      }
    }
  }

  /** Sorting a list without repeats yields a strictly ascending list of the
      same elements. */
  lemma SortDistinct(s: seq<string>)
    requires Distinct(s)
    ensures StrictlyAscending(SortStrings(s))
    ensures forall x :: x in SortStrings(s) <==> x in s
  {
    var r := SortStrings(s);
    DistinctByCount(s);
    DistinctByCount(r);
    forall i, j | 0 <= i < j < |r| ensures Below(r[i], r[j]) {
      BelowTotal(r[i], r[j]);
    }
    forall x ensures x in r <==> x in s {
      assert x in r <==> x in multiset(r);
      assert x in s <==> x in multiset(s);
    }
  }
}
