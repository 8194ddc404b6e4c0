/**
  The order in which JavaScript sorts strings, and the one strictly ascending sequence of a
  finite set of strings.
 */
module CanonicalOrder {
  // ---- Comparing by UTF-16 code unit ------------------------------------------------

  // Characters compare as their first code units do: those above U+FFFF are written with
  // surrogates, which sort before U+E000..U+FFFF.
  function Weight(c: char): (w: int) {
    var code := c as int;
    if 0xE000 <= code < 0x1_0000 then code + 0x11_0000 else code
  }

  lemma WeightIsInjective(a: char, b: char)
    requires Weight(a) == Weight(b)
    ensures a == b
  {
    assert a as int == b as int;
  }

  predicate Less(a: string, b: string) {
    if a == "" then b != ""
    else if b == "" then false
    else if a[0] == b[0] then Less(a[1..], b[1..])
    else Weight(a[0]) < Weight(b[0])
  }

  lemma {:induction false} LessIsTotal(a: string, b: string)
    ensures Less(a, b) || a == b || Less(b, a)
  {
    if a != "" && b != "" {
      if a[0] == b[0] {
        LessIsTotal(a[1..], b[1..]);
        assert a == [a[0]] + a[1..] && b == [b[0]] + b[1..];
      } else if Weight(a[0]) == Weight(b[0]) {
        WeightIsInjective(a[0], b[0]);
        assert false;
      }
    }
  }

  lemma {:induction false} LessIsIrreflexive(a: string)
    ensures !Less(a, a)
  {
    if a != "" {
      LessIsIrreflexive(a[1..]);
    }
  }

  lemma {:induction false} LessIsTransitive(a: string, b: string, c: string)
    requires Less(a, b) && Less(b, c)
    ensures Less(a, c)
  {
    if a != "" && b != "" && c != "" && a[0] == b[0] == c[0] {
      LessIsTransitive(a[1..], b[1..], c[1..]);
    }
  }

  // The code units of a character: one, or a surrogate pair.
  function UnitsOf(c: char): (u: seq<int>)
    ensures u != []
  {
    var code := c as int;
    if code < 0x1_0000 then [code]
    else [0xD800 + (code - 0x1_0000) / 0x400, 0xDC00 + (code - 0x1_0000) % 0x400]
  }

  function CodeUnits(s: string): seq<int> {
    if s == "" then [] else UnitsOf(s[0]) + CodeUnits(s[1..])
  }

  predicate UnitsLess(a: seq<int>, b: seq<int>) {
    if a == [] then b != []
    else if b == [] then false
    else a[0] < b[0] || (a[0] == b[0] && UnitsLess(a[1..], b[1..]))
  }

  // The order is that of the code units, read from the left.
  lemma {:induction false} LessComparesCodeUnits(a: string, b: string)
    ensures Less(a, b) <==> UnitsLess(CodeUnits(a), CodeUnits(b))
  {
    if a != "" && b != "" {
      if a[0] == b[0] {
        LessComparesCodeUnits(a[1..], b[1..]);
        SameStart(UnitsOf(a[0]), CodeUnits(a[1..]), CodeUnits(b[1..]));
      } else {
        FirstCharDecides(a[0], b[0], CodeUnits(a[1..]), CodeUnits(b[1..]));
      }
    }
  }

  lemma {:induction false} SameStart(u: seq<int>, a: seq<int>, b: seq<int>)
    ensures UnitsLess(u + a, u + b) == UnitsLess(a, b)
  {
    if u == [] {
      assert u + a == a && u + b == b;
    } else {
      SameStart(u[1..], a, b);
      assert (u + a)[1..] == u[1..] + a && (u + b)[1..] == u[1..] + b;
    }
  }

  lemma FirstCharDecides(x: char, y: char, a: seq<int>, b: seq<int>)
    requires x != y
    ensures UnitsLess(UnitsOf(x) + a, UnitsOf(y) + b) <==> Weight(x) < Weight(y)
  {
    var u, v := UnitsOf(x), UnitsOf(y);
    if u[0] == v[0] {
      PairsDiffer(x, y);
      assert u + a == [u[0]] + ([u[1]] + a) && v + b == [v[0]] + ([v[1]] + b);
      SameStart([u[0]], [u[1]] + a, [v[1]] + b);
    } else {
      FirstUnitDecides(x, y);
    }
  }

  lemma PairsDiffer(x: char, y: char)
    requires x != y && UnitsOf(x)[0] == UnitsOf(y)[0]
    ensures |UnitsOf(x)| == |UnitsOf(y)| == 2 && UnitsOf(x)[1] != UnitsOf(y)[1]
    ensures UnitsOf(x)[1] < UnitsOf(y)[1] <==> Weight(x) < Weight(y)
  {
    assert x as int != y as int;
  }

  lemma FirstUnitDecides(x: char, y: char)
    requires UnitsOf(x)[0] != UnitsOf(y)[0]
    ensures UnitsOf(x)[0] < UnitsOf(y)[0] <==> Weight(x) < Weight(y)
  {
  }

  // ---- Ascending sequences -----------------------------------------------------------

  ghost predicate IsAscending(s: seq<string>) {
    forall i, j :: 0 <= i < j < |s| ==> Less(s[i], s[j])
  }

  ghost function Elements<T>(s: seq<T>): set<T> {
    set x | x in s
  }

  ghost predicate IsLeast(x: string, s: set<string>) {
    x in s && forall y :: y in s && y != x ==> Less(x, y)
  }

  lemma {:induction false} LeastExists(s: set<string>)
    requires s != {}
    ensures exists x :: IsLeast(x, s)
    decreases |s|
  {
    var x :| x in s;
    if s == {x} {
      assert IsLeast(x, s);
    } else {
      LeastExists(s - {x});
      var y :| IsLeast(y, s - {x});
      LessIsTotal(x, y);
      if Less(x, y) {
        forall z | z in s && z != x && z != y ensures Less(x, z) {
          LessIsTransitive(x, y, z);
        }
        assert IsLeast(x, s);
      } else {
        assert IsLeast(y, s);
      }
    }
  }

  // The elements of `s` in order.
  ghost function Ascending(s: set<string>): (r: seq<string>)
    ensures IsAscending(r) && Elements(r) == s
    decreases |s|
  {
    if s == {} then []
    else
      LeastExists(s);
      var x :| IsLeast(x, s);
      var rest := Ascending(s - {x});
      LeastGoesFirst(x, s, rest);
      [x] + rest
  }

  lemma LeastGoesFirst(x: string, s: set<string>, rest: seq<string>)
    requires IsLeast(x, s) && IsAscending(rest) && Elements(rest) == s - {x}
    ensures IsAscending([x] + rest) && Elements([x] + rest) == s
  {
    forall k | 0 <= k < |rest| ensures Less(x, rest[k]) {
      assert rest[k] in Elements(rest);
    }
    forall y ensures y in Elements([x] + rest) <==> y in s {
      assert y in rest <==> y in Elements(rest);
    }
  }

  // Two ascending sequences with the same elements are the same, position by position.
  lemma {:induction false} AscendingIsUnique(a: seq<string>, b: seq<string>)
    requires IsAscending(a) && IsAscending(b) && Elements(a) == Elements(b)
    ensures a == b
  {
    NothingInEmpty(a);
    NothingInEmpty(b);
    if a != [] {
      HeadIsLeast(a, b);
      RestHasOtherElements(a);
      RestHasOtherElements(b);
      AscendingIsUnique(a[1..], b[1..]);
      assert a == [a[0]] + a[1..] && b == [b[0]] + b[1..];
    }
  }

  lemma NothingInEmpty(s: seq<string>)
    ensures s == [] <==> Elements(s) == {}
  {
    if s != [] {
      assert s[0] in Elements(s);
    }
  }

  lemma HeadIsLeast(a: seq<string>, b: seq<string>)
    requires IsAscending(a) && IsAscending(b) && Elements(a) == Elements(b) && |a| > 0 && |b| > 0
    ensures a[0] == b[0]
  {
    assert a[0] in Elements(b) && b[0] in Elements(a);
    var i :| 0 <= i < |b| && b[i] == a[0];
    var j :| 0 <= j < |a| && a[j] == b[0];
    if i != 0 && j != 0 {
      LessIsTransitive(a[0], b[0], a[0]);
      LessIsIrreflexive(a[0]);
      assert false;
    }
  }

  lemma RestHasOtherElements(a: seq<string>)
    requires IsAscending(a) && |a| > 0
    ensures IsAscending(a[1..]) && Elements(a[1..]) == Elements(a) - {a[0]}
  {
    LessIsIrreflexive(a[0]);
    forall x | x in Elements(a) && x != a[0] ensures x in a[1..] {
      var i :| 0 <= i < |a| && a[i] == x;
      assert a[1..][i - 1] == x;
    }
  }

  // Any ascending sequence is the canonical one of its elements.
  lemma AscendingOfElements(a: seq<string>)
    requires IsAscending(a)
    ensures Ascending(Elements(a)) == a
  {
    AscendingIsUnique(Ascending(Elements(a)), a);
  }

  // Sorts the members of a set, by insertion.
  method Sorted(s: set<string>) returns (r: seq<string>)
    ensures r == Ascending(s)
    ensures (forall x :: x in r <==> x in s) && IsAscending(r)
  {
    r := [];
    var rest := s;
    while rest != {}
      invariant rest <= s && IsAscending(r) && Elements(r) == s - rest
    {
      var x :| x in rest;
      assert x !in Elements(r);
      r := Insert(r, x);
      rest := rest - {x};
    }
    assert s - rest == s;
    AscendingOfElements(r);
    assert forall x :: x in r <==> x in Elements(r);
  }

  method Insert(s: seq<string>, x: string) returns (r: seq<string>)
    requires IsAscending(s) && x !in s
    ensures IsAscending(r) && Elements(r) == Elements(s) + {x}
  {
    var i := 0;
    while i < |s| && Less(s[i], x)
      invariant 0 <= i <= |s|
      invariant forall k :: 0 <= k < i ==> Less(s[k], x)
    {
      i := i + 1;
    }
    r := s[..i] + [x] + s[i..];
    forall k | i <= k < |s| ensures Less(x, s[k]) {
      LessIsTotal(x, s[i]);
      if k > i {
        LessIsTransitive(x, s[i], s[k]);
      }
    }
    assert Elements(r) == Elements(s) + {x} by {
      assert forall y :: y in r <==> y in s[..i] || y == x || y in s[i..];
      assert s == s[..i] + s[i..];
    }
  }
}
