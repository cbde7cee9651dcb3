/** Sorting keys: the lexicographic order and strictly sorted lists. */
module SortedStrings {
  predicate Less(a: string, b: string) {
    b != "" && (a == "" || a[0] < b[0] || (a[0] == b[0] && Less(a[1..], b[1..])))
  }

  lemma {:induction false} LessTrichotomy(a: string, b: string)
    ensures Less(a, b) || a == b || Less(b, a)
    ensures !(Less(a, b) && Less(b, a)) && !Less(a, a)
  {
    if a != "" && b != "" {
      LessTrichotomy(a[1..], b[1..]);
      assert a == [a[0]] + a[1..] && b == [b[0]] + b[1..];
    }
    if a != "" { LessTrichotomy(a[1..], a[1..]); }
  }

  lemma {:induction false} LessTransitive(a: string, b: string, c: string)
    requires Less(a, b) && Less(b, c)
    ensures Less(a, c)
  {
    if a != "" && a[0] == b[0] == c[0] { LessTransitive(a[1..], b[1..], c[1..]); }
  }

  ghost predicate Sorted(s: seq<string>) {
    forall i, j :: 0 <= i < j < |s| ==> Less(s[i], s[j])
  }

  /** Puts the string in its place, or leaves the list alone when it is already there. */
  function Insert(s: seq<string>, x: string): (r: seq<string>) {
    if s == [] || Less(x, s[0]) then [x] + s
    else if x == s[0] then s
    else [s[0]] + Insert(s[1..], x)
  }

  lemma {:induction false} InsertSorts(s: seq<string>, x: string)
    requires Sorted(s)
    ensures Sorted(Insert(s, x))
    ensures forall y :: y in Insert(s, x) <==> y in s || y == x
  {
    hide Less;
    if s != [] {
      assert s == [s[0]] + s[1..];
      LessTrichotomy(x, s[0]);
      if Less(x, s[0]) {
        forall j | 0 <= j < |s| ensures Less(x, s[j]) {
          if j > 0 { LessTransitive(x, s[0], s[j]); }
        }
      } else if x != s[0] {
        assert Sorted(s[1..]);
        InsertSorts(s[1..], x);
        var r := Insert(s[1..], x);
        forall j | 0 <= j < |r| ensures Less(s[0], r[j]) {
          assert r[j] in r;
          if r[j] in s[1..] {
            var k :| 0 <= k < |s| - 1 && s[1..][k] == r[j];
            assert s[k + 1] == r[j];
          }
        }
      }
    }
  }

  function SortedSet(s: seq<string>): seq<string> {
    if s == [] then [] else Insert(SortedSet(s[..|s| - 1]), s[|s| - 1])
  }

  lemma {:induction false} SortedSetFacts(s: seq<string>)
    ensures Sorted(SortedSet(s)) && forall y :: y in SortedSet(s) <==> y in s
  {
    if s != [] {
      SortedSetFacts(s[..|s| - 1]);
      InsertSorts(SortedSet(s[..|s| - 1]), s[|s| - 1]);
      assert s == s[..|s| - 1] + [s[|s| - 1]];
    }
  }

  /** A strictly sorted list is determined by what is in it. */
  lemma {:induction false} SortedUnique(a: seq<string>, b: seq<string>)
    requires Sorted(a) && Sorted(b) && forall y :: y in a <==> y in b
    ensures a == b
  {
    hide Less;
    if a == [] {
      EmptyHasNothing(b);
    } else {
      assert a[0] in b && b != [];
      assert b[0] in a;
      SameHead(a, b);
      forall y | y in a[1..] ensures y in b[1..] { TailHas(a, b, y); }
      forall y | y in b[1..] ensures y in a[1..] { TailHas(b, a, y); }
      SortedUnique(a[1..], b[1..]);
      assert a == [a[0]] + a[1..] && b == [b[0]] + b[1..];
    }
  }

  lemma EmptyHasNothing(s: seq<string>)
    ensures s == [] || exists y :: y in s
  {
    if s != [] { assert s[0] in s; }
  }

  lemma SameHead(a: seq<string>, b: seq<string>)
    requires Sorted(a) && Sorted(b) && a != [] && b != [] && a[0] in b && b[0] in a
    ensures a[0] == b[0]
  {
    hide Less;
    LessTrichotomy(a[0], b[0]);
    HeadLeast(a);
    HeadLeast(b);
  }

  lemma HeadLeast(a: seq<string>)
    requires Sorted(a) && a != []
    ensures forall y :: y in a ==> y == a[0] || Less(a[0], y)
  {
    hide Less;
  }

  lemma TailHas(a: seq<string>, b: seq<string>, y: string)
    requires Sorted(a) && a != [] && b != [] && a[0] == b[0] && y in a[1..] && y in b
    ensures y in b[1..]
  {
    hide Less;
    var i :| 0 <= i < |a| - 1 && a[1..][i] == y;
    LessTrichotomy(a[0], y);
    assert Less(a[0], a[i + 1]);
    var j :| 0 <= j < |b| && b[j] == y;
    assert b[1..][j - 1] == y;
  }

  /** The keys of a map, whatever order they are met in, sorted. */
  method SortKeys(keys: set<string>) returns (sorted: seq<string>)
    ensures Sorted(sorted) && forall y :: y in sorted <==> y in keys
  {
    sorted := [];
    var rest := keys;
    while rest != {}
      invariant rest <= keys && Sorted(sorted)
      invariant forall y :: y in sorted <==> y in keys - rest
    {
      var key :| key in rest;
      rest := rest - {key};
      InsertSorts(sorted, key);
      sorted := Insert(sorted, key);
    }
  }

  /** One string comes before another if it is a proper beginning of it, or has the smaller character
      where they first differ. */
  lemma {:induction false} LessMeans(a: string, b: string) returns (k: nat)
    ensures k <= |a| && k <= |b| && a[..k] == b[..k]
    ensures (k == |a| || k == |b|) || a[k] != b[k]
    ensures Less(a, b) <==> if k == |a| || k == |b| then |a| < |b| else a[k] < b[k]
  {
    if a != "" && b != "" && a[0] == b[0] {
      var n := LessMeans(a[1..], b[1..]);
      k := n + 1;
      assert a[..k] == [a[0]] + a[1..][..n] && b[..k] == [b[0]] + b[1..][..n];
    } else {
      k := 0;
    }
  }
}
