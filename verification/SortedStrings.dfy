/** Byte-wise string order, sorting, and the in-place removal of repeated neighbours. */
module SortedStrings {

  predicate Le(a: string, b: string) {
    a == [] || (b != [] && (a[0] < b[0] || (a[0] == b[0] && Le(a[1..], b[1..]))))
  }

  predicate Less(a: string, b: string) { Le(a, b) && a != b }

  lemma {:induction false} Total(a: string, b: string)
    ensures Le(a, b) || Le(b, a)
    decreases |a|
  {
    if a != [] && b != [] && a[0] == b[0] { Total(a[1..], b[1..]); }
  }

  lemma {:induction false} Antisymmetric(a: string, b: string)
    requires Le(a, b) && Le(b, a)
    ensures a == b
    decreases |a|
  {
    if a != [] && b != [] {
      Antisymmetric(a[1..], b[1..]);
      assert a == [a[0]] + a[1..] && b == [b[0]] + b[1..];
    }
  }

  lemma {:induction false} Transitive(a: string, b: string, c: string)
    requires Le(a, b) && Le(b, c)
    ensures Le(a, c)
    decreases |a|
  {
    if a != [] && a[0] == b[0] && b[0] == c[0] { Transitive(a[1..], b[1..], c[1..]); }
  }

  ghost predicate Sorted(s: seq<string>) {
    forall i, j :: 0 <= i < j < |s| ==> Le(s[i], s[j])
  }

  ghost predicate StrictlySorted(s: seq<string>) {
    forall i, j :: 0 <= i < j < |s| ==> Less(s[i], s[j])
  }

  function Insert(x: string, s: seq<string>): (r: seq<string>)
    requires Sorted(s)
    ensures Sorted(r) && multiset(r) == multiset(s) + multiset{x}
  {
    if s == [] then [x]
    else if Le(x, s[0]) then
      assert forall j :: 0 <= j < |s| ==> Le(x, s[j]) by {
        forall j | 0 <= j < |s| ensures Le(x, s[j]) { if j > 0 { Transitive(x, s[0], s[j]); } }
      }
      [x] + s
    else
      Total(x, s[0]);
      var r := Insert(x, s[1..]);
      assert s == [s[0]] + s[1..];
      assert forall y :: y in r ==> Le(s[0], y) by {
        forall y | y in r ensures Le(s[0], y) { assert y in multiset(r); assert y in s[1..] || y == x; }
      }
      [s[0]] + r
  }

  function Sort(s: seq<string>): (r: seq<string>)
    ensures Sorted(r) && multiset(r) == multiset(s)
  {
    if s == [] then []
    else
      assert s == [s[0]] + s[1..];
      Insert(s[0], Sort(s[1..]))
  }

  lemma SameElements(s: seq<string>, x: string)
    ensures x in Sort(s) <==> x in s
  {
    assert x in Sort(s) <==> x in multiset(Sort(s));
    assert x in s <==> x in multiset(s);
  }

  /** A sorted sequence without its repetitions. */
  function Dedup(s: seq<string>): seq<string> {
    if |s| <= 1 then s
    else
      var init := Dedup(s[..|s| - 1]);
      if init != [] && init[|init| - 1] == s[|s| - 1] then init else init + [s[|s| - 1]]
  }

  lemma {:induction false} DedupKeepsLast(s: seq<string>)
    requires s != []
    ensures Dedup(s) != [] && Dedup(s)[|Dedup(s)| - 1] == s[|s| - 1] && |Dedup(s)| <= |s|
    decreases |s|
  {
    if |s| > 1 { DedupKeepsLast(s[..|s| - 1]); }
  }

  lemma {:induction false} DedupIsStrict(s: seq<string>)
    requires Sorted(s)
    ensures StrictlySorted(Dedup(s))
    ensures forall x :: x in Dedup(s) <==> x in s
    decreases |s|
  {
    if |s| > 1 {
      var n := |s| - 1;
      var init := Dedup(s[..n]);
      DedupIsStrict(s[..n]);
      DedupKeepsLast(s[..n]);
      assert s == s[..n] + [s[n]];
      assert Le(s[n - 1], s[n]);
      if init[|init| - 1] != s[n] {
        forall i | 0 <= i < |init| ensures Less(init[i], s[n]) {
          assert init[i] in s[..n];
          if init[i] == s[n] { if i < |init| - 1 { assert Less(init[i], init[|init| - 1]); Antisymmetric(init[i], init[|init| - 1]); } }
        }
      }
    }
  }

  /** The compaction of a sorted slice inside its own backing array: entries are moved down, never past the reader. */
  method CompactSorted(a: array<string>) returns (n: nat)
    requires a.Length > 0
    modifies a
    ensures n <= a.Length && a[..n] == Dedup(old(a[..]))
  {
    n := 1;
    ghost var before := a[..];
    assert before[..1] == [before[0]];
    for i := 1 to a.Length
      invariant 1 <= n <= i
      invariant a[..n] == Dedup(before[..i])
      invariant forall j :: i <= j < a.Length ==> a[j] == before[j]
    {
      assert before[..i + 1][..i] == before[..i];
      assert a[..n][n - 1] == a[n - 1];
      if a[i] != a[n - 1] {
        a[n] := a[i];
        n := n + 1;
      }
    }
    assert before[..a.Length] == before;
  }
}
