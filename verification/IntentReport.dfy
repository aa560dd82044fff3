/** mergeTypedIntent: the merge with its iterations, and the redacted report of what it retained. */
module IntentReport {
  import opened Options
  import opened FieldTrie
  import opened Trees
  import opened IntentMerge
  import opened SortedStrings

  // ---- Redacted paths -------------------------------------------------------

  function Digits(n: nat): string {
    var d := ["0", "1", "2", "3", "4", "5", "6", "7", "8", "9"][n % 10];
    if n < 10 then d else Digits(n / 10) + d
  }

  function KeyNames(key: seq<(string, string)>): string {
    if key == [] then "" else
    (if |key| == 1 then "" else KeyNames(key[..|key| - 1]) + ",") + key[|key| - 1].0 + "=<redacted>"
  }

  function SafeElem(e: Elem): string {
    match e
    case Field(name) => "." + name
    case Item(key) => "[" + KeyNames(key) + "]"
    case Member(_) => "[set-item]"
    case Index(i) => "[" + Digits(i) + "]"
  }

  /** intentSafePath */
  function SafePath(p: Path): string {
    if p == [] then "" else SafePath(p[..|p| - 1]) + SafeElem(p[|p| - 1])
  }

  /** Two elements that differ at most in key values or set members. */
  ghost predicate SameShape(a: Elem, b: Elem) {
    match (a, b)
    case (Field(x), Field(y)) => x == y
    case (Index(i), Index(j)) => i == j
    case (Member(_), Member(_)) => true
    case (Item(k), Item(l)) => |k| == |l| && forall i :: 0 <= i < |k| ==> k[i].0 == l[i].0
    case _ => false
  }

  lemma {:induction false} KeyNamesHideValues(k: seq<(string, string)>, l: seq<(string, string)>)
    requires |k| == |l| && forall i :: 0 <= i < |k| ==> k[i].0 == l[i].0
    ensures KeyNames(k) == KeyNames(l)
    decreases |k|
  {
    if k != [] { KeyNamesHideValues(k[..|k| - 1], l[..|l| - 1]); }
  }

  /** Redaction: what a path is rendered to does not depend on any key value or set member. */
  lemma {:induction false} SafePathHidesValues(p: Path, q: Path)
    requires |p| == |q| && forall i :: 0 <= i < |p| ==> SameShape(p[i], q[i])
    ensures SafePath(p) == SafePath(q)
    decreases |p|
  {
    if p != [] {
      var n := |p| - 1;
      SafePathHidesValues(p[..n], q[..n]);
      assert SameShape(p[n], q[n]);
      if p[n].Item? { KeyNamesHideValues(p[n].key, q[n].key); }
    }
  }

  // ---- The report -----------------------------------------------------------

  /** The retained paths no other retained path explains. */
  function Topmost(retained: set<Path>): set<Path> {
    set p | p in retained && forall i :: 1 <= i < |p| ==> p[..i] !in retained
  }

  ghost predicate IsReport(report: seq<string>, retained: set<Path>) {
    StrictlySorted(report) && forall x :: x in report <==> exists p :: p in Topmost(retained) && x == SafePath(p)
  }

  /** Every retained path is reported, by its own redacted path or by that of an ancestor. */
  lemma {:induction false} ReportCovers(report: seq<string>, retained: set<Path>, p: Path)
    requires IsReport(report, retained) && p in retained
    ensures exists q :: q in retained && q <= p && SafePath(q) in report
    decreases |p|
  {
    if i :| 1 <= i < |p| && p[..i] in retained {
      ReportCovers(report, retained, p[..i]);
      var q :| q in retained && q <= p[..i] && SafePath(q) in report;
      assert q <= p;
    } else {
      assert p in Topmost(retained) && p <= p;
      assert SafePath(p) in report;
    }
  }

  /** Exactly the retained paths without a retained path above them are reported. */
  lemma ReportIsTopmost(report: seq<string>, retained: set<Path>, x: string)
    requires IsReport(report, retained)
    ensures x in report <==>
      exists p :: p in retained && x == SafePath(p) && forall q :: q in retained && q != [] && q <= p ==> q == p
  {
    hide SafePath;
    forall p | p in retained
      ensures p in Topmost(retained) <==> forall q :: q in retained && q != [] && q <= p ==> q == p
    {
      if p in Topmost(retained) {
        forall q | q in retained && q != [] && q <= p ensures q == p { assert q == p[..|q|]; }
      } else {
        var i :| 1 <= i < |p| && p[..i] in retained;
        assert p[..i] <= p;
      }
    }
  }

  /** There is only one report. */
  lemma {:induction false} ReportIsUnique(a: seq<string>, b: seq<string>)
    requires StrictlySorted(a) && StrictlySorted(b) && forall x :: x in a <==> x in b
    ensures a == b
    decreases |a|
  {
    hide StrictlySorted;
    assert (a != [] ==> a[0] in a) && (b != [] ==> b[0] in b);
    if a != [] && b != [] {
      SameFirst(a, b);
      Tail(a);
      Tail(b);
      ReportIsUnique(a[1..], b[1..]);
      assert a == [a[0]] + a[1..] && b == [b[0]] + b[1..];
    }
  }

  lemma SameFirst(a: seq<string>, b: seq<string>)
    requires a != [] && b != [] && StrictlySorted(a) && StrictlySorted(b) && forall x :: x in a <==> x in b
    ensures a[0] == b[0]
  {
    assert a[0] in b && b[0] in a;
    var i :| 0 <= i < |b| && b[i] == a[0];
    var j :| 0 <= j < |a| && a[j] == b[0];
    if i > 0 && j > 0 { Antisymmetric(a[0], b[0]); }
  }

  lemma Tail(a: seq<string>)
    requires a != [] && StrictlySorted(a)
    ensures StrictlySorted(a[1..]) && forall x :: x in a[1..] <==> x in a && x != a[0]
  {
    assert a == [a[0]] + a[1..];
    assert forall i :: 0 <= i < |a| - 1 ==> a[1..][i] == a[i + 1] && Less(a[0], a[i + 1]);
  }

  // ---- The merge ------------------------------------------------------------

  predicate Explained(retained: set<Path>, p: Path) {
    exists i :: 1 <= i < |p| && p[..i] in retained
  }

  method HasRetainedAncestor(retained: set<Path>, p: Path) returns (r: bool)
    ensures r <==> Explained(retained, p)
  {
    var i := 1;
    while i < |p|
      invariant 1 <= i
      invariant forall k :: 1 <= k < i && k < |p| ==> p[..k] !in retained
    {
      if p[..i] in retained { return true; }
      i := i + 1;
    }
    return false;
  }

  /** The redacted paths of everything retained that no retained ancestor explains, in no particular order. */
  method CollectRetained(retained: set<Path>) returns (preserved: seq<string>)
    ensures forall x :: x in preserved <==> exists p :: p in Topmost(retained) && x == SafePath(p)
  {
    hide SafePath;
    preserved := [];
    var todo: set<Path> := retained;
    while todo != {}
      invariant todo <= retained
      invariant forall x :: x in preserved <==> exists p :: p in Topmost(retained) && p !in todo && x == SafePath(p)
      decreases todo
    {
      var p: Path :| p in todo;
      var explained := HasRetainedAncestor(retained, p);
      ghost var before, left := preserved, todo;
      if !explained { preserved := preserved + [SafePath(p)]; }
      todo := todo - {p};
      assert !explained <==> p in Topmost(retained);
      forall x ensures x in preserved <==> exists q :: q in Topmost(retained) && q !in todo && x == SafePath(q) {
        if q :| q in Topmost(retained) && q !in todo && x == SafePath(q) { assert q == p || q !in left; }
        assert x in before <==> exists q :: q in Topmost(retained) && q !in left && x == SafePath(q);
      }
    }
  }

  /** Collects the redacted paths, sorts them and compacts them in place. */
  method ReportRetained(retained: set<Path>) returns (report: seq<string>)
    ensures IsReport(report, retained)
    ensures report == [] <==> retained == {}
  {
    var collected := CollectRetained(retained);
    var preserved := Sort(collected);
    forall x ensures x in preserved <==> x in collected { SameElements(collected, x); }
    if |preserved| > 1 {
      var a := new string[|preserved|](i requires 0 <= i < |preserved| => preserved[i]);
      assert a[..] == preserved;
      DedupIsStrict(preserved);
      var n := CompactSorted(a);
      report := a[..n];
    } else {
      report := preserved;
    }
    if report != [] { assert report[0] in report; }
    if retained != {} {
      var p: Path :| p in retained;
      ReportCovers(report, retained, p);
    }
  }

  method FindBlockedItems(m: Inputs, removed: set<Path>) returns (blocked: set<Path>)
    requires removed == m.Change().removed
    ensures blocked == m.BlockedItems()
  {
    hide Compare, Overlaps, Contains;
    blocked := {};
    var todo := removed;
    while todo != {}
      invariant todo <= removed
      invariant forall p: Path :: p in blocked <==> p in m.BlockedItems() && p !in todo
      decreases todo
    {
      var p: Path :| p in todo;
      todo := todo - {p};
      if p != [] && p[|p| - 1].Item? && m.Touched(p) && m.Lives(p) { blocked := blocked + {p}; }
    }
  }

  method SplitRemovals(m: Inputs, removed: set<Path>, blocked: set<Path>) returns (remove: set<Path>, retained: set<Path>)
    requires removed == m.Change().removed && blocked == m.BlockedItems()
    ensures remove == m.Deletions() && retained == m.RetainedDeletions()
  {
    hide Compare, Overlaps, Contains;
    remove, retained := {}, {};
    var todo := removed;
    while todo != {}
      invariant todo <= removed
      invariant forall p: Path :: p in remove <==> p in m.Deletions() && p !in todo
      invariant forall p: Path :: p in retained <==> p in m.RetainedDeletions() && p !in todo
      decreases todo
    {
      var p: Path :| p in todo;
      todo := todo - {p};
      if m.Lives(p) {
        if Overlaps(blocked, p) || m.Touched(p) { retained := retained + {p}; } else { remove := remove + {p}; }
      }
    }
  }

  method FindBlockedWrites(m: Inputs, write: set<Path>) returns (blocked: set<Path>)
    requires write == m.Writes()
    ensures blocked == m.BlockedWrites()
  {
    hide Compare, Overlaps, Contains;
    var different := Compare(m.live, m.desired).All();
    blocked := {};
    var todo := write;
    while todo != {}
      invariant todo <= write
      invariant forall p: Path :: p in blocked <==> p in m.BlockedWrites() && p !in todo
      decreases todo
    {
      var p: Path :| p in todo;
      todo := todo - {p};
      if m.Lives(p) && Overlaps(m.External(), p) && Overlaps(different, p) {
        var atomic := AtomicContainerAt(m.schema, p);
        if atomic == Some(true) { blocked := blocked + {p}; }
      }
    }
  }

  /** mergeTypedIntent */
  method MergeTypedIntent(m: Inputs) returns (merged: Tree, preserved: seq<string>)
    requires m.Valid()
    ensures merged == m.Merged()
    ensures IsReport(preserved, m.Retained())
    ensures preserved == [] <==> m.Retained() == {}
  {
    hide Compare, IsReport;
    var change: Comparison := m.Change();
    var blockedItems := FindBlockedItems(m, change.removed);
    var remove, retained := SplitRemovals(m, change.removed, blockedItems);
    var write := change.added + change.modified;
    var blockedWrites := FindBlockedWrites(m, write);
    retained := retained + blockedWrites;
    var patch: set<Path> := set p: Path | p in Leaves(write) && !Covers(blockedWrites, p);
    merged := Merge(Remove(m.live, remove), Extract(m.desired, patch));
    preserved := ReportRetained(retained);
  }

  /** No write of a valid merge meets a path the schema cannot traverse: the error branch is dead. */
  lemma WritesAreTraversable(m: Inputs, p: Path)
    requires m.Valid() && p in m.Writes()
    ensures TypeAt(m.schema, p).Some?
  {
    CompareAt(m.before, m.desired, p);
    TypeOfPresent(m.desired, m.schema, p);
  }
}
