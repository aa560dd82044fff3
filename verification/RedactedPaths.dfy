/** What a redacted path still tells: the field names, key names and positions of the path it stands for. */
module RedactedPaths {
  import opened Options
  import opened FieldTrie
  import opened IntentReport

  predicate Free(s: string, marks: string) { forall i :: 0 <= i < |s| ==> s[i] !in marks }

  /** Names without the characters that separate path elements and keys. */
  predicate Separable(e: Elem) {
    match e
    case Field(name) => Free(name, ".[")
    case Item(key) => forall i :: 0 <= i < |key| ==> Free(key[i].0, "=,]")
    case _ => true
  }

  predicate AllSeparable(p: Path) { forall i :: 0 <= i < |p| ==> Separable(p[i]) }

  // ---- Texts that are cut at their first mark ----------------------------------------------

  lemma NotShorter(a: string, x: string, b: string, y: string, marks: string)
    requires Free(b, marks) && a + x == b + y && (x == [] || x[0] in marks)
    ensures |a| >= |b|
  {
    assert forall i :: 0 <= i < |b| ==> (b + y)[i] == b[i];
    assert |a + x| == |a| + |x| && |b + y| == |b| + |y|;
    if x != [] { assert (a + x)[|a|] == x[0]; }
  }

  /** Two texts that agree, each cut where its first mark stands, agree in both parts. */
  lemma SameCut(a: string, x: string, b: string, y: string, marks: string)
    requires Free(a, marks) && Free(b, marks) && a + x == b + y
    requires (x == [] || x[0] in marks) && (y == [] || y[0] in marks)
    ensures a == b && x == y
  {
    NotShorter(a, x, b, y, marks);
    NotShorter(b, y, a, x, marks);
    assert a == (a + x)[..|a|] && b == (b + y)[..|b|];
    assert x == (a + x)[|a|..] && y == (b + y)[|b|..];
  }

  lemma Assoc(a: string, b: string, c: string)
    ensures (a + b) + c == a + (b + c)
  {
  }

  // ---- Key names ---------------------------------------------------------------------------

  const REDACTED := "=<redacted>"

  lemma FreeConcat(a: string, b: string, marks: string)
    ensures Free(a + b, marks) <==> Free(a, marks) && Free(b, marks)
  {
    if Free(a + b, marks) {
      forall i | 0 <= i < |a| ensures a[i] !in marks { assert (a + b)[i] == a[i]; }
      forall i | 0 <= i < |b| ensures b[i] !in marks { assert (a + b)[|a| + i] == b[i]; }
    }
  }

  lemma {:induction false} KeyNamesFree(key: seq<(string, string)>)
    requires Separable(Item(key))
    ensures Free(KeyNames(key), "]") && (key != [] ==> KeyNames(key) != [])
    decreases |key|
  {
    if key != [] {
      var n := |key| - 1;
      if n > 0 { KeyNamesFree(key[..n]); }
      var front := if n == 0 then "" else KeyNames(key[..n]) + ",";
      FreeConcat(KeyNames(key[..n]), ",", "]");
      FreeConcat(front, key[n].0, "]");
      FreeConcat(front + key[n].0, REDACTED, "]");
    }
  }

  lemma KeyNamesStep(key: seq<(string, string)>)
    requires key != []
    ensures var n := |key| - 1;
      KeyNames(key) == if n == 0 then key[0].0 + REDACTED else KeyNames(key[..n]) + ("," + (key[n].0 + REDACTED))
  {
    var n := |key| - 1;
    if n == 0 {
      assert "" + key[0].0 == key[0].0;
    } else {
      Assoc(KeyNames(key[..n]) + ",", key[n].0, REDACTED);
      Assoc(KeyNames(key[..n]), ",", key[n].0 + REDACTED);
    }
  }

  /** What follows the first name. */
  function AfterFirst(key: seq<(string, string)>): string
    requires key != []
  {
    if |key| == 1 then "" else "," + KeyNames(key[1..])
  }

  /** The same names, from the front: one name, and the rest behind a comma. */
  lemma {:induction false} KeyNamesFront(key: seq<(string, string)>)
    requires key != []
    ensures KeyNames(key) == key[0].0 + (REDACTED + AfterFirst(key))
    decreases |key|
  {
    hide KeyNames;
    var n := |key| - 1;
    KeyNamesStep(key);
    if n == 0 {
      assert REDACTED + "" == REDACTED;
    } else {
      var first, last := key[0].0, "," + (key[n].0 + REDACTED);
      KeyNamesFront(key[..n]);
      AfterStep(key);
      Assoc(first, REDACTED + AfterFirst(key[..n]), last);
      Assoc(REDACTED, AfterFirst(key[..n]), last);
    }
  }

  lemma AfterStep(key: seq<(string, string)>)
    requires |key| > 1
    ensures var n := |key| - 1; AfterFirst(key) == AfterFirst(key[..n]) + ("," + (key[n].0 + REDACTED))
  {
    hide KeyNames;
    var n := |key| - 1;
    var last := "," + (key[n].0 + REDACTED);
    KeyNamesStep(key[1..]);
    assert key[1..][n - 1] == key[n];
    if n == 1 {
      assert "" + last == last;
    } else {
      assert key[1..][..n - 1] == key[..n][1..];
      Assoc(",", KeyNames(key[..n][1..]), last);
    }
  }

  lemma {:induction false} KeyNamesTell(k: seq<(string, string)>, l: seq<(string, string)>)
    requires Separable(Item(k)) && Separable(Item(l)) && KeyNames(k) == KeyNames(l)
    ensures |k| == |l| && forall i :: 0 <= i < |k| ==> k[i].0 == l[i].0
    decreases |k|
  {
    hide KeyNames;
    KeyNamesFree(k);
    KeyNamesFree(l);
    NoKeys(k);
    NoKeys(l);
    if k != [] && l != [] {
      FirstKeyTells(k, l);
      if |k| > 1 && |l| > 1 {
        KeyNamesTell(k[1..], l[1..]);
        forall i | 0 <= i < |k| ensures k[i].0 == l[i].0 {
          if i > 0 { assert k[i] == k[1..][i - 1] && l[i] == l[1..][i - 1]; }
        }
      }
    }
  }

  lemma NoKeys(key: seq<(string, string)>)
    ensures key == [] ==> KeyNames(key) == []
  {
  }

  lemma FreeOf(s: string)
    requires Free(s, "=,]")
    ensures Free(s, "=")
  {
    assert "=,]"[0] == '=';
  }

  lemma FirstKeyTells(k: seq<(string, string)>, l: seq<(string, string)>)
    requires k != [] && l != [] && Separable(Item(k)) && Separable(Item(l)) && KeyNames(k) == KeyNames(l)
    ensures k[0].0 == l[0].0 && (|k| > 1 <==> |l| > 1) && (|k| > 1 && |l| > 1 ==> KeyNames(k[1..]) == KeyNames(l[1..]))
  {
    hide KeyNames;
    KeyNamesFront(k);
    KeyNamesFront(l);
    var x, y := AfterFirst(k), AfterFirst(l);
    FreeOf(k[0].0);
    FreeOf(l[0].0);
    assert (REDACTED + x)[0] == '=' && (REDACTED + y)[0] == '=';
    SameCut(k[0].0, REDACTED + x, l[0].0, REDACTED + y, "=");
    assert x == (REDACTED + x)[|REDACTED|..] && y == (REDACTED + y)[|REDACTED|..];
    assert |k| > 1 ==> KeyNames(k[1..]) == x[1..];
    assert |l| > 1 ==> KeyNames(l[1..]) == y[1..];
  }

  // ---- Positions ---------------------------------------------------------------------------

  function Digit(d: nat): char
    requires d < 10
  {
    ('0' as int + d) as char
  }

  predicate IsDigit(c: char) { '0' <= c <= '9' }

  lemma DigitIs(d: nat)
    requires d < 10
    ensures ["0", "1", "2", "3", "4", "5", "6", "7", "8", "9"][d] == [Digit(d)]
    ensures IsDigit(Digit(d)) && Digit(d) as int - '0' as int == d
  {
  }

  lemma LastDigit(n: nat)
    ensures Digits(n) == (if n < 10 then [] else Digits(n / 10)) + [Digit(n % 10)]
  {
    DigitIs(n % 10);
    if n < 10 { assert [] + Digits(n) == Digits(n); }
  }

  lemma {:induction false} DigitsAre(n: nat)
    ensures Digits(n) != [] && forall i :: 0 <= i < |Digits(n)| ==> IsDigit(Digits(n)[i])
    decreases n
  {
    hide Digits;
    LastDigit(n);
    DigitIs(n % 10);
    if n >= 10 { DigitsAre(n / 10); }
  }

  lemma {:induction false} DigitsTell(m: nat, n: nat)
    requires Digits(m) == Digits(n)
    ensures m == n
    decreases m
  {
    hide Digits, Digit;
    DigitIs(m % 10);
    DigitIs(n % 10);
    LastDigit(m);
    LastDigit(n);
    var d := Digits(m);
    assert d[|d| - 1] == Digit(m % 10) && d[|d| - 1] == Digit(n % 10);
    if m >= 10 { DigitsAre(m / 10); assert Digits(m / 10) == d[..|d| - 1]; }
    if n >= 10 { DigitsAre(n / 10); assert Digits(n / 10) == d[..|d| - 1]; }
    if m >= 10 && n >= 10 { DigitsTell(m / 10, n / 10); }
  }

  // ---- Elements ----------------------------------------------------------------------------

  /** What stands between the brackets of an element that is no field. */
  function Inner(e: Elem): string
    requires !e.Field?
  {
    match e
    case Item(key) => KeyNames(key)
    case Member(_) => "set-item"
    case Index(i) => Digits(i)
  }

  lemma InnerIsFree(e: Elem)
    requires !e.Field? && Separable(e)
    ensures Free(Inner(e), "]") && SafeElem(e) == "[" + Inner(e) + "]"
  {
    if e.Item? { KeyNamesFree(e.key); }
    if e.Index? {
      DigitsAre(e.i);
      forall k | 0 <= k < |Digits(e.i)| ensures Digits(e.i)[k] !in "]" { assert IsDigit(Digits(e.i)[k]); }
    }
  }

  lemma InnerTells(a: Elem, b: Elem)
    requires !a.Field? && !b.Field? && Separable(a) && Separable(b) && Inner(a) == Inner(b)
    ensures SameShape(a, b)
  {
    hide KeyNames, Digits;
    InnerMark(a);
    InnerMark(b);
    assert !IsDigit('=') && !IsDigit("set-item"[0]);
    assert forall i :: 0 <= i < |"set-item"| ==> "set-item"[i] != '=';
    if a.Item? && b.Item? { KeyNamesTell(a.key, b.key); }
    if a.Index? && b.Index? { DigitsTell(a.i, b.i); }
  }

  /** The three kinds of brackets look different: keys are empty or hold an equals sign, positions are digits. */
  lemma InnerMark(e: Elem)
    requires !e.Field? && Separable(e)
    ensures match e
      case Item(_) => Inner(e) == "" || '=' in Inner(e)
      case Member(_) => Inner(e) == "set-item"
      case Index(_) => Inner(e) != "" && forall i :: 0 <= i < |Inner(e)| ==> IsDigit(Inner(e)[i])
  {
    match e
    case Item(key) =>
      if key != [] {
        KeyNamesFront(key);
        assert KeyNames(key)[|key[0].0|] == (REDACTED + AfterFirst(key))[0] == '=';
      }
    case Member(_) =>
    case Index(i) => DigitsAre(i);
  }

  lemma SafePathStep(p: Path)
    requires p != []
    ensures SafePath(p) == SafePath(p[..|p| - 1]) + SafeElem(p[|p| - 1])
  {
  }

  /** The first element of a rendered path, and the rest. */
  lemma {:induction false} SafePathFront(p: Path)
    requires p != []
    ensures SafePath(p) == SafeElem(p[0]) + SafePath(p[1..])
    decreases |p|
  {
    hide SafePath, SafeElem;
    var n := |p| - 1;
    SafePathStep(p);
    NoPath(p[..0]);
    if n == 0 {
      NoPath(p[1..]);
      assert [] + SafeElem(p[0]) == SafeElem(p[0]) + [];
    } else {
      SafePathFront(p[..n]);
      SafePathStep(p[1..]);
      assert p[..n][1..] == p[1..][..n - 1] && p[1..][n - 1] == p[n];
      Assoc(SafeElem(p[0]), SafePath(p[1..][..n - 1]), SafeElem(p[n]));
    }
  }

  lemma StartsWithMark(p: Path)
    ensures p != [] ==> SafePath(p) != [] && SafePath(p)[0] == if p[0].Field? then '.' else '['
  {
    hide SafePath, KeyNames, Digits;
    if p != [] { SafePathFront(p); }
  }

  lemma FirstTells(p: Path, q: Path)
    requires p != [] && q != [] && Separable(p[0]) && Separable(q[0]) && SafePath(p) == SafePath(q)
    ensures SameShape(p[0], q[0]) && SafePath(p[1..]) == SafePath(q[1..])
  {
    hide SafePath, SafeElem, SameShape, Inner;
    SafePathFront(p);
    SafePathFront(q);
    StartsWithMark(p);
    StartsWithMark(q);
    StartsWithMark(p[1..]);
    StartsWithMark(q[1..]);
    NoPath(p[1..]);
    NoPath(q[1..]);
    ElemTells(p[0], SafePath(p[1..]), q[0], SafePath(q[1..]));
  }

  lemma ElemTells(a: Elem, x: string, b: Elem, y: string)
    requires Separable(a) && Separable(b) && a.Field? == b.Field? && SafeElem(a) + x == SafeElem(b) + y
    requires (x == [] || x[0] in ".[") && (y == [] || y[0] in ".[")
    ensures SameShape(a, b) && x == y
  {
    hide SafeElem, SameShape, Separable;
    if a.Field? { FieldTells(a.name, x, b.name, y); } else { BracketTells(a, x, b, y); }
  }

  lemma FieldTells(a: string, x: string, b: string, y: string)
    requires Separable(Field(a)) && Separable(Field(b)) && SafeElem(Field(a)) + x == SafeElem(Field(b)) + y
    requires (x == [] || x[0] in ".[") && (y == [] || y[0] in ".[")
    ensures SameShape(Field(a), Field(b)) && x == y
  {
    Assoc(".", a, x);
    Assoc(".", b, y);
    Behind('.', a + x, b + y);
    SameCut(a, x, b, y, ".[");
  }

  lemma Behind(c: char, x: string, y: string)
    requires [c] + x == [c] + y
    ensures x == y
  {
    assert x == ([c] + x)[1..] && y == ([c] + y)[1..];
  }

  lemma BracketTells(a: Elem, x: string, b: Elem, y: string)
    requires !a.Field? && !b.Field? && Separable(a) && Separable(b) && SafeElem(a) + x == SafeElem(b) + y
    ensures SameShape(a, b) && x == y
  {
    hide SafeElem, Inner, SameShape, Separable;
    InnerIsFree(a);
    InnerIsFree(b);
    Bracketed(Inner(a), x);
    Bracketed(Inner(b), y);
    Behind('[', Inner(a) + ("]" + x), Inner(b) + ("]" + y));
    SameCut(Inner(a), "]" + x, Inner(b), "]" + y, "]");
    Behind(']', x, y);
    InnerTells(a, b);
  }

  lemma Bracketed(inner: string, x: string)
    ensures ("[" + inner + "]") + x == "[" + (inner + ("]" + x))
  {
    Assoc("[" + inner, "]", x);
    Assoc("[", inner, "]" + x);
  }

  lemma NoPath(p: Path)
    ensures p == [] ==> SafePath(p) == []
  {
  }

  /**
    Redacted paths of separable names are the same only for paths of the same shape: field names, key names and positions
    can be read off, and only key values and set members cannot.
   */
  lemma {:induction false} SafePathTellsShape(p: Path, q: Path)
    requires AllSeparable(p) && AllSeparable(q)
    ensures SafePath(p) == SafePath(q) <==> |p| == |q| && forall i :: 0 <= i < |p| ==> SameShape(p[i], q[i])
    decreases |p|
  {
    hide SafePath, SameShape, Separable;
    StartsWithMark(p);
    StartsWithMark(q);
    NoPath(p);
    NoPath(q);
    if SafePath(p) == SafePath(q) && p != [] && q != [] {
      FirstTells(p, q);
      SafePathTellsShape(p[1..], q[1..]);
      forall i | 0 <= i < |p| ensures SameShape(p[i], q[i]) {
        if i > 0 { assert p[i] == p[1..][i - 1] && q[i] == q[1..][i - 1]; }
      }
    }
    if |p| == |q| && forall i :: 0 <= i < |p| ==> SameShape(p[i], q[i]) { SafePathHidesValues(p, q); }
  }
}
