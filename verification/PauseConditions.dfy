/** The pause marker among the conditions of a Middleware, and the write gate it holds. */
module PauseConditions {
  datatype Condition = Condition(kind: string, holds: bool, generation: int, reason: string, message: string)

  const PAUSED := "ReconcilePaused"
  const PAUSED_REASON := "ReconcilePaused"
  const PAUSED_MESSAGE := "reconciliation is suspended by middleware.cn/suspend-reconcile=true"

  /** What is left without the conditions of one kind, in order. */
  function Without(cs: seq<Condition>, kind: string): seq<Condition> {
    if cs == [] then []
    else Without(cs[..|cs| - 1], kind) + if cs[|cs| - 1].kind == kind then [] else [cs[|cs| - 1]]
  }

  /** hasReconcilePaused */
  predicate IsPaused(cs: seq<Condition>) { exists c :: c in cs && c.kind == PAUSED && c.holds }

  /** clearReconcilePaused and clearReconcileAdoptionCondition: the kept conditions move down in their own slice. */
  method Clear(a: array<Condition>, kind: string) returns (n: nat, removed: bool)
    modifies a
    ensures n <= a.Length && a[..n] == Without(old(a[..]), kind)
    ensures removed <==> exists c :: c in old(a[..]) && c.kind == kind
    ensures !removed ==> n == a.Length && a[..] == old(a[..])
  {
    n, removed := 0, false;
    ghost var before := a[..];
    for i := 0 to a.Length
      invariant n <= i && a[..n] == Without(before[..i], kind)
      invariant forall j :: i <= j < a.Length ==> a[j] == before[j]
      invariant removed <==> exists j :: 0 <= j < i && before[j].kind == kind
      invariant !removed ==> n == i && a[..] == before
    {
      assert before[..i + 1][..i] == before[..i];
      if a[i].kind == kind {
        removed := true;
      } else {
        a[n] := a[i];
        n := n + 1;
      }
    }
    assert before[..a.Length] == before;
  }

  lemma {:induction false} WithoutMembers(cs: seq<Condition>, kind: string)
    ensures forall c :: c in Without(cs, kind) <==> c in cs && c.kind != kind
    decreases |cs|
  {
    if cs != [] {
      assert cs == cs[..|cs| - 1] + [cs[|cs| - 1]];
      WithoutMembers(cs[..|cs| - 1], kind);
    }
  }

  function Set(cs: seq<Condition>, c: Condition): seq<Condition> {
    if cs == [] then [c] else if cs[0].kind == c.kind then [c] + cs[1..] else [cs[0]] + Set(cs[1..], c)
  }

  function Paused(generation: int): Condition { Condition(PAUSED, true, generation, PAUSED_REASON, PAUSED_MESSAGE) }

  lemma {:induction false} SetMembers(cs: seq<Condition>, c: Condition)
    ensures c in Set(cs, c) && forall d :: d in cs && d.kind != c.kind ==> d in Set(cs, c)
    decreases |cs|
  {
    if cs != [] {
      SetMembers(cs[1..], c);
      assert cs == [cs[0]] + cs[1..];
    }
  }

  datatype Annotations = Annotations(suspend: string, policy: string)

  /** IsMiddlewareReconcileWriteSuspended: a malformed suspend value suspends nothing, an unknown policy approves nothing. */
  predicate WriteSuspended(a: Annotations, cs: seq<Condition>) {
    a.suspend == "true" || (a.policy !in {"merge", "apply"} && IsPaused(cs))
  }

  /**
    Marking closes the gate until a supported policy is set and the suspension lifted; clearing the marker opens it exactly
    when the suspension is lifted, and touches no other condition. A marker that does not hold is none. Clearing the adoption condition does not open it.
   */
  lemma MarkerHoldsGate(a: Annotations, cs: seq<Condition>, generation: int, other: string)
    requires other != PAUSED
    ensures (forall c :: c in cs && c.kind == PAUSED ==> !c.holds) ==> (WriteSuspended(a, cs) <==> a.suspend == "true")
    ensures WriteSuspended(a, Set(cs, Paused(generation))) <==> (a.suspend == "true" || a.policy !in {"merge", "apply"})
    ensures WriteSuspended(a, Without(cs, PAUSED)) <==> a.suspend == "true"
    ensures WriteSuspended(a, Without(cs, other)) <==> WriteSuspended(a, cs)
    ensures forall c :: c in cs && c.kind != PAUSED ==> c in Without(cs, PAUSED) && c in Set(cs, Paused(generation))
  {
    SetMembers(cs, Paused(generation));
    WithoutMembers(cs, PAUSED);
    WithoutMembers(cs, other);
  }
}
