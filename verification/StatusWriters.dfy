/** Concurrent writers of one Middleware status: whole-status updates of the controller, field patches of the runtime. */
module StatusWriters {
  /** `own` is everything the controller writes without looking: conditions, state, reason. */
  datatype Status = Status(observedGeneration: nat, rendered: seq<string>, renderedGeneration: nat,
                           customResources: int, pause: int, own: int)

  /** What UpdateMiddlewareStatus writes over the version it has just read. */
  function Desired(m: Status, now: Status): Status {
    var keep := m.renderedGeneration < now.renderedGeneration;
    Status(if m.observedGeneration < now.observedGeneration then now.observedGeneration else m.observedGeneration,
           if keep then now.rendered else m.rendered,
           if keep then now.renderedGeneration else m.renderedGeneration,
           now.customResources, now.pause, m.own)
  }

  /**
    A version that an update of the controller's copy m leaves over another one. Conditions, state and reason are those of m;
    the observed generation is the larger of the two, and the inventory is that of m, but for one of a newer generation.
   */
  ghost predicate Carries(m: Status, over: Status, next: Status) {
    && next.own == m.own
    && next.observedGeneration in {m.observedGeneration, over.observedGeneration}
    && next.observedGeneration >= m.observedGeneration && next.observedGeneration >= over.observedGeneration
    && (over.renderedGeneration <= m.renderedGeneration ==>
          next.rendered == m.rendered && next.renderedGeneration == m.renderedGeneration)
    && (over.renderedGeneration > m.renderedGeneration ==>
          next.rendered == over.rendered && next.renderedGeneration == over.renderedGeneration)
    && next.customResources == over.customResources
    && next.pause == over.pause
  }

  /** The observed generation a copy takes over from the version it has read is at most that of the version it writes over. */
  lemma UpdatedCarries(start: Status, m: Status, now: Status)
    requires m == start.(observedGeneration := m.observedGeneration) && now.observedGeneration <= m.observedGeneration
    requires m == start || m.observedGeneration <= now.observedGeneration
    requires start.observedGeneration <= m.observedGeneration
    ensures Carries(start, now, Desired(m, now)) && Desired(m, now).observedGeneration == m.observedGeneration
  {
  }

  /** PatchMiddlewareStatusFields of the synchronizer, of the pause machine, or another controller update. */
  datatype OtherWrite = Runtime(customResources: int) | Pause(pause: int, own: int) | Controller(m: Status)

  function Land(now: Status, w: OtherWrite): Status {
    match w
    case Runtime(c) => now.(customResources := c)
    case Pause(p, own) => now.(pause := p, own := own)
    case Controller(m) => Desired(m, now)
  }

  /** Generations never go back, an inventory changes only with a generation at least as new, and each writer keeps to its fields. */
  ghost predicate Follows(a: Status, b: Status) {
    && a.observedGeneration <= b.observedGeneration
    && a.renderedGeneration <= b.renderedGeneration
    && ((b.customResources == a.customResources && b.pause == a.pause)
        || b == a.(customResources := b.customResources)
        || b == a.(pause := b.pause, own := b.own))
  }

  ghost predicate History(versions: seq<Status>) {
    versions != [] && forall n :: 0 <= n < |versions| - 1 ==> Follows(versions[n], versions[n + 1])
  }

  /** Over any history the generations are monotone. */
  lemma {:induction false} GenerationsNeverDecrease(versions: seq<Status>, i: nat, j: nat)
    requires History(versions) && i <= j < |versions|
    ensures versions[i].observedGeneration <= versions[j].observedGeneration
    ensures versions[i].renderedGeneration <= versions[j].renderedGeneration
    decreases j - i
  {
    if i < j {
      GenerationsNeverDecrease(versions, i, j - 1);
      assert Follows(versions[j - 1], versions[j - 1 + 1]);
    }
  }

  /** The newest inventory is never replaced by that of an older generation. */
  lemma {:induction false} InventoryIsFromItsGeneration(versions: seq<Status>, m: Status, n: nat)
    requires History(versions) && n < |versions| && m.renderedGeneration < versions[n].renderedGeneration
    ensures var last := versions[|versions| - 1]; Desired(m, last).rendered == last.rendered
  {
    GenerationsNeverDecrease(versions, n, |versions| - 1);
  }

  class Api {
    var versions: seq<Status>

    constructor (first: Status)
      ensures versions == [first]
    {
      versions := [first];
    }

    method Others(writes: seq<OtherWrite>)
      requires History(versions)
      modifies this
      ensures History(versions) && old(versions) <= versions && (writes == [] ==> versions == old(versions))
    {
      for i := 0 to |writes|
        invariant History(versions) && old(versions) <= versions && (i == 0 ==> versions == old(versions))
      {
        versions := versions + [Land(versions[|versions| - 1], writes[i])];
      }
    }

    /** Status().Update: guarded by the version that was read. */
    method Update(base: nat, next: Status) returns (ok: bool)
      requires History(versions) && base < |versions| && Follows(versions[base], next)
      modifies this
      ensures History(versions)
      ensures versions == if ok then old(versions) + [next] else old(versions)
      ensures ok <==> base == |old(versions)| - 1
    {
      if base != |versions| - 1 { return false; }
      versions := versions + [next];
      return true;
    }
  }

  const ATTEMPTS := 5

  class MiddlewareController {
    var m: Status

    constructor (m: Status)
      ensures this.m == m
    {
      this.m := m;
    }

    /**
      UpdateMiddlewareStatus: the first attempt reads a cached version, later ones the newest; between the read and the
      write of attempt n the writes others[n] land. On success some version holds exactly what the
      controller wanted; undisturbed, the second attempt succeeds at the latest.
     */
    method UpdateMiddlewareStatus(api: Api, cached: nat, others: seq<seq<OtherWrite>>) returns (ok: bool)
      requires History(api.versions) && cached < |api.versions| && |others| == 5
      modifies this, api
      ensures History(api.versions) && old(api.versions) <= api.versions
      ensures m == old(m).(observedGeneration := m.observedGeneration) && old(m).observedGeneration <= m.observedGeneration
      ensures ok ==> exists n, over :: cached <= over <= n < |api.versions| && n <= over + 1
                       && Carries(old(m), api.versions[over], api.versions[n])
                       && api.versions[n].observedGeneration == m.observedGeneration
      ensures (forall n :: 0 <= n < 5 ==> others[n] == []) ==> ok
      ensures !ok ==> forall n :: 1 <= n < 5 ==> others[n] != []
    {
      for attempt := 0 to ATTEMPTS
        invariant History(api.versions) && old(api.versions) <= api.versions
        invariant (forall n :: 0 <= n < 5 ==> others[n] == []) ==> attempt <= 1 && api.versions == old(api.versions)
        invariant forall n :: 1 <= n < attempt ==> others[n] != []
        invariant m == old(m).(observedGeneration := m.observedGeneration) && old(m).observedGeneration <= m.observedGeneration
        invariant if attempt == 0 then m == old(m)
                  else m == old(m) || m.observedGeneration <= api.versions[|api.versions| - 1].observedGeneration
      {
        hide Carries;
        var base := if attempt == 0 then cached else |api.versions| - 1;
        var now := api.versions[base];
        if m.observedGeneration < now.observedGeneration { m := m.(observedGeneration := now.observedGeneration); }
        var desired := Desired(m, now);
        UpdatedCarries(old(m), m, now);
        if now == desired { return true; }
        api.Others(others[attempt]);
        GenerationsNeverDecrease(api.versions, base, |api.versions| - 1);
        var landed := api.Update(base, desired);
        if landed {
          assert api.versions[base + 1] == desired && api.versions[base] == now;
          return true;
        }
      }
      return false;
    }
  }
}
