/** The host's single-shot timers (`setTimeout` / `clearTimeout`) as seen by one
    controller: the timers it has armed and that have neither fired nor been
    cleared, keyed by the positive ids the host hands out, never reused. */
module HostTimers {

  datatype Timers<P> = Timers(armed: map<nat, P>, nextId: nat) {
    /** Every armed id is one the host has already handed out, and ids start at 1,
        so 0 can stand for `null`. */
    predicate Valid() {
      0 < nextId && forall id :: id in armed ==> 0 < id < nextId
    }
  }

  /** No timer armed yet. */
  function NoTimers<P>(): (t: Timers<P>)
    ensures t.Valid() && t.armed == map[]
  {
    Timers(map[], 1)
  }

  /** A timer whose id was handed out but that is no longer armed: it was cleared
      or it has fired, and nothing can arm it again. */
  predicate Retired<P>(t: Timers<P>, id: nat) {
    0 < id < t.nextId && id !in t.armed
  }

  /** `setTimeout(callback, delay)`: arms a timer carrying `p` under a fresh id. */
  function SetTimeout<P>(t: Timers<P>, p: P): (r: (Timers<P>, nat))
    ensures t.Valid() ==> r.0.Valid() && 0 < r.1 && r.1 !in t.armed
    ensures r.0.armed == t.armed[r.1 := p]
    ensures r.1 == t.nextId < r.0.nextId
    ensures forall id :: Retired(t, id) ==> Retired(r.0, id)
  {
    (Timers(t.armed[t.nextId := p], t.nextId + 1), t.nextId)
  }

  /** `clearTimeout(id)`: disarms the timer `id`; a no-op for an id that is not armed
      (including 0, standing for `null`). The host also drops a timer this way once it fires. */
  function ClearTimeout<P>(t: Timers<P>, id: nat): (r: Timers<P>)
    ensures t.Valid() ==> r.Valid()
    ensures r.armed == t.armed - {id} && r.nextId == t.nextId
    ensures 0 < id < t.nextId ==> Retired(r, id)
    ensures forall i :: Retired(t, i) ==> Retired(r, i)
  {
    Timers(t.armed - {id}, t.nextId)
  }

  /** When every armed id is `k`, at most one timer is armed. */
  lemma AtMostOneArmed<P>(t: Timers<P>, k: nat)
    requires t.armed.Keys <= {k}
    ensures |t.armed| <= 1
    ensures t.armed != map[] ==> t.armed.Keys == {k}
  {
    if k in t.armed {
      assert t.armed.Keys == {k};
    } else {
      assert t.armed.Keys == {};
    }
  }
}
