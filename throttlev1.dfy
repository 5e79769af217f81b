/** What is particular to the first iteration, src/throttlev1.ts, on the shared
    SyncThrottle machine with the `V1` iteration: `then = then ?? now` never
    changes `then` (it is a number, never null), so a trailing call's test is
    plainly `now - then > delay`, and a run on the spot still arms a timer. */
module ThrottleV1 {
  import opened Throttling
  import opened SyncThrottle

  /** `then` starts at 0 and `??` keeps it there, so the very first trailing call
      runs the handler at once exactly when `now > delay`. */
  lemma FirstTrailingCall<A, R, E>(opts: Options, cb: A -> Outcome<R, E>, now: nat, args: A)
    requires !opts.isLeading
    ensures var s := Call(V1, opts, cb, Initial(), now, args).0;
      s.memo.runs == (if now > opts.delay then [args] else [])
  {
  }

  /** A trailing call leaves `then` alone unless it runs the handler. */
  lemma TrailingCallKeepsThen<A, R, E>(opts: Options, cb: A -> Outcome<R, E>, s: State<A, R, E>, now: nat, args: A)
    requires !opts.isLeading
    ensures var s' := Call(V1, opts, cb, s, now, args).0;
      s'.memo == if now - s.memo.thenTime > opts.delay then Update(s.memo, cb, opts.hasOnError, now, args) else s.memo
  {
    assert Seed(V1, s.memo.thenTime, now) == s.memo.thenTime;
    assert s.memo.(thenTime := s.memo.thenTime) == s.memo;
  }

  /** src/test/app.spec.ts:15-29 against this iteration: a burst of trailing calls
      at one instant, then the timer fires. The last call's arguments run once
      from the timer; on top of that the first call runs on the spot when the
      window is open, which on a fresh controller is whenever `now > delay`. */
  lemma TrailingBurstThenFire<A, R, E>(
    opts: Options, cb: A -> Outcome<R, E>, s: State<A, R, E>, now: nat, xs: seq<Invocation<A>>)
    requires !opts.isLeading && Inv(opts, s) && |xs| > 0
    requires forall i :: 0 <= i < |xs| ==> xs[i].now == now
    ensures var s' := Calls(V1, opts, cb, s, xs).0;
      && s'.timeoutId in s'.timers.armed
      && Fire(opts, cb, s', s'.timeoutId).memo.runs
         == s.memo.runs + (if now - s.memo.thenTime > opts.delay then [xs[0].args] else []) + [xs[|xs| - 1].args]
      && Fire(opts, cb, s', s'.timeoutId).memo.thenTime == now
  {
    TrailingBurst(V1, opts, cb, s, now, xs);
  }
}
