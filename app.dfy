/** What is particular to the second iteration, src/app.js, on the shared
    SyncThrottle machine with the `App` iteration: a trailing call seeds `then`
    with `then || now`, so its first trailing call is always deferred. */
module ThrottleApp {
  import opened Throttling
  import opened SyncThrottle
  import ThrottleV1

  /** `then || now` makes the first trailing call's clock reading `then`, so that
      call never runs the handler on the spot (`0 > delay` is false); it is deferred. */
  lemma FirstTrailingCallDeferred<A, R, E>(opts: Options, cb: A -> Outcome<R, E>, s: State<A, R, E>, now: nat, args: A)
    requires !opts.isLeading && Inv(opts, s) && s.memo.thenTime == 0
    ensures var s' := Call(App, opts, cb, s, now, args).0;
      && s'.memo.runs == s.memo.runs
      && s'.memo.thenTime == now
      && s'.timers.armed == map[s'.timeoutId := Timer(now, args)]
  {
  }

  /** The one place where the two first iterations part: on a fresh controller
      and a first trailing call at `now > delay`, src/throttlev1.ts runs the
      handler on the spot and src/app.js does not. */
  lemma FirstCallAgainstV1<A, R, E>(opts: Options, cb: A -> Outcome<R, E>, now: nat, args: A)
    requires !opts.isLeading && now > opts.delay
    ensures Call(V1, opts, cb, Initial(), now, args).0.memo.runs == [args]
    ensures Call(App, opts, cb, Initial(), now, args).0.memo.runs == []
  {
    ThrottleV1.FirstTrailingCall(opts, cb, now, args);
  }

  /** src/test/app.spec.ts:15-29: a burst of trailing calls at one instant on a
      controller whose window is closed (a fresh one, for instance), then the
      timer fires: exactly one run of the handler, with the last call's arguments. */
  lemma TrailingBurstThenFire<A, R, E>(
    opts: Options, cb: A -> Outcome<R, E>, s: State<A, R, E>, now: nat, xs: seq<Invocation<A>>)
    requires !opts.isLeading && Inv(opts, s) && |xs| > 0
    requires forall i :: 0 <= i < |xs| ==> xs[i].now == now
    requires s.memo.thenTime == 0 || now - s.memo.thenTime <= opts.delay
    ensures var s' := Calls(App, opts, cb, s, xs).0;
      && s'.timeoutId in s'.timers.armed
      && Fire(opts, cb, s', s'.timeoutId).memo.runs == s.memo.runs + [xs[|xs| - 1].args]
  {
    TrailingBurst(App, opts, cb, s, now, xs);
  }
}
