/** The state machine that src/throttlev1.ts and src/app.js both implement,
    over the closure variables `timeoutId`, `then` and `result`, with the host's
    timers explicit. The two files differ only in how a trailing call starts,
    so that one step takes the iteration as a parameter. Each transition is a
    function of the state before it; the classes in ThrottleV1Closure and
    ThrottleAppClosure perform the same transitions in place. */
module SyncThrottle {
  import opened Throttling
  import opened HostTimers

  /** `V1` is src/throttlev1.ts, `App` is src/app.js. */
  datatype Iteration = V1 | App

  /** What the callback armed by a trailing call has captured: that call's own
      clock reading and its own arguments. */
  datatype Timer<A> = Timer(capturedNow: nat, args: A)

  /** `timeoutId` is 0 while it is still `null`; it keeps naming a timer after
      that timer fired or was cleared, as the closure variable does. */
  datatype State<A, R, E> = State(timeoutId: nat, timers: Timers<Timer<A>>, memo: Memo<A, R, E>)

  /** The controller invariant: at most one timer is armed, it is the one
      `timeoutId` names, and leading mode never arms one. */
  ghost predicate Inv<A, R, E>(opts: Options, s: State<A, R, E>) {
    && s.timers.Valid()
    && s.timeoutId < s.timers.nextId
    && s.timers.armed.Keys <= {s.timeoutId}
    && (opts.isLeading ==> s.timers.armed == map[])
  }

  /** The state `throttle(cb, opts)` creates. */
  function Initial<A, R, E>(): (s: State<A, R, E>)
    ensures forall opts: Options :: Inv(opts, s)
    ensures s.timeoutId == 0 && s.timers.armed == map[] && s.memo == Fresh()
  {
    State(0, NoTimers(), Fresh())
  }

  /** `then` as a trailing call sees it after its first assignment: src/throttlev1.ts
      writes `then ?? now`, which keeps `then` (it is a number, never null);
      src/app.js writes `then || now`, which replaces an unset `then` by `now`. */
  function Seed(it: Iteration, thenTime: nat, now: nat): (t: nat)
    // Neither form opens the window by itself.
    ensures t == thenTime || now - t == 0
    // `??` on a number is the identity.
    ensures it == V1 ==> t == thenTime
    // `||` leaves `then` unset only when the clock reads 0.
    ensures it == App ==> (t == 0 <==> thenTime == 0 && now == 0)
  {
    match it
    case V1 => thenTime
    case App => Seeded(thenTime, now)
  }

  /** `_throttle(...args)` at clock reading `now`; the second component is what it returns. */
  function Call<A, R, E>(it: Iteration, opts: Options, cb: A -> Outcome<R, E>, s: State<A, R, E>, now: nat, args: A)
    : (r: (State<A, R, E>, Option<R>))
    ensures Inv(opts, s) ==> Inv(opts, r.0)
    // The returned value is `result` as it stands after the optional run.
    ensures r.1 == r.0.memo.result
    // Trailing mode: `then` is seeded, and the handler runs on the spot, with this
    // call's arguments, exactly when `now - then > delay`.
    ensures !opts.isLeading ==>
      var t := Seed(it, s.memo.thenTime, now);
      r.0.memo == if now - t > opts.delay then Update(s.memo, cb, opts.hasOnError, now, args) else s.memo.(thenTime := t)
    // Trailing mode: the old timer is cleared, and the one armed timer is this
    // call's, carrying its own `now` and arguments.
    ensures !opts.isLeading ==> r.0.timeoutId == s.timers.nextId
    ensures !opts.isLeading && Inv(opts, s) ==> r.0.timers.armed == map[r.0.timeoutId := Timer(now, args)]
    ensures !opts.isLeading && Inv(opts, s) && s.timeoutId != 0 ==> Retired(r.0.timers, s.timeoutId)
    // Leading mode: the handler runs exactly when `!then || now - then > delay`,
    // and no timer is touched.
    ensures opts.isLeading ==>
      r.0.memo == if s.memo.thenTime == 0 || now - s.memo.thenTime > opts.delay
                  then Update(s.memo, cb, opts.hasOnError, now, args) else s.memo
    ensures opts.isLeading ==> r.0.timeoutId == s.timeoutId && r.0.timers == s.timers
    ensures forall id :: Retired(s.timers, id) ==> Retired(r.0.timers, id)
  {
    if !opts.isLeading then
      // src/throttlev1.ts guards with `timeoutId &&`; src/app.js clears unconditionally.
      var cleared := if it == V1 && s.timeoutId == 0 then s.timers else ClearTimeout(s.timers, s.timeoutId);
      var seeded := s.memo.(thenTime := Seed(it, s.memo.thenTime, now));
      var memo := if now - seeded.thenTime > opts.delay then Update(seeded, cb, opts.hasOnError, now, args) else seeded;
      var (timers, id) := SetTimeout(cleared, Timer(now, args));
      (State(id, timers, memo), memo.result)
    else if s.memo.thenTime == 0 then
      var memo := Update(s.memo, cb, opts.hasOnError, now, args);
      (s.(memo := memo), memo.result)
    else if now - s.memo.thenTime > opts.delay then
      var memo := Update(s.memo, cb, opts.hasOnError, now, args);
      (s.(memo := memo), memo.result)
    else
      (s, s.memo.result)
  }

  /** The host fires the armed timer `id`: it forgets the timer and runs the
      captured `update(now, ...args)`, so `then` becomes the captured clock
      reading, not the time of firing. `timeoutId` is left as it is. */
  function Fire<A, R, E>(opts: Options, cb: A -> Outcome<R, E>, s: State<A, R, E>, id: nat): (s': State<A, R, E>)
    requires id in s.timers.armed
    ensures Inv(opts, s) ==> Inv(opts, s')
    ensures s'.timeoutId == s.timeoutId
    ensures s'.timers.armed == s.timers.armed - {id}
    ensures s.timers.Valid() ==> Retired(s'.timers, id)
    ensures s'.memo == Update(s.memo, cb, opts.hasOnError, s.timers.armed[id].capturedNow, s.timers.armed[id].args)
    ensures forall i :: Retired(s.timers, i) ==> Retired(s'.timers, i)
  {
    var timer := s.timers.armed[id];
    State(s.timeoutId, ClearTimeout(s.timers, id), Update(s.memo, cb, opts.hasOnError, timer.capturedNow, timer.args))
  }

  /** `_throttle.cancel()`: clears the timer `timeoutId` names; `then` and `result` stay. */
  function Cancel<A, R, E>(opts: Options, s: State<A, R, E>): (s': State<A, R, E>)
    ensures Inv(opts, s) ==> Inv(opts, s') && s'.timers.armed == map[]
    ensures Inv(opts, s) && s.timeoutId != 0 ==> Retired(s'.timers, s.timeoutId)
    ensures s'.memo == s.memo && s'.timeoutId == s.timeoutId
    ensures s'.timers.armed == s.timers.armed - {s.timeoutId}
    ensures forall i :: Retired(s.timers, i) ==> Retired(s'.timers, i)
  {
    s.(timers := ClearTimeout(s.timers, s.timeoutId))
  }

  /** `_throttle.invoke(...args)`: runs the handler through `update` whatever the
      throttle state, returns nothing, and leaves the timers alone. */
  function Invoke<A, R, E>(opts: Options, cb: A -> Outcome<R, E>, s: State<A, R, E>, now: nat, args: A)
    : (s': State<A, R, E>)
    ensures Inv(opts, s) ==> Inv(opts, s')
    ensures s'.memo == Update(s.memo, cb, opts.hasOnError, now, args)
    ensures s'.timeoutId == s.timeoutId && s'.timers == s.timers
  {
    s.(memo := Update(s.memo, cb, opts.hasOnError, now, args))
  }

  /** A run of calls with no timer firing in between; the second component holds
      what each call returned, in order. */
  function Calls<A, R, E>(it: Iteration, opts: Options, cb: A -> Outcome<R, E>, s: State<A, R, E>, xs: seq<Invocation<A>>)
    : (r: (State<A, R, E>, seq<Option<R>>))
    ensures |r.1| == |xs|
    ensures Inv(opts, s) ==> Inv(opts, r.0)
    decreases |xs|
  {
    if xs == [] then (s, [])
    else
      var (s1, vs) := Calls(it, opts, cb, s, xs[..|xs| - 1]);
      var (s2, v) := Call(it, opts, cb, s1, xs[|xs| - 1].now, xs[|xs| - 1].args);
      (s2, vs + [v])
  }

  /** Everything that can happen to a controller. */
  datatype Event<A> = CallAt(call: Invocation<A>) | FireTimer(id: nat) | CancelTimer | InvokeAt(call: Invocation<A>)

  /** One event; a `FireTimer` for an id that is not armed does nothing, since the
      host fires only armed timers. */
  function Step<A, R, E>(it: Iteration, opts: Options, cb: A -> Outcome<R, E>, s: State<A, R, E>, ev: Event<A>)
    : (s': State<A, R, E>)
    ensures Inv(opts, s) ==> Inv(opts, s')
    ensures forall id :: Retired(s.timers, id) ==> Retired(s'.timers, id)
  {
    match ev
    case CallAt(c) => Call(it, opts, cb, s, c.now, c.args).0
    case FireTimer(id) => if id in s.timers.armed then Fire(opts, cb, s, id) else s
    case CancelTimer => Cancel(opts, s)
    case InvokeAt(c) => Invoke(opts, cb, s, c.now, c.args)
  }

  /** Events applied in order. */
  function Run<A, R, E>(it: Iteration, opts: Options, cb: A -> Outcome<R, E>, s: State<A, R, E>, evs: seq<Event<A>>)
    : (s': State<A, R, E>)
    ensures Inv(opts, s) ==> Inv(opts, s')
    decreases |evs|
  {
    if evs == [] then s else Run(it, opts, cb, Step(it, opts, cb, s, evs[0]), evs[1..])
  }

  /** At most one timer is ever outstanding. */
  lemma AtMostOneTimer<A, R, E>(opts: Options, s: State<A, R, E>)
    requires Inv(opts, s)
    ensures |s.timers.armed| <= 1
  {
    AtMostOneArmed(s.timers, s.timeoutId);
  }

  /** A timer that was cleared (by a later trailing call or by `cancel`) or that
      already fired stays disarmed whatever happens next, so the arguments it
      captured never reach the handler through it. */
  lemma {:induction false} ClearedTimerNeverFires<A, R, E>(
    it: Iteration, opts: Options, cb: A -> Outcome<R, E>, s: State<A, R, E>, id: nat, evs: seq<Event<A>>)
    requires Retired(s.timers, id)
    ensures Retired(Run(it, opts, cb, s, evs).timers, id)
    decreases |evs|
  {
    if evs != [] {
      ClearedTimerNeverFires(it, opts, cb, Step(it, opts, cb, s, evs[0]), id, evs[1..]);
    }
  }

  /** When a trailing call runs the handler on the spot, it still arms its timer
      with the same arguments, so unless something supersedes that timer the
      same arguments run a second time when it fires. Both iterations do this;
      src/app.js only once `then` is set. */
  lemma ImmediateRunRepeats<A, R, E>(
    it: Iteration, opts: Options, cb: A -> Outcome<R, E>, s: State<A, R, E>, now: nat, args: A)
    requires !opts.isLeading && Inv(opts, s) && now - Seed(it, s.memo.thenTime, now) > opts.delay
    ensures var s1 := Call(it, opts, cb, s, now, args).0;
      s1.timeoutId in s1.timers.armed &&
      Fire(opts, cb, s1, s1.timeoutId).memo.runs == s.memo.runs + [args, args]
  {
    var s1 := Call(it, opts, cb, s, now, args).0;
    assert s1.memo.runs == s.memo.runs + [args];
  }

  /** Leading mode tests `!then`, so a run at clock reading 0 leaves `then` at 0
      and counts as no run: every leading call at clock 0 runs the handler, and
      the cooldown starts only with the first call at a positive reading. */
  lemma LeadingAtClockZeroAlwaysRuns<A, R, E>(
    it: Iteration, opts: Options, cb: A -> Outcome<R, E>, s: State<A, R, E>, a: A, b: A)
    requires opts.isLeading && s.memo.thenTime == 0
    ensures var s' := Calls(it, opts, cb, s, [Invocation(0, a), Invocation(0, b)]).0;
      s'.memo.runs == s.memo.runs + [a, b] && s'.memo.thenTime == 0
  {
    var xs := [Invocation(0, a), Invocation(0, b)];
    assert xs[..1] == [Invocation(0, a)] && xs[..1][..0] == [];
    var s1 := Call(it, opts, cb, s, 0, a).0;
    assert Calls(it, opts, cb, s, xs[..1]).0 == s1;
    assert s1.memo.runs == s.memo.runs + [a] && s1.memo.thenTime == 0;
    assert Calls(it, opts, cb, s, xs).0 == Call(it, opts, cb, s1, 0, b).0;
  }

  /** A burst of trailing calls at one instant: at most the first runs on the
      spot (when the window is open), every call returns the same `result`, and
      the single armed timer carries the last call's arguments. */
  lemma {:induction false} TrailingBurst<A, R, E>(
    it: Iteration, opts: Options, cb: A -> Outcome<R, E>, s: State<A, R, E>, now: nat, xs: seq<Invocation<A>>)
    requires !opts.isLeading && Inv(opts, s) && |xs| > 0
    requires forall i :: 0 <= i < |xs| ==> xs[i].now == now
    ensures var (s', vs) := Calls(it, opts, cb, s, xs);
      var t := Seed(it, s.memo.thenTime, now);
      && s'.memo == (if now - t > opts.delay
                     then Update(s.memo, cb, opts.hasOnError, now, xs[0].args) else s.memo.(thenTime := t))
      && s'.timers.armed == map[s'.timeoutId := Timer(now, xs[|xs| - 1].args)]
      && forall i :: 0 <= i < |vs| ==> vs[i] == s'.memo.result
    decreases |xs|
  {
    var init := xs[..|xs| - 1];
    var last := xs[|xs| - 1];
    if init == [] {
      assert Calls(it, opts, cb, s, init) == (s, []);
    } else {
      TrailingBurst(it, opts, cb, s, now, init);
      var (s1, vs1) := Calls(it, opts, cb, s, init);
      assert init[0] == xs[0];
      assert Seed(it, s1.memo.thenTime, now) == s1.memo.thenTime || s1.memo.thenTime == 0;
      var (s2, v) := Call(it, opts, cb, s1, last.now, last.args);
      assert s2.memo == s1.memo;
    }
  }

  /** A burst of leading calls at one instant `now > 0`: the first runs when the
      window is open, the others see `then == now` and return that call's result. */
  lemma {:induction false} LeadingBurst<A, R, E>(
    it: Iteration, opts: Options, cb: A -> Outcome<R, E>, s: State<A, R, E>, now: nat, xs: seq<Invocation<A>>)
    requires opts.isLeading && Inv(opts, s) && |xs| > 0 && now > 0
    requires forall i :: 0 <= i < |xs| ==> xs[i].now == now
    ensures var (s', vs) := Calls(it, opts, cb, s, xs);
      && s'.memo == (if s.memo.thenTime == 0 || now - s.memo.thenTime > opts.delay
                     then Update(s.memo, cb, opts.hasOnError, now, xs[0].args) else s.memo)
      && s'.timers == s.timers
      && forall i :: 0 <= i < |vs| ==> vs[i] == s'.memo.result
    decreases |xs|
  {
    var init := xs[..|xs| - 1];
    var last := xs[|xs| - 1];
    if init == [] {
      assert Calls(it, opts, cb, s, init) == (s, []);
    } else {
      LeadingBurst(it, opts, cb, s, now, init);
      var (s1, vs1) := Calls(it, opts, cb, s, init);
      assert init[0] == xs[0];
      var (s2, v) := Call(it, opts, cb, s1, last.now, last.args);
      assert s2.memo == s1.memo;
    }
  }
}
