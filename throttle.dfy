/** The last iteration, src/throttle.ts: trailing mode only, and every call
    returns a promise. A promise is a ticket whose settlement is tracked; there
    is no cached result, no `invoke` and no `onError`, and `opts.delay` is the
    only option read. The class in ThrottlePromiseClosure performs these
    transitions in place. */
module ThrottlePromise {
  import opened Throttling
  import opened HostTimers

  /** How a returned promise stands. A promise that is never resolved or
      rejected stays `Unsettled` for good. */
  datatype Settlement<R, E> = Unsettled | Resolved(value: R) | Rejected(error: E)

  /** What the callback armed by a call has captured: its clock reading, its
      arguments and the `resolve` of the promise it returned. */
  datatype Timer<A> = Timer(capturedNow: nat, args: A, ticket: nat)

  /** `timeoutId` (0 while `null`) and `then`, the host's timers, the runs of the
      handler, and the settlement of every promise handed out so far. */
  datatype State<A, R, E> = State(
    timeoutId: nat,
    thenTime: nat,
    timers: Timers<Timer<A>>,
    runs: seq<A>,
    tickets: map<nat, Settlement<R, E>>,
    nextTicket: nat)

  /** At most one timer is armed, it is the one `timeoutId` names, the tickets
      handed out are exactly those below `nextTicket`, and an armed timer holds a
      promise that has not settled yet. */
  ghost predicate Inv<A, R, E>(s: State<A, R, E>) {
    && s.timers.Valid()
    && s.timeoutId < s.timers.nextId
    && s.timers.armed.Keys <= {s.timeoutId}
    && (forall t: nat :: t in s.tickets <==> t < s.nextTicket)
    && (forall id :: id in s.timers.armed ==>
          s.timers.armed[id].ticket in s.tickets && s.tickets[s.timers.armed[id].ticket] == Unsettled)
  }

  /** A promise that has not settled and that no armed timer can settle. */
  ghost predicate Orphaned<A, R, E>(s: State<A, R, E>, t: nat) {
    && t in s.tickets && s.tickets[t] == Unsettled
    && forall id :: id in s.timers.armed ==> s.timers.armed[id].ticket != t
  }

  /** A promise that has settled keeps its settlement. */
  ghost predicate SettledKept<A, R, E>(s: State<A, R, E>, s': State<A, R, E>) {
    forall t :: t in s.tickets && s.tickets[t] != Unsettled ==> t in s'.tickets && s'.tickets[t] == s.tickets[t]
  }

  function Initial<A, R, E>(): (s: State<A, R, E>)
    ensures Inv(s) && s.thenTime == 0 && s.timers.armed == map[] && s.runs == [] && s.tickets == map[]
  {
    State(0, 0, NoTimers(), [], map[], 0)
  }

  /** `new Promise((resolve) => resolve(cb(...args)))`: a throw inside the
      executor rejects the promise. */
  function Settle<R, E>(o: Outcome<R, E>): (st: Settlement<R, E>)
    // The executor always settles its promise, unlike the timer callback.
    ensures !st.Unsettled?
    // It resolves exactly when the handler returns, with the returned value,
    // and otherwise rejects with the thrown error.
    ensures st.Resolved? <==> o.Returns?
    ensures st.Resolved? ==> st.value == o.value
    ensures st.Rejected? ==> st.error == o.error
  {
    match o
    case Returns(v) => Resolved(v)
    case Throws(e) => Rejected(e)
  }

  /** `_throttle(...args)` at clock reading `now`; the second component is the
      ticket of the promise it returns. */
  function Call<A, R, E>(delay: nat, cb: A -> Outcome<R, E>, s: State<A, R, E>, now: nat, args: A)
    : (r: (State<A, R, E>, nat))
    ensures Inv(s) ==> Inv(r.0) && r.1 !in s.tickets
    ensures r.1 == s.nextTicket && r.0.nextTicket == s.nextTicket + 1
    ensures r.0.tickets.Keys == s.tickets.Keys + {r.1}
    // Every call clears the previous timer first.
    ensures Inv(s) && s.timeoutId != 0 ==> Retired(r.0.timers, s.timeoutId)
    ensures Inv(s) && s.timeoutId in s.timers.armed ==> Orphaned(r.0, s.timers.armed[s.timeoutId].ticket)
    // Window open: `then := now`, the handler runs now, and the promise settles with its outcome.
    ensures var t := Seeded(s.thenTime, now);
      now - t > delay ==>
        && r.0.thenTime == now && r.0.runs == s.runs + [args]
        && r.0.tickets[r.1] == Settle(cb(args))
        && r.0.timeoutId == s.timeoutId
        && (Inv(s) ==> r.0.timers.armed == map[])
    // Otherwise: the handler does not run, and the one armed timer carries this call's clock reading, arguments and promise.
    ensures var t := Seeded(s.thenTime, now);
      now - t <= delay ==>
        && r.0.thenTime == t && r.0.runs == s.runs
        && r.0.tickets[r.1] == Unsettled
        && r.0.timeoutId == s.timers.nextId
        && (Inv(s) ==> r.0.timers.armed == map[r.0.timeoutId := Timer(now, args, r.1)])
    ensures Inv(s) ==> SettledKept(s, r.0)
    ensures Inv(s) ==> forall t :: Orphaned(s, t) ==> Orphaned(r.0, t)
    ensures forall id :: Retired(s.timers, id) ==> Retired(r.0.timers, id)
  {
    var t := Seeded(s.thenTime, now);
    var cleared := ClearTimeout(s.timers, s.timeoutId);
    var ticket := s.nextTicket;
    if now - t > delay then
      (s.(thenTime := now, timers := cleared, runs := s.runs + [args],
          tickets := s.tickets[ticket := Settle(cb(args))], nextTicket := ticket + 1), ticket)
    else
      var (timers, id) := SetTimeout(cleared, Timer(now, args, ticket));
      (s.(timeoutId := id, thenTime := t, timers := timers,
          tickets := s.tickets[ticket := Unsettled], nextTicket := ticket + 1), ticket)
  }

  /** The host fires the armed timer `id`: `then` becomes the captured clock
      reading and the handler runs with the captured arguments. A value resolves
      that call's promise; a throw escapes the timer callback and the promise
      never settles. */
  function Fire<A, R, E>(cb: A -> Outcome<R, E>, s: State<A, R, E>, id: nat): (s': State<A, R, E>)
    requires id in s.timers.armed
    ensures Inv(s) ==> Inv(s')
    ensures s'.timeoutId == s.timeoutId && s'.nextTicket == s.nextTicket
    ensures s'.timers.armed == s.timers.armed - {id}
    ensures s'.thenTime == s.timers.armed[id].capturedNow
    ensures s'.runs == s.runs + [s.timers.armed[id].args]
    ensures var t := s.timers.armed[id].ticket;
      && (Inv(s) ==> s'.tickets.Keys == s.tickets.Keys)
      && (cb(s.timers.armed[id].args).Returns? ==> s'.tickets == s.tickets[t := Resolved(cb(s.timers.armed[id].args).value)])
      && (cb(s.timers.armed[id].args).Throws? ==> s'.tickets == s.tickets)
    ensures Inv(s) ==> SettledKept(s, s')
    ensures Inv(s) ==> forall t :: Orphaned(s, t) ==> Orphaned(s', t)
    ensures forall i :: Retired(s.timers, i) ==> Retired(s'.timers, i)
  {
    var timer := s.timers.armed[id];
    var tickets := match cb(timer.args)
      case Returns(v) => s.tickets[timer.ticket := Resolved(v)]
      case Throws(_) => s.tickets;
    s.(thenTime := timer.capturedNow, timers := ClearTimeout(s.timers, id), runs := s.runs + [timer.args], tickets := tickets)
  }

  /** `_throttle.cancel()`: disarms the pending timer, whose promise then never
      settles; `then` stays. */
  function Cancel<A, R, E>(s: State<A, R, E>): (s': State<A, R, E>)
    ensures Inv(s) ==> Inv(s') && s'.timers.armed == map[]
    ensures Inv(s) && s.timeoutId in s.timers.armed ==> Orphaned(s', s.timers.armed[s.timeoutId].ticket)
    ensures s'.thenTime == s.thenTime && s'.runs == s.runs && s'.tickets == s.tickets && s'.timeoutId == s.timeoutId
    ensures s'.timers.armed == s.timers.armed - {s.timeoutId}
    ensures forall t :: Orphaned(s, t) ==> Orphaned(s', t)
    ensures forall i :: Retired(s.timers, i) ==> Retired(s'.timers, i)
  {
    s.(timers := ClearTimeout(s.timers, s.timeoutId))
  }

  /** A run of calls with no timer firing in between, and the tickets they returned. */
  function Calls<A, R, E>(delay: nat, cb: A -> Outcome<R, E>, s: State<A, R, E>, xs: seq<Invocation<A>>)
    : (r: (State<A, R, E>, seq<nat>))
    ensures |r.1| == |xs|
    ensures Inv(s) ==> Inv(r.0)
    ensures forall i :: 0 <= i < |r.1| ==> r.1[i] == s.nextTicket + i
    ensures r.0.nextTicket == s.nextTicket + |xs|
    decreases |xs|
  {
    if xs == [] then (s, [])
    else
      var (s1, ts) := Calls(delay, cb, s, xs[..|xs| - 1]);
      var (s2, t) := Call(delay, cb, s1, xs[|xs| - 1].now, xs[|xs| - 1].args);
      (s2, ts + [t])
  }

  datatype Event<A> = CallAt(call: Invocation<A>) | FireTimer(id: nat) | CancelTimer

  /** One event; a `FireTimer` for an id that is not armed does nothing. */
  function Step<A, R, E>(delay: nat, cb: A -> Outcome<R, E>, s: State<A, R, E>, ev: Event<A>): (s': State<A, R, E>)
    ensures Inv(s) ==> Inv(s') && SettledKept(s, s')
    ensures Inv(s) ==> forall t :: Orphaned(s, t) ==> Orphaned(s', t)
  {
    match ev
    case CallAt(c) => Call(delay, cb, s, c.now, c.args).0
    case FireTimer(id) => if id in s.timers.armed then Fire(cb, s, id) else s
    case CancelTimer => Cancel(s)
  }

  function Run<A, R, E>(delay: nat, cb: A -> Outcome<R, E>, s: State<A, R, E>, evs: seq<Event<A>>): (s': State<A, R, E>)
    ensures Inv(s) ==> Inv(s')
    decreases |evs|
  {
    if evs == [] then s else Run(delay, cb, Step(delay, cb, s, evs[0]), evs[1..])
  }

  lemma AtMostOneTimer<A, R, E>(s: State<A, R, E>)
    requires Inv(s)
    ensures |s.timers.armed| <= 1
  {
    AtMostOneArmed(s.timers, s.timeoutId);
  }

  /** The promise of a superseded or cancelled call never settles, whatever
      happens afterwards. */
  lemma {:induction false} OrphanNeverSettles<A, R, E>(
    delay: nat, cb: A -> Outcome<R, E>, s: State<A, R, E>, t: nat, evs: seq<Event<A>>)
    requires Inv(s) && Orphaned(s, t)
    ensures var s' := Run(delay, cb, s, evs);
      t in s'.tickets && s'.tickets[t] == Unsettled
    decreases |evs|
  {
    if evs == [] {
    } else {
      OrphanNeverSettles(delay, cb, Step(delay, cb, s, evs[0]), t, evs[1..]);
    }
  }

  /** A promise, once settled, keeps its settlement whatever happens afterwards. */
  lemma {:induction false} SettledStays<A, R, E>(
    delay: nat, cb: A -> Outcome<R, E>, s: State<A, R, E>, t: nat, evs: seq<Event<A>>)
    requires Inv(s) && t in s.tickets && s.tickets[t] != Unsettled
    ensures var s' := Run(delay, cb, s, evs);
      t in s'.tickets && s'.tickets[t] == s.tickets[t]
    decreases |evs|
  {
    if evs != [] {
      SettledStays(delay, cb, Step(delay, cb, s, evs[0]), t, evs[1..]);
    }
  }

  /** `then || now` seeds `then` with the first call's clock reading, so the
      first call is always deferred: nothing runs and its promise waits on the timer. */
  lemma FirstCallDeferred<A, R, E>(delay: nat, cb: A -> Outcome<R, E>, s: State<A, R, E>, now: nat, args: A)
    requires Inv(s) && s.thenTime == 0
    ensures var (s', t) := Call(delay, cb, s, now, args);
      && s'.runs == s.runs && s'.thenTime == now && s'.tickets[t] == Unsettled
      && s'.timers.armed == map[s'.timeoutId := Timer(now, args, t)]
  {
  }

  /** A burst of calls at one instant while the window is closed: nothing runs,
      every promise is pending, and the one armed timer holds the last call's
      arguments and promise; all earlier promises of the burst are orphaned. */
  lemma {:induction false} Burst<A, R, E>(
    delay: nat, cb: A -> Outcome<R, E>, s: State<A, R, E>, now: nat, xs: seq<Invocation<A>>)
    requires Inv(s) && |xs| > 0
    requires forall i :: 0 <= i < |xs| ==> xs[i].now == now
    requires s.thenTime == 0 || now - s.thenTime <= delay
    ensures var (s', ts) := Calls(delay, cb, s, xs);
      && s'.runs == s.runs
      && s'.thenTime == Seeded(s.thenTime, now)
      && s'.timers.armed == map[s'.timeoutId := Timer(now, xs[|xs| - 1].args, ts[|ts| - 1])]
      && forall i :: 0 <= i < |ts| - 1 ==> Orphaned(s', ts[i])
    decreases |xs|
  {
    var init := xs[..|xs| - 1];
    var last := xs[|xs| - 1];
    if init == [] {
      assert Calls(delay, cb, s, init) == (s, []);
    } else {
      Burst(delay, cb, s, now, init);
      var (s1, ts1) := Calls(delay, cb, s, init);
      var (s2, t) := Call(delay, cb, s1, last.now, last.args);
      assert Calls(delay, cb, s, xs) == (s2, ts1 + [t]);
      assert forall i :: 0 <= i < |ts1| - 1 ==> Orphaned(s1, ts1[i]);
      assert Orphaned(s2, ts1[|ts1| - 1]);
    }
  }

  /** src/test/app.spec.ts:15-29 against this iteration: a burst at one instant
      on a closed window, then the timer fires. The handler runs exactly once,
      with the last call's arguments; its promise resolves with the value and
      every other promise of the burst stays unsettled. */
  lemma BurstThenFire<A, R, E>(
    delay: nat, cb: A -> Outcome<R, E>, s: State<A, R, E>, now: nat, xs: seq<Invocation<A>>)
    requires Inv(s) && |xs| > 0
    requires forall i :: 0 <= i < |xs| ==> xs[i].now == now
    requires s.thenTime == 0 || now - s.thenTime <= delay
    requires cb(xs[|xs| - 1].args).Returns?
    ensures var (s', ts) := Calls(delay, cb, s, xs);
      s'.timeoutId in s'.timers.armed &&
      var s'' := Fire(cb, s', s'.timeoutId);
      && s''.runs == s.runs + [xs[|xs| - 1].args]
      && s''.tickets[ts[|ts| - 1]] == Resolved(cb(xs[|xs| - 1].args).value)
      && forall i :: 0 <= i < |ts| - 1 ==> Orphaned(s'', ts[i])
  {
    Burst(delay, cb, s, now, xs);
  }
}
