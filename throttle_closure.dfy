/** src/throttle.ts in its own form: `throttle(cb, opts)` is the constructor,
    `timeoutId` and `then` are fields the methods reassign, and a returned promise
    is a ticket number whose settlement lives in a ghost map. Each method is
    proved to perform the ThrottlePromise transition of the same name. */
module ThrottlePromiseClosure {
  import opened Throttling
  import opened HostTimers
  import ThrottlePromise

  class Throttle<A, R, E> {
    const cb: A -> Outcome<R, E>
    /** `opts.delay`, the only option this iteration reads. */
    const delay: nat
    var timeoutId: nat
    var thenTime: nat
    var timers: Timers<ThrottlePromise.Timer<A>>
    /** The next promise to hand out. */
    var nextTicket: nat
    ghost var runs: seq<A>
    ghost var tickets: map<nat, ThrottlePromise.Settlement<R, E>>

    ghost function State(): ThrottlePromise.State<A, R, E>
      reads this
    {
      ThrottlePromise.State(timeoutId, thenTime, timers, runs, tickets, nextTicket)
    }

    ghost predicate Valid()
      reads this
    {
      ThrottlePromise.Inv(State())
    }

    /** `throttle(cb, opts)`. */
    constructor (cb: A -> Outcome<R, E>, opts: Options)
      ensures this.cb == cb && delay == opts.delay
      ensures Valid() && State() == ThrottlePromise.Initial()
    {
      this.cb := cb;
      delay := opts.delay;
      timeoutId := 0;
      thenTime := 0;
      timers := NoTimers();
      nextTicket := 0;
      runs := [];
      tickets := map[];
    }

    /** `_throttle(...args)` at clock reading `now`; returns the promise's ticket. */
    method Call(now: nat, args: A) returns (ticket: nat)
      requires Valid()
      modifies this
      ensures Valid()
      ensures (State(), ticket) == ThrottlePromise.Call(delay, cb, old(State()), now, args)
    {
      thenTime := Seeded(thenTime, now);
      timers := ClearTimeout(timers, timeoutId);
      ticket := nextTicket;
      nextTicket := nextTicket + 1;
      if now - thenTime > delay {
        thenTime := now;
        runs := runs + [args];
        tickets := tickets[ticket := ThrottlePromise.Settle(cb(args))];
        return;
      }
      tickets := tickets[ticket := ThrottlePromise.Unsettled];
      var (t, id) := SetTimeout(timers, ThrottlePromise.Timer(now, args, ticket));
      timers, timeoutId := t, id;
    }

    /** The host fires the armed timer `id` and runs its callback. */
    method Fire(id: nat)
      requires Valid() && id in timers.armed
      modifies this
      ensures Valid()
      ensures State() == ThrottlePromise.Fire(cb, old(State()), id)
    {
      var timer := timers.armed[id];
      timers := ClearTimeout(timers, id);
      thenTime := timer.capturedNow;
      runs := runs + [timer.args];
      match cb(timer.args)
      case Returns(v) =>
        tickets := tickets[timer.ticket := ThrottlePromise.Resolved(v)];
      case Throws(_) =>
    }

    /** `_throttle.cancel()`. */
    method Cancel()
      requires Valid()
      modifies this
      ensures Valid() && timers.armed == map[]
      ensures State() == ThrottlePromise.Cancel(old(State()))
    {
      timers := ClearTimeout(timers, timeoutId);
    }
  }
}
