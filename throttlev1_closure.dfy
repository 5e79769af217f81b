/** src/throttlev1.ts in its own form: `throttle(cb, opts)` is the constructor,
    the closure variables are fields that the methods reassign step by step, and
    each method is proved to perform the SyncThrottle transition of the same name, with
    the `V1` iteration. */
module ThrottleV1Closure {
  import opened Throttling
  import opened HostTimers
  import SyncThrottle

  class Throttle<A, R, E> {
    const cb: A -> Outcome<R, E>
    const opts: Options
    var timeoutId: nat
    var thenTime: nat
    var result: Option<R>
    /** The host's table of this controller's armed timers. */
    var timers: Timers<SyncThrottle.Timer<A>>
    /** What the handler has been run with, in order, and what `onError` received. */
    ghost var runs: seq<A>
    ghost var errors: seq<E>

    ghost function State(): SyncThrottle.State<A, R, E>
      reads this
    {
      SyncThrottle.State(timeoutId, timers, Memo(thenTime, result, runs, errors))
    }

    ghost predicate Valid()
      reads this
    {
      SyncThrottle.Inv(opts, State())
    }

    /** `throttle(cb, opts)`. */
    constructor (cb: A -> Outcome<R, E>, opts: Options)
      ensures this.cb == cb && this.opts == opts
      ensures Valid() && State() == SyncThrottle.Initial()
    {
      this.cb := cb;
      this.opts := opts;
      timeoutId := 0;
      thenTime := 0;
      result := None;
      timers := NoTimers();
      runs := [];
      errors := [];
    }

    /** `update(now, ...args)`. */
    method Update(now: nat, args: A)
      modifies this
      ensures State() == old(State()).(memo := Throttling.Update(old(State()).memo, cb, opts.hasOnError, now, args))
    {
      thenTime := now;
      runs := runs + [args];
      match cb(args)
      case Returns(v) =>
        result := Some(v);
      case Throws(e) =>
        if opts.hasOnError {
          errors := errors + [e];
        }
    }

    /** `_throttle(...args)` at clock reading `now`. */
    method Call(now: nat, args: A) returns (r: Option<R>)
      requires Valid()
      modifies this
      ensures Valid()
      ensures (State(), r) == SyncThrottle.Call(SyncThrottle.V1, opts, cb, old(State()), now, args)
    {
      if !opts.isLeading {
        if timeoutId != 0 {
          timers := ClearTimeout(timers, timeoutId);
        }
        // `then = then ?? now` leaves `then` as it is: it is never null.
        if now - thenTime > opts.delay {
          Update(now, args);
        }
        var (t, id) := SetTimeout(timers, SyncThrottle.Timer(now, args));
        timers, timeoutId := t, id;
        return result;
      }
      if thenTime == 0 {
        Update(now, args);
        return result;
      }
      if now - thenTime > opts.delay {
        Update(now, args);
      }
      return result;
    }

    /** The host fires the armed timer `id` and runs its callback. */
    method Fire(id: nat)
      requires Valid() && id in timers.armed
      modifies this
      ensures Valid()
      ensures State() == SyncThrottle.Fire(opts, cb, old(State()), id)
    {
      var timer := timers.armed[id];
      timers := ClearTimeout(timers, id);
      Update(timer.capturedNow, timer.args);
    }

    /** `_throttle.cancel()`. */
    method Cancel()
      requires Valid()
      modifies this
      ensures Valid() && timers.armed == map[]
      ensures State() == SyncThrottle.Cancel(opts, old(State()))
    {
      timers := ClearTimeout(timers, timeoutId);
    }

    /** `_throttle.invoke(...args)` at clock reading `now`; it returns nothing. */
    method Invoke(now: nat, args: A)
      requires Valid()
      modifies this
      ensures Valid()
      ensures State() == SyncThrottle.Invoke(opts, cb, old(State()), now, args)
    {
      Update(now, args);
    }
  }
}
