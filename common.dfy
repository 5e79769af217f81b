/** Vocabulary shared by the three iterations of `throttle(cb, opts)`:
    the options object, what one run of the handler does, and the
    `update` step that src/throttlev1.ts and src/app.js both define. */
module Throttling {

  datatype Option<T> = None | Some(value: T)

  /** The effect of one run of the handler `cb(...args)`: it returns a value or throws. */
  datatype Outcome<R, E> = Returns(value: R) | Throws(error: E)

  /** The options object. `hasOnError` says whether an `onError` sink is configured;
      the errors it receives are recorded in the closure's history (see Memo). */
  datatype Options = Options(delay: nat, isLeading: bool, hasOnError: bool)

  /** One call of the wrapped function: the clock reading `performance.now()` gives it, and its arguments. */
  datatype Invocation<A> = Invocation(now: nat, args: A)

  /** The closure variables `then` and `result` (`None` is `undefined`), together with
      the history of what the handler was run with and what `onError` was given. */
  datatype Memo<A, R, E> = Memo(thenTime: nat, result: Option<R>, runs: seq<A>, errors: seq<E>)

  /** `let then = 0; let result;` (`then` is `thenTime` here, since `then` is a Dafny keyword) and nothing has run yet. */
  function Fresh<A, R, E>(): (m: Memo<A, R, E>)
    ensures m.thenTime == 0 && m.result == None && m.runs == [] && m.errors == []
  {
    Memo(0, None, [], [])
  }

  /** `then || now` in src/app.js and src/throttle.ts: 0 is falsy, so an unset
      `then` takes the clock reading. */
  function Seeded(thenTime: nat, now: nat): (t: nat)
    // Seeding never opens the window by itself: either `then` is kept, or the
    // window measured from it is empty at this instant.
    ensures t == thenTime || now - t == 0
    // A `then` that is already set is never moved.
    ensures thenTime != 0 ==> t == thenTime
    // `then` is still unset afterwards only when the clock reads 0.
    ensures t == 0 <==> thenTime == 0 && now == 0
  {
    if thenTime != 0 then thenTime else now
  }

  /** `update(now, ...args)`: `then` becomes `now` whether or not the handler throws;
      a value it returns becomes `result`; an error it throws leaves `result` alone,
      goes to `onError` when one is configured, and never reaches the caller. */
  function Update<A, R, E>(m: Memo<A, R, E>, cb: A -> Outcome<R, E>, hasOnError: bool, now: nat, args: A)
    : (m': Memo<A, R, E>)
    ensures m'.thenTime == now
    ensures m'.runs == m.runs + [args]
    ensures cb(args).Returns? ==> m'.result == Some(cb(args).value) && m'.errors == m.errors
    ensures cb(args).Throws? ==> m'.result == m.result
    ensures cb(args).Throws? && hasOnError ==> m'.errors == m.errors + [cb(args).error]
    ensures cb(args).Throws? && !hasOnError ==> m'.errors == m.errors
  {
    match cb(args)
    case Returns(v) => Memo(now, Some(v), m.runs + [args], m.errors)
    case Throws(e) => Memo(now, m.result, m.runs + [args], if hasOnError then m.errors + [e] else m.errors)
  }
}
