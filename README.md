# throttle: a verified model of a call-rate-limiting wrapper

The repository is one component, `throttle(cb, opts)`: it wraps a handler `cb`
and returns a function that bounds how often `cb` actually runs. It exists in
three iterations, each a closure over a few mutable variables:

- `src/throttlev1.ts`: trailing mode (the default) clears the previous timer and
  arms a new one on every call, and also runs the handler on the spot when
  `now - then > delay`; leading mode (`isLeading`) arms no timer and runs the
  handler when `then` is unset or `now - then > delay`, so at most once per
  `delay` once the clock reads above 0. The unset test is `!then`, so a run at
  clock reading 0 leaves `then` at 0 and every leading call at 0 runs
  (`SyncThrottle.LeadingAtClockZeroAlwaysRuns`). Handler errors are caught in `update` and
  routed to `onError`; `cancel` and `invoke` are exposed.
- `src/app.js`: the same machine, except that a trailing call seeds
  `then = then || now` where src/throttlev1.ts writes `then = then ?? now`. Since
  `then` starts at 0 and is never `null`, the `??` form never changes it, while
  the `||` form makes the first trailing call's clock reading `then`. That
  changes first-call behaviour (lemma `ThrottleApp.FirstCallAgainstV1`).
- `src/throttle.ts`: trailing mode only, and each call returns a promise. It
  keeps no cached result and has no `invoke` and no `onError` routing.

## How the model is built

- The clock and the host timer are explicit. Every call takes an integer clock
  reading `now` in place of `performance.now()`.
- The host's timers are a table `HostTimers.Timers`: it maps the positive ids
  `setTimeout` hands out (never reused) to the callbacks' captured data. Id 0
  stands for `timeoutId = null`.
- A separate step `Fire(id)` is the host firing an armed timer. It takes no
  clock reading because the callback never reads the clock: it uses the `now`
  captured by the call that armed it.
- The handler is a function value `cb: A -> Outcome<R, E>`, where
  `Outcome = Returns(value) | Throws(error)`.
- Ghost histories record, in order, the arguments of every handler run
  (`runs`) and every error passed to `onError` (`errors`). For
  src/throttle.ts they record how each returned promise settled (`tickets`):
  `Unsettled`, `Resolved(v)` or `Rejected(e)`.
- src/throttlev1.ts and src/app.js implement one machine and differ only in
  how a trailing call starts. `SyncThrottle` is that machine, one function per
  operation with its invariant and lemmas. Its `Call` takes the iteration
  (`V1` or `App`) as a parameter. `ThrottleV1` and `ThrottleApp` hold the
  lemmas particular to each iteration.
- `ThrottlePromise` is the src/throttle.ts machine.
- Each source file also has a class module (`ThrottleV1Closure`,
  `ThrottleAppClosure`, `ThrottlePromiseClosure`). It keeps the closure
  variables as fields that its methods reassign step by step, and each method
  is proved to perform the machine transition of the same name.
- `Throttling` holds the shared vocabulary and the `update` step that
  src/throttlev1.ts and src/app.js both define the same way (src/app.js:12-22
  matches src/throttlev1.ts:25-35).

What is proved:
- At most one timer is ever armed, and it is the one `timeoutId` names.
- A cleared or fired timer never fires again, whatever happens next. So a
  superseded or cancelled call's arguments never reach the handler through it,
  and (src/throttle.ts) its promise never settles.
- The strict `now - then > delay` test decides an immediate run, and `then`
  becomes the captured `now` when a timer fires.
- Error containment: `then` still advances, `result` is kept, and the error
  goes to `onError` only.
- `cancel` and `invoke` behave as the code says.
- A burst of calls at one instant coalesces as follows. On a closed window,
  trailing mode runs only the last call's arguments, from its timer. On an
  open window it also runs the first call's arguments on the spot. Leading
  mode runs the first call's arguments, and only when the window is open.
- Scenarios from the test files are replayed against the src/app.js machine:
  src/test/app.spec.ts:15-29, 31-46, 48-73 and 75-96, and
  src/test/app2.spec.ts:40-61 and 84-93.

Points where the code behaves differently from what its tests or types suggest;
the model follows the code:
- Every iteration clears the pending timer and arms a new one on every trailing
  call (src/throttlev1.ts:39,49; src/app.js:26,35; src/throttle.ts:10,23), so
  the window slides. The test at src/test/app2.spec.ts:13-38 expects a fixed
  cadence instead: a timer armed once that later calls do not reset.
- No timer is armed in leading mode. The decision uses `then` alone
  (src/throttlev1.ts:56-68, src/app.js:43-58), so `cancel` does not reopen a
  leading window.
- `invoke` returns nothing (src/throttlev1.ts:75-79, src/app.js:65-69). The
  type `invoke: (...args: C[]) => T | void` (src/throttlev1.ts:17) and the
  commented-out test at src/test/app.spec.ts:98-108 suggest a returned value.
- The handler gets no receiver: `cb(...args)` is called bare in every iteration.
- A trailing call that runs the handler on the spot still arms a timer with the
  same arguments. They run a second time after `delay` unless superseded
  (`SyncThrottle.ImmediateRunRepeats`). src/throttlev1.ts:45-51 does this, and
  src/app.js:30-38 does the same once `then` is set.

## Model

| member | source | states |
|---|---|---|
| Throttling.Fresh | src/throttlev1.ts:22-23 | `then` starts at 0 and `result` undefined, with no runs and no errors yet |
| Throttling.Update | src/throttlev1.ts:25-35 | `then` becomes `now` either way; a returned value becomes `result`; a thrown error leaves `result`, goes to `onError` only when one is configured and never reaches the caller (identical in src/app.js:12-22) |
| HostTimers.NoTimers | src/throttlev1.ts:21 | a fresh controller has no armed timer and `timeoutId` 0 is no id |
| HostTimers.SetTimeout | src/throttlev1.ts:49-51 | arms a timer under a fresh positive id not armed before, and every retired id stays retired |
| HostTimers.ClearTimeout | src/throttlev1.ts:39 | disarms exactly that id (no-op for 0 or an unarmed id), retiring it for good |
| HostTimers.AtMostOneArmed | src/throttlev1.ts:39-51 | when every armed id is `timeoutId`, at most one timer is armed |
| Throttling.Seeded | src/app.js:28 | the logical-or seeding never opens the window by itself (either `then` is kept or `now - then` is 0), never moves a `then` already set, and leaves `then` unset only at clock reading 0 (the same expression as src/throttle.ts:8) |
| SyncThrottle.Initial | src/throttlev1.ts:20-23 | the state `throttle` creates satisfies the invariant, with no timer armed (src/app.js:7-10 is the same) |
| SyncThrottle.Seed | src/throttlev1.ts:43 | the first assignment of `then` in a trailing call never opens the window by itself; `then ?? now` is the identity in src/throttlev1.ts; `then or now` in src/app.js:28 leaves `then` unset only at clock reading 0 |
| SyncThrottle.Call | src/throttlev1.ts:37-69 | keeps the at-most-one-timer invariant; returns `result` after the optional run; trailing: runs the handler on the spot exactly when `now - then > delay` against the seeded `then`, retires the old timer and arms exactly one carrying its own `now` and args; leading: runs exactly when `!then` or `now - then > delay` and touches no timer (src/app.js:24-59 with the `App` iteration) |
| SyncThrottle.Fire | src/throttlev1.ts:49-51 | the fired timer is disarmed, `timeoutId` is kept, and the handler runs via `update` with the captured args, with `then` set to the captured `now` rather than the firing time (src/app.js:35-38 is the same) |
| SyncThrottle.Cancel | src/throttlev1.ts:71-73 | afterwards no timer is armed and the old one is retired; `then`, `result` and the histories are unchanged (src/app.js:61-63 is the same) |
| SyncThrottle.Invoke | src/throttlev1.ts:75-79 | runs the handler through `update` regardless of state, returns nothing, and leaves `timeoutId` and the timers untouched (src/app.js:65-69 is the same) |
| SyncThrottle.Calls | src/throttlev1.ts:37-69 | consecutive calls return one value each and keep the invariant |
| SyncThrottle.Step | src/throttlev1.ts:37-79 | every operation keeps the invariant and never re-arms a retired timer |
| SyncThrottle.Run | src/throttlev1.ts:37-79 | any sequence of calls, firings, cancels and invokes keeps the invariant |
| SyncThrottle.AtMostOneTimer | src/throttlev1.ts:39-51 | under the invariant at most one timer is outstanding |
| SyncThrottle.ClearedTimerNeverFires | src/throttlev1.ts:39-73 | a timer cleared by a later call or by `cancel`, or already fired, stays disarmed after any events, so its captured args never reach the handler through it |
| SyncThrottle.ImmediateRunRepeats | src/throttlev1.ts:45-51 | in either iteration, a trailing call that runs on the spot arms a timer with the same args, whose firing runs them a second time (src/app.js:30-38 too) |
| SyncThrottle.LeadingAtClockZeroAlwaysRuns | src/throttlev1.ts:58-62 | with `then` unset, two leading calls at clock reading 0 both run the handler and leave `then` at 0, since `!then` reads a run at 0 as no run (src/app.js:45 too) |
| SyncThrottle.TrailingBurst | src/throttlev1.ts:38-53 | trailing calls at one instant: at most the first runs on the spot (if the window is open), all return the same `result`, and one timer holds the last call's args (src/app.js:25-41 too) |
| SyncThrottle.LeadingBurst | src/throttlev1.ts:56-68 | leading calls at one instant `now > 0`: the first runs if the window is open, the rest return that call's `result`, the timers stay untouched (src/app.js:43-58 too) |
| ThrottleV1.FirstTrailingCall | src/throttlev1.ts:43-47 | since `then ?? now` keeps `then` at 0, the first trailing call runs on the spot exactly when `now > delay` |
| ThrottleV1.TrailingCallKeepsThen | src/throttlev1.ts:43-47 | a trailing call changes `then` and the histories only when `now - then > delay`, and then exactly as `update` does |
| ThrottleV1.TrailingBurstThenFire | src/throttlev1.ts:38-53 | a burst then the firing runs the last call's args once from the timer, plus the first call's on the spot when `now - then > delay` |
| ThrottleV1Closure.Throttle.constructor | src/throttlev1.ts:20-23 | creates the initial state with the invariant |
| ThrottleV1Closure.Throttle.Update | src/throttlev1.ts:25-35 | reassigns `then`, `result` and the histories as `Throttling.Update` says, nothing else |
| ThrottleV1Closure.Throttle.Call | src/throttlev1.ts:37-69 | performs `SyncThrottle.Call` with the `V1` iteration in place and keeps the invariant |
| ThrottleV1Closure.Throttle.Fire | src/throttlev1.ts:49-51 | performs `SyncThrottle.Fire` in place |
| ThrottleV1Closure.Throttle.Cancel | src/throttlev1.ts:71-73 | performs `SyncThrottle.Cancel` in place; no timer armed afterwards |
| ThrottleV1Closure.Throttle.Invoke | src/throttlev1.ts:75-79 | performs `SyncThrottle.Invoke` in place |
| ThrottleApp.FirstTrailingCallDeferred | src/app.js:28-33 | with `then` unset, a trailing call never runs on the spot: `then` becomes `now` and its timer is armed |
| ThrottleApp.FirstCallAgainstV1 | src/app.js:28 | on a fresh controller with `now > delay`, src/throttlev1.ts runs the first trailing call on the spot and src/app.js does not |
| ThrottleApp.TrailingBurstThenFire | src/test/app.spec.ts:15-29 | on a closed window, a burst at one instant then the firing runs the handler exactly once, with the last call's args |
| ThrottleAppScenarios.TrailingReturnsPreviousValue | src/test/app.spec.ts:48-73 | with start time `t0 > 0`, the trailing calls return undefined, 2, 2, then 6 |
| ThrottleAppScenarios.LeadingReturnsCurrentValue | src/test/app.spec.ts:75-96 | leading calls return 2, the cached 2, then 6 after 1500 |
| ThrottleAppScenarios.LeadingScenario | src/test/app2.spec.ts:40-61 | calls 1..8 at offsets 0,0,0,0,35,55,75,95 with delay 30 run the handler exactly with 1, 5 and 7 |
| ThrottleAppScenarios.HundredThousandLeadingCalls | src/test/app2.spec.ts:84-93 | 100000 leading calls at one instant run once, with 0, and every call returns 0 |
| ThrottleAppScenarios.HundredCallsRunOnce | src/test/app.spec.ts:15-46 | 100 calls at one instant followed by the timers run the handler once, in both modes |
| ThrottleAppClosure.Throttle.constructor | src/app.js:7-10 | creates the initial state with the invariant |
| ThrottleAppClosure.Throttle.Update | src/app.js:12-22 | reassigns `then`, `result` and the histories as `Throttling.Update` says |
| ThrottleAppClosure.Throttle.Call | src/app.js:24-59 | performs `SyncThrottle.Call` with the `App` iteration in place and keeps the invariant |
| ThrottleAppClosure.Throttle.Fire | src/app.js:35-38 | performs `SyncThrottle.Fire` in place |
| ThrottleAppClosure.Throttle.Cancel | src/app.js:61-63 | performs `SyncThrottle.Cancel` in place; no timer armed afterwards |
| ThrottleAppClosure.Throttle.Invoke | src/app.js:65-69 | performs `SyncThrottle.Invoke` in place |
| ThrottlePromise.Initial | src/throttle.ts:1-3 | no timer, `then` 0, no runs, no promises |
| ThrottlePromise.Settle | src/throttle.ts:17-19 | the executor always settles its promise: it resolves exactly when the handler returns, with that value, and otherwise rejects with the thrown error |
| ThrottlePromise.Call | src/throttle.ts:5-30 | hands out a fresh promise; clears the previous timer first, orphaning its promise; when `now - then > delay` sets `then := now`, runs the handler and settles the promise with its outcome, else arms exactly one timer carrying this call's `now`, args and promise; settled promises and orphans stay as they are |
| ThrottlePromise.Fire | src/throttle.ts:22-29 | `then` becomes the captured `now`, the handler runs with the captured args, and a returned value resolves that call's promise while a throw leaves it unsettled |
| ThrottlePromise.Cancel | src/throttle.ts:32-34 | no timer armed afterwards, its promise orphaned, `then` unchanged |
| ThrottlePromise.Calls | src/throttle.ts:5-30 | consecutive calls return consecutive fresh tickets and keep the invariant |
| ThrottlePromise.Step | src/throttle.ts:5-34 | every operation keeps the invariant, settled promises and orphans |
| ThrottlePromise.Run | src/throttle.ts:5-34 | any sequence of events keeps the invariant |
| ThrottlePromise.AtMostOneTimer | src/throttle.ts:10-29 | under the invariant at most one timer is outstanding |
| ThrottlePromise.OrphanNeverSettles | src/throttle.ts:10-34 | the promise of a superseded or cancelled call stays unsettled after any events |
| ThrottlePromise.SettledStays | src/throttle.ts:17-28 | a settled promise keeps its settlement after any events |
| ThrottlePromise.FirstCallDeferred | src/throttle.ts:8-12 | with `then` unset, a call never runs on the spot: `then` becomes `now` and its promise waits on the one armed timer |
| ThrottlePromise.Burst | src/throttle.ts:8-29 | calls at one instant on a closed window run nothing, and one timer holds the last call's args and promise, every earlier promise orphaned |
| ThrottlePromise.BurstThenFire | src/throttle.ts:10-29 | a burst then the firing runs the handler once with the last call's args, resolves that call's promise and leaves the others unsettled |
| ThrottlePromiseClosure.Throttle.constructor | src/throttle.ts:1-3 | creates the initial state with the invariant, keeping only `opts.delay` |
| ThrottlePromiseClosure.Throttle.Call | src/throttle.ts:5-30 | performs `ThrottlePromise.Call` in place and keeps the invariant |
| ThrottlePromiseClosure.Throttle.Fire | src/throttle.ts:22-29 | performs `ThrottlePromise.Fire` in place |
| ThrottlePromiseClosure.Throttle.Cancel | src/throttle.ts:32-34 | performs `ThrottlePromise.Cancel` in place; no timer armed afterwards |

## Left out

- The `wait` helpers (src/throttlev1.ts:1-5, src/app.js:1-5, src/throttle.ts:39-43): timer plumbing for tests, with no throttling logic.
- The `console.log` diagnostics in src/app.js and src/throttle.ts: output only.
- The real clock and host timing. `performance.now()` is a non-negative floating-point reading; it becomes a natural number the caller passes in. The model does not tie a firing to `capturedNow + delay`: `Fire` can be applied at any point while the timer is armed. None of the proved properties depends on the clock being monotonic.
- Timer ids: the host hands out ids shared by all controllers; each model has its own table. A controller only ever clears its own ids, so nothing it does depends on the difference.
- Floating-point arithmetic and `NaN` in `now - then > delay`: integers are used throughout.
- Promise and microtask scheduling in src/throttle.ts. A promise is modelled only by how it settles.
  - A throw inside the executor rejects the promise.
  - A throw inside the timer callback escapes to the host (an uncaught error, not modelled) and leaves the promise unsettled.
- Handler side effects: the handler is a pure function of its arguments, so a handler whose outcome depends on earlier runs is not modelled. Receiver (`this`) binding is not modelled either: no iteration forwards one.
- An `onError` sink that itself throws: its exception would propagate out of `update` and out of the call. The model assumes the sink returns normally and only records what it receives.
- `result` as `Option<R>`: the model keeps `None` (never ran) apart from `Some(v)`. In the source, a handler that returns `undefined` (the `T | void` at src/throttlev1.ts:13, or `jest.fn()` in the tests) sets `result` back to the same value as the initial state.
- Mutation of `opts` after `throttle` returns: the options are fixed at construction.
- The test files as programs. They import `../throttle` and `../wait`, and `../wait` is not part of this model.
  - Their value-returning expectations are replayed against the src/app.js machine; src/throttle.ts returns promises instead.
  - The trailing scenario at src/test/app2.spec.ts:13-38 expects a fixed-cadence controller that no iteration implements, so it is not replayed.
  - The commented-out `invoke` test (src/test/app.spec.ts:98-108) expects a return value that src/throttlev1.ts:75-79 does not give, so it is not replayed either.
