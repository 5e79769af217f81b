/** The scenarios of src/test/app.spec.ts and src/test/app2.spec.ts, replayed on
    the src/app.js machine. The clock starts at some `t0 > 0` (a page's
    `performance.now()` is positive by the time it calls), and a timer fires
    `delay` after the call that armed it, which is when the test reads the clock next. */
module ThrottleAppScenarios {
  import opened Throttling
  import opened SyncThrottle
  import ThrottleApp

  /** The test handler `add(num1, num2)`. */
  function Add(p: (int, int)): Outcome<int, string> {
    Returns(p.0 + p.1)
  }

  /** The test handler `jest.fn((a) => a)`. */
  function Echo(a: int): Outcome<int, string> {
    Returns(a)
  }

  /** The test handler `jest.fn()`, called without arguments. */
  function Nothing(u: ()): Outcome<(), string> {
    Returns(())
  }

  /** src/test/app.spec.ts:48-73, trailing mode with delay 1000: the calls return
      `undefined`, then 2, 2, and 6 after the second timer fired. */
  lemma TrailingReturnsPreviousValue(t0: nat)
    requires t0 > 0
    ensures
      var opts := Options(1000, false, false);
      var (s1, o1) := Call(App, opts, Add, Initial(), t0, (1, 1));
      s1.timeoutId in s1.timers.armed &&
      var s2 := Fire(opts, Add, s1, s1.timeoutId);
      var (s3, o2) := Call(App, opts, Add, s2, t0 + 1000, (2, 2));
      var (s4, o3) := Call(App, opts, Add, s3, t0 + 1000, (3, 3));
      s4.timeoutId in s4.timers.armed &&
      var s5 := Fire(opts, Add, s4, s4.timeoutId);
      var (s6, o4) := Call(App, opts, Add, s5, t0 + 2000, (4, 4));
      && o1 == None && o2 == Some(2) && o3 == Some(2) && o4 == Some(6)
      && s6.memo.runs == [(1, 1), (3, 3)]
  {
    var opts := Options(1000, false, false);
    var (s1, o1) := Call(App, opts, Add, Initial(), t0, (1, 1));
    assert s1.memo.thenTime == t0 && s1.memo.result == None;
    var s2 := Fire(opts, Add, s1, s1.timeoutId);
    assert s2.memo.thenTime == t0 && s2.memo.result == Some(2);
    var (s3, o2) := Call(App, opts, Add, s2, t0 + 1000, (2, 2));
    assert s3.memo == s2.memo;
    var (s4, o3) := Call(App, opts, Add, s3, t0 + 1000, (3, 3));
    assert s4.memo == s2.memo;
    var s5 := Fire(opts, Add, s4, s4.timeoutId);
    assert s5.memo.thenTime == t0 + 1000 && s5.memo.result == Some(6);
  }

  /** src/test/app.spec.ts:75-96, leading mode with delay 1000: the first call
      runs and returns 2, the second returns the cached 2, and a call 1500 later
      runs again and returns 6. */
  lemma LeadingReturnsCurrentValue(t0: nat)
    requires t0 > 0
    ensures
      var opts := Options(1000, true, false);
      var (s1, o1) := Call(App, opts, Add, Initial(), t0, (1, 1));
      var (s2, o2) := Call(App, opts, Add, s1, t0, (2, 2));
      var (s3, o3) := Call(App, opts, Add, s2, t0 + 1500, (3, 3));
      && o1 == Some(2) && o2 == Some(2) && o3 == Some(6)
      && s3.memo.runs == [(1, 1), (3, 3)]
  {
  }

  /** src/test/app2.spec.ts:40-61, leading mode with delay 30: calls with
      arguments 1 to 8 at offsets 0, 0, 0, 0, 35, 55, 75, 95 run the handler
      exactly three times, with 1, 5 and 7; the last value returned is 7. */
  lemma LeadingScenario(t0: nat)
    requires t0 > 0
    ensures
      var xs := [Invocation(t0, 1), Invocation(t0, 2), Invocation(t0, 3), Invocation(t0, 4),
                 Invocation(t0 + 35, 5), Invocation(t0 + 55, 6), Invocation(t0 + 75, 7), Invocation(t0 + 95, 8)];
      var s := Calls(App, Options(30, true, false), Echo, Initial(), xs).0;
      s.memo.runs == [1, 5, 7] && s.memo.result == Some(7)
  {
    var opts := Options(30, true, false);
    var xs := [Invocation(t0, 1), Invocation(t0, 2), Invocation(t0, 3), Invocation(t0, 4),
               Invocation(t0 + 35, 5), Invocation(t0 + 55, 6), Invocation(t0 + 75, 7), Invocation(t0 + 95, 8)];
    var s1 := Calls(App, opts, Echo, Initial(), xs[..4]).0;
    LeadingBurst(App, opts, Echo, Initial(), t0, xs[..4]);
    assert s1.memo.runs == [1] && s1.memo.thenTime == t0;
    assert xs[..5] == xs[..4] + [xs[4]];
    var s2 := Calls(App, opts, Echo, Initial(), xs[..5]).0;
    assert s2.memo.runs == [1, 5] && s2.memo.thenTime == t0 + 35;
    assert xs[..6] == xs[..5] + [xs[5]];
    var s3 := Calls(App, opts, Echo, Initial(), xs[..6]).0;
    assert s3.memo == s2.memo;
    assert xs[..7] == xs[..6] + [xs[6]];
    var s4 := Calls(App, opts, Echo, Initial(), xs[..7]).0;
    assert s4.memo.runs == [1, 5, 7] && s4.memo.thenTime == t0 + 75;
    assert xs == xs[..7] + [xs[7]];
  }

  /** src/test/app2.spec.ts:84-93: 100000 leading calls at one instant run the
      handler once, with the first call's argument 0, and every call returns 0. */
  lemma HundredThousandLeadingCalls(t0: nat)
    requires t0 > 0
    ensures
      var xs := seq(100000, i => Invocation(t0, i));
      var (s, vs) := Calls(App, Options(50, true, false), Echo, Initial(), xs);
      && s.memo.runs == [0]
      && forall i :: 0 <= i < |vs| ==> vs[i] == Some(0)
  {
    var xs := seq(100000, i => Invocation(t0, i));
    LeadingBurst(App, Options(50, true, false), Echo, Initial(), t0, xs);
  }

  /** src/test/app.spec.ts:15-29 and 31-46, delay 1000: 100 calls at one instant
      followed by running all timers run the handler once, in trailing mode and
      in leading mode alike. */
  lemma HundredCallsRunOnce(t0: nat)
    requires t0 > 0
    ensures
      var xs := seq(100, i => Invocation(t0, ()));
      var trailing := Calls(App, Options(1000, false, false), Nothing, Initial(), xs).0;
      var leading := Calls(App, Options(1000, true, false), Nothing, Initial(), xs).0;
      && trailing.timeoutId in trailing.timers.armed
      && |Fire(Options(1000, false, false), Nothing, trailing, trailing.timeoutId).memo.runs| == 1
      && leading.timers.armed == map[]
      && |leading.memo.runs| == 1
  {
    var xs := seq(100, i => Invocation(t0, ()));
    ThrottleApp.TrailingBurstThenFire(Options(1000, false, false), Nothing, Initial(), t0, xs);
    LeadingBurst(App, Options(1000, true, false), Nothing, Initial(), t0, xs);
  }
}
