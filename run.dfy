/**
 * Properties of whole runs of encodeWithSurface (`Run`, which the imperative
 * `EncodeWithSurface` is proved to follow): how a run ends, that the `finally`
 * block closes every exit from the `try` block and nothing else, that the
 * muxer is never touched when the format-changed code is negative, and how
 * the written samples are stamped.
 */
module RunProperties {
  import opened Wrappers
  import opened Media
  import opened Coordinator
  import opened DrainProperties
  import opened FrameProperties

  predicate NoTeardown(es: seq<Event>) {
    forall e :: e in es ==> !e.IsTeardown()
  }

  /** The position of the first call of the `finally` block in `es`, or `|es|` if there is none. */
  function FirstTeardown(es: seq<Event>): (k: nat)
    ensures k <= |es|
    ensures forall i :: 0 <= i < k ==> !es[i].IsTeardown()
    ensures k < |es| ==> es[k].IsTeardown()
  {
    if es == [] || es[0].IsTeardown() then 0 else 1 + FirstTeardown(es[1..])
  }

  /** The calls of a run up to the end of the `try` block when none throws. */
  function Body(req: Request, env: Env): seq<Event>
    requires req.fps != 0
  {
    SetupTrace(req) + TryTrace(req, env)
  }

  /** How many calls of `Body` a run makes before it leaves the `try` block. */
  function TryExit(req: Request, env: Env): nat
    requires req.fps != 0
  {
    if env.FaultBelow(|Body(req, env)|) then env.fault.value.step else |Body(req, env)|
  }

  /**
   * Past the setup, a run is the calls of the `try` block up to its exit,
   * followed by the start of the teardown those calls call for.
   */
  lemma RunAfterSetup(req: Request, env: Env)
    requires req.fps != 0 && !env.FaultBelow(|SetupTrace(req)|)
    ensures var log := Run(req, env).log;
            var done := Body(req, env)[..TryExit(req, env)];
            var td := Teardown(StartMuxer in done);
            |SetupTrace(req)| <= |done| <= |log| <= |done| + |td|
            && log == (done + td)[..|log|]
            && (env.FaultBelow(|Body(req, env)|) ==> log == done + td)
            && (|log| < |done| + |td| ==> done == Body(req, env) && env.FailsAt(|log|))
  {
    var body := Body(req, env);
    if !env.FaultBelow(|body|) {
      assert body[..|body|] == body;
    }
  }

  lemma TeardownCalls(muxerStarted: bool)
    ensures forall e :: e in Teardown(muxerStarted) ==> e.IsTeardown() && !e.WriteSample? && !e.StartMuxer?
    ensures forall e :: e in Teardown(false) ==> !UsesMuxer(e)
  {
  }

  lemma BodyShape(req: Request, env: Env)
    requires req.fps != 0
    ensures var frames := FramesFrom(env, req.framePaths, 0, FrameDurationUs(req.fps), Initial);
            Body(req, env) == SetupTrace(req) + frames + [SignalEndOfInput]
  {
  }

  lemma WritesAfterStartPrefix(es: seq<Event>, n: nat)
    requires WritesAfterStart(es) && n <= |es|
    ensures WritesAfterStart(es[..n])
  {
    forall k | 0 <= k < n && es[..n][k].WriteSample?
      ensures StartMuxer in es[..n][..k]
    {
      assert es[..n][..k] == es[..k] && es[..n][k] == es[k];
    }
  }

  lemma StampsInOrderPrefix(es: seq<Event>, n: nat)
    requires StampsInOrder(es) && n <= |es|
    ensures StampsInOrder(es[..n])
  {
    forall a, b | 0 <= a < b < n && es[..n][a].WriteSample? && es[..n][b].WriteSample?
      ensures es[..n][a].ptsUs <= es[..n][b].ptsUs
    {
      assert es[..n][a] == es[a] && es[..n][b] == es[b];
    }
  }

  lemma StampsInOrderThenNoWrites(a: seq<Event>, b: seq<Event>)
    requires StampsInOrder(a) && NoWrites(b)
    ensures StampsInOrder(a + b)
  {
    forall x, y | 0 <= x < y < |a + b| && (a + b)[x].WriteSample? && (a + b)[y].WriteSample?
      ensures (a + b)[x].ptsUs <= (a + b)[y].ptsUs
    {
      assert (a + b)[x] == a[x] && (a + b)[y] == a[y];
    }
  }

  /**
   * A fault in the setup, or a zero fps (the division of line 64 throws before
   * the `try`), ends the run with an exception and without any teardown call.
   */
  lemma NoTeardownBeforeTry(req: Request, env: Env)
    requires env.FaultBelow(|SetupTrace(req)|) || req.fps == 0
    ensures Run(req, env).outcome.Threw?
    ensures NoTeardown(Run(req, env).log)
    ensures !env.FaultBelow(|SetupTrace(req)|) ==> Run(req, env).outcome == Threw(Exception, Some(DIVIDE_BY_ZERO_MESSAGE))
  {
  }

  /** In calls made of `done` and then a prefix of `td`, the first teardown call is the first of `td`. */
  lemma FirstTeardownAt(done: seq<Event>, td: seq<Event>, log: seq<Event>)
    requires NoTeardown(done) && forall e :: e in td ==> e.IsTeardown()
    requires |done| <= |log| <= |done| + |td| && log == (done + td)[..|log|]
    ensures FirstTeardown(log) == |done|
    ensures log[..|done|] == done && log[|done|..] == td[..|log| - |done|]
  {
    assert forall i :: 0 <= i < |done| ==> log[i] == done[i] && done[i] in done;
    if |done| < |log| {
      assert log[|done|] == td[0] && td[0] in td;
    }
    assert log[..|done|] == done;
    assert log[|done|..] == td[..|log| - |done|];
  }

  /**
   * Once the `try` block is entered, the first teardown call starts the whole
   * `finally` block, in order: the encoder's stop and release, the muxer's
   * stop and release exactly when the calls before included the muxer's
   * start, then the surface's release. After an exception in the `try` the
   * whole block runs; it is cut short only where, the `try` having completed,
   * one of its own calls throws. Nothing before it is a teardown call.
   */
  lemma TeardownOnEveryTryExit(req: Request, env: Env)
    requires req.fps != 0 && !env.FaultBelow(|SetupTrace(req)|)
    ensures var log := Run(req, env).log;
            var k := FirstTeardown(log);
            var td := Teardown(StartMuxer in log[..k]);
            |SetupTrace(req)| <= k && |log| - k <= |td| && log[k..] == td[..|log| - k]
            && (env.FaultBelow(|Body(req, env)|) ==> log[k..] == td)
            && (|log| - k < |td| ==> log[..k] == Body(req, env) && env.FailsAt(|log|))
  {
    var log := Run(req, env).log;
    var done := Body(req, env)[..TryExit(req, env)];
    var td := Teardown(StartMuxer in done);
    RunAfterSetup(req, env);
    DoneBeforeTeardown(req, env);
    TeardownCalls(StartMuxer in done);
    FirstTeardownAt(done, td, log);
    assert FirstTeardown(log) == |done| && log[..|done|] == done;
  }

  /** No call the `try` block makes before it is left belongs to the teardown. */
  lemma DoneBeforeTeardown(req: Request, env: Env)
    requires req.fps != 0
    ensures NoTeardown(Body(req, env)[..TryExit(req, env)])
  {
    var body := Body(req, env);
    BodyShape(req, env);
    FramesBeforeTeardown(env, req.framePaths, 0, FrameDurationUs(req.fps), Initial);
    assert NoTeardown(body);
    assert forall e :: e in body[..TryExit(req, env)] ==> e in body;
  }

  /** Every sample a run writes is written after the muxer was started. */
  lemma WritesOnlyAfterMuxerStart(req: Request, env: Env)
    ensures WritesAfterStart(Run(req, env).log)
  {
    var setup := SetupTrace(req);
    var log := Run(req, env).log;
    assert WritesAfterStart(setup);
    if env.FaultBelow(|setup|) || req.fps == 0 {
      WritesAfterStartPrefix(setup, |log|);
      assert log == setup[..|log|];
    } else {
      var dur := FrameDurationUs(req.fps);
      var frames := FramesFrom(env, req.framePaths, 0, dur, Initial);
      var body := Body(req, env);
      var done := body[..TryExit(req, env)];
      var td := Teardown(StartMuxer in done);
      BodyShape(req, env);
      FramesWritesAfterStart(setup, env, req.framePaths, 0, dur, Initial);
      WritesAfterStartAppend(setup + frames, [SignalEndOfInput]);
      WritesAfterStartPrefix(body, |done|);
      TeardownCalls(StartMuxer in done);
      WritesAfterStartAppend(done, td);
      RunAfterSetup(req, env);
      WritesAfterStartPrefix(done + td, |log|);
    }
  }

  /**
   * For a positive fps, samples are written in non-decreasing order of their
   * timestamps: several samples of one drain share the frame's timestamp, and
   * a later frame never has an earlier one.
   */
  lemma SampleStampsInOrder(req: Request, env: Env)
    requires req.fps > 0
    ensures StampsInOrder(Run(req, env).log)
  {
    var setup := SetupTrace(req);
    var log := Run(req, env).log;
    assert NoWrites(setup) && StampsInOrder(setup);
    if env.FaultBelow(|setup|) {
      StampsInOrderPrefix(setup, |log|);
    } else {
      var dur := FrameDurationUs(req.fps);
      var frames := FramesFrom(env, req.framePaths, 0, dur, Initial);
      var body := Body(req, env);
      var done := body[..TryExit(req, env)];
      var td := Teardown(StartMuxer in done);
      BodyShape(req, env);
      FramesStampsInOrder(env, req.framePaths, 0, dur, Initial);
      StampsInOrderAppend(setup, frames, 0);
      StampsInOrderThenNoWrites(setup + frames, [SignalEndOfInput]);
      StampsInOrderPrefix(body, |done|);
      TeardownCalls(StartMuxer in done);
      StampsInOrderThenNoWrites(done, td);
      RunAfterSetup(req, env);
      StampsInOrderPrefix(done + td, |log|);
    }
  }

  /**
   * Every sample a run writes is non-empty and stamped index * frameDurationUs
   * for the list position `index` of a path that decodes; positions whose
   * path does not decode leave gaps in the timestamps.
   */
  lemma SampleStampsAreFrameTimes(req: Request, env: Env)
    requires req.fps != 0
    ensures StampedAtDecodedFrames(Run(req, env).log, env, req.framePaths, FrameDurationUs(req.fps))
  {
    var setup := SetupTrace(req);
    var log := Run(req, env).log;
    var dur := FrameDurationUs(req.fps);
    var frames := FramesFrom(env, req.framePaths, 0, dur, Initial);
    assert NoWrites(setup);
    if env.FaultBelow(|setup|) {
      assert forall e :: e in log ==> e in setup;
    } else {
      var body := Body(req, env);
      var done := body[..TryExit(req, env)];
      var td := Teardown(StartMuxer in done);
      BodyShape(req, env);
      FramesStampedAtDecodedFrames(env, req.framePaths, 0, dur, Initial);
      TeardownCalls(StartMuxer in done);
      RunAfterSetup(req, env);
      assert forall e :: e in log ==> e in done + td;
      assert forall e :: e in done ==> e in body;
    }
  }

  /**
   * With a negative format-changed code (Android's own, -2, among them) the
   * format branch of the drain loop is never taken: no run adds a track,
   * starts, writes to, stops or releases the muxer.
   */
  lemma NegativeFormatCodeLeavesMuxerUnused(req: Request, env: Env)
    requires env.formatChanged < 0
    ensures forall e :: e in Run(req, env).log ==> !UsesMuxer(e)
  {
    var setup := SetupTrace(req);
    var log := Run(req, env).log;
    if env.FaultBelow(|setup|) || req.fps == 0 {
      assert forall e :: e in log ==> e in setup;
    } else {
      var body := Body(req, env);
      var done := body[..TryExit(req, env)];
      BodyShape(req, env);
      FramesLeaveMuxerIdle(env, req.framePaths, 0, FrameDurationUs(req.fps), Initial);
      assert forall e :: e in done ==> e in body;
      assert StartMuxer !in done;
      TeardownCalls(false);
      RunAfterSetup(req, env);
      assert forall e :: e in log ==> e in done + Teardown(false);
    }
  }

  /**
   * On Android, a run in which no call throws reports success although the
   * muxer was never started and no sample was written.
   */
  lemma AndroidRunSucceedsWithoutSamples(req: Request, env: Env)
    requires req.fps != 0 && env.formatChanged == ANDROID_INFO_OUTPUT_FORMAT_CHANGED && env.fault.None?
    ensures Run(req, env).outcome == Returned(true)
    ensures forall e :: e in Run(req, env).log ==> !UsesMuxer(e)
  {
    NegativeFormatCodeLeavesMuxerUnused(req, env);
  }

  /**
   * A run returns, and then true, exactly when it gets past the end of the
   * input without a call throwing, through the teardown; otherwise it throws
   * the Exception of the division by zero or the Throwable of the call that threw.
   */
  lemma RunOutcome(req: Request, env: Env)
    ensures var x := Run(req, env);
            (x.outcome.Returned? ==>
               x.outcome.value && req.fps != 0 && !env.FaultBelow(|x.log|) && SignalEndOfInput in x.log)
            && (x.outcome.Threw? ==>
                  (req.fps == 0 && !env.FaultBelow(|x.log|)
                   && x.outcome == Threw(Exception, Some(DIVIDE_BY_ZERO_MESSAGE)))
                  || (env.fault.Some? && env.fault.value.step <= |x.log| && x.outcome == Raised(env)))
            && (req.fps != 0 && !env.FaultBelow(|Body(req, env)| + |Teardown(StartMuxer in Body(req, env))|)
                ==> x.outcome == Returned(true))
  {
    if req.fps != 0 && !env.FaultBelow(|SetupTrace(req)|) {
      var body := Body(req, env);
      assert body[|body| - 1] == SignalEndOfInput;
    }
  }
}
