/**
 * The method-call handler of the video-encoder channel: a `createVideo` call
 * with both a list of frame paths and an output path starts an encoding, with
 * width, height and fps defaulting to 1280, 720 and 2; its outcome becomes the
 * reply. Any other call is answered at once, without touching the encoder.
 */
module Dispatch {
  import opened Wrappers
  import opened Media
  import opened Coordinator
  import RunProperties

  const CREATE_VIDEO: string := "createVideo"
  const DEFAULT_WIDTH: int := 1280
  const DEFAULT_HEIGHT: int := 720
  const DEFAULT_FPS: int := 2
  const INVALID_ARGS: string := "INVALID_ARGS"
  const MISSING_ARGUMENTS: string := "Missing arguments"
  const VIDEO_ERROR: string := "VIDEO_ERROR"

  /** A call arriving on the channel: its method name and its arguments, `None` where absent or null. */
  datatype MethodCall = MethodCall(name: string, framePaths: Option<seq<string>>, outputPath: Option<string>,
                                   width: Option<int>, height: Option<int>, fps: Option<int>)

  /**
   * The reply a call receives: success with a Boolean, an error with a code
   * and a message, or not implemented; or none at all, when a Throwable that
   * is not an Exception gets past the handler's `catch` and ends its thread.
   */
  datatype Reply = Success(value: bool) | Error(code: string, message: Option<string>) | NotImplemented | NoReply

  /** What the handler does with a call: start an encoding, or reply at once. */
  datatype Route = Encode(req: Request) | Immediate(reply: Reply)

  /** The reply to a call and the collaborator calls made for it. */
  datatype Handled = Handled(reply: Reply, log: seq<Event>)

  /** Lines 20-41: pick the arguments, apply the defaults, or refuse the call. */
  function RouteCall(call: MethodCall): Route {
    if call.name != CREATE_VIDEO then Immediate(NotImplemented)
    else if call.framePaths.Some? && call.outputPath.Some? then
      Encode(Request(call.framePaths.value, call.outputPath.value, call.width.GetOr(DEFAULT_WIDTH),
                     call.height.GetOr(DEFAULT_HEIGHT), call.fps.GetOr(DEFAULT_FPS)))
    else Immediate(Reply.Error(INVALID_ARGS, Some(MISSING_ARGUMENTS)))
  }

  /**
   * Lines 30-35: the encoder's result is delivered as success, an Exception as
   * a VIDEO_ERROR with its message; any other Throwable is not caught, so the
   * call is never answered.
   */
  function Deliver(outcome: Outcome): Reply {
    match outcome
    case Returned(b) => Success(b)
    case Threw(kind, message) => if kind == Exception then Reply.Error(VIDEO_ERROR, message) else NoReply
  }

  /** A call handled in the environment `env` of the encoding it may start. */
  function Handle(call: MethodCall, env: Env): Handled {
    match RouteCall(call)
    case Immediate(reply) => Handled(reply, [])
    case Encode(req) =>
      var x := Run(req, env);
      Handled(Deliver(x.outcome), x.log)
  }

  /** The handler of lines 19-43, running the encoder on the collaborators `m`. */
  method OnMethodCall(call: MethodCall, m: MediaStack) returns (reply: Reply)
    requires m.log == [] && m.calls == 0 && m.draws == 0 && m.tracks == 0
    modifies m
    ensures Handled(reply, m.log) == Handle(call, m.env)
  {
    var route := RouteCall(call);
    match route
    case Immediate(r) =>
      reply := r;
    case Encode(req) =>
      var outcome := EncodeWithSurface(m, req);
      reply := Deliver(outcome);
  }

  /**
   * A call starts an encoding exactly when it is `createVideo` with both the
   * frame paths and the output path; the paths are passed on as given, and
   * the width, height and fps as given or else 1280, 720 and 2.
   */
  lemma EncodesExactlyCompleteCalls(call: MethodCall)
    ensures RouteCall(call).Encode? <==> call.name == CREATE_VIDEO && call.framePaths.Some? && call.outputPath.Some?
    ensures RouteCall(call).Encode? ==>
              var req := RouteCall(call).req;
              req.framePaths == call.framePaths.value && req.outputPath == call.outputPath.value
              && req.width == (if call.width.Some? then call.width.value else DEFAULT_WIDTH)
              && req.height == (if call.height.Some? then call.height.value else DEFAULT_HEIGHT)
              && req.fps == (if call.fps.Some? then call.fps.value else DEFAULT_FPS)
  {
  }

  /**
   * A call that does not start an encoding makes no collaborator call and is
   * answered not-implemented when it is not `createVideo`, and with
   * INVALID_ARGS "Missing arguments" when an argument is missing.
   */
  lemma RefusedCallsTouchNothing(call: MethodCall, env: Env)
    requires !RouteCall(call).Encode?
    ensures Handle(call, env).log == []
    ensures Handle(call, env).reply == if call.name != CREATE_VIDEO then NotImplemented
                                       else Reply.Error(INVALID_ARGS, Some(MISSING_ARGUMENTS))
  {
  }

  /**
   * A call that starts an encoding is answered once, either with success and
   * the value true, exactly when the encoding returns, or with VIDEO_ERROR and
   * the message of the Exception it threw; it gets no reply exactly when the
   * encoding throws a Throwable that is not an Exception.
   */
  lemma EncodingReply(call: MethodCall, env: Env)
    requires RouteCall(call).Encode?
    ensures var req := RouteCall(call).req;
            var x := Run(req, env);
            var reply := Handle(call, env).reply;
            (reply.Success? <==> x.outcome.Returned?)
            && (reply.Success? ==> reply.value)
            && (reply.Error? <==> x.outcome.Threw? && x.outcome.kind == Exception)
            && (reply.Error? ==> reply.code == VIDEO_ERROR && reply.message == x.outcome.message)
            && (reply.NoReply? <==> x.outcome.Threw? && x.outcome.kind == Kind.Error)
  {
    RunProperties.RunOutcome(RouteCall(call).req, env);
  }

  /**
   * With all arguments absent but the paths, no call throwing and Android's
   * negative format code, a `createVideo` call is answered with success while
   * no sample reached the muxer.
   */
  lemma AndroidDefaultCallSucceedsWithoutSamples(paths: seq<string>, output: string, env: Env)
    requires env.formatChanged == ANDROID_INFO_OUTPUT_FORMAT_CHANGED && env.fault.None?
    ensures var call := MethodCall(CREATE_VIDEO, Some(paths), Some(output), None, None, None);
            Handle(call, env).reply == Success(true)
            && forall e :: e in Handle(call, env).log ==> !e.WriteSample?
  {
    var req := Request(paths, output, DEFAULT_WIDTH, DEFAULT_HEIGHT, DEFAULT_FPS);
    RunProperties.AndroidRunSucceedsWithoutSamples(req, env);
  }
}
