/**
 * What the frame loop of encodeWithSurface does over the whole list of paths:
 * which frames are drawn, which calls each drain makes, when samples may be
 * written and how they are stamped.
 */
module FrameProperties {
  import opened Wrappers
  import opened Media
  import opened Coordinator
  import opened DrainProperties

  /** The calls a drain makes: on the encoder's output, and on the muxer's track. */
  predicate DrainCall(e: Event) {
    e.DequeueOutput? || e.GetOutputBuffer? || e.WriteSample? || e.ReleaseOutput? || e.AddTrack? || e.StartMuxer?
  }

  /** The calls that add a track to the muxer, start it, or write to it. */
  predicate UsesMuxer(e: Event) {
    e.AddTrack? || e.StartMuxer? || e.WriteSample? || e.StopMuxer? || e.ReleaseMuxer?
  }

  predicate NoWrites(es: seq<Event>) {
    forall e :: e in es ==> !e.WriteSample?
  }

  /** Every sample written among `es` is written after the muxer was started. */
  predicate WritesAfterStart(es: seq<Event>) {
    forall k :: 0 <= k < |es| && es[k].WriteSample? ==> StartMuxer in es[..k]
  }

  /** The samples among `es` are written in non-decreasing order of their timestamps. */
  predicate StampsInOrder(es: seq<Event>) {
    forall a, b :: 0 <= a < b < |es| && es[a].WriteSample? && es[b].WriteSample? ==> es[a].ptsUs <= es[b].ptsUs
  }

  predicate StampsAtMost(es: seq<Event>, t: int) {
    forall e :: e in es && e.WriteSample? ==> e.ptsUs <= t
  }

  predicate StampsAtLeast(es: seq<Event>, t: int) {
    forall e :: e in es && e.WriteSample? ==> t <= e.ptsUs
  }

  /**
   * Every sample among `es` is non-empty and stamped with the time of a list
   * position whose path decodes: the position times the frame duration.
   */
  predicate StampedAtDecodedFrames(es: seq<Event>, env: Env, paths: seq<string>, dur: int) {
    forall e :: e in es && e.WriteSample? ==>
      e.size > 0 && exists k :: 0 <= k < |paths| && env.Decode(paths[k]).Some? && e.ptsUs == k * dur
  }

  function DrawnOf(e: Event): seq<nat> {
    if e.Draw? then [e.frame] else []
  }

  /** The list positions from `i` on whose path decodes, in order. */
  function Decodable(env: Env, paths: seq<string>, i: nat): seq<nat>
    decreases |paths| - i
  {
    if i >= |paths| then []
    else (if env.Decode(paths[i]).Some? then [i] else []) + Decodable(env, paths, i + 1)
  }

  lemma PickNone<U>(es: seq<Event>, pick: Event -> seq<U>)
    requires forall e :: e in es ==> pick(e) == []
    ensures Pick(es, pick) == []
  {
    if es != [] {
      assert es[0] in es;
      assert forall e :: e in es[1..] ==> e in es;
      PickNone(es[1..], pick);
    }
  }

  // ----- drains -----

  lemma {:induction false} DrainCallsOnly(rs: seq<Dequeued>, j: nat, frame: nat, dur: int, fmt: int, f: Progress)
    decreases |rs| - j
    ensures forall e :: e in DrainAfter(rs, j, frame, dur, fmt, f).events ==> DrainCall(e)
  {
    var r := DequeueAt(rs, j);
    if r.index >= 0 {
      var h := HandleOutput(r, frame, dur, fmt, f);
      DrainCallsOnly(rs, j + 1, frame, dur, fmt, h.after);
    }
  }

  /**
   * With a negative format-changed code, a drain whose muxer has not started
   * never adds a track, starts the muxer or writes a sample.
   */
  lemma {:induction false} DrainLeavesMuxerIdle(rs: seq<Dequeued>, j: nat, frame: nat, dur: int, fmt: int, f: Progress)
    requires fmt < 0 && !f.muxerStarted
    decreases |rs| - j
    ensures var d := DrainAfter(rs, j, frame, dur, fmt, f);
            !d.after.muxerStarted && forall e :: e in d.events ==> !UsesMuxer(e)
  {
    var r := DequeueAt(rs, j);
    if r.index >= 0 {
      var h := HandleOutput(r, frame, dur, fmt, f);
      assert h.after == f;
      DrainLeavesMuxerIdle(rs, j + 1, frame, dur, fmt, h.after);
    }
  }

  lemma WritesAfterStartAppend(a: seq<Event>, b: seq<Event>)
    requires WritesAfterStart(a)
    requires NoWrites(b) || StartMuxer in a
    ensures WritesAfterStart(a + b)
  {
    forall k | 0 <= k < |a + b| && (a + b)[k].WriteSample?
      ensures StartMuxer in (a + b)[..k]
    {
      if k < |a| {
        assert (a + b)[..k] == a[..k] && (a + b)[k] == a[k];
      } else {
        assert (a + b)[k] == b[k - |a|] && b[k - |a|] in b;
        assert (a + b)[..k] == a + b[..k - |a|];
      }
    }
  }

  /** One handled answer and the dequeue after it keep every write after the muxer's start. */
  lemma HandleWritesAfterStart(p: seq<Event>, r: Dequeued, frame: nat, dur: int, fmt: int, f: Progress)
    requires WritesAfterStart(p) && (f.muxerStarted ==> StartMuxer in p)
    ensures var h := HandleOutput(r, frame, dur, fmt, f);
            var next := p + h.events + [DequeueOutput(NEXT_DEQUEUE_TIMEOUT_US)];
            WritesAfterStart(next) && (h.after.muxerStarted ==> StartMuxer in next)
  {
    var h := HandleOutput(r, frame, dur, fmt, f);
    WritesAfterStartAppend(p, h.events);
    WritesAfterStartAppend(p + h.events, [DequeueOutput(NEXT_DEQUEUE_TIMEOUT_US)]);
    if r.index == fmt {
      assert (p + h.events + [DequeueOutput(NEXT_DEQUEUE_TIMEOUT_US)])[|p| + 1] == StartMuxer;
    }
  }

  /** A drain writes only once the muxer has started, given that its `muxerStarted` reflects the calls made before it. */
  lemma {:induction false} DrainWritesAfterStart(p: seq<Event>, rs: seq<Dequeued>, j: nat, frame: nat, dur: int, fmt: int, f: Progress)
    requires WritesAfterStart(p) && (f.muxerStarted ==> StartMuxer in p)
    decreases |rs| - j
    ensures var d := DrainAfter(rs, j, frame, dur, fmt, f);
            WritesAfterStart(p + d.events) && (d.after.muxerStarted ==> StartMuxer in p + d.events)
  {
    var r := DequeueAt(rs, j);
    if r.index < 0 {
      assert p + [] == p;
    } else {
      var h := HandleOutput(r, frame, dur, fmt, f);
      var rest := DrainAfter(rs, j + 1, frame, dur, fmt, h.after);
      var next := p + h.events + [DequeueOutput(NEXT_DEQUEUE_TIMEOUT_US)];
      HandleWritesAfterStart(p, r, frame, dur, fmt, f);
      DrainWritesAfterStart(next, rs, j + 1, frame, dur, fmt, h.after);
      AppendThree(p, h.events, [DequeueOutput(NEXT_DEQUEUE_TIMEOUT_US)], rest.events);
    }
  }

  // ----- one frame -----

  /**
   * A frame whose path decodes is drawn, then dequeued first with a 10000 us
   * timeout and then without waiting once per accepted answer; a frame whose
   * path does not decode makes no dequeue at all.
   */
  lemma FrameDequeueTimeouts(env: Env, path: string, frame: nat, dur: int, f: Progress)
    ensures Pick(FrameStep(env, path, frame, dur, f).events, TimeoutOf)
            == if env.Decode(path).None? then []
               else [FIRST_DEQUEUE_TIMEOUT_US]
                    + Repeat(NEXT_DEQUEUE_TIMEOUT_US, |Accepted(env.Drain(f.draws), 0)|)
  {
    var s := FrameStep(env, path, frame, dur, f);
    if env.Decode(path).None? {
      PickOne(DecodeFile(path), TimeoutOf);
    } else {
      var d := DrainAfter(env.Drain(f.draws), 0, frame, dur, env.formatChanged, f.(draws := f.draws + 1));
      DrainDequeueTimeouts(env.Drain(f.draws), 0, frame, dur, env.formatChanged, f.(draws := f.draws + 1));
      PickAppend([DecodeFile(path), Draw(frame), DequeueOutput(FIRST_DEQUEUE_TIMEOUT_US)], d.events, TimeoutOf);
      assert [DecodeFile(path), Draw(frame), DequeueOutput(FIRST_DEQUEUE_TIMEOUT_US)]
             == [DecodeFile(path)] + [Draw(frame)] + [DequeueOutput(FIRST_DEQUEUE_TIMEOUT_US)];
      PickAppend([DecodeFile(path)] + [Draw(frame)], [DequeueOutput(FIRST_DEQUEUE_TIMEOUT_US)], TimeoutOf);
      PickAppend([DecodeFile(path)], [Draw(frame)], TimeoutOf);
      PickOne(DecodeFile(path), TimeoutOf);
      PickOne(Draw(frame), TimeoutOf);
      PickOne(DequeueOutput(FIRST_DEQUEUE_TIMEOUT_US), TimeoutOf);
    }
  }

  /** The calls of one frame; its drain leaves the muxer idle under a negative format code. */
  lemma FrameLeavesMuxerIdle(env: Env, path: string, frame: nat, dur: int, f: Progress)
    requires env.formatChanged < 0 && !f.muxerStarted
    ensures var s := FrameStep(env, path, frame, dur, f);
            !s.after.muxerStarted && forall e :: e in s.events ==> !UsesMuxer(e)
  {
    if env.Decode(path).Some? {
      DrainLeavesMuxerIdle(env.Drain(f.draws), 0, frame, dur, env.formatChanged, f.(draws := f.draws + 1));
    }
  }

  lemma FrameCallsBeforeTeardown(env: Env, path: string, frame: nat, dur: int, f: Progress)
    ensures forall e :: e in FrameStep(env, path, frame, dur, f).events ==> !e.IsTeardown() && !e.SignalEndOfInput?
  {
    if env.Decode(path).Some? {
      DrainCallsOnly(env.Drain(f.draws), 0, frame, dur, env.formatChanged, f.(draws := f.draws + 1));
    }
  }

  lemma FrameWritesAfterStart(p: seq<Event>, env: Env, path: string, frame: nat, dur: int, f: Progress)
    requires WritesAfterStart(p) && (f.muxerStarted ==> StartMuxer in p)
    ensures var s := FrameStep(env, path, frame, dur, f);
            WritesAfterStart(p + s.events) && (s.after.muxerStarted ==> StartMuxer in p + s.events)
  {
    if env.Decode(path).None? {
      WritesAfterStartAppend(p, [DecodeFile(path)]);
    } else {
      DecodedFrameWritesAfterStart(p, env, path, frame, dur, f);
    }
  }

  lemma DecodedFrameWritesAfterStart(p: seq<Event>, env: Env, path: string, frame: nat, dur: int, f: Progress)
    requires WritesAfterStart(p) && (f.muxerStarted ==> StartMuxer in p)
    requires env.Decode(path).Some?
    ensures var s := FrameStep(env, path, frame, dur, f);
            WritesAfterStart(p + s.events) && (s.after.muxerStarted ==> StartMuxer in p + s.events)
  {
    var pre := [DecodeFile(path), Draw(frame), DequeueOutput(FIRST_DEQUEUE_TIMEOUT_US)];
    var g := f.(draws := f.draws + 1);
    var d := DrainAfter(env.Drain(f.draws), 0, frame, dur, env.formatChanged, g);
    assert NoWrites(pre);
    WritesAfterStartAppend(p, pre);
    DrainWritesAfterStart(p + pre, env.Drain(f.draws), 0, frame, dur, env.formatChanged, g);
    DecodedFrameStep(env, path, frame, dur, f);
    AppendTwo(p, pre, d.events);
  }

  /** The calls of a frame whose path decodes: decode, draw, the first dequeue, and the drain. */
  lemma DecodedFrameStep(env: Env, path: string, frame: nat, dur: int, f: Progress)
    requires env.Decode(path).Some?
    ensures var d := DrainAfter(env.Drain(f.draws), 0, frame, dur, env.formatChanged, f.(draws := f.draws + 1));
            var s := FrameStep(env, path, frame, dur, f);
            s.events == [DecodeFile(path), Draw(frame), DequeueOutput(FIRST_DEQUEUE_TIMEOUT_US)] + d.events
            && s.after == d.after
  {
  }

  /** Every sample of a frame is stamped with that frame's time and is non-empty. */
  lemma FrameStamps(env: Env, path: string, frame: nat, dur: int, f: Progress)
    ensures var s := FrameStep(env, path, frame, dur, f);
            StampsAtMost(s.events, frame * dur) && StampsAtLeast(s.events, frame * dur)
            && (forall e :: e in s.events && e.WriteSample? ==> e.size > 0)
            && (env.Decode(path).None? ==> NoWrites(s.events))
  {
    if env.Decode(path).Some? {
      DrainSampleStamps(env.Drain(f.draws), 0, frame, dur, env.formatChanged, f.(draws := f.draws + 1));
    }
  }

  lemma StampsInOrderAppend(a: seq<Event>, b: seq<Event>, t: int)
    requires StampsInOrder(a) && StampsInOrder(b) && StampsAtMost(a, t) && StampsAtLeast(b, t)
    ensures StampsInOrder(a + b)
  {
    forall x, y | 0 <= x < y < |a + b| && (a + b)[x].WriteSample? && (a + b)[y].WriteSample?
      ensures (a + b)[x].ptsUs <= (a + b)[y].ptsUs
    {
      if y < |a| {
        assert (a + b)[x] == a[x] && (a + b)[y] == a[y];
      } else if x >= |a| {
        assert (a + b)[x] == b[x - |a|] && (a + b)[y] == b[y - |a|];
      } else {
        assert (a + b)[x] == a[x] && a[x] in a;
        assert (a + b)[y] == b[y - |a|] && b[y - |a|] in b;
      }
    }
  }

  lemma StampsAllEqual(es: seq<Event>, t: int)
    requires StampsAtMost(es, t) && StampsAtLeast(es, t)
    ensures StampsInOrder(es)
  {
    forall x, y | 0 <= x < y < |es| && es[x].WriteSample? && es[y].WriteSample?
      ensures es[x].ptsUs <= es[y].ptsUs
    {
      assert es[x] in es && es[y] in es;
    }
  }

  // ----- the frame loop -----

  /**
   * Each list position whose path decodes is drawn once, in list order and
   * under its own position; a position whose path does not decode is skipped
   * without a draw, and the positions after it keep their numbers.
   */
  lemma {:induction false} FramesDrawDecodable(env: Env, paths: seq<string>, i: nat, dur: int, f: Progress)
    decreases |paths| - i
    ensures Pick(FramesFrom(env, paths, i, dur, f), DrawnOf) == Decodable(env, paths, i)
  {
    if i < |paths| {
      var s := FrameStep(env, paths[i], i, dur, f);
      var rest := FramesFrom(env, paths, i + 1, dur, s.after);
      FramesDrawDecodable(env, paths, i + 1, dur, s.after);
      PickAppend(s.events, rest, DrawnOf);
      FrameDraws(env, paths[i], i, dur, f);
    }
  }

  /** A frame is drawn, once and under its own position, exactly when its path decodes. */
  lemma FrameDraws(env: Env, path: string, frame: nat, dur: int, f: Progress)
    ensures Pick(FrameStep(env, path, frame, dur, f).events, DrawnOf)
            == if env.Decode(path).Some? then [frame] else []
  {
    if env.Decode(path).None? {
      PickOne(DecodeFile(path), DrawnOf);
    } else {
      var g := f.(draws := f.draws + 1);
      var d := DrainAfter(env.Drain(f.draws), 0, frame, dur, env.formatChanged, g);
      DecodedFrameStep(env, path, frame, dur, f);
      DrainCallsOnly(env.Drain(f.draws), 0, frame, dur, env.formatChanged, g);
      PickNone(d.events, DrawnOf);
      var pre := [DecodeFile(path), Draw(frame), DequeueOutput(FIRST_DEQUEUE_TIMEOUT_US)];
      assert pre == [DecodeFile(path)] + [Draw(frame)] + [DequeueOutput(FIRST_DEQUEUE_TIMEOUT_US)];
      PickAppend(pre, d.events, DrawnOf);
      PickAppend([DecodeFile(path)] + [Draw(frame)], [DequeueOutput(FIRST_DEQUEUE_TIMEOUT_US)], DrawnOf);
      PickAppend([DecodeFile(path)], [Draw(frame)], DrawnOf);
      PickOne(DecodeFile(path), DrawnOf);
      PickOne(Draw(frame), DrawnOf);
      PickOne(DequeueOutput(FIRST_DEQUEUE_TIMEOUT_US), DrawnOf);
    }
  }

  lemma {:induction false} FramesLeaveMuxerIdle(env: Env, paths: seq<string>, i: nat, dur: int, f: Progress)
    requires env.formatChanged < 0 && !f.muxerStarted
    decreases |paths| - i
    ensures forall e :: e in FramesFrom(env, paths, i, dur, f) ==> !UsesMuxer(e)
  {
    if i < |paths| {
      var s := FrameStep(env, paths[i], i, dur, f);
      FrameLeavesMuxerIdle(env, paths[i], i, dur, f);
      FramesLeaveMuxerIdle(env, paths, i + 1, dur, s.after);
    }
  }

  lemma {:induction false} FramesBeforeTeardown(env: Env, paths: seq<string>, i: nat, dur: int, f: Progress)
    decreases |paths| - i
    ensures forall e :: e in FramesFrom(env, paths, i, dur, f) ==> !e.IsTeardown() && !e.SignalEndOfInput?
  {
    if i < |paths| {
      var s := FrameStep(env, paths[i], i, dur, f);
      FrameCallsBeforeTeardown(env, paths[i], i, dur, f);
      FramesBeforeTeardown(env, paths, i + 1, dur, s.after);
    }
  }

  lemma {:induction false} FramesWritesAfterStart(p: seq<Event>, env: Env, paths: seq<string>, i: nat, dur: int, f: Progress)
    requires WritesAfterStart(p) && (f.muxerStarted ==> StartMuxer in p)
    decreases |paths| - i
    ensures WritesAfterStart(p + FramesFrom(env, paths, i, dur, f))
  {
    if i >= |paths| {
      assert p + [] == p;
    } else {
      var s := FrameStep(env, paths[i], i, dur, f);
      var rest := FramesFrom(env, paths, i + 1, dur, s.after);
      FrameWritesAfterStart(p, env, paths[i], i, dur, f);
      FramesWritesAfterStart(p + s.events, env, paths, i + 1, dur, s.after);
      assert p + (s.events + rest) == p + s.events + rest;
    }
  }

  /** For a non-negative frame duration the samples of the frame loop are written in timestamp order. */
  lemma {:induction false} FramesStampsInOrder(env: Env, paths: seq<string>, i: nat, dur: int, f: Progress)
    requires dur >= 0
    decreases |paths| - i
    ensures var fs := FramesFrom(env, paths, i, dur, f);
            StampsInOrder(fs) && StampsAtLeast(fs, i * dur)
  {
    if i < |paths| {
      var s := FrameStep(env, paths[i], i, dur, f);
      var rest := FramesFrom(env, paths, i + 1, dur, s.after);
      FrameStamps(env, paths[i], i, dur, f);
      StampsAllEqual(s.events, i * dur);
      FramesStampsInOrder(env, paths, i + 1, dur, s.after);
      assert (i + 1) * dur == i * dur + dur;
      StampsInOrderAppend(s.events, rest, i * dur);
    }
  }

  lemma {:induction false} FramesStampedAtDecodedFrames(env: Env, paths: seq<string>, i: nat, dur: int, f: Progress)
    decreases |paths| - i
    ensures StampedAtDecodedFrames(FramesFrom(env, paths, i, dur, f), env, paths, dur)
  {
    if i < |paths| {
      var s := FrameStep(env, paths[i], i, dur, f);
      FrameStamps(env, paths[i], i, dur, f);
      FramesStampedAtDecodedFrames(env, paths, i + 1, dur, s.after);
      forall e | e in s.events && e.WriteSample?
        ensures e.size > 0 && exists k :: 0 <= k < |paths| && env.Decode(paths[k]).Some? && e.ptsUs == k * dur
      {
        assert env.Decode(paths[i]).Some? && e.ptsUs == i * dur;
      }
    }
  }
}
