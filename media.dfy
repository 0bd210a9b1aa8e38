/**
 * The Android collaborators of the video encoder, modelled abstractly:
 * BitmapFactory (image decoding), the encoder's input Surface with its Canvas,
 * MediaCodec (the encoder) and MediaMuxer. Their internals are not modelled;
 * what they answer is given by a script (`Env`), and what is done to them is
 * recorded, call by call, in an append-only log of `Event`s.
 */
module Media {
  import opened Wrappers

  /** MediaCodec.INFO_TRY_AGAIN_LATER: dequeueOutputBuffer found nothing ready. */
  const INFO_TRY_AGAIN_LATER: int := -1

  /** The value Android gives MediaCodec.INFO_OUTPUT_FORMAT_CHANGED. */
  const ANDROID_INFO_OUTPUT_FORMAT_CHANGED: int := -2

  /** A decoded image; its pixels are not modelled. */
  datatype Bitmap = Bitmap(width: int, height: int)

  /**
   * One answer of MediaCodec.dequeueOutputBuffer: a buffer index or a negative
   * status code and, for a buffer index, whether getOutputBuffer yields a
   * buffer and the `size` and `presentationTimeUs` written into BufferInfo.
   */
  datatype Dequeued = Dequeued(index: int, bufferPresent: bool, size: int, ptsUs: int)

  /** What dequeueOutputBuffer answers once the script of the current frame is used up. */
  const NothingReady: Dequeued := Dequeued(INFO_TRY_AGAIN_LATER, false, 0, 0)

  /** What a call throws: an `Exception`, or a `Throwable` that is not one, such as an `OutOfMemoryError`. */
  datatype Kind = Exception | Error

  /** The `step`-th collaborator call (counting from 0) throws a Throwable of `kind` with `message`. */
  datatype Fault = Fault(step: nat, kind: Kind, message: Option<string>)

  /**
   * The scripted environment of one run:
   * - `files`: the paths BitmapFactory.decodeFile can decode (any other path decodes to null);
   * - `drains`: for the d-th frame drawn on the surface, the successive answers of
   *   dequeueOutputBuffer until the next frame is drawn;
   * - `formatChanged`: the platform's value of INFO_OUTPUT_FORMAT_CHANGED;
   * - `fault`: at most one call that throws.
   */
  datatype Env = Env(files: map<string, Bitmap>, drains: seq<seq<Dequeued>>, formatChanged: int, fault: Option<Fault>)
  {
    function Decode(path: string): Option<Bitmap> {
      if path in files then Some(files[path]) else None
    }

    function Drain(d: nat): seq<Dequeued> {
      if d < |drains| then drains[d] else []
    }

    predicate FailsAt(step: nat) {
      fault.Some? && fault.value.step == step
    }

    /** Some call numbered below `n` throws. */
    predicate FaultBelow(n: nat) {
      fault.Some? && fault.value.step < n
    }
  }

  /** The `j`-th answer of a drain script; past its end, nothing is ready. */
  function DequeueAt(rs: seq<Dequeued>, j: nat): Dequeued {
    if j < |rs| then rs[j] else NothingReady
  }

  /** One completed call on a collaborator. */
  datatype Event =
    | CreateEncoder                          // MediaCodec.createEncoderByType
    | Configure(width: int, height: int, fps: int)
    | CreateInputSurface
    | StartEncoder
    | CreateMuxer(path: string)              // MediaMuxer(outputPath, MPEG_4)
    | DecodeFile(path: string)               // BitmapFactory.decodeFile
    | Draw(frame: nat)                       // scale, lockCanvas, drawBitmap, unlockCanvasAndPost
    | DequeueOutput(timeoutUs: int)
    | AddTrack
    | StartMuxer
    | GetOutputBuffer(buffer: int)
    | WriteSample(track: int, ptsUs: int, size: int)
    | ReleaseOutput(buffer: int)
    | SignalEndOfInput
    | StopEncoder
    | ReleaseEncoder
    | StopMuxer
    | ReleaseMuxer
    | ReleaseSurface
  {
    /** The calls made by the `finally` block. */
    predicate IsTeardown() {
      StopEncoder? || ReleaseEncoder? || StopMuxer? || ReleaseMuxer? || ReleaseSurface?
    }
  }

  /** MediaCodec.BufferInfo, filled in place by dequeueOutputBuffer. */
  class BufferInfo {
    var size: int
    var presentationTimeUs: int

    constructor ()
      ensures size == 0 && presentationTimeUs == 0
    {
      size := 0;
      presentationTimeUs := 0;
    }
  }

  /**
   * The encoder, its input surface, the muxer and the image decoder of one run,
   * answering from the script `env` and logging every call that completes.
   * `calls` counts attempted calls, including one that throws.
   */
  class MediaStack {
    const env: Env
    var log: seq<Event>
    var calls: nat
    var draws: nat              // frames drawn so far
    var script: seq<Dequeued>   // encoder output for the frame drawn last
    var cursor: nat             // answers of `script` already given
    var current: Dequeued       // the answer given last
    var tracks: nat             // tracks added to the muxer

    constructor (env: Env)
      ensures this.env == env
      ensures log == [] && calls == 0 && draws == 0 && script == [] && cursor == 0 && tracks == 0
      ensures current == NothingReady
    {
      this.env := env;
      log := [];
      calls := 0;
      draws := 0;
      script := [];
      cursor := 0;
      current := NothingReady;
      tracks := 0;
    }

    /** A call without a result: it throws when it is the faulty one, and is logged otherwise. */
    method Call(e: Event) returns (thrown: bool)
      modifies this`log, this`calls
      ensures thrown == env.FailsAt(old(calls))
      ensures calls == old(calls) + 1
      ensures log == if thrown then old(log) else old(log) + [e]
    {
      thrown := env.FailsAt(calls);
      if !thrown {
        log := log + [e];
      }
      calls := calls + 1;
    }

    /** BitmapFactory.decodeFile: null for a path that does not decode. */
    method DecodeFile(path: string) returns (bitmap: Option<Bitmap>, thrown: bool)
      modifies this`log, this`calls
      ensures thrown == env.FailsAt(old(calls))
      ensures calls == old(calls) + 1
      ensures log == if thrown then old(log) else old(log) + [Event.DecodeFile(path)]
      ensures !thrown ==> bitmap == env.Decode(path)
    {
      thrown := Call(Event.DecodeFile(path));
      bitmap := if thrown then None else env.Decode(path);
    }

    /** Draws the scaled bitmap of list position `frame` and posts it to the encoder. */
    method DrawFrame(frame: nat) returns (thrown: bool)
      modifies this`log, this`calls, this`script, this`draws, this`cursor
      ensures thrown == env.FailsAt(old(calls))
      ensures calls == old(calls) + 1
      ensures log == if thrown then old(log) else old(log) + [Draw(frame)]
      ensures !thrown ==> draws == old(draws) + 1 && script == env.Drain(old(draws)) && cursor == 0
      ensures thrown ==> draws == old(draws) && script == old(script) && cursor == old(cursor)
    {
      thrown := Call(Draw(frame));
      if !thrown {
        script := env.Drain(draws);
        draws := draws + 1;
        cursor := 0;
      }
    }

    /** MediaCodec.dequeueOutputBuffer: the next scripted answer; a buffer index fills `info`. */
    method DequeueOutputBuffer(info: BufferInfo, timeoutUs: int) returns (index: int, thrown: bool)
      modifies this`log, this`calls, this`cursor, this`current, info
      ensures thrown == env.FailsAt(old(calls))
      ensures calls == old(calls) + 1
      ensures log == if thrown then old(log) else old(log) + [DequeueOutput(timeoutUs)]
      ensures !thrown ==> cursor == old(cursor) + 1 && current == DequeueAt(script, old(cursor))
      ensures !thrown ==> index == current.index
      ensures !thrown && index >= 0 ==> info.size == current.size && info.presentationTimeUs == current.ptsUs
      ensures thrown || index < 0 ==> unchanged(info)
      ensures thrown ==> cursor == old(cursor) && current == old(current)
    {
      thrown := Call(DequeueOutput(timeoutUs));
      index := INFO_TRY_AGAIN_LATER;
      if !thrown {
        current := DequeueAt(script, cursor);
        cursor := cursor + 1;
        index := current.index;
        if index >= 0 {
          info.size := current.size;
          info.presentationTimeUs := current.ptsUs;
        }
      }
    }

    /** MediaMuxer.addTrack(encoder.outputFormat): tracks are numbered from 0 in order of addition. */
    method AddTrack() returns (track: int, thrown: bool)
      modifies this`log, this`calls, this`tracks
      ensures thrown == env.FailsAt(old(calls))
      ensures calls == old(calls) + 1
      ensures log == if thrown then old(log) else old(log) + [Event.AddTrack]
      ensures tracks == if thrown then old(tracks) else old(tracks) + 1
      ensures !thrown ==> track == old(tracks)
    {
      thrown := Call(Event.AddTrack);
      track := -1;
      if !thrown {
        track := tracks;
        tracks := tracks + 1;
      }
    }

    /** MediaCodec.getOutputBuffer: non-null for the index dequeued last when the script says so. */
    method GetOutputBuffer(index: int) returns (present: bool, thrown: bool)
      modifies this`log, this`calls
      ensures thrown == env.FailsAt(old(calls))
      ensures calls == old(calls) + 1
      ensures log == if thrown then old(log) else old(log) + [Event.GetOutputBuffer(index)]
      ensures !thrown ==> present == (current.index == index && current.bufferPresent)
    {
      thrown := Call(Event.GetOutputBuffer(index));
      present := !thrown && current.index == index && current.bufferPresent;
    }

    /** MediaMuxer.writeSampleData: records the track and what `info` holds at the time of the call. */
    method WriteSampleData(track: int, info: BufferInfo) returns (thrown: bool)
      modifies this`log, this`calls
      ensures thrown == env.FailsAt(old(calls))
      ensures calls == old(calls) + 1
      ensures log == if thrown then old(log) else old(log) + [WriteSample(track, info.presentationTimeUs, info.size)]
    {
      thrown := Call(WriteSample(track, info.presentationTimeUs, info.size));
    }
  }
}
