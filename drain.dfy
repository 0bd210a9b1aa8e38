/**
 * What the drain loop of encodeWithSurface does with the encoder's answers
 * for one frame: it consumes them up to the first negative one, dequeues with
 * the first timeout and then without waiting, releases every output buffer it
 * is handed once, and writes a sample for exactly the buffers that carry data
 * once the muxer has started, stamped with the frame's time.
 */
module DrainProperties {
  import opened Wrappers
  import opened Media
  import opened Coordinator

  /** The elements `pick` selects from each event of `es`, in order. */
  function Pick<U>(es: seq<Event>, pick: Event -> seq<U>): seq<U> {
    if es == [] then [] else pick(es[0]) + Pick(es[1..], pick)
  }

  lemma {:induction false} PickAppend<U>(a: seq<Event>, b: seq<Event>, pick: Event -> seq<U>)
    ensures Pick(a + b, pick) == Pick(a, pick) + Pick(b, pick)
  {
    if a == [] {
      assert a + b == b;
    } else {
      assert (a + b)[0] == a[0] && (a + b)[1..] == a[1..] + b;
      PickAppend(a[1..], b, pick);
    }
  }

  lemma PickOne<U>(e: Event, pick: Event -> seq<U>)
    ensures Pick([e], pick) == pick(e)
  {
    assert [e][1..] == [];
  }

  function TimeoutOf(e: Event): seq<int> {
    if e.DequeueOutput? then [e.timeoutUs] else []
  }

  function ReleasedOf(e: Event): seq<int> {
    if e.ReleaseOutput? then [e.buffer] else []
  }

  function WrittenSizeOf(e: Event): seq<int> {
    if e.WriteSample? then [e.size] else []
  }

  /**
   * The answers a drain that has answer `j` of `rs` in hand goes on to handle:
   * those from `j` up to, not including, the first negative one.
   */
  function Accepted(rs: seq<Dequeued>, j: nat): seq<Dequeued>
    decreases |rs| - j
  {
    var r := DequeueAt(rs, j);
    if r.index < 0 then [] else [r] + Accepted(rs, j + 1)
  }

  /**
   * The drain stops at the first negative answer: the accepted answers are
   * the script's answers from `j` on, all non-negative, and the answer after
   * them is negative (or the script is used up).
   */
  lemma {:induction false} AcceptedStopsAtFirstNegative(rs: seq<Dequeued>, j: nat)
    decreases |rs| - j
    ensures var acc := Accepted(rs, j);
            (acc == [] || (j + |acc| <= |rs| && acc == rs[j..j + |acc|]))
            && (forall a :: a in acc ==> a.index >= 0)
            && DequeueAt(rs, j + |acc|).index < 0
  {
    var r := DequeueAt(rs, j);
    if r.index >= 0 {
      AcceptedStopsAtFirstNegative(rs, j + 1);
      var tail := Accepted(rs, j + 1);
      if tail != [] {
        assert [rs[j]] + rs[j + 1..j + 1 + |tail|] == rs[j..j + 1 + |tail|];
      }
    }
  }

  /** `n` copies of `x`. */
  function Repeat(x: int, n: nat): seq<int> {
    if n == 0 then [] else [x] + Repeat(x, n - 1)
  }

  /** The indices among `acc` other than the format-changed code. */
  function BufferIndices(acc: seq<Dequeued>, fmt: int): seq<int> {
    if acc == [] then [] else (if acc[0].index != fmt then [acc[0].index] else []) + BufferIndices(acc[1..], fmt)
  }

  /** None of the answers `acc` is the format-changed code. */
  predicate NoFormatChange(acc: seq<Dequeued>, fmt: int) {
    acc == [] || (acc[0].index != fmt && NoFormatChange(acc[1..], fmt))
  }

  /** The sizes of the answers among `acc` that carry a buffer holding data. */
  function PayloadSizes(acc: seq<Dequeued>): seq<int> {
    if acc == [] then [] else (if acc[0].bufferPresent && acc[0].size > 0 then [acc[0].size] else []) + PayloadSizes(acc[1..])
  }

  /** What `pick` selects from the events of one handled answer. */
  lemma HandleOutputPick<U>(r: Dequeued, frame: nat, dur: int, fmt: int, f: Progress, pick: Event -> seq<U>)
    ensures var h := HandleOutput(r, frame, dur, fmt, f);
            var write := WriteOf(r, frame, dur, f.trackIndex, f.muxerStarted);
            Pick(h.events, pick)
            == if r.index == fmt then pick(AddTrack) + pick(StartMuxer)
               else pick(GetOutputBuffer(r.index)) + Pick(write, pick) + pick(ReleaseOutput(r.index))
  {
    var write := WriteOf(r, frame, dur, f.trackIndex, f.muxerStarted);
    if r.index == fmt {
      PickAppend([AddTrack], [StartMuxer], pick);
      PickOne(AddTrack, pick);
      PickOne(StartMuxer, pick);
    } else {
      PickAppend([GetOutputBuffer(r.index)] + write, [ReleaseOutput(r.index)], pick);
      PickAppend([GetOutputBuffer(r.index)], write, pick);
      PickOne(GetOutputBuffer(r.index), pick);
      PickOne(ReleaseOutput(r.index), pick);
    }
  }

  lemma HandleOutputTimeouts(r: Dequeued, frame: nat, dur: int, fmt: int, f: Progress)
    ensures Pick(HandleOutput(r, frame, dur, fmt, f).events, TimeoutOf) == []
  {
    HandleOutputPick(r, frame, dur, fmt, f, TimeoutOf);
    if r.index != fmt && WriteOf(r, frame, dur, f.trackIndex, f.muxerStarted) != [] {
      PickOne(WriteSample(f.trackIndex, frame * dur, r.size), TimeoutOf);
    }
  }

  lemma HandleOutputReleases(r: Dequeued, frame: nat, dur: int, fmt: int, f: Progress)
    ensures Pick(HandleOutput(r, frame, dur, fmt, f).events, ReleasedOf) == if r.index != fmt then [r.index] else []
  {
    HandleOutputPick(r, frame, dur, fmt, f, ReleasedOf);
    if r.index != fmt && WriteOf(r, frame, dur, f.trackIndex, f.muxerStarted) != [] {
      PickOne(WriteSample(f.trackIndex, frame * dur, r.size), ReleasedOf);
    }
  }

  lemma HandleOutputWrites(r: Dequeued, frame: nat, dur: int, fmt: int, f: Progress)
    ensures Pick(HandleOutput(r, frame, dur, fmt, f).events, WrittenSizeOf)
            == if r.index != fmt && r.bufferPresent && r.size > 0 && f.muxerStarted then [r.size] else []
  {
    HandleOutputPick(r, frame, dur, fmt, f, WrittenSizeOf);
    if r.index != fmt && WriteOf(r, frame, dur, f.trackIndex, f.muxerStarted) != [] {
      PickOne(WriteSample(f.trackIndex, frame * dur, r.size), WrittenSizeOf);
    }
  }

  /** One step of a drain: the events of a non-negative answer, then the next dequeue, then the rest. */
  lemma DrainUnfold<U>(rs: seq<Dequeued>, j: nat, frame: nat, dur: int, fmt: int, f: Progress, pick: Event -> seq<U>)
    requires DequeueAt(rs, j).index >= 0
    ensures var h := HandleOutput(DequeueAt(rs, j), frame, dur, fmt, f);
            Pick(DrainAfter(rs, j, frame, dur, fmt, f).events, pick)
            == Pick(h.events, pick) + pick(DequeueOutput(NEXT_DEQUEUE_TIMEOUT_US))
               + Pick(DrainAfter(rs, j + 1, frame, dur, fmt, h.after).events, pick)
  {
    var h := HandleOutput(DequeueAt(rs, j), frame, dur, fmt, f);
    var rest := DrainAfter(rs, j + 1, frame, dur, fmt, h.after);
    PickAppend(h.events + [DequeueOutput(NEXT_DEQUEUE_TIMEOUT_US)], rest.events, pick);
    PickAppend(h.events, [DequeueOutput(NEXT_DEQUEUE_TIMEOUT_US)], pick);
    PickOne(DequeueOutput(NEXT_DEQUEUE_TIMEOUT_US), pick);
  }

  lemma AcceptedCons(rs: seq<Dequeued>, j: nat)
    requires DequeueAt(rs, j).index >= 0
    ensures Accepted(rs, j) == [DequeueAt(rs, j)] + Accepted(rs, j + 1)
  {
  }

  /** One accepted answer adds no dequeue of its own before the next one, which waits for nothing. */
  lemma DrainTimeoutsStep(rs: seq<Dequeued>, j: nat, frame: nat, dur: int, fmt: int, f: Progress)
    requires DequeueAt(rs, j).index >= 0
    ensures var h := HandleOutput(DequeueAt(rs, j), frame, dur, fmt, f);
            Pick(DrainAfter(rs, j, frame, dur, fmt, f).events, TimeoutOf)
            == [NEXT_DEQUEUE_TIMEOUT_US] + Pick(DrainAfter(rs, j + 1, frame, dur, fmt, h.after).events, TimeoutOf)
  {
    var r := DequeueAt(rs, j);
    DrainUnfold(rs, j, frame, dur, fmt, f, TimeoutOf);
    HandleOutputTimeouts(r, frame, dur, fmt, f);
    assert TimeoutOf(DequeueOutput(NEXT_DEQUEUE_TIMEOUT_US)) == [NEXT_DEQUEUE_TIMEOUT_US];
  }

  /** One accepted answer releases its buffer unless it is the format change. */
  lemma DrainReleasesStep(rs: seq<Dequeued>, j: nat, frame: nat, dur: int, fmt: int, f: Progress)
    requires DequeueAt(rs, j).index >= 0
    ensures var r := DequeueAt(rs, j);
            var h := HandleOutput(r, frame, dur, fmt, f);
            Pick(DrainAfter(rs, j, frame, dur, fmt, f).events, ReleasedOf)
            == (if r.index != fmt then [r.index] else []) + Pick(DrainAfter(rs, j + 1, frame, dur, fmt, h.after).events, ReleasedOf)
  {
    var r := DequeueAt(rs, j);
    DrainUnfold(rs, j, frame, dur, fmt, f, ReleasedOf);
    HandleOutputReleases(r, frame, dur, fmt, f);
    assert ReleasedOf(DequeueOutput(NEXT_DEQUEUE_TIMEOUT_US)) == [];
  }

  /** One accepted answer that is not the format change writes its data if the muxer has started, and leaves the progress as it was. */
  lemma DrainWritesStep(rs: seq<Dequeued>, j: nat, frame: nat, dur: int, fmt: int, f: Progress)
    requires DequeueAt(rs, j).index >= 0 && DequeueAt(rs, j).index != fmt
    ensures var r := DequeueAt(rs, j);
            HandleOutput(r, frame, dur, fmt, f).after == f
            && Pick(DrainAfter(rs, j, frame, dur, fmt, f).events, WrittenSizeOf)
               == (if r.bufferPresent && r.size > 0 && f.muxerStarted then [r.size] else [])
                  + Pick(DrainAfter(rs, j + 1, frame, dur, fmt, f).events, WrittenSizeOf)
  {
    var r := DequeueAt(rs, j);
    DrainUnfold(rs, j, frame, dur, fmt, f, WrittenSizeOf);
    HandleOutputWrites(r, frame, dur, fmt, f);
    assert WrittenSizeOf(DequeueOutput(NEXT_DEQUEUE_TIMEOUT_US)) == [];
  }

  /**
   * After the first dequeue (timeout 10000 us), a drain dequeues once more,
   * without waiting, for every answer it accepts.
   */
  lemma {:induction false} DrainDequeueTimeouts(rs: seq<Dequeued>, j: nat, frame: nat, dur: int, fmt: int, f: Progress)
    decreases |rs| - j
    ensures Pick(DrainAfter(rs, j, frame, dur, fmt, f).events, TimeoutOf)
            == Repeat(NEXT_DEQUEUE_TIMEOUT_US, |Accepted(rs, j)|)
  {
    var r := DequeueAt(rs, j);
    if r.index >= 0 {
      var h := HandleOutput(r, frame, dur, fmt, f);
      DrainTimeoutsStep(rs, j, frame, dur, fmt, f);
      DrainDequeueTimeouts(rs, j + 1, frame, dur, fmt, h.after);
      AcceptedCons(rs, j);
    }
  }

  /**
   * Every accepted answer other than the format change is an output buffer
   * the drain releases, once, in the order the encoder handed them out.
   */
  lemma {:induction false} DrainReleasesEachBuffer(rs: seq<Dequeued>, j: nat, frame: nat, dur: int, fmt: int, f: Progress)
    decreases |rs| - j
    ensures Pick(DrainAfter(rs, j, frame, dur, fmt, f).events, ReleasedOf) == BufferIndices(Accepted(rs, j), fmt)
  {
    var r := DequeueAt(rs, j);
    if r.index >= 0 {
      var h := HandleOutput(r, frame, dur, fmt, f);
      DrainReleasesStep(rs, j, frame, dur, fmt, f);
      DrainReleasesEachBuffer(rs, j + 1, frame, dur, fmt, h.after);
      AcceptedCons(rs, j);
      BufferIndicesCons(r, Accepted(rs, j + 1), fmt);
    }
  }

  /**
   * When no accepted answer is the format change, the drain writes a sample
   * for exactly the buffers that are present and non-empty if the muxer has
   * started, and writes nothing if it has not.
   */
  lemma {:induction false} DrainWritesPayload(rs: seq<Dequeued>, j: nat, frame: nat, dur: int, fmt: int, f: Progress)
    requires NoFormatChange(Accepted(rs, j), fmt)
    decreases |rs| - j
    ensures Pick(DrainAfter(rs, j, frame, dur, fmt, f).events, WrittenSizeOf)
            == if f.muxerStarted then PayloadSizes(Accepted(rs, j)) else []
  {
    var r := DequeueAt(rs, j);
    if r.index >= 0 {
      var tail := Accepted(rs, j + 1);
      AcceptedCons(rs, j);
      NoFormatChangeCons(r, tail, fmt);
      DrainWritesStep(rs, j, frame, dur, fmt, f);
      DrainWritesPayload(rs, j + 1, frame, dur, fmt, f);
      PayloadSizesCons(r, tail);
    }
  }

  lemma NoFormatChangeCons(r: Dequeued, tail: seq<Dequeued>, fmt: int)
    ensures NoFormatChange([r] + tail, fmt) <==> r.index != fmt && NoFormatChange(tail, fmt)
  {
    assert ([r] + tail)[0] == r && ([r] + tail)[1..] == tail;
  }

  lemma BufferIndicesCons(r: Dequeued, tail: seq<Dequeued>, fmt: int)
    ensures BufferIndices([r] + tail, fmt) == (if r.index != fmt then [r.index] else []) + BufferIndices(tail, fmt)
  {
    assert ([r] + tail)[0] == r && ([r] + tail)[1..] == tail;
  }

  lemma PayloadSizesCons(r: Dequeued, tail: seq<Dequeued>)
    ensures PayloadSizes([r] + tail) == (if r.bufferPresent && r.size > 0 then [r.size] else []) + PayloadSizes(tail)
  {
    assert ([r] + tail)[0] == r && ([r] + tail)[1..] == tail;
  }

  /** Every sample a drain writes is non-empty and stamped `frame * dur`, the time of the frame's list position. */
  lemma {:induction false} DrainSampleStamps(rs: seq<Dequeued>, j: nat, frame: nat, dur: int, fmt: int, f: Progress)
    decreases |rs| - j
    ensures forall e :: e in DrainAfter(rs, j, frame, dur, fmt, f).events && e.WriteSample? ==>
              e.ptsUs == frame * dur && e.size > 0
  {
    var r := DequeueAt(rs, j);
    if r.index >= 0 {
      var h := HandleOutput(r, frame, dur, fmt, f);
      DrainSampleStamps(rs, j + 1, frame, dur, fmt, h.after);
    }
  }
}
