/**
 * The recording consumer: a VideoWriter owns a queue of raw pixel buffers and an encoder. Its
 * run loop takes items off the front of the queue, stops at the None sentinel, hands every
 * frame before it to the encoder in queue order, and releases the encoder on every way out.
 * The queue's blocking and the consumer thread are not modelled: the loop sees the items in
 * the order they were put.
 */
module Capture {
  import opened Common

  /** A raw RGB pixel buffer as read back from the framebuffer. */
  type Frame = seq<byte>

  /** A call made on the encoder. */
  datatype WriterEvent = Write(frame: Frame) | Release

  /** How run ends: by returning at the sentinel, or by the exception a malformed buffer raises. */
  datatype RunExit = Returned | Raised

  /** What the drain of a queue produces: encoder calls, the items left, and the way out. */
  datatype Drained = Drained(log: seq<WriterEvent>, rest: seq<Option<Frame>>, exit: RunExit)

  /** The loop leaves at this item: the sentinel, or a buffer that cannot be reshaped. */
  predicate Stops(item: Option<Frame>, frameSize: nat)
  {
    item.None? || |item.value| != frameSize
  }

  predicate HasStop(items: seq<Option<Frame>>, frameSize: nat)
  {
    exists i :: 0 <= i < |items| && Stops(items[i], frameSize)
  }

  lemma HasStopTail(items: seq<Option<Frame>>, frameSize: nat)
    requires HasStop(items, frameSize) && !Stops(items[0], frameSize)
    ensures HasStop(items[1..], frameSize)
  {
    var i :| 0 <= i < |items| && Stops(items[i], frameSize);
    assert items[1..][i - 1] == items[i];
  }

  /** Position of the first item at which the loop leaves. */
  function FirstStop(items: seq<Option<Frame>>, frameSize: nat): (k: nat)
    requires HasStop(items, frameSize)
    ensures k < |items| && Stops(items[k], frameSize)
    ensures forall j :: 0 <= j < k ==> !Stops(items[j], frameSize)
    decreases |items|
  {
    if Stops(items[0], frameSize) then 0
    else
      HasStopTail(items, frameSize);
      1 + FirstStop(items[1..], frameSize)
  }

  /** The encoder calls that write the given frames, one per frame, in order. */
  function Writes(frames: seq<Frame>): (log: seq<WriterEvent>)
    ensures |log| == |frames|
  {
    seq(|frames|, j requires 0 <= j < |frames| => Write(frames[j]))
  }

  /** The buffers carried by a run of items none of which is the sentinel. */
  function FramesOf(items: seq<Option<Frame>>): (frames: seq<Frame>)
    requires forall j :: 0 <= j < |items| ==> items[j].Some?
    ensures |frames| == |items|
  {
    seq(|items|, j requires 0 <= j < |items| => items[j].value)
  }

  /** The effect of run on a queue whose items are `items`: reference definition. */
  function Drain(items: seq<Option<Frame>>, frameSize: nat): Drained
    requires HasStop(items, frameSize)
  {
    var k := FirstStop(items, frameSize);
    Drained(
      Writes(FramesOf(items[..k])) + [Release],
      items[k + 1..],
      if items[k].None? then Returned else Raised)
  }

  /** The items the render loop puts: one buffer per displayed frame, then the sentinel. */
  function Produced(frames: seq<Frame>): (items: seq<Option<Frame>>)
    ensures |items| == |frames| + 1
  {
    seq(|frames|, j requires 0 <= j < |frames| => Some(frames[j])) + [None]
  }

  function CountReleases(log: seq<WriterEvent>): nat
  {
    if log == [] then 0
    else (if log[0] == Release then 1 else 0) + CountReleases(log[1..])
  }

  lemma {:induction false} CountReleasesAppend(a: seq<WriterEvent>, b: seq<WriterEvent>)
    ensures CountReleases(a + b) == CountReleases(a) + CountReleases(b)
    decreases |a|
  {
    if a == [] {
      assert a + b == b;
    } else {
      assert (a + b)[1..] == a[1..] + b;
      CountReleasesAppend(a[1..], b);
    }
  }

  lemma {:induction false} WritesHaveNoRelease(frames: seq<Frame>)
    ensures CountReleases(Writes(frames)) == 0
    decreases |frames|
  {
    if frames != [] {
      assert Writes(frames)[1..] == Writes(frames[1..]);
      WritesHaveNoRelease(frames[1..]);
    }
  }

  /**
   * Whatever the queue holds, the drain releases the encoder exactly once, as its last call,
   * and on both ways out.
   */
  lemma DrainReleasesOnce(items: seq<Option<Frame>>, frameSize: nat)
    requires HasStop(items, frameSize)
    ensures CountReleases(Drain(items, frameSize).log) == 1
    ensures Drain(items, frameSize).log[|Drain(items, frameSize).log| - 1] == Release
  {
    var k := FirstStop(items, frameSize);
    var w := Writes(FramesOf(items[..k]));
    WritesHaveNoRelease(FramesOf(items[..k]));
    CountReleasesAppend(w, [Release]);
    assert CountReleases([Release]) == 1 by {
      assert [Release][1..] == [];
    }
  }

  /**
   * The drain writes exactly the buffers before the first stopping item, in queue order, and
   * consumes nothing after that item.
   */
  lemma DrainWritesPrefix(items: seq<Option<Frame>>, frameSize: nat, j: nat)
    requires HasStop(items, frameSize)
    ensures var d := Drain(items, frameSize);
      |d.log| == FirstStop(items, frameSize) + 1 &&
      d.rest == items[FirstStop(items, frameSize) + 1..] &&
      (j < FirstStop(items, frameSize) ==> items[j].Some? && d.log[j] == Write(items[j].value))
  {
  }

  /**
   * The sentinel protocol of the render loop: when every buffer put has the frame size, the
   * drain writes every frame in the order it was put, returns normally and leaves the queue empty.
   */
  lemma {:induction false} ProducedDrainsAll(frames: seq<Frame>, frameSize: nat)
    requires forall j :: 0 <= j < |frames| ==> |frames[j]| == frameSize
    ensures HasStop(Produced(frames), frameSize)
    ensures Drain(Produced(frames), frameSize) == Drained(Writes(frames) + [Release], [], Returned)
  {
    var items := Produced(frames);
    assert Stops(items[|frames|], frameSize);
    var k := FirstStop(items, frameSize);
    if k < |frames| {
      assert false;
    }
    assert items[..k] == seq(|frames|, j requires 0 <= j < |frames| => Some(frames[j]));
    assert FramesOf(items[..k]) == frames;
  }

  class VideoWriter {
    const width: nat
    const height: nat
    const path: string
    const fps: nat
    /** Items put and not yet taken, front first. */
    var frameQueue: seq<Option<Frame>>
    /** The calls made on the encoder so far. */
    ghost var log: seq<WriterEvent>

    /** Size of a well-formed buffer: height rows of width RGB pixels. */
    function FrameSize(): nat
      reads this
    {
      height * width * 3
    }

    /** Opens the encoder on `path` and starts with an empty queue. */
    constructor (width: nat, height: nat, path: string, fps: nat)
      ensures this.width == width && this.height == height && this.path == path && this.fps == fps
      ensures frameQueue == [] && log == []
    {
      this.width, this.height, this.path, this.fps := width, height, path, fps;
      frameQueue := [];
      log := [];
    }

    /** Puts an item at the back of the queue (a buffer, or None to stop the consumer). */
    method Put(item: Option<Frame>)
      modifies this`frameQueue
      ensures frameQueue == old(frameQueue) + [item]
    {
      frameQueue := frameQueue + [item];
    }

    /**
     * The consumer loop: takes items until the sentinel; a buffer of the wrong size makes the
     * reshape raise. Either way the encoder is released once on the way out.
     */
    method Run() returns (exit: RunExit)
      requires HasStop(frameQueue, FrameSize())
      modifies this`frameQueue, this`log
      ensures var d := Drain(old(frameQueue), FrameSize());
        log == old(log) + d.log && frameQueue == d.rest && exit == d.exit
    {
      ghost var items := frameQueue;
      ghost var k := FirstStop(items, FrameSize());
      ghost var i := 0;
      exit := Returned;
      while true
        invariant 0 <= i <= k
        invariant frameQueue == items[i..]
        invariant log == old(log) + Writes(FramesOf(items[..i]))
        decreases |frameQueue|
      {
        var pixels := frameQueue[0];
        frameQueue := frameQueue[1..];
        if pixels.None? {
          break;
        }
        if |pixels.value| != height * width * 3 {
          exit := Raised;
          break;
        }
        log := log + [Write(pixels.value)];
        assert FramesOf(items[..i + 1]) == FramesOf(items[..i]) + [pixels.value];
        i := i + 1;
      }
      assert i == k;
      log := log + [Release];
    }
  }
}
