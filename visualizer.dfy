/**
  The animation state of the visualizer. A render request either starts a run of
  animation frames, is dropped because a run is already going, or draws one static frame.
  The browser's frame scheduling is replaced by the caller invoking `Tick` again for as
  long as `isAnimating` stays true.
 */
module Visualization {
  import opened LayoutEngine
  import opened Frames
  import Stats

  datatype Option<T> = None | Some(value: T)

  /** What is added to the progress after each frame drawn below progress 1. */
  const Step: real := 0.03

  /** The number of increments of a run that starts at 0: the first multiple of 0.03 not below 1 is 34 * 0.03. */
  const RunIncrements: nat := 34

  /** The progress after `increments` steps from 0, in exact arithmetic. */
  function ProgressAfter(increments: nat): real
  {
    increments as real * Step
  }

  /** A run keeps going exactly while fewer than 34 increments have been made. */
  lemma ProgressBelowOne(increments: nat)
    ensures ProgressAfter(increments) < 1.0 <==> increments < RunIncrements
  {
  }

  /** The last frame of a run is drawn at 34 * 0.03 = 1.02, not at 1. */
  lemma LastProgress()
    ensures ProgressAfter(RunIncrements) == 1.02
    ensures ProgressAfter(RunIncrements - 1) == 0.99
  {
  }

  /**
    So the last frame of a run is not the static frame: with one neuron in each of two
    layers, the animated line runs past its destination and is stroked at opacity 0.612.
   */
  lemma LastFrameOvershoots(p1: Point, p2: Point)
    requires p1.x < p2.x
    ensures var last := FrameOf(true, [[p1], [p2]], ProgressAfter(RunIncrements));
            last.segments[0].endpoint.x > p2.x && last.segments[0].alpha == 0.612 &&
            last != FrameOf(false, [[p1], [p2]], 1.0)
  {
    var coords := [[p1], [p2]];
    var progress := ProgressAfter(RunIncrements);
    LastProgress();
    PairSegmentsAt(true, [p1], [p2], progress, 0, 0);
    PairSegmentsAt(false, [p1], [p2], 1.0, 0, 0);
    assert coords[..1] == [[p1]];
    assert FrameSegments(true, coords, progress) == PairSegments(true, [p1], [p2], progress);
    assert FrameSegments(false, coords, 1.0) == PairSegments(false, [p1], [p2], 1.0);
    EndpointOvershoots(p1, p2, progress);
  }

  /**
    For every layout that has at least one connection, the last frame of a run is stroked
    at opacity 0.612 throughout, so it is not the static frame.
   */
  lemma LastFrameNotStatic(coords: seq<seq<Point>>)
    requires Stats.Connections(Sizes(coords)) > 0
    ensures var last := FrameOf(true, coords, ProgressAfter(RunIncrements));
            (forall s :: s in last.segments ==> s.alpha == 0.612) &&
            last != FrameOf(false, coords, 1.0)
  {
    LastProgress();
    FrameSegmentsAlpha(true, coords, ProgressAfter(RunIncrements));
    FrameSegmentsAlpha(false, coords, 1.0);
    var last := FrameOf(true, coords, ProgressAfter(RunIncrements));
    var still := FrameOf(false, coords, 1.0);
    assert last.segments[0] in last.segments && still.segments[0] in still.segments;
    assert last.segments[0].alpha != still.segments[0].alpha;
  }

  /** Frame `k` of a run over `coords` is the animated frame at the progress after `k` steps. */
  ghost predicate RunFrames(frames: seq<Frame>, coords: seq<seq<Point>>)
  {
    forall k :: 0 <= k < |frames| ==> frames[k] == FrameOf(true, coords, ProgressAfter(k))
  }

  /** The next frame of a run extends the frames drawn so far. */
  lemma RunFramesGrow(frames: seq<Frame>, coords: seq<seq<Point>>, next: Frame)
    requires RunFrames(frames, coords)
    requires next == FrameOf(true, coords, ProgressAfter(|frames|))
    ensures RunFrames(frames + [next], coords)
  {
  }

  class NeuralNetworkVisualizer {
    /** The canvas size. */
    var width: nat
    var height: nat
    /** The "animate connections" option. */
    var animateConnections: bool
    /** Whether a run of animation frames is going. */
    var isAnimating: bool
    /** The fraction of the connections drawn by the current frame of a run. */
    var connectionProgress: real
    /** The coordinates captured by the frame callback of the latest run. */
    var runCoords: seq<seq<Point>>
    /** How many times the latest run has added a step to the progress. */
    ghost var increments: nat

    /** The progress is always a whole number of steps from 0, at most 34 of them. */
    ghost predicate Valid()
      reads this
    {
      increments <= RunIncrements && connectionProgress == ProgressAfter(increments)
    }

    /** A new visualizer: animation on, no run going, progress 0. */
    constructor (width: nat, height: nat)
      ensures Valid()
      ensures this.width == width && this.height == height
      ensures animateConnections && !isAnimating && connectionProgress == 0.0 && runCoords == []
    {
      this.width := width;
      this.height := height;
      animateConnections := true;
      isAnimating := false;
      connectionProgress := 0.0;
      runCoords := [];
      increments := 0;
    }

    /** The canvas takes its container's size; a run going on keeps its coordinates. */
    method Resize(containerWidth: nat, containerHeight: nat)
      modifies this`width, this`height
      ensures width == containerWidth && height == containerHeight
    {
      width := containerWidth;
      height := containerHeight;
    }

    /**
      One invocation of the frame callback: draw the captured coordinates at the current
      progress (the line shape follows the option as it is now), then either add a step and
      ask for another frame, or, once the progress has reached 1, end the run.
     */
    method Tick() returns (frame: Frame)
      requires Valid() && isAnimating
      modifies this`connectionProgress, this`isAnimating, this`increments
      ensures Valid()
      ensures frame == FrameOf(animateConnections, runCoords, old(connectionProgress))
      ensures old(connectionProgress) < 1.0 ==>
                isAnimating && connectionProgress == old(connectionProgress) + Step &&
                increments == old(increments) + 1
      ensures 1.0 <= old(connectionProgress) ==>
                !isAnimating && connectionProgress == old(connectionProgress) &&
                increments == old(increments) == RunIncrements
    {
      frame := DrawFrame(animateConnections, runCoords, connectionProgress);
      ProgressBelowOne(increments);
      if connectionProgress < 1.0 {
        connectionProgress := connectionProgress + Step;
        increments := increments + 1;
      } else {
        isAnimating := false;
      }
    }

    /**
      A render request. With animation on and no run going it captures the new layout,
      resets the progress to 0 and draws the first frame of a run at once. With animation on
      and a run going it draws nothing and changes nothing. With animation off it draws one
      static frame of the new layout and leaves the animation state alone.
     */
    method Draw(layers: seq<int>) returns (frame: Option<Frame>)
      requires Valid()
      modifies this`connectionProgress, this`isAnimating, this`increments, this`runCoords
      ensures Valid()
      ensures old(animateConnections && !isAnimating) ==>
                runCoords == Layout(layers, width, height) &&
                frame == Some(FrameOf(true, runCoords, 0.0)) &&
                isAnimating && increments == 1 && connectionProgress == Step
      ensures old(animateConnections && isAnimating) ==>
                frame == None && runCoords == old(runCoords) &&
                isAnimating && connectionProgress == old(connectionProgress) && increments == old(increments)
      ensures old(!animateConnections) ==>
                frame == Some(FrameOf(false, Layout(layers, width, height), 1.0)) &&
                runCoords == old(runCoords) && isAnimating == old(isAnimating) &&
                connectionProgress == old(connectionProgress) && increments == old(increments)
    {
      var layerCoordinates := ComputeLayout(layers, width, height);
      if animateConnections && !isAnimating {
        isAnimating := true;
        connectionProgress := 0.0;
        increments := 0;
        runCoords := layerCoordinates;
        var first := Tick();
        frame := Some(first);
      } else if !animateConnections {
        var still := DrawFrame(false, layerCoordinates, 1.0);
        frame := Some(still);
      } else {
        frame := None;
      }
    }

    /** The "animate connections" checkbox: set the option, then render again. */
    method AnimationToggled(checked: bool, layers: seq<int>) returns (frame: Option<Frame>)
      requires Valid()
      modifies this`animateConnections, this`connectionProgress, this`isAnimating, this`increments, this`runCoords
      ensures Valid() && animateConnections == checked
      ensures checked && !old(isAnimating) ==>
                runCoords == Layout(layers, width, height) && frame == Some(FrameOf(true, runCoords, 0.0)) &&
                isAnimating && connectionProgress == Step
      ensures checked && old(isAnimating) ==>
                frame == None && runCoords == old(runCoords) && isAnimating &&
                connectionProgress == old(connectionProgress)
      ensures !checked ==>
                frame == Some(FrameOf(false, Layout(layers, width, height), 1.0)) &&
                runCoords == old(runCoords) && isAnimating == old(isAnimating) &&
                connectionProgress == old(connectionProgress)
    {
      animateConnections := checked;
      frame := Draw(layers);
    }

    /**
      A render request with animation on and no run going, followed by frame callbacks for
      as long as the run goes on: 35 frames at progress 0, 0.03, ..., 1.02, after which the
      progress stays at 1.02 and the run is over.
     */
    method Animate(layers: seq<int>) returns (frames: seq<Frame>)
      requires Valid() && animateConnections && !isAnimating
      modifies this`connectionProgress, this`isAnimating, this`increments, this`runCoords
      ensures Valid() && !isAnimating
      ensures runCoords == Layout(layers, width, height)
      ensures connectionProgress == 1.02
      ensures |frames| == RunIncrements + 1
      ensures forall k :: 0 <= k < |frames| ==> frames[k] == FrameOf(true, runCoords, ProgressAfter(k))
    {
      var first := Draw(layers);
      ghost var coords := runCoords;
      assert first.value == FrameOf(true, coords, ProgressAfter(0));
      frames := [first.value];
      while isAnimating
        invariant Valid() && animateConnections
        invariant runCoords == coords
        invariant isAnimating ==> |frames| == increments
        invariant !isAnimating ==> increments == RunIncrements && |frames| == RunIncrements + 1
        invariant RunFrames(frames, coords)
        decreases (if isAnimating then 1 else 0) + RunIncrements - increments
      {
        var next := Tick();
        RunFramesGrow(frames, coords, next);
        frames := frames + [next];
      }
      LastProgress();
    }
  }
}
