/**
  What one frame of the diagram draws, as data: first one connection segment for every
  pair (neuron of layer i, neuron of layer i + 1), layer pair by layer pair and source
  neuron by source neuron, then one glyph per neuron, layer by layer.
 */
module Frames {
  import opened LayoutEngine
  import Stats

  /** One connection line: from `origin` to `endpoint`, stroked with opacity `alpha`. */
  datatype Segment = Segment(origin: Point, endpoint: Point, alpha: real)

  /** The segments of a frame in drawing order, then the glyph centres in drawing order. */
  datatype Frame = Frame(segments: seq<Segment>, glyphs: seq<Point>)

  /** The stroke opacity of a connection at full progress. */
  const AlphaScale: real := 0.6

  /**
    One connection from `p1` towards `p2`. When connections are animated the line stops
    at the fraction `progress` of the way; otherwise it always reaches `p2`. Either way its
    opacity is `progress * 0.6`.
   */
  function ConnectionSegment(animate: bool, p1: Point, p2: Point, progress: real): (s: Segment)
    ensures s.origin == p1
    ensures !animate ==> s.endpoint == p2
    ensures animate && progress == 0.0 ==> s.endpoint == p1
    ensures animate && progress == 1.0 ==> s.endpoint == p2
    ensures 0.0 <= progress <= 1.0 ==> 0.0 <= s.alpha <= AlphaScale
  {
    if animate then
      var dx := p2.x - p1.x;
      var dy := p2.y - p1.y;
      Segment(p1, Point(p1.x + dx * progress, p1.y + dy * progress), progress * AlphaScale)
    else
      Segment(p1, p2, progress * AlphaScale)
  }

  /** Moving the fraction `t` of the way from `a` to `b` stays between `a` and `b`. */
  lemma Between(a: real, b: real, t: real, e: real)
    requires 0.0 <= t <= 1.0 && e == a + (b - a) * t
    ensures a <= e <= b || b <= e <= a
  {
    var d := b - a;
    assert d * t + d * (1.0 - t) == d;
    if a <= b {
      NonNegativeProduct(d, t);
      NonNegativeProduct(d, 1.0 - t);
    } else {
      NonNegativeProduct(-d, t);
      NonNegativeProduct(-d, 1.0 - t);
    }
  }

  /** A product of two reals that are not negative is not negative. */
  lemma NonNegativeProduct(u: real, v: real)
    requires u >= 0.0 && v >= 0.0
    ensures u * v >= 0.0
  {
  }

  /** A product of two positive reals is positive. */
  lemma PositiveProduct(u: real, v: real)
    requires u > 0.0 && v > 0.0
    ensures u * v > 0.0
  {
  }

  /** A negative real times a positive one is negative. */
  lemma NegativeProduct(u: real, v: real)
    requires u < 0.0 && v > 0.0
    ensures u * v < 0.0
  {
  }

  /** Between 0 and 1 the animated endpoint lies on the way from `p1` to `p2`. */
  lemma EndpointBetween(p1: Point, p2: Point, progress: real)
    requires 0.0 <= progress <= 1.0
    ensures var e := ConnectionSegment(true, p1, p2, progress).endpoint;
            (p1.x <= e.x <= p2.x || p2.x <= e.x <= p1.x) &&
            (p1.y <= e.y <= p2.y || p2.y <= e.y <= p1.y)
  {
    var e := ConnectionSegment(true, p1, p2, progress).endpoint;
    assert e.x == p1.x + (p2.x - p1.x) * progress && e.y == p1.y + (p2.y - p1.y) * progress;
    Between(p1.x, p2.x, progress, e.x);
    Between(p1.y, p2.y, progress, e.y);
  }

  /** Past 1, moving from `a` towards `b` ends beyond `b`. */
  lemma Beyond(a: real, b: real, t: real, e: real)
    requires t > 1.0 && e == a + (b - a) * t
    ensures a < b ==> e > b
    ensures b < a ==> e < b
  {
    var d, s := b - a, t - 1.0;
    assert d * t == d * s + d;
    assert e - b == d * s;
    if a < b {
      PositiveProduct(d, s);
    } else if b < a {
      NegativeProduct(d, s);
    }
  }

  /**
    Past 1 the animated line runs beyond its destination, in every coordinate in which
    the destination differs from the source.
   */
  lemma EndpointOvershoots(p1: Point, p2: Point, progress: real)
    requires progress > 1.0
    ensures var e := ConnectionSegment(true, p1, p2, progress).endpoint;
            (p1.x < p2.x ==> e.x > p2.x) && (p2.x < p1.x ==> e.x < p2.x) &&
            (p1.y < p2.y ==> e.y > p2.y) && (p2.y < p1.y ==> e.y < p2.y)
  {
    var e := ConnectionSegment(true, p1, p2, progress).endpoint;
    assert e.x == p1.x + (p2.x - p1.x) * progress && e.y == p1.y + (p2.y - p1.y) * progress;
    Beyond(p1.x, p2.x, progress, e.x);
    Beyond(p1.y, p2.y, progress, e.y);
  }

  /**
    The connections from one source neuron to each neuron of the next layer, in order:
    one per destination, each starting at the source neuron and, when not animated,
    ending at its destination.
   */
  function Fan(animate: bool, neuron1: Point, next: seq<Point>, progress: real): (fan: seq<Segment>)
    ensures |fan| == |next|
    ensures forall k :: 0 <= k < |fan| ==> fan[k].origin == neuron1
    ensures !animate ==> forall k :: 0 <= k < |fan| ==> fan[k].endpoint == next[k]
  {
    seq(|next|, k requires 0 <= k < |next| => ConnectionSegment(animate, neuron1, next[k], progress))
  }

  /**
    The connections between two adjacent layers, source neuron by source neuron: one per
    (source, destination) pair, each starting at a neuron of the source layer.
   */
  function PairSegments(animate: bool, current: seq<Point>, next: seq<Point>, progress: real): (pair: seq<Segment>)
    ensures |pair| == |current| * |next|
    ensures forall s :: s in pair ==> s.origin in current
  {
    if current == [] then []
    else
      var n := |current|;
      assert (n - 1) * |next| + |next| == n * |next|;
      assert forall p :: p in current[..n - 1] ==> p in current;
      PairSegments(animate, current[..n - 1], next, progress) + Fan(animate, current[n - 1], next, progress)
  }

  /** The number of neurons of each layer of `coords`. */
  function Sizes(coords: seq<seq<Point>>): seq<int>
  {
    seq(|coords|, i requires 0 <= i < |coords| => |coords[i]|)
  }

  /**
    The connections of a whole frame, layer pair by layer pair: as many as the statistics
    count for the layer sizes drawn.
   */
  function FrameSegments(animate: bool, coords: seq<seq<Point>>, progress: real): (segments: seq<Segment>)
    ensures |segments| == Stats.Connections(Sizes(coords))
  {
    if |coords| < 2 then []
    else
      var n := |coords|;
      assert Sizes(coords)[..n - 1] == Sizes(coords[..n - 1]);
      FrameSegments(animate, coords[..n - 1], progress) + PairSegments(animate, coords[n - 2], coords[n - 1], progress)
  }

  /**
    The glyph centres of a frame, layer by layer: as many as the statistics count neurons
    in the layer sizes drawn.
   */
  function Flatten(coords: seq<seq<Point>>): (glyphs: seq<Point>)
    ensures |glyphs| == Stats.Sum(Sizes(coords))
  {
    if coords == [] then []
    else
      var n := |coords|;
      assert Sizes(coords)[..n - 1] == Sizes(coords[..n - 1]);
      Flatten(coords[..n - 1]) + coords[n - 1]
  }

  /** Every neuron of every layer gets a glyph. */
  lemma {:induction false} FlattenContains(coords: seq<seq<Point>>, i: nat, k: nat)
    requires i < |coords| && k < |coords[i]|
    ensures coords[i][k] in Flatten(coords)
  {
    var n := |coords|;
    if i < n - 1 {
      FlattenContains(coords[..n - 1], i, k);
    } else {
      assert Flatten(coords)[|Flatten(coords[..n - 1])| + k] == coords[i][k];
    }
  }

  /**
    The frame drawn for `coords` at `progress`: as many connections and glyphs as the
    statistics count for the layer sizes drawn.
   */
  function FrameOf(animate: bool, coords: seq<seq<Point>>, progress: real): (frame: Frame)
    ensures |frame.segments| == Stats.Connections(Sizes(coords))
    ensures |frame.glyphs| == Stats.Sum(Sizes(coords))
  {
    Frame(FrameSegments(animate, coords, progress), Flatten(coords))
  }

  /**
    Source-major order: the connection from neuron `j` of one layer to neuron `k` of the
    next is segment number `j * |next| + k` of that layer pair, and there are `|current| * |next|`.
   */
  lemma {:induction false} PairSegmentsAt(animate: bool, current: seq<Point>, next: seq<Point>, progress: real, j: nat, k: nat)
    requires j < |current| && k < |next|
    ensures |PairSegments(animate, current, next, progress)| == |current| * |next|
    ensures PairSegments(animate, current, next, progress)[j * |next| + k]
         == ConnectionSegment(animate, current[j], next[k], progress)
  {
    var n, m := |current|, |next|;
    var init := current[..n - 1];
    var fan := Fan(animate, current[n - 1], next, progress);
    assert PairSegments(animate, current, next, progress) == PairSegments(animate, init, next, progress) + fan;
    if j < n - 1 {
      PairSegmentsAt(animate, init, next, progress, j, k);
      EarlierRow(j, k, m, n - 1);
    } else {
      assert j * m + k - (n - 1) * m == k;
    }
  }

  /** An index of an earlier source row falls before the last row. */
  lemma EarlierRow(j: nat, k: nat, m: nat, rows: nat)
    requires j < rows && k < m
    ensures j * m + k < rows * m
  {
    assert (j + 1) * m <= rows * m;
  }

  /** The layer sizes of a layout are the layer counts, a count <= 0 giving no neuron. */
  lemma LayoutSizes(layers: seq<int>, width: nat, height: nat)
    requires forall i :: 0 <= i < |layers| ==> layers[i] >= 0
    ensures Sizes(Layout(layers, width, height)) == layers
  {
  }

  /**
    For layer counts that are not negative, a frame of the layout draws exactly as many
    connections and glyphs as the statistics report.
   */
  lemma FrameMatchesStats(layers: seq<int>, width: nat, height: nat, animate: bool, progress: real)
    requires forall i :: 0 <= i < |layers| ==> layers[i] >= 0
    ensures var frame := FrameOf(animate, Layout(layers, width, height), progress);
            |frame.segments| == Stats.Connections(layers) && |frame.glyphs| == Stats.Sum(layers)
  {
    LayoutSizes(layers, width, height);
  }

  /**
    With negative counts the two disagree: `[-1, -1]` reports one connection and -2 neurons,
    while its frame draws nothing.
   */
  lemma NegativeCountsDisagree(width: nat, height: nat, animate: bool, progress: real)
    ensures var frame := FrameOf(animate, Layout([-1, -1], width, height), progress);
            frame.segments == [] && frame.glyphs == [] &&
            Stats.Connections([-1, -1]) == 1 && Stats.Sum([-1, -1]) == -2
  {
    var coords := Layout([-1, -1], width, height);
    assert coords[0] == [] && coords[1] == [];
    assert coords[..1][..0] == [];
    assert FrameSegments(animate, coords[..1], progress) == [];
    assert PairSegments(animate, coords[0], coords[1], progress) == [];
    assert Flatten(coords[..1]) == Flatten(coords[..1][..0]) + coords[0];
    assert [-1, -1][..1] == [-1];
    assert [-1][..0] == [];
  }

  /** Every connection of a layer pair is stroked at opacity `progress * 0.6`. */
  lemma {:induction false} PairSegmentsAlpha(animate: bool, current: seq<Point>, next: seq<Point>, progress: real)
    ensures forall s :: s in PairSegments(animate, current, next, progress) ==> s.alpha == progress * AlphaScale
  {
    if current != [] {
      PairSegmentsAlpha(animate, current[..|current| - 1], next, progress);
    }
  }

  /** Every connection of a frame is stroked at opacity `progress * 0.6`. */
  lemma {:induction false} FrameSegmentsAlpha(animate: bool, coords: seq<seq<Point>>, progress: real)
    ensures forall s :: s in FrameSegments(animate, coords, progress) ==> s.alpha == progress * AlphaScale
  {
    var n := |coords|;
    if n >= 2 {
      FrameSegmentsAlpha(animate, coords[..n - 1], progress);
      PairSegmentsAlpha(animate, coords[n - 2], coords[n - 1], progress);
    }
  }

  /** At full progress an animated connection coincides with the static one. */
  lemma FanAtFullProgress(neuron1: Point, next: seq<Point>)
    ensures Fan(true, neuron1, next, 1.0) == Fan(false, neuron1, next, 1.0)
  {
  }

  /** At full progress an animated layer pair coincides with the static one. */
  lemma {:induction false} PairSegmentsAtFullProgress(current: seq<Point>, next: seq<Point>)
    ensures PairSegments(true, current, next, 1.0) == PairSegments(false, current, next, 1.0)
  {
    if current != [] {
      PairSegmentsAtFullProgress(current[..|current| - 1], next);
      FanAtFullProgress(current[|current| - 1], next);
    }
  }

  /** An animated frame at progress exactly 1 is the static frame. */
  lemma {:induction false} FrameAtFullProgress(coords: seq<seq<Point>>)
    ensures FrameOf(true, coords, 1.0) == FrameOf(false, coords, 1.0)
  {
    FrameSegmentsAtFullProgress(coords);
  }

  /** At full progress all animated connections of a frame coincide with the static ones. */
  lemma {:induction false} FrameSegmentsAtFullProgress(coords: seq<seq<Point>>)
    ensures FrameSegments(true, coords, 1.0) == FrameSegments(false, coords, 1.0)
  {
    var n := |coords|;
    if n >= 2 {
      FrameSegmentsAtFullProgress(coords[..n - 1]);
      PairSegmentsAtFullProgress(coords[n - 2], coords[n - 1]);
    }
  }

  /**
    The connection loops of the renderer: for each adjacent layer pair, for each source
    neuron, for each destination neuron, one connection.
   */
  method DrawConnections(animate: bool, coords: seq<seq<Point>>, progress: real) returns (segments: seq<Segment>)
    ensures segments == FrameSegments(animate, coords, progress)
  {
    segments := [];
    var i := 0;
    while i < |coords| - 1
      invariant 0 <= i <= |coords|
      invariant segments == FrameSegments(animate, coords[..Stats.Min(i + 1, |coords|)], progress)
    {
      var pair := DrawLayerPair(animate, coords[i], coords[i + 1], progress);
      assert coords[..i + 2][..i + 1] == coords[..i + 1];
      segments := segments + pair;
      i := i + 1;
    }
    assert coords[..Stats.Min(i + 1, |coords|)] == coords;
  }

  /** The two inner connection loops: for each source neuron, one connection to each destination. */
  method DrawLayerPair(animate: bool, currentLayer: seq<Point>, nextLayer: seq<Point>, progress: real) returns (segments: seq<Segment>)
    ensures segments == PairSegments(animate, currentLayer, nextLayer, progress)
  {
    segments := [];
    var a := 0;
    while a < |currentLayer|
      invariant 0 <= a <= |currentLayer|
      invariant segments == PairSegments(animate, currentLayer[..a], nextLayer, progress)
    {
      var neuron1 := currentLayer[a];
      ghost var done := segments;
      var b := 0;
      while b < |nextLayer|
        invariant 0 <= b <= |nextLayer|
        invariant segments == done + Fan(animate, neuron1, nextLayer[..b], progress)
      {
        FanStep(animate, neuron1, nextLayer, progress, b);
        segments := segments + [ConnectionSegment(animate, neuron1, nextLayer[b], progress)];
        b := b + 1;
      }
      assert nextLayer[..b] == nextLayer;
      assert currentLayer[..a + 1][..a] == currentLayer[..a];
      a := a + 1;
    }
    assert currentLayer[..a] == currentLayer;
  }

  /** One more destination neuron adds one more connection at the end of the fan. */
  lemma FanStep(animate: bool, neuron1: Point, next: seq<Point>, progress: real, b: nat)
    requires b < |next|
    ensures Fan(animate, neuron1, next[..b + 1], progress)
         == Fan(animate, neuron1, next[..b], progress) + [ConnectionSegment(animate, neuron1, next[b], progress)]
  {
  }

  /** The glyph loops of the renderer: one glyph per neuron, layer by layer. */
  method DrawNeurons(coords: seq<seq<Point>>) returns (glyphs: seq<Point>)
    ensures glyphs == Flatten(coords)
  {
    glyphs := [];
    var l := 0;
    while l < |coords|
      invariant 0 <= l <= |coords|
      invariant glyphs == Flatten(coords[..l])
    {
      var layer := coords[l];
      var k := 0;
      while k < |layer|
        invariant 0 <= k <= |layer|
        invariant glyphs == Flatten(coords[..l]) + layer[..k]
      {
        assert layer[..k + 1] == layer[..k] + [layer[k]];
        glyphs := glyphs + [layer[k]];
        k := k + 1;
      }
      assert layer[..k] == layer;
      assert coords[..l + 1][..l] == coords[..l];
      l := l + 1;
    }
    assert coords[..l] == coords;
  }

  /** One frame: every connection first, then every neuron glyph on top. */
  method DrawFrame(animate: bool, coords: seq<seq<Point>>, progress: real) returns (frame: Frame)
    ensures frame == FrameOf(animate, coords, progress)
  {
    var segments := DrawConnections(animate, coords, progress);
    var glyphs := DrawNeurons(coords);
    frame := Frame(segments, glyphs);
  }
}
