/**
  The layout engine of the visualizer: the position of every neuron glyph, computed
  from the layer counts and the canvas size. Coordinates are exact reals.
 */
module LayoutEngine {

  /** A neuron centre on the canvas. */
  datatype Point = Point(x: real, y: real)

  /** Radius of a neuron glyph. */
  const Radius: real := 20.0
  /** Free space between two neighbouring glyphs of one layer. */
  const VerticalSpacing: real := 50.0
  /** Centre-to-centre distance of neighbouring neurons in one layer: 2 * 20 + 50 = 90. */
  const Pitch: real := 2.0 * Radius + VerticalSpacing

  /** The number of neurons placed in a layer: the count itself, and none for a count <= 0. */
  function Count(neurons: int): nat
  {
    if neurons > 0 then neurons else 0
  }

  /** The x of layer `layerIndex`: `width / (layerCount + 1) * (layerIndex + 1)`. */
  function LayerX(width: nat, layerCount: nat, layerIndex: nat): real
  {
    width as real / (layerCount + 1) as real * (layerIndex + 1) as real
  }

  /** The y of the first neuron of a layer: half of what the stack leaves of the height. */
  function StartY(height: nat, neurons: int): real
  {
    (height as real - (neurons - 1) as real * Pitch) / 2.0
  }

  /**
    The neurons of layer `i`, top to bottom: as many as its count, on one vertical line,
    90 apart, and centred on half the height.
   */
  function Column(layers: seq<int>, width: nat, height: nat, i: nat): (col: seq<Point>)
    requires i < |layers|
    ensures |col| == Count(layers[i])
    ensures forall k :: 0 <= k < |col| ==> col[k].x == LayerX(width, |layers|, i)
    ensures forall k :: 0 <= k < |col| - 1 ==> col[k + 1].y - col[k].y == Pitch
    ensures |col| > 0 ==> col[0].y + col[|col| - 1].y == height as real
  {
    seq(Count(layers[i]), k => Point(LayerX(width, |layers|, i), StartY(height, layers[i]) + k as real * Pitch))
  }

  /** The coordinates of every neuron, indexed by layer and then by neuron. */
  function Layout(layers: seq<int>, width: nat, height: nat): (coords: seq<seq<Point>>)
    ensures |coords| == |layers|
    ensures forall i :: 0 <= i < |layers| ==> |coords[i]| == Count(layers[i])
  {
    seq(|layers|, i requires 0 <= i < |layers| => Column(layers, width, height, i))
  }

  /**
    The coordinate loop of the renderer: one list of points per layer, pushed in order,
    one point per neuron.
   */
  method ComputeLayout(layers: seq<int>, width: nat, height: nat) returns (coords: seq<seq<Point>>)
    ensures coords == Layout(layers, width, height)
  {
    var layerSpacing := width as real / (|layers| + 1) as real;
    coords := [];
    var layerIndex := 0;
    while layerIndex < |layers|
      invariant 0 <= layerIndex <= |layers|
      invariant |coords| == layerIndex
      invariant forall j :: 0 <= j < layerIndex ==> coords[j] == Column(layers, width, height, j)
    {
      var neurons := layers[layerIndex];
      var layerX := layerSpacing * (layerIndex + 1) as real;
      var totalHeight := (neurons - 1) as real * (2.0 * Radius + VerticalSpacing);
      var startY := (height as real - totalHeight) / 2.0;
      var layerNeurons: seq<Point> := [];
      var i := 0;
      while i < neurons
        invariant 0 <= i <= Count(neurons)
        invariant |layerNeurons| == i
        invariant forall m :: 0 <= m < i ==> layerNeurons[m] == Point(layerX, startY + m as real * Pitch)
      {
        layerNeurons := layerNeurons + [Point(layerX, startY + i as real * (2.0 * Radius + VerticalSpacing))];
        i := i + 1;
      }
      assert |layerNeurons| == Count(layers[layerIndex]);
      assert forall m :: 0 <= m < |layerNeurons| ==> layerNeurons[m] == Column(layers, width, height, layerIndex)[m];
      assert layerNeurons == Column(layers, width, height, layerIndex);
      coords := coords + [layerNeurons];
      layerIndex := layerIndex + 1;
    }
  }

  /** A positive factor keeps a strict order. */
  lemma ScaleStrict(s: real, a: real, b: real)
    requires s > 0.0 && a < b
    ensures s * a < s * b
  {
  }

  /**
    Layers are columns left to right: all points of a layer share one x, and with a positive
    width every point of a later layer lies strictly to the right, inside `(0, width)`.
   */
  lemma ColumnsOrdered(layers: seq<int>, width: nat, height: nat, i: nat, j: nat, a: nat, b: nat)
    requires i < j < |layers|
    requires a < Count(layers[i]) && b < Count(layers[j])
    requires width > 0
    ensures 0.0 < Layout(layers, width, height)[i][a].x < Layout(layers, width, height)[j][b].x < width as real
  {
    var coords: seq<seq<Point>> := Layout(layers, width, height);
    var n := |layers|;
    var spacing := width as real / (n + 1) as real;
    assert spacing > 0.0;
    assert coords[i][a].x == spacing * (i + 1) as real;
    assert coords[j][b].x == spacing * (j + 1) as real;
    ScaleStrict(spacing, 0.0, (i + 1) as real);
    ScaleStrict(spacing, (i + 1) as real, (j + 1) as real);
    ScaleStrict(spacing, (j + 1) as real, (n + 1) as real);
    assert spacing * (n + 1) as real == width as real;
  }

  /** Every point of a layer has that layer's x. */
  lemma SameColumn(layers: seq<int>, width: nat, height: nat, i: nat, a: nat)
    requires i < |layers| && a < Count(layers[i])
    ensures Layout(layers, width, height)[i][a].x == width as real / (|layers| + 1) as real * (i + 1) as real
  {
  }

  /** Neighbouring neurons of one layer are exactly 90 apart, top to bottom. */
  lemma NeighbourDistance(layers: seq<int>, width: nat, height: nat, i: nat, k: nat)
    requires i < |layers| && k + 1 < Count(layers[i])
    ensures Layout(layers, width, height)[i][k + 1].y - Layout(layers, width, height)[i][k].y == 90.0
  {
  }

  /** A non-empty layer is centred: its first and last y add up to the height. */
  lemma Centred(layers: seq<int>, width: nat, height: nat, i: nat)
    requires i < |layers| && Count(layers[i]) > 0
    ensures var column := Layout(layers, width, height)[i];
            column[0].y + column[|column| - 1].y == height as real
  {
  }

  /** `[2, 3, 1]` on a 300 by 200 canvas: columns at 75, 150 and 225, each centred on y = 100. */
  lemma LayoutExample()
    ensures var coords := Layout([2, 3, 1], 300, 200);
            coords == [[Point(75.0, 55.0), Point(75.0, 145.0)],
                       [Point(150.0, 10.0), Point(150.0, 100.0), Point(150.0, 190.0)],
                       [Point(225.0, 100.0)]]
  {
    var coords := Layout([2, 3, 1], 300, 200);
    assert coords[0] == [Point(75.0, 55.0), Point(75.0, 145.0)];
    assert coords[1] == [Point(150.0, 10.0), Point(150.0, 100.0), Point(150.0, 190.0)];
    assert coords[2] == [Point(225.0, 100.0)];
  }
}
