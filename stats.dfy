/**
  The statistics panel of the visualizer: the total number of neurons, the total
  number of connections between adjacent layers, and a three-bucket complexity label.
 */
module Stats {

  /** The three values written to the statistics panel. */
  datatype Summary = Summary(totalNeurons: int, totalConnections: int, complexity: string)

  /**
    The sum of the layer counts, accumulated from the left as a `reduce` starting at 0 does.
    Counts that are not negative give a total that is not negative, and counts of at least
    one neuron each give at least one neuron per layer.
   */
  function Sum(layers: seq<int>): (total: int)
    ensures (forall i :: 0 <= i < |layers| ==> layers[i] >= 0) ==> total >= 0
    ensures (forall i :: 0 <= i < |layers| ==> layers[i] >= 1) ==> total >= |layers|
  {
    if layers == [] then 0 else Sum(layers[..|layers| - 1]) + layers[|layers| - 1]
  }

  /**
    The sum of `layers[i] * layers[i + 1]` over every adjacent pair, accumulated from the
    left; 0 when there are fewer than two layers.
   */
  function Connections(layers: seq<int>): (total: int)
    ensures (forall i :: 0 <= i < |layers| ==> layers[i] >= 0) ==> total >= 0
    ensures |layers| > 0 && (forall i :: 0 <= i < |layers| ==> layers[i] >= 1) ==> total >= |layers| - 1
  {
    if |layers| < 2 then 0
    else
      var n := |layers|;
      assert layers[n - 2] >= 1 && layers[n - 1] >= 1 ==> layers[n - 2] * layers[n - 1] >= 1;
      assert layers[n - 2] >= 0 && layers[n - 1] >= 0 ==> layers[n - 2] * layers[n - 1] >= 0;
      Connections(layers[..n - 1]) + layers[n - 2] * layers[n - 1]
  }

  /** The smaller of two numbers. */
  function Min(a: int, b: int): int
  {
    if a <= b then a else b
  }

  /** The complexity label: strictly above 100 is complex, strictly above 50 is moderate. */
  function Complexity(connections: int): (tag: string)
    ensures tag == "Complex" <==> connections > 100
    ensures tag == "Moderate" <==> 50 < connections <= 100
    ensures tag == "Basic" <==> connections <= 50
  {
    if connections > 100 then "Complex"
    else if connections > 50 then "Moderate"
    else "Basic"
  }

  /** The position of a label in the order Basic < Moderate < Complex. */
  function Rank(tag: string): nat
  {
    if tag == "Complex" then 2 else if tag == "Moderate" then 1 else 0
  }

  /** More connections never give a lower complexity label. */
  lemma ComplexityMonotone(a: int, b: int)
    requires a <= b
    ensures Rank(Complexity(a)) <= Rank(Complexity(b))
  {
  }

  /** The thresholds are strict: 100 is still moderate and 50 is still basic. */
  lemma ComplexityBoundaries()
    ensures Complexity(50) == "Basic" && Complexity(51) == "Moderate"
    ensures Complexity(100) == "Moderate" && Complexity(101) == "Complex"
  {
  }

  /** Summing a concatenation sums the parts. */
  lemma {:induction false} SumAppend(a: seq<int>, b: seq<int>)
    ensures Sum(a + b) == Sum(a) + Sum(b)
  {
    if b == [] {
      assert a + b == a;
    } else {
      var rest := b[..|b| - 1];
      assert (a + b)[..|a + b| - 1] == a + rest;
      SumAppend(a, rest);
    }
  }

  /** The left-to-right accumulation agrees with the sum taken from the front. */
  lemma SumFront(layers: seq<int>)
    requires |layers| > 0
    ensures Sum(layers) == layers[0] + Sum(layers[1..])
  {
    assert layers == [layers[0]] + layers[1..];
    SumAppend([layers[0]], layers[1..]);
    assert Sum([layers[0]]) == Sum([]) + layers[0] by {
      assert [layers[0]][..0] == [];
    }
  }

  /** The connection count taken from the front: the first pair plus the pairs of the rest. */
  lemma {:induction false} ConnectionsFront(layers: seq<int>)
    requires |layers| >= 2
    ensures Connections(layers) == layers[0] * layers[1] + Connections(layers[1..])
  {
    var n := |layers|;
    if n == 2 {
      assert Connections(layers[..1]) == 0;
      assert Connections(layers[1..]) == 0;
    } else {
      var init := layers[..n - 1];
      ConnectionsFront(init);
      assert init[1..] == layers[1..][..n - 2];
    }
  }

  /** The statistics of `[4, 3, 2]`: 9 neurons, 4*3 + 3*2 = 18 connections, "Basic". */
  lemma StatsExample()
    ensures Sum([4, 3, 2]) == 9
    ensures Connections([4, 3, 2]) == 18
    ensures Complexity(Connections([4, 3, 2])) == "Basic"
  {
    assert [4, 3, 2][..2] == [4, 3];
    assert [4, 3][..1] == [4];
    assert [4][..0] == [];
  }

  /**
    The statistics calculator: the neuron total is the `reduce` sum, the connection
    total is accumulated by a loop over the adjacent pairs, and the label is chosen from it.
   */
  method CalculateStats(layers: seq<int>) returns (stats: Summary)
    ensures stats.totalNeurons == Sum(layers)
    ensures stats.totalConnections == Connections(layers)
    ensures stats.complexity == Complexity(Connections(layers))
  {
    var totalNeurons := Sum(layers);
    var totalConnections := 0;
    var i := 0;
    while i < |layers| - 1
      invariant 0 <= i <= |layers|
      invariant totalConnections == Connections(layers[..Min(i + 1, |layers|)])
    {
      assert layers[..i + 2][..i + 1] == layers[..i + 1];
      totalConnections := totalConnections + layers[i] * layers[i + 1];
      i := i + 1;
    }
    assert layers[..Min(i + 1, |layers|)] == layers;
    stats := Summary(totalNeurons, totalConnections, Complexity(totalConnections));
  }
}
