# Neural network diagram: layout, frames and animation state

This project models the logic of a canvas front-end that draws a feed-forward
network diagram (`app.js`): the statistics panel, the layout of neuron centres,
the contents of one frame (connection segments, then neuron glyphs), the
animation state machine of the visualizer, and the +/- counter of the form.
Coordinates and progress are exact `real`s; a frame is the data it would draw,
not canvas calls.

Modules, one per component:

- `Stats` (`stats.dfy`): `Sum` (the `reduce` over the layer counts), `Connections`
  (the sum of products of adjacent counts), `Complexity`, and the loop `CalculateStats`.
- `LayoutEngine` (`layout.dfy`): `Point`, the constants radius 20 and gap 50
  (pitch 90), the specification `Layout` and the loop `ComputeLayout`, with the
  geometry lemmas.
- `Frames` (`frames.dfy`): `Segment`, `Frame`, `ConnectionSegment` (the endpoint and
  opacity arithmetic of `drawConnection`), the specification `FrameOf` and the loops
  `DrawConnections` (with the two inner loops of one layer pair in `DrawLayerPair`),
  `DrawNeurons`, `DrawFrame`, with the counting and order lemmas.
- `Visualization` (`visualizer.dfy`): the class `NeuralNetworkVisualizer` with the
  fields `animateConnections`, `isAnimating`, `connectionProgress`, the canvas size and
  `runCoords`, the coordinates captured by the frame callback of a run. Its ghost field
  `increments` counts the steps of the current run; `Valid()` ties the progress to
  `increments * 0.03` with at most 34 steps. Browser frame scheduling is replaced by the
  caller calling `Tick` again while `isAnimating` is true; `Animate` is such a caller.
- `Controls` (`controls.dfy`): the +/- button counter.

Behaviour of the code worth knowing:

- When a render request starts a run, the code calls the frame callback at once
  (app.js:151). So when `Draw` returns, the first frame (progress 0) has been drawn and the
  progress is already 0.03. `Draw`'s contract states that post-state.
- The progress is reset to 0 only when a run starts, not on every render request.
  With animation on, a request during a run is dropped. It draws nothing, and the run keeps
  its own captured coordinates and progress. With animation off, a request during a run
  still draws one static frame of its own layout (app.js:152-178), and the run goes on with
  its captured coordinates.
- One might expect the last animated frame to be drawn at progress 1, where it equals the
  static frame. The code draws it at 34 · 0.03 = 1.02, so the line runs 2% past its
  destination and its opacity is 0.612. `FrameAtFullProgress` proves that a frame at exactly 1 equals
  the static frame. `LastFrameNotStatic` proves that the last frame the code actually draws
  does not, for every layout with at least one connection (a layout without connections
  draws the same frame either way). `LastFrameOvershoots` shows the overshoot on two
  neurons.
- `drawConnection` reads the animation option at the time it draws, not the value from
  when the run started. If the option is switched off during a run, the frames left in that
  run draw full-length lines at opacity `progress * 0.6`. `Tick` draws with the current
  value of `animateConnections`.
- A count ≤ 0 produces an empty layer, but the statistics still add the raw count.
  `FrameMatchesStats` proves that frame and statistics agree when no count is negative.
  `NegativeCountsDisagree` gives `[-1, -1]` as an input where they do not.

## Model

| member | source | states |
|---|---|---|
| `Stats.Complexity` | app.js:80-81 | the label is "Complex" iff connections > 100, "Moderate" iff 50 < connections ≤ 100, "Basic" iff connections ≤ 50 |
| `Stats.ComplexityMonotone` | app.js:80-81 | more connections never give a lower label |
| `Stats.ComplexityBoundaries` | app.js:80-81 | the thresholds are strict: 50 is Basic, 51 and 100 Moderate, 101 Complex |
| `Stats.Sum` | app.js:70 | the neuron total is not negative for counts that are not negative, and at least the number of layers when every count is at least 1 |
| `Stats.Connections` | app.js:71-75 | the connection total is not negative for counts that are not negative, and at least one per adjacent pair when every count is at least 1 |
| `Stats.SumAppend` | app.js:70 | the accumulated neuron total of a concatenation is the sum of the totals of the parts |
| `Stats.SumFront` | app.js:70 | the left-to-right accumulation equals the sum taken from the first layer on |
| `Stats.ConnectionsFront` | app.js:73-75 | the connection total is the first pair's product plus the total of the remaining layers |
| `Stats.StatsExample` | app.js:69-81 | `[4, 3, 2]` gives 9 neurons, 18 connections, "Basic" |
| `Stats.CalculateStats` | app.js:69-83 | the reported neuron total is the sum of the counts, the connection total is the sum of adjacent products (0 below two layers), the label is the complexity of that total |
| `LayoutEngine.Column` | app.js:96-107 | layer i holds `max(count, 0)` points, all at the layer's x, neighbours 90 apart in y, first y + last y = height |
| `LayoutEngine.Layout` | app.js:95-108 | one list of points per layer, in order, with exactly `max(count, 0)` points in layer i |
| `LayoutEngine.ComputeLayout` | app.js:88-108 | the push loops build exactly the layout specification |
| `LayoutEngine.ColumnsOrdered` | app.js:88-96 | with a positive width, x is strictly increasing from layer to layer and stays strictly inside (0, width) |
| `LayoutEngine.SameColumn` | app.js:88-104 | every point of layer i has x = width / (n + 1) · (i + 1) |
| `LayoutEngine.NeighbourDistance` | app.js:89-104 | neighbouring neurons of a layer differ in y by exactly 90 |
| `LayoutEngine.Centred` | app.js:97-104 | in a non-empty layer, first y + last y = height |
| `LayoutEngine.LayoutExample` | app.js:88-108 | `[2, 3, 1]` on 300 × 200 gives columns at 75, 150, 225, each centred on y = 100 |
| `Frames.ConnectionSegment` | app.js:52-67 | a segment starts at the source; static segments end at the destination; animated ones end at the source at 0 and at the destination at 1; opacity within [0, 0.6] for progress in [0, 1] |
| `Frames.EndpointBetween` | app.js:56-59 | for progress in [0, 1] the animated endpoint lies between source and destination in x and in y |
| `Frames.EndpointOvershoots` | app.js:56-59 | for progress above 1 the animated endpoint lies past the destination in every coordinate where source and destination differ, on the far side from the source |
| `Frames.PairSegmentsAt` | app.js:118-131 | a layer pair draws |current| · |next| segments, and the one from neuron j to neuron k is number j · |next| + k (source-major order) |
| `Frames.Fan` | app.js:123-129 | one segment per destination neuron, each starting at the source neuron; static segments end at their destination, in order |
| `Frames.PairSegments` | app.js:122-130 | a layer pair draws one segment per (source, destination) pair, each starting at a neuron of the source layer |
| `Frames.FrameSegments` | app.js:118-131 | a frame draws as many segments as the connection total of the layer sizes it draws |
| `Frames.Flatten` | app.js:134-142 | a frame draws as many glyphs as the neuron total of the layer sizes it draws |
| `Frames.FlattenContains` | app.js:134-142 | every neuron of every layer gets a glyph |
| `Frames.FrameOf` | app.js:118-142 | a frame holds the connection total of its layer sizes in segments and their neuron total in glyphs |
| `Frames.LayoutSizes` | app.js:95-108 | for counts ≥ 0 the layer sizes of the layout are the counts themselves |
| `Frames.FrameMatchesStats` | app.js:69-75 | for counts ≥ 0 a frame of the layout draws exactly `totalConnections` segments and `totalNeurons` glyphs |
| `Frames.NegativeCountsDisagree` | app.js:101-107 | `[-1, -1]` draws no segment and no glyph while the statistics report 1 connection and -2 neurons |
| `Frames.PairSegmentsAlpha` | app.js:64 | every segment of a layer pair has opacity progress · 0.6 |
| `Frames.FrameSegmentsAlpha` | app.js:118-131 | every segment the connection loops draw has the opacity progress · 0.6 set at app.js:64 |
| `Frames.FanAtFullProgress` | app.js:56-64 | at progress 1 the animated segments from one neuron equal the static ones |
| `Frames.PairSegmentsAtFullProgress` | app.js:154-167 | at progress 1 an animated layer pair equals the static one |
| `Frames.FrameSegmentsAtFullProgress` | app.js:154-167 | at progress 1 all animated segments equal the static ones |
| `Frames.FrameAtFullProgress` | app.js:152-178 | an animated frame at progress exactly 1 is the static frame |
| `Frames.DrawConnections` | app.js:118-131 | the nested connection loops produce exactly the frame's segment list |
| `Frames.DrawLayerPair` | app.js:122-130 | the two inner loops produce exactly the segments of one layer pair, source neuron by source neuron |
| `Frames.DrawNeurons` | app.js:134-142 | the glyph loops produce exactly the neuron centres, layer by layer |
| `Frames.DrawFrame` | app.js:114-142 | one frame is all connections, then all glyphs, as the frame specification says |
| `Visualization.ProgressBelowOne` | app.js:144-145 | after k steps of 0.03 the progress is below 1 iff k < 34 |
| `Visualization.LastProgress` | app.js:144-149 | the last step of a run reaches exactly 1.02; the one before reaches 0.99 |
| `Visualization.LastFrameOvershoots` | app.js:144-149 | with one neuron in each of two layers, the second to the right of the first: the last frame's line overshoots its destination, its opacity is 0.612, and the frame is not the static one |
| `Visualization.LastFrameNotStatic` | app.js:144-149 | for every layout with at least one connection, every segment of the last frame of a run has opacity 0.612, so that frame is not the static frame |
| `Visualization.NeuralNetworkVisualizer.constructor` | app.js:15-21 | a new visualizer has animation on, no run going and progress 0 |
| `Visualization.NeuralNetworkVisualizer.Resize` | app.js:27-31 | the canvas takes the container's size and nothing else changes |
| `Visualization.NeuralNetworkVisualizer.Tick` | app.js:114-150 | draws the captured coordinates at the current progress; below 1 it adds 0.03 and keeps running, otherwise it stops the run and leaves the progress unchanged |
| `Visualization.NeuralNetworkVisualizer.Draw` | app.js:85-179 | animation on with no run going: the run captures the new layout and the first frame is drawn at progress 0, leaving 0.03. Animation on during a run: nothing is drawn or changed. Animation off: one static frame of the new layout, animation state unchanged |
| `Visualization.NeuralNetworkVisualizer.AnimationToggled` | app.js:254-257 | sets the option, then behaves as a render request under the new option |
| `Visualization.NeuralNetworkVisualizer.Animate` | app.js:111-151 | a started run draws exactly 35 frames, frame k at progress k · 0.03. It then stops with progress 1.02 and makes no further increment |
| `Controls.Click` | app.js:192-198 | increase adds one; decrease changes the value iff it is above 1; the value moves by at most one |
| `Controls.ClickKeepsPositive` | app.js:194-198 | a value of at least 1 stays at least 1 |
| `Controls.DecreaseUndoesIncrease` | app.js:194-198 | decrease after increase restores a value of at least 1 |
| `Controls.IncreaseUndoesDecrease` | app.js:194-198 | increase after decrease restores a value above 1 |

## Left out

- Canvas rendering: the gradients, glow, outline and arc of the neuron glyph, line width, and every `clearRect` (app.js:33-50, 86, 115). A frame is the data it draws. So the model does not capture that a request dropped during a run still blanks the canvas until the next frame.
- The random "active" colouring of glyphs (app.js:139, 175). It is cosmetic and nondeterministic, and a glyph is only its centre.
- `requestAnimationFrame` (app.js:146). It is replaced by the caller calling `Tick` again while `isAnimating` is true, so no concurrency is modelled.
- The theme toggle (app.js:1-11) and the grid toggle with its `showGrid` field (app.js:19, 260-267). They only switch CSS classes.
- `updateHiddenLayersInputs` (app.js:207-251). It only builds form elements.
- Reading the container size in `resizeCanvas` and the resize listener (app.js:24, 28). The size is a parameter of `Resize`.
- `getCurrentLayers` and `parseInt` on form fields (app.js:270-281), including NaN from an empty field. Layer counts arrive as `seq<int>`. `Controls.Click` takes the parsed value as an `int`, so NaN is not modelled. The form handler (app.js:284-289) only calls the statistics and then a render request.
- Writing the statistics to the page (app.js:77-78, 82). `CalculateStats` returns them.
- IEEE-754 doubles. Coordinates, opacity and progress are exact reals, and counts and sums are unbounded integers. In doubles, the 0.03 steps also cross 1 at the 34th increment.
