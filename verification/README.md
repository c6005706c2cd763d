# Verified model of the fused training kernels

This Dafny project models the fused forward and backward kernels that the repository emits for its Mamba3, M2RNN,
sparse-attention and RMSNorm bricks, and its hand-written chunk-scan backward ("B2") kernels. It proves that the
backward kernels leave the derivative of the loss, that checkpointing, replay, ring histories, lane reductions, staging
and atomic scatter change nothing, and a number of conservation laws and bounds. All sizes are parameters: rows, widths,
heads, groups, ranks, state size, checkpoint interval, lanes, window.

`dafny verify dfyconfig.toml` checks everything.

## How it is built

Every component has the same five layers.

- A *model* (`MambaModel`, `RnnModel` and `RnnBlockModel`, `ChunkModel`, `AttentionModel`, `RotaryProjection` and
  `AttentionLayer`): the launch's immutable inputs, and the value every row computes as a function of them.
- A *linearised forward pass* (`MambaTangent`, the tangents in `RnnGradient`, `RnnBlockGradient`, `RotaryProjection`
  and `AttentionLayer`, `ChunkReal`, `AttentionAdjoint`, `RmsNorm`): the product and chain rule applied to the model.
- The *derivatives* (`MambaSlopes`, `MambaGroupSlopes`, `MambaRotationSlopes`, `MambaScanSlopes`, `RnnSlopes`,
  `RnnBlockSlopes`, `RmsNormSlopes`, `RotarySlopes`, `AttentionSlopes`, `ChunkSlopes`): the linearised pass is the
  derivative of the model, in the sense of limits of difference quotients. `Slopes` defines the derivative at zero of a
  function of one real variable and proves its uniqueness and the rules for sums, products, reciprocals, compositions and
  minima; `FunctionSlopes` applies them to the scalar functions. `MambaPaths`, `RnnPaths`, `RnnBlockPaths` and
  `AttentionPaths` say what a differentiable path of inputs and parameters is, and that there is one in every direction.
  `MambaDerivative`, `RnnBlockDerivative`, `AttentionDerivative` and `ChunkDerivative` put the parts together: along every
  such path the loss moves, to first order, by the pairing of the velocity with the gradients that the backward kernel
  leaves. `MambaLaws` and `RnnLaws`, and the last parts of `RmsNormSlopes` and `RotarySlopes`, say what the forward values
  are without repeating their definitions: the scan in closed form, the equation each activation solves, what happens at
  zero.
- The *gradients* the backward code accumulates (`MambaGradient`, `RnnGradient`, ...), and the proof that they are the
  adjoint of the linearised pass: for every upstream gradient and every perturbation, pairing outputs equals pairing
  gradients. For the recurrences the proof is an induction over the reverse loop with the carried cotangents in its
  invariant.
- The *kernels* (`MambaRowKernel`, `MambaBackward*`, `MambaForward`, `MambaTraining`, `RnnKernel`, `RnnBackward*`,
  `RnnBlockKernel`, `RnnBlockForward`, `RnnBlockBackward*`, `RnnBlockTraining`, `ChunkKernel`, `ChunkAtomics`,
  `AttentionKernel`, `AttentionBackward`, `AttentionLayerForward`, `AttentionLayerBackward`, `RotaryKernel`,
  `AttentionTraining`,
  `LaneReduction`, `RmsNorm`, `RingHistory`): methods over mutable arrays that follow the source's loops, updating in
  place, scattering and accumulating. Their postconditions equate the final arrays with the gradient functions the
  adjoint theorems are about.

`Sums`, `Stages`, `ProjectionSegments`, `Losses`, `Indices`, `Buffers`, `AnyOrder`, `Additions` and `Functions` hold the
shared algebra of finite sums, the adjoint identities of the building blocks and of dense projections, losses and how they
move, the arithmetic of flat indices and checkpoint slots, array predicates and additions, order-independence, programs of
additions, and the scalar functions.

The M2RNN block and the attention layer are built in two storeys: the recurrence (`Rnn*`) and one head's softmax
(`Attention*`) are proved for arbitrary inputs and upstream gradients, and the block and the layer instantiate them
with what their projections, convolution, gate, norm and output projection compute.

Atomic additions are modelled by an arbitrary permutation of the contributions. For the Mamba3 backward, whose lanes
add to shared buffers between barriers, `MambaAdditions` lists every stage's additions and `MambaLanes` is a state
machine that performs them one at a time, any pending one next; its invariant holds in every reachable state.
`MambaLaneBuffers` compares where it ends with the arrays of the one-lane loop.

In `ChunkModel` and `ChunkKernel` the arithmetic is uninterpreted (operations need not be associative or commutative), so equal results there mean the same
terms in the same order; the adjoint results instantiate it with the reals.

## What is assumed

Arithmetic is over the reals, and exp, log, rsqrt, sin, cos, tanh and exp2 are uninterpreted. Facts about them appear
only as hypotheses of the members that need them:

- exp is positive (a type constraint, so that the sigmoid is defined);
- `Contracting`: exp is below 1 on negative numbers and softplus is positive, for the bounds and the tanh recovery;
- `UnitTanh`: tanh stays within [-1, 1], for the M2RNN bound;
- `Healthy`: exp is non-negative, exp(0) = 1 and a row's score against itself is above the sentinel, for the attention
  guards and the order-free backward;
- `Scales` and `Unscales`: exp turns differences into quotients and log takes a scale back out, for the meaning of the
  stored log-sum-exp;
- `Saved`: the chunk block's saved `y` and `cb` are the ones its forward pass computes;
- `cos^2 + sin^2 = 1`, for the inverse rotation and the length of a rotated pair only;
- `Smooth`, for the derivatives of the Mamba3 and M2RNN blocks: exp is its own slope and `exp(x) exp(-x) = 1`, log has
  slope 1/x and rsqrt -rsqrt^3/2 at positive x, cos has slope -sin and sin cos, tanh has slope 1 - tanh^2;
- `Turns` and `Exponential`, for the derivative of the attention layer: the same of cos and sin, and an exp that is
  positive, its own slope, and turns differences into quotients;
- `Arithmetic`, for the derivative of the chunk block: the operations are those of the reals, exp is positive and its own
  slope, and so is exp2 once its exponent is scaled by log2 e;
- `AllSettled`, for the derivative of the Mamba3 block: a decay of the run that lies exactly at the corner of its clamp
  does not move to first order;
- `Additive` (exp turns sums into products), `Undoes` (exp undoes log), `RootLaw` (`rsqrt(x)^2 x = 1` for positive x),
  `Addition` (cosine and sine of a sum) and the values of exp, cos, sin and tanh at zero, for the laws that name them.

## Where the code is followed closely

- Only the first `groups` heads' running angles are read by a rotation, because the rotation indexes the angle table
  by group; the other heads' angles still receive their (zero) gradients.
- The decay's gradient flows only where the unclamped branch is strictly below -0.01, as the backward kernel's guard
  says. At the corner itself the guarded gradient is the decay's derivative if and only if the projection stands still
  (`MambaSlopes.DecayExactly`).
- The segment scatter masks strictly (`s < l`) while `DYX` keeps the diagonal.
- The forward attention kernel counts absent slots in its sum of exponentials and the backward kernel does not; the
  two agree only under the exact condition of `AttentionModel.SumsAgree`.

## Model

| member | source | states |
|---|---|---|
| MambaAdjoint.BackwardIsAdjoint | reports/path_c_fusion_generated.py:1121-1446 | For every upstream gradient and every perturbation of the hidden rows, of all eleven parameters and of the initial state, over any number of rows: the upstream gradient paired with the linearised output equals the accumulated gradients, and the final `dh`, paired with the perturbations. |
| MambaDerivative.BackwardIsDerivative | reports/path_c_fusion_generated.py:1121-1446 | The gradients are the derivative of the loss: along every path of the hidden rows, the parameters and the initial state that starts at the block with velocity `d`, and that moves no decay at the corner of its clamp to first order, the difference quotients of the loss converge to the pairing of `d` with the accumulated gradients and the final `dh`. |
| MambaScanSlopes.OutSlope | reports/path_c_fusion_production_smoke_source.py:143-234 | Every output moves, to first order, by its tangent, along every such path: `TOut` is the derivative of `Out`. |
| MambaScanSlopes.GatedSlope | reports/path_c_fusion_generated.py:1308-1309 | The gated feature `y * z * sigmoid(z)` moves by its tangent. |
| MambaScanSlopes.ScanOutSlope | reports/path_c_fusion_generated.py:1303-1307 | Readout and skip connection move by their tangent. |
| MambaScanSlopes.StateSlope | reports/path_c_fusion_generated.py:1298-1306 | The state after any number of rows moves by its tangent. |
| MambaScanSlopes.KeepSlope | reports/path_c_fusion_generated.py:1304 | The decay factor moves by its tangent. |
| MambaRotationSlopes.RotSlope | reports/path_c_fusion_generated.py:1286-1297 | Every component of the rotated B and C, of a pair or not, moves by its tangent, the running angle included. |
| MambaGroupSlopes.MeanSlope | reports/path_c_fusion_generated.py:1274-1285 | The rank mean of B and of C moves by its tangent: channels, inverse root mean squares, scales and biases. |
| MambaGroupSlopes.InvRmsSlope | reports/path_c_fusion_generated.py:1264-1273 | The inverse root mean square moves by its tangent. |
| MambaGroupSlopes.TrapSlope | reports/path_c_fusion_generated.py:1256-1263 | The trapezoid weight moves by its tangent, this row and the look-ahead to the next included. |
| MambaSlopes.ConvSlope | reports/path_c_fusion_generated.py:1227-1241 | The convolution with its activation moves by its tangent. |
| MambaSlopes.DtSlope | reports/path_c_fusion_generated.py:1242-1243 | The softplus step moves by its tangent. |
| MambaSlopes.DecaySlope | reports/path_c_fusion_generated.py:1416-1417 | Off the corner of its clamp the decay moves by its tangent: minus the sigmoid below -0.01, nothing above. |
| MambaSlopes.DecayExactly | reports/path_c_fusion_generated.py:1416-1417 | The guarded tangent is the decay's derivative if and only if the decay is off the corner of its clamp or its projection stands still to first order. |
| MambaSlopes.AngleSlope | reports/path_c_fusion_generated.py:1245-1246 | The running angle moves by its tangent. |
| MambaSlopes.ProjSlope | reports/path_c_fusion_generated.py:1222-1226 | The projection moves by its tangent. |
| FunctionSlopes.DSigmoidLaw | reports/path_c_fusion_generated.py:1398-1402 | The slope factor of the trapezoid times `(1 + exp(-x))^2` is `exp(-x)`. |
| MambaPaths.LineIsCurve | reports/path_c_fusion_generated.py:1121-1446 | There is such a path in every direction: the straight line. |
| MambaBackward.Backward | reports/path_c_fusion_generated.py:989-1446 | The whole kernel, on arrays: all gradient buffers end holding exactly the functions that `BackwardIsAdjoint` speaks of, for every checkpoint interval of at least one. |
| MambaBackward.ReverseSweep | reports/path_c_fusion_generated.py:1121-1446 | The reverse loop alone, given checkpoints written by another kernel: the same final gradients. |
| MambaBackward.ForwardScan | reports/path_c_fusion_generated.py:1015-1120 | After the forward scan slot `s` of the `rows / interval + 1` slots holds the scan state and the running angles after `s * interval` rows; every slot is written. |
| MambaTraining.Train | reports/path_c_fusion_compile_source.py:65-1369 | Forward kernel, then backward kernel from the checkpoints the forward wrote: the outputs of every row, the same gradients as when the backward kernel scans for itself, and in every buffer what each finished run of the parallel lanes (`MambaLanes`) ends with, whatever the order of its atomic additions. |
| MambaTraining.Forward | reports/path_c_fusion_compile_source.py:65-245 | The forward kernel that writes checkpoints on the way: after row `t` all outputs up to it, the carried state, angles and ring, and every checkpoint due so far. |
| MambaTraining.StoreIfDue | reports/path_c_fusion_compile_source.py:178-245 | A checkpoint is written exactly when one is due, and earlier ones are kept. |
| MambaLanes.SweepAnyOrder | reports/path_c_fusion_compile_source.py:1016-1367 | The lanes as a machine whose steps are single atomic additions, any pending one next, and barriers: every finished run, in any order, ends with every gradient buffer holding the sum over all rows that `BackwardIsAdjoint` speaks of. |
| MambaLanes.AtBarrier | reports/path_c_fusion_compile_source.py:1226-1363 | In every run, whenever nothing is pending: the B and C group, decay and step buffers hold the scan's gradients once the scan is over, the angle section holds the heads' once they are over, and at the end of row `t` every buffer holds the gradients of the rows from `t` on. |
| MambaLanes.RunKeeps | reports/path_c_fusion_compile_source.py:1226-1363 | The invariant of every reachable machine: a cell's content plus what is still pending for it is what the row's stages so far, and the later rows, owe it. |
| MambaLanes.StepKeeps | reports/path_c_fusion_compile_source.py:1226-1363 | Each atomic addition and each barrier, with the clearing it does, keeps that invariant. |
| MambaLanes.NeverStuck | reports/path_c_fusion_compile_source.py:1016-1367 | Until the sweep is over some step is possible. |
| MambaLanes.StepAdvances | reports/path_c_fusion_compile_source.py:1016-1367 | Every step goes to an earlier row, to a later stage of its row, or leaves less pending, so no run goes on for ever. |
| MambaLanes.RowAdded | reports/path_c_fusion_compile_source.py:1226-1363 | The seven stages of a row, added to what the later rows left, make up the row's gradients at every cell. |
| MambaLanes.StageAdded | reports/path_c_fusion_compile_source.py:1226-1363 | A stage's additions, summed at any cell, are the stage's share of the row's gradient. |
| MambaLaneBuffers.LanesMatchLoop | reports/path_c_fusion_compile_source.py:1226-1363 | The memory any finished run of the lanes ends with is what the one-lane reverse loop leaves in its arrays, buffer by buffer. |
| MambaAdditions.OutTotal | reports/path_c_fusion_compile_source.py:1226-1232 | One feature's additions to the output weights. |
| MambaAdditions.ScanTotal | reports/path_c_fusion_compile_source.py:1244-1263 | One feature's additions to the skip weight of its head, to its group's B and C, and to its head's decay and step. |
| MambaAdditions.RanksTotal | reports/path_c_fusion_compile_source.py:1291-1308 | The ranks' additions reach the scale and bias of every channel of B and of C exactly once. |
| MambaAdditions.AheadTotal | reports/path_c_fusion_compile_source.py:1310-1325 | One head's look-ahead additions to the step bias, two input weight rows and the next hidden row; none after the last row. |
| MambaAdditions.HeadTotal | reports/path_c_fusion_compile_source.py:1327-1334 | One head's additions to the angle section and to its step bias. |
| MambaAdditions.ConvTotal | reports/path_c_fusion_compile_source.py:1338-1356 | One channel's additions to its bias, its three taps, its input weight row and the hidden rows its taps read, missing rows left out. |
| MambaAdditions.OwnTotal | reports/path_c_fusion_compile_source.py:1359-1362 | One projection's additions to its weights and to the row's hidden gradient. |
| MambaBackward.Replay | reports/path_c_fusion_compile_source.py:1016-1125 | Reloading the last checkpoint at or before row `t` and replaying up to `t` gives exactly the straight scan's state and angles before row `t`; the slot read is always a written one. |
| MambaBackward.RedoRow | reports/path_c_fusion_generated.py:1220-1444 | Redoing and reversing row `t` moves every buffer and both carried cotangents from "rows after `t` reversed" to "rows from `t` on reversed", and gives back the state and the angles before row `t`. |
| MambaBackward.RowBack | reports/path_c_fusion_generated.py:1310-1441 | The reversal of one row, given its recomputed values, over all gradient buffers. |
| MambaBackward.Store | reports/path_c_fusion_generated.py:1115-1120 | Storing a checkpoint keeps all earlier ones. |
| MambaBackward.Load | reports/path_c_fusion_generated.py:1123-1128 | Loading a slot gives the state and the angles of its row. |
| Indices.SlotOf | reports/path_c_fusion_generated.py:1115-1130 | A checkpoint is due exactly when the next row number opens a new slot, and a row lies fewer than `interval` rows after its slot's start. |
| Indices.SlotBound | reports/path_c_fusion_generated.py:1121-1126 | No slot beyond the last is ever read or written. |
| MambaProperties.ScatterIsGather | reports/path_c_fusion_generated.py:1399-1441 | Although other rows' iterations write to it, the hidden gradient of row `r` is its own projection's, plus the taps of the rows `r + 1` and `r + 2` that exist, plus the look-ahead of row `r - 1` if it exists. |
| MambaProperties.AngleIsPrefix | reports/path_c_fusion_generated.py:1408-1412 | The running angle is the prefix sum of the rows' steps, and subtracting a row's step restores the angle before it. |
| MambaProperties.KeepRange | reports/path_c_fusion_generated.py:173-175 | Softplus steps and the clamp of the decay at -0.01 keep the decay factor strictly between 0 and 1. |
| MambaProperties.StateBound | reports/path_c_fusion_generated.py:225-229 | Every reachable state cell is bounded by the initial cell and the sum of the sizes of what was fed into it. |
| MambaLaws.ScanUnrolled | reports/path_c_fusion_generated.py:225-229 | The recurrence in closed form: the state is the initial state and every earlier row's input, each decayed by the exponential of the sum of `decay * dt` gathered since, wherever exp turns sums into products. |
| MambaLaws.StepLaw | reports/path_c_fusion_generated.py:1242-1243 | `exp(dt) = 1 + exp(projection) exp(bias)`. |
| MambaLaws.DecayLaw | reports/path_c_fusion_generated.py:1244 | The decay never exceeds -0.01; below it `exp(-decay) = 1 + exp(projection)`; it is -0.01 exactly when the softplus is at most 0.01. |
| MambaLaws.LookAhead | reports/path_c_fusion_generated.py:1247-1255 | The look-ahead is the next row's own step and trapezoid projection, and zero after the last row. |
| MambaLaws.TrapezoidAtZero | reports/path_c_fusion_generated.py:1256-1262 | With both trapezoid projections at zero a head's weight is half the sum of the two steps. |
| MambaLaws.TrapIsMean | reports/path_c_fusion_generated.py:1256-1263 | Heads that agree on a trapezoid weight agree with their group's. |
| MambaLaws.InvRmsLaw | reports/path_c_fusion_generated.py:1264-1273 | `inv^2 (mean square + 1e-5) = 1` for every rank and group of B and of C. |
| MambaLaws.RotationKeepsLength | reports/path_c_fusion_generated.py:1286-1297 | Rotating a pair keeps its length wherever `cos^2 + sin^2 = 1`. |
| MambaLaws.UnitPair | reports/path_c_fusion_generated.py:1286-1297 | The pair (1, 0) turns to (cos, sin) of its angle. |
| MambaLaws.NoTurn | reports/path_c_fusion_generated.py:1286-1297 | A zero angle turns nothing, and the states after the last pair are passed on. |
| MambaLaws.ConvLaw | reports/path_c_fusion_generated.py:1240-1241 | A convolution channel times `1 + exp(-x)` is its argument `x`. |
| MambaLaws.GateLaw | reports/path_c_fusion_generated.py:1308-1309 | A gated feature times `1 + exp(-z)` is the scan's output times `z`. |
| MambaLaws.ZeroRowIsSilent | reports/path_c_fusion_production_smoke_source.py:143-234 | A hidden row of zeros has an output row of zeros, whatever the state holds. |
| MambaLaws.SegmentsInOrder | reports/path_c_fusion_generated.py:1242-1262 | The projection is gate, convolution, step, decay, trapezoid, angle, and the convolution x, B, C, in that order and with nothing between. |
| MambaLaws.ChannelsInOrder | reports/path_c_fusion_generated.py:1268-1270 | The channels of B, and of C, follow each other by rank, then by group, then by state. |
| MambaLaws.FeatureOf | reports/path_c_fusion_generated.py:1299-1301 | Component `i` of head `k` of group `g` is a feature of that head and that group. |
| MambaForward.Forward | reports/path_c_fusion_production_smoke_source.py:143-234 | One block over all rows, with the ring history carried in place: every output row and the last state are those of the model. |
| MambaForward.Row | reports/path_c_fusion_production_smoke_source.py:143-234 | One row: its output, and state, angles and ring moved on by one row. |
| MambaForward.Convolve | reports/path_c_fusion_production_smoke_source.py:154-159 | The convolution read off the ring is the model's. |
| MambaForward.RingIsRecomputation | reports/path_c_fusion_generated.py:1032-1046 | The ring's convolution is the one the backward kernel recomputes from the hidden rows, with zeros before the first row. |
| MambaForward.OutProject | reports/path_c_fusion_generated.py:234-238 | The output projection of one row; the other rows are untouched. |
| MambaAdjoint.Suffix | reports/path_c_fusion_generated.py:1121-1444 | The invariant of the duality proof: once the rows from `t` on are reversed, their outputs' pairing equals their gradients' pairing plus the carried cotangents paired with the tangents of the state and angles before row `t`. |
| MambaRowAdjoint.RowStage | reports/path_c_fusion_generated.py:1310-1441 | One iteration: the row's output pairing and the incoming carried cotangents turn into the row's projection, tap and look-ahead gradients, its parameter terms and the outgoing carried cotangents. |
| MambaRowAdjoint.OutStage | reports/path_c_fusion_generated.py:1314-1319 | The output projection and its reversal are dual. |
| MambaRowAdjoint.GateStage | reports/path_c_fusion_generated.py:1334-1337 | The gate `y * z * sigmoid(z)` and its reversal are dual. |
| MambaScanAdjoint.ScanStage | reports/path_c_fusion_generated.py:1330-1348 | The state update, readout and skip connection of a row are dual to what the scan loop accumulates, the state cotangent carried over included. |
| MambaRotationAdjoint.BRotStage | reports/path_c_fusion_generated.py:1349-1370 | The rotation of B is dual to its un-rotation and the angle derivative. |
| MambaRotationAdjoint.CRotStage | reports/path_c_fusion_generated.py:1349-1370 | The rotation of C is dual to its un-rotation and the angle derivative. |
| MambaRotationAdjoint.AngleStage | reports/path_c_fusion_generated.py:1408-1411 | The result for the angles: the carried angle gradient against the running sum's move is its value on the angle projection, on the step size, and on the angle before the row, where it is carried on. |
| MambaNormAdjoint.MeanStage | reports/path_c_fusion_generated.py:1374-1391 | The mean over ranks of the normalised, scaled and shifted channels is dual to the channel, scale and bias gradients, for B and for C. |
| MambaHeadAdjoint.BRawStage | reports/path_c_fusion_generated.py:1371-1373 | The product of the B mean and the trapezoid weight is dual to the two gradients formed from it. |
| MambaHeadAdjoint.TrapStage | reports/path_c_fusion_generated.py:1392-1407 | The trapezoid weight, next row's step and projection included, is dual to this row's and the look-ahead gradients. |
| MambaHeadAdjoint.DtStage | reports/path_c_fusion_generated.py:1413-1415 | The softplus step is dual to its gradient towards projection and bias. |
| MambaHeadAdjoint.DecayStage | reports/path_c_fusion_generated.py:1416-1417 | The clamped decay is dual to the guarded gradient: nothing flows where the clamp is in force. |
| MambaRowAdjoint.ConvStage | reports/path_c_fusion_generated.py:1418-1437 | The three-tap convolution and its activation are dual to the tap, weight and bias gradients, missing rows contributing nothing. |
| ProjectionSegments.SegStage | reports/path_c_fusion_generated.py:1438-1441 | A run of output dimensions of one row of a dense projection, paired with its move, is what it scatters to the hidden row and to the weights, paired with theirs. |
| MambaProjectionAdjoint.RowScatter | reports/path_c_fusion_generated.py:1399-1441 | All that one iteration scatters, to the row itself, one row ahead and two rows back, paired with the perturbations, is the projections' move. |
| MambaRowKernel.ForwardRow | reports/path_c_fusion_generated.py:1222-1309 | The recomputed row: every intermediate value and the state and angles after the row, in place. |
| MambaRowKernel.Project | reports/path_c_fusion_generated.py:1222-1226 | The dense input projection. |
| MambaRowKernel.Convolve | reports/path_c_fusion_generated.py:1227-1241 | The convolution recomputed from earlier hidden rows. |
| MambaRowKernel.Step | reports/path_c_fusion_generated.py:1242-1244 | Step sizes and clamped decays. |
| MambaRowKernel.AdvanceAngle | reports/path_c_fusion_generated.py:1245-1246 | The running angles, one row on. |
| MambaRowKernel.LookAhead | reports/path_c_fusion_generated.py:1247-1255 | The next row's step and trapezoid projection; zero after the last row. |
| MambaRowKernel.Trapezoid | reports/path_c_fusion_generated.py:1256-1263 | The trapezoid weight of every group. |
| MambaRowKernel.InverseRms | reports/path_c_fusion_generated.py:1264-1273 | The inverse RMS of B and C for every rank and group. |
| MambaRowKernel.Means | reports/path_c_fusion_generated.py:1274-1285 | Means over ranks, and B scaled by the trapezoid weight. |
| MambaRowKernel.RotateGroups | reports/path_c_fusion_generated.py:1286-1297 | The rotary embedding of a group's first states; the others pass. |
| MambaRowKernel.Scan | reports/path_c_fusion_generated.py:1298-1309 | The state update in place, the readout and the gate. |
| MambaRowKernel.Start | reports/path_c_fusion_generated.py:1015-1025 | The scan starts from the initial state with zero angles. |
| MambaBackwardRow.OutBack | reports/path_c_fusion_generated.py:1314-1319 | The output projection reversed, into its weights' buffer. |
| MambaBackwardRow.ScanBack | reports/path_c_fusion_generated.py:1326-1348 | The scan reversed: group, head and feature accumulators, and the state cotangent for the row before. |
| MambaBackwardGroups.UnrotateGroups | reports/path_c_fusion_generated.py:1349-1370 | Rotations reversed in place; the angle derivatives of B and of C are added to the carried angle gradient, which so sums those of all rows from `t` on. |
| MambaBackwardNorm.TrapBack | reports/path_c_fusion_generated.py:1371-1373 | The trapezoid weight's gradient. |
| MambaBackwardNorm.NormBack | reports/path_c_fusion_generated.py:1374-1391 | Normalisation reversed for B and for C, into the scale, bias and channel buffers. |
| MambaBackwardHeads.TrapScatter | reports/path_c_fusion_generated.py:1392-1407 | The trapezoid reversed for every head; the look-ahead goes to row `t + 1`'s hidden gradient and to the shared weights, and nowhere on the last row. |
| MambaBackwardAngles.HeadBack | reports/path_c_fusion_generated.py:1408-1417 | Angle, step and decay reversed for every head; the running angles end as they were before the row. |
| MambaBackwardConv.ConvBack | reports/path_c_fusion_generated.py:1418-1437 | The convolution reversed for every channel, scattering to the rows before that exist. |
| MambaBackwardConv.OwnScatter | reports/path_c_fusion_generated.py:1438-1441 | The row's own projection reversed. |
| RingHistory.ShiftSlots | reports/path_c_fusion_generated.py:321-324 | The in-place shift in ascending flat order moves every slot by one and leaves the last. |
| RingHistory.Push | reports/path_c_fusion_production_smoke_source.py:309-314 | The end of a row: the ring holds the stream one row on. |
| RingHistory.RingConv | reports/path_c_fusion_production_smoke_source.py:262-267 | The convolution from the ring is the one indexed directly. |
| RingHistory.ConvRun | reports/path_c_fusion_production_smoke_source.py:123-127 | A whole run from a saved history: every row's convolution is the directly indexed one, and the ring ends as the last entries of the stream. |
| RingHistory.TapForm | reports/path_c_fusion_generated.py:784-793 | Slot `k` at row `t` is row `t - taps + k` if there is one, else entry `t + k` of the saved history. |
| RnnBlockAdjoint.BlockIsAdjoint | reports/path_c_fusion_generated.py:775-914 | The whole block over an arbitrary hidden sequence and an arbitrary saved history: for every upstream gradient and every perturbation of the hidden rows, of the input projection, convolution, recurrent, decay, skip, norm and output parameters and of the initial state, over any number of rows, the upstream gradient paired with the linearised output equals the accumulated gradients paired with the perturbations. |
| RnnBlockDerivative.BackwardIsDerivative | reports/path_c_fusion_generated.py:775-914 | The gradients are the derivative of the loss: along every path of the hidden rows, the parameters and the initial state that starts at the block with velocity `d` the difference quotients of the loss converge to the pairing of `d` with them. |
| RnnBlockDerivative.OutSlope | reports/path_c_fusion_generated.py:775-831 | Every output of the block moves, to first order, by its tangent. |
| RnnBlockSlopes.PostSlope | reports/path_c_fusion_generated.py:810-819 | The gated readout moves by its tangent. |
| RnnBlockSlopes.PlainCurve | reports/path_c_fusion_generated.py:782-796 | The recurrence inside the block moves with exactly the velocity its inputs get from the convolution and the projection. |
| RnnBlockSlopes.ConvSlope | reports/path_c_fusion_generated.py:782-796 | The four-tap convolution with its activation moves by its tangent. |
| RnnBlockPaths.LineIsCurve | reports/path_c_fusion_generated.py:775-914 | There is such a path in every direction. |
| RnnBlockBackward.Backward | reports/path_c_fusion_generated.py:741-914 | The whole kernel on arrays: every gradient buffer and the initial state's gradient end holding exactly the functions that `BlockIsAdjoint` speaks of, whether the tanh is recovered or recomputed. |
| RnnBlockTraining.Train | reports/path_c_fusion_compile_source.py:86-938 | The forward kernel that stores states, then the backward kernel that reads them: every output row, and the gradients that `BlockIsAdjoint` speaks of, for any interval of at least one. |
| RnnBlockTraining.Backward | reports/path_c_fusion_compile_source.py:785-938 | The reverse sweep from stored states leaves the same gradients as the sweep that replays from the initial state, whatever the interval. |
| RnnBlockTraining.RowBack | reports/path_c_fusion_compile_source.py:787-938 | One iteration: the carried cotangent fetched from the initial state's gradient buffer, the row replayed from its checkpoint and reversed, the cotangent put back. |
| RnnBlockTraining.ReplayFrom | reports/path_c_fusion_compile_source.py:787-831 | Reloading the last stored state at or before row `t` and replaying to `t` gives the states before and after the row and the row's projection and convolution; the slot read is always a written one. |
| RnnBlockTraining.Forward | reports/path_c_fusion_compile_source.py:94-336 | Outputs, last state and ring as without checkpoints, and every slot holds the state after its multiple of the interval. |
| RnnBlockTraining.StoreIfDue | reports/path_c_fusion_compile_source.py:314-321 | A state is stored exactly when one is due, and earlier ones are kept. |
| RnnBlockBackward.RowBack | reports/path_c_fusion_generated.py:768-909 | Row `t` replayed and reversed: every buffer, and the carried state cotangent, move from "rows after `t` reversed" to "rows from `t` on reversed". |
| RnnBlockBackward.Reverse | reports/path_c_fusion_generated.py:810-909 | The reversal of one row from the states before and after it. |
| RnnBlockAdjoint.RowStage | reports/path_c_fusion_generated.py:810-909 | One row around the recurrence: its output pairing and its recurrence inputs' pairing turn into the readouts' pairing and the row's own terms. |
| RnnBlockAdjoint.OutStage | reports/path_c_fusion_generated.py:825-831 | The output projection and its reversal are dual. |
| RnnBlockAdjoint.NormStage | reports/path_c_fusion_generated.py:820-834 | The root-mean-square norm of the gated readouts is dual to their gradient and the scales'. |
| RnnBlockAdjoint.GateStage | reports/path_c_fusion_generated.py:839-849 | The gated readout is dual to what reaches the readout and what reaches the gate projection. |
| RnnBlockAdjoint.InputStage | reports/path_c_fusion_generated.py:851-879 | The convolution's channels are the queries, keys and values, so the recurrence's input gradients are the channels' and the forget projections'. |
| RnnBlockAdjoint.ConvStage | reports/path_c_fusion_generated.py:883-905 | The four-tap convolution with its activation is dual to the tap, weight and bias gradients; taps in the saved history reach no row. |
| RnnBlockAdjoint.OwnStage | reports/path_c_fusion_generated.py:837-909 | The row's own projection collects the last tap, the forget projections and the gates. |
| RnnBlockAdjoint.RowScatter | reports/path_c_fusion_generated.py:899-909 | All that row `t` scatters, to itself and to the three rows before it that exist, paired with the perturbations, is the projections' move. |
| RnnBlockBackwardOut.ProjectBack | reports/path_c_fusion_generated.py:824-831 | The output projection reversed into its weights' buffer, and the norm's dot product. |
| RnnBlockBackwardOut.NormBack | reports/path_c_fusion_generated.py:832-834 | The norm reversed into the gated readouts' and the scales' gradients. |
| RnnBlockBackwardOut.GateBack | reports/path_c_fusion_generated.py:839-849 | The gate reversed into the readouts' and the gate projections' gradients. |
| RnnBlockBackwardConv.TapBack | reports/path_c_fusion_generated.py:887-903 | One earlier tap of one channel: its weight always, and its hidden row and input weights only where the row exists. |
| RnnBlockBackwardConv.ConvBack | reports/path_c_fusion_generated.py:883-905 | Every channel, reversed. |
| RnnBlockBackwardConv.OwnScatter | reports/path_c_fusion_generated.py:906-909 | The row's own projection reversed; with it the hidden and input-weight gradients hold all that row `t` scatters. |
| RnnBlockBackwardConv.HiddenTotal | reports/path_c_fusion_generated.py:899-909 | What the channels and the own projection add to a hidden row is the whole of row `t`'s share. |
| RnnBlockKernel.Replay | reports/path_c_fusion_generated.py:769-809 | Replay from the initial state leaves the state before row `t`, the one after it, and row `t`'s projection and convolution. |
| RnnBlockKernel.Convolve | reports/path_c_fusion_generated.py:782-796 | The convolution recomputed from earlier hidden rows and the saved history. |
| RnnBlockKernel.PostRow | reports/path_c_fusion_generated.py:810-819 | The gated readouts of a row. |
| RnnBlockKernel.InverseRms | reports/path_c_fusion_production_smoke_source.py:293-301 | The inverse root mean square of the gated readouts, for any lane count. |
| RnnBlockForward.Forward | reports/path_c_fusion_production_smoke_source.py:106-315 | One block over all rows, any lane count: every output row, the state after the last row, and a ring that ends as the last three projections. |
| RnnBlockForward.Row | reports/path_c_fusion_production_smoke_source.py:252-315 | One row: its output, the state and the ring moved on. |
| RnnBlockForward.Convolve | reports/path_c_fusion_production_smoke_source.py:261-267 | The convolution read off the ring is the one the backward kernel recomputes. |
| RnnBlockForward.OutRow | reports/path_c_fusion_production_smoke_source.py:293-307 | The normalised features through the output projection; other rows are untouched. |
| RnnAdjoint.SweepIsAdjoint | reports/path_c_fusion_generated.py:850-882 | The recurrence alone: for every upstream gradient of the readouts and every perturbation of the queries, keys, values and forget projections of every row, of the recurrent weights, decay rates, decay biases and skip weights, and of the initial state. |
| RnnSlopes.ReadSlope | reports/path_c_fusion_generated.py:842-845 | Every readout of the recurrence moves, to first order, by its tangent. |
| RnnSlopes.StateSlope | reports/path_c_fusion_generated.py:797-806 | The state after any number of rows moves by its tangent. |
| RnnSlopes.DecaySlope | reports/path_c_fusion_generated.py:859-861 | The decay moves by its tangent, with the rate, the forget projection and the bias. |
| RnnSlopes.StepSlope | reports/path_c_fusion_generated.py:876-880 | The slope factor of the decay's gradients is the step's derivative in the forget projection and in the bias. |
| RnnSlopes.StepLaw | reports/path_c_fusion_generated.py:859-861 | `exp(step) = 1 + exp(forget) exp(bias)`: both enter the step together. |
| RnnAdjoint.Suffix | reports/path_c_fusion_generated.py:850-882 | The invariant of the duality proof over the rows from `t` on, with the carried state cotangent. |
| RnnAdjoint.RowStage | reports/path_c_fusion_generated.py:850-882 | One row's duality: readout, blend, tanh, recurrent product, drive and decay. |
| RnnBackward.ReverseRow | reports/path_c_fusion_generated.py:850-882 | One row of the recurrence reversed from its two states, the carried cotangent moved on. |
| RnnBackwardRow.ReadBack | reports/path_c_fusion_generated.py:850-854 | The readouts reversed into query, skip, value and state gradients. |
| RnnKernel.Advance | reports/path_c_fusion_generated.py:797-806 | One forward row on arrays, from the row's projection and convolution buffers. |
| RnnKernel.ReadCell | reports/path_c_fusion_generated.py:842-845 | One readout: the query against the state, and the value's skip connection. |
| RnnBackwardCells.TanhBack | reports/path_c_fusion_compile_source.py:887-890 | Recovering the tanh from two states and recomputing it give the same value. |
| RnnBackwardCells.CellBack | reports/path_c_fusion_generated.py:864-875 | One cell reversed into the state, weight, key and value gradients. |
| RnnBackward.DecayHead | reports/path_c_fusion_generated.py:876-880 | One head's decay parameters, its bias shared with the forget projection. |
| RnnProperties.RecoveryIsExact | reports/path_c_fusion_generated.py:867 | In every reachable state whose decay is not 1, `(h_next - d * h_prev) / (1 - d)` is the tanh of the forward step. |
| RnnProperties.DecayRange | reports/path_c_fusion_generated.py:859-861 | The decay lies strictly between 0 and 1, so the recovery never divides by zero. |
| RnnProperties.StateBound | reports/path_c_fusion_generated.py:282-304 | Every reachable state cell stays within any bound of at least 1 that holds for its initial value. |
| RnnLaws.DecayOfSum | reports/path_c_fusion_generated.py:859-861 | Two steps decay as their sum does, and a zero step does not decay. |
| RnnLaws.NoStepKeeps | reports/path_c_fusion_generated.py:797-806 | A head that takes no step keeps its state, whatever the row brings. |
| RnnLaws.NothingFromNothing | reports/path_c_fusion_generated.py:797-806 | From a zero state, rows without keys make none but zero states. |
| RnnLaws.ReadOfNoQuery | reports/path_c_fusion_generated.py:842-845 | Without a query a head reads its value's skip connection alone. |
| RnnLaws.FourTaps | reports/path_c_fusion_generated.py:782-796 | The convolution is the bias and four taps: the row and the three rows before it. |
| RnnLaws.GateLaw | reports/path_c_fusion_generated.py:810-819 | A gated readout times `1 + exp(-gate)` is the readout times the gate. |
| RnnLaws.ZeroRowIsSilent | reports/path_c_fusion_generated.py:810-831 | A hidden row of zeros has an output row of zeros, whatever the state and the history hold. |
| RnnLaws.ChannelsInOrder | reports/path_c_fusion_generated.py:782-796 | Queries, keys, values, forget projections and gates follow each other in that order. |
| RnnLaws.CellOf | reports/path_c_fusion_generated.py:842-845 | State row `h * keys + k` belongs to head `h` and to key `k` of the query slot that the head's group shares. |
| ChunkTheorem.BlockIsAdjoint | scratch/ablate_b2_cshared_full.py:106-235 | The block is the exact adjoint of the linearised chunk: for every upstream gradient and every perturbation of C, the rank-one inputs, the carried state, the cumulative decays, x through the skip connection, D and z. |
| ChunkDerivative.BackwardIsDerivative | scratch/ablate_b2_cshared_full.py:106-235 | The kernel's outputs are the derivative of the loss: along every path of C, the rank-one inputs, the carried state, the decays, x, D and z that starts at the block's inputs with velocity `t`, the difference quotients of the loss converge to the pairing of `t` with the outputs. |
| ChunkDerivative.OutSlope | scratch/ablate_b2_cshared_full.py:106-123 | Every gated output `y * z / (1 + exp(-z))`, written from exp and division alone, moves to first order by its tangent. |
| ChunkSlopes.GateHere | scratch/ablate_b2_cshared_full.py:113 | The kernel's gate is `z / (1 + exp(-z))`. |
| ChunkSlopes.YHere | scratch/ablate_b2_cshared_full.py:106-235 | The forward output that moves is, at the block's own inputs, the block's. |
| ChunkSlopes.DecaysCompose | scratch/ablate_b2_cshared_full.py:170-173 | Decays along a chunk compose, from row to row and from the chunk's start, and a row does not decay towards itself. |
| ChunkSlopes.LineIsCurve | scratch/ablate_b2_cshared_full.py:106-235 | There is such a path in every direction. |
| ChunkAtomics.Backward | scratch/ablate_b2_cshared_full.py:93-235 | All outputs of the block, scatters included, end as the gradients that `BlockIsAdjoint` and `DecayConserves` speak of, for either source of C, either loop order, any lane count and any orders of the atomic additions. |
| ChunkTotals.TransposedTriangle | scratch/ablate_b2_cshared_full.py:200-219 | For every `v`, `dinp` paired with `v` is `dY` paired with the forward triangle applied to `v`: the loop over `l >= s` transposes the one over `s <= l`. |
| ChunkTheorem.FactoredIsTriple | scratch/ablate_b2_cshared_full.py:146-176 | The diagonal part of dC through `DYX` equals the unfactored triple sum. |
| ChunkTheorem.DecayConserves | scratch/ablate_b2_cshared_full.py:158-235 | The total gradient of the cumulative decays equals `dchunk_states` paired with the carried states, and the off-diagonal part of dC paired with C. |
| ChunkTotals.SegConserves | scratch/ablate_b2_cshared_full.py:222-231 | The signed segment scatter sums to zero. |
| ChunkKernel.Block | scratch/ablate_b2_cshared_full.py:93-219 | Over uninterpreted arithmetic and casts and any lane count: every output is the same term in the same order whether C is read from the device or from the staged tile, and for either loop order of `dinp` when adding to zero changes nothing. |
| ChunkKernel.Stage | scratch/ablate_b2_cshared_full.py:98-104 | The tile is a copy of C. |
| ChunkKernel.ReadC | scratch/ablate_b2_cshared_full.py:177-180 | Either source of C yields the same value. |
| ChunkKernel.GateBack | scratch/ablate_b2_cshared_full.py:108-123 | The gate and the x and z gradients that follow directly. |
| ChunkKernel.BuildDyx | scratch/ablate_b2_cshared_full.py:146-156 | The lower triangle of `dY x^T`, zero above the diagonal, every stored entry cast. |
| ChunkKernel.BackC | scratch/ablate_b2_cshared_full.py:159-181 | dC and the terms of its atomic additions. |
| ChunkKernel.BackChunk | scratch/ablate_b2_cshared_full.py:185-197 | The gradient of the carried chunk state. |
| ChunkKernel.BackInpFlat | scratch/ablate_b2_cshared_full.py:201-219 | The flat store loop fills every cell once, for any lane count. |
| ChunkKernel.BackInpRows | scratch/ablate_b2_blocks.py:201-218 | The zero-then-accumulate loop leaves the very values of the flat one when zero is a left unit. |
| ChunkKernel.ZeroInp | scratch/ablate_b2_blocks.py:129-137 | The zeroing loop clears every cell, for any lane count. |
| ChunkAtomics.DecayGrad | scratch/ablate_b2_cshared_full.py:158-235 | Whatever the orders of the two phases of atomic additions, the result is the gradient of the cumulative decays. |
| ChunkAtomics.SkipGrad | scratch/ablate_b2_cshared_full.py:106-125 | The gradient of D: every lane sums its own strided share of the cells, and the lanes' partial sums are added in any order. |
| ChunkAtomics.ScatterOff | scratch/ablate_b2_cshared_full.py:181 | The additions of the dC block in any order. |
| ChunkAtomics.ScatterSeg | scratch/ablate_b2_cshared_full.py:222-231 | The signed segment additions in any interleaving. |
| LaneReduction.Reduce | reports/path_c_fusion_generated.py:139-146 | The two-level lane reduction is the plain sum, for any lane count and row length. |
| LaneReduction.Partial | reports/path_c_fusion_compile_source.py:139-141 | A lane's strided loop sums exactly the entries it owns. |
| LaneReduction.LanesPartition | reports/path_c_fusion_production_smoke_source.py:238-246 | Every entry is owned by exactly one lane. |
| RmsNorm.RowIsAdjoint | reports/path_c_fusion_generated.py:695-714 | The backward of a row is the exact vector-Jacobian product, for inputs and weights and any row length. |
| RmsNormSlopes.OutSlope | reports/path_c_fusion_generated.py:139-150 | Every entry of a normalised row moves, to first order, by its tangent. |
| RmsNormSlopes.InvLaw | reports/path_c_fusion_generated.py:139-147 | `inv^2 (mean square + 1e-5) = 1`, where `rsqrt(x)^2 x = 1` for positive `x`. |
| RmsNormSlopes.GradientAlongRow | reports/path_c_fusion_generated.py:707-711 | The gradient's component along the row is `1e-5 * inv^3 * dot`. |
| RmsNormSlopes.UnitMeanSquare | reports/path_c_fusion_generated.py:139-150 | A row normalised with unit weights has mean square `1 - 1e-5 * inv^2`. |
| RmsNorm.Forward | reports/path_c_fusion_generated.py:139-150 | The normalised rows, for any lane count. |
| RmsNorm.Backward | reports/path_c_fusion_generated.py:695-714 | Total gradients, the residual's added, and the weight gradient, for any lane count. |
| RmsNorm.RowBack | reports/path_c_fusion_generated.py:695-714 | One row's backward; other rows are untouched. |
| AttentionLayerAdjoint.LayerIsAdjoint | reports/path_c_fusion_generated.py:532-690 | The whole layer, any number of heads and rows: for every upstream gradient and every perturbation of the hidden rows, of the query, key-value and output weights, of the rotary frequencies and of the sinks, and however the subtracted maxima move, the upstream gradient paired with the linearised output equals the gradients paired with the perturbations. |
| AttentionDerivative.BackwardIsDerivative | reports/path_c_fusion_generated.py:497-690 | The gradients are the derivative of the loss: along every path of the hidden rows, the three weights, the frequencies and the sinks that starts at the layer with velocity `d`, the stored values following the values they were made from, the difference quotients of the loss converge to the pairing of `d` with them. |
| AttentionDerivative.OutSlope | reports/path_c_fusion_generated.py:463-483 | Every output of the layer moves, to first order, by its tangent, whatever is assumed of the subtracted maxima. |
| AttentionPaths.LineIsCurve | reports/path_c_fusion_generated.py:353-368 | There is such a path in every direction. |
| AttentionTraining.Backward | reports/path_c_fusion_generated.py:497-690 | The whole backward on arrays, both phases, with the rows and the pairs in any orders: the hidden, query, key-value, output-weight and frequency gradients end as the functions `LayerIsAdjoint` speaks of. |
| AttentionLayerBackward.AttentionBack | reports/path_c_fusion_generated.py:502-607 | The first phase from zeroed gradients, rows in any order: the prepared queries' and key-values' gradients and the output weights'. |
| AttentionLayerBackward.HeadBack | reports/path_c_fusion_generated.py:532-606 | One head of one row: its query columns are set, its window's key-value columns and its output-weight columns are added to, all others are untouched. |
| AttentionLayerBackward.OutHead | reports/path_c_fusion_generated.py:569-581 | A head's context gradient and its columns of the output weights' gradient. |
| AttentionLayerAdjoint.OutStage | reports/path_c_fusion_generated.py:578-581 | The output projection and its reversal are dual. |
| AttentionTraining.ProjectionsBack | reports/path_c_fusion_generated.py:609-690 | The second phase, rows in any order: both projections reversed from the prepared values' gradients. |
| AttentionTraining.ProjectRow | reports/path_c_fusion_generated.py:622-689 | One row: its hidden gradient is cleared and then gets both projections' shares. |
| RotaryAdjoint.SideIsAdjoint | reports/path_c_fusion_generated.py:647-667 | A projection with split-half rotary embedding is dual to what its reversal gives the hidden rows, the weights and the frequencies shared by all heads. |
| RotaryAdjoint.InverseRotation | reports/path_c_fusion_generated.py:660-661 | The backward's rotation undoes the forward's wherever `cos^2 + sin^2 = 1`. |
| RotarySlopes.PreparedSlope | reports/path_c_fusion_generated.py:353-368 | Every rotated component moves, to first order, by its tangent: with the hidden rows, the weights and the frequencies. |
| RotarySlopes.FirstRowIsPlain | reports/path_c_fusion_generated.py:363-367 | The first row is not rotated. |
| RotarySlopes.PhaseAdvances | reports/path_c_fusion_generated.py:363 | The phase starts at zero and gains its frequency in every row. |
| RotarySlopes.PhaseMoves | reports/path_c_fusion_generated.py:659-667 | Moving the frequencies moves every phase by exactly its tangent. |
| RotarySlopes.TurningOn | reports/path_c_fusion_generated.py:659-667 | Under the addition rules of cosine and sine, turning on by an angle mixes each component with what its phase turns it towards. |
| RotarySlopes.UnitPair | reports/path_c_fusion_generated.py:363-367 | The pair (1, 0) turns to (cos, -sin) of its phase. |
| RotaryKernel.SideRow | reports/path_c_fusion_generated.py:647-667 | One row's pairs in any order: the weights, the hidden row and the frequencies get exactly the row's terms. |
| RotaryKernel.PairScatter | reports/path_c_fusion_generated.py:650-667 | One pair adds to its own two weight rows, to the hidden row and to its own frequency. |
| RotaryKernel.PrepareHead | reports/path_c_fusion_generated.py:353-368 | The forward's projection and rotation of one head. |
| AttentionLayerForward.Forward | reports/path_c_fusion_generated.py:421-483 | Every row's output from the quantised queries and key-values, and the log-sum-exp stored for every row and head, zero where the sum is not positive. |
| AttentionLayerForward.OutputsAgree | reports/path_c_fusion_generated.py:463-483 | Where the two kernels' sums of exponentials agree in every head, the forward's output is the one the backward differentiates. |
| AttentionScatter.AllRowsAreAdjoint | reports/path_c_fusion_generated.py:582-606 | One head: over all rows the query and key-value gradients, and the gradient the sink would have, are the exact vector-Jacobian product of all contexts. |
| AttentionBackward.RowBack | reports/path_c_fusion_generated.py:594-606 | One head and row from its statistics: the query row is set, the window's key-value rows are added to. |
| AttentionBackward.Statistics | reports/path_c_fusion_generated.py:582-593 | The probabilities' gradients and their mean, with the guards and floors of the source. |
| AttentionBackward.ContextBack | reports/path_c_fusion_generated.py:569-577 | The context the backward recomputes is the softmax-weighted mean. |
| AttentionAdjoint.RowIsAdjoint | reports/path_c_fusion_generated.py:582-606 | One row's backward is dual to its context's move, however the subtracted maximum moves. |
| AttentionAdjoint.ScoreGradsSumToZero | reports/path_c_fusion_generated.py:591-601 | The score gradients and the implied sink gradient sum to zero. |
| AttentionAdjoint.ProbabilitiesSumToOne | reports/path_c_fusion_generated.py:463-477 | Slot and sink probabilities sum to one. |
| AttentionAdjoint.SoftmaxMove | reports/path_c_fusion_generated.py:450-477 | The softmax's tangent does not depend on how the subtracted maximum moves. |
| AttentionSlopes.ContextSlope | reports/path_c_fusion_generated.py:463-477 | Every component of a head's context moves, to first order, by its tangent, although the subtracted maximum has no derivative where scores tie. |
| AttentionSlopes.PlainProbability | reports/path_c_fusion_generated.py:450-477 | A slot's probability is the exponential of its score over the plain sum of the exponentials: the subtracted maximum drops out. |
| AttentionSlopes.ContextBound | reports/path_c_fusion_generated.py:468-477 | The context stays within any bound of the key-values. |
| AttentionSlopes.ZeroQuery | reports/path_c_fusion_generated.py:440-442 | A zero query scores every row at zero. |
| AttentionScatter.DkvIsWindow | reports/path_c_fusion_generated.py:594-606 | `dkv[j]` is the sum over exactly the rows of the window of `j` that exist. |
| AttentionScatter.RowScatter | reports/path_c_fusion_generated.py:594-606 | A row's atomic additions to row `j` are the contribution of the one slot at distance `r - j`, if it has one. |
| AttentionBackward.GuardsAreIdle | reports/path_c_fusion_generated.py:589-604 | The `> 0` guards and the 1e-20 floors never change a probability. |
| AttentionModel.TableIsWindow | reports/path_c_fusion_generated.py:413-419 | The index table lists each causal row of the window once, in the slot of its distance. |
| AttentionModel.ScoresAgree | reports/path_c_fusion_generated.py:440-442 | Scaling after the dot product and scaling the query before it give the same score. |
| AttentionModel.SumsAgree | reports/path_c_fusion_generated.py:450-464 | Forward and backward sums of exponentials are equal if and only if the window is full or the exponential is zero at the sentinel. |
| AttentionModel.SumExpAtLeastOne | reports/path_c_fusion_generated.py:555-568 | The sum of exponentials is at least one. |
| AttentionModel.LogSumExpIsPlain | reports/path_c_fusion_generated.py:465-467 | The stored log-sum-exp does not depend on the subtracted maximum: it is the logarithm of the plain sum of the scores' and the sink's exponentials, wherever exp turns differences into quotients and log undoes it. |
| AttentionModel.MaxIsAttained | reports/path_c_fusion_generated.py:540-551 | A maximum above the sentinel is a present slot's score. |
| AttentionModel.SentinelIsLowestFloat | reports/path_c_fusion_generated.py:434-444 | The score of an absent slot is the most negative single-precision number, `-(2^128 - 2^104)`, to the digits the source prints. |
| AttentionKernel.BuildTable | reports/path_c_fusion_generated.py:413-419 | The table built in place. |
| AttentionKernel.WeighForward | reports/path_c_fusion_generated.py:434-464 | The forward statistics, absent slots counted. |
| AttentionKernel.WeighBackward | reports/path_c_fusion_generated.py:536-568 | The backward statistics, absent slots skipped. |
| AttentionKernel.ContextForward | reports/path_c_fusion_generated.py:465-477 | The forward context and the stored log-sum-exp, with their guards. |
| AttentionKernel.ContextsAgree | reports/path_c_fusion_generated.py:468-477 | Where the sums agree, the forward context is the one the backward kernel differentiates. |

## Left out

- MambaDerivative.BackwardIsDerivative: nothing is said of the whole loss on paths that move a decay away from the corner of its clamp; `MambaSlopes.DecayExactly` says that the decay itself has no such derivative there.
- AttentionDerivative.BackwardIsDerivative: the quantised values move with the values they were made from (the straight-through rule); the rounding itself, which has no derivative, is not differentiated.
- ChunkDerivative.BackwardIsDerivative: x moves in the skip connection and in the rank-one inputs separately, because the kernel returns the two gradients separately.
- MambaBackward.Backward: the row's scratch buffers are allocated afresh by each stage instead of being reused, the loop over ranks and groups runs once for B and once for C, and flat bank addresses become array indices.
- MambaForward.Forward: one block covers all rows; the multi-block launches, whose blocks start from re-initialised state, are not modelled.
- MambaForward.Row: lanes of one stage run one after another; stages are separated by barriers in the source.
- RingHistory.ShiftSlots: ascending flat order only; the source has no barrier between overlapping rows of the M2RNN shift, so other interleavings are not covered.
- RnnBlockBackward.Backward: the hidden rows are an arbitrary sequence because the kernel reads a row-local hidden buffer; a row's projection and convolution gradients are kept in separate arrays and put together before the last scatter, instead of being sections of one buffer each; the branch for a tap whose row is the current one, which no tap reaches, is dropped. The reverse loop runs once, as in the generated file.
- RnnBlockTraining.Backward: the hidden rows are an arbitrary sequence, for the same reason; the emitted instance repeats the whole sweep for every row of a chunk, and one sweep is modelled.
- MambaLanes.SweepAnyOrder: the values added are those of the module MambaGradient; that the lanes compute them from buffers completed before the last barrier is the one-lane kernel's proof, and stores that only one lane makes are not steps of the machine.
- RnnBlockAdjoint.BlockIsAdjoint: the saved convolution history is a constant, because the kernel forms no gradient for it.
- ChunkKernel.Block: dC and dchunk_states are written once; the zeroing passes whose values are overwritten are not modelled, nor is the offset of the chunk within the sequence.
- ChunkAtomics.Backward: floating-point rounding of reordered additions is not modelled; over the reals every order gives the same result.
- AttentionLayerAdjoint.LayerIsAdjoint: the quantised queries and key-values and their scales are arbitrary inputs that move with the prepared values they were made from, which is how the kernel passes gradients through the quantisation; the sinks' gradient, which the kernel does not emit, appears in the theorem only.
- AttentionTraining.Backward: one key-value head per query head, as emitted; a scale gradient that the kernel adds to a component and subtracts again is dropped; the two lanes' loops over queries and key-values of a row run one after the other, as the barrier between them says.
- AttentionLayerForward.Forward: the quantisation is not part of this model.
- RmsNorm.Backward: the weight gradient is added row by row; the source's launch order across blocks is not modelled.
- Rounding, fp8 casts and the external fp8 converters, whose bodies are not part of this model; the fp16 cast of the chunk kernels is an uninterpreted operation in `ChunkKernel`, and the identity over the reals.
- The ablation variants of the chunk kernels that are wrong on purpose, their timing harness and memory guards.
- The placeholder backward and the attention part of the smoke kernel.
- Everything outside the kernels: compilation, launching, benchmarks, configuration and the user interface.
