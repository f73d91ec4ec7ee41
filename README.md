# Time-stretch engine adapters

`stretch()` in `src/main.cpp` time-stretches a multichannel sample buffer by
driving a streaming time-stretch engine. There are two specialisations, one for
each of two engine protocols:

- **SoundTouch** (buffered-counter protocol). The source is cut into blocks of
  at most `kProcessSize` = 2048 frames. Each block is interleaved into a scratch
  vector and handed to `putSamples`, and `flush()` follows the last block. After
  every block, a drain loop asks `numSamples()` how many frames are ready. It
  clamps that count to one block and to the room left in the destination,
  receives that many frames interleaved, and de-interleaves them into the
  destination at `dest_pos`. The drain loop stops when the clamped count is 0.
- **RubberBand** (sentinel-terminated protocol). The same blocks are handed to
  `process` as one read pointer per channel, with an end-of-input flag on the
  last block. The drain loop asks `available()`. The answer `-1` means no more
  output will ever come, and `stretch()` returns at once. Output that is ready
  while the destination is full also makes it return. When nothing is ready it
  goes on to the next block. Otherwise it `retrieve`s through one write pointer
  per channel at `dest_pos`.

The destination has the source's channel count and `(int)(samples *
stretch_amount)` frames.

## The model

- `Blocks` holds the block size, the block length `std::min(pos + 2048, length) -
  pos`, the two clamps of the drain step, and the partition of `[0, length)`
  into the blocks the feed loop submits.
- `Interleaving` holds the interleaved layout (frame `smp` of channel `ch` at
  `smp * C + ch`), `Interleave`/`Deinterleave` on per-channel sequences, the
  per-channel `Slice`/`Concat` of frames, and their round trips.
- `Buffers.Buffer` is `Buffer<float>`. It is a class with a fixed channel
  count, a fixed frame count and one array per channel, every sample starting
  at a given value (`zero`, the 0.0f of a new buffer). The element type is a
  type parameter because the adapters only copy samples.
- `SoundTouchEngine.SoundTouch` and `RubberBandEngine.RubberBand` are the
  engines as the adapters see them.
  - What an engine computes is left open, as two functions fixed at
    construction. The ready count (`numSamples()` or `available()`) is a
    function of three things: the input so far, the number of end-of-input
    signals (`flush()` calls or final flags) and the frames already taken
    out. Each output sample is a function of the input so far and of its own
    position in the output (for RubberBand, its channel and frame index).
    Every property below holds for every such engine. An engine that changes
    its answers on its own, say from a worker thread, is outside the model.
  - Each engine records what it was given (`input`), what it handed out
    (`delivered`) and every call made on it, in order (`log`).
  - `CallLogs.Kept` picks the calls of a log that a predicate keeps. `Feeds`
    keeps the feed calls (`putSamples`/`flush()` or `process`) of a log.
- `DrainPlans` states what one drain loop does as a function of the engine's
  answers. `SoundTouchDrainPlan` and `RubberBandDrainPlan` give the list of
  receive (or retrieve) calls the loop makes from a given `dest_pos`, the
  `dest_pos` it stops at, and whether `stretch()` returns there. Each call
  takes `min(ready, 2048, room left)` frames, with `ready` the engine's answer
  at that point. `FedFrames(k, length)` = `min(k * 2048, length)` is how much
  of the source the first k blocks submit. `EndSignals(k, length)` is the
  count of `flush()`/final flags they send: 0 before the last block, 1 from
  the last block on.
- `StretchSpec` states, from block to block, where each outer loop stands:
  what the engine has been given, what the destination holds, and the record
  of every drain so far (`SoundTouchDrainsPlanned`, `RubberBandDrainsPlanned`).
  Each record entry says that the drain after block i is exactly the drain
  plan from where the drain before it stopped, run against the engine's state
  after block i.
- `Stretch` holds the two `stretch` specialisations as imperative methods.
  Each is split the way the source nests its loops. There is one method per
  feed, per drain step, per drain loop, per half of an outer pass, per outer
  pass and for the outer loop. `Fill*` runs the outer loop in a zeroed
  destination, and `Stretch*` allocates the destination and scratch space
  and calls `Fill*`.
  - Each outer loop returns, as ghosts, the `dest_pos` at which each block's
    drain stopped (`marks`) and the calls each drain made (`drains`).
  - `SoundTouchDrained` and `RubberBandDrained` say what the engine answered
    at those stops.

What is proved about `stretch()`:

- **Both**: the engine's call log, from start to end, is exactly
  `BlockCalls(length, drains)`. For block k that is the block's feed calls,
  then drain k. Drain k is exactly the drain plan from the previous stop: the
  receive (or retrieve) calls, each of `min(ready, 2048, room left)` frames.
- **SoundTouch**:
  - The engine is given the whole source, interleaved, in order.
  - Its feed calls are exactly one `putSamples` per block of the partition.
    A single `flush()` follows, right after the last block's `putSamples`.
    An empty source gets no feed calls. The engine's flush count grows by
    one, or by none for an empty source.
  - The destination's first `dest_pos` frames, interleaved, are exactly the
    samples the engine handed out. Every later frame still holds its
    initial value.
  - `dest_pos` never passes the destination length.
  - A drain followed every block, and `dest_pos` never moved back.
  - Each drain stopped only on a full destination or on `numSamples()`
    answering 0. That answer is for the input, flush count and frames
    received at that point.
- **RubberBand**:
  - The engine is given the first k blocks of every channel, through the
    first k process calls the plan owes. That is `min(k * 2048, length)`
    frames, and the final flag was sent once if the last block was among
    them.
  - A drain followed every block. Every drain but the last went on to the
    next block only because `available()` answered 0.
  - `stretch()` returned early from the last drain only on the sentinel, or
    on a full destination with output still ready.
  - Otherwise all blocks were fed, and for a non-empty source the last
    `available()` answered 0.
  - The destination's first `dest_pos` frames of every channel are exactly
    what the engine handed out. Every later frame still holds its initial
    value.

## Model

| member | source | states |
|---|---|---|
| Blocks.BlockLen | src/main.cpp:36-37 | a block holds 1 to 2048 frames, stays inside the source, is short only when it is the last, and is the last exactly when at most 2048 frames remain |
| Blocks.ClampReady | src/main.cpp:112-115 | clamping the ready count to 2048 keeps it at most the count and at most 2048, and maps -1 to -1 and 0 to 0 and nothing else to either |
| Blocks.ReceiveCount | src/main.cpp:56-58 | a drain step takes no more than is ready and never passes the destination length; it takes all that is ready unless that would fill the destination; it is 0 exactly when nothing is ready or the destination is full |
| Blocks.PartitionTiles | src/main.cpp:36-37 | the blocks of the feed loop tile [pos, length) in order: first at pos, each starting where the last ended, the last ending at length, all but the last exactly 2048 frames; none when pos >= length |
| Blocks.PartitionFinalIsLast | src/main.cpp:48-51 | the `finished` flag is set on the last block and on no other; an empty source yields no block |
| Blocks.PartitionCount | src/main.cpp:36 | the feed loop runs ceil((length - pos) / 2048) times |
| Blocks.PartitionBlocks | src/main.cpp:36 | a loop that stepped k times by 2048 from pos, and was still below length before its last step, has run once per block |
| Interleaving.SlotBelow | src/main.cpp:31-41 | every index smp * C + ch written for a block of n frames is below n * C, so below the C * 2048 scratch size |
| Interleaving.SlotInjective | src/main.cpp:39-43 | two (frame, channel) pairs with ch < C never share a slot |
| Interleaving.InterleaveAt | src/main.cpp:39-43 | the interleaved block holds frame smp of channel ch at index smp * C + ch |
| Interleaving.InterleaveUnique | src/main.cpp:39-43 | a block with every frame in its slot is the interleaving |
| Interleaving.InterleaveAppend | src/main.cpp:36-46 | interleaving consecutive blocks one after another is interleaving their union |
| Interleaving.ConcatSlices | src/main.cpp:100-109 | handing every channel's frames [0, m) and then [m, m + n) is handing it [0, m + n) |
| Interleaving.DeinterleaveInterleave | src/main.cpp:64-68 | de-interleaving an interleaved block gives back each channel's frames |
| Interleaving.InterleaveDeinterleave | src/main.cpp:64-68 | interleaving a de-interleaved block gives back the block |
| Buffers.Buffer.constructor | src/main.cpp:28 | a new buffer has the channel count and frame count asked for, one fresh array of that length per channel, and every sample equal to the initial value |
| SoundTouchEngine.SoundTouch.PutSamples | src/main.cpp:46 | putSamples appends the first n interleaved frames of the vector to the engine's input and logs one Put(n); the flush count and the output side are untouched |
| SoundTouchEngine.SoundTouch.Flush | src/main.cpp:50 | flush() raises the flush count by one and logs one Flush; input and output are untouched |
| SoundTouchEngine.SoundTouch.NumSamples | src/main.cpp:54 | numSamples() is the engine's fixed ready function of its input so far, flush count and frames received: nothing else can change its answer |
| SoundTouchEngine.SoundTouch.ReceiveSamples | src/main.cpp:61 | receiving n ready frames writes the next n output frames, interleaved, to the front of the vector, leaves the rest of it alone, adds them to what was handed out and logs one Receive(n) |
| SoundTouchEngine.FeedsPutFlush | src/main.cpp:46-51 | logging one block's putSamples (and flush()) adds exactly those calls to the log's feed calls |
| SoundTouchEngine.PlanAdvance | src/main.cpp:36-51 | one pass of the feed loop at pos pays exactly the calls owed for the block at pos, so the calls made stay a prefix of the calls owed for the whole source |
| SoundTouchEngine.BlockCallsStep | src/main.cpp:36-71 | one more pass of the outer loop appends that block's putSamples (and flush()) and then its drain's calls to the whole log |
| SoundTouchEngine.BlockCallsFeeds | src/main.cpp:36-71 | when every drain only receives, the feed calls among all the calls for the first k blocks are exactly the calls owed for those k blocks |
| SoundTouchEngine.PlanEndsWithSingleFlush | src/main.cpp:36-51 | the feed calls owed for a source are empty exactly for an empty source, have a single flush() that is the very last call, and put 1 to 2048 frames at a time, adding up to the source length |
| RubberBandEngine.RubberBand.Process | src/main.cpp:109 | process appends, to each channel's input, the n frames its read pointer points at; it adds n to the frames processed, one to the final count exactly when the flag is set, and logs one Process(n, final) |
| RubberBandEngine.RubberBand.Available | src/main.cpp:112 | available() is the engine's fixed function of its input so far, final count and frames retrieved, at least -1: nothing else can change its answer |
| RubberBandEngine.RubberBand.Retrieve | src/main.cpp:126 | retrieving n ready frames writes the next n output frames of each channel at its pointer, changes no other sample of those arrays, and logs one Retrieve(n) |
| RubberBandEngine.FeedsProcess | src/main.cpp:109 | logging one process call adds exactly that call to the log's process calls |
| RubberBandEngine.PlanAdvance | src/main.cpp:100-109 | one pass of the feed loop at pos pays exactly the process call owed for the block at pos, so the calls made stay a prefix of the calls owed |
| RubberBandEngine.BlockCallsStep | src/main.cpp:100-128 | one more pass of the outer loop appends that block's process call and then its drain's calls to the whole log |
| RubberBandEngine.BlockCallsFeeds | src/main.cpp:100-128 | when every drain only retrieves, the process calls among all the calls for the first k blocks are exactly the calls owed for those k blocks |
| RubberBandEngine.PlanEndsWithSingleFinal | src/main.cpp:100-109 | the process calls owed are empty exactly for an empty source, each submits 1 to 2048 frames, they add up to the source length, and only the last is flagged final |
| DrainPlans.SoundTouchDrainPlan | src/main.cpp:53-71 | the SoundTouch drain loop, as the calls it makes from dest_pos pos: it stops within the destination, never returns early, and stops only on a full destination or on the ready count being 0 for the frames received by then |
| DrainPlans.RubberBandDrainPlan | src/main.cpp:111-128 | the RubberBand drain loop, as the calls it makes from dest_pos pos: it stops within the destination; it returns early exactly when available() answers -1 there, or answers more than 0 with the destination full; otherwise it stops on available() answering 0 |
| Stretch.DestLength | src/main.cpp:28 | the destination length is the largest whole number of frames not above samples * stretch_amount |
| Stretch.InterleaveBlock | src/main.cpp:39-43 | the first n * C entries of the scratch vector become the interleaving of source frames [src_pos, src_pos + n); the rest is unchanged |
| Stretch.DeinterleaveBlock | src/main.cpp:64-68 | frames [dest_pos, dest_pos + n) of every channel become the de-interleaved block, every other frame is unchanged, and the written frames read back, interleaved, as the block |
| Stretch.PutBlockSoundTouch | src/main.cpp:37-46 | num_send is the block length; the engine's input grows by the interleaved source frames [src_pos, src_pos + num_send) and the log by one Put(num_send) |
| Stretch.FeedSoundTouch | src/main.cpp:37-51 | one more block is submitted: the engine's input grows by its interleaved frames, the flush count by one exactly on the last block, and the log by putSamples then, on the last block, flush(); the engine has then been given the first min((k+1) * 2048, length) frames through the first k + 1 blocks' owed calls; the source is only read |
| Stretch.ReceiveSoundTouch | src/main.cpp:61-70 | one drain step extends the destination's interleaved prefix by exactly the n frames the engine hands out, logs one Receive(n), and leaves every frame from dest_pos + n on unchanged |
| Stretch.SoundTouchDrainReceives | src/main.cpp:53-71 | every call of a SoundTouch drain receives 1 to 2048 frames, and together they receive exactly the frames from where the drain started to where it stopped |
| Stretch.SoundTouchDrainPlanStep | src/main.cpp:54-70 | a drain step receiving the clamped count n, when n is not 0, leaves the calls made plus the rest of the plan equal to the plan from the step's start, stopping at the same place |
| Stretch.ReceiveStepSoundTouch | src/main.cpp:54-70 | one receiving pass of the drain loop takes min(numSamples(), 2048, room left) frames and keeps the drain loop's invariant: the calls made plus the rest of the plan are the plan from the drain's start |
| Stretch.DrainSoundTouch | src/main.cpp:53-71 | the drain loop terminates; it makes exactly the receiveSamples calls of the drain plan and stops where the plan does, so never past the destination and only on a full destination or numSamples() answering 0; the destination prefix is what the engine handed out and the frames after it are unchanged |
| Stretch.SoundTouchPlannedStep | src/main.cpp:36-71 | the drain plan run after one more block, from where the last recorded drain stopped, extends the per-block record of drains |
| Stretch.SoundTouchPlannedDrained | src/main.cpp:36-71 | drains recorded as drain plans never moved dest_pos back, stayed in the destination, and each stopped on a full destination or numSamples() answering 0 for the input, flush count and frames received after its block |
| Stretch.Rising | src/main.cpp:57-70 | drains that each start where the last stopped and never move dest_pos back leave it rising from block to block |
| Stretch.FeedPassSoundTouch | src/main.cpp:37-51 | the feed half of a pass moves the loop from its state before block k to its state awaiting the drain, with the log holding the earlier blocks' calls then this block's putSamples (and flush()) |
| Stretch.DrainPassSoundTouch | src/main.cpp:53-71 | the drain half of a pass makes exactly the drain plan's calls from the previous stop, and leaves the loop at block k + 1 with that drain recorded and appended to the log |
| Stretch.SoundTouchPassed | src/main.cpp:36-71 | a drain after block k that made the drain plan's calls from the previous stop moves every loop fact, the record of drains and the whole call log from block k to block k + 1 |
| Stretch.StepSoundTouch | src/main.cpp:36-72 | one pass of the outer loop moves every loop fact from block k to block k + 1: the block's putSamples (and flush()) and then its drain plan's receives are appended to the log, and the drain's stop is recorded |
| Stretch.LoopSoundTouch | src/main.cpp:34-72 | the outer loop runs once per block, feeds the whole source interleaved, drains after every block, and makes exactly the calls BlockCalls(length, drains), each drain being the drain plan from the previous stop; the destination prefix is what was handed out and the frames after it are unchanged |
| Stretch.SoundTouchFinished | src/main.cpp:34-74 | once the loop has left, the loop facts give, counted from the engine's state before it: the whole source as input, one flush() for a non-empty source, the owed feed calls, the destination prefix handed out with the rest still zero, one drain per block, and every drain as planned |
| Stretch.FillSoundTouch | src/main.cpp:29-74 | the loop over a zeroed destination: the whole source fed through the owed calls, the whole call log as BlockCalls of the drains, each drain planned and stopping on a full destination or numSamples() = 0, the prefix handed out and the rest zero |
| Stretch.StretchSoundTouch | src/main.cpp:15-75 | stretch() returns a fresh C-channel buffer of DestLength frames; the engine got the whole source, one putSamples per block and one flush(); its whole call log is each block's putSamples (and flush()) followed by its drain's receives, each of min(numSamples(), 2048, room left) frames; each drain ended on a full destination or numSamples() = 0; the destination's prefix is what the engine handed out and the rest is still zero |
| Stretch.PointHeads | src/main.cpp:103-105 | every channel's pointer is set to frame pos of that channel's array; the same loop sets dest_heads at lines 121-123 |
| Stretch.ProcessBlockRubberBand | src/main.cpp:101-109 | num_to_send is the block length and `finished` marks the last block; every channel's input grows by its frames [src_pos, src_pos + num_to_send), the final count by one exactly when finished, and the log by one Process(num_to_send, finished) |
| Stretch.FeedRubberBand | src/main.cpp:101-109 | one more block is submitted through per-channel pointers at src_pos: each channel's input grows by its block, the final count by one exactly on the last block, and the log by one process call flagged final exactly on the last block; the engine has then been given min((k+1) * 2048, length) frames through the first k + 1 owed calls |
| Stretch.RetrieveRubberBand | src/main.cpp:121-127 | one retrieve writes only frames [dest_pos, dest_pos + n) of each channel, logs one Retrieve(n), and extends the destination prefix by exactly the frames handed out |
| Stretch.RubberBandDrainPlanStep | src/main.cpp:112-127 | a drain step retrieving n frames, when n is not 0, leaves the calls made plus the rest of the plan equal to the plan from the step's start, stopping at the same place and returning early exactly when it does |
| Stretch.RubberBandDrainRetrieves | src/main.cpp:111-128 | every call of a RubberBand drain retrieves 1 to 2048 frames, and together they retrieve exactly the frames from where the drain started to where it stopped |
| Stretch.RetrieveStepRubberBand | src/main.cpp:112-127 | one retrieving pass of the drain loop takes min(available(), 2048, room left) frames and keeps the drain loop's invariant: the calls made plus the rest of the plan are the plan from the drain's start |
| Stretch.DrainRubberBand | src/main.cpp:111-128 | the drain loop terminates; it makes exactly the retrieve calls of the drain plan, stops where the plan does and returns early exactly when the plan does: on the sentinel -1 or on ready output with a full destination; it goes on to the next block only when available() is 0; the frames after the new dest_pos are unchanged |
| Stretch.RubberBandPlannedStep | src/main.cpp:100-128 | the drain plan run after one more block, from where the last recorded drain stopped, extends the per-block record of drains, counting it as one that went on unless it returned |
| Stretch.RubberBandPlannedDrained | src/main.cpp:100-128 | drains recorded as drain plans never moved dest_pos back, stayed in the destination, and each that went on ended on available() answering 0 for the input, final count and frames retrieved after its block |
| Stretch.FeedPassRubberBand | src/main.cpp:101-109 | the feed half of a pass moves the loop from its state before block k to its state awaiting the drain, with the log holding the earlier blocks' calls then this block's process call |
| Stretch.DrainPassRubberBand | src/main.cpp:111-128 | the drain half of a pass makes exactly the drain plan's calls from the previous stop, returns early exactly when the plan does, and leaves the loop at block k + 1 with that drain recorded and appended to the log |
| Stretch.RubberBandPassed | src/main.cpp:100-128 | a drain after block k that made the drain plan's calls from the previous stop moves every loop fact, the record of drains and the whole call log from block k to block k + 1 |
| Stretch.StepRubberBand | src/main.cpp:100-128 | one pass of the outer loop moves every loop fact from block k to block k + 1: the block's process call and then its drain plan's retrieves are appended to the log, the drain's stop is recorded, and `done` says whether stretch() returns there |
| Stretch.LoopRubberBand | src/main.cpp:98-129 | the outer loop ends with the loop facts holding for the blocks it fed and the whole call log BlockCalls(length, drains); every drain but an early-returning one ended on available() = 0; an early return was on the sentinel or a full destination with output ready; otherwise all blocks were fed and the last answer was 0 |
| Stretch.RubberBandFinished | src/main.cpp:98-132 | once the loop has left, the loop facts give, counted from the engine's state before it: min(k * 2048, length) frames of each channel through the first k owed process calls, the destination prefix handed out with the rest still zero, every drain as planned, and the three ways the loop can end |
| Stretch.FillRubberBand | src/main.cpp:93-132 | the loop over a zeroed destination: min(k * 2048, length) frames fed through the first k owed process calls, the whole call log as BlockCalls of the drains, each drain planned, the three ways it ends, the prefix handed out and the rest zero |
| Stretch.RubberBandPlanned | src/main.cpp:100-109 | the process calls made for the first k blocks are the first k calls owed, and all of them once the loop passed the end of the source |
| Stretch.StretchRubberBand | src/main.cpp:77-133 | stretch() returns a fresh C-channel buffer of DestLength frames; the engine got min(k * 2048, length) frames of each channel through the first k owed process calls, all of them unless it returned early; its whole call log is each block's process call followed by its drain's retrieves, each of min(available(), 2048, room left) frames; every drain but the last ended on available() = 0; the three ways it stops; the destination's prefix is what it handed out and the rest is still zero |

## Left out

- The engines' own behaviour is not modelled: SoundTouch's `putSamples`, `numSamples`, `receiveSamples` and `flush`, and RubberBand's `process`, `available` and `retrieve`. They are foreign library code. Their ready counts and outputs are arbitrary functions.
- An engine that breaks its protocol is excluded by the types rather than caught. SoundTouch's ready count is a `nat`, and RubberBand's `available()` is at least -1.
- Engine configuration is not modelled: `setPitchSemiTones`, `setTempo`, `setMaxProcessSize`, `setPitchScale` and `setTimeRatio` (src/main.cpp:25-26, 88-90). It is floating-point parameter setting inside the engines. So `cent_change_amount` does not appear.
- `stretch_amount == 0`: the code only asserts `stretch_amount >= 0` and then passes `1 / stretch_amount` to `setTempo`. The model follows the code: the only precondition is `stretchAmount >= 0.0`, and a zero ratio gives a zero-length destination.
- Stretch.DestLength: computed with exact reals, not doubles. The product's rounding in double precision is not modelled.
- `assert(st.available() == -1)` at src/main.cpp:131 is not modelled as a check, because it cannot hold when reached for a non-empty source. Stretch.StretchRubberBand proves that a loop that ends normally on a non-empty source ended on `available()` answering 0. No call is made between that answer and the assert, and `available()` is a function of the engine's state, so the assert sees 0 and fails. Only the two early returns avoid it. For an empty source, whether it holds depends on what a fresh engine answers.
- Integer widths are not modelled. `int` overflow of `src_pos`, `dest_pos` or `samples * channels`, and the `std::min<int>` conversion of an unsigned `numSamples()`, are left out; all counters are unbounded.
- `runner` and `main` (src/main.cpp:135-205) are not modelled: file loading and saving, channel copying, library selection. They are I/O glue.
- `Buffer.hpp` is not part of this model. `Buffer<float>` is modelled from how `src/main.cpp` uses it: `channels()`, `samples()` and `data()[ch]`.
- Stretch.StretchRubberBand: the frames filled, the per-block stops (`marks`), each drain's calls (`drains`) and whether it returned early (`stopped`) are ghost results. The source returns only `dest`.
- Stretch.StretchSoundTouch: the frames filled, the per-block stops (`marks`) and each drain's calls (`drains`) are ghost results. The source returns only `dest`.
- Stretch.LoopRubberBand: the early `return dest` inside the drain loop is modelled as a flag that ends the outer loop, with nothing after the loop. The effect is the same.
- Buffers.Buffer.constructor: the initial sample value is a parameter (`zero`, 0.0f for `Buffer<float>`). Buffer.hpp is not part of this model, so its zero-filling is assumed rather than read.
