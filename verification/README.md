# Quantum-to-block adapter of the rust-wasm-audio-test worklet processors

The two AudioWorklet processors of rust-wasm-audio-test do the same work on
each `process()` call:

- `Processor`, the delay effect, in `public/Processor.js`.
- `PitchProcessor`, the pitch detector, in `public/PitchProcessor.js`.

The host hands them a render quantum of input and expects a quantum of output
back. The engine compiled to WebAssembly wants whole blocks of `B` samples.
Each processor bridges the two with a pair of fixed-capacity `Float32Array`s,
each with a count of live samples:

- the **delay queue** (`outputBuffer` / `numOutputBufferSamples`), played from its head;
- the **accumulator** (`processBuffer` / `numProcessBufferSamples`), filled until it holds a block.

A callback does three things in order:

1. It drains one quantum from the queue head to the output and shifts the rest forward.
2. It appends the input quantum to the accumulator.
3. If the accumulator holds a block and an engine exists, it runs the engine once, in place. It then pushes the first `B` samples onto the queue tail and compacts the accumulator.

The `init-processor` / `init-detector` message creates the engine and sizes
both buffers. It also fills the queue with zeros: `2B` of them for the effect
and `B + 128` for the detector. That pre-fill is the output latency. On the
effect, `set-*` messages retune the engine between callbacks.

The model has these modules:

- `Buffers`: sample arrays as `seq<Sample>`. Its three copy loops are methods proved equal to slice-based definitions.
- `Engine`: the engine boundary. The engine is a state type `E`, a constructor, parameter setters, and a block kernel that preserves the length of its block. Its DSP is not modelled.
- `Adapter`: the processor state and a single `Variant` tag for effect versus detector. It also holds the functional model of the callback (`Drain`, `Append`, `Dispatch`, `Process`) and its one-callback FIFO and block-order laws.
- `Worklet`: the callback written as the processors run it, with in-place index loops in the source's order. It is proved to compute exactly `Adapter.Process`.
- `Control`: `onmessage`, as a function from a processor and a message to a processor or a fault.
- `Session`: replays interleaved messages and callbacks. This module holds the whole-session theorems:
  - the queue is a FIFO;
  - the engine sees the input as consecutive whole blocks;
  - the output is exactly the pre-fill's silence followed by the engine's blocks;
  - the buffers stay in bounds when the quantum divides the block;
  - nothing reaches the engine before initialisation.

The engine runs at most once per callback: the trigger is a single `if`
(`public/Processor.js:97`, `public/PitchProcessor.js:85`). A quantum longer
than a block would overflow the accumulator, and the preconditions exclude it.

## Model

| member | source | states |
|---|---|---|
| Buffers.CopyHead | public/Processor.js:81-83 | The output loop yields exactly the first `len` queue samples, in order. |
| Buffers.ShiftLeftLoop | public/Processor.js:85-88 | The forward shift moves the `n` samples at `offset` to the front and leaves every slot from `n` on as it was. It equals the slice definition `ShiftLeft`. |
| Buffers.OverwriteLoop | public/Processor.js:91-93 | The write loop puts `src` at `at` and leaves the slots before and after the written range untouched. It equals the slice definition `Overwrite`. |
| Adapter.Configure | public/Processor.js:49-52 | After initialisation the accumulator has capacity `B` and nothing pending. The queue holds its full capacity of zeros: `2B` for the effect and `B + 128` for the detector. |
| Adapter.Drain | public/Processor.js:81-89 | The quantum played is the head `len` samples of the queue. The queue keeps the rest, in order, and is shorter by `len`. Nothing but the queue changes. |
| Adapter.Append | public/Processor.js:91-94 | The pending samples become the old pending samples followed by the input. The count grows by `len`, slots past the count are unchanged, and nothing but the accumulator changes. |
| Adapter.Dispatch | public/Processor.js:97-128 | The engine gets the pending block. Its output is pushed behind what is already queued, so the queue grows by `B`. The pending samples lose their first block, in order, and the engine's new state is kept. |
| Adapter.Process | public/Processor.js:63-133 | A callback plays the queue head and always returns true. It runs the engine exactly when an engine exists and the accumulator reaches `B`. Both counts change by the stated amounts and the state stays well formed. |
| Adapter.ProcessEffect | public/PitchProcessor.js:85-112 | With no engine run, the queue loses its head quantum, the input is appended to the accumulator, and the engine is untouched. With a run, the engine gets pending plus input as one block, its output is queued whole, and the accumulator empties. The detector posts a pitch exactly when the engine reports a non-zero one; the effect never posts one. |
| Adapter.ProcessQueue | public/Processor.js:81-89 | One callback is a FIFO step: played output followed by the new queue equals the old queue followed by the pushed block. |
| Adapter.ProcessBlocks | public/Processor.js:91-128 | One callback keeps block order: pending followed by input equals the engine's block followed by the new pending samples. The engine gets and returns a whole block or nothing. |
| Worklet.IntakeInPlace | public/Processor.js:79-94 | The in-place output, shift and append loops compute exactly `Drain` followed by `Append`. |
| Worklet.DispatchInPlace | public/Processor.js:105-128 | The in-place engine run, push loop and compaction loop compute exactly `Dispatch`. |
| Worklet.ProcessInPlace | public/PitchProcessor.js:67-116 | The whole callback, run the way the processors run it, computes exactly `Process`. That includes the single `if` and the non-zero pitch emission. |
| Control.Tune | public/Processor.js:54-60 | A `set-*` message hands its value to the matching engine setter and changes nothing else. The detector ignores such messages. |
| Control.OnMessage | public/Processor.js:24-61 | Initialisation creates the engine from the message and sizes and zero-fills both buffers. A `set-*` message on the effect fails exactly when the engine is still null. Tuning touches only the engine. Every other message leaves the processor unchanged. Only an initialisation message can create the engine. |
| Session.Step | public/Processor.js:24-133 | One event keeps the processor well formed and of the same variant, and plays one output sample per input sample. |
| Session.Replay | public/PitchProcessor.js:23-117 | Replaying a session keeps the processor well formed and of the same variant, and plays as many samples as it takes in. |
| Session.FedIsInput | public/Processor.js:91-94 | A replay takes in exactly the session's callback inputs, in order. |
| Session.StepQueue | public/Processor.js:85-89 | Any one event other than initialisation is a FIFO step of the queue. |
| Session.StepBlocks | public/Processor.js:91-128 | Any one event other than initialisation keeps block order and feeds the engine a whole number of blocks. |
| Session.QueueOrder | public/Processor.js:81-120 | Across a session with no re-initialisation, the output followed by what is still queued equals the initial queue followed by every engine block, in order. Nothing is lost, repeated or reordered. |
| Session.BlockOrder | public/Processor.js:91-128 | Across such a session, the initial pending samples followed by all input equal everything given to the engine followed by what is still pending. The engine gets a whole number of blocks and produces as many samples. |
| Session.SteadyBounds | public/Processor.js:85-89 | Before each callback of a steady session, the live length lies within `[prefill - B + q, prefill]`. That is `[B + q, 2B]` for the effect and `[q + 128, B + 128]` for the detector. The accumulator has room for one more quantum. |
| Session.ProcessSteady | public/Processor.js:85-128 | A steady processor can take a quantum of `q` samples without a read or write outside the live buffers, and stays steady. |
| Session.StepSteady | public/Processor.js:54-128 | A steady processor can take any callback of `q` samples or any message other than its own initialisation, and stays steady with the same block size. |
| Session.SteadySession | public/Processor.js:63-133 | A regular session from a steady processor never leaves the buffers' bounds and ends steady. |
| Session.ConfigureSteady | public/Processor.js:49-52 | A freshly initialised processor is steady for any positive quantum that divides a positive block, for either variant. Its queue is the pre-fill's zeros and nothing is pending. |
| Session.RegularSessionRuns | public/PitchProcessor.js:42-45 | After initialisation, any session of equal positive quanta that divide the block, interleaved with any messages other than the processor's own initialisation, stays within the buffers. The other processor's initialisation message is ignored and allowed. |
| Session.PrefillOrder | public/Processor.js:50-52 | In any session after initialisation that stays in the buffers and does not re-initialise, the output followed by what is still queued equals the pre-fill's zeros followed by every engine block. |
| Session.Latency | public/PitchProcessor.js:43-45 | In any such session, output sample `k` is zero below the pre-fill. From there on it is engine sample `k - prefill`. The output never runs ahead of the pre-fill plus what the engine produced. |
| Session.WholeBlocks | public/Processor.js:97-128 | In a session of equal quanta that divide the block, interleaved with any messages other than the processor's own initialisation, the engine gets the input in order as the largest whole number of blocks it holds, and produces as many samples. |
| Session.IdleBeforeInit | public/Processor.js:97 | Before the initialisation message, no message and no empty callback reaches the engine, and no pitch is posted. The processor stays as the constructor left it. On the effect, `set-*` messages meanwhile fail and change nothing. |
| Session.SteadyWhole | public/PitchProcessor.js:106-112 | When the quantum is a whole block, a steady processor has an empty accumulator and its full pre-fill queued. |
| Session.ScenarioState | public/PitchProcessor.js:99-112 | With the quantum equal to the block, a steady session ends with nothing pending and the full pre-fill queued. |
| Session.PitchScenario | public/PitchProcessor.js:43-116 | On the detector with `B = 128` and three 128-sample callbacks, the first 256 output samples are silence and the next 128 are the detector's first block. The session ends with nothing pending and 256 samples queued. |

## Left out

- The engines' DSP is not modelled. The pitch detector's engine `WasmPitchDetector` in `wasm-audio/src/lib.rs` does f32 sine injection, phase wrapping and McLeod pitch detection. The delay effect's engine `WasmProcessor` (imported at public/Processor.js:2) is not part of this model's sources and is abstracted the same way. Each engine is a length-preserving kernel over an abstract state. The detector's current `detect_pitch` always reports 0.0, which the model allows but does not assume.
- Adapter.Process: a NaN pitch report is not modelled. The source tests `result !== 0` on an f32 (public/PitchProcessor.js:93), which also posts NaN, and a real has no NaN.
- Samples are reals. The adapter only copies them, so f32 rounding plays no part in what is proved.
- The asynchronous Wasm compile and its `wasm-module-loaded` reply (public/Processor.js:29-31) are not modelled. The `send-wasm-module` message leaves the processor state unchanged. `registerProcessor` and the port wiring are left out too.
- The `saved` copy of the block (public/Processor.js:98-101, public/PitchProcessor.js:86-89) is dead code. So is the `levels` side channel, whose message is commented out (public/Processor.js:16, 53, 103-111).
- A callback with a non-empty quantum before initialisation is not modelled. It works on the constructor's plain empty arrays: it reads `undefined` from the empty queue and so plays NaN samples into the host's `Float32Array` output, grows the accumulator array, and drives the live length negative, until initialisation replaces all four fields. `Session.Step` yields `None` there.
- Session.IdleBeforeInit: covers messages and zero-length callbacks only. A non-empty callback before initialisation leaves the model, so the lemma says nothing about it, although in the source such a callback does not run the engine either, because the trigger also tests the engine handle (public/Processor.js:97).
- A quantum that would read or write past a buffer's live part is not modelled. That means a quantum longer than the queue's live length, an accumulator overflow, or a push past the queue's capacity. In JavaScript their effects differ. A quantum longer than the live length but within capacity plays stale samples that an earlier shift left past the live part. Reads past a typed array's capacity give `undefined`, and writes there are dropped. After an accumulator overflow, the compaction loop reads past the capacity and writes NaN into the accumulator's front (public/Processor.js:124-125). Here they are `Adapter.CanProcess` preconditions, and `Session.Step` yields `None`.
- A callback whose input has no channel is not modelled. That happens when the input has no active connection: `inputs[0]` is empty, `inputSamples.length` throws (public/Processor.js:77-79, public/PitchProcessor.js:65-67), and the host puts the processor into an error state. `Session.Audio` always carries one channel.
- Several dispatches in one callback for a quantum longer than a block are not modelled, because the code has a single `if`.
- An initialisation whose engine constructor throws is not modelled; the engine constructor is a total function here.
- Two main-thread files are not part of this model. `src/ProcessorNode.js` is the relay, and its `set-*` forwards carry no `type` field, so they would arrive as `Unrecognized`. `src/setupAudio.js` is the audio setup. The React UI in `src/App.js` is left out as well.
