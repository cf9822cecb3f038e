/** The quantum-to-block adapter shared by the two AudioWorklet processors
    (`public/Processor.js`, the delay effect, and `public/PitchProcessor.js`,
    the pitch detector). Each host callback drains one quantum from a delay
    queue to the output, appends the input quantum to a block accumulator and,
    once the accumulator holds a block, runs the engine on it once and pushes
    the processed block onto the queue.

    Both buffers are fixed-capacity arrays with a count of live samples; the
    views `Pending` and `Queued` read them as plain sequences. */
module Adapter {
  import opened Wrappers
  import opened Buffers
  import opened Engine

  /** Which of the two processors this is. */
  datatype Variant = Effect | Pitch

  /** The render quantum of the Web Audio API; the pitch variant sizes its
      delay queue one quantum beyond a block. */
  const RenderQuantum: nat := 128

  /** Capacity of the delay queue, and the number of zeros it starts with. */
  function Prefill(v: Variant, blockSize: nat): nat
  {
    match v
    case Effect => blockSize + blockSize
    case Pitch => blockSize + RenderQuantum
  }

  /** The processor's fields: `blockSize` (`numAudioSamplesPerAnalysis` in the
      pitch variant), the accumulator `processBuffer` with its count
      `numProcessBufferSamples`, the delay queue `outputBuffer` with its
      live-length `numOutputBufferSamples`, and the engine handle (`processor`
      or `detector`), null until initialisation. */
  datatype Processor<E> = Processor(
    variant: Variant,
    blockSize: nat,
    processBuffer: seq<Sample>,
    count: nat,
    outputBuffer: seq<Sample>,
    live: nat,
    engine: Option<E>)

  /** The samples accumulated towards the next block, oldest first. */
  function Pending<E>(p: Processor<E>): seq<Sample>
    requires p.count <= |p.processBuffer|
  {
    p.processBuffer[..p.count]
  }

  /** The samples waiting in the delay queue, the next to be played first. */
  function Queued<E>(p: Processor<E>): seq<Sample>
    requires p.live <= |p.outputBuffer|
  {
    p.outputBuffer[..p.live]
  }

  /** The state the constructor leaves: empty buffers and no engine. */
  function Fresh<E>(v: Variant): Processor<E>
  {
    Processor(v, 0, [], 0, [], 0, None)
  }

  /** The shape every reachable processor has. Before initialisation the
      buffers are the constructor's empty arrays; afterwards the accumulator
      has capacity `blockSize`, the queue has its variant's capacity, and both
      counts stay within their capacities. */
  predicate Valid<E>(p: Processor<E>)
  {
    if p.engine.Some? then
      && |p.processBuffer| == p.blockSize
      && |p.outputBuffer| == Prefill(p.variant, p.blockSize)
      && p.count <= p.blockSize
      && p.live <= |p.outputBuffer|
    else
      && p.processBuffer == []
      && p.outputBuffer == []
      && p.count == 0
      && p.live == 0
  }

  /** The buffer sizing and pre-fill of an `init-processor` /
      `init-detector` message, given the engine it has just created. */
  function Configure<E>(v: Variant, engine: E, blockSize: nat): (p: Processor<E>)
    ensures Valid(p)
    ensures p.variant == v && p.blockSize == blockSize && p.engine == Some(engine)
    ensures |p.processBuffer| == blockSize && Pending(p) == []
    ensures |Queued(p)| == Prefill(v, blockSize) == |p.outputBuffer|
    ensures forall i :: 0 <= i < |Queued(p)| ==> Queued(p)[i] == 0.0
  {
    var prefill := Prefill(v, blockSize);
    Processor(v, blockSize, Zeros(blockSize), 0, Zeros(prefill), prefill, Some(engine))
  }

  /** Step 1 of a callback: hand the head `len` samples of the delay queue to
      the host and shift the rest to the front. */
  function Drain<E>(p: Processor<E>, len: nat): (r: (seq<Sample>, Processor<E>))
    requires len <= p.live <= |p.outputBuffer|
    ensures r.0 == Queued(p)[..len]
    ensures r.1.live == p.live - len && |r.1.outputBuffer| == |p.outputBuffer|
    ensures Queued(r.1) == Queued(p)[len..]
    ensures r.1 == p.(outputBuffer := r.1.outputBuffer, live := r.1.live)
  {
    var numToMove := p.live - len;
    (p.outputBuffer[..len], p.(outputBuffer := ShiftLeft(p.outputBuffer, len, numToMove), live := numToMove))
  }

  /** Step 2: write the input quantum after the accumulated samples. */
  function Append<E>(p: Processor<E>, input: seq<Sample>): (q: Processor<E>)
    requires p.count + |input| <= |p.processBuffer|
    ensures q.count == p.count + |input| && |q.processBuffer| == |p.processBuffer|
    ensures Pending(q) == Pending(p) + input
    ensures q.processBuffer[q.count..] == p.processBuffer[q.count..]
    ensures q == p.(processBuffer := q.processBuffer, count := q.count)
  {
    p.(processBuffer := Overwrite(p.processBuffer, p.count, input), count := p.count + |input|)
  }

  /** The trigger of step 3: a full block and an engine to run it. */
  predicate Ready<E>(p: Processor<E>)
  {
    p.engine.Some? && p.count >= p.blockSize
  }

  /** What one engine run produced: the processor afterwards, the block the
      engine was given, the block it left in place, and its pitch report. */
  datatype Fired<E> = Fired(next: Processor<E>, consumed: seq<Sample>, produced: seq<Sample>, detected: real)

  /** Step 3: run the engine in place on the accumulator, push the first
      `blockSize` samples it leaves onto the queue tail, and move any samples
      beyond the block to the front of the accumulator. */
  function Dispatch<E(!new)>(p: Processor<E>, run: Kernel<E>): (r: Fired<E>)
    requires Valid(p) && Ready(p)
    requires p.live + p.blockSize <= |p.outputBuffer|
    ensures var o := run(p.engine.value, Pending(p));
      && r.consumed == Pending(p)
      && r.produced == o.block
      && r.detected == o.pitch
      && r.next.engine == Some(o.state)
    ensures |r.consumed| == |r.produced| == p.blockSize
    ensures Valid(r.next)
    ensures r.next.variant == p.variant && r.next.blockSize == p.blockSize
    ensures r.next.live == p.live + p.blockSize
    ensures Queued(r.next) == Queued(p) + r.produced
    ensures r.next.count == p.count - p.blockSize
    ensures Pending(r.next) == Pending(p)[p.blockSize..]
  {
    var B := p.blockSize;
    var o := run(p.engine.value, p.processBuffer);
    var numToMove := p.count - B;
    var next := p.(
      outputBuffer := Overwrite(p.outputBuffer, p.live, o.block[..B]),
      live := p.live + B,
      processBuffer := ShiftLeft(o.block, B, numToMove),
      count := numToMove,
      engine := Some(o.state));
    assert Pending(p) == p.processBuffer;
    Fired(next, p.processBuffer[..B], o.block[..B], o.pitch)
  }

  /** The block handed to the engine in a callback, and the block it produced. */
  datatype Block = Block(consumed: seq<Sample>, produced: seq<Sample>)

  /** What one `process()` call yields: the next state, the samples written
      to the output channel, the engine run if there was one, the pitch
      message posted if any, and the return value. */
  datatype Callback<E> = Callback(
    next: Processor<E>,
    output: seq<Sample>,
    fired: Option<Block>,
    pitch: Option<real>,
    keepAlive: bool)

  /** What a callback with a quantum of `len` samples needs so that no read or
      write leaves the live part of a buffer: the queue holds the quantum to
      drain, the accumulator has room for the quantum, and if a block is
      pushed the queue has room for it. */
  predicate CanProcess<E>(p: Processor<E>, len: nat)
  {
    && Valid(p)
    && len <= p.live
    && p.count + len <= |p.processBuffer|
    && (p.engine.Some? && p.count + len >= p.blockSize ==> p.live - len + p.blockSize <= |p.outputBuffer|)
  }

  /** One `process()` call: drain, append, and at most one dispatch. The
      callback always plays the head of the queue, runs the engine exactly
      when the accumulator has reached a block, and keeps both counts within
      their capacities; `ProcessEffect` says what the run does to the two
      buffers and what it reports. */
  function Process<E(!new)>(p: Processor<E>, run: Kernel<E>, input: seq<Sample>): (r: Callback<E>)
    requires CanProcess(p, |input|)
    ensures Valid(r.next)
    ensures r.next.variant == p.variant && r.next.blockSize == p.blockSize
    ensures r.keepAlive
    ensures r.output == Queued(p)[..|input|]
    ensures r.fired.Some? <==> p.engine.Some? && p.count + |input| >= p.blockSize
    ensures r.next.live == p.live - |input| + (if r.fired.Some? then p.blockSize else 0)
    ensures r.next.count == p.count + |input| - (if r.fired.Some? then p.blockSize else 0)
  {
    var (output, drained) := Drain(p, |input|);
    var appended := Append(drained, input);
    if Ready(appended) then
      var f := Dispatch(appended, run);
      var pitch := if p.variant == Pitch && f.detected != 0.0 then Some(f.detected) else None;
      Callback(f.next, output, Some(Block(f.consumed, f.produced)), pitch, true)
    else
      Callback(appended, output, None, None, true)
  }

  /** What a callback does with the engine. Without a run the queue loses its
      head quantum, the input is appended to the accumulator, and the engine
      is untouched.
      With one, the engine is given the accumulated samples and the input as
      one block, its output is pushed whole behind what remains queued, the
      accumulator empties, and the engine's new state is kept. The pitch
      variant posts the engine's pitch report when it is non-zero; the
      delay effect never posts one. */
  lemma ProcessEffect<E(!new)>(p: Processor<E>, run: Kernel<E>, input: seq<Sample>)
    requires CanProcess(p, |input|)
    ensures var c := Process(p, run, input);
      c.fired.None? ==>
        && Queued(c.next) == Queued(p)[|input|..]
        && Pending(c.next) == Pending(p) + input
        && c.next.engine == p.engine
        && c.pitch.None?
    ensures var c := Process(p, run, input);
      c.fired.Some? ==>
        var o := run(p.engine.value, Pending(p) + input);
        && c.fired.value == Block(Pending(p) + input, o.block)
        && |o.block| == p.blockSize
        && Queued(c.next) == Queued(p)[|input|..] + o.block
        && Pending(c.next) == []
        && c.next.engine == Some(o.state)
        && (c.pitch.Some? <==> p.variant == Pitch && o.pitch != 0.0)
        && (c.pitch.Some? ==> c.pitch.value == o.pitch)
  {
    var (output, drained) := Drain(p, |input|);
    var appended := Append(drained, input);
    assert Pending(appended) == Pending(p) + input;
  }

  /** The samples a callback handed to the engine, if it ran it. */
  function Consumed<E>(c: Callback<E>): seq<Sample>
  {
    if c.fired.Some? then c.fired.value.consumed else []
  }

  /** The samples a callback pushed onto the delay queue, if it ran the engine. */
  function Produced<E>(c: Callback<E>): seq<Sample>
  {
    if c.fired.Some? then c.fired.value.produced else []
  }

  /** Taking the first `n` samples of `q` and appending `tail` to the rest
      gives back `q` followed by `tail`. */
  lemma SplitJoin(q: seq<Sample>, n: nat, tail: seq<Sample>)
    requires n <= |q|
    ensures q[..n] + (q[n..] + tail) == q + tail
  {
    assert q[..n] + q[n..] == q;
  }

  /** One callback keeps the delay queue in FIFO order: what was queued
      followed by what the engine produced is what was played followed by
      what is queued now. */
  lemma ProcessQueue<E(!new)>(p: Processor<E>, run: Kernel<E>, input: seq<Sample>)
    requires CanProcess(p, |input|)
    ensures var c := Process(p, run, input);
      c.output + Queued(c.next) == Queued(p) + Produced(c)
  {
    var c := Process(p, run, input);
    ProcessEffect(p, run, input);
    assert Queued(c.next) == Queued(p)[|input|..] + Produced(c);
    SplitJoin(Queued(p), |input|, Produced(c));
  }

  /** One callback keeps the input in block order: what was pending followed
      by the input is what the engine was given followed by what is pending
      now, and the engine gives back as many samples as it was given, a
      whole block. */
  lemma ProcessBlocks<E(!new)>(p: Processor<E>, run: Kernel<E>, input: seq<Sample>)
    requires CanProcess(p, |input|)
    ensures var c := Process(p, run, input);
      && Pending(p) + input == Consumed(c) + Pending(c.next)
      && |Consumed(c)| == |Produced(c)| == (if c.fired.Some? then p.blockSize else 0)
  {
    var c := Process(p, run, input);
    ProcessEffect(p, run, input);
    if c.fired.Some? {
      assert Consumed(c) + [] == Consumed(c);
    }
  }
}
