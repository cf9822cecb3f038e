/** The `process()` callback written the way the worklet processors run it:
    index loops over fixed-capacity buffers, in the source's order. Each stage
    is proved to compute exactly its functional counterpart in `Adapter`, and
    the whole callback exactly `Adapter.Process`. */
module Worklet {
  import opened Wrappers
  import opened Buffers
  import opened Engine
  import opened Adapter

  /** Steps 1 and 2 in place: copy the head of the delay queue to the output,
      shift the rest of the queue to the front, and write the input quantum
      after the accumulated samples. */
  method IntakeInPlace<E>(p: Processor<E>, input: seq<Sample>) returns (output: seq<Sample>, q: Processor<E>)
    requires CanProcess(p, |input|)
    ensures var (played, drained) := Drain(p, |input|);
      output == played && q == Append(drained, input)
  {
    var len := |input|;

    // Output the head of the delay queue, then shift the rest to the front.
    output := CopyHead(p.outputBuffer, len);
    var numToMove := p.live - len;
    var outputBuffer := ShiftLeftLoop(p.outputBuffer, len, numToMove);

    // Append the input quantum to the accumulator.
    var processBuffer := OverwriteLoop(p.processBuffer, p.count, input);

    q := p.(outputBuffer := outputBuffer, live := numToMove,
            processBuffer := processBuffer, count := p.count + len);
    assert output == p.outputBuffer[..len];
  }

  /** Step 3 in place: run the engine on the accumulator, push the first
      block it leaves onto the queue tail, and move what lies beyond the
      block to the front of the accumulator. */
  method DispatchInPlace<E(!new)>(p: Processor<E>, run: Kernel<E>) returns (f: Fired<E>)
    requires Valid(p) && Ready(p)
    requires p.live + p.blockSize <= |p.outputBuffer|
    ensures f == Dispatch(p, run)
  {
    var o := run(p.engine.value, p.processBuffer);

    // Push the processed block onto the queue tail.
    var currentSize := p.live;
    var outputBuffer := OverwriteLoop(p.outputBuffer, currentSize, o.block[..p.blockSize]);

    // Move what lies beyond the block to the front of the accumulator.
    var leftover := p.count - p.blockSize;
    var processBuffer := ShiftLeftLoop(o.block, p.blockSize, leftover);

    var next := p.(outputBuffer := outputBuffer, live := currentSize + p.blockSize,
                   processBuffer := processBuffer, count := leftover,
                   engine := Some(o.state));
    f := Fired(next, p.processBuffer[..p.blockSize], o.block[..p.blockSize], o.pitch);
  }

  /** The whole callback: intake, then a single engine run once a block has
      accumulated, posting the pitch report of the pitch variant when it is
      non-zero. */
  method ProcessInPlace<E(!new)>(p: Processor<E>, run: Kernel<E>, input: seq<Sample>) returns (r: Callback<E>)
    requires CanProcess(p, |input|)
    ensures r == Process(p, run, input)
  {
    var output, q := IntakeInPlace(p, input);
    if q.count >= q.blockSize && q.engine.Some? {
      var f := DispatchInPlace(q, run);
      var pitch: Option<real> := None;
      if p.variant == Pitch && f.detected != 0.0 {
        pitch := Some(f.detected);
      }
      r := Callback(f.next, output, Some(Block(f.consumed, f.produced)), pitch, true);
    } else {
      r := Callback(q, output, None, None, true);
    }
  }
}
