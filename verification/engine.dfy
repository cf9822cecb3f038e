/** The boundary of the external engine compiled to WebAssembly: the delay effect
    (`WasmProcessor`) or the pitch detector (`WasmPitchDetector`). Its DSP is
    opaque; the model keeps only what the adapter relies on. */
module Engine {
  import opened Buffers

  /** What an `init-*` message hands to the engine constructor. */
  datatype Config =
    | EffectConfig(sampleRate: real, blockSize: nat, delayLength: real, wetAmount: real, feedback: real)
    | DetectorConfig(sampleRate: real, blockSize: nat)

  /** The live parameters of the delay effect. */
  datatype Param = WetAmount | FeedbackAmount | DelayLength

  /** One engine invocation: its next internal state, the buffer contents it
      leaves behind (it works in place) and, for the detector, the pitch it
      reports (0 meaning "no pitch"). */
  datatype Outcome<E> = Outcome(state: E, block: seq<Sample>, pitch: real)

  /** An engine invocation on a block. It rewrites the block in place, so the
      block it leaves behind has the length of the one it was given. */
  type Kernel<!E(!new)> = run: (E, seq<Sample>) -> Outcome<E>
    | forall e, b :: |run(e, b).block| == |b|
    witness (e: E, b: seq<Sample>) => Outcome(e, b, 0.0)

  /** The engine as the adapter sees it: a constructor, an in-place block
      kernel and parameter setters, each a pure function of the engine state. */
  datatype Api<!E(!new)> = Api(create: Config -> E, run: Kernel<E>, tune: (E, Param, real) -> E)
}
