/** The message handler (`onmessage`) of the two processors: the control
    surface that creates the engine and sizes the buffers, and forwards live
    parameter changes to the engine between callbacks. */
module Control {
  import opened Wrappers
  import opened Engine
  import opened Adapter

  /** The inbound messages, by their `type` field. `Unrecognized` is any other
      type, including a message without one. */
  datatype Message =
    | SendWasmModule
    | InitProcessor(sampleRate: real, blockSize: nat, delayLength: real, wetAmount: real, feedback: real)
    | InitDetector(sampleRate: real, numAudioSamplesPerAnalysis: nat)
    | SetWetAmount(value: real)
    | SetFeedbackAmount(value: real)
    | SetDelayLength(value: real)
    | Unrecognized

  /** A handler that throws: the delay effect calls a setter on its engine
      handle while that handle is still null. */
  datatype Fault = NullProcessor

  /** The message that initialises a variant. */
  predicate IsInit(v: Variant, m: Message)
  {
    match v
    case Effect => m.InitProcessor?
    case Pitch => m.InitDetector?
  }

  /** A live parameter change. */
  predicate Tuning(m: Message)
  {
    m.SetWetAmount? || m.SetFeedbackAmount? || m.SetDelayLength?
  }

  /** The engine parameter a tuning message names. */
  function ParamOf(m: Message): Param
    requires Tuning(m)
  {
    match m
    case SetWetAmount(_) => WetAmount
    case SetFeedbackAmount(_) => FeedbackAmount
    case SetDelayLength(_) => DelayLength
  }

  /** The engine configuration an initialisation message carries. */
  function ConfigOf(m: Message): Config
    requires m.InitProcessor? || m.InitDetector?
  {
    match m
    case InitProcessor(rate, size, delay, wet, fb) => EffectConfig(rate, size, delay, wet, fb)
    case InitDetector(rate, size) => DetectorConfig(rate, size)
  }

  /** A tuning message on an initialised processor. The delay effect passes it
      to the engine's setter; the pitch detector recognises no such message. */
  function Tune<E(!new)>(p: Processor<E>, api: Api<E>, m: Message): (q: Processor<E>)
    requires Tuning(m) && p.engine.Some?
    ensures q == p.(engine := q.engine)
    ensures p.variant == Effect ==> q.engine == Some(api.tune(p.engine.value, ParamOf(m), m.value))
    ensures p.variant == Pitch ==> q == p
  {
    match p.variant
    case Effect => p.(engine := Some(api.tune(p.engine.value, ParamOf(m), m.value)))
    case Pitch => p
  }

  /** `onmessage`. Initialisation creates a fresh engine and resizes and
      pre-fills both buffers; a tuning message touches only the engine; every
      other message leaves the processor as it was. The `send-wasm-module`
      message starts an asynchronous compile whose completion only posts a
      reply, so it changes nothing here. */
  function OnMessage<E(!new)>(p: Processor<E>, api: Api<E>, m: Message): (r: Result<Processor<E>, Fault>)
    requires Valid(p)
    ensures r.Ok? ==> Valid(r.value) && r.value.variant == p.variant
    ensures r.Err? <==> p.variant == Effect && Tuning(m) && p.engine.None?
    ensures IsInit(p.variant, m) ==>
      && r.Ok?
      && r.value.engine == Some(api.create(ConfigOf(m)))
      && r.value.blockSize == ConfigOf(m).blockSize
      && |r.value.processBuffer| == r.value.blockSize
      && Pending(r.value) == []
      && |Queued(r.value)| == Prefill(p.variant, r.value.blockSize)
      && forall i :: 0 <= i < |Queued(r.value)| ==> Queued(r.value)[i] == 0.0
    ensures Tuning(m) && r.Ok? ==> r.value == p.(engine := r.value.engine)
    ensures Tuning(m) && p.variant == Effect && r.Ok? ==>
      r.value.engine == Some(api.tune(p.engine.value, ParamOf(m), m.value))
    ensures !IsInit(p.variant, m) && !(Tuning(m) && p.variant == Effect) ==> r == Ok(p)
    ensures r.Ok? && r.value.engine.Some? && p.engine.None? ==> IsInit(p.variant, m)
  {
    if IsInit(p.variant, m) then
      var config := ConfigOf(m);
      Ok(Configure(p.variant, api.create(config), config.blockSize))
    else if Tuning(m) && p.variant == Effect then
      if p.engine.None? then Err(NullProcessor) else Ok(Tune(p, api, m))
    else
      Ok(p)
  }
}
