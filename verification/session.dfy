/** A streaming session: control messages and host callbacks interleaved, in
    the order the audio thread sees them. The theorems here are about whole
    sessions: the delay queue loses and reorders nothing, the engine sees the
    input in consecutive blocks, the output lags by exactly the pre-fill, the
    buffers stay in bounds when quanta divide the block, and no engine call
    happens before initialisation. */
module Session {
  import opened Wrappers
  import opened Buffers
  import opened Engine
  import opened Adapter
  import opened Control

  /** What reaches the processor: a message, or a callback with its input. */
  datatype Event = Control(msg: Message) | Audio(input: seq<Sample>)

  /** A session replayed: the final processor, every sample written to the
      output channel, every input sample, every sample handed to the engine,
      and every sample it produced, and the pitches posted. */
  datatype Trace<E> = Trace(
    final: Processor<E>,
    outputs: seq<Sample>,
    fed: seq<Sample>,
    consumed: seq<Sample>,
    produced: seq<Sample>,
    pitches: seq<real>)

  /** A trace with nothing in it: the processor `p` before any event. */
  function Idle<E>(p: Processor<E>): Trace<E>
  {
    Trace(p, [], [], [], [], [])
  }

  /** Trace `a` followed by trace `b`. */
  function Join<E>(a: Trace<E>, b: Trace<E>): Trace<E>
  {
    Trace(b.final, a.outputs + b.outputs, a.fed + b.fed, a.consumed + b.consumed,
          a.produced + b.produced, a.pitches + b.pitches)
  }

  /** One event. A handler that throws leaves the processor as it was, as an
      exception in `onmessage` does. A callback whose quantum would read or
      write outside the live part of a buffer yields `None`: that is beyond
      what the model follows. */
  function Step<E(!new)>(p: Processor<E>, api: Api<E>, e: Event): (r: Option<Trace<E>>)
    requires Valid(p)
    ensures r.Some? ==> Valid(r.value.final) && r.value.final.variant == p.variant
    ensures r.Some? ==> |r.value.outputs| == |r.value.fed|
  {
    match e
    case Control(m) =>
      var q := match OnMessage(p, api, m) case Ok(q) => q case Err(_) => p;
      Some(Idle(q))
    case Audio(x) =>
      if !CanProcess(p, |x|) then None
      else
        var c := Process(p, api.run, x);
        var pitches := if c.pitch.Some? then [c.pitch.value] else [];
        Some(Trace(c.next, c.output, x, Consumed(c), Produced(c), pitches))
  }

  /** Replays `events` from `p`, one `Step` after another; `None` once a
      callback leaves the model. */
  function Replay<E(!new)>(p: Processor<E>, api: Api<E>, events: seq<Event>): (r: Option<Trace<E>>)
    requires Valid(p)
    ensures r.Some? ==> Valid(r.value.final) && r.value.final.variant == p.variant
    ensures r.Some? ==> |r.value.outputs| == |r.value.fed|
    decreases |events|
  {
    if events == [] then
      Some(Idle(p))
    else
      match Step(p, api, events[0])
      case None => None
      case Some(s) =>
        match Replay(s.final, api, events[1..])
        case None => None
        case Some(t) => Some(Join(s, t))
  }

  /** The input samples of a session's callbacks, in order. */
  function Inputs(events: seq<Event>): seq<Sample>
    decreases |events|
  {
    if events == [] then []
    else
      var first := match events[0] case Audio(x) => x case Control(_) => [];
      first + Inputs(events[1..])
  }

  /** A replay takes in exactly the session's input, in order. */
  lemma {:induction false} FedIsInput<E(!new)>(p: Processor<E>, api: Api<E>, events: seq<Event>)
    requires Valid(p)
    requires Replay(p, api, events).Some?
    ensures Replay(p, api, events).value.fed == Inputs(events)
    decreases |events|
  {
    if events != [] {
      ReplayFirst(p, api, events);
      FedIsInput(Step(p, api, events[0]).value.final, api, events[1..]);
    }
  }

  /** `n` is a whole number of `q`-sample units. */
  predicate Multiple(n: nat, q: nat)
    decreases n
  {
    n == 0 || (0 < q <= n && Multiple(n - q, q))
  }

  /** Whole numbers of units add up to a whole number of units. */
  lemma {:induction false} MultipleSum(a: nat, b: nat, q: nat)
    requires Multiple(a, q) && Multiple(b, q)
    ensures Multiple(a + b, q)
    decreases a
  {
    if a != 0 {
      MultipleSum(a - q, b, q);
      assert a + b - q == (a - q) + b;
    }
  }

  /** An event that re-initialises a processor of variant `v`. */
  predicate Reinit(v: Variant, e: Event)
  {
    e.Control? && IsInit(v, e.msg)
  }

  /** No message in `events` re-initialises a processor of variant `v`. */
  predicate NoInit(v: Variant, events: seq<Event>)
  {
    forall i :: 0 <= i < |events| ==> !Reinit(v, events[i])
  }

  lemma NoInitTail(v: Variant, events: seq<Event>)
    requires events != [] && NoInit(v, events)
    ensures !Reinit(v, events[0]) && NoInit(v, events[1..])
  {
    assert forall i :: 0 <= i < |events[1..]| ==> events[1..][i] == events[i + 1];
  }

  /** One event keeps the queue in FIFO order: what was queued followed by
      what the engine produced is what was played followed by what is queued
      now. */
  lemma StepQueue<E(!new)>(p: Processor<E>, api: Api<E>, e: Event)
    requires Valid(p) && !Reinit(p.variant, e)
    requires Step(p, api, e).Some?
    ensures var s := Step(p, api, e).value;
      s.outputs + Queued(s.final) == Queued(p) + s.produced
  {
    match e
    case Control(m) =>
    case Audio(x) =>
      ProcessQueue(p, api.run, x);
  }

  /** One event keeps the input in block order: what was pending followed by
      the input is what the engine was given followed by what is pending
      now, one block per engine run. */
  lemma StepBlocks<E(!new)>(p: Processor<E>, api: Api<E>, e: Event)
    requires Valid(p) && !Reinit(p.variant, e)
    requires Step(p, api, e).Some?
    ensures var s := Step(p, api, e).value;
      && Pending(p) + s.fed == s.consumed + Pending(s.final)
      && |s.consumed| == |s.produced|
      && Multiple(|s.consumed|, p.blockSize)
      && s.final.blockSize == p.blockSize
  {
    match e
    case Control(m) =>
    case Audio(x) =>
      ProcessBlocks(p, api.run, x);
      assert Multiple(p.blockSize, p.blockSize) by {
        if p.blockSize != 0 {
          assert Multiple(p.blockSize - p.blockSize, p.blockSize);
        }
      }
  }

  /** Replaying a non-empty session is its first step joined to the replay
      of the rest. */
  lemma ReplayFirst<E(!new)>(p: Processor<E>, api: Api<E>, events: seq<Event>)
    requires Valid(p) && events != []
    requires Replay(p, api, events).Some?
    ensures Step(p, api, events[0]).Some?
    ensures Replay(Step(p, api, events[0]).value.final, api, events[1..]).Some?
    ensures Replay(p, api, events).value
         == Join(Step(p, api, events[0]).value, Replay(Step(p, api, events[0]).value.final, api, events[1..]).value)
  {
  }

  /** Two FIFO steps compose: if playing `out1` leaves `q1` of `q0` with
      `in1` pushed, and playing `out2` leaves `q2` of `q1` with `in2` pushed,
      then playing both leaves `q2` of `q0` with both pushed. */
  lemma FifoCompose(q0: seq<Sample>, out1: seq<Sample>, in1: seq<Sample>, q1: seq<Sample>,
                    out2: seq<Sample>, in2: seq<Sample>, q2: seq<Sample>)
    requires out1 + q1 == q0 + in1
    requires out2 + q2 == q1 + in2
    ensures (out1 + out2) + q2 == q0 + (in1 + in2)
  {
    calc {
      (out1 + out2) + q2;
      out1 + (out2 + q2);
      out1 + (q1 + in2);
      (out1 + q1) + in2;
      (q0 + in1) + in2;
    }
  }

  /** Two traces that each hand the engine whole blocks of the input, in
      order, joined do so too. */
  lemma JoinBlocks<E>(pending0: seq<Sample>, s: Trace<E>, pending1: seq<Sample>, t: Trace<E>, pending2: seq<Sample>, B: nat)
    requires pending0 + s.fed == s.consumed + pending1
    requires pending1 + t.fed == t.consumed + pending2
    requires |s.consumed| == |s.produced| && Multiple(|s.consumed|, B)
    requires |t.consumed| == |t.produced| && Multiple(|t.consumed|, B)
    ensures var j := Join(s, t);
      && pending0 + j.fed == j.consumed + pending2
      && |j.consumed| == |j.produced|
      && Multiple(|j.consumed|, B)
  {
    FifoCompose(pending0, s.consumed, s.fed, pending1, t.consumed, t.fed, pending2);
    MultipleSum(|s.consumed|, |t.consumed|, B);
  }

  /** The delay queue is a FIFO across the whole session: what was queued at
      the start followed by every block the engine produced is exactly what
      was played followed by what is still queued. Nothing is lost, repeated
      or reordered, and parameter changes do not disturb it. */
  lemma {:induction false} QueueOrder<E(!new)>(p: Processor<E>, api: Api<E>, events: seq<Event>)
    requires Valid(p) && NoInit(p.variant, events)
    requires Replay(p, api, events).Some?
    ensures var t := Replay(p, api, events).value;
      t.outputs + Queued(t.final) == Queued(p) + t.produced
    decreases |events|
  {
    if events != [] {
      NoInitTail(p.variant, events);
      ReplayFirst(p, api, events);
      var s := Step(p, api, events[0]).value;
      StepQueue(p, api, events[0]);
      QueueOrder(s.final, api, events[1..]);
      var t := Replay(s.final, api, events[1..]).value;
      FifoCompose(Queued(p), s.outputs, s.produced, Queued(s.final), t.outputs, t.produced, Queued(t.final));
    }
  }

  /** The engine sees the input as consecutive blocks: what was pending at the
      start followed by every input sample is exactly everything handed to the
      engine followed by what is still pending. Each run takes exactly one
      block, and the engine produces as many samples as it consumes. */
  lemma {:induction false} BlockOrder<E(!new)>(p: Processor<E>, api: Api<E>, events: seq<Event>)
    requires Valid(p) && NoInit(p.variant, events)
    requires Replay(p, api, events).Some?
    ensures var t := Replay(p, api, events).value;
      && Pending(p) + t.fed == t.consumed + Pending(t.final)
      && |t.consumed| == |t.produced|
      && Multiple(|t.consumed|, p.blockSize)
      && t.final.blockSize == p.blockSize
    decreases |events|
  {
    if events != [] {
      NoInitTail(p.variant, events);
      ReplayFirst(p, api, events);
      var s := Step(p, api, events[0]).value;
      StepBlocks(p, api, events[0]);
      BlockOrder(s.final, api, events[1..]);
      var t := Replay(s.final, api, events[1..]).value;
      JoinBlocks(Pending(p), s, Pending(s.final), t, Pending(t.final), p.blockSize);
    }
  }

  /** A regular event for a processor of variant `v`: a callback with a
      quantum of `q` samples, or any message other than `v`'s own
      initialisation (a live parameter change, a repeated `send-wasm-module`,
      the other processor's initialisation, or a message of no recognised
      type). */
  predicate RegularEvent(v: Variant, e: Event, q: nat)
  {
    match e
    case Audio(x) => |x| == q
    case Control(m) => !IsInit(v, m)
  }

  /** Every event of a regular session is regular. */
  predicate Regular(v: Variant, events: seq<Event>, q: nat)
  {
    forall i :: 0 <= i < |events| ==> RegularEvent(v, events[i], q)
  }

  /** The steady state of an initialised processor fed quanta of `q` samples,
      a block being a whole number of quanta: the accumulator is a whole
      number of quanta short of a block, and the queue and the accumulator
      together hold the pre-fill. */
  predicate Steady<E>(p: Processor<E>, q: nat)
  {
    && Valid(p) && p.engine.Some?
    && 0 < q && Multiple(p.blockSize, q)
    && p.count < p.blockSize && Multiple(p.blockSize - p.count, q)
    && p.live + p.count == Prefill(p.variant, p.blockSize)
  }

  /** Before each callback of a steady session the queue holds between the
      pre-fill less a block plus one quantum and the full pre-fill; for the
      delay effect that is within [B + q, 2B], for the pitch detector within
      [q + 128, B + 128]. The accumulator has room for one more quantum. */
  lemma SteadyBounds<E>(p: Processor<E>, q: nat)
    requires Steady(p, q)
    ensures Prefill(p.variant, p.blockSize) - p.blockSize + q <= p.live <= Prefill(p.variant, p.blockSize)
    ensures p.count + q <= p.blockSize
  {
    assert Multiple(p.blockSize - p.count, q);
  }

  /** A steady processor can always take a quantum of `q` samples and stays
      steady: the queue never underflows, the accumulator never overflows,
      and a pushed block always fits. */
  lemma ProcessSteady<E(!new)>(p: Processor<E>, run: Kernel<E>, x: seq<Sample>)
    requires Steady(p, |x|)
    ensures CanProcess(p, |x|)
    ensures Steady(Process(p, run, x).next, |x|)
  {
    var q := |x|;
    SteadyBounds(p, q);
    var c := Process(p, run, x);
    var n := c.next;
    assert n.blockSize == p.blockSize && n.variant == p.variant;
    if c.fired.Some? {
      assert n.count == 0 && n.live == p.live - q + p.blockSize;
    } else {
      assert n.count == p.count + q && n.live == p.live - q;
      assert Multiple(p.blockSize - n.count, q) by {
        assert p.blockSize - n.count == (p.blockSize - p.count) - q;
      }
    }
  }

  /** A steady processor can always take a regular event and stays steady. */
  lemma StepSteady<E(!new)>(p: Processor<E>, api: Api<E>, e: Event, q: nat)
    requires Steady(p, q) && RegularEvent(p.variant, e, q)
    ensures Step(p, api, e).Some?
    ensures Steady(Step(p, api, e).value.final, q)
    ensures Step(p, api, e).value.final.blockSize == p.blockSize
  {
    match e
    case Control(m) =>
      if Tuning(m) {
        assert OnMessage(p, api, m) == Ok(Tune(p, api, m));
      }
    case Audio(x) =>
      ProcessSteady(p, api.run, x);
  }

  /** A regular session from a steady processor never leaves the model, and
      ends steady. */
  lemma {:induction false} SteadySession<E(!new)>(p: Processor<E>, api: Api<E>, events: seq<Event>, q: nat)
    requires Steady(p, q) && Regular(p.variant, events, q)
    ensures Replay(p, api, events).Some?
    ensures Steady(Replay(p, api, events).value.final, q)
    ensures Replay(p, api, events).value.final.blockSize == p.blockSize
    decreases |events|
  {
    if events != [] {
      assert RegularEvent(p.variant, events[0], q);
      assert Regular(p.variant, events[1..], q) by {
        assert forall i :: 0 <= i < |events[1..]| ==> events[1..][i] == events[i + 1];
      }
      StepSteady(p, api, events[0], q);
      SteadySession(Step(p, api, events[0]).value.final, api, events[1..], q);
    }
  }

  /** A regular session holds no initialisation message. */
  lemma RegularHasNoInit(v: Variant, events: seq<Event>, q: nat)
    requires Regular(v, events, q)
    ensures NoInit(v, events)
  {
    forall i | 0 <= i < |events|
      ensures !Reinit(v, events[i])
    {
      assert RegularEvent(v, events[i], q);
    }
  }

  /** Whatever is played from a queue that started as `P` zeros with
      `produced` pushed behind them is silence for its first `P` samples and
      `produced` from then on. */
  lemma SilenceThenBlocks(outputs: seq<Sample>, rest: seq<Sample>, P: nat, produced: seq<Sample>)
    requires outputs + rest == Zeros(P) + produced
    ensures forall k :: 0 <= k < |outputs| ==> outputs[k] == if k < P then 0.0 else produced[k - P]
  {
    forall k | 0 <= k < |outputs|
      ensures outputs[k] == if k < P then 0.0 else produced[k - P]
    {
      assert outputs[k] == (outputs + rest)[k];
    }
  }

  /** A freshly configured processor is steady, with `P` zeros queued and
      nothing pending. */
  lemma ConfigureSteady<E>(v: Variant, engine: E, blockSize: nat, q: nat)
    requires 0 < q && 0 < blockSize && Multiple(blockSize, q)
    ensures var p := Configure(v, engine, blockSize);
      && Steady(p, q)
      && Queued(p) == Zeros(Prefill(v, blockSize))
      && Pending(p) == []
  {
    var p := Configure(v, engine, blockSize);
    assert p.blockSize - p.count == blockSize;
  }

  /** After initialisation with block size `B`, a session of quanta of `q`
      samples, `B` being a whole number of quanta, interleaved with any
      messages other than a re-initialisation, never leaves the model. */
  lemma RegularSessionRuns<E(!new)>(v: Variant, api: Api<E>, engine: E, blockSize: nat, events: seq<Event>, q: nat)
    requires 0 < q && 0 < blockSize && Multiple(blockSize, q)
    requires Regular(v, events, q)
    ensures Replay(Configure(v, engine, blockSize), api, events).Some?
  {
    ConfigureSteady(v, engine, blockSize, q);
    SteadySession(Configure(v, engine, blockSize), api, events, q);
  }

  /** Any session after initialisation that stays in the model and does not
      re-initialise keeps the queue in FIFO order behind the pre-fill: what
      it played followed by what is still queued is the pre-fill's zeros
      followed by every block the engine produced. */
  lemma PrefillOrder<E(!new)>(v: Variant, api: Api<E>, engine: E, blockSize: nat, events: seq<Event>, t: Trace<E>)
    requires NoInit(v, events)
    requires Replay(Configure(v, engine, blockSize), api, events) == Some(t)
    ensures t.outputs + Queued(t.final) == Zeros(Prefill(v, blockSize)) + t.produced
  {
    var p := Configure(v, engine, blockSize);
    assert Queued(p) == Zeros(Prefill(v, blockSize));
    QueueOrder(p, api, events);
  }

  /** The latency theorem. Such a session plays exactly the pre-fill's
      silence and then the engine's blocks in the order it produced them:
      output sample `k` is zero below the pre-fill and the engine's sample
      `k - prefill` from there on. */
  lemma Latency<E(!new)>(v: Variant, api: Api<E>, engine: E, blockSize: nat, events: seq<Event>, t: Trace<E>)
    requires NoInit(v, events)
    requires Replay(Configure(v, engine, blockSize), api, events) == Some(t)
    ensures |t.outputs| <= Prefill(v, blockSize) + |t.produced|
    ensures forall k :: 0 <= k < |t.outputs| ==>
      t.outputs[k] == if k < Prefill(v, blockSize) then 0.0 else t.produced[k - Prefill(v, blockSize)]
  {
    PrefillOrder(v, api, engine, blockSize, events, t);
    SilenceThenBlocks(t.outputs, Queued(t.final), Prefill(v, blockSize), t.produced);
  }

  /** The engine's share of such a session: it has been given the input in
      order, as the largest whole number of blocks the input holds, and has
      produced as many samples. */
  lemma WholeBlocks<E(!new)>(v: Variant, api: Api<E>, engine: E, blockSize: nat, events: seq<Event>, q: nat, t: Trace<E>)
    requires 0 < q && 0 < blockSize && Multiple(blockSize, q)
    requires Regular(v, events, q)
    requires Replay(Configure(v, engine, blockSize), api, events) == Some(t)
    ensures t.fed == t.consumed + Pending(t.final)
    ensures |t.consumed| == |t.produced| && Multiple(|t.consumed|, blockSize)
    ensures |t.consumed| <= |t.fed| < |t.consumed| + blockSize
  {
    var p := Configure(v, engine, blockSize);
    ConfigureSteady(v, engine, blockSize, q);
    SteadySession(p, api, events, q);
    RegularHasNoInit(v, events, q);
    BlockOrder(p, api, events);
  }

  /** Before initialisation nothing reaches the engine: a session of variant
      `v` that never sees `v`'s initialisation message runs the engine zero
      times, posts no pitch, and keeps the processor as the constructor left
      it. Parameter changes that arrive meanwhile throw and change nothing. */
  lemma {:induction false} IdleBeforeInit<E(!new)>(v: Variant, api: Api<E>, events: seq<Event>)
    requires NoInit(v, events)
    requires Replay(Fresh<E>(v), api, events).Some?
    ensures var t := Replay(Fresh<E>(v), api, events).value;
      && t.consumed == [] && t.produced == [] && t.pitches == []
      && t.final == Fresh(v)
    decreases |events|
  {
    if events != [] {
      NoInitTail(v, events);
      var s := Step(Fresh<E>(v), api, events[0]).value;
      assert s == Idle(Fresh(v)) by {
        match events[0]
        case Control(m) =>
        case Audio(x) =>
          assert x == [];
      }
      IdleBeforeInit(v, api, events[1..]);
    }
  }

  /** The input of three callbacks is their three quanta in order. */
  lemma InputsOfThree(x1: seq<Sample>, x2: seq<Sample>, x3: seq<Sample>)
    ensures Inputs([Audio(x1), Audio(x2), Audio(x3)]) == x1 + x2 + x3
  {
    var e3 := [Audio(x3)];
    assert e3[1..] == [];
    assert Inputs(e3) == x3 + [];
    var e2 := [Audio(x2), Audio(x3)];
    assert e2[1..] == e3;
    var e1 := [Audio(x1), Audio(x2), Audio(x3)];
    assert e1[1..] == e2;
    assert Inputs(e1) == x1 + (x2 + (x3 + []));
  }

  /** The pitch variant with a block of 128 and the host's 128-sample quanta:
      the queue starts with 256 zeros, so three callbacks play 256 samples of
      silence and then the first block the detector left behind, and end
      with an empty accumulator and 256 samples queued. */
  lemma PitchScenario<E(!new)>(api: Api<E>, engine: E, blockSize: nat, x1: seq<Sample>, x2: seq<Sample>, x3: seq<Sample>)
    requires blockSize == 128 && |x1| == blockSize && |x2| == blockSize && |x3| == blockSize
    ensures var t := Replay(Configure(Pitch, engine, blockSize), api, [Audio(x1), Audio(x2), Audio(x3)]);
      && t.Some?
      && |t.value.outputs| == 384 && |t.value.produced| == 384
      && (forall k :: 0 <= k < 256 ==> t.value.outputs[k] == 0.0)
      && t.value.outputs[256..] == t.value.produced[..128]
      && t.value.final.count == 0 && t.value.final.live == 256
  {
    var events := [Audio(x1), Audio(x2), Audio(x3)];
    var p := Configure(Pitch, engine, blockSize);
    var q := blockSize;
    assert Multiple(q, q) by { assert Multiple(q - q, q); }
    assert Regular(Pitch, events, q) by {
      forall i | 0 <= i < 3 ensures RegularEvent(Pitch, events[i], q) {
      }
    }
    RegularSessionRuns(Pitch, api, engine, blockSize, events, q);
    var t := Replay(p, api, events).value;
    ScenarioState(p, api, events, q);
    FedIsInput(p, api, events);
    InputsOfThree(x1, x2, x3);
    RegularHasNoInit(Pitch, events, q);
    PrefillOrder(Pitch, api, engine, blockSize, events, t);
    Latency(Pitch, api, engine, blockSize, events, t);
    assert |t.outputs| + |Queued(t.final)| == 256 + |t.produced|;
    assert t.outputs[256..] == t.produced[..128] by {
      forall k | 0 <= k < 128
        ensures t.outputs[256..][k] == t.produced[..128][k]
      {
        assert t.outputs[256 + k] == t.produced[k];
      }
    }
  }

  /** When the quantum is the whole block, a steady session ends with an
      empty accumulator and a full queue. */
  lemma ScenarioState<E(!new)>(p: Processor<E>, api: Api<E>, events: seq<Event>, q: nat)
    requires Steady(p, q) && Regular(p.variant, events, q) && q == p.blockSize
    ensures Replay(p, api, events).Some?
    ensures Replay(p, api, events).value.final.count == 0
    ensures Replay(p, api, events).value.final.live == Prefill(p.variant, p.blockSize)
  {
    SteadySession(p, api, events, q);
    SteadyWhole(Replay(p, api, events).value.final, q);
  }

  /** With the quantum a whole block, a steady processor has an empty
      accumulator and the whole pre-fill queued. */
  lemma SteadyWhole<E>(p: Processor<E>, q: nat)
    requires Steady(p, q) && q == p.blockSize
    ensures p.count == 0 && p.live == Prefill(p.variant, p.blockSize)
  {
    var g := q - p.count;
    assert Multiple(g, q) && 0 < g <= q;
  }
}
