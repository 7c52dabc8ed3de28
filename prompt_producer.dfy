/** `PromptProducer` (llm-prompt-producer/main.py): the control loop that
    samples a prompt, publishes it, advances the pacing count and waits, and
    the counters it keeps around each publish. The Kafka producer is an
    abstract effect: `produce` either accepts the message (it is appended to
    `outbox`), raises `KafkaException`, or raises some other exception; a
    delivery report is served later through `OnSendSuccess`, and `Run`
    serves those that `flush` delivers at shutdown. Prometheus counters and
    gauges are plain fields. */
module PromptProducer {
  import opened Wrappers
  import opened LoadGeneration
  import opened PromptDataset

  /** `message_id` is `f"{sent_count}_{int(time.time() * 1000)}"`; it is kept
      as its two numbers. */
  datatype MessageId = MessageId(sequence: nat, millis: int)

  /** The JSON message handed to `produce`. */
  datatype RequestEnvelope = RequestEnvelope(
    messageId: MessageId,
    prompt: string,
    tokenCount: nat,
    timestamp: real,
    originalId: RecordId,
    loadPattern: LoadPattern,
    requestNumber: nat)

  /** What the Kafka client does with one `produce` call. */
  datatype ProduceResult = Accepted | KafkaFailure | OtherFailure

  /** What `send_prompt` does: returns True, returns False, or lets an
      exception other than `KafkaException` escape. */
  datatype SendOutcome = SendOk | SendFailed | SendRaised

  /** Why `run` left its loop. */
  datatype StopReason =
    | DurationReached   // elapsed >= duration_seconds
    | Interrupted       // no more clock readings: KeyboardInterrupt
    | SampleFailed      // random.choice on an empty pool raised IndexError
    | ProduceRaised     // produce raised something other than KafkaException
    | DelayFailed       // get_next_delay raised (division by zero, bad scale)

  /** One iteration's inputs from the environment: the clock reading checked
      against the duration, the uniform draw and the choice index used by
      `sample_prompt`, what `produce` does, the clock reading and the
      exponential draw used by `get_next_delay`. */
  datatype Step = Step(now: real, draw: real, pick: nat, produce: ProduceResult, delayNow: real, unitExp: real)

  /** Python's `int(x)`: truncation toward zero. */
  function Truncate(x: real): (i: int)
    ensures x >= 0.0 ==> i as real <= x < i as real + 1.0
    ensures x < 0.0 ==> i as real - 1.0 < x <= i as real
  {
    if x >= 0.0 then x.Floor else -((-x).Floor)
  }

  /** The message `send_prompt` builds for `record` when `sent_count` is
      `sentCount` and the clock reads `now`. */
  function BuildEnvelope(config: ProducerConfig, record: PromptRecord, sentCount: nat, now: real): (e: RequestEnvelope)
    ensures e.messageId.sequence == e.requestNumber == sentCount
    ensures e.prompt == record.text && e.tokenCount == record.tokenCount && e.originalId == record.originalId
    ensures e.loadPattern == config.loadPattern && e.timestamp == now
  {
    RequestEnvelope(MessageId(sentCount, Truncate(now * 1000.0)), record.text, record.tokenCount, now,
                    record.originalId, config.loadPattern, sentCount)
  }

  /** The average rate `_shutdown` reports: sent messages per second of
      elapsed time, or 0 when no time has elapsed. */
  function AverageRps(sentCount: nat, elapsed: real): (r: real)
    ensures elapsed > 0.0 ==> r * elapsed == sentCount as real && r >= 0.0
    ensures elapsed <= 0.0 ==> r == 0.0
  {
    if elapsed > 0.0 then sentCount as real / elapsed else 0.0
  }

  /** Iterations of `run` that called `send_prompt`: the completed ones, plus
      the last one when it stopped inside `send_prompt` or `get_next_delay`. */
  function Attempts(completed: nat, stop: StopReason): nat
  {
    completed + (if stop == ProduceRaised || stop == DelayFailed then 1 else 0)
  }

  /** Number of the first `n` steps whose `produce` call has outcome `r`. */
  function CountProduce(steps: seq<Step>, n: nat, r: ProduceResult): (count: nat)
    requires n <= |steps|
    ensures count <= n
  {
    if n == 0 then 0
    else (if steps[0].produce == r then 1 else 0) + CountProduce(steps[1..], n - 1, r)
  }

  /** Two pools hold the same prompts in the same order, up to the category tag. */
  predicate SameRecords(a: seq<PromptRecord>, b: seq<PromptRecord>)
  {
    |a| == |b| &&
    forall j :: 0 <= j < |a| ==> a[j].(lengthCategory := None) == b[j].(lengthCategory := None)
  }

  /** The envelope carries the text, token count and id of some record of `pool`. */
  predicate DrawnFrom(e: RequestEnvelope, pool: seq<PromptRecord>)
  {
    exists j :: 0 <= j < |pool| && e.prompt == pool[j].text && e.tokenCount == pool[j].tokenCount &&
      e.originalId == pool[j].originalId
  }

  predicate DrawnFromPools(e: RequestEnvelope, short: seq<PromptRecord>, medium: seq<PromptRecord>, long: seq<PromptRecord>)
  {
    DrawnFrom(e, short) || DrawnFrom(e, medium) || DrawnFrom(e, long)
  }

  lemma SameRecordsTrans(a: seq<PromptRecord>, b: seq<PromptRecord>, c: seq<PromptRecord>)
    requires SameRecords(a, b) && SameRecords(b, c)
    ensures SameRecords(a, c)
  {
  }

  /** Being drawn from a pool depends only on its records, not on their tags. */
  lemma DrawnFromSame(e: RequestEnvelope, pool: seq<PromptRecord>, start: seq<PromptRecord>)
    requires SameRecords(pool, start)
    ensures DrawnFrom(e, pool) ==> DrawnFrom(e, start)
  {
    if DrawnFrom(e, pool) {
      var j :| 0 <= j < |pool| && e.prompt == pool[j].text && e.tokenCount == pool[j].tokenCount &&
        e.originalId == pool[j].originalId;
      assert start[j].(lengthCategory := None) == pool[j].(lengthCategory := None);
    }
  }

  // ---------------------------------------------------------------------
  // The `run` loop as values.

  /** What an iteration of `run` reads and changes: the load generator's
      request count, the producer's error and sent-prompt counters, its
      in-flight gauge, outbox and last send time, and the dataset's pools. */
  datatype RunState = RunState(
    requests: int,
    errors: nat,
    accepted: nat,
    inFlight: int,
    outbox: seq<RequestEnvelope>,
    lastSend: Option<real>,
    pools: Pools)

  /** The state after one iteration, the reason the loop stops there if it
      does, and otherwise the delay `get_next_delay` returned, which `run`
      sleeps clamped at 0. */
  datatype Turn = Turn(state: RunState, stop: Option<StopReason>, delay: real)

  /** One iteration of `run` while `sent_count` is `number`: stop at the
      duration; sample (an empty pool raises); send the tagged record; unless
      `produce` raised, count the request and compute the delay. */
  function NextTurn(config: ProducerConfig, startNow: real, number: nat, s: RunState, step: Step): Turn
  {
    if step.now - startNow >= config.durationSeconds as real then Turn(s, Some(DurationReached), 0.0)
    else
      var c := ChooseCategory(config, step.draw);
      var pool := s.pools.Pool(c);
      if pool == [] then Turn(s, Some(SampleFailed), 0.0)
      else
        var index := step.pick % |pool|;
        var record := pool[index].(lengthCategory := Some(c));
        var sent := RunState(
          s.requests,
          s.errors + (if step.produce == KafkaFailure then 1 else 0),
          s.accepted + (if step.produce == Accepted then 1 else 0),
          s.inFlight + (if step.produce == KafkaFailure then 0 else 1),
          s.outbox + (if step.produce == Accepted then [BuildEnvelope(config, record, number, step.now)] else []),
          Some(step.now),
          s.pools.With(c, pool[index := record]));
        if step.produce == OtherFailure then Turn(sent, Some(ProduceRaised), 0.0)
        else
          var next := NextDelay(config, s.requests + 1, step.delayNow - startNow, step.unitExp);
          var counted := sent.(requests := s.requests + 1);
          if next.Err? then Turn(counted, Some(DelayFailed), 0.0) else Turn(counted, None, next.value)
  }

  /** Where `run` ends: the state, the delays `get_next_delay` returned, and why it stopped. */
  datatype Outcome = Outcome(state: RunState, delays: seq<real>, stop: StopReason)

  /** The loop of `run` over any iteration `turn`: iterations follow one
      another until one stops the loop; running out of steps is the keyboard
      interrupt. */
  function Iterate(turn: (RunState, Step) -> Turn, s: RunState, steps: seq<Step>): Outcome
    decreases |steps|
  {
    if steps == [] then Outcome(s, [], Interrupted)
    else
      var t := turn(s, steps[0]);
      if t.stop.Some? then Outcome(t.state, [], t.stop.value)
      else
        var rest := Iterate(turn, t.state, steps[1..]);
        Outcome(rest.state, [t.delay] + rest.delays, rest.stop)
  }

  /** The iteration of `run` while `sent_count` is `number`. */
  function Turns(config: ProducerConfig, startNow: real, number: nat): (RunState, Step) -> Turn
  {
    (s, step) => NextTurn(config, startNow, number, s, step)
  }

  /** `run` over `steps` from state `s`. */
  function Trace(config: ProducerConfig, startNow: real, number: nat, s: RunState, steps: seq<Step>): Outcome
  {
    Iterate(Turns(config, startNow, number), s, steps)
  }

  // What one iteration guarantees. The properties of the whole loop below
  // follow from these alone, whatever else the iteration does.

  /** The iteration reached `send_prompt`: it went on, or `produce` or the
      delay raised. */
  predicate Sent(t: Turn)
  {
    t.stop.None? || t.stop == Some(ProduceRaised) || t.stop == Some(DelayFailed)
  }

  /** Only running out of steps interrupts the loop, and the request count
      grows by one exactly when the iteration got past `produce`. */
  predicate Advances(t: Turn, s: RunState)
  {
    t.stop != Some(Interrupted) &&
    t.state.requests == s.requests + (if t.stop.None? || t.stop == Some(DelayFailed) then 1 else 0)
  }

  /** An iteration that goes on did not raise in `produce` and goes on with
      the delay `get_next_delay` computes for the new request count. */
  predicate Paces(config: ProducerConfig, startNow: real, t: Turn, s: RunState, step: Step)
  {
    t.stop.None? ==>
      step.produce != OtherFailure &&
      Ok(t.delay) == NextDelay(config, s.requests + 1, step.delayNow - startNow, step.unitExp)
  }

  /** Why the iteration got as far as it did. */
  predicate Proceeds(config: ProducerConfig, startNow: real, t: Turn, s: RunState, step: Step)
  {
    && (Sent(t) ==>
         step.now - startNow < config.durationSeconds as real &&
         s.pools.Pool(ChooseCategory(config, step.draw)) != [])
    && (t.stop == Some(DurationReached) ==> step.now - startNow >= config.durationSeconds as real)
    && (t.stop == Some(SampleFailed) ==>
         step.now - startNow < config.durationSeconds as real &&
         s.pools.Pool(ChooseCategory(config, step.draw)) == [])
    && (t.stop == Some(ProduceRaised) ==> step.produce == OtherFailure)
    && (t.stop == Some(DelayFailed) ==>
         step.produce != OtherFailure &&
         NextDelay(config, s.requests + 1, step.delayNow - startNow, step.unitExp).Err?)
  }

  /** The counters move by one send when the iteration reached
      `send_prompt`, and not at all otherwise. */
  predicate Counts(t: Turn, s: RunState, step: Step)
  {
    && t.state.errors == s.errors + (if Sent(t) && step.produce == KafkaFailure then 1 else 0)
    && t.state.accepted == s.accepted + (if Sent(t) && step.produce == Accepted then 1 else 0)
    && t.state.inFlight == s.inFlight + (if Sent(t) && step.produce != KafkaFailure then 1 else 0)
    && |t.state.outbox| == |s.outbox| + (if Sent(t) && step.produce == Accepted then 1 else 0)
    && t.state.lastSend == (if Sent(t) then Some(step.now) else s.lastSend)
  }

  /** The pools keep their records: sampling only retags one. */
  predicate KeepsPools(t: Turn, s: RunState)
  {
    forall c :: SameRecords(t.state.pools.Pool(c), s.pools.Pool(c))
  }

  /** The outbox is kept, and what is appended is numbered `number` and
      drawn from the pools. */
  predicate KeepsOutbox(config: ProducerConfig, number: nat, t: Turn, s: RunState)
  {
    && |s.outbox| <= |t.state.outbox| && t.state.outbox[..|s.outbox|] == s.outbox
    && forall k :: |s.outbox| <= k < |t.state.outbox| ==>
         t.state.outbox[k].requestNumber == number && t.state.outbox[k].loadPattern == config.loadPattern &&
         DrawnFromPools(t.state.outbox[k], s.pools.short, s.pools.medium, s.pools.long)
  }

  /** An iteration of `run` keeps the pools' records and the outbox, and
      appends at most the one envelope it sent, drawn from the pools. */
  lemma TurnKeepsRecords(config: ProducerConfig, startNow: real, number: nat, s: RunState, step: Step)
    ensures KeepsPools(NextTurn(config, startNow, number, s, step), s)
    ensures KeepsOutbox(config, number, NextTurn(config, startNow, number, s, step), s)
  {
    var t := NextTurn(config, startNow, number, s, step);
    var c := ChooseCategory(config, step.draw);
    var pool := s.pools.Pool(c);
    if step.now - startNow < config.durationSeconds as real && pool != [] {
      var index := step.pick % |pool|;
      assert t.state.pools.Pool(c) == pool[index := pool[index].(lengthCategory := Some(c))];
      assert t.state.outbox[..|s.outbox|] == s.outbox;
      if step.produce == Accepted {
        var e := t.state.outbox[|s.outbox|];
        assert DrawnFrom(e, pool);
      }
    }
  }

  /** An iteration of `run` has every property above. */
  lemma TurnSteps(config: ProducerConfig, startNow: real, number: nat, s: RunState, step: Step)
    ensures var t := NextTurn(config, startNow, number, s, step);
      && Advances(t, s) && Paces(config, startNow, t, s, step) && Proceeds(config, startNow, t, s, step)
      && Counts(t, s, step) && KeepsPools(t, s) && KeepsOutbox(config, number, t, s)
  {
    TurnKeepsRecords(config, startNow, number, s, step);
  }

  /** How far the loop gets: at most one iteration past the completed ones,
      all of them when it was interrupted, and one request counted per
      completed iteration plus the one whose delay failed. */
  lemma {:induction false} TraceLength(turn: (RunState, Step) -> Turn, s: RunState, steps: seq<Step>, o: Outcome)
    requires o == Iterate(turn, s, steps)
    requires forall s', step :: Advances(turn(s', step), s')
    ensures Attempts(|o.delays|, o.stop) <= |steps|
    ensures o.stop == Interrupted <==> |o.delays| == |steps|
    ensures o.state.requests == s.requests + |o.delays| + (if o.stop == DelayFailed then 1 else 0)
    decreases |steps|
  {
    if steps != [] {
      var t := turn(s, steps[0]);
      if t.stop.None? {
        TraceLength(turn, t.state, steps[1..], Iterate(turn, t.state, steps[1..]));
      }
    }
  }

  /** Every completed iteration sent without raising, and its delay is the
      one `get_next_delay` computes once the request count has grown by one
      per iteration so far. */
  lemma {:induction false} TraceDelays(config: ProducerConfig, startNow: real, turn: (RunState, Step) -> Turn, s: RunState, steps: seq<Step>, o: Outcome)
    requires o == Iterate(turn, s, steps)
    requires forall s', step :: Advances(turn(s', step), s') && Paces(config, startNow, turn(s', step), s', step)
    ensures |o.delays| <= |steps|
    ensures forall k :: 0 <= k < |o.delays| ==>
      steps[k].produce != OtherFailure &&
      Ok(o.delays[k]) == NextDelay(config, s.requests + k + 1, steps[k].delayNow - startNow, steps[k].unitExp)
    decreases |steps|
  {
    if steps != [] {
      var t := turn(s, steps[0]);
      if t.stop.None? {
        var rest := Iterate(turn, t.state, steps[1..]);
        TraceDelays(config, startNow, turn, t.state, steps[1..], rest);
        assert o.delays == [t.delay] + rest.delays;
        forall k | 1 <= k < |o.delays|
          ensures steps[k].produce != OtherFailure
          ensures Ok(o.delays[k]) == NextDelay(config, s.requests + k + 1, steps[k].delayNow - startNow, steps[k].unitExp)
        {
          assert o.delays[k] == rest.delays[k - 1] && steps[k] == steps[1..][k - 1];
        }
      }
    }
  }

  /** Every iteration that reached `send_prompt` found the duration not yet
      reached and a non-empty pool. */
  lemma {:induction false} TraceProceeds(config: ProducerConfig, startNow: real, turn: (RunState, Step) -> Turn, s: RunState, steps: seq<Step>, o: Outcome)
    requires o == Iterate(turn, s, steps)
    requires forall s', step ::
      Advances(turn(s', step), s') && Proceeds(config, startNow, turn(s', step), s', step) && KeepsPools(turn(s', step), s')
    ensures Attempts(|o.delays|, o.stop) <= |steps|
    ensures forall k :: 0 <= k < Attempts(|o.delays|, o.stop) ==>
      steps[k].now - startNow < config.durationSeconds as real &&
      s.pools.Pool(ChooseCategory(config, steps[k].draw)) != []
    decreases |steps|
  {
    TraceLength(turn, s, steps, o);
    if steps != [] {
      var t := turn(s, steps[0]);
      if t.stop.None? {
        var rest := Iterate(turn, t.state, steps[1..]);
        TraceProceeds(config, startNow, turn, t.state, steps[1..], rest);
        assert Attempts(|o.delays|, o.stop) == Attempts(|rest.delays|, rest.stop) + 1;
        forall k | 1 <= k < Attempts(|o.delays|, o.stop)
          ensures steps[k].now - startNow < config.durationSeconds as real
          ensures s.pools.Pool(ChooseCategory(config, steps[k].draw)) != []
        {
          assert steps[k] == steps[1..][k - 1];
          var c := ChooseCategory(config, steps[k].draw);
          assert SameRecords(t.state.pools.Pool(c), s.pools.Pool(c));
        }
      }
    }
  }

  /** A stop before `send_prompt`, read off the iteration that stopped the
      loop: the duration was reached, or the chosen pool was empty. */
  lemma {:induction false} TraceStopsEarly(config: ProducerConfig, startNow: real, turn: (RunState, Step) -> Turn, s: RunState, steps: seq<Step>, o: Outcome)
    requires o == Iterate(turn, s, steps)
    requires forall s', step ::
      Advances(turn(s', step), s') && Proceeds(config, startNow, turn(s', step), s', step) && KeepsPools(turn(s', step), s')
    ensures o.stop != Interrupted ==> |o.delays| < |steps|
    ensures o.stop == DurationReached ==> steps[|o.delays|].now - startNow >= config.durationSeconds as real
    ensures o.stop == SampleFailed ==>
      steps[|o.delays|].now - startNow < config.durationSeconds as real &&
      s.pools.Pool(ChooseCategory(config, steps[|o.delays|].draw)) == []
    decreases |steps|
  {
    TraceLength(turn, s, steps, o);
    if steps != [] {
      var t := turn(s, steps[0]);
      if t.stop.None? {
        var rest := Iterate(turn, t.state, steps[1..]);
        TraceStopsEarly(config, startNow, turn, t.state, steps[1..], rest);
        var n := |o.delays|;
        if o.stop != Interrupted {
          assert n == |rest.delays| + 1 && steps[n] == steps[1..][n - 1];
          var c := ChooseCategory(config, steps[n].draw);
          assert SameRecords(t.state.pools.Pool(c), s.pools.Pool(c));
        }
      }
    }
  }

  /** A stop inside `send_prompt` or `get_next_delay`, read off the
      iteration that stopped the loop: `produce` raised something other
      than `KafkaException`, or the delay for the new request count
      raised. */
  lemma {:induction false} TraceStopsLate(config: ProducerConfig, startNow: real, turn: (RunState, Step) -> Turn, s: RunState, steps: seq<Step>, o: Outcome)
    requires o == Iterate(turn, s, steps)
    requires forall s', step :: Advances(turn(s', step), s') && Proceeds(config, startNow, turn(s', step), s', step)
    ensures o.stop != Interrupted ==> |o.delays| < |steps|
    ensures o.stop == ProduceRaised ==> steps[|o.delays|].produce == OtherFailure
    ensures o.stop == DelayFailed ==>
      steps[|o.delays|].produce != OtherFailure &&
      NextDelay(config, s.requests + |o.delays| + 1, steps[|o.delays|].delayNow - startNow, steps[|o.delays|].unitExp).Err?
    decreases |steps|
  {
    TraceLength(turn, s, steps, o);
    if steps != [] {
      var t := turn(s, steps[0]);
      if t.stop.None? {
        var rest := Iterate(turn, t.state, steps[1..]);
        TraceStopsLate(config, startNow, turn, t.state, steps[1..], rest);
        var n := |o.delays|;
        if o.stop != Interrupted {
          assert n == |rest.delays| + 1 && steps[n] == steps[1..][n - 1];
        }
      }
    }
  }

  /** The counters after the iterations that reached `send_prompt`: errors
      grow by the `KafkaException`s, sent prompts and the outbox by the
      accepted messages. */
  lemma {:induction false} TraceCounts(turn: (RunState, Step) -> Turn, s: RunState, steps: seq<Step>, o: Outcome)
    requires o == Iterate(turn, s, steps)
    requires forall s', step :: Advances(turn(s', step), s') && Counts(turn(s', step), s', step)
    ensures Attempts(|o.delays|, o.stop) <= |steps|
    ensures var n := Attempts(|o.delays|, o.stop);
      && o.state.errors == s.errors + CountProduce(steps, n, KafkaFailure)
      && o.state.accepted == s.accepted + CountProduce(steps, n, Accepted)
      && |o.state.outbox| == |s.outbox| + CountProduce(steps, n, Accepted)
    decreases |steps|
  {
    TraceLength(turn, s, steps, o);
    if steps != [] {
      var t := turn(s, steps[0]);
      if t.stop.None? {
        var rest := Iterate(turn, t.state, steps[1..]);
        TraceCounts(turn, t.state, steps[1..], rest);
        assert Attempts(|o.delays|, o.stop) == Attempts(|rest.delays|, rest.stop) + 1;
      }
    }
  }

  /** The in-flight gauge grows by the accepted messages plus a send that
      raised, and the last send time is that of the last iteration that
      reached `send_prompt`. */
  lemma {:induction false} TraceInFlight(config: ProducerConfig, startNow: real, turn: (RunState, Step) -> Turn, s: RunState, steps: seq<Step>, o: Outcome)
    requires o == Iterate(turn, s, steps)
    requires forall s', step ::
      Advances(turn(s', step), s') && Paces(config, startNow, turn(s', step), s', step) &&
      Proceeds(config, startNow, turn(s', step), s', step) && Counts(turn(s', step), s', step)
    ensures Attempts(|o.delays|, o.stop) <= |steps|
    ensures var n := Attempts(|o.delays|, o.stop);
      && o.state.inFlight == s.inFlight + CountProduce(steps, n, Accepted) + (if o.stop == ProduceRaised then 1 else 0)
      && o.state.lastSend == (if n == 0 then s.lastSend else Some(steps[n - 1].now))
    decreases |steps|
  {
    TraceLength(turn, s, steps, o);
    if steps != [] {
      var t := turn(s, steps[0]);
      if t.stop.None? {
        var rest := Iterate(turn, t.state, steps[1..]);
        TraceInFlight(config, startNow, turn, t.state, steps[1..], rest);
        var n := Attempts(|rest.delays|, rest.stop);
        assert Attempts(|o.delays|, o.stop) == n + 1;
        if n > 0 {
          assert steps[1..][n - 1] == steps[n];
        }
      }
    }
  }

  /** The iterations keep the pools' records. */
  lemma {:induction false} TracePools(turn: (RunState, Step) -> Turn, s: RunState, steps: seq<Step>, o: Outcome)
    requires o == Iterate(turn, s, steps)
    requires forall s', step :: KeepsPools(turn(s', step), s')
    ensures forall c :: SameRecords(o.state.pools.Pool(c), s.pools.Pool(c))
    decreases |steps|
  {
    if steps != [] {
      var t := turn(s, steps[0]);
      if t.stop.None? {
        TracePools(turn, t.state, steps[1..], Iterate(turn, t.state, steps[1..]));
        forall c ensures SameRecords(o.state.pools.Pool(c), s.pools.Pool(c)) {
          SameRecordsTrans(o.state.pools.Pool(c), t.state.pools.Pool(c), s.pools.Pool(c));
        }
      }
    }
  }

  /** The iterations keep the outbox: they only append to it. */
  lemma {:induction false} TraceOutboxKept(config: ProducerConfig, number: nat, turn: (RunState, Step) -> Turn, s: RunState, steps: seq<Step>, o: Outcome)
    requires o == Iterate(turn, s, steps)
    requires forall s', step :: KeepsOutbox(config, number, turn(s', step), s')
    ensures |s.outbox| <= |o.state.outbox| && o.state.outbox[..|s.outbox|] == s.outbox
    decreases |steps|
  {
    if steps != [] {
      var t := turn(s, steps[0]);
      if t.stop.None? {
        TraceOutboxKept(config, number, turn, t.state, steps[1..], Iterate(turn, t.state, steps[1..]));
        var before, turned, after := s.outbox, t.state.outbox, o.state.outbox;
        assert after[..|before|] == after[..|turned|][..|before|];
      }
    }
  }

  /** What the iterations append are envelopes numbered `number` whose
      prompts come from the pools. */
  lemma {:induction false} TraceOutbox(config: ProducerConfig, number: nat, turn: (RunState, Step) -> Turn, s: RunState, steps: seq<Step>, o: Outcome)
    requires o == Iterate(turn, s, steps)
    requires forall s', step :: KeepsPools(turn(s', step), s') && KeepsOutbox(config, number, turn(s', step), s')
    ensures forall k :: |s.outbox| <= k < |o.state.outbox| ==>
      o.state.outbox[k].requestNumber == number && o.state.outbox[k].loadPattern == config.loadPattern &&
      DrawnFromPools(o.state.outbox[k], s.pools.short, s.pools.medium, s.pools.long)
    decreases |steps|
  {
    if steps != [] {
      var t := turn(s, steps[0]);
      if t.stop.None? {
        var rest := Iterate(turn, t.state, steps[1..]);
        TraceOutbox(config, number, turn, t.state, steps[1..], rest);
        TraceOutboxKept(config, number, turn, t.state, steps[1..], rest);
        var before, turned, after := s.outbox, t.state.outbox, o.state.outbox;
        forall k | |before| <= k < |after|
          ensures after[k].requestNumber == number && after[k].loadPattern == config.loadPattern
          ensures DrawnFromPools(after[k], s.pools.short, s.pools.medium, s.pools.long)
        {
          if k < |turned| {
            assert after[k] == after[..|turned|][k];
          } else {
            DrawnFromSame(after[k], t.state.pools.Pool(Short), s.pools.Pool(Short));
            DrawnFromSame(after[k], t.state.pools.Pool(Medium), s.pools.Pool(Medium));
            DrawnFromSame(after[k], t.state.pools.Pool(Long), s.pools.Pool(Long));
          }
        }
      }
    }
  }

  /** What a run from state `s` that ended in outcome `o` did: how far it
      got and the delays `get_next_delay` returned, why each iteration went
      on and why the loop stopped, the counters after the sends it made, and
      that it kept
      the pools' records and the outbox and appended only envelopes of its
      own, drawn from the pools. */
  ghost predicate RunFacts(config: ProducerConfig, startNow: real, number: nat, s: RunState, steps: seq<Step>, o: Outcome)
  {
    && (Attempts(|o.delays|, o.stop) <= |steps|)
    && (forall k :: 0 <= k < |o.delays| ==>
         Ok(o.delays[k]) == NextDelay(config, s.requests + k + 1, steps[k].delayNow - startNow, steps[k].unitExp))
    && (o.state.requests == s.requests + |o.delays| + (if o.stop == DelayFailed then 1 else 0))
    && (forall k :: 0 <= k < Attempts(|o.delays|, o.stop) ==>
         steps[k].now - startNow < config.durationSeconds as real &&
         s.pools.Pool(ChooseCategory(config, steps[k].draw)) != [])
    && (forall k :: 0 <= k < |o.delays| ==> steps[k].produce != OtherFailure)
    && (o.stop == Interrupted <==> |o.delays| == |steps|)
    && (o.stop == DurationReached ==> steps[|o.delays|].now - startNow >= config.durationSeconds as real)
    && (o.stop == SampleFailed ==>
         steps[|o.delays|].now - startNow < config.durationSeconds as real &&
         s.pools.Pool(ChooseCategory(config, steps[|o.delays|].draw)) == [])
    && (o.stop == ProduceRaised ==> steps[|o.delays|].produce == OtherFailure)
    && (o.stop == DelayFailed ==>
         steps[|o.delays|].produce != OtherFailure &&
         NextDelay(config, s.requests + |o.delays| + 1, steps[|o.delays|].delayNow - startNow, steps[|o.delays|].unitExp).Err?)
    && (var sent := Attempts(|o.delays|, o.stop);
         && o.state.errors == s.errors + CountProduce(steps, sent, KafkaFailure)
         && o.state.accepted == s.accepted + CountProduce(steps, sent, Accepted)
         && o.state.inFlight == s.inFlight + CountProduce(steps, sent, Accepted) + (if o.stop == ProduceRaised then 1 else 0)
         && |o.state.outbox| == |s.outbox| + CountProduce(steps, sent, Accepted)
         && o.state.lastSend == (if sent == 0 then s.lastSend else Some(steps[sent - 1].now)))
    && (|s.outbox| <= |o.state.outbox| && o.state.outbox[..|s.outbox|] == s.outbox)
    && (forall k :: |s.outbox| <= k < |o.state.outbox| ==>
         o.state.outbox[k].requestNumber == number && o.state.outbox[k].loadPattern == config.loadPattern &&
         DrawnFromPools(o.state.outbox[k], s.pools.short, s.pools.medium, s.pools.long))
    && (forall c :: SameRecords(o.state.pools.Pool(c), s.pools.Pool(c)))
  }

  /** Every trace of the loop has those properties. */
  lemma RunSummary(config: ProducerConfig, startNow: real, number: nat, s: RunState, steps: seq<Step>, o: Outcome)
    requires o == Trace(config, startNow, number, s, steps)
    ensures RunFacts(config, startNow, number, s, steps, o)
  {
    var turn := Turns(config, startNow, number);
    forall s', step
      ensures var t := turn(s', step);
        && Advances(t, s') && Paces(config, startNow, t, s', step) && Proceeds(config, startNow, t, s', step)
        && Counts(t, s', step) && KeepsPools(t, s') && KeepsOutbox(config, number, t, s')
    {
      TurnSteps(config, startNow, number, s', step);
    }
    TraceLength(turn, s, steps, o);
    TraceDelays(config, startNow, turn, s, steps, o);
    TraceProceeds(config, startNow, turn, s, steps, o);
    TraceStopsEarly(config, startNow, turn, s, steps, o);
    TraceStopsLate(config, startNow, turn, s, steps, o);
    TraceCounts(turn, s, steps, o);
    TraceInFlight(config, startNow, turn, s, steps, o);
    TracePools(turn, s, steps, o);
    TraceOutboxKept(config, number, turn, s, steps, o);
    TraceOutbox(config, number, turn, s, steps, o);
  }

  // ---------------------------------------------------------------------
  // Delivery reports

  /** What a delivery report moves: `sent_count`, `error_count`, the
      in-flight gauge, the lag gauge and the rate gauge. */
  datatype Stats = Stats(sent: nat, errors: nat, inFlight: int, lag: Option<real>, rps: Option<real>)

  /** The statistics after one report, and whether its callback raised. */
  datatype Delivery = Delivery(stats: Stats, raised: bool)

  /** The statistics after a sequence of reports, how many were served, and
      whether the last one served raised. */
  datatype Flushing = Flushing(stats: Stats, served: nat, raised: bool)

  function Min(a: int, b: int): (m: int)
    ensures m <= a && m <= b && (m == a || m == b)
  {
    if a <= b then a else b
  }

  /** The rate computation of `_on_send_success` divides by the time since
      the start: it raises when no start time is set or none has elapsed. */
  predicate Stalled(start: Option<real>, now: real)
  {
    start.None? || now - start.value == 0.0
  }

  /** `_on_send_success` on the statistics, at clock reading `now`, as
      `Producer.OnSendSuccess` performs it on the producer. The counters move
      before the rate computation raises. */
  function Report(s: Stats, err: Option<string>, now: real, start: Option<real>, lastSend: Option<real>): Delivery
  {
    if err.Some? then Delivery(s.(errors := s.errors + 1), false)
    else
      var sent := s.sent + 1;
      var lag := if lastSend.Some? then Some(now - lastSend.value) else s.lag;
      var served := Stats(sent, s.errors, s.inFlight - 1, lag, s.rps);
      if sent % 100 != 0 then Delivery(served, false)
      else if Stalled(start, now) then Delivery(served, true)
      else Delivery(served.(rps := Some(sent as real / (now - start.value))), false)
  }

  /** Reports served one after another, as `flush` serves them, up to and
      including the first whose callback raises: that exception leaves
      `flush`. */
  function Flush(s: Stats, reports: seq<Option<string>>, now: real, start: Option<real>, lastSend: Option<real>): (f: Flushing)
    decreases |reports|
    ensures f.served <= |reports| && (f.raised || f.served == |reports|) && (reports != [] ==> 0 < f.served)
  {
    if reports == [] then Flushing(s, 0, false)
    else
      var d := Report(s, reports[0], now, start, lastSend);
      if d.raised then Flushing(d.stats, 1, true)
      else
        var rest := Flush(d.stats, reports[1..], now, start, lastSend);
        rest.(served := rest.served + 1)
  }

  /** The reports that carry no error. */
  function Delivered(reports: seq<Option<string>>): (n: nat)
    ensures n <= |reports|
  {
    if reports == [] then 0 else (if reports[0].None? then 1 else 0) + Delivered(reports[1..])
  }

  lemma DeliveredPrefix(reports: seq<Option<string>>, k: nat)
    requires 0 < k <= |reports|
    ensures Delivered(reports[..k]) == (if reports[0].None? then 1 else 0) + Delivered(reports[1..][..k - 1])
  {
    assert reports[..k][0] == reports[0] && reports[..k][1..] == reports[1..][..k - 1];
  }

  /** The last multiple of 100 that a count rising one by one from 0 has
      reached at `n`. */
  function LastHundred(n: nat): (m: nat)
    ensures m <= n < m + 100 && m % 100 == 0
  {
    n - n % 100
  }

  /** One more delivery moves the last multiple of 100 only when it lands on
      the next one. */
  lemma LastHundredStep(n: nat)
    ensures LastHundred(n + 1) == if (n + 1) % 100 == 0 then n + 1 else LastHundred(n)
    ensures (n + 1) % 100 == 0 ==> LastHundred(n) + 100 == n + 1
  {
    var m, m' := LastHundred(n), LastHundred(n + 1);
    if (n + 1) % 100 != 0 {
      HundredsApart(m, m');
    } else {
      HundredsApart(n + 1, m');
      HundredsApart(n + 1, m + 100);
    }
  }

  /** Two multiples of 100 less than 100 apart are equal. */
  lemma HundredsApart(a: nat, b: nat)
    requires a % 100 == 0 && b % 100 == 0 && a < b + 100 && b < a + 100
    ensures a == b
  {
  }

  /** A multiple of 100 at or below `n` is at or below `LastHundred(n)`. */
  lemma LastHundredAtLeast(m: nat, n: nat)
    requires m % 100 == 0 && m <= n
    ensures m <= LastHundred(n)
  {
    var l := LastHundred(n);
    if l < m {
      HundredsApart(l, m);
    }
  }

  /** A flush serves the reports in order until one raises, and only a
      delivery can raise. `sent_count` and the in-flight gauge move by the
      served deliveries, `error_count` by the served failures. */
  lemma {:induction false} FlushCounts(s: Stats, reports: seq<Option<string>>, now: real, start: Option<real>, lastSend: Option<real>)
    decreases |reports|, 1
    ensures var f := Flush(s, reports, now, start, lastSend);
      && (f.raised ==> reports[f.served - 1].None?)
      && f.stats.sent == s.sent + Delivered(reports[..f.served])
      && f.stats.errors == s.errors + (f.served - Delivered(reports[..f.served]))
      && f.stats.inFlight == s.inFlight - Delivered(reports[..f.served])
  {
    if reports != [] {
      var d := Report(s, reports[0], now, start, lastSend);
      var one := if reports[0].None? then 1 else 0;
      assert d.stats.sent == s.sent + one && d.stats.errors == s.errors + (1 - one);
      assert d.stats.inFlight == s.inFlight - one;
      if d.raised {
        assert reports[0].None? && Flush(s, reports, now, start, lastSend) == Flushing(d.stats, 1, true);
        DeliveredPrefix(reports, 1);
      } else {
        FlushCountsOn(s, reports, now, start, lastSend);
      }
    }
  }

  lemma {:induction false} FlushCountsOn(s: Stats, reports: seq<Option<string>>, now: real, start: Option<real>, lastSend: Option<real>)
    requires reports != [] && !Report(s, reports[0], now, start, lastSend).raised
    decreases |reports|, 0
    ensures var f := Flush(s, reports, now, start, lastSend);
      && (f.raised ==> reports[f.served - 1].None?)
      && f.stats.sent == s.sent + Delivered(reports[..f.served])
      && f.stats.errors == s.errors + (f.served - Delivered(reports[..f.served]))
      && f.stats.inFlight == s.inFlight - Delivered(reports[..f.served])
  {
    var d := Report(s, reports[0], now, start, lastSend);
    var one := if reports[0].None? then 1 else 0;
    assert d.stats.sent == s.sent + one && d.stats.errors == s.errors + (1 - one);
    assert d.stats.inFlight == s.inFlight - one;
    var rest := Flush(d.stats, reports[1..], now, start, lastSend);
    var f := Flush(s, reports, now, start, lastSend);
    assert f == rest.(served := rest.served + 1);
    FlushCounts(d.stats, reports[1..], now, start, lastSend);
    DeliveredPrefix(reports, f.served);
    if f.raised {
      assert reports[f.served - 1] == reports[1..][rest.served - 1];
    }
  }

  /** A flush raises iff the clock gives the rate computation nothing to
      divide by and its deliveries carry `sent_count` past a multiple of 100;
      it then stops right at the first such multiple. */
  lemma {:induction false} FlushRaises(s: Stats, reports: seq<Option<string>>, now: real, start: Option<real>, lastSend: Option<real>)
    decreases |reports|, 1
    ensures var f := Flush(s, reports, now, start, lastSend);
      && (f.raised <==> Stalled(start, now) && LastHundred(s.sent + Delivered(reports)) > s.sent)
      && (f.raised ==> f.stats.sent == LastHundred(s.sent) + 100)
  {
    if reports == [] {
    } else if reports[0].Some? {
      FlushRaisesFailed(s, reports, now, start, lastSend);
    } else if (s.sent + 1) % 100 == 0 {
      FlushRaisesAtHundred(s, reports, now, start, lastSend);
    } else {
      FlushRaisesBetween(s, reports, now, start, lastSend);
    }
  }

  lemma {:induction false} FlushRaisesFailed(s: Stats, reports: seq<Option<string>>, now: real, start: Option<real>, lastSend: Option<real>)
    requires reports != [] && reports[0].Some?
    decreases |reports|, 0
    ensures var f := Flush(s, reports, now, start, lastSend);
      && (f.raised <==> Stalled(start, now) && LastHundred(s.sent + Delivered(reports)) > s.sent)
      && (f.raised ==> f.stats.sent == LastHundred(s.sent) + 100)
  {
    var d := Report(s, reports[0], now, start, lastSend);
    assert d == Delivery(s.(errors := s.errors + 1), false);
    assert Delivered(reports) == Delivered(reports[1..]);
    FlushRaises(d.stats, reports[1..], now, start, lastSend);
  }

  lemma {:induction false} FlushRaisesAtHundred(s: Stats, reports: seq<Option<string>>, now: real, start: Option<real>, lastSend: Option<real>)
    requires reports != [] && reports[0].None? && (s.sent + 1) % 100 == 0
    decreases |reports|, 0
    ensures var f := Flush(s, reports, now, start, lastSend);
      && (f.raised <==> Stalled(start, now) && LastHundred(s.sent + Delivered(reports)) > s.sent)
      && (f.raised ==> f.stats.sent == LastHundred(s.sent) + 100)
  {
    var d := Report(s, reports[0], now, start, lastSend);
    assert d.stats.sent == s.sent + 1 && d.raised == Stalled(start, now);
    var total := s.sent + Delivered(reports);
    assert total == s.sent + 1 + Delivered(reports[1..]);
    LastHundredStep(s.sent);
    LastHundredAtLeast(s.sent + 1, total);
    assert LastHundred(total) > s.sent && LastHundred(s.sent) + 100 == s.sent + 1;
    if d.raised {
      assert Flush(s, reports, now, start, lastSend) == Flushing(d.stats, 1, true);
    } else {
      FlushRaises(d.stats, reports[1..], now, start, lastSend);
      assert !Flush(s, reports, now, start, lastSend).raised;
    }
  }

  lemma {:induction false} FlushRaisesBetween(s: Stats, reports: seq<Option<string>>, now: real, start: Option<real>, lastSend: Option<real>)
    requires reports != [] && reports[0].None? && (s.sent + 1) % 100 != 0
    decreases |reports|, 0
    ensures var f := Flush(s, reports, now, start, lastSend);
      && (f.raised <==> Stalled(start, now) && LastHundred(s.sent + Delivered(reports)) > s.sent)
      && (f.raised ==> f.stats.sent == LastHundred(s.sent) + 100)
  {
    var d := Report(s, reports[0], now, start, lastSend);
    assert d.stats.sent == s.sent + 1 && !d.raised;
    var total := s.sent + Delivered(reports);
    assert total == s.sent + 1 + Delivered(reports[1..]);
    LastHundredStep(s.sent);
    FlushRaises(d.stats, reports[1..], now, start, lastSend);
    assert LastHundred(total) != s.sent + 1;
  }

  /** After a flush that did not raise, the rate gauge holds the rate of the
      last multiple of 100 the deliveries reached, if they reached one;
      otherwise, and after a flush that raised, it is unchanged. */
  lemma {:induction false} FlushRate(s: Stats, reports: seq<Option<string>>, now: real, start: Option<real>, lastSend: Option<real>)
    decreases |reports|, 1
    ensures var f := Flush(s, reports, now, start, lastSend);
      var last := LastHundred(s.sent + Delivered(reports));
      f.stats.rps == if !Stalled(start, now) && last > s.sent then Some(last as real / (now - start.value)) else s.rps
  {
    if reports == [] {
    } else if reports[0].Some? {
      FlushRateFailed(s, reports, now, start, lastSend);
    } else if (s.sent + 1) % 100 == 0 {
      FlushRateAtHundred(s, reports, now, start, lastSend);
    } else {
      FlushRateBetween(s, reports, now, start, lastSend);
    }
  }

  lemma {:induction false} FlushRateFailed(s: Stats, reports: seq<Option<string>>, now: real, start: Option<real>, lastSend: Option<real>)
    requires reports != [] && reports[0].Some?
    decreases |reports|, 0
    ensures var f := Flush(s, reports, now, start, lastSend);
      var last := LastHundred(s.sent + Delivered(reports));
      f.stats.rps == if !Stalled(start, now) && last > s.sent then Some(last as real / (now - start.value)) else s.rps
  {
    var d := Report(s, reports[0], now, start, lastSend);
    assert d == Delivery(s.(errors := s.errors + 1), false);
    assert Delivered(reports) == Delivered(reports[1..]);
    FlushRate(d.stats, reports[1..], now, start, lastSend);
  }

  lemma {:induction false} FlushRateAtHundred(s: Stats, reports: seq<Option<string>>, now: real, start: Option<real>, lastSend: Option<real>)
    requires reports != [] && reports[0].None? && (s.sent + 1) % 100 == 0
    decreases |reports|, 0
    ensures var f := Flush(s, reports, now, start, lastSend);
      var last := LastHundred(s.sent + Delivered(reports));
      f.stats.rps == if !Stalled(start, now) && last > s.sent then Some(last as real / (now - start.value)) else s.rps
  {
    var d := Report(s, reports[0], now, start, lastSend);
    var total := s.sent + Delivered(reports);
    assert total == s.sent + 1 + Delivered(reports[1..]);
    LastHundredAtLeast(s.sent + 1, total);
    if Stalled(start, now) {
      assert d.raised && d.stats.rps == s.rps;
    } else {
      assert d.stats.sent == s.sent + 1 && d.stats.rps == Some((s.sent + 1) as real / (now - start.value));
      FlushRate(d.stats, reports[1..], now, start, lastSend);
    }
  }

  lemma {:induction false} FlushRateBetween(s: Stats, reports: seq<Option<string>>, now: real, start: Option<real>, lastSend: Option<real>)
    requires reports != [] && reports[0].None? && (s.sent + 1) % 100 != 0
    decreases |reports|, 0
    ensures var f := Flush(s, reports, now, start, lastSend);
      var last := LastHundred(s.sent + Delivered(reports));
      f.stats.rps == if !Stalled(start, now) && last > s.sent then Some(last as real / (now - start.value)) else s.rps
  {
    var d := Report(s, reports[0], now, start, lastSend);
    assert d.stats.sent == s.sent + 1 && d.stats.rps == s.rps && !d.raised;
    var total := s.sent + Delivered(reports);
    assert total == s.sent + 1 + Delivered(reports[1..]);
    FlushRate(d.stats, reports[1..], now, start, lastSend);
    assert LastHundred(total) != s.sent + 1;
  }

  /** After a flush the lag gauge was set from the last send time iff a
      delivery was served and a send time exists. */
  lemma {:induction false} FlushLag(s: Stats, reports: seq<Option<string>>, now: real, start: Option<real>, lastSend: Option<real>)
    decreases |reports|
    ensures var f := Flush(s, reports, now, start, lastSend);
      f.stats.lag == if lastSend.Some? && Delivered(reports[..f.served]) > 0 then Some(now - lastSend.value) else s.lag
  {
    if reports != [] {
      var d := Report(s, reports[0], now, start, lastSend);
      var f := Flush(s, reports, now, start, lastSend);
      DeliveredPrefix(reports, f.served);
      if !d.raised {
        FlushLag(d.stats, reports[1..], now, start, lastSend);
      }
    }
  }

  /** The average `_shutdown` reports after a flush that did not raise
      counts every delivery the flush served: over a positive elapsed time,
      rate × elapsed is the deliveries before the flush plus those among its
      reports. */
  lemma ShutdownAverage(s: Stats, reports: seq<Option<string>>, now: real, start: Option<real>, lastSend: Option<real>, elapsed: real)
    requires !Flush(s, reports, now, start, lastSend).raised && elapsed > 0.0
    ensures AverageRps(Flush(s, reports, now, start, lastSend).stats.sent, elapsed) * elapsed == (s.sent + Delivered(reports)) as real
  {
    FlushCounts(s, reports, now, start, lastSend);
    assert reports[..|reports|] == reports;
  }

  /** The producer's statistics and gauges. */
  class Producer {
    const config: ProducerConfig
    const dataset: Dataset
    const generator: LoadGenerator

    var sentCount: nat              // acknowledged deliveries
    var errorCount: nat             // immediate and asynchronous failures
    var inFlight: int               // PROMPTS_IN_FLIGHT
    var promptsSentTotal: nat       // PROMPTS_SENT_TOTAL, all labels together
    var lastSendTime: Option<real>  // _last_send_time
    var startTime: Option<real>
    var lag: Option<real>           // KAFKA_LAG
    var currentRps: Option<real>    // CURRENT_RPS
    var outbox: seq<RequestEnvelope> // messages accepted by produce

    /** Accepted messages whose delivery report has not arrived yet: the
        client's queue, `len(producer)`. */
    var pending: nat
    /** Delivery reports that carried an error. */
    ghost var failedDeliveries: nat
    /** Sends left by an exception other than KafkaException. */
    ghost var strandedSends: nat

    /** The in-flight gauge counts the pending messages plus every message it
        was raised for and never lowered again: a delivery that failed
        asynchronously, or a send that escaped with a non-Kafka exception.
        In particular it is never negative. */
    ghost predicate Valid()
      reads this, dataset, generator
    {
      inFlight == pending + failedDeliveries + strandedSends &&
      dataset.config == config && generator.config == config &&
      dataset.Valid()
    }

    constructor (config: ProducerConfig, dataset: Dataset, generator: LoadGenerator)
      requires dataset.config == config && generator.config == config && dataset.Valid()
      ensures Valid()
      ensures this.config == config && this.dataset == dataset && this.generator == generator
      ensures sentCount == 0 && errorCount == 0 && inFlight == 0 && promptsSentTotal == 0 && outbox == []
      ensures lastSendTime == None && startTime == None && lag == None && currentRps == None
    {
      this.config := config;
      this.dataset := dataset;
      this.generator := generator;
      sentCount, errorCount, inFlight, promptsSentTotal := 0, 0, 0, 0;
      lastSendTime, startTime, lag, currentRps := None, None, None, None;
      outbox := [];
      pending, failedDeliveries, strandedSends := 0, 0, 0;
    }

    /** `send_prompt`: raise the in-flight gauge, remember the send time and
        produce. When Kafka accepts, the message is queued and True is returned; on
        `KafkaException` the gauge is lowered again, the error counted and
        False returned; any other exception escapes with the gauge raised.
        `sent_count` only moves when the delivery report arrives. */
    method SendPrompt(record: PromptRecord, now: real, produce: ProduceResult) returns (outcome: SendOutcome)
      requires Valid()
      modifies this
      ensures Valid()
      ensures outcome == (match produce case Accepted => SendOk case KafkaFailure => SendFailed case OtherFailure => SendRaised)
      ensures inFlight == old(inFlight) + (if produce == KafkaFailure then 0 else 1)
      ensures sentCount == old(sentCount)
      ensures errorCount == old(errorCount) + (if produce == KafkaFailure then 1 else 0)
      ensures promptsSentTotal == old(promptsSentTotal) + (if produce == Accepted then 1 else 0)
      ensures outbox == old(outbox) + (if produce == Accepted then [BuildEnvelope(config, record, old(sentCount), now)] else [])
      ensures pending == old(pending) + (if produce == Accepted then 1 else 0)
      ensures lastSendTime == Some(now)
      ensures startTime == old(startTime) && lag == old(lag) && currentRps == old(currentRps)
    {
      var message := BuildEnvelope(config, record, sentCount, now);
      inFlight := inFlight + 1;
      lastSendTime := Some(now);
      match produce {
        case Accepted =>
          outbox := outbox + [message];
          pending := pending + 1;
          promptsSentTotal := promptsSentTotal + 1;
          outcome := SendOk;
        case KafkaFailure =>
          inFlight := inFlight - 1;
          errorCount := errorCount + 1;
          outcome := SendFailed;
        case OtherFailure =>
          strandedSends := strandedSends + 1;
          outcome := SendRaised;
      }
    }

    /** `_on_send_success`, the delivery report for one accepted message.
        With an error only `error_count` moves. Without one, `sent_count`
        rises, the in-flight gauge falls, the lag gauge is set from the last
        send time, and every hundredth delivery sets the rate gauge; `raised`
        is true when that rate computation would raise (no start time yet, or
        no time elapsed). */
    method OnSendSuccess(err: Option<string>, now: real) returns (raised: bool)
      requires Valid() && pending > 0
      modifies this
      ensures Valid()
      ensures pending == old(pending) - 1
      ensures err.Some? ==>
        && errorCount == old(errorCount) + 1
        && sentCount == old(sentCount) && inFlight == old(inFlight)
        && lag == old(lag) && currentRps == old(currentRps) && !raised
      ensures err.None? ==>
        && sentCount == old(sentCount) + 1 && inFlight == old(inFlight) - 1
        && errorCount == old(errorCount)
        && lag == (if lastSendTime.Some? then Some(now - lastSendTime.value) else old(lag))
        && (sentCount % 100 != 0 ==> currentRps == old(currentRps) && !raised)
        && (sentCount % 100 == 0 ==>
              raised == (startTime.None? || now - startTime.value == 0.0) &&
              currentRps == if raised then old(currentRps)
                            else Some(sentCount as real / (now - startTime.value)))
      ensures outbox == old(outbox) && promptsSentTotal == old(promptsSentTotal)
      ensures lastSendTime == old(lastSendTime) && startTime == old(startTime)
      ensures Delivery(Statistics(), raised) == Report(old(Statistics()), err, now, startTime, lastSendTime)
    {
      pending := pending - 1;
      raised := false;
      if err.Some? {
        errorCount := errorCount + 1;
        failedDeliveries := failedDeliveries + 1;
        return;
      }
      sentCount := sentCount + 1;
      inFlight := inFlight - 1;
      if lastSendTime.Some? {
        lag := Some(now - lastSendTime.value);
      }
      if sentCount % 100 == 0 {
        if startTime.None? || now - startTime.value == 0.0 {
          raised := true;
        } else {
          currentRps := Some(sentCount as real / (now - startTime.value));
        }
      }
    }

    /** What a delivery report changes, as a value. */
    function Statistics(): Stats
      reads this
    {
      Stats(sentCount, errorCount, inFlight, lag, currentRps)
    }

    /** What `run` changes, as a value. */
    ghost function State(): RunState
      reads this, generator, dataset
    {
      RunState(generator.requestCount, errorCount, promptsSentTotal, inFlight, outbox, lastSendTime, dataset.Contents())
    }

    /** One iteration of the `run` loop: stop at the duration; otherwise
        sample (stopping on an empty pool), send (stopping on an exception
        other than `KafkaException`), increment the request count and ask for
        the delay (stopping when it raises). `stop` is `None` when the loop
        goes on with `delay`. */
    method Iteration(startNow: real, step: Step) returns (delay: real, stop: Option<StopReason>)
      requires Valid() && startTime == Some(startNow) && generator.startTime == startNow
      modifies this, dataset, generator
      ensures Valid() && startTime == Some(startNow) && generator.startTime == startNow
      ensures sentCount == old(sentCount) && lag == old(lag) && currentRps == old(currentRps)
      ensures pending - promptsSentTotal == old(pending) - old(promptsSentTotal)
      ensures Turn(State(), stop, delay) == NextTurn(config, startNow, sentCount, old(State()), step)
    {
      if step.now - startNow >= config.durationSeconds as real {
        return 0.0, Some(DurationReached);
      }
      var category := ChooseCategory(config, step.draw);
      ghost var before := dataset.Contents();
      var sample := dataset.SamplePrompt(step.draw, step.pick);
      if sample.None? {
        assert dataset.Contents() == before by {
          assert dataset.Pool(Short) == before.Pool(Short);
          assert dataset.Pool(Medium) == before.Pool(Medium);
          assert dataset.Pool(Long) == before.Pool(Long);
        }
        return 0.0, Some(SampleFailed);
      }
      ghost var pool := before.Pool(category);
      assert dataset.Contents() == before.With(category, pool[step.pick % |pool| := sample.value]) by {
        assert dataset.Pool(Short) == dataset.Contents().Pool(Short);
        assert dataset.Pool(Medium) == dataset.Contents().Pool(Medium);
        assert dataset.Pool(Long) == dataset.Contents().Pool(Long);
      }
      var outcome := SendPrompt(sample.value, step.now, step.produce);
      if outcome == SendRaised {
        return 0.0, Some(ProduceRaised);
      }
      generator.requestCount := generator.requestCount + 1;
      var next := generator.GetNextDelay(step.delayNow, step.unitExp);
      if next.Err? {
        return 0.0, Some(DelayFailed);
      }
      delay, stop := next.value, None;
    }

    /** The `while` loop of `run`: set the start times, then run iterations
        until one stops the loop or the steps run out. The loop computes the
        trace of `NextTurn` over the steps, so it has every property
        `RunSummary` proves of traces. */
    method RunLoop(startNow: real, steps: seq<Step>) returns (delays: seq<real>, stop: StopReason)
      requires Valid()
      modifies this, dataset, generator
      ensures Valid() && startTime == Some(startNow) && generator.startTime == startNow
      ensures sentCount == old(sentCount) && lag == old(lag) && currentRps == old(currentRps)
      ensures pending - promptsSentTotal == old(pending) - old(promptsSentTotal)
      ensures Outcome(State(), delays, stop) == Trace(config, startNow, sentCount, old(State()), steps)
    {
      ghost var s0 := State();
      startTime := Some(startNow);
      generator.startTime := startNow;
      delays := [];
      stop := Interrupted;
      var i := 0;
      var done := false;
      while i < |steps| && !done
        invariant 0 <= i <= |steps| && i == |delays|
        invariant Valid()
        invariant startTime == Some(startNow) && generator.startTime == startNow
        invariant sentCount == old(sentCount) && lag == old(lag) && currentRps == old(currentRps)
        invariant pending - promptsSentTotal == old(pending) - old(promptsSentTotal)
        invariant !done ==> stop == Interrupted
        invariant !done ==>
          var rest := Trace(config, startNow, sentCount, State(), steps[i..]);
          Trace(config, startNow, sentCount, s0, steps) == rest.(delays := delays + rest.delays)
        invariant done ==> Trace(config, startNow, sentCount, s0, steps) == Outcome(State(), delays, stop)
        decreases |steps| - i, if done then 0 else 1
      {
        ghost var rest := Trace(config, startNow, sentCount, State(), steps[i..]);
        assert steps[i..][0] == steps[i] && steps[i..][1..] == steps[i + 1..];
        var delay, stopped := Iteration(startNow, steps[i]);
        if stopped.None? {
          ghost var later := Trace(config, startNow, sentCount, State(), steps[i + 1..]);
          assert rest.delays == [delay] + later.delays;
          assert delays + rest.delays == (delays + [delay]) + later.delays;
          delays := delays + [delay];
          i := i + 1;
        } else {
          stop, done := stopped.value, true;
          assert delays + [] == delays;
        }
      }
      if !done {
        assert steps[i..] == [] && delays + [] == delays;
      }
    }

    /** `flush`: serve the delivery reports of the queued messages in order,
        one per queued message and at most `|reports|` of them (the timeout
        may cut the flush short), through `_on_send_success` at clock reading
        `now`, until a callback raises; that exception leaves `flush`. The
        statistics afterwards are those `Flush` gives. */
    method FlushReports(reports: seq<Option<string>>, now: real) returns (raised: bool)
      requires Valid()
      modifies this
      ensures Valid()
      ensures var f := Flush(old(Statistics()), reports[..Min(|reports|, old(pending))], now, startTime, lastSendTime);
        Statistics() == f.stats && raised == f.raised && pending == old(pending) - f.served
      ensures outbox == old(outbox) && promptsSentTotal == old(promptsSentTotal)
      ensures lastSendTime == old(lastSendTime) && startTime == old(startTime)
    {
      var served := reports[..Min(|reports|, pending)];
      ghost var whole := Flush(Statistics(), served, now, startTime, lastSendTime);
      raised := false;
      var i := 0;
      while i < |served| && !raised
        invariant 0 <= i <= |served| && pending == old(pending) - i
        invariant Valid()
        invariant outbox == old(outbox) && promptsSentTotal == old(promptsSentTotal)
        invariant lastSendTime == old(lastSendTime) && startTime == old(startTime)
        invariant !raised ==>
          var rest := Flush(Statistics(), served[i..], now, startTime, lastSendTime);
          whole == rest.(served := rest.served + i)
        invariant raised ==> whole == Flushing(Statistics(), i, true)
        decreases |served| - i, if raised then 0 else 1
      {
        assert served[i..][0] == served[i] && served[i..][1..] == served[i + 1..];
        ghost var before := Statistics();
        raised := OnSendSuccess(served[i], now);
        assert Delivery(Statistics(), raised) == Report(before, served[i], now, startTime, lastSendTime);
        i := i + 1;
      }
      if !raised {
        assert served[i..] == [];
      }
    }

    /** `run` followed by `_shutdown`, driven by one `Step` per iteration,
        then the delivery reports `flush` serves (read at `flushNow`), then
        the clock reading `shutdownNow` of the final statistics. Each
        iteration stops at the duration, samples, sends, increments the
        request count and only then asks for the delay, so the k-th delay is
        computed for count `old count + k + 1`. The loop ends at the
        duration, when the clock readings run out (an interrupt), or when
        sampling (an empty pool), sending (an exception other than
        `KafkaException`) or the delay raises. `loopEnd` is the state when
        the loop ends: `RunFacts` spells out, over it (request count, error
        count, `PROMPTS_SENT_TOTAL`, in-flight gauge, outbox, last send time
        and pools), why each iteration went on and why the loop stopped, and
        how every send on the way moved the counters; sampling only retags
        records in the pools, and each new envelope carries `request_number`
        = `sent_count`. `_shutdown` then flushes: the statistics move as
        `Flush` of the reports says, and only the reports' statistics move.
        The average is reported from the `sent_count` after the flush,
        unless a callback raised out of `flush`. */
    method Run(startNow: real, steps: seq<Step>, reports: seq<Option<string>>, flushNow: real, shutdownNow: real)
      returns (delays: seq<real>, stop: StopReason, averageRps: Option<real>, ghost loopEnd: RunState)
      requires Valid()
      modifies this, dataset, generator
      ensures Valid()
      ensures startTime == Some(startNow) && generator.startTime == startNow
      ensures RunFacts(config, startNow, old(sentCount), old(State()), steps, Outcome(loopEnd, delays, stop))
      ensures State() == loopEnd.(errors := errorCount, inFlight := inFlight)
      ensures var queued := old(pending) + promptsSentTotal - old(promptsSentTotal);
        var f := Flush(Stats(old(sentCount), loopEnd.errors, loopEnd.inFlight, old(lag), old(currentRps)),
                       reports[..Min(|reports|, queued)], flushNow, startTime, lastSendTime);
        && Statistics() == f.stats && pending == queued - f.served
        && averageRps == if f.raised then None else Some(AverageRps(sentCount, shutdownNow - startNow))
    {
      delays, stop := RunLoop(startNow, steps);
      loopEnd := State();
      RunSummary(config, startNow, sentCount, old(State()), steps, Outcome(loopEnd, delays, stop));
      var raised := FlushReports(reports, flushNow);
      averageRps := if raised then None else Some(AverageRps(sentCount, shutdownNow - startNow));
    }
  }

  /** Bursts as the run loop produces them: starting from a fresh generator,
      a run of `N * burst_size` iterations under the burst shape gets the
      delay `burst_interval` exactly `N` times and 0.1 s otherwise, and its
      first delay is 0.1 s unless `burst_size` is 1. */
  lemma RunBurstSchedule(config: ProducerConfig, startNow: real, steps: seq<Step>, delays: seq<real>, blocks: nat)
    requires config.loadPattern == Burst && config.burstSize > 0
    requires |delays| == blocks * config.burstSize && |delays| <= |steps|
    requires forall k :: 0 <= k < |delays| ==>
      Ok(delays[k]) == NextDelay(config, 0 + k + 1, steps[k].delayNow - startNow, steps[k].unitExp)
    ensures Occurrences(delays, config.burstInterval as real) == blocks
    ensures forall k :: 0 <= k < |delays| && delays[k] != config.burstInterval as real ==> delays[k] == BurstGap
    ensures |delays| > 0 ==> delays[0] == if config.burstSize == 1 then config.burstInterval as real else BurstGap
  {
    forall k | 0 <= k < |delays| ensures delays[k] == BurstDelayAt(config, 1 + k) {
      assert NextDelay(config, k + 1, steps[k].delayNow - startNow, steps[k].unitExp).Ok?;
    }
    BurstSchedule(config, blocks, delays);
    FirstBurstDelay(config);
  }
}
