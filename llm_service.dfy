/** `LLMService` (llm-service/service.py): the consumer side. The poll loop
    hands every decoded request to a worker pool; a worker builds a result
    envelope for the request's prompt and publishes it, keeping the
    `ACTIVE_PROCESSING` gauge balanced. Kafka is an abstract effect: a poll is
    the next element of a sequence, a publish either succeeds (the envelope
    is appended to `outbox`) or raises. The two-thread pool is a FIFO queue
    of submitted payloads served one at a time. */
module LlmService {
  import opened Wrappers
  import opened Text
  import opened ModelLoading

  /** A decoded JSON value. */
  datatype Json =
    | JNull
    | JBool(b: bool)
    | JNumber(n: real)
    | JString(s: string)
    | JArray(items: seq<Json>)
    | JObject(fields: map<string, Json>)

  /** Python truthiness of a decoded JSON value. */
  predicate Truthy(j: Json)
  {
    match j
    case JNull => false
    case JBool(b) => b
    case JNumber(n) => n != 0.0
    case JString(s) => s != []
    case JArray(items) => items != []
    case JObject(fields) => fields != map[]
  }

  /** `data.get('message_id', 'unknown')`. */
  function MessageIdOf(fields: map<string, Json>): (id: Json)
    ensures "message_id" in fields ==> id == fields["message_id"]
    ensures "message_id" !in fields ==> id == JString("unknown")
  {
    if "message_id" in fields then fields["message_id"] else JString("unknown")
  }

  /** `data.get('prompt')` when it is truthy; `None` for a missing or falsy prompt. */
  function PromptOf(fields: map<string, Json>): (p: Option<Json>)
    ensures p.Some? <==> "prompt" in fields && Truthy(fields["prompt"])
    ensures p.Some? ==> p.value == fields["prompt"]
  {
    if "prompt" in fields && Truthy(fields["prompt"]) then Some(fields["prompt"]) else None
  }

  /** What `self.model.generate(prompt)` did: returned, or raised with `str(e)`. */
  datatype GenerationOutcome = Generated(generation: Generation) | GenerationFailed(reason: string)

  const ModelTypeLabel := "causal_lm"

  /** The dict `process_prompt` returns: the success shape or the error shape. */
  datatype ResultEnvelope =
    | Completed(messageId: Json, prompt: Json, response: string, processingTime: real, inferenceTime: real,
                tokensGenerated: nat, modelType: string, nodeId: string, timestamp: string)
    | Failed(messageId: Json, prompt: Json, error: string, modelType: string, nodeId: string, timestamp: string)

  /** The envelope `process_prompt` returns; it is total, so `process_prompt`
      never raises. Both shapes carry the request's id and prompt, the model
      type label and the node id; the success shape carries the stripped
      response and the generated token count, the error shape only the
      failure's text. */
  function ResultFor(prompt: Json, messageId: Json, outcome: GenerationOutcome, nodeId: string,
                     processingTime: real, timestamp: string): (r: ResultEnvelope)
    ensures r.messageId == messageId && r.prompt == prompt && r.nodeId == nodeId && r.timestamp == timestamp
    ensures r.modelType == ModelTypeLabel
    ensures r.Completed? <==> outcome.Generated?
    ensures r.Completed? ==>
      && r.response == Strip(outcome.generation.response)
      && r.tokensGenerated == outcome.generation.numTokens
      && r.inferenceTime == outcome.generation.inferenceTime
      && r.processingTime == processingTime
    ensures r.Failed? ==> r.error == outcome.reason
  {
    match outcome
    case Generated(g) =>
      Completed(messageId, prompt, Strip(g.response), processingTime, g.inferenceTime, g.numTokens,
                ModelTypeLabel, nodeId, timestamp)
    case GenerationFailed(reason) =>
      Failed(messageId, prompt, reason, ModelTypeLabel, nodeId, timestamp)
  }

  /** `generate` already strips its response, so the second strip in
      `process_prompt` changes nothing: the published response is exactly the
      one `generate` produced. */
  lemma PublishedResponseIsGenerated(prompt: Json, messageId: Json, outputRow: seq<int>, inputLength: nat,
                                     decode: seq<int> -> string, inferenceTime: real, nodeId: string,
                                     processingTime: real, timestamp: string)
    ensures var g := Generate(outputRow, inputLength, decode, inferenceTime);
      var r := ResultFor(prompt, messageId, Generated(g), nodeId, processingTime, timestamp);
      r.response == g.response && r.tokensGenerated == |GeneratedTokens(outputRow, inputLength)|
  {
    var g := Generate(outputRow, inputLength, decode, inferenceTime);
    StripIdempotent(decode(GeneratedTokens(outputRow, inputLength)));
  }

  /** The service's metric values and its output topic. */
  datatype Metrics = Metrics(activeProcessing: int, messagesProcessed: nat, tokensGenerated: nat,
                             outbox: seq<ResultEnvelope>)

  /** How handling one payload ended. */
  datatype HandleStatus =
    | NotAnObject     // `data.get` raised AttributeError inside the worker
    | NoPrompt        // missing or empty prompt: returned at once
    | Published       // the result was handed to the producer
    | PublishRaised   // `produce` raised; the worker's future holds the error

  /** The effect of `handle_message(data)` on the metrics, given the
      generation's outcome, the elapsed processing time, the timestamp and
      whether `produce` succeeds. */
  function Handle(m: Metrics, data: Json, outcome: GenerationOutcome, nodeId: string, processingTime: real,
                  timestamp: string, produceOk: bool): (r: (Metrics, HandleStatus))
    ensures r.0.activeProcessing == m.activeProcessing
    ensures (!data.JObject? || PromptOf(data.fields).None?) ==> r.0 == m
    ensures !data.JObject? ==> r.1 == NotAnObject
    ensures data.JObject? && PromptOf(data.fields).None? ==> r.1 == NoPrompt
    ensures data.JObject? && PromptOf(data.fields).Some? ==>
      && r.1 == (if produceOk then Published else PublishRaised)
      && r.0.tokensGenerated == m.tokensGenerated + (if outcome.Generated? then outcome.generation.numTokens else 0)
      && r.0.messagesProcessed == m.messagesProcessed + (if produceOk then 1 else 0)
      && r.0.outbox == m.outbox +
           (if produceOk
            then [ResultFor(PromptOf(data.fields).value, MessageIdOf(data.fields), outcome, nodeId, processingTime, timestamp)]
            else [])
  {
    if !data.JObject? then (m, NotAnObject)
    else
      var prompt := PromptOf(data.fields);
      if prompt.None? then (m, NoPrompt)
      else
        var result := ResultFor(prompt.value, MessageIdOf(data.fields), outcome, nodeId, processingTime, timestamp);
        var tokens := m.tokensGenerated + (if outcome.Generated? then outcome.generation.numTokens else 0);
        if produceOk then
          (m.(tokensGenerated := tokens, messagesProcessed := m.messagesProcessed + 1, outbox := m.outbox + [result]), Published)
        else
          (m.(tokensGenerated := tokens), PublishRaised)
  }

  /** The bus does not deduplicate: a request delivered twice is answered
      twice, with two envelopes carrying the same message id. */
  lemma DuplicateRequestAnsweredTwice(m: Metrics, data: Json, outcome: GenerationOutcome, nodeId: string,
                                      processingTime: real, timestamp: string)
    requires data.JObject? && PromptOf(data.fields).Some?
    ensures var once := Handle(m, data, outcome, nodeId, processingTime, timestamp, true).0;
      var twice := Handle(once, data, outcome, nodeId, processingTime, timestamp, true).0;
      && twice.messagesProcessed == m.messagesProcessed + 2
      && |twice.outbox| == |m.outbox| + 2
      && twice.outbox[|m.outbox|] == twice.outbox[|m.outbox| + 1]
      && twice.outbox[|m.outbox|].messageId == MessageIdOf(data.fields)
  {
  }

  /** One poll: nothing, a message carrying an error, or a message whose
      payload decodes (`Some`) or not (`None`: bad UTF-8, bad JSON or no value). */
  datatype PollResult = NoMessage | ErrorMessage | Delivered(payload: Option<Json>)

  /** The payloads the poll loop submits, in poll order: every decoded payload
      up to the first one that fails to decode, which ends the loop. */
  function Submitted(polls: seq<PollResult>): seq<Json>
  {
    if polls == [] then []
    else match polls[0]
      case NoMessage => Submitted(polls[1..])
      case ErrorMessage => Submitted(polls[1..])
      case Delivered(payload) =>
        if payload.None? then [] else [payload.value] + Submitted(polls[1..])
  }

  predicate Undecodable(p: PollResult)
  {
    p == Delivered(None)
  }

  /** Number of decoded payloads among `polls`. */
  function DecodedCount(polls: seq<PollResult>): nat
  {
    if polls == [] then 0
    else DecodedCount(polls[1..]) + (if polls[0].Delivered? && polls[0].payload.Some? then 1 else 0)
  }

  /** Polls without a decoding failure contribute their payloads, in order,
      ahead of whatever later polls contribute. */
  lemma {:induction false} SubmittedAppend(polls: seq<PollResult>, later: seq<PollResult>)
    requires forall k :: 0 <= k < |polls| ==> !Undecodable(polls[k])
    ensures Submitted(polls + later) == Submitted(polls) + Submitted(later)
  {
    if polls == [] {
      assert polls + later == later;
    } else {
      assert (polls + later)[1..] == polls[1..] + later;
      assert (polls + later)[0] == polls[0];
      SubmittedAppend(polls[1..], later);
    }
  }

  /** Nothing polled after an undecodable payload is submitted. */
  lemma SubmittedStopsAtDecodeFailure(polls: seq<PollResult>, later: seq<PollResult>)
    requires forall k :: 0 <= k < |polls| ==> !Undecodable(polls[k])
    ensures Submitted(polls + [Delivered(None)] + later) == Submitted(polls)
  {
    assert polls + [Delivered(None)] + later == polls + ([Delivered(None)] + later);
    SubmittedAppend(polls, [Delivered(None)] + later);
    assert Submitted([Delivered(None)] + later) == [];
  }

  /** Without a decoding failure, each decoded payload is submitted exactly once:
      empty and errored polls are skipped, nothing is duplicated. */
  lemma {:induction false} SubmittedOncePerPayload(polls: seq<PollResult>)
    requires forall k :: 0 <= k < |polls| ==> !Undecodable(polls[k])
    ensures |Submitted(polls)| == DecodedCount(polls)
  {
    if polls != [] {
      SubmittedOncePerPayload(polls[1..]);
    }
  }

  /** The service's mutable state. */
  class Service {
    const nodeId: string
    var running: bool
    var activeProcessing: int     // ACTIVE_PROCESSING
    var messagesProcessed: nat    // MESSAGES_PROCESSED
    var tokensGenerated: nat      // TOKENS_GENERATED
    var workQueue: seq<Json>      // tasks submitted to the pool, oldest first
    var outbox: seq<ResultEnvelope>
    var closed: bool              // consumer closed, producer flushed

    function MetricsOf(): Metrics
      reads this
    {
      Metrics(activeProcessing, messagesProcessed, tokensGenerated, outbox)
    }

    constructor (nodeId: string)
      ensures this.nodeId == nodeId && !running && !closed
      ensures MetricsOf() == Metrics(0, 0, 0, []) && workQueue == []
    {
      this.nodeId := nodeId;
      running, closed := false, false;
      activeProcessing, messagesProcessed, tokensGenerated := 0, 0, 0;
      workQueue, outbox := [], [];
    }

    /** `process_prompt`: build the envelope and count the generated tokens. */
    method ProcessPrompt(prompt: Json, messageId: Json, outcome: GenerationOutcome, processingTime: real,
                         timestamp: string) returns (result: ResultEnvelope)
      modifies this`tokensGenerated
      ensures result == ResultFor(prompt, messageId, outcome, nodeId, processingTime, timestamp)
      ensures tokensGenerated == old(tokensGenerated) + (if outcome.Generated? then outcome.generation.numTokens else 0)
    {
      result := ResultFor(prompt, messageId, outcome, nodeId, processingTime, timestamp);
      if outcome.Generated? {
        tokensGenerated := tokensGenerated + outcome.generation.numTokens;
      }
    }

    /** `handle_message`: drop a request without a prompt; otherwise raise
        `ACTIVE_PROCESSING`, process, publish, count the message only once it
        was handed to the producer, and lower the gauge again whether or not
        `produce` raised. */
    method HandleMessage(data: Json, outcome: GenerationOutcome, processingTime: real, timestamp: string,
                         produceOk: bool) returns (status: HandleStatus)
      modifies this
      ensures (MetricsOf(), status) == Handle(old(MetricsOf()), data, outcome, nodeId, processingTime, timestamp, produceOk)
      ensures running == old(running) && workQueue == old(workQueue) && closed == old(closed)
    {
      if !data.JObject? {
        return NotAnObject;
      }
      var messageId := MessageIdOf(data.fields);
      var prompt := PromptOf(data.fields);
      if prompt.None? {
        return NoPrompt;
      }
      activeProcessing := activeProcessing + 1;
      var result := ProcessPrompt(prompt.value, messageId, outcome, processingTime, timestamp);
      if produceOk {
        outbox := outbox + [result];
        messagesProcessed := messagesProcessed + 1;
        status := Published;
      } else {
        status := PublishRaised;
      }
      // the `finally` clause
      activeProcessing := activeProcessing - 1;
    }

    /** One pool worker picks the oldest submitted task and runs
        `handle_message` on it; `None` when nothing is queued. */
    method RunNextTask(outcome: GenerationOutcome, processingTime: real, timestamp: string, produceOk: bool)
      returns (status: Option<HandleStatus>)
      modifies this
      ensures old(workQueue) == [] ==> status == None && MetricsOf() == old(MetricsOf()) && workQueue == []
      ensures old(workQueue) != [] ==>
        && workQueue == old(workQueue)[1..]
        && status.Some?
        && (MetricsOf(), status.value) ==
             Handle(old(MetricsOf()), old(workQueue)[0], outcome, nodeId, processingTime, timestamp, produceOk)
      ensures running == old(running) && closed == old(closed)
    {
      if workQueue == [] {
        return None;
      }
      var data := workQueue[0];
      workQueue := workQueue[1..];
      var s := HandleMessage(data, outcome, processingTime, timestamp, produceOk);
      status := Some(s);
    }

    /** `run` after the model and Kafka are set up: poll until the polls run
        out (an interrupt) or a payload fails to decode (the outer handler),
        submitting every decoded payload in order; then `shutdown`. */
    method Run(polls: seq<PollResult>)
      modifies this
      ensures workQueue == old(workQueue) + Submitted(polls)
      ensures !running && closed
      ensures MetricsOf() == old(MetricsOf())
    {
      running := true;
      var i := 0;
      while running && i < |polls|
        invariant 0 <= i <= |polls|
        invariant old(workQueue) + Submitted(polls) == workQueue + Submitted(polls[i..])
        invariant !running ==> Submitted(polls[i..]) == []
        invariant MetricsOf() == old(MetricsOf())
        decreases |polls| - i, running
      {
        assert polls[i..][1..] == polls[i + 1..];
        match polls[i] {
          case NoMessage =>
            i := i + 1;
          case ErrorMessage =>
            i := i + 1;
          case Delivered(payload) =>
            if payload.None? {
              running := false;
            } else {
              workQueue := workQueue + [payload.value];
              i := i + 1;
            }
        }
      }
      if running {
        assert polls[i..] == [];
      }
      Shutdown();
    }

    /** `shutdown`: clear the running flag first, so the poll loop's condition
        is false from then on, then close the consumer and flush the producer. */
    method Shutdown()
      modifies this`running, this`closed
      ensures !running && closed
    {
      running := false;
      closed := true;
    }
  }
}
