# ecoscape load pipeline — a Dafny model

ecoscape drives synthetic prompt traffic through Kafka into a language-model
service and measures the service. This project models the bookkeeping and
decision logic of its four Python programs and proves what that logic
guarantees:

- **llm-prompt-producer** (`text.dfy`, `load_generation.dfy`,
  `prompt_dataset.dfy`, `prompt_producer.dfy`). `LoadGenerator` picks the
  delay before the next request from the traffic shape: constant, Poisson,
  burst or ramp-up. `PromptDataset` builds prompt texts from dataset lines.
  It estimates their token counts, filters them and sorts them into a short,
  a medium and a long pool. It samples a pool by a uniform draw.
  `PromptProducer` publishes prompts. It keeps the sent and error counts and
  the in-flight gauge, and it runs the pacing loop. At shutdown it serves
  the delivery reports the flush hands back and reports the average rate
  from the deliveries counted by then.
- **llm-service** (`llm_service.dfy`, `model_loading.dfy`). `LLMService`
  polls requests and hands every decoded payload to a worker. It answers
  each prompt with a result envelope and keeps the `ACTIVE_PROCESSING`,
  `MESSAGES_PROCESSED` and `TOKENS_GENERATED` metrics. `Model` tells causal
  from sequence-to-sequence checkpoints by their configuration. It defaults
  the pad token and counts the tokens a generation produced.
- **llm-preloader** (`preloader.dfy`). It derives a local name from a
  Hugging Face repository id and decides from two probes whether the id
  names a model or a dataset. It then chooses the target directory and the
  per-split export files.

Python floats are exact `real`s. Wall-clock readings, random draws and the
outcome of every Kafka, Hugging Face or torch call are parameters. Objects
whose fields the Python code updates are classes with `modifies` frames:
`LoadGenerator`, `Dataset`, `Producer`, `Service` and `Model`. Their
metric counters and gauges are plain fields. Exceptions that the code lets
escape are modelled as outcomes: `Err`, `None`, `SendRaised`, a stop
reason or a `raised` flag.

Where the code and the documented intent of the system disagree, the model
follows the code:

- Burst pacing: the run loop increments `request_count` before it asks for
  the delay. So the first count seen is 1, and the first delay is the long
  burst interval only when `burst_size` is 1.
- Ramp-up progress is capped at 1 but not clamped below 0.
- The in-flight gauge is lowered by a successful delivery report and by an
  immediate `KafkaException`. It is not lowered by a delivery report that
  carries an error. `Producer.Valid` records that the gauge equals the
  pending messages plus such failed deliveries plus sends that escaped with
  another exception.
- The three length ratios are not validated. The long ratio is never read:
  the long pool takes every draw that the short and medium ratios do not.
- A payload that fails to decode ends the poll loop, which then shuts the
  service down. A request without a prompt is dropped without touching any
  counter.
- Generation is a single call. There is no token-streaming timer, no
  time-to-first-token or inter-token measurement, and no rolling
  tokens-per-second window.

## Model

| member | source | states |
|---|---|---|
| Text.IsSpace | ecoscape/llm-prompt-producer/main.py:130 | definition: the characters `str.isspace()` accepts, which a bare `strip()` removes; `Text.Strip` and `Text.StripEmptyIffBlank` are stated with it |
| Text.IsBlank | ecoscape/llm-prompt-producer/main.py:130 | definition: every character is whitespace; `Text.StripEmptyIffBlank` proves this is exactly when `strip()` leaves nothing |
| Text.Strip | ecoscape/llm-service/service.py:72 | `str.strip()`: the result is the slice of the input from its first non-space character; every character outside it is whitespace; it neither starts nor ends with whitespace |
| Text.StripEmptyIffBlank | ecoscape/llm-prompt-producer/main.py:130 | `input.strip()` is falsy exactly when every character of `input` is whitespace |
| Text.StripIdempotent | ecoscape/llm-service/model.py:124 | stripping a stripped response changes nothing |
| Text.Lower | ecoscape/llm-service/model.py:35 | lower-casing keeps the length and maps each ASCII capital to its small letter, every other character to itself |
| Text.Contains | ecoscape/llm-service/model.py:38 | definition: Python's `x in s`, some index at which `x` occurs in `s`; used by `ModelLoading.MentionsAny` |
| Text.MissingCharNotContained | ecoscape/llm-service/model.py:38 | a needle holding a character the string lacks is not contained in it |
| Text.RFind | ecoscape/llm-preloader/main.py:25 | `rfind`: -1 iff the character is absent; otherwise an index holding it with no occurrence after it |
| LoadGeneration.RampRate | ecoscape/llm-prompt-producer/main.py:230-231 | definition: base rate + (end rate − base rate) × progress; `LoadGeneration.RampRateLinear`, `LoadGeneration.RampRateBetween` and `LoadGeneration.RampEndpoints` state its properties |
| LoadGeneration.RampProgress | ecoscape/llm-prompt-producer/main.py:228 | `min(elapsed/duration, 1)`: while elapsed/duration is below 1 the progress times the duration is the elapsed time, and from 1 on (for either sign of the duration) it is exactly 1; it is at most 1, and non-negative for non-negative elapsed time over a positive duration |
| LoadGeneration.RampDelayDuring | ecoscape/llm-prompt-producer/main.py:225-233 | inside the duration, with positive rates, the ramp delay succeeds and is the reciprocal of `base + (end − base) · elapsed / duration` |
| LoadGeneration.NextDelay | ecoscape/llm-prompt-producer/main.py:207-235 | each shape fails exactly when Python would raise: zero base rate (constant, Poisson), negative Poisson scale, zero burst size, zero duration or zero interpolated rate (ramp-up); otherwise it yields a delay |
| LoadGeneration.NextDelayValue | ecoscape/llm-prompt-producer/main.py:207-235 | the successful delay: constant, delay × base rate = 1; Poisson, delay × base rate = the unit exponential draw; burst, `burst_interval` when the count is a multiple of `burst_size`, else exactly 0.1; ramp-up, delay × interpolated rate = 1 |
| LoadGeneration.RampRateBetween | ecoscape/llm-prompt-producer/main.py:230-231 | for progress in [0, 1] the ramp rate lies between the base and end rates |
| LoadGeneration.RampRateRising | ecoscape/llm-prompt-producer/main.py:230-231 | when the end rate is at least the base rate, the rate at progress in [0, 1] lies between them |
| LoadGeneration.RampRateFalling | ecoscape/llm-prompt-producer/main.py:230-231 | when the end rate is at most the base rate, the rate at progress in [0, 1] lies between them |
| LoadGeneration.DelayPositive | ecoscape/llm-prompt-producer/main.py:207-235 | with positive rates, duration, burst size and interval, non-negative elapsed time and a positive draw, every shape returns a strictly positive delay |
| LoadGeneration.RampEndpoints | ecoscape/llm-prompt-producer/main.py:225-233 | at elapsed 0 the delay is `1/base_rps`; from the end of the duration on it is `1/ramp_up_end_rps` |
| LoadGeneration.RampRateLinear | ecoscape/llm-prompt-producer/main.py:230-231 | the rate, not the delay, is linear in progress: rate(q) − rate(p) = (end − base)(q − p), rate(0) = base, rate(1) = end |
| LoadGeneration.LoadGenerator.constructor | ecoscape/llm-prompt-producer/main.py:201-204 | a new generator has request count 0 and starts at the given clock reading |
| LoadGeneration.LoadGenerator.GetNextDelay | ecoscape/llm-prompt-producer/main.py:207-235 | definition: `get_next_delay` over the generator's count and the time since its start; `NextDelay`'s ensures and `NextDelayValue` state the result |
| LoadGeneration.BurstDelayAt | ecoscape/llm-prompt-producer/main.py:217-223 | definition: the burst branch's delay for a request count; `LoadGeneration.NextDelayValue` shows `NextDelay` returns it and `LoadGeneration.BurstSchedule` counts its values |
| LoadGeneration.BurstSchedule | ecoscape/llm-prompt-producer/main.py:217-223 | over counts 1 .. N·burst_size exactly N delays equal `burst_interval` and all others are 0.1 |
| LoadGeneration.FirstBurstDelay | ecoscape/llm-prompt-producer/main.py:219-223 | at count 1 the delay is `burst_interval` only when `burst_size` is 1, 0.1 otherwise |
| PromptDataset.PromptText | ecoscape/llm-prompt-producer/main.py:130-133 | the prompt is "Instruction: " + instruction, followed by "\nInput: " + input exactly when the input is not blank |
| PromptDataset.EstimateTokens | ecoscape/llm-prompt-producer/main.py:112-114 | the estimate n satisfies 4n ≤ len(text) < 4n + 4, i.e. it is `len // 4` |
| PromptDataset.Categorize | ecoscape/llm-prompt-producer/main.py:151-156 | short iff ≤ 50 tokens, medium iff 51..200, long iff > 200 |
| PromptDataset.InRange | ecoscape/llm-prompt-producer/main.py:139-142 | definition: min ≤ estimate ≤ max; the two `continue`s skip exactly the estimates outside it |
| PromptDataset.Pools.With | ecoscape/llm-prompt-producer/main.py:151-156 | the chosen pool is replaced and the other two are unchanged |
| PromptDataset.Pools.Append | ecoscape/llm-prompt-producer/main.py:151-156 | each pool of the result is that pool followed by the same pool of the other value |
| PromptDataset.LoadLine | ecoscape/llm-prompt-producer/main.py:128-158 | reference definition of one pass of the loop: a malformed or filtered line changes nothing; a kept one is appended, with its id or the current `loaded_count`, to the pool its estimate selects, and counted |
| PromptDataset.LoadAll | ecoscape/llm-prompt-producer/main.py:125-158 | reference definition: `LoadLine` over the lines in file order from empty pools; `PromptDataset.LoadAllSortsKeptLines` states what it keeps |
| PromptDataset.LoadLineSorts | ecoscape/llm-prompt-producer/main.py:151-158 | one line extends pool c by its text exactly when it is kept and its estimate selects c, and what it adds fits c |
| PromptDataset.LoadLineAppend | ecoscape/llm-prompt-producer/main.py:151-156 | pools are only appended to: a line adds the same records after any earlier pools |
| PromptDataset.LoadAllSortsKeptLines | ecoscape/llm-prompt-producer/main.py:126-158 | loading keeps exactly the lines whose estimate lies in [min, max]; each kept prompt goes to the one pool its estimate selects, in line order; every pool entry fits its pool; `loaded_count` equals the number of kept lines and the sum of the pool sizes |
| PromptDataset.LoadFailsIffNothingKept | ecoscape/llm-prompt-producer/main.py:174-175 | loading reports "no prompts loaded" exactly when no line passes the filter |
| PromptDataset.KeptCountZero | ecoscape/llm-prompt-producer/main.py:174-175 | no line is kept exactly when the kept-line count is 0 |
| PromptDataset.ChooseCategory | ecoscape/llm-prompt-producer/main.py:179-189 | short iff draw < short ratio; medium iff short ratio ≤ draw < short + medium ratio; long otherwise |
| PromptDataset.LongPoolTakesRemainder | ecoscape/llm-prompt-producer/main.py:181-189 | the long ratio never changes the choice; when the ratios sum to 1 the long pool is chosen iff draw ≥ 1 − long ratio |
| PromptDataset.Dataset.constructor | ecoscape/llm-prompt-producer/main.py:106-108 | the three pools start empty |
| PromptDataset.Dataset.LoadOne | ecoscape/llm-prompt-producer/main.py:128-158 | the line is kept iff it is well formed and its estimate passes the filter; the pools and `loaded_count` afterwards are `LoadLine` of those before; every record stays in the pool its count selects |
| PromptDataset.Dataset.LoadDataset | ecoscape/llm-prompt-producer/main.py:116-175 | each pool grows by exactly the kept prompts of that pool, in order; success iff at least one prompt was kept; every record stays in the pool its count selects |
| PromptDataset.Dataset.SamplePrompt | ecoscape/llm-prompt-producer/main.py:177-195 | the record comes from the pool `ChooseCategory` selects and is tagged with that category in place; an empty chosen pool yields nothing; the other pools are untouched |
| PromptDataset.SampleFitsCategory | ecoscape/llm-prompt-producer/main.py:194 | a tagged sample still fits its pool and respects that pool's token bounds |
| PromptProducer.Truncate | ecoscape/llm-prompt-producer/main.py:314 | `int(x)` rounds toward zero: the result is within 1 of x, on the side of zero |
| PromptProducer.BuildEnvelope | ecoscape/llm-prompt-producer/main.py:313-323 | the message id's sequence number and `request_number` both equal the current `sent_count`; text, token count, original id, pattern and timestamp come from the record, the config and the clock |
| PromptProducer.AverageRps | ecoscape/llm-prompt-producer/main.py:409-410 | for positive elapsed time, rate × elapsed = sent count; otherwise the rate is 0 |
| PromptProducer.NextTurn | ecoscape/llm-prompt-producer/main.py:383-395 | reference definition of one iteration: stop at the duration; sample (an empty pool raises); send the tagged record; unless `produce` raised, count the request and compute the delay |
| PromptProducer.Iterate | ecoscape/llm-prompt-producer/main.py:382-398 | definition: iterations one after another until one stops; running out of steps is the keyboard interrupt |
| PromptProducer.Trace | ecoscape/llm-prompt-producer/main.py:382-398 | definition: `Iterate` of `NextTurn` |
| PromptProducer.TurnKeepsRecords | ecoscape/llm-prompt-producer/main.py:311-336 | one iteration keeps the pools' records and the outbox, appending at most one envelope numbered `sent_count`, drawn from the pools |
| PromptProducer.TurnSteps | ecoscape/llm-prompt-producer/main.py:383-395 | one iteration: the request count grows iff it got past `produce`; it goes on only with the delay `NextDelay` gives for the new count; each stop reason holds exactly in its case; the counters move by its one send |
| PromptProducer.TraceLength | ecoscape/llm-prompt-producer/main.py:382-398 | the loop consumes at most one step past its completed iterations; it is interrupted iff it consumed every step; the request count grows by the completed iterations, plus one when the delay raised |
| PromptProducer.TraceDelays | ecoscape/llm-prompt-producer/main.py:392-395 | the k-th delay is `NextDelay` of count old+k+1 and the k-th `produce` did not raise |
| PromptProducer.TraceProceeds | ecoscape/llm-prompt-producer/main.py:384-390 | every iteration that reached `send_prompt` ran before the duration and found its chosen pool non-empty |
| PromptProducer.TraceStopsEarly | ecoscape/llm-prompt-producer/main.py:384-389 | a duration stop read a clock past the duration; a sampling stop ran before it with an empty chosen pool |
| PromptProducer.TraceStopsLate | ecoscape/llm-prompt-producer/main.py:390-394 | a `ProduceRaised` stop had a non-Kafka exception from `produce`; a `DelayFailed` stop had `produce` not raise and `NextDelay` fail |
| PromptProducer.TraceCounts | ecoscape/llm-prompt-producer/main.py:311-361 | errors grow by the sends that got `KafkaException`; `PROMPTS_SENT_TOTAL` and the outbox by the accepted ones |
| PromptProducer.TraceInFlight | ecoscape/llm-prompt-producer/main.py:326-351 | in-flight grows by the accepted sends plus a send that raised; the last send time is that of the last send |
| PromptProducer.TracePools | ecoscape/llm-prompt-producer/main.py:189-194 | the pools keep their records, only retagged |
| PromptProducer.TraceOutboxKept | ecoscape/llm-prompt-producer/main.py:332-336 | the outbox is only appended to |
| PromptProducer.TraceOutbox | ecoscape/llm-prompt-producer/main.py:313-323 | every appended envelope has `request_number` = `sent_count`, the configured pattern and a record of the starting pools |
| PromptProducer.RunFacts | ecoscape/llm-prompt-producer/main.py:363-401 | definition: the conjunction of the trace properties above |
| PromptProducer.RunSummary | ecoscape/llm-prompt-producer/main.py:382-398 | every trace of the loop satisfies `RunFacts` |
| PromptProducer.Producer.constructor | ecoscape/llm-prompt-producer/main.py:250-253 | all counts and gauges start at zero, no start or send time, nothing published |
| PromptProducer.Producer.SendPrompt | ecoscape/llm-prompt-producer/main.py:311-361 | in-flight is raised by one before producing and lowered again on `KafkaException`, which also counts an error and returns False; when Kafka accepts, the envelope is queued and True is returned; `sent_count` never moves; the in-flight invariant is kept |
| PromptProducer.Producer.OnSendSuccess | ecoscape/llm-prompt-producer/main.py:277-304 | with an error only `error_count` moves; otherwise `sent_count` rises, in-flight falls, the lag is set from the last send, and the rate gauge is set to sent/elapsed only at multiples of 100 (raising when elapsed is 0 or the start is unset); the statistics move as `Report` says |
| PromptProducer.Stalled | ecoscape/llm-prompt-producer/main.py:300-301 | definition: the rate computation has nothing to divide by (no start time, or no time elapsed) |
| PromptProducer.Report | ecoscape/llm-prompt-producer/main.py:277-304 | definition: `_on_send_success` on the statistics; `Producer.OnSendSuccess` ensures the producer moves exactly so |
| PromptProducer.Flush | ecoscape/llm-prompt-producer/main.py:406 | reports are served in order until a callback raises: at most all of them, and all of them unless one raised |
| PromptProducer.Delivered | ecoscape/llm-prompt-producer/main.py:279-289 | definition: the reports without an error, at most all of them |
| PromptProducer.LastHundred | ecoscape/llm-prompt-producer/main.py:299 | the largest multiple of 100 at or below the count |
| PromptProducer.FlushCounts | ecoscape/llm-prompt-producer/main.py:277-292 | only a delivery can raise; `sent_count` and in-flight move by the served deliveries, `error_count` by the served failures |
| PromptProducer.FlushCountsOn | ecoscape/llm-prompt-producer/main.py:277-292 | `FlushCounts` when the first report does not raise |
| PromptProducer.FlushRaises | ecoscape/llm-prompt-producer/main.py:299-301 | a flush raises iff no start time is set or no time has elapsed, and its deliveries carry `sent_count` past a multiple of 100; it then stops at the first such multiple |
| PromptProducer.FlushRaisesFailed | ecoscape/llm-prompt-producer/main.py:279-287 | `FlushRaises` when the first report carries an error |
| PromptProducer.FlushRaisesAtHundred | ecoscape/llm-prompt-producer/main.py:299-301 | `FlushRaises` when the first report is a delivery reaching a multiple of 100 |
| PromptProducer.FlushRaisesBetween | ecoscape/llm-prompt-producer/main.py:289-299 | `FlushRaises` when the first report is a delivery between multiples of 100 |
| PromptProducer.FlushRate | ecoscape/llm-prompt-producer/main.py:299-302 | after a flush that did not raise, the rate gauge is the last multiple of 100 reached over the elapsed time, if the deliveries reached one; otherwise it is unchanged |
| PromptProducer.FlushRateFailed | ecoscape/llm-prompt-producer/main.py:279-287 | `FlushRate` when the first report carries an error |
| PromptProducer.FlushRateAtHundred | ecoscape/llm-prompt-producer/main.py:299-302 | `FlushRate` when the first report is a delivery reaching a multiple of 100 |
| PromptProducer.FlushRateBetween | ecoscape/llm-prompt-producer/main.py:289-299 | `FlushRate` when the first report is a delivery between multiples of 100 |
| PromptProducer.FlushLag | ecoscape/llm-prompt-producer/main.py:294-297 | the lag gauge is set from the last send time iff a delivery was served and a send time exists |
| PromptProducer.ShutdownAverage | ecoscape/llm-prompt-producer/main.py:406-410 | after a flush that did not raise, average × elapsed is the deliveries before the flush plus those it served |
| PromptProducer.Producer.Statistics | ecoscape/llm-prompt-producer/main.py:277-304 | definition: the fields a delivery report moves |
| PromptProducer.Producer.FlushReports | ecoscape/llm-prompt-producer/main.py:406 | serves at most one report per queued message through `_on_send_success`, stopping when a callback raises; the statistics, the result and the queue are those `Flush` gives; the outbox, the sent total and the times are unchanged |
| PromptProducer.Producer.Run | ecoscape/llm-prompt-producer/main.py:363-410 | `RunFacts` over the state `loopEnd` where the loop ended: the k-th delay is `NextDelay` of count old+k+1; every iteration that reached `send_prompt` ran before the duration with a non-empty chosen pool; a duration stop saw the clock past the duration, `SampleFailed` an empty chosen pool, `ProduceRaised` a non-Kafka exception from `produce`, `DelayFailed` a failing `NextDelay`; errors grow by the `KafkaException` sends, `PROMPTS_SENT_TOTAL` and the outbox by the accepted ones, in-flight by those plus a send that raised; new envelopes carry `request_number` = `sent_count` and records of the pools; the pools keep their records. The flush in `_shutdown` then moves only the statistics and the queue, as `Flush` of the reports it serves (one per queued message, at most all given) says; the average is `AverageRps` of the `sent_count` after the flush, and there is none when a callback raised out of `flush` |
| PromptProducer.Producer.Iteration | ecoscape/llm-prompt-producer/main.py:383-395 | the state, stop reason and delay after one iteration are those `NextTurn` gives for the state before |
| PromptProducer.Producer.RunLoop | ecoscape/llm-prompt-producer/main.py:379-398 | sets both start times; the final state, the delays and the stop reason are `Trace` of the state before |
| PromptProducer.RunBurstSchedule | ecoscape/llm-prompt-producer/main.py:389-394 | a fresh run of N·burst_size iterations gets the delay `burst_interval` exactly N times and 0.1 otherwise; its first delay is 0.1 unless `burst_size` is 1 |
| ModelLoading.FirstArchitecture | ecoscape/llm-service/model.py:33-35 | present iff the architecture list exists and is non-empty; then the lower-cased first entry |
| ModelLoading.MentionsAny | ecoscape/llm-service/model.py:38-43 | definition: `any(x in arch_str for x in keywords)`, some keyword of the list occurs in the name |
| ModelLoading.DetectModelType | ecoscape/llm-service/model.py:28-56 | unreadable config → causal; a seq2seq keyword in the first architecture → seq2seq; else a causal keyword → causal; else seq2seq iff `is_encoder_decoder` is true |
| ModelLoading.OnlyFirstArchitectureCounts | ecoscape/llm-service/model.py:33-35 | configurations whose first architectures agree up to ASCII case, and whose flags agree, are classified alike whatever the rest of the list |
| ModelLoading.BartForCausalLMIsSeq2Seq | ecoscape/llm-service/model.py:38-45 | a name matching both keyword families ("BartForCausalLM") is seq2seq even with the flag false |
| ModelLoading.LlamaIsCausal | ecoscape/llm-service/model.py:43-52 | a causal keyword wins over a true encoder-decoder flag |
| ModelLoading.NoKeywordMentioned | ecoscape/llm-service/model.py:38 | a name lacking some character of every keyword mentions none of them |
| ModelLoading.DefaultPadToken | ecoscape/llm-service/model.py:77-78 | a missing pad token becomes the EOS token; a present one is kept |
| ModelLoading.Model.constructor | ecoscape/llm-service/model.py:22-26 | nothing is detected or loaded yet |
| ModelLoading.Model.Load | ecoscape/llm-service/model.py:58-93 | the detected type is stored; a causal model's tokenizer gets the default pad token; loading succeeds iff the tokenizer and weights load and the model is causal (the seq2seq branch raises) |
| ModelLoading.GeneratedTokens | ecoscape/llm-service/model.py:116-117 | the generated ids are what follows the first `input_length` ids of the output row |
| ModelLoading.Generate | ecoscape/llm-service/model.py:116-124 | `num_tokens` is the output length beyond the input prefix (0 when shorter); the response is the stripped decoding of exactly those ids |
| ModelLoading.GenerateCountsNewTokens | ecoscape/llm-service/model.py:116-122 | when the output echoes the input ids, the slice is exactly the new ids and `num_tokens` counts them |
| LlmService.Truthy | ecoscape/llm-service/service.py:94 | definition: Python truthiness of a JSON value; null, false, 0, "", [] and {} are falsy |
| LlmService.MessageIdOf | ecoscape/llm-service/service.py:92 | the request's `message_id`, or "unknown" when absent |
| LlmService.PromptOf | ecoscape/llm-service/service.py:93-95 | a prompt is present iff the field exists and is truthy |
| LlmService.ResultFor | ecoscape/llm-service/service.py:61-89 | both envelope shapes carry the request's id, prompt, node id and `model_type` "causal_lm"; the success shape iff generation returned, with the stripped response and `tokens_generated = num_tokens`; the error shape carries only the failure text |
| LlmService.PublishedResponseIsGenerated | ecoscape/llm-service/service.py:72 | the second strip is a no-op: the published response is exactly the one `generate` returned, and its token count is the generated slice's length |
| LlmService.Handle | ecoscape/llm-service/service.py:91-106 | without a prompt nothing changes; with one `ACTIVE_PROCESSING` ends where it began, tokens are added when generation succeeded, and the envelope is published and `MESSAGES_PROCESSED` counted only when `produce` succeeds |
| LlmService.DuplicateRequestAnsweredTwice | ecoscape/llm-service/service.py:91-104 | a request delivered twice is processed twice, giving two identical envelopes with the same message id |
| LlmService.Submitted | ecoscape/llm-service/service.py:121-130 | reference definition: the decoded payloads in poll order, skipping empty and errored polls and ending at the first undecodable payload; `LlmService.Service.Run` queues exactly these |
| LlmService.SubmittedAppend | ecoscape/llm-service/service.py:121-126 | polls without a decoding failure submit their payloads in poll order, ahead of later polls' payloads |
| LlmService.SubmittedStopsAtDecodeFailure | ecoscape/llm-service/service.py:125-130 | nothing polled after an undecodable payload is submitted |
| LlmService.SubmittedOncePerPayload | ecoscape/llm-service/service.py:121-126 | without a decoding failure every decoded payload is submitted exactly once, and empty or errored polls contribute nothing |
| LlmService.Service.constructor | ecoscape/llm-service/service.py:18-25 | not running, metrics zero, nothing queued or published |
| LlmService.Service.ProcessPrompt | ecoscape/llm-service/service.py:61-89 | returns `ResultFor` of the outcome and adds `num_tokens` to `TOKENS_GENERATED` only on success |
| LlmService.Service.HandleMessage | ecoscape/llm-service/service.py:91-106 | the metrics and outbox after the call are those `Handle` prescribes: the gauge is raised and lowered around the publish, even when `produce` raises |
| LlmService.Service.RunNextTask | ecoscape/llm-service/service.py:126 | the worker serves the oldest submitted payload first and removes it from the queue |
| LlmService.Service.Run | ecoscape/llm-service/service.py:108-130 | the queue grows by exactly `Submitted(polls)`; afterwards the service is not running and is closed; the poll thread itself changes no metric |
| LlmService.Service.Shutdown | ecoscape/llm-service/service.py:132-142 | `running` is false, so the poll loop's condition fails from then on |
| Preloader.RepoName | ecoscape/llm-preloader/main.py:25-26 | the name has no '/'; it is the id when the id has none; otherwise the id is a prefix ending in '/' followed by the name |
| Preloader.RepoNameIgnoresOwner | ecoscape/llm-preloader/main.py:25-26 | "owner/suffix" yields "suffix" for any owner, when the suffix has no '/' |
| Preloader.ResolveRepoType | ecoscape/llm-preloader/main.py:29-40 | dataset iff the dataset probe succeeds (the later probe wins); model iff only the model probe succeeds; none iff neither does |
| Preloader.TargetDir | ecoscape/llm-preloader/main.py:46 | models go to "/models/" + name, datasets to "/data/" + name |
| Preloader.TargetDirsDistinct | ecoscape/llm-preloader/main.py:46-64 | different types or different names never share a target directory |
| Preloader.SplitFile | ecoscape/llm-preloader/main.py:71 | the split file starts with the target directory and the split name can be read back from it |
| Preloader.Preload | ecoscape/llm-preloader/main.py:25-80 | abort iff neither probe succeeds; a model is downloaded into its target directory iff only the model probe succeeds; a dataset writes one `data_<split>.jsonl` per split, in split order, into its target directory |
| Preloader.DatasetFilesDistinct | ecoscape/llm-preloader/main.py:70-71 | distinct split names give distinct export files, so no split overwrites another |

## Left out

- Kafka I/O (producer and consumer construction, `produce`, `poll`, `flush`, `close`): `produce` is an outcome parameter and `poll` reads the next element of a sequence; `flush` is the sequence of delivery reports it serves.
- Prometheus registration, labels, histograms (send duration, prompt token counts, processing and inference time, model load time) and the metrics HTTP servers: only counter and gauge values are fields. The per-label split of `PROMPTS_SENT_TOTAL` and `PROMPTS_ERRORS_TOTAL` is not kept.
- Threads: the service's two-worker pool is a FIFO queue served one task at a time by `RunNextTask`. The psutil metrics thread and its sampling are left out, and so is the join on the pool at shutdown.
- PromptProducer.NextTurn: the delivery reports that `poll(0)` serves inside `send_prompt` (llm-prompt-producer/main.py:337) are not modelled, so `sent_count`, the lag and the rate gauge stay put during the loop and every envelope of one run carries the same `request_number`. In the program those reports move them between sends.
- PromptProducer.Producer.Run: serves delivery reports only at the `flush` of `_shutdown` (llm-prompt-producer/main.py:406), not at the `poll(0)` of each send (337); every report the program receives during the loop is served at the flush instead, with the flush's clock reading.
- `_on_send_error` is never registered as a callback in the code and is not modelled.
- torch and transformers calls (`from_pretrained`, tokenization, `generate`, `decode`) are foreign. Their results are parameters (`ModelConfig`, `Tokenizer`, the output id row, a `decode` function).
- Hugging Face `model_info` and `dataset_info` are probes, modelled as booleans; `load_dataset` is the list of split names it yields. `Preloader.Preload` returns only what the script attempts: the outcomes and failures of `snapshot_download` and `to_json` are not modelled. Their failure handlers (llm-preloader/main.py:56 and 75) pass `file=sys.stderr` to `logger.error`, which raises `TypeError` out of the handler; the bare `sys.exit` after each (59, 78) is never reached and would not call anything. That path is left out, and so is the missing `REPO_ID` variable.
- Randomness: the uniform draw, the `random.choice` index (taken modulo the pool size) and a unit exponential draw are parameters.
- File reading and JSON parsing of the dataset: the loader sees parsed lines, and a line that fails to parse or lacks a field is `Malformed`. Record ids are strings.
- Clocks and `sleep`: readings are parameters, and the chosen delay is returned instead of slept; `run` sleeps `max(0, delay)` (llm-prompt-producer/main.py:395), and that clamp is not modelled. `send_prompt` reads the clock three times (the message-id milliseconds at llm-prompt-producer/main.py:314, the timestamp at 317, the send start at 328); the model uses one reading `now` for all three. `_on_send_success` reads it twice (the lag at 296, the rate at 300); the model uses one reading, and one reading serves every callback of a `flush`. `run`'s duration check (384) is folded into the send's reading: `Step.now` serves both.
- Text.Lower: lower-cases ASCII letters only, because Python's Unicode case mapping is not modelled.
- Logging of every kind.
- PromptProducer.Producer.OnSendSuccess: the `ZeroDivisionError` or `TypeError` of the rate computation is the `raised` flag. During `flush` it stops the flush and `_shutdown` before the average (`Producer.FlushReports`, `Producer.Run`); the traceback and anything the client does with the rest of its queue are not modelled.
- LlmService.Service.Run: a `KeyboardInterrupt` is the end of the poll sequence. The model load, the Kafka setup and the metrics server before the loop are left out.
