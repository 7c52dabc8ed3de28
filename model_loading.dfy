/** `Model` (llm-service/model.py): deciding whether a checkpoint is a causal
    or a sequence-to-sequence language model from its configuration, loading
    it, and turning the generated token row into a response and a token count.
    Reading the configuration, the tokenizer, the weights and running
    generation are library calls: their results are inputs here. */
module ModelLoading {
  import opened Wrappers
  import opened Text

  datatype ModelType = CausalLM | Seq2Seq

  /** What `AutoConfig.from_pretrained` yields: nothing (it raised), or the two
      attributes the detector reads. `architectures` is `None` when the
      attribute is missing or null; `isEncoderDecoder` likewise. */
  datatype ModelConfig =
    | Unreadable
    | ModelConfig(architectures: Option<seq<string>>, isEncoderDecoder: Option<bool>)

  const Seq2SeqKeywords: seq<string> := ["seq2seq", "t5", "bart", "pegasus", "mbart"]
  const CausalKeywords: seq<string> := ["causallm", "gpt", "llama", "opt", "bloom"]

  /** Some keyword occurs in `name`: `any(x in name for x in keywords)`. */
  predicate MentionsAny(name: string, keywords: seq<string>)
  {
    exists k :: 0 <= k < |keywords| && Contains(name, keywords[k])
  }

  /** The lower-cased first architecture name, when the list is present and non-empty. */
  function FirstArchitecture(config: ModelConfig): (name: Option<string>)
    ensures name.Some? <==> config.ModelConfig? && config.architectures.Some? && config.architectures.value != []
    ensures name.Some? ==> name.value == Lower(config.architectures.value[0])
  {
    if config.ModelConfig? && config.architectures.Some? && config.architectures.value != []
    then Some(Lower(config.architectures.value[0]))
    else None
  }

  /** `detect_model_type`. Seq2seq keywords in the first architecture name
      win over causal ones; a causal keyword wins over the encoder-decoder
      flag; without a keyword match the flag decides; an unreadable
      configuration means a causal model. */
  function DetectModelType(config: ModelConfig): (t: ModelType)
    ensures config.Unreadable? ==> t == CausalLM
    ensures FirstArchitecture(config).Some? && MentionsAny(FirstArchitecture(config).value, Seq2SeqKeywords) ==>
      t == Seq2Seq
    ensures FirstArchitecture(config).Some? && !MentionsAny(FirstArchitecture(config).value, Seq2SeqKeywords) &&
            MentionsAny(FirstArchitecture(config).value, CausalKeywords) ==>
      t == CausalLM
    ensures config.ModelConfig? &&
            (FirstArchitecture(config).None? ||
             (!MentionsAny(FirstArchitecture(config).value, Seq2SeqKeywords) &&
              !MentionsAny(FirstArchitecture(config).value, CausalKeywords))) ==>
      (t == Seq2Seq <==> config.isEncoderDecoder == Some(true))
  {
    match config
    case Unreadable => CausalLM
    case ModelConfig(_, isEncoderDecoder) =>
      var name := FirstArchitecture(config);
      if name.Some? && MentionsAny(name.value, Seq2SeqKeywords) then Seq2Seq
      else if name.Some? && MentionsAny(name.value, CausalKeywords) then CausalLM
      else if isEncoderDecoder == Some(true) then Seq2Seq
      else CausalLM
  }

  /** Only the first architecture is consulted, and only in lower case: two
      configurations whose first names agree up to ASCII case and whose flags
      agree are classified alike, whatever follows in their lists. */
  lemma OnlyFirstArchitectureCounts(first: string, first': string, rest: seq<string>, rest': seq<string>, flag: Option<bool>)
    requires Lower(first) == Lower(first')
    ensures DetectModelType(ModelConfig(Some([first] + rest), flag)) ==
            DetectModelType(ModelConfig(Some([first'] + rest'), flag))
  {
    assert ([first] + rest)[0] == first;
    assert ([first'] + rest')[0] == first';
  }

  /** A name that mentions both families, such as "BartForCausalLM", is a
      sequence-to-sequence model even when the flag says otherwise. */
  lemma BartForCausalLMIsSeq2Seq()
    ensures DetectModelType(ModelConfig(Some(["BartForCausalLM"]), Some(false))) == Seq2Seq
  {
    var name := Lower("BartForCausalLM");
    assert name == "bartforcausallm";
    assert OccursAt(name, Seq2SeqKeywords[2], 0);
  }

  /** "LlamaForCausalLM" is causal even with the encoder-decoder flag set. */
  lemma LlamaIsCausal()
    ensures DetectModelType(ModelConfig(Some(["LlamaForCausalLM"]), Some(true))) == CausalLM
  {
    var name := "llamaforcausallm";
    assert Lower("LlamaForCausalLM") == name;
    assert OccursAt(name, CausalKeywords[2], 0);
    NoKeywordMentioned(name, Seq2SeqKeywords, "25bpb");
  }

  /** A name lacking some character of every keyword mentions none of them. */
  lemma NoKeywordMentioned(name: string, keywords: seq<string>, missing: string)
    requires |missing| == |keywords|
    requires forall k :: 0 <= k < |keywords| ==> missing[k] in keywords[k] && missing[k] !in name
    ensures !MentionsAny(name, keywords)
  {
    forall k | 0 <= k < |keywords|
      ensures !Contains(name, keywords[k])
    {
      MissingCharNotContained(name, keywords[k], missing[k]);
    }
  }

  /** What `AutoTokenizer.from_pretrained` yields, reduced to its special tokens. */
  datatype Tokenizer = Tokenizer(padToken: Option<string>, eosToken: Option<string>)

  /** A causal model's tokenizer without a pad token pads with its EOS token. */
  function DefaultPadToken(t: Tokenizer): (u: Tokenizer)
    ensures u.eosToken == t.eosToken
    ensures t.padToken.Some? ==> u == t
    ensures t.padToken.None? ==> u.padToken == t.eosToken
    ensures u.padToken.None? ==> t.padToken.None? && t.eosToken.None?
  {
    if t.padToken.None? then t.(padToken := t.eosToken) else t
  }

  /** The loaded model's state. */
  class Model {
    const modelPath: string
    var modelType: Option<ModelType>
    var tokenizer: Option<Tokenizer>
    var weightsLoaded: bool

    constructor (modelPath: string)
      ensures this.modelPath == modelPath && modelType == None && tokenizer == None && !weightsLoaded
    {
      this.modelPath := modelPath;
      modelType, tokenizer, weightsLoaded := None, None, false;
    }

    /** `load`: detect the type, fetch the tokenizer (`fetched`, None when it
        raised), then load the weights (`weightsOk`). The sequence-to-sequence
        branch reads `self.config`, which a `Model` does not have, so it raises
        before loading anything; the causal branch first defaults the pad
        token. `ok` is false exactly when `load` raises. */
    method Load(config: ModelConfig, fetched: Option<Tokenizer>, weightsOk: bool) returns (ok: bool)
      modifies this
      ensures modelType == Some(DetectModelType(config))
      ensures fetched.None? ==> tokenizer == old(tokenizer)
      ensures fetched.Some? ==>
        tokenizer == Some(if DetectModelType(config) == CausalLM then DefaultPadToken(fetched.value) else fetched.value)
      ensures ok <==> fetched.Some? && DetectModelType(config) == CausalLM && weightsOk
      ensures weightsLoaded == (ok || old(weightsLoaded))
    {
      var detected := DetectModelType(config);
      modelType := Some(detected);
      if fetched.None? {
        return false;
      }
      tokenizer := fetched;
      if detected == Seq2Seq {
        return false;
      }
      if fetched.value.padToken.None? {
        tokenizer := Some(fetched.value.(padToken := fetched.value.eosToken));
      }
      if !weightsOk {
        return false;
      }
      weightsLoaded := true;
      ok := true;
    }
  }

  /** `outputs[0, input_length:]`: the generated row without the first
      `inputLength` entries (empty when the row is shorter). */
  function GeneratedTokens(outputRow: seq<int>, inputLength: nat): (g: seq<int>)
    ensures inputLength <= |outputRow| ==> outputRow == outputRow[..inputLength] + g
    ensures inputLength > |outputRow| ==> g == []
  {
    if inputLength <= |outputRow| then outputRow[inputLength..] else []
  }

  /** What `generate` returns. */
  datatype Generation = Generation(response: string, inferenceTime: real, numTokens: nat)

  /** The post-processing of `generate`: slice off the prompt, decode the rest
      with the tokenizer's `decode`, strip, and count the sliced tokens. */
  function Generate(outputRow: seq<int>, inputLength: nat, decode: seq<int> -> string, inferenceTime: real): (r: Generation)
    ensures r.numTokens == if inputLength <= |outputRow| then |outputRow| - inputLength else 0
    ensures r.response == Strip(decode(GeneratedTokens(outputRow, inputLength)))
    ensures r.inferenceTime == inferenceTime
  {
    var generated := GeneratedTokens(outputRow, inputLength);
    Generation(Strip(decode(generated)), inferenceTime, |generated|)
  }

  /** A causal model echoes the prompt ids before the new ones: then the
      slice is exactly the new ids and `num_tokens` counts exactly them. */
  lemma GenerateCountsNewTokens(inputIds: seq<int>, newIds: seq<int>, decode: seq<int> -> string, inferenceTime: real)
    ensures GeneratedTokens(inputIds + newIds, |inputIds|) == newIds
    ensures Generate(inputIds + newIds, |inputIds|, decode, inferenceTime).numTokens == |newIds|
    ensures Generate(inputIds + newIds, |inputIds|, decode, inferenceTime).response == Strip(decode(newIds))
  {
    assert (inputIds + newIds)[|inputIds|..] == newIds;
  }
}
