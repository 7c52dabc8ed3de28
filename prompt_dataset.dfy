/** `PromptDataset` (llm-prompt-producer/main.py): builds a prompt from each
    dataset line, estimates its token count, keeps it when the estimate lies
    within the configured bounds, sorts kept prompts into a short, a medium
    and a long pool, and samples a pool by a uniform draw. Opening the file
    and JSON parsing are outside the model: the loader sees the lines already
    parsed, with a line that could not be parsed or lacks a field as
    `Malformed`. */
module PromptDataset {
  import opened Wrappers
  import opened Text
  import opened LoadGeneration

  datatype Category = Short | Medium | Long

  /** `original_id`: the line's `id`, or the number of prompts kept so far. */
  datatype RecordId = SourceId(id: string) | DefaultId(loadedCount: nat)

  datatype DatasetLine =
    | Malformed
    | Line(instruction: string, input: string, id: Option<string>)

  /** A prompt dict: `text`, `token_count`, `original_id` and, once sampled,
      `length_category`. */
  datatype PromptRecord = PromptRecord(text: string, tokenCount: nat, originalId: RecordId, lengthCategory: Option<Category>)

  const InstructionHeader := "Instruction: "
  const InputHeader := "\nInput: "

  /** Token count bounds of the short and medium pools (inclusive). */
  const ShortMax := 50
  const MediumMax := 200

  /** The prompt text of a line: the instruction after its header, followed by
      the input after its own header only when the input is not blank. */
  function PromptText(instruction: string, input: string): (p: string)
    ensures |p| >= |InstructionHeader| + |instruction|
    ensures p[..|InstructionHeader| + |instruction|] == InstructionHeader + instruction
    ensures p[|InstructionHeader| + |instruction|..] == if IsBlank(input) then "" else InputHeader + input
  {
    StripEmptyIffBlank(input);
    if Strip(input) != [] then InstructionHeader + instruction + InputHeader + input
    else InstructionHeader + instruction
  }

  /** `_estimate_tokens`: one token per four characters, rounded down. */
  function EstimateTokens(text: string): (n: nat)
    ensures 4 * n <= |text| < 4 * n + 4
  {
    |text| / 4
  }

  /** The pool a kept prompt with `tokenCount` tokens goes to. */
  function Categorize(tokenCount: int): (c: Category)
    ensures c == Short <==> tokenCount <= ShortMax
    ensures c == Medium <==> ShortMax < tokenCount <= MediumMax
    ensures c == Long <==> MediumMax < tokenCount
  {
    if tokenCount <= ShortMax then Short
    else if tokenCount <= MediumMax then Medium
    else Long
  }

  /** The inclusive length filter. */
  predicate InRange(config: ProducerConfig, tokenCount: int)
  {
    config.minPromptLength <= tokenCount <= config.maxPromptLength
  }

  /** The short, medium and long pools. */
  datatype Pools = Pools(short: seq<PromptRecord>, medium: seq<PromptRecord>, long: seq<PromptRecord>)
  {
    function Pool(c: Category): seq<PromptRecord>
    {
      match c
      case Short => short
      case Medium => medium
      case Long => long
    }

    /** Each pool followed by the same pool of `other`. */
    function Append(other: Pools): (p: Pools)
      ensures forall c :: p.Pool(c) == Pool(c) + other.Pool(c)
    {
      Pools(short + other.short, medium + other.medium, long + other.long)
    }

    /** The pools with pool `c` replaced by `pool`. */
    function With(c: Category, pool: seq<PromptRecord>): (p: Pools)
      ensures p.Pool(c) == pool
      ensures forall d :: d != c ==> p.Pool(d) == Pool(d)
    {
      match c
      case Short => this.(short := pool)
      case Medium => this.(medium := pool)
      case Long => this.(long := pool)
    }
  }

  /** The pools and `loaded_count` after some lines. */
  datatype Loading = Loading(pools: Pools, loaded: nat)

  /** What one line adds: a kept prompt goes to the end of the pool its
      estimate selects, and the count of kept prompts grows by one. */
  function LoadLine(config: ProducerConfig, acc: Loading, line: DatasetLine): Loading
  {
    match line
    case Malformed => acc
    case Line(instruction, input, id) =>
      var text := PromptText(instruction, input);
      var tokens := EstimateTokens(text);
      if !InRange(config, tokens) then acc
      else
        var record := PromptRecord(text, tokens, if id.Some? then SourceId(id.value) else DefaultId(acc.loaded), None);
        var c := Categorize(tokens);
        Loading(acc.pools.With(c, acc.pools.Pool(c) + [record]), acc.loaded + 1)
  }

  /** The pools after loading `lines` in order, starting empty. */
  function LoadAll(config: ProducerConfig, lines: seq<DatasetLine>): Loading
  {
    if lines == [] then Loading(Pools([], [], []), 0)
    else LoadLine(config, LoadAll(config, lines[..|lines| - 1]), lines[|lines| - 1])
  }

  /** Loading a line after earlier pools `start` adds to them what it adds
      to the pools it is given. */
  lemma LoadLineAppend(config: ProducerConfig, start: Pools, acc: Loading, line: DatasetLine)
    ensures LoadLine(config, Loading(start.Append(acc.pools), acc.loaded), line) ==
            Loading(start.Append(LoadLine(config, acc, line).pools), LoadLine(config, acc, line).loaded)
  {
    if Kept(config, line) {
      var c := Categorize(EstimateTokens(LineText(line)));
      var record := LoadLine(config, acc, line).pools.Pool(c)[|acc.pools.Pool(c)|];
      assert start.Pool(c) + (acc.pools.Pool(c) + [record]) == (start.Pool(c) + acc.pools.Pool(c)) + [record];
      assert start.Append(acc.pools).With(c, start.Append(acc.pools).Pool(c) + [record]) ==
             start.Append(acc.pools.With(c, acc.pools.Pool(c) + [record])) by {
        var l, r := start.Append(acc.pools).With(c, start.Append(acc.pools).Pool(c) + [record]),
                    start.Append(acc.pools.With(c, acc.pools.Pool(c) + [record]));
        assert l.Pool(Short) == r.Pool(Short) && l.Pool(Medium) == r.Pool(Medium) && l.Pool(Long) == r.Pool(Long);
      }
    }
  }

  // ---------------------------------------------------------------------
  // The reference definition: which lines are kept, and in which pool.

  /** The prompt text of a well-formed line. */
  function LineText(line: DatasetLine): string
    requires line.Line?
  {
    PromptText(line.instruction, line.input)
  }

  /** A line is kept when it is well formed and its estimate passes the filter. */
  predicate Kept(config: ProducerConfig, line: DatasetLine)
  {
    line.Line? && InRange(config, EstimateTokens(LineText(line)))
  }

  /** Texts of the kept lines that belong to pool `c`, in line order. */
  function KeptTexts(config: ProducerConfig, lines: seq<DatasetLine>, c: Category): seq<string>
  {
    if lines == [] then []
    else
      var last := lines[|lines| - 1];
      KeptTexts(config, lines[..|lines| - 1], c) + KeptText(config, last, c)
  }

  /** The text of `line` when it is kept and belongs to pool `c`. */
  function KeptText(config: ProducerConfig, line: DatasetLine, c: Category): seq<string>
  {
    if Kept(config, line) && Categorize(EstimateTokens(LineText(line))) == c then [LineText(line)] else []
  }

  /** Number of kept lines. */
  function KeptCount(config: ProducerConfig, lines: seq<DatasetLine>): nat
  {
    if lines == [] then 0
    else KeptCount(config, lines[..|lines| - 1]) + (if Kept(config, lines[|lines| - 1]) then 1 else 0)
  }

  function Texts(pool: seq<PromptRecord>): (t: seq<string>)
    ensures |t| == |pool| && forall k :: 0 <= k < |pool| ==> t[k] == pool[k].text
  {
    seq(|pool|, k requires 0 <= k < |pool| => pool[k].text)
  }

  /** A record fits pool `c`: its count is the estimate of its text, it passed
      the filter, it belongs to `c` and it is untagged or tagged `c`. */
  predicate Fits(config: ProducerConfig, record: PromptRecord, c: Category)
  {
    record.tokenCount == EstimateTokens(record.text) &&
    InRange(config, record.tokenCount) &&
    Categorize(record.tokenCount) == c &&
    (record.lengthCategory == None || record.lengthCategory == Some(c))
  }

  predicate PoolFits(config: ProducerConfig, pool: seq<PromptRecord>, c: Category)
  {
    forall k :: 0 <= k < |pool| ==> Fits(config, pool[k], c)
  }

  /** Loading keeps exactly the lines that pass the filter, puts each into the
      one pool its estimate selects, in line order, and counts them:
      `loaded_count` is the number of kept lines and the sum of the pool sizes. */
  lemma {:induction false} LoadAllSortsKeptLines(config: ProducerConfig, lines: seq<DatasetLine>)
    ensures forall c :: Texts(LoadAll(config, lines).pools.Pool(c)) == KeptTexts(config, lines, c)
    ensures forall c :: PoolFits(config, LoadAll(config, lines).pools.Pool(c), c)
    ensures LoadAll(config, lines).loaded == KeptCount(config, lines)
    ensures var pools := LoadAll(config, lines).pools;
      LoadAll(config, lines).loaded == |pools.short| + |pools.medium| + |pools.long|
  {
    if lines != [] {
      var init := lines[..|lines| - 1];
      LoadAllSortsKeptLines(config, init);
      forall c
        ensures Texts(LoadAll(config, lines).pools.Pool(c)) == KeptTexts(config, lines, c)
        ensures PoolFits(config, LoadAll(config, lines).pools.Pool(c), c)
      {
        LoadLineSorts(config, LoadAll(config, init), lines[|lines| - 1], c);
      }
    }
  }

  /** One line extends pool `c` by its text exactly when it is kept and
      belongs to `c`, and what it adds fits `c`. */
  lemma LoadLineSorts(config: ProducerConfig, acc: Loading, line: DatasetLine, c: Category)
    requires PoolFits(config, acc.pools.Pool(c), c)
    ensures Texts(LoadLine(config, acc, line).pools.Pool(c)) == Texts(acc.pools.Pool(c)) + KeptText(config, line, c)
    ensures PoolFits(config, LoadLine(config, acc, line).pools.Pool(c), c)
  {
    var after := LoadLine(config, acc, line).pools.Pool(c);
    if KeptText(config, line, c) != [] {
      assert after == acc.pools.Pool(c) + [after[|after| - 1]];
    }
  }

  /** `_load_dataset` fails ("No prompts loaded") exactly when no line passes the filter. */
  lemma LoadFailsIffNothingKept(config: ProducerConfig, lines: seq<DatasetLine>)
    ensures LoadAll(config, lines).loaded == 0 <==> forall k :: 0 <= k < |lines| ==> !Kept(config, lines[k])
  {
    LoadAllSortsKeptLines(config, lines);
    KeptCountZero(config, lines);
  }

  lemma {:induction false} KeptCountZero(config: ProducerConfig, lines: seq<DatasetLine>)
    ensures KeptCount(config, lines) == 0 <==> forall k :: 0 <= k < |lines| ==> !Kept(config, lines[k])
  {
    if lines != [] {
      var init, last := lines[..|lines| - 1], lines[|lines| - 1];
      KeptCountZero(config, init);
      assert lines == init + [last];
      assert KeptCount(config, lines) == KeptCount(config, init) + (if Kept(config, last) then 1 else 0);
    }
  }

  // ---------------------------------------------------------------------
  // Sampling.

  /** The pool `sample_prompt` draws from for a uniform draw `r`: short below
      the short ratio, medium below the sum of the short and medium ratios,
      long otherwise. */
  function ChooseCategory(config: ProducerConfig, r: real): (c: Category)
    ensures c == Short <==> r < config.shortPromptsRatio
    ensures c == Medium <==> config.shortPromptsRatio <= r < config.shortPromptsRatio + config.mediumPromptsRatio
    ensures c == Long <==> config.shortPromptsRatio <= r && config.shortPromptsRatio + config.mediumPromptsRatio <= r
  {
    if r < config.shortPromptsRatio then Short
    else if r < config.shortPromptsRatio + config.mediumPromptsRatio then Medium
    else Long
  }

  /** The long ratio is never read: when the three ratios sum to 1, a draw in
      [0, 1) selects the long pool exactly on the last interval of length
      `long_prompts_ratio`; otherwise the long pool gets whatever remains. */
  lemma LongPoolTakesRemainder(config: ProducerConfig, other: ProducerConfig, r: real)
    requires 0.0 <= config.shortPromptsRatio && 0.0 <= config.mediumPromptsRatio
    requires config.shortPromptsRatio + config.mediumPromptsRatio + config.longPromptsRatio == 1.0
    requires other == config.(longPromptsRatio := other.longPromptsRatio)
    ensures ChooseCategory(config, r) == ChooseCategory(other, r)
    ensures ChooseCategory(config, r) == Long <==> r >= 1.0 - config.longPromptsRatio
  {
  }

  /** The loaded prompt pools. `sample_prompt` tags the dict it returns with
      its category, and that dict is the one held in the pool. */
  class Dataset {
    const config: ProducerConfig
    var shortPrompts: seq<PromptRecord>
    var mediumPrompts: seq<PromptRecord>
    var longPrompts: seq<PromptRecord>

    /** The three pools as a value. */
    function Contents(): Pools
      reads this
    {
      Pools(shortPrompts, mediumPrompts, longPrompts)
    }

    function Pool(c: Category): seq<PromptRecord>
      reads this
    {
      Contents().Pool(c)
    }

    /** Every record sits in the pool its token count selects. */
    ghost predicate Valid()
      reads this
    {
      PoolFits(config, shortPrompts, Short) &&
      PoolFits(config, mediumPrompts, Medium) &&
      PoolFits(config, longPrompts, Long)
    }

    constructor (config: ProducerConfig)
      ensures this.config == config && Valid()
      ensures shortPrompts == [] && mediumPrompts == [] && longPrompts == []
    {
      this.config := config;
      shortPrompts, mediumPrompts, longPrompts := [], [], [];
    }

    /** One pass of `_load_dataset`'s loop on a parsed line: a kept prompt
        is appended to the pool its estimate selects, with its own id or
        `loadedCount` as its id, and counted. */
    method LoadOne(line: DatasetLine, loadedCount: nat) returns (kept: bool)
      requires Valid()
      modifies this
      ensures Valid()
      ensures kept <==> Kept(config, line)
      ensures Loading(Contents(), if kept then loadedCount + 1 else loadedCount) ==
              LoadLine(config, Loading(old(Contents()), loadedCount), line)
    {
      kept := false;
      if line.Line? {
        var text := PromptText(line.instruction, line.input);
        var tokens := EstimateTokens(text);
        if InRange(config, tokens) {
          var record := PromptRecord(text, tokens,
            if line.id.Some? then SourceId(line.id.value) else DefaultId(loadedCount), None);
          ghost var c := Categorize(tokens);
          assert Fits(config, record, c);
          if tokens <= ShortMax {
            shortPrompts := shortPrompts + [record];
          } else if tokens <= MediumMax {
            mediumPrompts := mediumPrompts + [record];
          } else {
            longPrompts := longPrompts + [record];
          }
          assert Contents() == old(Contents()).With(c, old(Contents()).Pool(c) + [record]);
          kept := true;
        }
      }
    }

    /** `_load_dataset` over parsed lines: appends each kept prompt to its pool
        and reports failure when no prompt was kept. */
    method LoadDataset(lines: seq<DatasetLine>) returns (ok: bool)
      requires Valid()
      modifies this
      ensures Valid()
      ensures shortPrompts == old(shortPrompts) + LoadAll(config, lines).pools.short
      ensures mediumPrompts == old(mediumPrompts) + LoadAll(config, lines).pools.medium
      ensures longPrompts == old(longPrompts) + LoadAll(config, lines).pools.long
      ensures ok <==> LoadAll(config, lines).loaded > 0
    {
      var loadedCount := 0;
      var i := 0;
      while i < |lines|
        invariant 0 <= i <= |lines|
        invariant Valid()
        invariant Loading(Contents(), loadedCount) ==
                  Loading(old(Contents()).Append(LoadAll(config, lines[..i]).pools), LoadAll(config, lines[..i]).loaded)
      {
        assert lines[..i + 1][..i] == lines[..i];
        LoadLineAppend(config, old(Contents()), LoadAll(config, lines[..i]), lines[i]);
        var kept := LoadOne(lines[i], loadedCount);
        if kept {
          loadedCount := loadedCount + 1;
        }
        i := i + 1;
      }
      assert lines[..i] == lines;
      ok := loadedCount != 0;
    }

    /** `sample_prompt` with the uniform draw `r` and the index `pick` given to
        `random.choice` (taken modulo the pool size). An empty chosen pool is
        `None` (Python raises IndexError). Otherwise the chosen record is
        tagged with its category in place and returned. */
    method SamplePrompt(r: real, pick: nat) returns (sample: Option<PromptRecord>)
      requires Valid()
      modifies this
      ensures Valid()
      ensures var c := ChooseCategory(config, r);
        && (sample.Some? <==> old(Pool(c)) != [])
        && (sample.Some? ==>
              && sample.value == old(Pool(c))[pick % |old(Pool(c))|].(lengthCategory := Some(c))
              && Pool(c) == old(Pool(c))[pick % |old(Pool(c))| := sample.value])
        && (sample.None? ==> Pool(c) == old(Pool(c)))
        && (forall d :: d != c ==> Pool(d) == old(Pool(d)))
    {
      var c := ChooseCategory(config, r);
      var pool := Pool(c);
      if pool == [] {
        sample := None;
      } else {
        var index := pick % |pool|;
        var record := pool[index].(lengthCategory := Some(c));
        sample := Some(record);
        match c {
          case Short => shortPrompts := shortPrompts[index := record];
          case Medium => mediumPrompts := mediumPrompts[index := record];
          case Long => longPrompts := longPrompts[index := record];
        }
      }
    }
  }

  /** A sampled prompt is tagged with the pool it came from and respects that
      pool's length bounds. */
  lemma SampleFitsCategory(config: ProducerConfig, record: PromptRecord, c: Category)
    requires Fits(config, record, c)
    ensures Fits(config, record.(lengthCategory := Some(c)), c)
    ensures c == Short ==> record.tokenCount <= ShortMax
    ensures c == Medium ==> ShortMax < record.tokenCount <= MediumMax
    ensures c == Long ==> MediumMax < record.tokenCount <= config.maxPromptLength
  {
  }
}
