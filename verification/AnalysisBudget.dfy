/**
 How one analysis spends its budget (workers/analyze/pipeline.py): the blocks of a live, the reserve that
 block summaries may not touch, and the three final steps the reserve is for. Times are microseconds.
 */
module AnalysisBudget {
  import opened Wrappers
  import opened Numbers
  import opened Sequences
  import opened Text
  import opened Budget

  // ----- blocks ------------------------------------------------------------------------

  datatype Block = Block(start: int, end: int)

  // The blocks follow each other without gap or overlap from `start` to `end`; all but the last last
  // exactly fifteen minutes.
  predicate Tiles(blocks: seq<Block>, start: int, end: int) {
    if blocks == [] then start >= end
    else
      && blocks[0].start == start < blocks[|blocks| - 1].end == end
      && (forall i :: 0 <= i < |blocks| - 1 ==> blocks[i].end == blocks[i + 1].start == blocks[i].start + 900_000_000)
      && (var last := blocks[|blocks| - 1]; last.start < last.end <= last.start + 900_000_000)
  }

  predicate TilesUpTo(blocks: seq<Block>, start: int, cursor: int, end: int) {
    if blocks == [] then cursor == start else cursor <= end && Tiles(blocks, start, cursor)
  }

  method StreamBlocks(start: int, endedAt: Option<int>) returns (blocks: seq<Block>)
    ensures endedAt.None? ==> blocks == []
    ensures endedAt.Some? ==> Tiles(blocks, start, endedAt.value)
  {
    if endedAt.None? { return []; }
    var end := endedAt.value;
    blocks := [];
    var cursor := start;
    while cursor < end
      invariant TilesUpTo(blocks, start, cursor, end)
      invariant blocks != [] && cursor < end ==> cursor == blocks[|blocks| - 1].start + 900_000_000
      decreases end - cursor
    {
      var stop := Min(cursor + 900_000_000, end);
      blocks := blocks + [Block(cursor, stop)];
      cursor := stop;
    }
  }

  lemma {:induction false} BlockInside(blocks: seq<Block>, start: int, end: int, i: nat)
    requires Tiles(blocks, start, end) && i < |blocks|
    ensures blocks[i].start < blocks[i].end <= end
    decreases |blocks| - i
  {
    if i < |blocks| - 1 {
      BlockInside(blocks, start, end, i + 1);
      assert blocks[i].end == blocks[i + 1].start == blocks[i].start + 900_000_000;
    }
  }

  lemma {:induction false} BlockAt(blocks: seq<Block>, start: int, end: int, i: nat)
    requires Tiles(blocks, start, end) && i < |blocks|
    ensures blocks[i].start == start + 900_000_000 * i
    ensures blocks[i].start < blocks[i].end == Min(start + 900_000_000 * (i + 1), end)
  {
    BlockInside(blocks, start, end, i);
    if i < |blocks| - 1 { assert blocks[i].end == blocks[i + 1].start == blocks[i].start + 900_000_000; }
    if i > 0 {
      BlockAt(blocks, start, end, i - 1);
      assert blocks[i - 1].end == blocks[i].start == blocks[i - 1].start + 900_000_000;
    }
  }

  /** Every instant of the live lies in exactly one block, no other instant lies in any, and the number of
      blocks is the length of the live over fifteen minutes, rounded up. */
  lemma BlocksPartition(blocks: seq<Block>, start: int, end: int, t: int)
    requires Tiles(blocks, start, end)
    ensures start <= t < end <==> exists i :: 0 <= i < |blocks| && blocks[i].start <= t < blocks[i].end
    ensures forall i, j :: 0 <= i < j < |blocks| ==> blocks[i].end <= blocks[j].start
    ensures 900_000_000 * (|blocks| - 1) < Max0(end - start) <= 900_000_000 * |blocks| || (blocks == [] && end <= start)
  {
    if blocks != [] {
      BlockAt(blocks, start, end, |blocks| - 1);
      if start <= t < end {
        var i := (t - start) / 900_000_000;
        assert 900_000_000 * i <= t - start < 900_000_000 * (i + 1);
        assert i < |blocks|;
        BlockAt(blocks, start, end, i);
      }
      forall i, j | 0 <= i < j < |blocks| ensures blocks[i].end <= blocks[j].start {
        BlockAt(blocks, start, end, i);
        BlockAt(blocks, start, end, j);
      }
      forall i | 0 <= i < |blocks| ensures start <= blocks[i].start && blocks[i].end <= end {
        BlockAt(blocks, start, end, i);
      }
    }
  }

  // ----- block summaries -----------------------------------------------------------------

  // The model and the text around it: the context of a block, the prompt made from the previous summary
  // and the fitted context, the answer to the prompt of the i-th block, and the content found in an
  // answer (None when it does not parse or is blank).
  datatype Llm = Llm(
    count: Counter,
    context: Block -> string,
    wrap: (Option<string>, Block, string) -> string,
    reply: (nat, string) -> string,
    parse: string -> Option<string>)

  datatype Progress = Progress(ledger: Ledger, summaries: seq<string>, skipped: seq<Block>)

  function BlockPrompt(p: Progress, llm: Llm, b: Block): string {
    var previous := if p.summaries == [] then None else Some(p.summaries[|p.summaries| - 1]);
    llm.wrap(previous, b, Truncated(llm.count, llm.context(b), Min(1800, p.ledger.inLeft)))
  }

  // BLOCK_PROMPT_INPUT_CAP + FINAL_STEPS_INPUT_RESERVE, BLOCK_OUTPUT_TOKENS + FINAL_STEPS_OUTPUT_RESERVE
  predicate BlockAllowed(l: Ledger) {
    Affords(l, 1800 + 3 * 3000, 600 + (700 + 700 + 700))
  }

  function AfterBlock(p: Progress, llm: Llm, i: nat, b: Block): Progress {
    if !BlockAllowed(p.ledger) then p.(skipped := p.skipped + [b])
    else
      var prompt := BlockPrompt(p, llm, b);
      var response := llm.reply(i, prompt);
      var content := llm.parse(response);
      Progress(Spend(p.ledger, llm.count(prompt), llm.count(response)),
               if content.None? then p.summaries else p.summaries + [content.value],
               p.skipped)
  }

  function AfterBlocks(l: Ledger, llm: Llm, blocks: seq<Block>): Progress
    decreases |blocks|
  {
    if blocks == [] then Progress(l, [], [])
    else AfterBlock(AfterBlocks(l, llm, blocks[..|blocks| - 1]), llm, |blocks| - 1, blocks[|blocks| - 1])
  }

  lemma OneMoreBlock(l: Ledger, llm: Llm, blocks: seq<Block>, i: nat)
    requires i < |blocks|
    ensures AfterBlocks(l, llm, blocks[..i + 1]) == AfterBlock(AfterBlocks(l, llm, blocks[..i]), llm, i, blocks[i])
  {
    assert blocks[..i + 1][..i] == blocks[..i];
  }

  method SummarizeBlocks(budget: TokenBudget, llm: Llm, start: int, endedAt: Option<int>)
    returns (blocks: seq<Block>, summaries: seq<string>, skipped: seq<Block>)
    requires budget.count == llm.count
    modifies budget
    ensures endedAt.None? ==> blocks == []
    ensures endedAt.Some? ==> Tiles(blocks, start, endedAt.value)
    ensures Progress(budget.Contents(), summaries, skipped) == AfterBlocks(old(budget.Contents()), llm, blocks)
  {
    blocks := StreamBlocks(start, endedAt);
    summaries, skipped := [], [];
    for i := 0 to |blocks|
      invariant Progress(budget.Contents(), summaries, skipped) == AfterBlocks(old(budget.Contents()), llm, blocks[..i])
    {
      OneMoreBlock(old(budget.Contents()), llm, blocks, i);
      var b := blocks[i];
      if !(1800 + 9000 <= budget.inputRemaining && 600 + 2100 <= budget.outputRemaining) {
        skipped := skipped + [b];
        continue;
      }
      var fitted := budget.FitInput(llm.context(b), 1800);
      var previous := if summaries == [] then None else Some(summaries[|summaries| - 1]);
      var prompt := llm.wrap(previous, b, fitted);
      var response := llm.reply(i, prompt);
      budget.SpendCall(prompt, response);
      var content := llm.parse(response);
      if content.None? { continue; }
      summaries := summaries + [content.value];
    }
    assert blocks[..|blocks|] == blocks;
  }

  // What one block asks and hears stays in bounds: the prompt at most `o` above its input cap, the answer in
  // its cap of 600.
  predicate BlockCosts(p: Progress, llm: Llm, i: nat, b: Block, o: nat) {
    BlockAllowed(p.ledger) ==>
      var prompt := BlockPrompt(p, llm, b);
      llm.count(prompt) <= 1800 + o && llm.count(llm.reply(i, prompt)) <= 600
  }

  // So do the prompts and answers of a whole live: those that are really made, and no others.
  predicate Costs(l: Ledger, llm: Llm, blocks: seq<Block>, o: nat)
    decreases |blocks|
  {
    blocks == [] ||
    var n := |blocks| - 1;
    Costs(l, llm, blocks[..n], o) && BlockCosts(AfterBlocks(l, llm, blocks[..n]), llm, n, blocks[n], o)
  }

  /** However long the live, block summaries leave at least 9000 - o input and 2100 output, or all there
      was when there was less. */
  lemma {:induction false} BlocksKeepReserve(l: Ledger, llm: Llm, blocks: seq<Block>, o: nat)
    requires Costs(l, llm, blocks, o)
    ensures var q := AfterBlocks(l, llm, blocks);
            && q.ledger.inLeft >= Min(l.inLeft, 9000 - o)
            && q.ledger.outLeft >= Min(l.outLeft, 2100)
    decreases |blocks|
  {
    if blocks != [] { BlocksKeepReserve(l, llm, blocks[..|blocks| - 1], o); }
  }

  // ----- what the summaries are -----------------------------------------------------------

  // What is left when a block's turn comes, and whether it is enough: the caps of the block and of the three
  // final steps.
  function LeftAt(l: Ledger, llm: Llm, blocks: seq<Block>, i: nat): Ledger
    requires i < |blocks|
  {
    AfterBlocks(l, llm, blocks[..i]).ledger
  }

  predicate Asked(l: Ledger, llm: Llm, blocks: seq<Block>, i: nat)
    requires i < |blocks|
  {
    LeftAt(l, llm, blocks, i).inLeft >= 10800 && LeftAt(l, llm, blocks, i).outLeft >= 2700
  }

  // What the model answers to the prompt of the i-th block, and what is found in it.
  function Content(l: Ledger, llm: Llm, blocks: seq<Block>, i: nat): Option<string>
    requires i < |blocks|
  {
    llm.parse(llm.reply(i, BlockPrompt(AfterBlocks(l, llm, blocks[..i]), llm, blocks[i])))
  }

  function ToldBlocks(l: Ledger, llm: Llm, blocks: seq<Block>): int -> bool {
    i => 0 <= i < |blocks| && Asked(l, llm, blocks, i) && Content(l, llm, blocks, i).Some?
  }

  function UnreadBlocks(l: Ledger, llm: Llm, blocks: seq<Block>): int -> bool {
    i => 0 <= i < |blocks| && Asked(l, llm, blocks, i) && Content(l, llm, blocks, i).None?
  }

  function SkippedBlocks(l: Ledger, llm: Llm, blocks: seq<Block>): int -> bool {
    i => 0 <= i < |blocks| && !Asked(l, llm, blocks, i)
  }

  predicate AreContents(summaries: seq<string>, l: Ledger, llm: Llm, blocks: seq<Block>, told: seq<int>) {
    && |summaries| == |told|
    && forall k :: 0 <= k < |told| ==> 0 <= told[k] < |blocks| && Content(l, llm, blocks, told[k]) == Some(summaries[k])
  }

  predicate AreBlocks(skipped: seq<Block>, blocks: seq<Block>, left: seq<int>) {
    && |skipped| == |left|
    && forall k :: 0 <= k < |left| ==> 0 <= left[k] < |blocks| && skipped[k] == blocks[left[k]]
  }

  lemma NextContent(summaries: seq<string>, l: Ledger, llm: Llm, blocks: seq<Block>, told: seq<int>, n: nat)
    requires AreContents(summaries, l, llm, blocks, told) && n < |blocks| && Content(l, llm, blocks, n).Some?
    ensures AreContents(summaries + [Content(l, llm, blocks, n).value], l, llm, blocks, told + [n])
  {
  }

  lemma NextSkipped(skipped: seq<Block>, blocks: seq<Block>, left: seq<int>, n: nat)
    requires AreBlocks(skipped, blocks, left) && n < |blocks|
    ensures AreBlocks(skipped + [blocks[n]], blocks, left + [n])
  {
  }

  lemma OneBlock(l: Ledger, llm: Llm, blocks: seq<Block>, n: nat)
    requires n < |blocks|
    ensures var p, q := AfterBlocks(l, llm, blocks[..n]), AfterBlocks(l, llm, blocks[..n + 1]);
            && (!Asked(l, llm, blocks, n) ==> q.summaries == p.summaries && q.skipped == p.skipped + [blocks[n]])
            && (Asked(l, llm, blocks, n) ==> q.skipped == p.skipped)
            && (Asked(l, llm, blocks, n) && Content(l, llm, blocks, n).None? ==> q.summaries == p.summaries)
            && (Asked(l, llm, blocks, n) && Content(l, llm, blocks, n).Some? ==>
                  q.summaries == p.summaries + [Content(l, llm, blocks, n).value])
  {
    OneMoreBlock(l, llm, blocks, n);
  }

  lemma {:induction false} SummariesUpTo(l: Ledger, llm: Llm, blocks: seq<Block>, n: nat)
    requires n <= |blocks|
    ensures var p := AfterBlocks(l, llm, blocks[..n]);
            var told, left := Picked(n, ToldBlocks(l, llm, blocks)), Picked(n, SkippedBlocks(l, llm, blocks));
            && AreContents(p.summaries, l, llm, blocks, told) && AreBlocks(p.skipped, blocks, left)
            && |told| + |left| + |Picked(n, UnreadBlocks(l, llm, blocks))| == n
  {
    if n > 0 {
      var m := n - 1;
      SummariesUpTo(l, llm, blocks, m);
      OneBlock(l, llm, blocks, m);
      var p := AfterBlocks(l, llm, blocks[..m]);
      if !Asked(l, llm, blocks, m) {
        NextSkipped(p.skipped, blocks, Picked(m, SkippedBlocks(l, llm, blocks)), m);
      } else if Content(l, llm, blocks, m).Some? {
        NextContent(p.summaries, l, llm, blocks, Picked(m, ToldBlocks(l, llm, blocks)), m);
      }
    }
  }

  /** The summaries are, in block order, what was found in the answers to all blocks that could be afforded; the
      skipped blocks are all the others; and with the answers in which nothing was found they make up the live. */
  lemma SummariesAre(l: Ledger, llm: Llm, blocks: seq<Block>)
    returns (told: seq<int>, left: seq<int>, unread: seq<int>)
    ensures Selects(told, |blocks|, ToldBlocks(l, llm, blocks))
    ensures Selects(left, |blocks|, SkippedBlocks(l, llm, blocks))
    ensures Selects(unread, |blocks|, UnreadBlocks(l, llm, blocks))
    ensures AreContents(AfterBlocks(l, llm, blocks).summaries, l, llm, blocks, told)
    ensures AreBlocks(AfterBlocks(l, llm, blocks).skipped, blocks, left)
    ensures |told| + |left| + |unread| == |blocks|
  {
    told, left := Picked(|blocks|, ToldBlocks(l, llm, blocks)), Picked(|blocks|, SkippedBlocks(l, llm, blocks));
    unread := Picked(|blocks|, UnreadBlocks(l, llm, blocks));
    PickedSelects(|blocks|, ToldBlocks(l, llm, blocks));
    PickedSelects(|blocks|, SkippedBlocks(l, llm, blocks));
    PickedSelects(|blocks|, UnreadBlocks(l, llm, blocks));
    SummariesUpTo(l, llm, blocks, |blocks|);
    assert blocks[..|blocks|] == blocks;
  }

  // The last block before the i-th that was summarized.
  predicate LastTold(l: Ledger, llm: Llm, blocks: seq<Block>, i: nat, j: int)
    requires i < |blocks|
  {
    && 0 <= j < i && ToldBlocks(l, llm, blocks)(j)
    && forall k :: j < k < i ==> !ToldBlocks(l, llm, blocks)(k)
  }

  /** Each prompt quotes the summary of the last block summarized before it, and none when there is none, around
      the block's own context cut to its cap of 1800 and to what is left. */
  lemma PromptQuotes(l: Ledger, llm: Llm, blocks: seq<Block>, i: nat)
    requires i < |blocks|
    ensures var prompt := BlockPrompt(AfterBlocks(l, llm, blocks[..i]), llm, blocks[i]);
            var fitted := Truncated(llm.count, llm.context(blocks[i]), Min(1800, LeftAt(l, llm, blocks, i).inLeft));
            && (forall j :: LastTold(l, llm, blocks, i, j) ==>
                  prompt == llm.wrap(Content(l, llm, blocks, j), blocks[i], fitted))
            && ((forall j :: 0 <= j < i ==> !ToldBlocks(l, llm, blocks)(j)) ==>
                  prompt == llm.wrap(None, blocks[i], fitted))
  {
    forall j | LastTold(l, llm, blocks, i, j)
      ensures var p := AfterBlocks(l, llm, blocks[..i]);
              p.summaries != [] && Some(p.summaries[|p.summaries| - 1]) == Content(l, llm, blocks, j)
    {
      LastSummary(l, llm, blocks, i, j);
    }
    if forall j :: 0 <= j < i ==> !ToldBlocks(l, llm, blocks)(j) { NoSummary(l, llm, blocks, i); }
  }

  lemma LastSummary(l: Ledger, llm: Llm, blocks: seq<Block>, i: nat, j: int)
    requires i < |blocks| && LastTold(l, llm, blocks, i, j)
    ensures var p := AfterBlocks(l, llm, blocks[..i]);
            p.summaries != [] && Some(p.summaries[|p.summaries| - 1]) == Content(l, llm, blocks, j)
  {
    var told := Picked(i, ToldBlocks(l, llm, blocks));
    SummariesUpTo(l, llm, blocks, i);
    LastPicked(i, ToldBlocks(l, llm, blocks), j);
    assert told[|told| - 1] == j;
  }

  lemma NoSummary(l: Ledger, llm: Llm, blocks: seq<Block>, i: nat)
    requires i < |blocks| && forall j :: 0 <= j < i ==> !ToldBlocks(l, llm, blocks)(j)
    ensures AfterBlocks(l, llm, blocks[..i]).summaries == []
  {
    SummariesUpTo(l, llm, blocks, i);
    NonePicked(i, ToldBlocks(l, llm, blocks));
  }

  // ----- the final steps ------------------------------------------------------------------

  datatype FinalStep = Summary | Topics | Recommendations

  // What each final step asks and hears, and whether there is anything to recommend on.
  datatype Final = Final(prompt: FinalStep -> string, reply: FinalStep -> string, hasFacts: bool)

  datatype Outcome = Outcome(ledger: Ledger, skipped: seq<FinalStep>)

  function AfterStep(o: Outcome, count: Counter, f: Final, step: FinalStep): Outcome {
    if !Affords(o.ledger, 3000, 700) then o.(skipped := o.skipped + [step])
    else if step.Recommendations? && !f.hasFacts then o
    else o.(ledger := Spend(o.ledger, count(f.prompt(step)), count(f.reply(step))))
  }

  function AfterFinal(l: Ledger, count: Counter, f: Final, summaries: seq<string>): Outcome {
    var start := Outcome(l, []);
    var middle := if summaries == [] then start else AfterStep(AfterStep(start, count, f, Summary), count, f, Topics);
    AfterStep(middle, count, f, Recommendations)
  }

  method RunStep(budget: TokenBudget, f: Final, step: FinalStep) returns (ran: bool)
    modifies budget
    ensures Outcome(budget.Contents(), if ran then [] else [step])
      == AfterStep(Outcome(old(budget.Contents()), []), budget.count, f, step)
  {
    if !(3000 <= budget.inputRemaining && 700 <= budget.outputRemaining) { return false; }
    if step.Recommendations? && !f.hasFacts { return true; }
    budget.SpendCall(f.prompt(step), f.reply(step));
    ran := true;
  }

  method RunFinalSteps(budget: TokenBudget, f: Final, summaries: seq<string>) returns (skipped: seq<FinalStep>)
    modifies budget
    ensures Outcome(budget.Contents(), skipped) == AfterFinal(old(budget.Contents()), budget.count, f, summaries)
  {
    skipped := [];
    if summaries != [] {
      var ran := RunStep(budget, f, Summary);
      if !ran { skipped := skipped + [Summary]; }
      ran := RunStep(budget, f, Topics);
      if !ran { skipped := skipped + [Topics]; }
    }
    var ran := RunStep(budget, f, Recommendations);
    if !ran { skipped := skipped + [Recommendations]; }
  }

  /** Whatever is left and whatever the model answers: no final step is skipped if and only if the last one's
      caps are still there after the first two, which are due only when there are block summaries. */
  lemma FinalStepsRunIff(l: Ledger, count: Counter, f: Final, summaries: seq<string>)
    ensures var asked := if summaries == [] then 0 else count(f.prompt(Summary)) + count(f.prompt(Topics));
            var heard := if summaries == [] then 0 else count(f.reply(Summary)) + count(f.reply(Topics));
            AfterFinal(l, count, f, summaries).skipped == [] <==>
              l.inLeft >= 3000 + asked && l.outLeft >= 700 + heard
  {
    if summaries != [] {
      var one := AfterStep(Outcome(l, []), count, f, Summary);
      var two := AfterStep(one, count, f, Topics);
      var three := AfterStep(two, count, f, Recommendations);
      assert |one.skipped| <= |two.skipped| <= |three.skipped|;
    }
  }

  // Which steps ask the model, given what is left: those whose caps are there, the recommendations only when
  // there is anything to recommend on.
  predicate StepAffords(o: Outcome) {
    o.ledger.inLeft >= 3000 && o.ledger.outLeft >= 700
  }

  predicate StepIs(o: Outcome, q: Outcome, count: Counter, f: Final, step: FinalStep) {
    if !StepAffords(o) then q.ledger == o.ledger && q.skipped == o.skipped + [step]
    else
      && q.skipped == o.skipped
      && (if step == Recommendations && !f.hasFacts then q.ledger == o.ledger
          else
            && q.ledger.inSpent == o.ledger.inSpent + count(f.prompt(step))
            && q.ledger.outSpent == o.ledger.outSpent + count(f.reply(step))
            && q.ledger.inLeft == Max0(o.ledger.inLeft - count(f.prompt(step)))
            && q.ledger.outLeft == Max0(o.ledger.outLeft - count(f.reply(step))))
  }

  /** The final steps one by one: with block summaries the summary and then the topics, in any case the
      recommendations last, each gated on its own caps and paid or skipped by itself. */
  lemma FinalStepsAre(l: Ledger, count: Counter, f: Final, summaries: seq<string>)
    returns (one: Outcome, two: Outcome)
    ensures summaries == [] ==> one == two == Outcome(l, [])
    ensures summaries != [] ==>
      StepIs(Outcome(l, []), one, count, f, Summary) && StepIs(one, two, count, f, Topics)
    ensures StepIs(two, AfterFinal(l, count, f, summaries), count, f, Recommendations)
  {
    one, two := Outcome(l, []), Outcome(l, []);
    if summaries != [] {
      one := AfterStep(one, count, f, Summary);
      two := AfterStep(one, count, f, Topics);
    }
  }

  /** When the block reserve is affordable on entry, no final step is skipped for budget as long as the
      prompt overhead and the first two final prompts cost at most 6000 together and every answer keeps to
      its cap, whatever the length of the live. */
  lemma NoFinalStepIsSkipped(l: Ledger, llm: Llm, blocks: seq<Block>, f: Final, o: nat)
    requires BlockAllowed(l) && Costs(l, llm, blocks, o)
    requires o + llm.count(f.prompt(Summary)) + llm.count(f.prompt(Topics)) <= 6000
    requires llm.count(f.reply(Summary)) <= 700 && llm.count(f.reply(Topics)) <= 700
    ensures var q := AfterBlocks(l, llm, blocks); AfterFinal(q.ledger, llm.count, f, q.summaries).skipped == []
  {
    var q := AfterBlocks(l, llm, blocks);
    BlocksKeepReserve(l, llm, blocks, o);
    FinalStepsRunIff(q.ledger, llm.count, f, q.summaries);
  }

  // ----- the remote model ---------------------------------------------------------------

  // %H:%M in UTC.
  function HourMinute(t: int): (r: string)
    ensures |r| == 5
  {
    var minutes := t / 60_000_000 % 1440;
    [DigitOf(minutes / 600), DigitOf(minutes / 60 % 10), ':', DigitOf(minutes % 60 / 10), DigitOf(minutes % 10)]
  }

  function Previously(previous: Option<string>): string {
    if previous.None? then "" else "Summary of what happened before: " + previous.value + "\n"
  }

  function BlockHead(b: Block): string {
    "Block from " + HourMinute(b.start) + " to " + HourMinute(b.end) + " (UTC) of a Twitch live.\n"
  }

  // `instruction` is _json_instruction for the channel's language.
  function BlockTail(instruction: string): string {
    "\nSummarize this block in at most 3 sentences. " + instruction
  }

  // The prompt of a block as the source writes it, the whole last summary included.
  function Wrapping(instruction: string, previous: Option<string>, b: Block, fitted: string): string {
    Previously(previous) + BlockHead(b) + fitted + BlockTail(instruction)
  }

  ghost predicate Remote(llm: Llm, instruction: string) {
    && llm.count == CountByChars
    && forall previous, b, fitted :: llm.wrap(previous, b, fitted) == Wrapping(instruction, previous, b, fitted)
  }

  // An answer keeps to its cap, and what is found in it is no longer than it.
  predicate BlockAnswers(p: Progress, llm: Llm, i: nat, b: Block) {
    BlockAllowed(p.ledger) ==>
      var response := llm.reply(i, BlockPrompt(p, llm, b));
      && llm.count(response) <= 600
      && (llm.parse(response).Some? ==> |llm.parse(response).value| <= |response|)
  }

  predicate Answers(l: Ledger, llm: Llm, blocks: seq<Block>)
    decreases |blocks|
  {
    blocks == [] ||
    var n := |blocks| - 1;
    Answers(l, llm, blocks[..n]) && BlockAnswers(AfterBlocks(l, llm, blocks[..n]), llm, n, blocks[n])
  }

  // What a prompt costs beyond its context: a summary of 2400 characters and the text around.
  function Overhead(instruction: string): nat {
    600 + (|BlockTail(instruction)| + 87) / 4
  }

  lemma WrappingIsShort(instruction: string, previous: Option<string>, b: Block, fitted: string)
    requires previous.Some? ==> |previous.value| <= 2400
    requires |fitted| <= 7200
    ensures CountByChars(Wrapping(instruction, previous, b, fitted)) <= 1800 + Overhead(instruction)
  {
    assert |Previously(previous)| <= 2434;
    assert |BlockHead(b)| == 50;
  }

  predicate ShortSummaries(p: Progress) {
    forall k :: 0 <= k < |p.summaries| ==> |p.summaries[k]| <= 2400
  }

  lemma RemoteBlockCosts(p: Progress, llm: Llm, instruction: string, i: nat, b: Block)
    requires Remote(llm, instruction) && ShortSummaries(p) && BlockAnswers(p, llm, i, b)
    ensures BlockCosts(p, llm, i, b, Overhead(instruction)) && ShortSummaries(AfterBlock(p, llm, i, b))
  {
    if BlockAllowed(p.ledger) {
      var previous := if p.summaries == [] then None else Some(p.summaries[|p.summaries| - 1]);
      var fitted := Truncated(CountByChars, llm.context(b), 1800);
      assert |fitted| <= 7200 by { CharTruncation(llm.context(b), 1800); }
      assert BlockPrompt(p, llm, b) == Wrapping(instruction, previous, b, fitted);
      WrappingIsShort(instruction, previous, b, fitted);
    }
  }

  /** With the remote counter and the source's own prompts the overhead is bounded although each prompt quotes
      the summary before it: a summary is an answer's content, an answer has at most 600 tokens. */
  lemma {:induction false} RemoteCosts(l: Ledger, llm: Llm, instruction: string, blocks: seq<Block>)
    requires Remote(llm, instruction) && Answers(l, llm, blocks)
    ensures Costs(l, llm, blocks, Overhead(instruction)) && ShortSummaries(AfterBlocks(l, llm, blocks))
    decreases |blocks|
  {
    if blocks != [] {
      var n := |blocks| - 1;
      RemoteCosts(l, llm, instruction, blocks[..n]);
      RemoteBlockCosts(AfterBlocks(l, llm, blocks[..n]), llm, instruction, n, blocks[n]);
    }
  }

  /** So there, whatever the length of the live and whatever is said in it, no final step is skipped as long as
      that overhead and the first two final prompts cost at most 6000. */
  lemma RemoteAnalysisIsComplete(l: Ledger, llm: Llm, instruction: string, blocks: seq<Block>, f: Final)
    requires BlockAllowed(l) && Remote(llm, instruction) && Answers(l, llm, blocks)
    requires Overhead(instruction) + CountByChars(f.prompt(Summary)) + CountByChars(f.prompt(Topics)) <= 6000
    requires CountByChars(f.reply(Summary)) <= 700 && CountByChars(f.reply(Topics)) <= 700
    ensures var q := AfterBlocks(l, llm, blocks); AfterFinal(q.ledger, llm.count, f, q.summaries).skipped == []
  {
    RemoteCosts(l, llm, instruction, blocks);
    NoFinalStepIsSkipped(l, llm, blocks, f, Overhead(instruction));
  }

  // The remote model on a live with more context than fits, answering in full.
  function Full(instruction: string): Llm {
    Llm(CountByChars,
        (b: Block) => Filler(7200),
        (previous: Option<string>, b: Block, fitted: string) => Wrapping(instruction, previous, b, fitted),
        (i: nat, prompt: string) => Filler(2400),
        (response: string) => Some("block"))
  }

  /** The reserve counts the context of the final steps only, so it can be too small in the source's own terms:
      after one full block the last step runs if and only if the text around the block's context and the first
      two final prompts cost at most 6000. */
  lemma ReserveIsExact(instruction: string, f: Final, b: Block)
    requires CountByChars(f.reply(Summary)) <= 700 && CountByChars(f.reply(Topics)) <= 700
    ensures var l, llm := Opened(1800 + 9000, 600 + 2100), Full(instruction);
            var q := AfterBlocks(l, llm, [b]);
            && BlockAllowed(l) && Remote(llm, instruction) && Answers(l, llm, [b])
            && (AfterFinal(q.ledger, llm.count, f, q.summaries).skipped == [] <==>
                  (|BlockTail(instruction)| + 53) / 4
                  + CountByChars(f.prompt(Summary)) + CountByChars(f.prompt(Topics)) <= 6000)
  {
    var l, llm := Opened(1800 + 9000, 600 + 2100), Full(instruction);
    assert [b][..0] == [];
    assert AfterBlocks(l, llm, []) == Progress(l, [], []);
    assert |BlockHead(b)| == 50;
    assert |Wrapping(instruction, None, b, Filler(7200))| == 7250 + |BlockTail(instruction)|;
    var q := AfterBlocks(l, llm, [b]);
    assert q.ledger.inLeft == Max0(9000 - (|BlockTail(instruction)| + 53) / 4) && q.ledger.outLeft == 2100;
    FinalStepsRunIff(q.ledger, llm.count, f, q.summaries);
  }

  // A model whose counter is the length of the text and whose prompts cost `o` more than their context.
  function Worst(o: nat): Llm {
    Llm((s: string) => |s|,
        (b: Block) => Filler(1801),
        (previous: Option<string>, b: Block, fitted: string) => fitted + Filler(o),
        (i: nat, prompt: string) => Filler(600),
        (response: string) => Some("block"))
  }

  function Filler(n: nat): (s: string)
    ensures |s| == n
  {
    seq(n, _ => 'x')
  }

  /** The bound is exact: for every overhead and every pair of final prompts beyond 6000 together, there is
      a live of one block, within every cap and with the reserve affordable on entry, that loses one of
      its final steps. */
  lemma BeyondTheBoundAStepIsSkipped(o: nat, f: Final, b: Block)
    requires o <= 9000 && o + |f.prompt(Summary)| + |f.prompt(Topics)| > 6000
    ensures var llm := Worst(o);
            var l := Opened(1800 + 9000, 600 + 2100);
            var q := AfterBlocks(l, llm, [b]);
            BlockAllowed(l) && Costs(l, llm, [b], o) && AfterFinal(q.ledger, llm.count, f, q.summaries).skipped != []
  {
    var llm := Worst(o);
    var l := Opened(1800 + 9000, 600 + 2100);
    assert [b][..0] == [] && AfterBlocks(l, llm, []) == Progress(l, [], []);
    var q := AfterBlocks(l, llm, [b]);
    TruncationIsTight(llm.count, llm.context(b), 1800);
    assert |Truncated(llm.count, llm.context(b), 1800)| == 1800;
    assert q.ledger.inLeft == 9000 - o && q.ledger.outLeft == 2100;
    FinalStepsRunIff(q.ledger, llm.count, f, q.summaries);
  }

  /** The overhead of a prompt is at most what the text around the fitted context costs on its own. */
  lemma OverheadOfWrapping(count: Counter, before: string, fitted: string, after: string)
    requires Subadditive(count)
    ensures count(before + fitted + after) <= count(fitted) + (count(before) + count(after))
  {
    assert count(before + fitted + after) <= count(before + fitted) + count(after);
  }
}
