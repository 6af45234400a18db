/**
 The token budget of one analysis (core/llm.py): counting, truncation by binary search, and the ledger
 every prompt and response passes through. A counter is any function from texts to numbers; the
 approximation of the remote backend is one of them.
 */
module Budget {
  import opened Numbers

  type Counter = string -> nat

  // ----- truncation --------------------------------------------------------------------

  predicate Fits(count: Counter, text: string, max: int) {
    count(text) <= max
  }

  predicate FitsTo(count: Counter, text: string, max: int, n: nat)
    requires n <= |text|
  {
    Fits(count, text[..n], max)
  }

  // The length the search settles on, between low and high.
  function Search(count: Counter, text: string, max: int, low: nat, high: nat): (n: nat)
    requires low <= high <= |text|
    ensures low <= n <= high
    decreases high - low
  {
    if low == high then low
    else
      var mid := (low + high + 1) / 2;
      if FitsTo(count, text, max, mid) then Search(count, text, max, mid, high)
      else Search(count, text, max, low, mid - 1)
  }

  function Truncated(count: Counter, text: string, max: int): string {
    if Fits(count, text, max) then text else text[..Search(count, text, max, 0, |text|)]
  }

  method TruncateToTokens(count: Counter, text: string, max: int) returns (r: string)
    ensures r == Truncated(count, text, max)
  {
    if count(text) <= max { return text; }
    var low, high := 0, |text|;
    while low < high
      invariant 0 <= low <= high <= |text|
      invariant Search(count, text, max, low, high) == Search(count, text, max, 0, |text|)
    {
      var mid := (low + high + 1) / 2;
      if count(text[..mid]) <= max {
        low := mid;
      } else {
        high := mid - 1;
      }
    }
    r := text[..low];
  }

  ghost predicate Monotone(count: Counter) {
    forall a: string, b: string :: a <= b ==> count(a) <= count(b)
  }

  ghost predicate Subadditive(count: Counter) {
    forall a: string, b: string :: count(a + b) <= count(a) + count(b)
  }

  // The search keeps a length that fits below it and one that does not fit above it.
  predicate Bracketed(count: Counter, text: string, max: int, low: nat, high: nat)
    requires low <= high <= |text|
  {
    (low > 0 ==> FitsTo(count, text, max, low)) && (high < |text| ==> !FitsTo(count, text, max, high + 1))
  }

  lemma {:induction false} SearchBrackets(count: Counter, text: string, max: int, low: nat, high: nat)
    requires low <= high <= |text| && Bracketed(count, text, max, low, high)
    ensures var n := Search(count, text, max, low, high); Bracketed(count, text, max, n, n)
    decreases high - low
  {
    if low < high {
      var mid := (low + high + 1) / 2;
      if FitsTo(count, text, max, mid) {
        SearchBrackets(count, text, max, mid, high);
      } else {
        SearchBrackets(count, text, max, low, mid - 1);
      }
    }
  }

  /** With any counter, the result is a prefix; it fits unless it is empty; and one character more would
      not fit unless it is the whole text. */
  lemma TruncationIsTight(count: Counter, text: string, max: int)
    ensures var r := Truncated(count, text, max);
            && r <= text
            && (r == "" || Fits(count, r, max))
            && (r != text ==> !Fits(count, text[..|r| + 1], max))
  {
    if !Fits(count, text, max) { SearchBrackets(count, text, max, 0, |text|); }
  }

  lemma FitsShorter(count: Counter, text: string, max: int, k: nat, n: nat)
    requires Monotone(count) && k <= |text| && n <= |text| && Fits(count, text[..n], max)
    ensures k <= n ==> Fits(count, text[..k], max)
  {
    assert k <= n ==> text[..k] <= text[..n];
  }

  /** With a counter that never drops as a text grows, the result is the longest prefix that fits. */
  lemma TruncationIsLongest(count: Counter, text: string, max: int, n: nat)
    requires Monotone(count) && n <= |text| && Fits(count, text[..n], max)
    ensures n <= |Truncated(count, text, max)|
  {
    TruncationIsTight(count, text, max);
    var r := Truncated(count, text, max);
    if r != text { FitsShorter(count, text, max, |r| + 1, n); }
  }

  // OpenAICompatBackend.count_tokens: four characters a token, rounded up, and never zero.
  function CountByChars(text: string): nat {
    if |text| == 0 then 1 else (|text| + 3) / 4
  }

  /** The remote backend's counter is monotone and subadditive, so the two facts above hold of it. */
  lemma CharCounterIsRegular()
    ensures Monotone(CountByChars) && Subadditive(CountByChars)
  {
    forall a: string, b: string | a <= b ensures CountByChars(a) <= CountByChars(b) {
      assert |a| <= |b|;
    }
    forall a: string, b: string ensures CountByChars(a + b) <= CountByChars(a) + CountByChars(b) {
      assert |a + b| == |a| + |b|;
    }
  }

  /** Its truncation keeps exactly the first 4 * max characters. */
  lemma CharTruncation(text: string, max: nat)
    requires max > 0
    ensures Truncated(CountByChars, text, max) == text[..Min(4 * max, |text|)]
  {
    var r := Truncated(CountByChars, text, max);
    TruncationIsTight(CountByChars, text, max);
    if r != text {
      assert |text[..|r| + 1]| == |r| + 1;
      assert |r| == 4 * max;
    }
  }

  // ----- the ledger ----------------------------------------------------------------------

  datatype Ledger = Ledger(inLeft: int, outLeft: int, inSpent: nat, outSpent: nat)

  function Left(budget: nat, spent: nat): nat {
    if spent <= budget then budget - spent else 0
  }

  predicate Affords(l: Ledger, input: int, output: int) {
    input <= l.inLeft && output <= l.outLeft
  }

  function Max0(x: int): int {
    if x < 0 then 0 else x
  }

  function Spend(l: Ledger, input: nat, output: nat): Ledger {
    Ledger(Max0(l.inLeft - input), Max0(l.outLeft - output), l.inSpent + input, l.outSpent + output)
  }

  function SpendAll(l: Ledger, calls: seq<(nat, nat)>): Ledger {
    if calls == [] then l
    else
      var last := calls[|calls| - 1];
      Spend(SpendAll(l, calls[..|calls| - 1]), last.0, last.1)
  }

  function Opened(maxInput: nat, maxOutput: nat): Ledger {
    Ledger(maxInput, maxOutput, 0, 0)
  }

  /** Whatever was spent, what remains is the budget less the spending, cut off at zero: clamping at every
      step loses nothing. */
  lemma {:induction false} LedgerBalances(maxInput: nat, maxOutput: nat, calls: seq<(nat, nat)>)
    ensures var l := SpendAll(Opened(maxInput, maxOutput), calls);
            l.inLeft == Left(maxInput, l.inSpent) && l.outLeft == Left(maxOutput, l.outSpent)
  {
    if calls != [] { LedgerBalances(maxInput, maxOutput, calls[..|calls| - 1]); }
  }

  class TokenBudget {
    const count: Counter
    var inputRemaining: int
    var outputRemaining: int
    var inputSpent: nat
    var outputSpent: nat

    function Contents(): Ledger
      reads this
    {
      Ledger(inputRemaining, outputRemaining, inputSpent, outputSpent)
    }

    constructor (count: Counter, maxInput: nat, maxOutput: nat)
      ensures this.count == count && Contents() == Opened(maxInput, maxOutput)
    {
      this.count := count;
      inputRemaining, outputRemaining := maxInput, maxOutput;
      inputSpent, outputSpent := 0, 0;
    }

    method FitInput(text: string, cap: int) returns (r: string)
      ensures r == Truncated(count, text, Min(cap, inputRemaining))
    {
      r := TruncateToTokens(count, text, Min(cap, inputRemaining));
    }

    method SpendCall(prompt: string, response: string)
      modifies this
      ensures Contents() == Spend(old(Contents()), count(prompt), count(response))
    {
      var input := count(prompt);
      var output := count(response);
      inputRemaining := Max0(inputRemaining - input);
      outputRemaining := Max0(outputRemaining - output);
      inputSpent := inputSpent + input;
      outputSpent := outputSpent + output;
    }
  }
}
