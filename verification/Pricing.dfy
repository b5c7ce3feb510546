/** What a call costs: prices per thousand tokens, rounded up to whole credits for input and output apart. */
module Pricing {
  import opened Wrappers

  datatype Price = Price(input: real, output: real) {
    predicate Valid() { input >= 0.0 && output >= 0.0 }
  }

  /** Rounding towards positive infinity. */
  function Ceiling(x: real): int { -((-x).Floor) }

  lemma CeilingIsLeast(x: real, n: int)
    ensures x <= Ceiling(x) as real < x + 1.0
    ensures x <= n as real <==> Ceiling(x) <= n
  {
  }

  function PerK(tokens: int, price: real): int {
    Ceiling(tokens as real * price / 1000.0)
  }

  function Cost(prompt: int, completion: int, p: Price): int {
    PerK(prompt, p.input) + PerK(completion, p.output)
  }

  lemma PerKMonotone(a: int, b: int, price: real)
    requires a <= b && price >= 0.0
    ensures PerK(a, price) <= PerK(b, price)
  {
    assert a as real * price <= b as real * price;
    CeilingIsLeast(a as real * price / 1000.0, PerK(b, price));
    CeilingIsLeast(b as real * price / 1000.0, PerK(b, price));
  }

  lemma CostMonotone(prompt: int, completion: int, prompt': int, completion': int, p: Price)
    requires prompt <= prompt' && completion <= completion' && p.Valid()
    ensures Cost(prompt, completion, p) <= Cost(prompt', completion', p)
  {
    PerKMonotone(prompt, prompt', p.input);
    PerKMonotone(completion, completion', p.output);
  }

  /** A charge is never below the exact price and less than two credits above it. */
  lemma ChargeIsClose(prompt: int, completion: int, p: Price)
    ensures var exact := prompt as real * p.input / 1000.0 + completion as real * p.output / 1000.0;
            exact <= Cost(prompt, completion, p) as real < exact + 2.0
  {
    CeilingIsLeast(prompt as real * p.input / 1000.0, 0);
    CeilingIsLeast(completion as real * p.output / 1000.0, 0);
  }

  // ---------- The estimate that is reserved before the call ----------

  const FRAMING := 256

  function Chars(messages: seq<Option<string>>): nat {
    if messages == [] then 0 else (if messages[0].Some? then |messages[0].value| else 0) + Chars(messages[1..])
  }

  function Estimate(messages: seq<Option<string>>, maxTokens: int, p: Price): int {
    Cost(if 1 > Chars(messages) + FRAMING then 1 else Chars(messages) + FRAMING, maxTokens, p)
  }

  /**
   What is reserved is the price of all characters and the allowance as input and max_tokens as output, rounded up.
   */
  lemma EstimateIsClose(messages: seq<Option<string>>, maxTokens: int, p: Price)
    ensures var exact := (Chars(messages) + 256) as real * p.input / 1000.0 + maxTokens as real * p.output / 1000.0;
            exact <= Estimate(messages, maxTokens, p) as real < exact + 2.0
  {
    ChargeIsClose(Chars(messages) + FRAMING, maxTokens, p);
  }

  method ReserveAmount(messages: seq<Option<string>>, maxTokens: int, p: Price) returns (amount: int)
    ensures amount == Estimate(messages, maxTokens, p)
  {
    var chars := 0;
    for i := 0 to |messages|
      invariant chars + Chars(messages[i..]) == Chars(messages)
    {
      chars := chars + if messages[i].Some? then |messages[i].value| else 0;
    }
    var estimatedPrompt := if 1 > chars + FRAMING then 1 else chars + FRAMING;
    amount := Cost(estimatedPrompt, maxTokens, p);
  }

  /** Usage within what the estimate allows for costs no more than was reserved. */
  lemma UsageWithinEstimate(messages: seq<Option<string>>, maxTokens: int, p: Price, prompt: int, completion: int)
    requires p.Valid() && prompt <= Chars(messages) + FRAMING && completion <= maxTokens
    ensures Cost(prompt, completion, p) <= Estimate(messages, maxTokens, p)
  {
    CostMonotone(prompt, completion, Chars(messages) + FRAMING, maxTokens, p);
  }

  /** What a stream is settled for: the cost of the usage reported, the whole estimate if none was. */
  function StreamCharge(prompt: int, completion: int, estimate: int, p: Price): int {
    if prompt + completion > 0 then Cost(prompt, completion, p) else estimate
  }

  /** Reported usage is charged at its price, rounded up; if none was reported the whole estimate is. */
  lemma StreamChargeIsClose(prompt: int, completion: int, estimate: int, p: Price)
    requires prompt >= 0 && completion >= 0
    ensures var exact := prompt as real * p.input / 1000.0 + completion as real * p.output / 1000.0;
            if prompt == 0 && completion == 0 then StreamCharge(prompt, completion, estimate, p) == estimate
            else exact <= StreamCharge(prompt, completion, estimate, p) as real < exact + 2.0
  {
    ChargeIsClose(prompt, completion, p);
  }

  lemma StreamChargeWithinEstimate(messages: seq<Option<string>>, maxTokens: int, p: Price, prompt: int,
                                   completion: int)
    requires p.Valid() && prompt <= Chars(messages) + FRAMING && completion <= maxTokens
    ensures StreamCharge(prompt, completion, Estimate(messages, maxTokens, p), p) <= Estimate(messages, maxTokens, p)
  {
    UsageWithinEstimate(messages, maxTokens, p, prompt, completion);
  }

  /** The check of max_tokens that calls without streaming go through; streaming calls return before it. */
  const DEFAULT_TOKENS := 1024
  const MOST_TOKENS := 2048

  function Checked(stream: bool, maxTokens: Option<int>): (r: Option<int>) {
    if stream then maxTokens
    else
      var n := if maxTokens.Some? then maxTokens.value else DEFAULT_TOKENS;
      if n < 1 || n > MOST_TOKENS then None else Some(n)
  }

  /** A call without streaming is let through if and only if it names no max_tokens or one from 1 to 2048. */
  lemma CheckedIff(maxTokens: Option<int>)
    ensures Checked(false, maxTokens).Some? <==> maxTokens.None? || 1 <= maxTokens.value <= 2048
    ensures Checked(false, maxTokens).Some? ==>
              Checked(false, maxTokens).value == if maxTokens.Some? then maxTokens.value else 1024
    ensures Checked(true, maxTokens) == maxTokens
  {
  }

  lemma EstimateOfNonnegative(messages: seq<Option<string>>, maxTokens: int, p: Price)
    requires p.Valid() && maxTokens >= 0
    ensures Estimate(messages, maxTokens, p) >= 0
  {
    CostMonotone(0, 0, Chars(messages) + FRAMING, maxTokens, p);
  }

  /** Every call without streaming reserves a non-negative amount. */
  lemma CheckedEstimate(maxTokens: Option<int>, messages: seq<Option<string>>, p: Price)
    requires p.Valid() && Checked(false, maxTokens).Some?
    ensures Estimate(messages, Checked(false, maxTokens).value, p) >= 0
  {
    EstimateOfNonnegative(messages, Checked(false, maxTokens).value, p);
  }

  /** A streaming call can ask for a negative reservation: max_tokens is not looked at. */
  lemma StreamEstimateCanBeNegative()
    ensures Checked(true, Some(-1000000)) == Some(-1000000)
    ensures Estimate([Some("hi")], -1000000, Price(1.0, 1.0)) < 0
  {
    assert Chars([Some("hi")]) == 2;
    CeilingIsLeast(258.0 * 1.0 / 1000.0, 1);
    CeilingIsLeast(-1000000.0 * 1.0 / 1000.0, -1000);
  }

  /** Exactly the non-negative values of max_tokens are safe whatever the messages and prices are. */
  lemma SafeMaxTokens(maxTokens: int)
    ensures maxTokens >= 0 <==> forall messages: seq<Option<string>>, p: Price :: p.Valid() ==>
            Estimate(messages, maxTokens, p) >= 0
  {
    if maxTokens >= 0 {
      forall messages: seq<Option<string>>, p: Price | p.Valid() ensures Estimate(messages, maxTokens, p) >= 0 {
        EstimateOfNonnegative(messages, maxTokens, p);
      }
    } else {
      var p := Price(0.0, 1000.0);
      CeilingIsLeast(maxTokens as real * 1000.0 / 1000.0, maxTokens);
      assert p.Valid() && Estimate([], maxTokens, p) < 0;
    }
  }
}
