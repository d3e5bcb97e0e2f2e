/**
 * Token-based cost estimation and the confirmation gate (GptClient.costs and
 * the threshold decision of GptClient._confirm). Prices are dollars per 1000
 * tokens; costs are exact reals.
 */
module Pricing {
  import opened Wrappers

  /** Price per 1000 prompt tokens, by model suffix (input_pricing). */
  const InputPricing: map<string, real> := map[
    "3.5-turbo-1106" := 0.0010,
    "4" := 0.03,
    "4-32k" := 0.06,
    "4-1106-preview" := 0.01
  ]

  /** Price per 1000 generated tokens, by model suffix (output_pricing). */
  const OutputPricing: map<string, real> := map[
    "3.5-turbo-1106" := 0.0020,
    "4" := 0.06,
    "4-32k" := 0.12,
    "4-1106-preview" := 0.03
  ]

  /** Above this estimated prompt cost the operator is asked to confirm. */
  const CostLimit: real := 0.05

  /** Above this many prompt tokens the operator is asked to confirm. */
  const TokenLimit: nat := 8000

  datatype Estimate = Estimate(tokens: nat, cost: real)

  /**
   * GptClient.costs: the number of tokens of text under the tokenizer, and
   * their price under the table entry for model; None when the table has no
   * entry for model (the lookup raises KeyError).
   */
  function Costs(text: string, priceTable: map<string, real>, model: string, encode: string -> seq<int>)
    : (r: Option<Estimate>)
    ensures r.Some? <==> model in priceTable
    ensures r.Some? ==> r.value.tokens == |encode(text)|
    ensures r.Some? ==> r.value.cost * 1000.0 == r.value.tokens as real * priceTable[model]
  {
    var tokens := |encode(text)|;
    if model in priceTable then Some(Estimate(tokens, tokens as real / 1000.0 * priceTable[model])) else None
  }

  /** Both tables price the same models, every price is positive and output costs more than input. */
  lemma PriceTablesAgree()
    ensures InputPricing.Keys == OutputPricing.Keys
    ensures forall m :: m in InputPricing ==> 0.0 < InputPricing[m] < OutputPricing[m]
  {
  }

  /** A longer encoding never costs less under the same (non-negative) price. */
  lemma CostsMonotone(shorter: string, longer: string, priceTable: map<string, real>, model: string, encode: string -> seq<int>)
    requires model in priceTable && priceTable[model] >= 0.0
    requires |encode(shorter)| <= |encode(longer)|
    ensures Costs(shorter, priceTable, model, encode).value.cost <= Costs(longer, priceTable, model, encode).value.cost
  {
    var p := priceTable[model];
    var a, b := |encode(shorter)| as real, |encode(longer)| as real;
    assert a * p <= b * p by {
      assert (b - a) * p >= 0.0;
    }
  }

  /** _confirm asks the operator exactly when the estimate is over either limit. */
  predicate MustConfirm(e: Estimate) {
    e.cost > CostLimit || e.tokens > TokenLimit
  }

  /**
   * For each priced model the two limits collapse into one token allowance:
   * the cost limit binds first for the GPT-4 models, the token limit for 3.5.
   */
  function PromptAllowance(model: string): nat
    requires model in InputPricing
  {
    if model == "3.5-turbo-1106" then 8000
    else if model == "4" then 1666
    else if model == "4-32k" then 833
    else 5000
  }

  lemma ConfirmationAboveAllowance(text: string, model: string, encode: string -> seq<int>)
    requires model in InputPricing
    ensures MustConfirm(Costs(text, InputPricing, model, encode).value) <==> |encode(text)| > PromptAllowance(model)
  {
    var e := Costs(text, InputPricing, model, encode).value;
    var t := e.tokens;
    assert e.cost * 1000.0 == t as real * InputPricing[model];
    assert e.cost > CostLimit <==> e.cost * 1000.0 > 50.0;
    if model == "3.5-turbo-1106" {
      assert e.cost * 1000.0 == t as real * 0.0010;
      assert e.cost > CostLimit <==> t > 50000;
    } else if model == "4" {
      assert e.cost * 1000.0 == t as real * 0.03;
      assert e.cost > CostLimit <==> t > 1666;
    } else if model == "4-32k" {
      assert e.cost * 1000.0 == t as real * 0.06;
      assert e.cost > CostLimit <==> t > 833;
    } else {
      assert e.cost * 1000.0 == t as real * 0.01;
      assert e.cost > CostLimit <==> t > 5000;
    }
  }

  /** str.lower on one character (ASCII letters only). */
  function LowerChar(c: char): char {
    if 'A' <= c <= 'Z' then (c as int + 32) as char else c
  }

  /** str.lower, character by character. */
  function Lower(s: string): (r: string)
    ensures |r| == |s|
    ensures forall i :: 0 <= i < |s| ==> r[i] == LowerChar(s[i])
  {
    if s == [] then [] else [LowerChar(s[0])] + Lower(s[1..])
  }

  /** The reply to the confirmation prompt lets the loop go on when, lower-cased, it is empty or "y". */
  predicate Accepts(reply: string) {
    Lower(reply) in ["", "y"]
  }

  /** Exactly the empty reply, "y" and "Y" are taken as yes. */
  lemma AcceptedReplies(reply: string)
    ensures Accepts(reply) <==> reply == "" || reply == "y" || reply == "Y"
  {
    var l := Lower(reply);
    if l == "y" {
      assert |reply| == 1;
      assert LowerChar(reply[0]) == 'y';
      assert reply == [reply[0]];
    }
    if reply == "Y" {
      assert l[0] == LowerChar('Y') == 'y';
    }
  }
}
