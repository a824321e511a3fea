/** The rule-based bot-probability scorer that three services of the
    repository carry in slightly different versions. A score is kept in
    exact tenths: the base 0.5 is 5, a bonus of 0.2 is 2, and the final clamp
    to [0.0, 1.0] is a clamp to [0, 10].

    Each version is a list of rules with a clamp. The methods in the
    service modules add up the rules one `+=` at a time, as the source
    does, and are proved equal to `Score` below. */
module Heuristics {
  import opened Text

  /** The base probability 0.5, in tenths. */
  const Base: int := 5

  /** The probability ceiling 1.0, in tenths. */
  const Ceiling: int := 10

  const SpamWords: seq<string> := ["click", "buy", "offer", "deal", "free", "urgent"]
  const SalesWords: seq<string> := ["click", "buy", "offer", "deal"]
  const GreetingWords: seq<string> := ["hello", "hi", "thanks", "please"]

  datatype Rule =
    | LongText                                  // len(text) > 100: +0.2
    | LinkOrWww                                 // "http" or "www." in text.lower(): +0.3
    | HttpOnly                                  // "http" in text (already lower-cased): +0.3
    | Shouting                                  // text.isupper() and len(text) > 20: +0.2
    | Keywords(words: seq<string>, weight: int) // any word in text.lower(): +weight, once

  /** The adjustment a rule makes when it fires, in tenths. */
  function Weight(rule: Rule): int
  {
    match rule
    case LongText => 2
    case LinkOrWww => 3
    case HttpOnly => 3
    case Shouting => 2
    case Keywords(_, w) => w
  }

  /** Whether a rule fires on a text. */
  predicate Fires(rule: Rule, text: string)
  {
    match rule
    case LongText => |text| > 100
    case LinkOrWww => Contains(Lower(text), "http") || Contains(Lower(text), "www.")
    case HttpOnly => Contains(text, "http")
    case Shouting => IsUpper(text) && |text| > 20
    case Keywords(words, _) => ContainsAny(Lower(text), words)
  }

  /** What a rule adds to the score of a text: its weight if it fires. */
  function Contribution(rule: Rule, text: string): int
  {
    if Fires(rule, text) then Weight(rule) else 0
  }

  /** The sum of the weights of the rules that fire, before clamping. */
  function Adjustment(rules: seq<Rule>, text: string): int
  {
    if rules == [] then 0 else Contribution(rules[0], text) + Adjustment(rules[1..], text)
  }

  /** The two clamps in the source: `max(0.0, min(1.0, p))` and `min(p, 1.0)`. */
  datatype Clamp = BothSides | UpperOnly

  function ApplyClamp(clamp: Clamp, p: int): (r: int)
    ensures r <= Ceiling
    ensures clamp.BothSides? ==> 0 <= r
    ensures 0 <= p <= Ceiling ==> r == p
    ensures p > Ceiling ==> r == Ceiling
    ensures clamp.BothSides? && p < 0 ==> r == 0
    ensures clamp.UpperOnly? && p <= Ceiling ==> r == p
  {
    match clamp
    case BothSides => if p < 0 then 0 else if p > Ceiling then Ceiling else p
    case UpperOnly => if p > Ceiling then Ceiling else p
  }

  /** The score of a text, in tenths, under a rule set and a clamp. */
  function Score(rules: seq<Rule>, clamp: Clamp, text: string): int
  {
    ApplyClamp(clamp, Base + Adjustment(rules, text))
  }

  /** simple_test_main.py: the full rule set with a bonus and a penalty list. */
  const TestRules: seq<Rule> :=
    [LongText, LinkOrWww, Shouting, Keywords(SpamWords, 1), Keywords(GreetingWords, -1)]

  /** simple_main.py: no penalty list. */
  const SimpleRules: seq<Rule> := [LongText, LinkOrWww, Shouting, Keywords(SalesWords, 1)]

  /** app/classifier/main.py: applied to the lower-cased text. */
  const ClassifierRules: seq<Rule> := [LongText, HttpOnly, Shouting]

  function TestScore(text: string): int { Score(TestRules, BothSides, text) }

  function SimpleScore(text: string): int { Score(SimpleRules, UpperOnly, text) }

  function ClassifierScore(text: string): int { Score(ClassifierRules, UpperOnly, Lower(text)) }

  /** The adjustment of a concatenation of rule lists is the sum of their
      adjustments. */
  lemma {:induction false} AdjustmentAppend(a: seq<Rule>, b: seq<Rule>, text: string)
    ensures Adjustment(a + b, text) == Adjustment(a, text) + Adjustment(b, text)
  {
    if a == [] {
      assert a + b == b;
    } else {
      assert (a + b)[1..] == a[1..] + b;
      AdjustmentAppend(a[1..], b, text);
    }
  }

  lemma AdjustmentCons(rule: Rule, rest: seq<Rule>, text: string)
    ensures Adjustment([rule] + rest, text) == Contribution(rule, text) + Adjustment(rest, text)
  {
    assert ([rule] + rest)[1..] == rest;
  }

  lemma TestAdjustment(text: string)
    ensures Adjustment(TestRules, text)
         == Contribution(LongText, text) + Contribution(LinkOrWww, text) + Contribution(Shouting, text)
          + Contribution(Keywords(SpamWords, 1), text) + Contribution(Keywords(GreetingWords, -1), text)
  {
    var k1, k2 := Keywords(SpamWords, 1), Keywords(GreetingWords, -1);
    AdjustmentCons(k2, [], text);
    AdjustmentCons(k1, [k2], text);
    AdjustmentCons(Shouting, [k1, k2], text);
    AdjustmentCons(LinkOrWww, [Shouting, k1, k2], text);
    AdjustmentCons(LongText, [LinkOrWww, Shouting, k1, k2], text);
  }

  lemma SimpleAdjustment(text: string)
    ensures Adjustment(SimpleRules, text)
         == Contribution(LongText, text) + Contribution(LinkOrWww, text) + Contribution(Shouting, text)
          + Contribution(Keywords(SalesWords, 1), text)
  {
    var k := Keywords(SalesWords, 1);
    AdjustmentCons(k, [], text);
    AdjustmentCons(Shouting, [k], text);
    AdjustmentCons(LinkOrWww, [Shouting, k], text);
    AdjustmentCons(LongText, [LinkOrWww, Shouting, k], text);
  }

  lemma ClassifierAdjustment(text: string)
    ensures Adjustment(ClassifierRules, text)
         == Contribution(LongText, text) + Contribution(HttpOnly, text) + Contribution(Shouting, text)
  {
    AdjustmentCons(Shouting, [], text);
    AdjustmentCons(HttpOnly, [Shouting], text);
    AdjustmentCons(LongText, [HttpOnly, Shouting], text);
  }

  /** simple_test_main.py: before the clamp the score lies in [0.4, 1.3],
      so the lower clamp never binds and the result lies in [0.4, 1.0]. */
  lemma TestScoreRange(text: string)
    ensures 4 <= Base + Adjustment(TestRules, text) <= 13
    ensures 4 <= TestScore(text) <= 10
  {
    TestAdjustment(text);
  }

  /** simple_main.py: with no penalty rule the result lies in [0.5, 1.0]. */
  lemma SimpleScoreRange(text: string)
    ensures 5 <= SimpleScore(text) <= 10
  {
    SimpleAdjustment(text);
  }

  /** app/classifier/main.py: the upper-case rule sees the lower-cased text
      and so never fires. */
  lemma ClassifierShoutingNeverFires(text: string)
    ensures !Fires(Shouting, Lower(text))
  {
    LoweredIsNotUpper(text);
  }

  /** app/classifier/main.py: only the length rule and the "http" rule can
      fire, so the only scores are 0.5, 0.7, 0.8 and 1.0. */
  lemma ClassifierScoreValues(text: string)
    ensures ClassifierScore(text)
         == ApplyClamp(UpperOnly, 5 + (if |text| > 100 then 2 else 0)
                                    + (if Contains(Lower(text), "http") then 3 else 0))
    ensures ClassifierScore(text) in {5, 7, 8, 10}
  {
    ClassifierShoutingNeverFires(text);
    ClassifierAdjustment(Lower(text));
  }

  /** A keyword list adds its weight once, however many of its words occur. */
  lemma KeywordsFireOnce(words: seq<string>, weight: int, text: string)
    ensures Adjustment([Keywords(words, weight)], text)
            == if ContainsAny(Lower(text), words) then weight else 0
  {
  }

  /** The adjustment does not depend on the order of the rules. */
  lemma {:induction false} AdjustmentSwap(a: seq<Rule>, r1: Rule, r2: Rule, b: seq<Rule>, text: string)
    ensures Adjustment(a + [r1, r2] + b, text) == Adjustment(a + [r2, r1] + b, text)
  {
    AdjustmentAppend(a + [r1, r2], b, text);
    AdjustmentAppend(a + [r2, r1], b, text);
    AdjustmentAppend(a, [r1, r2], text);
    AdjustmentAppend(a, [r2, r1], text);
    assert [r1, r2][1..] == [r2];
    assert [r2, r1][1..] == [r1];
  }
}
