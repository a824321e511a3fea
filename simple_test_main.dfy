/** simple_test_main.py: a lightweight service with no model at all. Its
    `/predict` scores a text with the full heuristic rule set (a bonus list
    and a penalty list, clamped on both sides) and echoes the text back. */
module SimpleTestMain {
  import opened Text
  import opened Heuristics
  import opened Probability

  datatype PredictionOutput = PredictionOutput(isBotProbability: real, text: string)

  /** `/predict`: adds up the rules one at a time on a local accumulator,
      then clamps to [0.0, 1.0]. */
  method Predict(text: string) returns (out: PredictionOutput)
    ensures out.text == text
    ensures out.isBotProbability == Tenths(TestScore(text))
    ensures 0.4 <= out.isBotProbability <= 1.0
  {
    var textLower := Lower(text);
    var p := Base;
    if |text| > 100 {
      p := p + 2;
    }
    if Contains(textLower, "http") || Contains(textLower, "www.") {
      p := p + 3;
    }
    if IsUpper(text) && |text| > 20 {
      p := p + 2;
    }
    var spam := AnyWordIn(SpamWords, textLower);
    if spam {
      p := p + 1;
    }
    var greeting := AnyWordIn(GreetingWords, textLower);
    if greeting {
      p := p - 1;
    }
    p := if p < Ceiling then p else Ceiling;
    p := if 0 < p then p else 0;
    TestAdjustment(text);
    TestScoreRange(text);
    out := PredictionOutput(Tenths(p), text);
  }

  /** "FREE OFFER CLICK NOW!!!!!!!!!!": 30 characters, all letters upper
      case, containing "free", "offer" and "click": 0.5 + 0.2 + 0.1 = 0.8,
      the keyword bonus counted once. */
  lemma FreeOfferScoresEight()
    ensures TestScore("FREE OFFER" + " CLICK NOW" + "!!!!!!!!!!") == 8
  {
    var t := "FREE OFFER" + " CLICK NOW" + "!!!!!!!!!!";
    FreeOfferLower();
    FreeOfferIsUpper();
    FreeOfferKeywords();
    TestAdjustment(t);
  }

  lemma FreeOfferKeywords()
    ensures !Contains("free offer" + " click now" + "!!!!!!!!!!", "http")
    ensures !Contains("free offer" + " click now" + "!!!!!!!!!!", "www.")
    ensures ContainsAny("free offer" + " click now" + "!!!!!!!!!!", SpamWords)
    ensures !ContainsAny("free offer" + " click now" + "!!!!!!!!!!", GreetingWords)
  {
    FreeOfferNoLink();
    FreeOfferHasSpamWord();
    FreeOfferNoGreeting();
  }

  lemma FreeOfferNoLink()
    ensures !Contains("free offer" + " click now" + "!!!!!!!!!!", "http")
    ensures !Contains("free offer" + " click now" + "!!!!!!!!!!", "www.")
  {
    var l := "free offer" + " click now" + "!!!!!!!!!!";
    assert 'h' !in l;
    NotContainedWithoutChar(l, "http", 0);
    assert '.' !in l;
    NotContainedWithoutChar(l, "www.", 3);
  }

  lemma FreeOfferHasSpamWord()
    ensures ContainsAny("free offer" + " click now" + "!!!!!!!!!!", SpamWords)
  {
    var l := "free offer" + " click now" + "!!!!!!!!!!";
    assert l[..4] == "free";
    assert StartsWith(l, SpamWords[4]);
  }

  lemma FreeOfferNoGreeting()
    ensures !ContainsAny("free offer" + " click now" + "!!!!!!!!!!", GreetingWords)
  {
    var l := "free offer" + " click now" + "!!!!!!!!!!";
    assert 'h' !in l && 't' !in l && 'p' !in l;
    forall k | 0 <= k < |GreetingWords| ensures !Contains(l, GreetingWords[k]) {
      assert GreetingWords[k][0] in "htp";
      NotContainedWithoutChar(l, GreetingWords[k], 0);
    }
  }

  lemma FreeOfferLower()
    ensures Lower("FREE OFFER" + " CLICK NOW" + "!!!!!!!!!!") == "free offer" + " click now" + "!!!!!!!!!!"
  {
    var a, b, c := "FREE OFFER", " CLICK NOW", "!!!!!!!!!!";
    LowerAppend(a + b, c);
    LowerAppend(a, b);
    FreeOfferChunks();
  }

  lemma FreeOfferIsUpper()
    ensures IsUpper("FREE OFFER" + " CLICK NOW" + "!!!!!!!!!!")
  {
    var a, b, c := "FREE OFFER", " CLICK NOW", "!!!!!!!!!!";
    IsUpperAppend(a + b, c);
    HasLowerAppend(a, b);
    HasCasedAppend(a, b);
    FreeOfferChunks();
  }

  lemma FreeOfferChunks()
    ensures Lower("FREE OFFER") == "free offer" && HasCased("FREE OFFER") && !HasLower("FREE OFFER")
    ensures Lower(" CLICK NOW") == " click now" && !HasLower(" CLICK NOW")
    ensures Lower("!!!!!!!!!!") == "!!!!!!!!!!" && !HasLower("!!!!!!!!!!")
  {
    FirstChunk();
    SecondChunk();
    ThirdChunk();
  }

  lemma FirstChunk()
    ensures Lower("FREE OFFER") == "free offer" && HasCased("FREE OFFER") && !HasLower("FREE OFFER")
  {
    assert IsUpperChar("FREE OFFER"[0]);
  }

  lemma SecondChunk()
    ensures Lower(" CLICK NOW") == " click now" && !HasLower(" CLICK NOW")
  {
  }

  lemma ThirdChunk()
    ensures Lower("!!!!!!!!!!") == "!!!!!!!!!!" && !HasLower("!!!!!!!!!!")
  {
  }

  /** Keywords match as substrings: "hi" inside "this" sets off the
      greeting penalty, so "this" scores 0.4. */
  lemma HiInsideThisIsAGreeting()
    ensures TestScore("this") == 4
  {
    var t := "this";
    TestAdjustment(t);
    assert Lower(t) == t;
    ThisHasNoLinkOrSpamWord();
    assert IsLowerChar(t[0]);
    assert Contribution(Shouting, t) == 0;
    ThisContainsHi();
  }

  lemma ThisHasNoLinkOrSpamWord()
    ensures !Contains("this", "http") && !Contains("this", "www.")
    ensures !ContainsAny("this", SpamWords)
  {
    var t := "this";
    NotContainedWithoutChar(t, "http", 3);
    NotContainedWithoutChar(t, "www.", 0);
    forall k | 0 <= k < |SpamWords| ensures !Contains(t, SpamWords[k]) {
      NotContainedWithoutChar(t, SpamWords[k], 0);
    }
  }

  lemma ThisContainsHi()
    ensures ContainsAny("this", GreetingWords)
  {
    assert StartsWith("this"[1..], GreetingWords[1]);
    assert Contains("this", GreetingWords[1]);
  }
}
