/** The concrete queries of the agent's tests and of the chat interface's prompt hint, worked through the model. */
module RouterExamples {
  import opened Wrappers
  import opened Text
  import opened Router

  // --- the router -----------------------------------------------------------

  /** A query whose lower-cased form holds keyword k at position i goes to the weather node. */
  lemma RouteOnKeywordAt(query: string, k: nat, i: nat)
    requires k < |WeatherKeywords|
    requires MatchAt(Lower(query), WeatherKeywords[k], i)
    ensures ShouldUseWeather(query) == WeatherRoute
  {
    MatchAtContains(Lower(query), WeatherKeywords[k], i);
  }

  lemma RoutePune()
    ensures ShouldUseWeather("What's the weather in Pune?") == WeatherRoute
  {
    var q := "What's the weather in Pune?";
    assert q[11..18] == "weather";
    LowerKeepsRun(q, 11, "weather");
    RouteOnKeywordAt(q, 0, 11);
  }

  lemma RouteLondon()
    ensures ShouldUseWeather("What's the weather in London?") == WeatherRoute
  {
    var q := "What's the weather in London?";
    assert q[11..18] == "weather";
    LowerKeepsRun(q, 11, "weather");
    RouteOnKeywordAt(q, 0, 11);
  }

  /** The query of the agent's example goes to the weather node, which asks about "London". */
  lemma LondonQueryAsksLondon()
    ensures ShouldUseWeather("What's the weather in London?") == WeatherRoute
    ensures ExtractCity("What's the weather in London?") == "London"
  {
    RouteLondon();
    ExtractLondon();
  }

  // --- the city extractor: general shape of a query with "in " ---------------

  lemma {:induction false} RStripRun(w: string, tail: string, cs: set<char>)
    requires w == [] || w[|w| - 1] !in cs
    requires forall k :: 0 <= k < |tail| ==> tail[k] in cs
    ensures RStripSet(w + tail, cs) == w
    decreases |tail|
  {
    if tail == [] {
      assert w + tail == w;
    } else {
      var s := w + tail;
      assert s[..|s| - 1] == w + tail[..|tail| - 1];
      RStripRun(w, tail[..|tail| - 1], cs);
    }
  }

  lemma PunctuationNotSpace(c: char)
    requires c in TrailingPunctuation
    ensures !IsSpace(c)
  {
  }

  /** The remainder after the first "in " when the text before it holds no 'i'. */
  lemma CandidateAfterIn(a: string, rest: string)
    requires 'i' !in a
    ensures CandidateWords(a + "in " + rest, "in ") == Words(Strip(RStripSet(Strip(rest), TrailingPunctuation)))
  {
    NoMatchInsidePrefix(a, "in ");
    CandidateAfterAnchor(a, "in ", rest);
  }

  /** A body that neither starts nor ends with whitespace keeps all its words once a trailing run of "?.,!" is removed. */
  lemma CleanWords(body: string, tail: string)
    requires |body| > 0 && !IsSpace(body[0])
    requires !IsSpace(body[|body| - 1]) && body[|body| - 1] !in TrailingPunctuation
    requires forall k :: 0 <= k < |tail| ==> tail[k] in TrailingPunctuation
    ensures Words(Strip(RStripSet(Strip(body + tail), TrailingPunctuation))) == Words(body)
  {
    var s := body + tail;
    assert !IsSpace(s[0]) by { assert s[0] == body[0]; }
    assert !IsSpace(s[|s| - 1]) by {
      if tail == [] {
        assert s == body;
      } else {
        assert s[|s| - 1] == tail[|tail| - 1];
        PunctuationNotSpace(tail[|tail| - 1]);
      }
    }
    StripUnchanged(s);
    RStripRun(body, tail, TrailingPunctuation);
    StripUnchanged(body);
  }

  /**
   * A query whose first "in " is followed by `body` and a run of "?.,!" yields
   * the city picked from the words of `body`.
   */
  lemma ExtractAfterIn(q: string, a: string, body: string, tail: string)
    requires Lower(q) == a + "in " + (body + tail)
    requires 'i' !in a
    requires |body| > 0 && !IsSpace(body[0])
    requires !IsSpace(body[|body| - 1]) && body[|body| - 1] !in TrailingPunctuation
    requires forall k :: 0 <= k < |tail| ==> tail[k] in TrailingPunctuation
    ensures |Words(body)| >= 1
    ensures ExtractCity(q) == Title(PickCity(Words(body)))
  {
    CandidateAfterIn(a, body + tail);
    CleanWords(body, tail);
    assert body[0..TokenEnd(body, 0)] != [];
    ExtractCityUsesFirstProductiveAnchor(q, 0);
  }

  // --- the city extractor: the examples ---------------------------------------

  lemma TitleLondon() ensures Title(PickCity(Words("london"))) == "London" {
    WordsOfWord("london");
  }

  lemma ExtractLondon()
    ensures ExtractCity("What's the weather in London?") == "London"
  {
    var q := "What's the weather in London?";
    assert Lower(q) == "what's the weather " + "in " + ("london" + "?");
    ExtractAfterIn(q, "what's the weather ", "london", "?");
    TitleLondon();
  }

  lemma WordsNewYork() ensures Words("new york") == ["new", "york"] {
    WordsCons("york", "");
    assert "york" + "" == "york";
    WordsSkipSpace(' ', "york");
    WordsCons("new", " york");
    assert "new" + " york" == "new york";
  }

  lemma PickNewYork() ensures PickCity(["new", "york"]) == "new york" {
    assert ["new", "york"][0] in MultiWordPrefixes;
  }

  lemma TitleYork() ensures TitleFrom(" york", true) == " York" {
    assert TitleFrom("york", false) == "York" by {
      assert "york"[1..] == "ork";
    }
    assert " york"[1..] == "york";
  }

  lemma TitleWYork() ensures TitleFrom("ew york", true) == "ew York" {
    TitleYork();
    assert TitleFrom("w york", true) == "w York" by {
      assert "w york"[1..] == " york";
    }
    assert "ew york"[1..] == "w york";
  }

  lemma TitleNewYork() ensures Title(PickCity(["new", "york"])) == "New York" {
    PickNewYork();
    TitleWYork();
    assert "new york"[1..] == "ew york";
  }

  lemma ExtractNewYork()
    ensures ExtractCity("Temperature in New York") == "New York"
  {
    var q := "Temperature in New York";
    assert Lower(q) == "temperature " + "in " + ("new york" + "");
    ExtractAfterIn(q, "temperature ", "new york", "");
    WordsNewYork();
    TitleNewYork();
  }

  lemma WordsParisFrance() ensures Words("paris, france") == ["paris,", "france"] {
    WordsCons("france", "");
    assert "france" + "" == "france";
    WordsSkipSpace(' ', "france");
    WordsCons("paris,", " france");
    assert "paris," + " france" == "paris, france";
  }

  lemma TitleParisComma() ensures Title(PickCity(["paris,", "france"])) == "Paris," {
    assert PickCity(["paris,", "france"]) == "paris,";
  }

  /** Only the trailing run of "?.,!" is stripped, so a comma inside the first word survives. */
  lemma ExtractKeepsInnerComma()
    ensures ExtractCity("Weather in Paris, France") == "Paris,"
  {
    var q := "Weather in Paris, France";
    assert Lower(q) == "weather " + "in " + ("paris, france" + "");
    ExtractAfterIn(q, "weather ", "paris, france", "");
    WordsParisFrance();
    TitleParisComma();
  }

  // --- "Weather for Paris": the second anchor -----------------------------------

  lemma LowerWeatherForParis() ensures Lower("Weather for Paris") == "weather " + "for " + "paris" {
  }

  lemma NoInInWeatherForParis() ensures CandidateWords("weather " + "for " + "paris", "in ") == [] {
    var l := "weather " + "for " + "paris";
    assert 'n' !in l;
    AbsentCharNotContained(l, "in ", 1);
  }

  lemma WordsAfterClean(body: string, words: seq<string>)
    requires |body| > 0 && !IsSpace(body[0])
    requires !IsSpace(body[|body| - 1]) && body[|body| - 1] !in TrailingPunctuation
    requires Words(body) == words
    ensures Words(Strip(RStripSet(Strip(body), TrailingPunctuation))) == words
  {
    CleanWords(body, "");
    assert body + "" == body;
  }

  lemma CleanParis() ensures Words(Strip(RStripSet(Strip("paris"), TrailingPunctuation))) == ["paris"] {
    WordsOfWord("paris");
    WordsAfterClean("paris", ["paris"]);
  }

  lemma ForParisWords() ensures CandidateWords("weather " + "for " + "paris", "for ") == ["paris"] {
    NoMatchInsidePrefix("weather ", "for ");
    CandidateAfterAnchor("weather ", "for ", "paris");
    CleanParis();
  }

  lemma TitleParis() ensures Title(PickCity(["paris"])) == "Paris" {
    assert PickCity(["paris"]) == "paris";
  }

  /** No "in " anchor, and words after "for ": the city comes from those words. */
  lemma ExtractAfterFor(q: string, words: seq<string>)
    requires CandidateWords(Lower(q), "in ") == []
    requires CandidateWords(Lower(q), "for ") == words && words != []
    ensures ExtractCity(q) == Title(PickCity(words))
  {
    var l := Lower(q);
    var rest := ["for ", "at ", "weather ", "temperature "];
    assert Anchors == ["in "] + rest;
    assert ExtractFrom(l, Anchors) == ExtractFrom(l, rest);
  }

  lemma ExtractParisFor()
    ensures ExtractCity("Weather for Paris") == "Paris"
  {
    LowerWeatherForParis();
    NoInInWeatherForParis();
    ForParisWords();
    ExtractAfterFor("Weather for Paris", ["paris"]);
    TitleParis();
  }

  // --- "What is machine learning?": no keyword, so the RAG node ---------------

  const MachineLearning := "what is machine learning?"

  lemma LowerMachineLearning() ensures Lower("What is machine learning?") == MachineLearning {
  }

  lemma NoWeatherInMachineLearning() ensures !Contains(MachineLearning, "weather") {
    var tail := MachineLearning[1..];
    assert tail == "hat is " + "machine " + "learning?";
    assert 'w' !in "hat is " && 'w' !in "machine " && 'w' !in "learning?";
    assert MachineLearning[..0] == [] && MachineLearning[1] != 'e';
    AbsentWithOneHead(MachineLearning, "weather", 0);
  }

  lemma NoRainInMachineLearning() ensures !Contains(MachineLearning, "rain") {
    assert 'r' !in MachineLearning[..19] && 'r' !in MachineLearning[20..] && MachineLearning[20] != 'a';
    AbsentWithOneHead(MachineLearning, "rain", 19);
  }

  lemma NoClimateInMachineLearning() ensures !Contains(MachineLearning, "climate") {
    assert 'c' !in MachineLearning[..10] && 'c' !in MachineLearning[11..] && MachineLearning[11] != 'l';
    AbsentWithOneHead(MachineLearning, "climate", 10);
  }

  /** Letters of the one-word keywords that "what is machine learning?" lacks. */
  lemma LetterMissingFromMachineLearning(c: char)
    requires c == 'p' || c == 'f' || c == 'u' || c == 'd' || c == 'o'
    ensures c !in MachineLearning
  {
  }

  lemma NoCoreKeywordInMachineLearning(k: nat)
    requires k < |CoreKeywords|
    ensures !Contains(MachineLearning, CoreKeywords[k])
  {
    if k == 0 {
      NoWeatherInMachineLearning();
    } else if k == 1 {
      LetterMissingFromMachineLearning('p');
      AbsentCharNotContained(MachineLearning, CoreKeywords[k], 3);
    } else if k == 2 {
      LetterMissingFromMachineLearning('f');
      AbsentCharNotContained(MachineLearning, CoreKeywords[k], 0);
    } else if k == 3 {
      LetterMissingFromMachineLearning('u');
      AbsentCharNotContained(MachineLearning, CoreKeywords[k], 1);
    } else if k == 4 {
      LetterMissingFromMachineLearning('d');
      AbsentCharNotContained(MachineLearning, CoreKeywords[k], 3);
    } else if k == 5 {
      NoRainInMachineLearning();
    } else if k == 6 {
      LetterMissingFromMachineLearning('o');
      AbsentCharNotContained(MachineLearning, CoreKeywords[k], 2);
    } else {
      NoClimateInMachineLearning();
    }
  }

  lemma MachineLearningGoesToRag()
    ensures ShouldUseWeather("What is machine learning?") == RagRoute
  {
    LowerMachineLearning();
    forall k | 0 <= k < |CoreKeywords|
      ensures !Contains(Lower("What is machine learning?"), CoreKeywords[k])
    {
      NoCoreKeywordInMachineLearning(k);
    }
    RouteByCoreKeywords("What is machine learning?");
  }

  // --- "Will it rain in Paris?": the first "in " is the end of "rain " ---------

  lemma LowerRainInParis() ensures Lower("Will it rain in Paris?") == "will it ra" + "in " + ("in paris" + "?") {
  }

  /** "in " does not occur before the end of "rain". */
  lemma NoEarlyIn()
    ensures !Contains("will it ra" + "in "[..2], "in ")
  {
    var t := "will it ra" + "in "[..2];
    assert t == "will it rain";
    forall j | 0 <= j < |t|
      ensures !MatchAt(t, "in ", j)
    {
      if j + 3 <= |t| {
        assert t[j..j + 3][0] == t[j] && t[j..j + 3][1] == t[j + 1];
      }
    }
  }

  lemma WordsInParis() ensures Words("in paris") == ["in", "paris"] {
    WordsOfWord("paris");
    WordsSkipSpace(' ', "paris");
    WordsCons("in", " paris");
    assert "in" + " paris" == "in paris";
  }

  lemma CleanInParis() ensures Words(Strip(RStripSet(Strip("in paris" + "?"), TrailingPunctuation))) == ["in", "paris"] {
    CleanWords("in paris", "?");
    WordsInParis();
  }

  lemma InParisWords() ensures CandidateWords("will it ra" + "in " + ("in paris" + "?"), "in ") == ["in", "paris"] {
    NoEarlyIn();
    CandidateAfterAnchor("will it ra", "in ", "in paris" + "?");
    CleanInParis();
  }

  lemma TitleIn() ensures Title(PickCity(["in", "paris"])) == "In" {
    assert PickCity(["in", "paris"]) == "in";
  }

  lemma RouteRainInParis() ensures ShouldUseWeather("Will it rain in Paris?") == WeatherRoute {
    LowerRainInParis();
    assert Lower("Will it rain in Paris?")[8..12] == "rain";
    RouteOnKeywordAt("Will it rain in Paris?", 5, 8);
  }

  /**
   * The anchor "in " matches the end of the keyword "rain", so the word taken
   * as the city is "in": the weather service is asked about "In".
   */
  lemma RainInParisAsksIn()
    ensures ShouldUseWeather("Will it rain in Paris?") == WeatherRoute
    ensures ExtractCity("Will it rain in Paris?") == "In"
  {
    RouteRainInParis();
    LowerRainInParis();
    InParisWords();
    ExtractCityUsesFirstProductiveAnchor("Will it rain in Paris?", 0);
    TitleIn();
  }
}
