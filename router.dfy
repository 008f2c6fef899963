/**
 * The two pure decisions of the agent: the keyword router that picks the
 * "weather" or "rag" branch, and the anchor-based parser that finds a city name
 * in a weather query.
 */
module Router {
  import opened Wrappers
  import opened Text

  const WeatherRoute := "weather"
  const RagRoute := "rag"

  /** The routing vocabulary, in the order the router tests it. */
  const WeatherKeywords: seq<string> := [
    "weather", "temperature", "forecast", "humidity",
    "wind", "rain", "snow", "climate", "temperature in",
    "weather in", "how's the weather", "what's the weather"
  ]

  /** The one-word keywords; every phrase of the vocabulary contains one of them. */
  const CoreKeywords: seq<string> := [
    "weather", "temperature", "forecast", "humidity", "wind", "rain", "snow", "climate"
  ]

  /** `any(keyword in text for keyword in keywords)` */
  function AnyContained(text: string, keywords: seq<string>): (found: bool)
    ensures found <==> exists k :: 0 <= k < |keywords| && Contains(text, keywords[k])
    decreases |keywords|
  {
    if keywords == [] then false
    else Contains(text, keywords[0]) || AnyContained(text, keywords[1..])
  }

  /** The routing decision: total over all strings. */
  function ShouldUseWeather(query: string): (route: string)
    ensures route == WeatherRoute || route == RagRoute
    ensures route == WeatherRoute <==>
      exists k :: 0 <= k < |WeatherKeywords| && Contains(Lower(query), WeatherKeywords[k])
  {
    if AnyContained(Lower(query), WeatherKeywords) then WeatherRoute else RagRoute
  }

  /**
   * The phrase variants in the vocabulary never change a decision: the router
   * chooses "weather" exactly when one of the eight one-word keywords occurs.
   */
  lemma RouteByCoreKeywords(query: string)
    ensures ShouldUseWeather(query) == WeatherRoute <==>
      exists k :: 0 <= k < |CoreKeywords| && Contains(Lower(query), CoreKeywords[k])
  {
    var q := Lower(query);
    if ShouldUseWeather(query) == WeatherRoute {
      var k :| 0 <= k < |WeatherKeywords| && Contains(q, WeatherKeywords[k]);
      if k < 8 {
        assert CoreKeywords[k] == WeatherKeywords[k];
      } else {
        PhraseHoldsKeyword(k);
        ContainsTransitive(q, WeatherKeywords[k], CoreKeywords[PhraseCore(k)]);
      }
    } else {
      forall k | 0 <= k < |CoreKeywords|
        ensures !Contains(q, CoreKeywords[k])
      {
        assert CoreKeywords[k] == WeatherKeywords[k];
      }
    }
  }

  /** Which one-word keyword each phrase variant contains. */
  function PhraseCore(k: nat): nat
    requires 8 <= k < |WeatherKeywords|
  {
    if k == 8 then 1 else 0
  }

  lemma PhraseHoldsKeyword(k: nat)
    requires 8 <= k < |WeatherKeywords|
    ensures PhraseCore(k) < |CoreKeywords|
    ensures Contains(WeatherKeywords[k], CoreKeywords[PhraseCore(k)])
  {
    var phrase := WeatherKeywords[k];
    var core := CoreKeywords[PhraseCore(k)];
    if k == 8 {
      assert phrase[0..|core|] == core;
      MatchAtContains(phrase, core, 0);
    } else if k == 9 {
      assert phrase[0..|core|] == core;
      MatchAtContains(phrase, core, 0);
    } else if k == 10 {
      assert phrase[10..10 + |core|] == core;
      MatchAtContains(phrase, core, 10);
    } else {
      assert phrase[11..11 + |core|] == core;
      MatchAtContains(phrase, core, 11);
    }
  }

  // ---------------------------------------------------------------------------
  // City extraction.
  // ---------------------------------------------------------------------------

  /** Anchors that may precede a city name, in the order they are tried. */
  const Anchors: seq<string> := ["in ", "for ", "at ", "weather ", "temperature "]

  /** First words that start a two-word city name. */
  const MultiWordPrefixes: seq<string> := ["new", "san", "los", "saint", "st"]

  const TrailingPunctuation: set<char> := {'?', '.', ',', '!'}

  /**
   * The words after the first occurrence of `anchor` in the lower-cased query,
   * once the trailing run of "?.,!" is gone; empty when the anchor is absent.
   */
  function CandidateWords(lowered: string, anchor: string): (words: seq<string>)
    ensures !Contains(lowered, anchor) ==> words == []
    ensures forall k :: 0 <= k < |words| ==> |words[k]| > 0
  {
    match AfterFirst(lowered, anchor)
    case None => []
    case Some(rest) => Words(Strip(RStripSet(Strip(rest), TrailingPunctuation)))
  }

  /**
   * For every anchor: when `anchor` first occurs right after `a` (no occurrence
   * starts inside `a`), the candidate words are the words of what follows that
   * occurrence, stripped, with its trailing run of "?.,!" removed.
   */
  lemma CandidateAfterAnchor(a: string, anchor: string, rest: string)
    requires |anchor| > 0
    requires !Contains(a + anchor[..|anchor| - 1], anchor)
    ensures CandidateWords(a + anchor + rest, anchor) == Words(Strip(RStripSet(Strip(rest), TrailingPunctuation)))
  {
    var s := a + anchor + rest;
    var t := a + anchor[..|anchor| - 1];
    assert s[|a|..|a| + |anchor|] == anchor;
    forall j | 0 <= j < |a|
      ensures !MatchAt(s, anchor, j)
    {
      assert !MatchAt(t, anchor, j);
      assert s[j..j + |anchor|] == t[j..j + |anchor|];
    }
    assert MatchAt(s, anchor, |a|);
    assert Find(s, anchor) == Some(|a|);
    assert s[|a| + |anchor|..] == rest;
  }

  /** The name taken from the candidate words, before title-casing. */
  function PickCity(words: seq<string>): (city: string)
    requires |words| >= 1
    ensures words[0] <= city
    // two words exactly when the first is a known city prefix and a second word exists
    ensures city != words[0] <==> |words| >= 2 && words[0] in MultiWordPrefixes
    ensures city != words[0] ==> city == words[0] + " " + words[1]
  {
    if |words| >= 2 && words[0] in MultiWordPrefixes then words[0] + " " + words[1] else words[0]
  }

  /** The search loop over the anchors, with its early return. */
  function ExtractFrom(lowered: string, anchors: seq<string>): (city: string)
    decreases |anchors|
  {
    if anchors == [] then ""
    else
      var words := CandidateWords(lowered, anchors[0]);
      if |words| >= 1 then Title(PickCity(words)) else ExtractFrom(lowered, anchors[1..])
  }

  /** The city named in a query, or "" when none is found. */
  function ExtractCity(query: string): string {
    ExtractFrom(Lower(query), Anchors)
  }

  /** The first anchor that yields a word decides the city; earlier anchors without words are passed over. */
  lemma {:induction false} ExtractFromFirstProductive(lowered: string, anchors: seq<string>, k: nat)
    requires k < |anchors|
    requires forall j :: 0 <= j < k ==> CandidateWords(lowered, anchors[j]) == []
    requires CandidateWords(lowered, anchors[k]) != []
    ensures ExtractFrom(lowered, anchors) == Title(PickCity(CandidateWords(lowered, anchors[k])))
    decreases k
  {
    if k > 0 {
      assert CandidateWords(lowered, anchors[0]) == [];
      assert ExtractFrom(lowered, anchors) == ExtractFrom(lowered, anchors[1..]);
      forall j | 0 <= j < k - 1
        ensures CandidateWords(lowered, anchors[1..][j]) == []
      {
        assert anchors[1..][j] == anchors[j + 1];
      }
      ExtractFromFirstProductive(lowered, anchors[1..], k - 1);
    }
  }

  /** The search gives "" exactly when no anchor yields a word. */
  lemma {:induction false} ExtractFromEmpty(lowered: string, anchors: seq<string>)
    ensures ExtractFrom(lowered, anchors) == "" <==>
      forall j :: 0 <= j < |anchors| ==> CandidateWords(lowered, anchors[j]) == []
    decreases |anchors|
  {
    if anchors != [] {
      ExtractFromEmpty(lowered, anchors[1..]);
      var words := CandidateWords(lowered, anchors[0]);
      if |words| >= 1 {
        assert |Title(PickCity(words))| > 0;
      } else {
        assert ExtractFrom(lowered, anchors) == ExtractFrom(lowered, anchors[1..]);
        if forall j :: 0 <= j < |anchors[1..]| ==> CandidateWords(lowered, anchors[1..][j]) == [] {
          forall j | 0 <= j < |anchors|
            ensures CandidateWords(lowered, anchors[j]) == []
          {
            if j > 0 {
              assert anchors[j] == anchors[1..][j - 1];
            }
          }
        } else {
          var j :| 0 <= j < |anchors[1..]| && CandidateWords(lowered, anchors[1..][j]) != [];
          assert anchors[1..][j] == anchors[j + 1];
        }
      }
    }
  }

  /** Anchors are tried in order and the first one that yields a word is used. */
  lemma ExtractCityUsesFirstProductiveAnchor(query: string, k: nat)
    requires k < |Anchors|
    requires forall j :: 0 <= j < k ==> CandidateWords(Lower(query), Anchors[j]) == []
    requires CandidateWords(Lower(query), Anchors[k]) != []
    ensures ExtractCity(query) == Title(PickCity(CandidateWords(Lower(query), Anchors[k])))
  {
    ExtractFromFirstProductive(Lower(query), Anchors, k);
  }

  /** "" is returned exactly when no anchor yields a word; an anchor without words does not stop the search. */
  lemma ExtractCityEmptyIff(query: string)
    ensures ExtractCity(query) == "" <==>
      forall j :: 0 <= j < |Anchors| ==> CandidateWords(Lower(query), Anchors[j]) == []
  {
    ExtractFromEmpty(Lower(query), Anchors);
  }
}
