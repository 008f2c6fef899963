/**
 * The response-quality heuristic `_evaluate_quality`: four checks, each worth
 * a fixed number of tenths, and a comment listing the checks that failed.
 * Scores are integers counting tenths, so 10 stands for 1.0.
 */
module Evaluator {
  import opened Text
  import opened Router

  const ErrorIndicators: seq<string> := ["error", "failed", "sorry", "couldn't", "unable"]
  const WeatherIndicators: seq<string> := ["temperature", "humidity", "wind", "weather"]

  const TooShort := "Response too short"
  const OffTopic := "Response may not address query"
  const HasErrors := "Response contains error indicators"
  const GoodResponse := "Good response"
  const CommentSeparator := "; "

  /** The dictionary `_evaluate_quality` returns, with the score in tenths. */
  datatype Evaluation = Evaluation(score: int, comment: string)

  /** `set(text.lower().split())` */
  function WordSet(text: string): set<string> {
    set w | w in Words(Lower(text))
  }

  predicate LongEnough(response: string) {
    |response| > 10
  }

  /** Query and response share at least one lower-cased word. */
  predicate Overlaps(query: string, response: string) {
    WordSet(query) * WordSet(response) != {}
  }

  /** The error check passes when no indicator occurs, or when "sorry" occurs. */
  predicate ErrorCheckPasses(response: string) {
    !AnyContained(Lower(response), ErrorIndicators) || Contains(Lower(response), "sorry")
  }

  /** The route check: a weather word for "weather", more than 50 characters for "rag", never for any other route. */
  predicate RouteCheckPasses(response: string, route: string) {
    if route == WeatherRoute then AnyContained(Lower(response), WeatherIndicators)
    else if route == RagRoute then |response| > 50
    else false
  }

  /** The comments of the failed checks, in check order; the route check has none. */
  function Failures(query: string, response: string): (fs: seq<string>)
    ensures |fs| <= 3
    ensures TooShort in fs <==> !LongEnough(response)
    ensures OffTopic in fs <==> !Overlaps(query, response)
    ensures HasErrors in fs <==> !ErrorCheckPasses(response)
    ensures fs == [] <==> LongEnough(response) && Overlaps(query, response) && ErrorCheckPasses(response)
  {
    (if LongEnough(response) then [] else [TooShort])
    + (if Overlaps(query, response) then [] else [OffTopic])
    + (if ErrorCheckPasses(response) then [] else [HasErrors])
  }

  /** `"; ".join(comments) if comments else "Good response"` */
  function Comment(fs: seq<string>): string {
    if fs == [] then GoodResponse else Join(fs, CommentSeparator)
  }

  function Tenths(passed: bool, worth: int): int {
    if passed then worth else 0
  }

  /** The sum of the tenths of the passed checks, before clamping. */
  function RawScore(query: string, response: string, route: string): (s: int)
    ensures 0 <= s <= 10
    ensures s == 10 <==>
      LongEnough(response) && Overlaps(query, response) && ErrorCheckPasses(response) && RouteCheckPasses(response, route)
  {
    Tenths(LongEnough(response), 3) + Tenths(Overlaps(query, response), 3)
    + Tenths(ErrorCheckPasses(response), 2) + Tenths(RouteCheckPasses(response, route), 2)
  }

  /** `_evaluate_quality(query, response, route)` */
  method EvaluateQuality(query: string, response: string, route: string) returns (e: Evaluation)
    ensures 0 <= e.score <= 10
    ensures e.score == RawScore(query, response, route)
    ensures e.comment == Comment(Failures(query, response))
  {
    var score := 0;
    var comments: seq<string> := [];
    if |response| > 10 {
      score := score + 3;
    } else {
      comments := comments + [TooShort];
    }
    assert score == Tenths(LongEnough(response), 3);
    assert comments == if LongEnough(response) then [] else [TooShort];
    var queryWords := WordSet(query);
    var responseWords := WordSet(response);
    if queryWords * responseWords != {} {
      score := score + 3;
    } else {
      comments := comments + [OffTopic];
    }
    assert score == Tenths(LongEnough(response), 3) + Tenths(Overlaps(query, response), 3);
    assert comments == (if LongEnough(response) then [] else [TooShort]) + (if Overlaps(query, response) then [] else [OffTopic]);
    var lowered := Lower(response);
    var hasError := AnyContained(lowered, ErrorIndicators);
    if !hasError || Contains(lowered, "sorry") {
      score := score + 2;
    } else {
      comments := comments + [HasErrors];
    }
    assert comments == Failures(query, response);
    ghost var checked := Tenths(LongEnough(response), 3) + Tenths(Overlaps(query, response), 3) + Tenths(ErrorCheckPasses(response), 2);
    assert score == checked;
    if route == WeatherRoute {
      if AnyContained(lowered, WeatherIndicators) {
        score := score + 2;
      }
    } else if route == RagRoute {
      if |response| > 50 {
        score := score + 2;
      }
    }
    assert score == RawScore(query, response, route);
    score := if score < 10 then score else 10;
    var comment := if comments == [] then GoodResponse else Join(comments, CommentSeparator);
    e := Evaluation(score, comment);
  }

  /** "sorry" is itself an error indicator, but a response containing it always gets the error-check tenths. */
  lemma SorryAlwaysPasses(response: string)
    requires Contains(Lower(response), "sorry")
    ensures AnyContained(Lower(response), ErrorIndicators)
    ensures ErrorCheckPasses(response)
  {
    assert ErrorIndicators[2] == "sorry";
  }

  /** A route other than "weather" and "rag" caps the score at 8 tenths. */
  lemma OtherRouteAtMostEight(query: string, response: string, route: string)
    requires route != WeatherRoute && route != RagRoute
    ensures RawScore(query, response, route) <= 8
  {
  }

  /** The comment is "Good response" exactly when every commented check passed. */
  lemma GoodCommentIff(query: string, response: string)
    ensures Comment(Failures(query, response)) == GoodResponse <==>
      LongEnough(response) && Overlaps(query, response) && ErrorCheckPasses(response)
  {
    var fs := Failures(query, response);
    if fs != [] {
      JoinStartsWithFirst(fs, CommentSeparator);
      assert fs[0][0] == 'R';
      assert GoodResponse[0] == 'G';
    }
  }

  /** Only one failure: the comment is that failure's text, with no separator. */
  lemma SingleFailureComment(query: string, response: string)
    requires |Failures(query, response)| == 1
    ensures Comment(Failures(query, response)) == Failures(query, response)[0]
  {
    JoinSingle(Failures(query, response)[0], CommentSeparator);
    assert Failures(query, response) == [Failures(query, response)[0]];
  }
}
