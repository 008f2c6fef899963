/**
 * The agent: a state record that the two handler nodes fill in, and
 * `process_query`, the graph `route -> (weather | rag) -> END` written as a
 * direct composition of the router and one handler.
 */
module Agent {
  import opened Wrappers
  import opened Router
  import opened Weather
  import opened VectorStore
  import opened Rag

  const GuidanceText := "I couldn't identify a city name in your query. Please specify a city, for example: 'What's the weather in London?'"
  const WeatherApology := "Sorry, I encountered an error fetching weather data: "
  const RagApology := "Sorry, I encountered an error processing your query: "

  /** The graph's state; the handlers write `response` and `route` in place. */
  class AgentState {
    var query: string
    var route: string
    var response: string

    /** The initial state of `process_query`. */
    constructor (query: string)
      ensures this.query == query && route == "" && response == ""
    {
      this.query := query;
      route := "";
      response := "";
    }
  }

  /** The dictionary `process_query` returns. */
  datatype AgentResult = AgentResult(query: string, response: string, route: string)

  /**
   * The response of the weather node: the guidance text when no city is found,
   * the report when the service answers, and an apology holding the error
   * text otherwise.
   */
  function WeatherResponse(svc: WeatherService, render: real -> string, query: string): (response: string)
    ensures ExtractCity(query) == "" ==> response == GuidanceText
    ensures ExtractCity(query) != "" ==>
      var fetched := GetWeather(svc, ExtractCity(query));
      && (fetched.Success? ==> response == FormatReport(fetched.value, render))
      && (fetched.Failure? ==> response == WeatherApology + fetched.error)
  {
    var city := ExtractCity(query);
    if city == "" then GuidanceText
    else
      match GetWeather(svc, city)
      case Success(data) => FormatReport(data, render)
      case Failure(e) => WeatherApology + e
  }

  /** The response of the RAG node: the answer, or an apology holding the error text. */
  function RagResponse(outcome: Result<Answer, string>): (response: string)
    ensures outcome.Success? ==> response == outcome.value.answer
    ensures outcome.Failure? ==> response == RagApology + outcome.error
  {
    match outcome
    case Success(a) => a.answer
    case Failure(e) => RagApology + e
  }

  /** A query without a recognisable city always gets the guidance text, whatever the weather service would say. */
  lemma NoCityNoService(svc: WeatherService, svc': WeatherService, render: real -> string, query: string)
    requires ExtractCity(query) == ""
    ensures WeatherResponse(svc, render, query) == WeatherResponse(svc', render, query) == GuidanceText
  {
  }

  class AIAgent {
    const weather: WeatherService
    /** The `:.1f` rendering of numbers in the report. */
    const render: real -> string
    const rag: RagService
    /** The cities the weather service has been asked about, in order. */
    ghost var weatherRequests: seq<string>

    constructor (weather: WeatherService, render: real -> string, rag: RagService)
      ensures this.weather == weather && this.render == render && this.rag == rag
      ensures weatherRequests == []
    {
      this.weather := weather;
      this.render := render;
      this.rag := rag;
      weatherRequests := [];
    }

    /** The weather node `_handle_weather`. */
    method HandleWeather(state: AgentState)
      modifies state, this`weatherRequests
      ensures state.query == old(state.query)
      ensures state.route == WeatherRoute
      ensures state.response == WeatherResponse(weather, render, state.query)
      // the service is asked about the extracted city, and not at all when there is none
      ensures weatherRequests ==
        if ExtractCity(state.query) == "" then old(weatherRequests) else old(weatherRequests) + [ExtractCity(state.query)]
    {
      var city := ExtractCity(state.query);
      var response: string;
      if city == "" {
        response := GuidanceText;
      } else {
        weatherRequests := weatherRequests + [city];
        var fetched := GetWeather(weather, city);
        if fetched.Failure? {
          response := WeatherApology + fetched.error;
        } else {
          response := FormatReport(fetched.value, render);
        }
      }
      state.response := response;
      state.route := WeatherRoute;
    }

    /** The RAG node `_handle_rag`. */
    method HandleRag(state: AgentState)
      modifies state, rag`prompts, rag.store`calls
      ensures state.query == old(state.query)
      ensures state.route == RagRoute
      ensures rag.store.points == old(rag.store.points)
      ensures rag.store.calls == old(rag.store.calls) + SearchCalls(rag.store.backend, state.query, DefaultTopK)
      ensures state.response ==
        RagResponse(Respond(SearchOutcome(rag.store.backend, rag.store.points, state.query, DefaultTopK), state.query, rag.llm))
      // the model is asked once with the joined context, and not at all when nothing was retrieved
      ensures var found := SearchOutcome(rag.store.backend, rag.store.points, state.query, DefaultTopK);
        rag.prompts ==
          if found.Success? && found.value != [] then old(rag.prompts) + [Prompt(Context(found.value), state.query)]
          else old(rag.prompts)
    {
      var outcome := rag.Query(state.query);
      state.response := RagResponse(outcome);
      state.route := RagRoute;
    }

    /** `process_query`: route, run one handler, and report the query with the final response and route. */
    method ProcessQuery(query: string) returns (result: AgentResult)
      modifies this`weatherRequests, rag`prompts, rag.store`calls
      ensures result.query == query
      ensures result.route == ShouldUseWeather(query)
      ensures rag.store.points == old(rag.store.points)
      ensures result.route == WeatherRoute ==>
        && result.response == WeatherResponse(weather, render, query)
        && rag.store.calls == old(rag.store.calls) && rag.prompts == old(rag.prompts)
        // the weather service is asked about the extracted city, and only when there is one
        && weatherRequests ==
             if ExtractCity(query) == "" then old(weatherRequests) else old(weatherRequests) + [ExtractCity(query)]
      ensures result.route == RagRoute ==>
        && result.response == RagResponse(Respond(SearchOutcome(rag.store.backend, rag.store.points, query, DefaultTopK), query, rag.llm))
        && rag.store.calls == old(rag.store.calls) + SearchCalls(rag.store.backend, query, DefaultTopK)
        && weatherRequests == old(weatherRequests)
        && var found := SearchOutcome(rag.store.backend, rag.store.points, query, DefaultTopK);
           rag.prompts ==
             if found.Success? && found.value != [] then old(rag.prompts) + [Prompt(Context(found.value), query)]
             else old(rag.prompts)
    {
      var state := new AgentState(query);
      if ShouldUseWeather(query) == WeatherRoute {
        HandleWeather(state);
      } else {
        HandleRag(state);
      }
      result := AgentResult(query, state.response, state.route);
    }
  }
}
