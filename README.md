# Weather agent with retrieval-augmented answers — a Dafny model

The system is a question-answering agent. A keyword router sends every
query down one of two branches:

- **weather**: a city name is parsed out of the query, the current weather
  for it is fetched from OpenWeatherMap, and the payload is rendered as a
  seven-line Markdown report;
- **rag**: the query is embedded, the closest chunks of previously ingested
  PDF documents are retrieved from a Qdrant vector store, and a chat model
  answers from the joined chunks.

PDF text is cut into annotated chunks before it is stored. A heuristic
evaluator scores each response.

The model follows the program's structure, one module per source file:

| module | file | models |
|---|---|---|
| `Router` | router.dfy | the keyword router and the city extractor of `agent.py` |
| `Agent` | agent.dfy | the graph state, the weather and RAG nodes, and `process_query` |
| `Weather` | weather.dfy | `WeatherService`: the key check, the payload-to-record mapping and its error texts, the report |
| `VectorStore` | vector_store.dfy | `VectorStore`: a class over a map from point id to stored point, plus the caller's metadata dictionaries as objects it mutates |
| `Rag` | rag.dfy | `RAGService.query` |
| `RouterExamples`, `WeatherExamples`, `RagExamples` | router_examples.dfy, weather_examples.dfy, rag_examples.dfy | the concrete cases of the tests |
| `Chunker` | chunker.dfy | `PDFProcessor.chunk_text` and the metadata of `process_pdf` |
| `Evaluator` | evaluator.dfy | `_evaluate_quality`, with scores counted in tenths |
| `Text` | text.dfy | the Python string operations used: `lower`, `title`, `in`, `strip`, `rstrip`, `split`, `join`, integer formatting |
| `Wrappers`, `Values` | wrappers.dfy, values.dfy | `Option`/`Result`, and the JSON-like dictionary values |

`RouterExamples`, `WeatherExamples` and `RagExamples` prove the concrete
cases from the repository's tests.

State is modelled where the source changes it:

- The vector store is a class. `points` holds the collection's contents, and
  a ghost `calls` log records every call made to the embedding service and
  the database.
- Each caller metadata dictionary is a `Metadata` object.
- The agent graph state is an `AgentState` object. The two handler nodes
  write its `response` and `route`.
- The RAG service logs every prompt it sends, and the agent logs every city
  it asks the weather service about.

Loops in the source become loops with invariants:

- point building in `add_documents`;
- result formatting in `search`;
- context collection in `query`;
- chunk annotation in `chunk_text`.

`_evaluate_quality` has no loop. Its successive score and comment updates
stay successive updates in a method, which is proved equal to a function
summing one term per check.

Everything outside the program is a parameter:

- The OpenWeatherMap request becomes a function from (city, key, units) to a
  payload or a failure.
- The embedding service, MD5 and the Qdrant database become a `Backend`
  record of functions.
- The text splitter becomes a function from text to chunks.
- The prompt-plus-chat-model chain becomes a function from (context,
  question) to an answer or an error.
- The `:.1f` number formatting becomes a function from `real` to `string`.

Exceptions become `Result`/`Option` values carrying the exception's text.

Where a test and the code disagree, the model follows the code:

- `tests/test_weather_service.py:77` expects the text "clear sky" in the
  report. `format_weather_response` title-cases the description, so the
  report shows "Clear Sky" (`WeatherExamples.ClearSky`,
  `WeatherExamples.LondonReport`).
- `tests/test_weather_service.py:50-56` makes the request raise a plain
  `Exception` and expects the "Failed to fetch weather data" prefix. Only a
  `requests.exceptions.RequestException` gets that prefix, so the plain
  exception passes through unchanged
  (`WeatherExamples.PlainExceptionPassesThrough`).

## Model

| member | source | states |
|---|---|---|
| Router.AnyContained | agent.py:85 | true exactly when some keyword of the list occurs in the text |
| Router.ShouldUseWeather | agent.py:75-89 | total; the route is "weather" or "rag", and "weather" exactly when one of the twelve keywords occurs in the lower-cased query |
| Router.RouteByCoreKeywords | agent.py:78-86 | the phrase keywords never change the decision: "weather" exactly when one of the eight one-word keywords occurs |
| Router.PhraseHoldsKeyword | agent.py:78-82 | each of the four phrase keywords contains one of the one-word keywords |
| Router.CandidateWords | agent.py:168-176 | no words when the anchor is absent; the words carry no empty entries |
| Router.CandidateAfterAnchor | agent.py:168-176 | for every anchor: when its first occurrence follows a prefix `a` (no occurrence starts inside `a`), the words are those of the remainder after it, stripped, without its trailing run of "?.,!" |
| Router.PickCity | agent.py:178-183 | the first word, extended by " " and the second word exactly when there are at least two words and the first is new/san/los/saint/st |
| Router.ExtractFrom | agent.py:167-186 | the anchor loop with its early return, computed; its contract is stated by `Router.ExtractFromFirstProductive` and `Router.ExtractFromEmpty` |
| Router.ExtractCity | agent.py:146-186 | `_extract_city_from_query`: the anchor loop over the lower-cased query, computed; its contract is stated by `Router.ExtractCityUsesFirstProductiveAnchor` and `Router.ExtractCityEmptyIff` |
| Router.ExtractFromFirstProductive | agent.py:167-184 | the first anchor in the list that yields a word decides the result, and earlier anchors without words are skipped |
| Router.ExtractFromEmpty | agent.py:167-186 | the result is "" exactly when no anchor yields a word |
| Router.ExtractCityUsesFirstProductiveAnchor | agent.py:156-184 | anchors are tried in the order "in ", "for ", "at ", "weather ", "temperature "; the first that yields a word gives the title-cased first word or two-word name |
| Router.ExtractCityEmptyIff | agent.py:167-186 | "" exactly when none of the anchors yields a word, so an anchor present with no words after it does not end the search |
| RouterExamples.RouteOnKeywordAt | agent.py:75-86 | a query whose lower-cased form holds any of the twelve keywords at some position is routed to weather |
| RouterExamples.RouteLondon | agent.py:75-86 | "What's the weather in London?" is routed to weather |
| RouterExamples.RoutePune | app.py:551 | "What's the weather in Pune?" is routed to weather |
| RouterExamples.LondonQueryAsksLondon | agent.py:75-89 | "What's the weather in London?" is routed to weather and yields the city "London" |
| RouterExamples.CandidateAfterIn | agent.py:168-176 | when no 'i' comes before an "in ", that "in " is the first occurrence and the candidate words are those of the stripped remainder after it |
| RouterExamples.CleanWords | agent.py:172-176 | a trailing run of "?.,!" is removed before splitting |
| RouterExamples.ExtractAfterIn | agent.py:167-184 | a query "…in <body><punctuation>" yields the title-cased pick from the words of body |
| RouterExamples.ExtractLondon | tests/test_agent.py:67 | "What's the weather in London?" yields "London" |
| RouterExamples.ExtractNewYork | tests/test_agent.py:68 | "Temperature in New York" yields "New York" |
| RouterExamples.ExtractParisFor | tests/test_agent.py:69 | "Weather for Paris" has no "in " and yields "Paris" from the "for " anchor |
| RouterExamples.MachineLearningGoesToRag | tests/test_agent.py:58 | "What is machine learning?" holds none of the keywords and is routed to rag |
| RouterExamples.RainInParisAsksIn | agent.py:159-184 | "Will it rain in Paris?" is routed to weather, and the "in " at the end of "rain" makes the city "In" |
| RouterExamples.ExtractKeepsInnerComma | agent.py:174-183 | only the trailing punctuation is stripped: "Weather in Paris, France" yields "Paris," |
| Text.Title | weather_service.py:78 | `str.title`: same length, letters exactly where the input has letters, other characters unchanged; a letter is lower-cased when a letter precedes it and upper-cased otherwise |
| Text.TitleFromCase | weather_service.py:78 | the case rule of `str.title`, position by position, for any starting state |
| Text.Find | agent.py:170-172 | the position of the first occurrence: a match there and none before it; none exactly when no position matches |
| Text.AfterFirst | agent.py:170-172 | the remainder after the first occurrence of the separator (the one `Find` gives), or none when the separator is absent |
| Text.NoMatchInsidePrefix | agent.py:170-172 | when the first character of the separator is absent from `a`, no occurrence starts inside `a` followed by all but the last character of the separator |
| Text.AbsentWithOneHead | agent.py:78-86 | a text whose only position holding the keyword's first character does not start the keyword does not contain it |
| Text.WordsEmptyIff | agent.py:176 | `str.split()` gives no words exactly when the text is all whitespace |
| Text.SplitJoin | weather_service.py:84 | splitting a join of line-break-free lines on "\n" gives the lines back |
| Text.JoinContainsPart | rag_service.py:60 | every part occurs in the joined string |
| Weather.Create | weather_service.py:12-16 | the explicit key, else the configured key; an error with "OpenWeatherMap API key is required" exactly when both are empty |
| Weather.VisibilityKm | weather_service.py:49 | none exactly when visibility is absent or zero, otherwise metres divided by 1000 |
| Weather.ToRecord | weather_service.py:40-51 | a record exactly when every indexed key is present and "weather" is non-empty; each field comes from its payload path; wind speed defaults to 0; a missing "name" is a KeyError on "name" |
| Weather.WindSpeedOf | weather_service.py:48 | `data.get("wind", {}).get("speed", 0)`, computed: the speed when the wind block and its speed are present, otherwise 0; `Weather.ToRecord` states the record field it fills |
| Weather.GetWeather | weather_service.py:18-55 | success exactly when the payload is complete; a request failure gets "Failed to fetch weather data: "; a missing key gets "Unexpected API response format: " with the key quoted; any other exception passes through unchanged |
| Weather.UnitSymbol | weather_service.py:67 | "°C" exactly when units is "metric", otherwise "°F" |
| Weather.VisibilityText | weather_service.py:68-69 | "—" exactly when visibility is none, otherwise the rendered value followed by " km" |
| Weather.KilometresPerHour | weather_service.py:71-72 | km/h is m/s times 3.6 |
| Weather.ReportLines | weather_service.py:74-82 | seven lines; the second line is empty; the first line contains the city and the country |
| Weather.FormatReportSplits | weather_service.py:84 | when no field contains a line break, splitting the report on "\n" gives back exactly the seven lines |
| Weather.FormatReport | weather_service.py:57-84 | `format_weather_response`: the seven lines joined with "\n", computed; its contract is stated by `Weather.ReportLines`, `Weather.FormatReportSplits` and `Weather.FormatReportMentions` |
| Weather.TemperatureShown | weather_service.py:77 | the temperature line contains the rendered temperature followed by the unit symbol |
| Weather.HumidityShown | weather_service.py:79 | the humidity line contains the humidity followed by "%" |
| Weather.ConditionsShown | weather_service.py:78 | the conditions line contains the title-cased description |
| Weather.WindMetresShown | weather_service.py:80 | the wind line contains the rendered speed followed by " m/s" |
| Weather.WindKilometresShown | weather_service.py:72-80 | the wind line contains the rendered km/h speed followed by " km/h" |
| Weather.VisibilityShown | weather_service.py:69-81 | the visibility line contains the visibility text: the rendered kilometres with " km", or "—" |
| Weather.FormatReportMentions | weather_service.py:74-84 | the report contains the city, the country, the temperature with its unit, the title-cased description, the humidity with "%", the wind in m/s and in km/h, and the visibility text |
| WeatherExamples.LondonRecord | weather_service.py:40-51 | a complete London payload maps to the expected record; visibility 10000 m becomes 10 km |
| WeatherExamples.LondonWithoutSys | weather_service.py:42 | a payload without "sys" fails with KeyError on "sys" |
| WeatherExamples.PlainExceptionPassesThrough | weather_service.py:52-55 | a plain exception ("API Error") is not prefixed |
| WeatherExamples.RequestFailureIsPrefixed | weather_service.py:52-53 | a request failure is reported as "Failed to fetch weather data: timeout" |
| WeatherExamples.ClearSky | weather_service.py:78 | "clear sky" is shown as "Clear Sky" |
| WeatherExamples.LondonReport | tests/test_weather_service.py:75-78 | the London report contains "London", "15.5°C", "65%" and "Clear Sky" |
| Chunker.Annotated | pdf_processor.py:62-66 | keys are chunk_index, total_chunks and the caller's keys; the caller's values win on a clash; otherwise the index and the total |
| Chunker.ChunkText | pdf_processor.py:47-72 | one record per splitter chunk, in order, with that chunk's text and the annotated metadata for its position and the total; no chunks give no records |
| Chunker.ChunkNumbering | pdf_processor.py:61-64 | without clashing caller keys, record i has chunk_index i and every record has total_chunks n |
| Chunker.Basename | pdf_processor.py:87 | the suffix of the path after its last "/" |
| Chunker.SourceMetadata | pdf_processor.py:86-89 | source is source_name when non-empty, else the basename of the path; file_path is the path |
| Chunker.ProcessPdf | pdf_processor.py:74-90 | every record carries exactly chunk_index i, total_chunks n, source and file_path |
| VectorStore.HonestEmptySearch | vector_store.py:118-124 | a database that only returns stored points returns no hits from an empty collection |
| VectorStore.EntriesOf | vector_store.py:57 | the current contents of each caller dictionary, position by position |
| VectorStore.LastWriter | vector_store.py:56-58 | the last position before the bound holding the given dictionary object, or -1 when there is none |
| VectorStore.PointAt | vector_store.py:57-72 | id is the MD5 prefix of the text plus the position; the payload has the base keys plus "text", with "text" set to the chunk and the other values kept |
| VectorStore.UpsertedKeys | vector_store.py:76-79 | after an upsert the ids are the old ids plus the batch's ids |
| VectorStore.Upserted | vector_store.py:76-79 | the collection after `client.upsert`, computed point by point; its contract is stated by `VectorStore.UpsertedKeys`, `VectorStore.UpsertedLastWins` and `VectorStore.UpsertedUntouched` |
| VectorStore.UpsertedLastWins | vector_store.py:76-79 | a point whose id is not repeated later in the batch is stored as sent, overwriting any existing point |
| VectorStore.UpsertedUntouched | vector_store.py:76-79 | points whose ids are not in the batch are unchanged |
| VectorStore.ReAddKeepsIds | vector_store.py:61-79 | re-adding a batch with the same ids leaves the key set of the store unchanged |
| VectorStore.TextOf | vector_store.py:109 | payload "text", or "" when absent |
| VectorStore.FormatHit | vector_store.py:108-112 | text from the payload, metadata is the payload without "text", the score kept |
| VectorStore.FormatHitOfAddedPoint | vector_store.py:57-58 | a point added from metadata without "text" comes back from search as that text and that metadata |
| VectorStore.SearchOutcome | vector_store.py:94-116 | an embedding failure passes through; a database failure gets "Failed to search vector store: "; otherwise each hit is formatted, in the database's order and number |
| VectorStore.SearchCalls | vector_store.py:95-103 | the query is embedded first; the database is queried once with that vector and top_k, and only when embedding succeeded |
| VectorStore.SearchAfterClear | vector_store.py:118-124 | a successful search of an empty collection returns [] |
| VectorStore.RewriteKey | vector_store.py:58 | setting "text" twice keeps the last value |
| VectorStore.StampText | vector_store.py:57-58 | sets "text" in the dictionary at the position, so that every dictionary holds the last text written to it, while the point gets the entry dictionary plus "text" |
| VectorStore.PlainPoints | vector_store.py:56-72 | without metadatas, point j is built from {"text": text[j]} and id hash+j |
| VectorStore.StampedPoints | vector_store.py:56-72 | point j is built from the caller's dictionary j plus "text"; each dictionary holds the text of the last position that used it |
| VectorStore.PreparePoints | vector_store.py:56-72 | complete exactly when metadatas is empty or long enough; then one point per position; the dictionaries visited get "text" set |
| VectorStore.Store.constructor | vector_store.py:13-21 | the name is the argument, or the configured default when it is empty; the collection is ensured |
| VectorStore.Store.AddDocuments | vector_store.py:40-81 | empty texts change nothing; an embedding failure passes through; too few metadatas raise IndexError after stamping and send nothing; otherwise one point per pair, with distinct ids for identical texts and one upsert of them, or the "Failed to add documents to vector store: " error |
| VectorStore.Store.Search | vector_store.py:83-116 | the store is unchanged; the result is the search outcome; exactly one embedding call and at most one database query |
| VectorStore.Store.ClearCollection | vector_store.py:118-124 | after a successful delete the store is empty and the collection is ensured again; failures get "Failed to clear collection: " |
| Rag.TextsOf | rag_service.py:56-58 | the text of each retrieved chunk, in retrieval order |
| Rag.Sources | rag_service.py:73 | same length and order as the retrieved chunks, each the chunk's metadata |
| Rag.ContextHoldsEveryText | rag_service.py:55-60 | every retrieved text occurs verbatim in the context |
| Rag.Context | rag_service.py:60 | `"\n\n---\n\n".join` of the retrieved texts, computed; its contract is stated by `Rag.ContextHoldsEveryText`, `Rag.ContextStartsWithFirstText`, `Rag.ContextOfOne` and `Rag.ContextExtends` |
| Rag.ContextStartsWithFirstText | rag_service.py:55-60 | the context begins with the best hit's text |
| Rag.ContextOfOne | rag_service.py:60 | one chunk: the context is its text, with no separator |
| Rag.ContextExtends | rag_service.py:56-60 | a further chunk appends "\n\n---\n\n" and its text, so texts appear in retrieval order |
| Rag.Respond | rag_service.py:46-75 | a search failure passes through; an empty retrieval gives the fixed "couldn't find" answer with no sources or chunks; otherwise the model's reply verbatim with the sources and the search result unchanged, or the model's error |
| RagExamples.NoResultsCouldNotFind | tests/test_rag_service.py:48-56 | with nothing retrieved, the lower-cased answer contains "couldn't find" and there are no sources |
| RagExamples.OneResultGivesItsSource | tests/test_rag_service.py:23-46 | with one chunk retrieved, the model is asked with that chunk's text alone, and the answer is its reply with the chunk's metadata as the one source |
| Rag.RagService.constructor | rag_service.py:12-32 | a service over the given store and model, with no prompts sent |
| Rag.RagService.ContextParts | rag_service.py:56-58 | the loop collects the text of every retrieved chunk, in order |
| Rag.RagService.Query | rag_service.py:34-75 | searches exactly once with the question and top_k (default 3); the model is asked once with the joined context, and only when something was retrieved; the result is the response for that retrieval |
| Agent.AgentState.constructor | agent.py:198-203 | the initial state holds the query, with empty route and response |
| Agent.WeatherResponse | agent.py:101-121 | the guidance text when no city is found; the formatted report on success; "Sorry, I encountered an error fetching weather data: " plus the error otherwise |
| Agent.RagResponse | agent.py:133-144 | the answer, or "Sorry, I encountered an error processing your query: " plus the error |
| Agent.NoCityNoService | agent.py:106-109 | without a city the response is the guidance text, whatever the weather service |
| Agent.AIAgent.constructor | agent.py:22-31 | an agent over the given services, with no weather requests made |
| Agent.AIAgent.HandleWeather | agent.py:91-121 | route is "weather"; the response is the weather response; the service is asked about the extracted city, and not asked when there is none |
| Agent.AIAgent.HandleRag | agent.py:123-144 | route is "rag"; one search with top_k 3; the model is asked once with the joined context when chunks were found and not at all otherwise; the response is the RAG answer or its apology |
| Agent.AIAgent.ProcessQuery | agent.py:188-212 | the query comes back unchanged; the route is the router's choice; only the chosen branch touches its service; the weather branch asks about the extracted city when there is one, and the rag branch asks the model as `HandleRag` does |
| Evaluator.Failures | evaluator.py:82-105 | at most three comments; "Response too short", "Response may not address query" and "Response contains error indicators" each appear exactly when their check fails; none exactly when all pass |
| Evaluator.RawScore | evaluator.py:79-114 | between 0 and 10 tenths; 10 exactly when all four checks pass |
| Evaluator.EvaluateQuality | evaluator.py:67-122 | the score is the tenths of the passed checks, clamped to 10; the comment is "Good response" or the failures in check order joined by "; " |
| Evaluator.SorryAlwaysPasses | evaluator.py:99-105 | a response containing "sorry" has an error indicator and still passes the error check |
| Evaluator.OtherRouteAtMostEight | evaluator.py:107-114 | a route other than "weather" and "rag" adds nothing, so the score is at most 8 tenths |
| Evaluator.GoodCommentIff | evaluator.py:121 | the comment is "Good response" exactly when no commented check failed |
| Evaluator.Comment | evaluator.py:121 | `"; ".join(comments) if comments else "Good response"`, computed; its contract is stated by `Evaluator.GoodCommentIff` and `Evaluator.SingleFailureComment` |
| Evaluator.SingleFailureComment | evaluator.py:121 | one failure: the comment is that failure's text alone |

## Left out

- The Streamlit interface (`app.py`), `setup_check.py` and the loading of
  configuration from the environment: configured values are parameters
  (the configured API key). The default collection name is the constant
  `VectorStore.DefaultCollection`.
- The LangSmith parts of `evaluator.py` (`evaluate_response`, `get_tracer`,
  `create_run`): they are network calls; only `_evaluate_quality` is modelled.
- PDF text extraction (`extract_text` over `PdfReader`) and the recursive
  character splitter: the extracted text and the splitter are inputs.
- MD5, the embedding model and Qdrant's similarity ranking are uninterpreted
  functions of a `Backend`, and `HonestSearch` is the only assumption about
  the ranking. The hash is a value below 2^32.
- The HTTP request and JSON decoding together are the `fetch` parameter. A
  JSON value of the wrong type, which would raise `TypeError`, is not
  modelled: payload fields are typed.
- Lower-casing, title-casing and whitespace cover ASCII only; the Unicode
  case tables and Unicode whitespace are not modelled.
- Floating-point arithmetic: the `:.1f` rendering is a function parameter;
  wind and visibility conversions use exact reals; evaluator scores are
  integer tenths rather than sums of binary floats.
- The LangGraph machinery (`StateGraph`, `compile`, `invoke`) is written as
  a direct call of the router and one handler. The `messages` state field,
  which nothing reads or writes, is left out.
- Dictionary key order is not modelled, since dictionaries are maps. It only
  affects the order of iteration over metadata, not any value.
- The chat model's `hasattr(response, "content")`/`str(response)` fallback
  is inside the opaque model function.
- `_ensure_collection` failing in the constructor is not modelled, nor is
  the vector size and distance of a newly created collection. The
  constructor records the ensure call and keeps the existing points.
- VectorStore.Store.AddDocuments: a `PointStruct` payload is treated as a
  snapshot of the dictionary at the time the point is built, not as an
  alias of the caller's dictionary. The same object passed twice therefore
  yields two payloads that differ in "text".
- VectorStore.Store.AddDocuments: when metadatas is shorter than the batch,
  the `IndexError` is modelled by stopping at position `len(metadatas)`,
  after the dictionaries before it have been stamped. Its error text is
  the plain `IndexError` text, since it is raised outside the `try`.
- VectorStore.TextOf: a payload "text" that is not a string is read as "".
- Weather.UnitSymbol: units "kelvin" (and any other value but "metric") are
  shown with "°F", as the code does, though the docstring lists kelvin as
  a unit.
- Router.CandidateWords: the "in " anchor also matches the end of a word
  such as "rain", so "Will it rain in Paris?" asks about the city "In"
  (`RouterExamples.RainInParisAsksIn`). The model keeps this behaviour.
