/**
 * The retrieval-augmented answer of `RAGService.query`: retrieve the closest
 * chunks from the vector store, join their texts into one context, and ask the
 * language model, which is an opaque function of the context and the question.
 */
module Rag {
  import opened Wrappers
  import opened Values
  import opened Text
  import opened VectorStore

  // in pieces, with the phrase callers look for standing apart
  const NoInfoText := "I " + "couldn't find" + " any relevant information in the documents to answer your question."
  const ContextSeparator := "\n\n---\n\n"
  const DefaultTopK := 3

  /** The dictionary `query` returns: `answer`, `sources` and `retrieved_chunks`. */
  datatype Answer = Answer(answer: string, sources: seq<Dict>, retrievedChunks: seq<SearchResult>)

  /** What the prompt template is filled with. */
  datatype Prompt = Prompt(context: string, question: string)

  const NoInfoAnswer := Answer(NoInfoText, [], [])

  /** The texts of the retrieved chunks, in retrieval order. */
  function TextsOf(docs: seq<SearchResult>): (ts: seq<string>)
    ensures |ts| == |docs|
    ensures forall i :: 0 <= i < |docs| ==> ts[i] == docs[i].text
  {
    seq(|docs|, i requires 0 <= i < |docs| => docs[i].text)
  }

  /** `"\n\n---\n\n".join(context_parts)` */
  function Context(docs: seq<SearchResult>): string {
    Join(TextsOf(docs), ContextSeparator)
  }

  /** `[doc["metadata"] for doc in retrieved_docs]` */
  function Sources(docs: seq<SearchResult>): (ss: seq<Dict>)
    ensures |ss| == |docs|
    ensures forall i :: 0 <= i < |docs| ==> ss[i] == docs[i].metadata
  {
    seq(|docs|, i requires 0 <= i < |docs| => docs[i].metadata)
  }

  /** Every retrieved text appears verbatim in the context. */
  lemma ContextHoldsEveryText(docs: seq<SearchResult>, i: nat)
    requires i < |docs|
    ensures Contains(Context(docs), docs[i].text)
  {
    JoinContainsPart(TextsOf(docs), ContextSeparator, i);
  }

  /** The context starts with the text of the best hit. */
  lemma ContextStartsWithFirstText(docs: seq<SearchResult>)
    requires |docs| > 0
    ensures |docs[0].text| <= |Context(docs)| && Context(docs)[..|docs[0].text|] == docs[0].text
  {
    JoinStartsWithFirst(TextsOf(docs), ContextSeparator);
  }

  /** One retrieved chunk: the context is its text alone, with no separator. */
  lemma ContextOfOne(d: SearchResult)
    ensures Context([d]) == d.text
  {
    assert TextsOf([d]) == [d.text];
  }

  /** A further chunk adds the separator and its text at the end: texts stay in retrieval order. */
  lemma ContextExtends(docs: seq<SearchResult>, d: SearchResult)
    requires |docs| > 0
    ensures Context(docs + [d]) == Context(docs) + ContextSeparator + d.text
  {
    assert TextsOf(docs + [d]) == TextsOf(docs) + [d.text];
    JoinSnoc(TextsOf(docs), d.text, ContextSeparator);
  }

  /**
   * The answer `query` gives once the search has come back with `found`: the
   * fixed answer for an empty retrieval, otherwise the model's content with the
   * sources and chunks in retrieval order. A failure is the text of the
   * exception that escapes, from the search or from the model.
   */
  function Respond(found: Result<seq<SearchResult>, string>, question: string, llm: (string, string) -> Result<string, string>): (r: Result<Answer, string>)
    ensures found.Failure? ==> r == Failure(found.error)
    ensures found == Success([]) ==> r == Success(NoInfoAnswer)
    ensures found.Success? && found.value != [] ==>
      var reply := llm(Context(found.value), question);
      && (reply.Failure? ==> r == Failure(reply.error))
      && (reply.Success? ==>
            r.Success? && r.value.answer == reply.value &&
            r.value.sources == Sources(found.value) && r.value.retrievedChunks == found.value)
  {
    var docs :- found;
    if docs == [] then Success(NoInfoAnswer)
    else
      var answer :- llm(Context(docs), question);
      Success(Answer(answer, Sources(docs), docs))
  }

  class RagService {
    const store: Store
    /** The prompt template piped into the chat model: the answer's content, or the text of the exception raised. */
    const llm: (string, string) -> Result<string, string>
    /** Every prompt sent to the model, in order. */
    ghost var prompts: seq<Prompt>

    constructor (store: Store, llm: (string, string) -> Result<string, string>)
      ensures this.store == store && this.llm == llm && prompts == []
    {
      this.store := store;
      this.llm := llm;
      prompts := [];
    }

    /** The loop that collects `doc["text"]` for every retrieved chunk. */
    method ContextParts(docs: seq<SearchResult>) returns (parts: seq<string>)
      ensures |parts| == |docs|
      ensures forall i :: 0 <= i < |docs| ==> parts[i] == docs[i].text
    {
      parts := [];
      for i := 0 to |docs|
        invariant |parts| == i
        invariant forall j :: 0 <= j < i ==> parts[j] == docs[j].text
      {
        parts := parts + [docs[i].text];
      }
    }

    /**
     * `query(question, top_k)`. A failure is the text of the exception that
     * escapes: from the search, or from the model.
     */
    method Query(question: string, topK: int := DefaultTopK) returns (r: Result<Answer, string>)
      modifies store`calls, this`prompts
      ensures store.points == old(store.points)
      // exactly one search, with the question and `top_k`
      ensures store.calls == old(store.calls) + SearchCalls(store.backend, question, topK)
      ensures r == Respond(SearchOutcome(store.backend, store.points, question, topK), question, llm)
      // the model is asked once, with the joined context, and only when something was retrieved
      ensures var found := SearchOutcome(store.backend, store.points, question, topK);
        prompts == if found.Success? && found.value != [] then old(prompts) + [Prompt(Context(found.value), question)] else old(prompts)
    {
      var docs :- store.Search(question, topK);
      if docs == [] {
        return Success(NoInfoAnswer);
      }
      var parts := ContextParts(docs);
      assert parts == TextsOf(docs);
      var context := Join(parts, ContextSeparator);
      prompts := prompts + [Prompt(context, question)];
      var answer :- llm(context, question);
      r := Success(Answer(answer, Sources(docs), docs));
    }
  }
}
