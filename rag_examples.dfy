/** The two retrieval cases of the RAG service's tests, worked through the model. */
module RagExamples {
  import opened Wrappers
  import opened Values
  import opened Text
  import opened VectorStore
  import opened Rag

  const Question := "What is AI?"

  const AiDocument := SearchResult("This is a test document about AI.", map["source" := VStr("test.pdf")], 0.95)

  const AiReply := "Based on the document, AI is a test topic."

  lemma CouldNotFindAtTwo() ensures NoInfoText[2..15] == "couldn't find" {
    assert ("I " + "couldn't find")[2..] == "couldn't find";
  }

  lemma LoweredNoInfoSaysCouldNotFind() ensures Contains(Lower(NoInfoText), "couldn't find") {
    CouldNotFindAtTwo();
    LowerKeepsRun(NoInfoText, 2, "couldn't find");
    MatchAtContains(Lower(NoInfoText), "couldn't find", 2);
  }

  /** Nothing retrieved: the answer says "couldn't find" once lower-cased, and there are no sources. */
  lemma NoResultsCouldNotFind(llm: (string, string) -> Result<string, string>)
    ensures var r := Respond(Success([]), Question, llm);
      r.Success? && Contains(Lower(r.value.answer), "couldn't find") && r.value.sources == []
  {
    LoweredNoInfoSaysCouldNotFind();
  }

  /** One chunk retrieved: the model is asked with that chunk's text alone, and the answer carries its source. */
  lemma OneResultGivesItsSource(llm: (string, string) -> Result<string, string>)
    requires llm(AiDocument.text, Question) == Success(AiReply)
    ensures var r := Respond(Success([AiDocument]), Question, llm);
      r.Success? && r.value.answer == AiReply && r.value.sources == [map["source" := VStr("test.pdf")]]
  {
    ContextOfOne(AiDocument);
  }
}
