/** `get_documents` as a whole (askem/retriever/base.py:91-219): the request
    it sends and what it makes of the response. The database call in between
    is not modelled; the response it returned is an input. */
module Retriever {
  import opened Wrappers
  import opened PyJson
  import opened Schema
  import opened Query
  import opened Response

  /** `get_documents(client, question, ...)`: `request` is what the query
      builder sends, `outcome` is the list of Documents it returns or the
      exception it raises for `response`. */
  method GetDocuments(a: QueryArgs, response: map<string, Json>)
    returns (request: QueryRequest, outcome: Result<seq<Document>, Failure>)
    ensures RequestFor(a, request)
    ensures outcome == HandleResponse(response)
  {
    request := BuildQuery(a);
    outcome := HandleResponse(response);
  }

  /** With every keyword argument at its default the request carries no
      where clause, a near-text query of the question alone, and a limit of
      five. */
  lemma DefaultRequest(question: string, req: QueryRequest)
    requires RequestFor(DefaultArgs(question), req)
    ensures req.where == None
    ensures req.nearText == Some(map["concepts" := Concepts([question])])
    ensures req.limit == Some(5)
  {
    NearTextForUnique(DefaultArgs(question), req.nearText.value, map["concepts" := Concepts([question])]);
  }

  /** Every key `to_document` reads is asked for by the request: the five
      properties among the output fields and the distance among the
      additional fields. */
  lemma RequestAsksForDocumentFields(a: QueryArgs, req: QueryRequest)
    requires RequestFor(a, req)
    ensures forall k | k in HitKeys :: k in req.properties || (k == "_additional" && "distance" in req.additional)
  {
  }

  /** The topic filter and the topic output field use the name "topic", which
      the schema does not declare: its property is "topic_list". Every other
      output field is a schema property. */
  lemma TopicFieldNotInSchema(a: QueryArgs)
    requires a.topic.Some?
    ensures FilterOperands(a)[0].path == ["topic"]
    ensures "topic" !in PropertyNames(GetSchema(DefaultClassName))
    ensures "topic_list" in PropertyNames(GetSchema(DefaultClassName))
    ensures forall f | f in OutputFields :: f in PropertyNames(GetSchema(DefaultClassName)) <==> f != "topic"
  {
    OperandPositions(a);
    var names := PropertyNames(GetSchema(DefaultClassName));
    assert names == ["paper_id", "preprocessor_id", "doc_type", "cosmos_object_id", "topic_list", "hashed_text", "text_content"];
  }
}
