/** What `get_documents` does with the response the vector database returns
    (askem/retriever/base.py:205-219) and how one hit becomes a Document
    (`to_document`, askem/retriever/base.py:78-88). */
module Response {
  import opened Wrappers
  import opened PyJson

  /** A retrieved passage. Field values are passed through from the hit
      unchanged, so they stay JSON values here. */
  datatype Document = Document(
    paperId: Json,
    topic: Json,
    cosmosObjectId: Json,
    docType: Json,
    text: Json,
    distance: Json)

  /** The keys `to_document` reads from a hit, in the order it reads them. */
  const HitKeys: seq<string> :=
    ["paper_id", "topic", "cosmos_object_id", "doc_type", "text_content", "_additional"]

  /** A hit `to_document` accepts: a dict holding every key of HitKeys, whose
      "_additional" is a dict holding "distance". */
  predicate WellShapedHit(hit: Json) {
    && hit.JObject?
    && (forall k | k in HitKeys :: k in hit.fields)
    && hit.fields["_additional"].JObject?
    && "distance" in hit.fields["_additional"].fields
  }

  /** `to_document(result)`: the seven subscripts (six on the hit, then
      "distance" on "_additional") are evaluated in keyword order; the first
      that does not fit raises. On a well-shaped hit, paper_id,
      topic, cosmos_object_id and doc_type are copied unchanged, text_content
      becomes text and _additional.distance becomes distance. */
  function ToDocument(hit: Json): (r: Result<Document, PyError>)
    ensures r.Ok? <==> WellShapedHit(hit)
    ensures r.Ok? ==>
      && r.value.paperId == hit.fields["paper_id"]
      && r.value.topic == hit.fields["topic"]
      && r.value.cosmosObjectId == hit.fields["cosmos_object_id"]
      && r.value.docType == hit.fields["doc_type"]
      && r.value.text == hit.fields["text_content"]
      && r.value.distance == hit.fields["_additional"].fields["distance"]
    ensures !hit.JObject? ==> r == Err(TypeError)
    ensures forall i | 0 <= i < |HitKeys| ::
      (hit.JObject? && HitKeys[i] !in hit.fields && (forall j | 0 <= j < i :: HitKeys[j] in hit.fields))
        ==> r == Err(KeyError(HitKeys[i]))
    ensures (hit.JObject? && (forall k | k in HitKeys :: k in hit.fields) && !hit.fields["_additional"].JObject?)
      ==> r == Err(TypeError)
    ensures (hit.JObject? && (forall k | k in HitKeys :: k in hit.fields) && hit.fields["_additional"].JObject?
             && "distance" !in hit.fields["_additional"].fields)
      ==> r == Err(KeyError("distance"))
  {
    assert HitKeys[0] == "paper_id" && HitKeys[1] == "topic" && HitKeys[2] == "cosmos_object_id";
    assert HitKeys[3] == "doc_type" && HitKeys[4] == "text_content" && HitKeys[5] == "_additional";
    var paperId :- Subscript(hit, "paper_id");
    var topic :- Subscript(hit, "topic");
    var cosmosObjectId :- Subscript(hit, "cosmos_object_id");
    var docType :- Subscript(hit, "doc_type");
    var text :- Subscript(hit, "text_content");
    var additional :- Subscript(hit, "_additional");
    var distance :- Subscript(additional, "distance");
    Ok(Document(paperId, topic, cosmosObjectId, docType, text, distance))
  }

  /** The list comprehension `[to_document(result) for result in passages]`:
      it succeeds exactly when every hit converts, then keeps length and
      order; otherwise it raises what the first failing hit raises. */
  function ToDocuments(hits: seq<Json>): (r: Result<seq<Document>, PyError>)
    ensures r.Ok? <==> forall i | 0 <= i < |hits| :: ToDocument(hits[i]).Ok?
    ensures r.Ok? ==>
      && |r.value| == |hits|
      && forall i | 0 <= i < |hits| :: r.value[i] == ToDocument(hits[i]).value
    ensures r.Err? ==>
      exists i | 0 <= i < |hits| ::
        && ToDocument(hits[i]) == Err(r.error)
        && forall j | 0 <= j < i :: ToDocument(hits[j]).Ok?
  {
    if hits == [] then Ok([])
    else
      match ToDocument(hits[0])
      case Err(e) =>
        assert ToDocument(hits[0]) == Err(e);
        Err(e)
      case Ok(d) =>
        match ToDocuments(hits[1..])
        case Err(e) =>
          assert forall i | 1 <= i < |hits| :: hits[i] == hits[1..][i - 1];
          Err(e)
        case Ok(ds) =>
          assert forall i | 1 <= i < |hits| :: hits[i] == hits[1..][i - 1];
          Ok([d] + ds)
  }

  /** The `detail` of the HTTPException: the upstream errors for a 500, and
      for a 404 the message "No results found: " followed by the response. */
  datatype Detail = Errors(errors: Json) | NoResults(response: map<string, Json>)

  /** What `get_documents` raises: an HTTPException with a status code and a
      detail, or a Python exception from a subscript that did not fit. */
  datatype Failure =
    | HTTPException(statusCode: int, detail: Detail)
    | Raised(error: PyError)

  const ServerError: int := 500
  const NotFound: int := 404

  /** `response["data"]["Get"]["Passage"]` when every step of that path is a
      dict holding the next key; None when some step would raise. */
  function PassageAt(response: map<string, Json>): Option<Json> {
    if && "data" in response
       && response["data"].JObject? && "Get" in response["data"].fields
       && response["data"].fields["Get"].JObject? && "Passage" in response["data"].fields["Get"].fields
    then Some(response["data"].fields["Get"].fields["Passage"])
    else None
  }

  /** The passages of a response, or the exception the lookup raises. */
  function LookupPassage(data: Json): (r: Result<Json, PyError>)
    ensures !data.JObject? ==> r == Err(TypeError)
    ensures (data.JObject? && "Get" !in data.fields) ==> r == Err(KeyError("Get"))
    ensures (data.JObject? && "Get" in data.fields && !data.fields["Get"].JObject?) ==> r == Err(TypeError)
    ensures (data.JObject? && "Get" in data.fields && data.fields["Get"].JObject?
             && "Passage" !in data.fields["Get"].fields) ==> r == Err(KeyError("Passage"))
    ensures r.Ok? <==> PassageAt(map["data" := data]).Some?
    ensures r.Ok? ==> r.value == PassageAt(map["data" := data]).value
  {
    var get :- Subscript(data, "Get");
    Subscript(get, "Passage")
  }

  /** The response handling of `get_documents`. An "errors" entry is a 500
      carrying those errors, whatever else the response holds; otherwise a
      missing "data" or a falsy passage list is a 404; otherwise every passage
      becomes a Document, in order, and any exception a subscript raises on
      the way propagates unchanged. */
  function HandleResponse(response: map<string, Json>): (r: Result<seq<Document>, Failure>)
    ensures "errors" in response ==> r == Err(HTTPException(ServerError, Errors(response["errors"])))
    ensures "errors" !in response && "data" !in response ==> r == Err(HTTPException(NotFound, NoResults(response)))
    ensures "errors" !in response && PassageAt(response).Some? && !Truthy(PassageAt(response).value)
      ==> r == Err(HTTPException(NotFound, NoResults(response)))
    ensures "errors" !in response && "data" in response && PassageAt(response).None? ==> r.Err? && r.error.Raised?
    ensures r.Ok? <==>
      && "errors" !in response
      && PassageAt(response).Some? && PassageAt(response).value.JArray?
      && PassageAt(response).value.items != []
      && forall i | 0 <= i < |PassageAt(response).value.items| :: ToDocument(PassageAt(response).value.items[i]).Ok?
    ensures ("errors" !in response && "data" in response && PassageAt(response).None?)
      ==> LookupPassage(response["data"]).Err? && r == Err(Raised(LookupPassage(response["data"]).error))
    ensures ("errors" !in response && PassageAt(response).Some? && Truthy(PassageAt(response).value)
             && !PassageAt(response).value.JArray?)
      ==> r == Err(Raised(TypeError))
    ensures ("errors" !in response && PassageAt(response).Some? && PassageAt(response).value.JArray?
             && ToDocuments(PassageAt(response).value.items).Err?)
      ==> r == Err(Raised(ToDocuments(PassageAt(response).value.items).error))
    ensures (r.Err? && r.error.HTTPException?)
      ==> "errors" in response || "data" !in response || (PassageAt(response).Some? && !Truthy(PassageAt(response).value))
    ensures r.Ok? ==>
      var hits := PassageAt(response).value.items;
      && |r.value| == |hits|
      && forall i | 0 <= i < |hits| :: r.value[i] == ToDocument(hits[i]).value
  {
    if "errors" in response then
      Err(HTTPException(ServerError, Errors(response["errors"])))
    else if "data" !in response then
      Err(HTTPException(NotFound, NoResults(response)))
    else
      match LookupPassage(response["data"])
      case Err(e) => Err(Raised(e))
      case Ok(passage) =>
        if !Truthy(passage) then
          Err(HTTPException(NotFound, NoResults(response)))
        else
          match passage
          case JArray(hits) =>
            (match ToDocuments(hits)
             case Ok(docs) => Ok(docs)
             case Err(e) => Err(Raised(e)))
          // a truthy number or boolean has no len(), so the log message at
          // askem/retriever/base.py:216 already raises TypeError; a truthy dict or string
          // iterates to strings, which to_document cannot subscript by a
          // string key: TypeError as well
          case _ => Err(Raised(TypeError))
  }

  /** `to_document` reads nothing but HitKeys: any other key of the hit
      (preprocessor_id among them) leaves the result unchanged. */
  lemma ToDocumentIgnoresOtherKeys(fields: map<string, Json>, k: string, v: Json)
    requires k !in HitKeys
    ensures ToDocument(JObject(fields[k := v])) == ToDocument(JObject(fields))
  {
  }

  /** The hit the database returns for a stored document: the six properties
      `get_documents` asks for (preprocessor_id included), and the distance
      under "_additional". */
  function HitOf(d: Document, preprocessorId: Json): Json {
    JObject(map[
      "paper_id" := d.paperId,
      "cosmos_object_id" := d.cosmosObjectId,
      "preprocessor_id" := preprocessorId,
      "topic" := d.topic,
      "doc_type" := d.docType,
      "text_content" := d.text,
      "_additional" := JObject(map["distance" := d.distance])])
  }

  /** A successful response carrying the given hits. */
  function ResponseOf(hits: seq<Json>): map<string, Json> {
    map["data" := JObject(map["Get" := JObject(map["Passage" := JArray(hits)])])]
  }

  /** `to_document` inverts HitOf. */
  lemma ToDocumentOfHit(d: Document, preprocessorId: Json)
    ensures ToDocument(HitOf(d, preprocessorId)) == Ok(d)
  {
  }

  /** Round trip: a non-empty answer built from documents is handled back
      into exactly those documents, in the same order. */
  lemma HandleResponseOfDocuments(docs: seq<Document>, preprocessorIds: seq<Json>)
    requires docs != [] && |preprocessorIds| == |docs|
    ensures HandleResponse(ResponseOf(seq(|docs|, i requires 0 <= i < |docs| => HitOf(docs[i], preprocessorIds[i])))) == Ok(docs)
  {
    var hits := seq(|docs|, i requires 0 <= i < |docs| => HitOf(docs[i], preprocessorIds[i]));
    forall i | 0 <= i < |hits|
      ensures ToDocument(hits[i]) == Ok(docs[i])
    {
      ToDocumentOfHit(docs[i], preprocessorIds[i]);
    }
    assert PassageAt(ResponseOf(hits)) == Some(JArray(hits));
    var r := HandleResponse(ResponseOf(hits));
    assert r.Ok?;
    assert r.value == docs;
  }
}
