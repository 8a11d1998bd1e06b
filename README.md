# askem retriever: request assembly and response handling

This project models the retriever of the askem retrieval-augmented-generation
helper (`askem/retriever/base.py`). It covers three pieces of that file:

- `get_documents`. It builds a query against the vector database's "Passage" class: a where-filter, a
  near-text query and a result limit. Then it classifies the database's answer into an
  upstream error (HTTP 500), no results (HTTP 404) or a list of Documents.
- `to_document`. It turns one search hit into a Document.
- `get_schema`. It returns the class definition that tells the vectoriser which properties to embed.

The client's builder chain (`query.get(...).with_additional(...).with_where(...)
.with_near_text(...).with_limit(...)`) becomes a `QueryRequest` value that is
rebuilt at each step. The network call `.do()` is not modelled: the response
it returned is an input to `GetDocuments` and `HandleResponse`.

Modules:

- `Wrappers` (wrappers.dfy): `Option` and `Result`.
- `PyJson` (pyjson.dfy): JSON values as Python holds them. It defines Python truthiness and `v[key]`,
  which raises `KeyError` or `TypeError`.
- `Schema` (schema.dfy): `get_schema`.
- `Query` (query.dfy): the where-filter, the near-text query and the request. `BuildWhereFilter` and
  `BuildNearText` are methods that grow the filter's operand list and the
  near-text dictionary step by step, as the source does. Each is proved against a
  specification (`FilterOperands`, `NearTextFor`).
- `Response` (response.dfy): `to_document`, the list comprehension and the 500 / 404 / success
  classification.
- `Retriever` (retriever.dfy): `get_documents` as a whole.

The response is modelled as JSON, not as a fixed record. This keeps the
exceptions that the source's subscripts raise on a malformed answer (for
example a hit without `"topic"`, or `"data"` without `"Get"`). These appear as
`Raised(KeyError(k))` / `Raised(TypeError)` beside the two HTTP exceptions.

The model keeps one quirk of the source as written. The topic filter and the
`topic` output field use the name `"topic"` (askem/retriever/base.py:126,141).
The schema declares the property `"topic_list"` (askem/retriever/base.py:53).
`Retriever.TopicFieldNotInSchema` states this.

A `paper_ids` argument that is an empty list still adds a `ContainsAny` operand,
because the source tests `is not None`. A `distance` of 0.0 is still sent, for
the same reason. The model keeps both behaviours.

## Model

| member | source | states |
|---|---|---|
| `Schema.GetSchema` | askem/retriever/base.py:23-65 | the class name is the parameter; the vectoriser is text2vec-transformers and does not vectorise the class name; every property except `text_content` has `skip: True`, `text_content` has no moduleConfig and is present; property names are distinct |
| `Query.BuildWhereFilter` | askem/retriever/base.py:135-173 | the filter built by successive appends has operator "And" and exactly the operands `FilterOperands(a)`: one per non-None filter argument, in the fixed order topic, doc_type, preprocessor_id, paper_ids |
| `Query.PresentLength` | askem/retriever/base.py:135-173 | keeping the present optional entries keeps exactly one element per present entry |
| `Query.PresentAt` | askem/retriever/base.py:135-173 | keeping the present entries preserves their order: entry i lands at the index equal to the number of present entries before it |
| `Query.OperandCount` | askem/retriever/base.py:135-176 | the number of operands equals the number of supplied filter arguments, and the operand list is non-empty iff at least one filter argument is non-None |
| `Query.OperandPositions` | askem/retriever/base.py:138-172 | topic, doc_type and preprocessor_id each give an "Equal" operand on their own field name with the argument as valueText; paper_ids gives "ContainsAny" on `paper_id` with the whole list; each sits at the position fixed by the earlier supplied filters |
| `Query.BuildNearText` | askem/retriever/base.py:180-198 | `concepts` is always `[question]`; `distance`, `moveTo`, `moveAwayFrom` are present iff their argument is not None, and then hold the distance, and `{concepts: [move_to], force: move_to_weight}` / `{concepts: [move_away_from], force: move_away_from_weight}`; each key depends on its own arguments only; no other key appears |
| `Query.NearTextForUnique` | askem/retriever/base.py:180-198 | the near-text specification determines the dictionary completely |
| `Query.BuildQuery` | askem/retriever/base.py:122-203 | the request targets "Passage" with the six output fields and the additional `distance`; a where clause is attached iff some filter argument is non-None, and then it is the "And" filter with one operand per supplied filter; the near-text query is attached; the limit is top_k |
| `Query.RequestForUnique` | askem/retriever/base.py:122-203 | the request specification admits exactly one request per argument list |
| `Response.ToDocument` | askem/retriever/base.py:78-88 | succeeds iff the hit is a dict with the six keys and an `_additional` dict holding `distance`; then paper_id, topic, cosmos_object_id and doc_type are copied, text_content becomes text and `_additional.distance` becomes distance; a non-dict hit raises TypeError; otherwise the first missing key of the six, in keyword order, raises KeyError; with all six present, an `_additional` that is not a dict raises TypeError and one without `distance` raises KeyError("distance") |
| `Response.ToDocumentIgnoresOtherKeys` | askem/retriever/base.py:81-88 | keys other than the six read (preprocessor_id among them) do not affect the Document: preprocessor_id is dropped |
| `Response.ToDocumentOfHit` | askem/retriever/base.py:78-88 | `to_document` inverts the hit shape that the query asks for |
| `Response.LookupPassage` | askem/retriever/base.py:211 | `data["Get"]["Passage"]` raises TypeError when `data` or its Get entry is not a dict, KeyError("Get") when `data` lacks Get, KeyError("Passage") when Get lacks Passage |
| `Response.ToDocuments` | askem/retriever/base.py:219 | the comprehension succeeds iff every hit converts, and then keeps length and order, element i being the Document of hit i; otherwise it raises what the first failing hit raises |
| `Response.HandleResponse` | askem/retriever/base.py:208-219 | an `errors` entry gives a 500 carrying those errors, whatever else is present; otherwise a missing `data` or a falsy `data.Get.Passage` gives a 404; otherwise the raised exception propagates: the KeyError or TypeError of a broken Get/Passage path, a TypeError for a truthy Passage that is not a list, the first failing hit's exception from `to_document`; an HTTP exception occurs only in the 500/404 cases; success iff there are no errors, Passage is a non-empty list and every hit converts, and then the Documents match the hits one for one, in order |
| `Response.HandleResponseOfDocuments` | askem/retriever/base.py:208-219 | round trip: a non-empty answer built from Documents is handled back into exactly those Documents |
| `Retriever.GetDocuments` | askem/retriever/base.py:91-219 | the request sent satisfies the request specification for the arguments, and the outcome is the response handling of the answer |
| `Retriever.DefaultRequest` | askem/retriever/base.py:91-103 | with default arguments: no where clause, a near-text query holding only the question, limit 5 |
| `Retriever.RequestAsksForDocumentFields` | askem/retriever/base.py:122-132 | every key `to_document` reads is requested: five as output fields, the distance as an additional field |
| `Retriever.TopicFieldNotInSchema` | askem/retriever/base.py:138-142 | the topic filter's path is `["topic"]`, which is not a schema property (the schema declares `topic_list`); every other output field is a schema property |

## Left out

- `get_client` and `init_retriever` (askem/retriever/base.py:10-20, 68-75): environment-variable lookup, connecting to the database and creating the class remotely are I/O.
- The database call `.do()` (askem/retriever/base.py:203): the response is a parameter. The model does not relate the response to the request.
- Logging calls in `get_documents`: they have no observable effect on the result. The message at askem/retriever/base.py:216 calls `len` on the passages and can raise, but only for a truthy number or boolean, where the comprehension would raise the same TypeError.
- `HTTPException` is modelled as a status code and a detail. FastAPI's exception type is not modelled.
- Response.HandleResponse: the 404 detail is the message "No results found: " followed by Python's rendering of the response. The model carries the response itself (`NoResults(response)`) and not its string rendering.
- `Document` comes from `data_models`, which is not part of this model. Its fields carry the hit's JSON values unchanged; any type validation that `data_models.Document` performs is not modelled.
- Distances and weights are real numbers passed through unchanged. Floating point is not modelled, because nothing computes on these values.
- The default argument `class_name="Passage"` of `get_schema` is the constant `Schema.DefaultClassName`.
- All of `backend.py`: chat-completion calls to a hosted API, thread-pool fan-out, tensor pooling and dot products, local model loading and generation, and the prompt templates. These are foreign calls, concurrency and floating-point numerics.
