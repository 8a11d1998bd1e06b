/** The request `get_documents` assembles before it calls the vector database
    (askem/retriever/base.py:91-203): the where-filter, the near-text query and
    the result limit, attached to a query on the "Passage" class. The client's
    builder chain is modelled as a QueryRequest value that is rebuilt at each
    step; the network call itself is not part of this module. */
module Query {
  import opened Wrappers

  /** The arguments of `get_documents` that shape the request. Distances and
      weights are opaque pass-through numbers: nothing computes on them. */
  datatype QueryArgs = QueryArgs(
    question: string,
    topK: int,
    distance: Option<real>,
    topic: Option<string>,
    docType: Option<string>,
    preprocessorId: Option<string>,
    paperIds: Option<seq<string>>,
    moveTo: Option<string>,
    moveToWeight: Option<real>,
    moveAwayFrom: Option<string>,
    moveAwayFromWeight: Option<real>)

  /** The call `get_documents(client, question)` with every keyword argument
      left at its default. */
  function DefaultArgs(question: string): QueryArgs {
    QueryArgs(question, 5, None, None, None, None, None, None, Some(1.0), None, Some(1.0))
  }

  // ---------------------------------------------------------------------------
  // Where-filter

  /** `valueText` holds a single string for "Equal" and the whole list for "ContainsAny". */
  datatype FilterValue = Text(text: string) | TextList(texts: seq<string>)

  datatype Operand = Operand(path: seq<string>, operator: string, valueText: FilterValue)

  datatype WhereFilter = WhereFilter(operator: string, operands: seq<Operand>)

  function EqualOperand(field: string, value: string): Operand {
    Operand([field], "Equal", Text(value))
  }

  function ContainsAnyOperand(field: string, values: seq<string>): Operand {
    Operand([field], "ContainsAny", TextList(values))
  }

  /** The operand each optional filter argument contributes, in the order the
      source tests them; None where the argument is None. The topic operand
      filters on the path "topic" (not the schema's "topic_list"). */
  function FilterSlots(a: QueryArgs): seq<Option<Operand>> {
    [ if a.topic.Some? then Some(EqualOperand("topic", a.topic.value)) else None,
      if a.docType.Some? then Some(EqualOperand("doc_type", a.docType.value)) else None,
      if a.preprocessorId.Some? then Some(EqualOperand("preprocessor_id", a.preprocessorId.value)) else None,
      if a.paperIds.Some? then Some(ContainsAnyOperand("paper_id", a.paperIds.value)) else None ]
  }

  /** The values of the present slots, in order. */
  function Present<T>(slots: seq<Option<T>>): seq<T> {
    if slots == [] then []
    else (if slots[0].Some? then [slots[0].value] else []) + Present(slots[1..])
  }

  /** How many slots hold a value. */
  function CountPresent<T>(slots: seq<Option<T>>): nat {
    |set i | 0 <= i < |slots| && slots[i].Some?|
  }

  /** The operands of the "And" filter. */
  function FilterOperands(a: QueryArgs): seq<Operand> {
    Present(FilterSlots(a))
  }

  function Flag(b: bool): nat {
    if b then 1 else 0
  }

  /** How many of the four filter arguments were supplied. */
  function FilterCount(a: QueryArgs): nat {
    Flag(a.topic.Some?) + Flag(a.docType.Some?) + Flag(a.preprocessorId.Some?) + Flag(a.paperIds.Some?)
  }

  predicate AnyFilter(a: QueryArgs) {
    a.topic.Some? || a.docType.Some? || a.preprocessorId.Some? || a.paperIds.Some?
  }

  lemma {:induction false} PresentSnoc<T>(slots: seq<Option<T>>, x: Option<T>)
    ensures Present(slots + [x]) == Present(slots) + (if x.Some? then [x.value] else [])
  {
    var s := slots + [x];
    if slots == [] {
      assert s == [x] && s[1..] == [];
    } else {
      assert s[0] == slots[0] && s[1..] == slots[1..] + [x];
      PresentSnoc(slots[1..], x);
      calc {
        Present(s);
        (if slots[0].Some? then [slots[0].value] else []) + Present(slots[1..] + [x]);
        (if slots[0].Some? then [slots[0].value] else []) + (Present(slots[1..]) + (if x.Some? then [x.value] else []));
      }
    }
  }

  /** Counting the present slots one slot at a time. */
  lemma CountPresentSnoc<T>(slots: seq<Option<T>>, x: Option<T>)
    ensures CountPresent(slots + [x]) == CountPresent(slots) + Flag(x.Some?)
  {
    var s := slots + [x];
    var before := set i | 0 <= i < |slots| && slots[i].Some?;
    var after := set i | 0 <= i < |s| && s[i].Some?;
    if x.Some? {
      assert after == before + {|slots|};
    } else {
      assert after == before;
    }
  }

  /** Present keeps exactly one element per present slot. */
  lemma {:induction false} PresentLength<T>(slots: seq<Option<T>>)
    ensures |Present(slots)| == CountPresent(slots)
    decreases |slots|
  {
    if slots == [] {
    } else {
      var init, last := slots[..|slots| - 1], slots[|slots| - 1];
      assert slots == init + [last];
      PresentLength(init);
      PresentSnoc(init, last);
      CountPresentSnoc(init, last);
    }
  }

  /** Present keeps the order of the slots: the value of slot i lands at the
      position given by the number of present slots before it. */
  lemma {:induction false} PresentAt<T>(slots: seq<Option<T>>, i: nat)
    requires i < |slots| && slots[i].Some?
    ensures CountPresent(slots[..i]) < |Present(slots)|
    ensures Present(slots)[CountPresent(slots[..i])] == slots[i].value
    decreases |slots|
  {
    var init, last := slots[..|slots| - 1], slots[|slots| - 1];
    assert slots == init + [last];
    PresentSnoc(init, last);
    PresentLength(init);
    if i == |slots| - 1 {
      assert slots[..i] == init;
    } else {
      assert slots[..i] == init[..i];
      PresentAt(init, i);
    }
  }

  /** The where-filter has one operand per supplied filter argument. */
  lemma OperandCount(a: QueryArgs)
    ensures |FilterOperands(a)| == FilterCount(a)
    ensures FilterOperands(a) != [] <==> AnyFilter(a)
  {
    var s := FilterSlots(a);
    PresentLength(s);
    CountPresentSnoc(s[..3], s[3]);
    CountPresentSnoc(s[..2], s[2]);
    CountPresentSnoc(s[..1], s[1]);
    CountPresentSnoc([], s[0]);
    assert s[..3] + [s[3]] == s;
    assert s[..2] + [s[2]] == s[..3];
    assert s[..1] + [s[1]] == s[..2];
    assert [] + [s[0]] == s[..1];
  }

  /** Each supplied filter argument yields its operand, in the fixed order
      topic, doc_type, preprocessor_id, paper_ids: topic, doc_type and
      preprocessor_id as "Equal" on their own field name with the argument as
      valueText, paper_ids as "ContainsAny" on paper_id with the whole list. */
  lemma OperandPositions(a: QueryArgs)
    ensures a.topic.Some? ==>
      |FilterOperands(a)| > 0 && FilterOperands(a)[0] == EqualOperand("topic", a.topic.value)
    ensures a.docType.Some? ==>
      var k := Flag(a.topic.Some?);
      k < |FilterOperands(a)| && FilterOperands(a)[k] == EqualOperand("doc_type", a.docType.value)
    ensures a.preprocessorId.Some? ==>
      var k := Flag(a.topic.Some?) + Flag(a.docType.Some?);
      k < |FilterOperands(a)| && FilterOperands(a)[k] == EqualOperand("preprocessor_id", a.preprocessorId.value)
    ensures a.paperIds.Some? ==>
      var k := FilterCount(a) - 1;
      0 <= k < |FilterOperands(a)| && FilterOperands(a)[k] == ContainsAnyOperand("paper_id", a.paperIds.value)
  {
    var s := FilterSlots(a);
    OperandCount(a);
    CountPresentSnoc(s[..2], s[2]);
    CountPresentSnoc(s[..1], s[1]);
    CountPresentSnoc([], s[0]);
    assert s[..2] + [s[2]] == s[..3];
    assert s[..1] + [s[1]] == s[..2];
    assert [] + [s[0]] == s[..1];
    if a.topic.Some? { PresentAt(s, 0); assert s[..0] == []; }
    if a.docType.Some? { PresentAt(s, 1); }
    if a.preprocessorId.Some? { PresentAt(s, 2); }
    if a.paperIds.Some? { PresentAt(s, 3); }
  }

  /** `where_filter` as the source builds it: an "And" filter whose operand
      list grows by one append per supplied filter argument. */
  method BuildWhereFilter(a: QueryArgs) returns (whereFilter: WhereFilter)
    ensures whereFilter.operator == "And"
    ensures whereFilter.operands == FilterOperands(a)
  {
    ghost var slots := FilterSlots(a);
    whereFilter := WhereFilter("And", []);
    assert slots[..0] == [];

    if a.topic.Some? {
      whereFilter := whereFilter.(operands := whereFilter.operands + [EqualOperand("topic", a.topic.value)]);
    }
    PresentSnoc(slots[..0], slots[0]);
    assert slots[..0] + [slots[0]] == slots[..1];

    if a.docType.Some? {
      whereFilter := whereFilter.(operands := whereFilter.operands + [EqualOperand("doc_type", a.docType.value)]);
    }
    PresentSnoc(slots[..1], slots[1]);
    assert slots[..1] + [slots[1]] == slots[..2];

    if a.preprocessorId.Some? {
      whereFilter := whereFilter.(operands := whereFilter.operands + [EqualOperand("preprocessor_id", a.preprocessorId.value)]);
    }
    PresentSnoc(slots[..2], slots[2]);
    assert slots[..2] + [slots[2]] == slots[..3];

    if a.paperIds.Some? {
      whereFilter := whereFilter.(operands := whereFilter.operands + [ContainsAnyOperand("paper_id", a.paperIds.value)]);
    }
    PresentSnoc(slots[..3], slots[3]);
    assert slots[..3] + [slots[3]] == slots;
  }

  // ---------------------------------------------------------------------------
  // Near-text query

  /** A value of the near-text dictionary: the list under "concepts", the
      number under "distance", or the {concepts, force} record under "moveTo"
      and "moveAwayFrom". */
  datatype NearTextValue =
    | Concepts(concepts: seq<string>)
    | Distance(distance: real)
    | Move(moveConcepts: seq<string>, force: Option<real>)

  type NearText = map<string, NearTextValue>

  /** The near-text query asked for by `a`: "concepts" always holds the
      question; "distance", "moveTo" and "moveAwayFrom" are present exactly
      when their argument is, each fixed by its own arguments alone. */
  predicate NearTextFor(a: QueryArgs, q: NearText) {
    && q.Keys == {"concepts"}
                 + (if a.distance.Some? then {"distance"} else {})
                 + (if a.moveTo.Some? then {"moveTo"} else {})
                 + (if a.moveAwayFrom.Some? then {"moveAwayFrom"} else {})
    && q["concepts"] == Concepts([a.question])
    && (a.distance.Some? ==> q["distance"] == Distance(a.distance.value))
    && (a.moveTo.Some? ==> q["moveTo"] == Move([a.moveTo.value], a.moveToWeight))
    && (a.moveAwayFrom.Some? ==> q["moveAwayFrom"] == Move([a.moveAwayFrom.value], a.moveAwayFromWeight))
  }

  /** NearTextFor leaves nothing open: it determines the query. */
  lemma NearTextForUnique(a: QueryArgs, q1: NearText, q2: NearText)
    requires NearTextFor(a, q1) && NearTextFor(a, q2)
    ensures q1 == q2
  {
  }

  /** `near_text_query` as the source builds it, one key at a time. */
  method BuildNearText(a: QueryArgs) returns (q: NearText)
    ensures "concepts" in q && q["concepts"] == Concepts([a.question])
    ensures "distance" in q <==> a.distance.Some?
    ensures "moveTo" in q <==> a.moveTo.Some?
    ensures "moveAwayFrom" in q <==> a.moveAwayFrom.Some?
    ensures a.distance.Some? ==> q["distance"] == Distance(a.distance.value)
    ensures a.moveTo.Some? ==> q["moveTo"] == Move([a.moveTo.value], a.moveToWeight)
    ensures a.moveAwayFrom.Some? ==> q["moveAwayFrom"] == Move([a.moveAwayFrom.value], a.moveAwayFromWeight)
    ensures NearTextFor(a, q)
  {
    q := map["concepts" := Concepts([a.question])];

    if a.distance.Some? {
      q := q["distance" := Distance(a.distance.value)];
    }

    if a.moveTo.Some? {
      q := q["moveTo" := Move([a.moveTo.value], a.moveToWeight)];
    }

    if a.moveAwayFrom.Some? {
      q := q["moveAwayFrom" := Move([a.moveAwayFrom.value], a.moveAwayFromWeight)];
    }
  }

  // ---------------------------------------------------------------------------
  // The request

  /** The fields `get_documents` asks back for every passage. */
  const OutputFields: seq<string> :=
    ["paper_id", "cosmos_object_id", "preprocessor_id", "topic", "doc_type", "text_content"]

  /** The state of the client's query builder: the class and fields of
      `query.get`, the `with_additional` fields, and what `with_where`,
      `with_near_text` and `with_limit` attached (None until attached). */
  datatype QueryRequest = QueryRequest(
    className: string,
    properties: seq<string>,
    additional: seq<string>,
    where: Option<WhereFilter>,
    nearText: Option<NearText>,
    limit: Option<int>)

  /** The request `get_documents` sends for the arguments `a`. */
  predicate RequestFor(a: QueryArgs, req: QueryRequest) {
    && req.className == "Passage"
    && req.properties == OutputFields
    && req.additional == ["distance"]
    && (req.where.Some? <==> AnyFilter(a))
    && (req.where.Some? ==> req.where.value == WhereFilter("And", FilterOperands(a)))
    && req.nearText.Some? && NearTextFor(a, req.nearText.value)
    && req.limit == Some(a.topK)
  }

  /** The query-building half of `get_documents`: it targets "Passage" with
      the six output fields plus the distance, attaches the where-filter only
      when it has an operand, always attaches the near-text query, and limits
      the results to top_k. */
  method BuildQuery(a: QueryArgs) returns (req: QueryRequest)
    ensures req.className == "Passage" && req.properties == OutputFields && req.additional == ["distance"]
    ensures req.where.Some? <==> AnyFilter(a)
    ensures req.where.Some? ==> req.where.value.operator == "And" && |req.where.value.operands| == FilterCount(a)
    ensures req.limit == Some(a.topK)
    ensures RequestFor(a, req)
  {
    req := QueryRequest("Passage", OutputFields, ["distance"], None, None, None);

    var whereFilter := BuildWhereFilter(a);
    OperandCount(a);
    if |whereFilter.operands| > 0 {
      req := req.(where := Some(whereFilter));
    }

    var nearText := BuildNearText(a);
    req := req.(nearText := Some(nearText));

    req := req.(limit := Some(a.topK));
  }

  /** The request built from `a` is the only one RequestFor admits. */
  lemma RequestForUnique(a: QueryArgs, r1: QueryRequest, r2: QueryRequest)
    requires RequestFor(a, r1) && RequestFor(a, r2)
    ensures r1 == r2
  {
    NearTextForUnique(a, r1.nearText.value, r2.nearText.value);
  }
}
