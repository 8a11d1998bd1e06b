/** The class definition that `get_schema` hands to the vector database when
    the retriever is initialised (askem/retriever/base.py:23-65). */
module Schema {
  import opened Wrappers

  /** The text vectoriser module every class and property is configured for. */
  const Vectorizer: string := "text2vec-transformers"

  /** One entry of "properties". `skip` is the
      `moduleConfig["text2vec-transformers"]["skip"]` setting, None when the
      property carries no moduleConfig at all. */
  datatype Property = Property(
    name: string,
    dataType: seq<string>,
    description: Option<string>,
    skip: Option<bool>)

  datatype ClassSchema = ClassSchema(
    className: string,
    description: string,
    vectorizer: string,
    vectorizeClassName: bool,
    vectorIndexDistance: string,
    properties: seq<Property>)

  /** A property left out of the vector: the vectoriser is told to skip it. */
  function Unvectorised(name: string, dataType: string, description: Option<string>): Property {
    Property(name, [dataType], description, Some(true))
  }

  function PropertyNames(s: ClassSchema): seq<string> {
    seq(|s.properties|, i requires 0 <= i < |s.properties| => s.properties[i].name)
  }

  /** `get_schema(class_name)`: every property except `text_content` is
      excluded from vectorisation, only `text_content` is embedded, and the
      class name is the parameter. */
  function GetSchema(className: string): (s: ClassSchema)
    ensures s.className == className
    ensures s.vectorizer == Vectorizer && !s.vectorizeClassName
    ensures forall i | 0 <= i < |s.properties| ::
      (s.properties[i].skip == Some(true) <==> s.properties[i].name != "text_content")
    ensures forall i | 0 <= i < |s.properties| ::
      (s.properties[i].skip == None <==> s.properties[i].name == "text_content")
    ensures exists i | 0 <= i < |s.properties| :: s.properties[i].name == "text_content"
    ensures forall i, j | 0 <= i < j < |s.properties| :: s.properties[i].name != s.properties[j].name
  {
    var props := [
      Unvectorised("paper_id", "text", None),
      Unvectorised("preprocessor_id", "text", None),
      Unvectorised("doc_type", "text", None),
      Unvectorised("cosmos_object_id", "text", None),
      Unvectorised("topic_list", "text[]", None),
      Unvectorised("hashed_text", "text", Some("SHA256 hash of text_content")),
      Property("text_content", ["text"], None, None)
    ];
    assert props[6].name == "text_content";
    ClassSchema(
      className,
      "Paragraph chunk of a document",
      Vectorizer,
      false,
      "dot",
      props)
  }

  /** The default class name of `get_schema`. */
  const DefaultClassName: string := "Passage"
}
