/**
 * The Gemini function-calling schema (`com.google.genai.types.Schema`), restricted to the
 * four fields the generator sets, and its builder.
 */
module GenAiSchema {
  import opened Wrappers

  /** `Type.Known`: the schema kinds the generator produces. */
  datatype Type = STRING | INTEGER | NUMBER | BOOLEAN | ARRAY | OBJECT

  /** A schema node; each field is unset (`None`) unless the builder set it. */
  datatype Schema = Schema(
    kind: Option<Type>,
    description: Option<string>,
    properties: Option<map<string, Schema>>,
    items: Option<Schema>)

  /** `Schema.builder()`: a mutable object whose setters fill in one field each. */
  class SchemaBuilder {
    var kind: Option<Type>
    var description: Option<string>
    var properties: Option<map<string, Schema>>
    var items: Option<Schema>

    /** The schema `build()` would return now. */
    function Build(): Schema
      reads this
    {
      Schema(kind, description, properties, items)
    }

    constructor ()
      ensures Build() == Schema(None, None, None, None)
    {
      kind, description, properties, items := None, None, None, None;
    }

    method SetType(t: Type)
      modifies this
      ensures Build() == old(Build()).(kind := Some(t))
    {
      kind := Some(t);
    }

    method SetDescription(d: string)
      modifies this
      ensures Build() == old(Build()).(description := Some(d))
    {
      description := Some(d);
    }

    method SetProperties(p: map<string, Schema>)
      modifies this
      ensures Build() == old(Build()).(properties := Some(p))
    {
      properties := Some(p);
    }

    method SetItems(s: Schema)
      modifies this
      ensures Build() == old(Build()).(items := Some(s))
    {
      items := Some(s);
    }
  }
}
