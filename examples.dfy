/**
 * Concrete data classes from the repository, written as descriptors, and the schemas the
 * generator gives them.
 *
 * Kotlin places an annotation written on a primary-constructor `val` on the constructor
 * parameter, so `@ToolDoc("…") val x: T` is a parameter doc here; only `@ToolDoc` is seen by
 * the generator, so classes annotated with `@ToolDescription` get no descriptions.
 */
module ToolSchemas {
  import opened Wrappers
  import opened KotlinReflect
  import opened GenAiSchema
  import opened SchemaGenerator

  function Prop(name: string, cls: KClass): Property
  {
    Property(name, KType(ClassRef(cls), [], false), None)
  }

  function NullableProp(name: string, cls: KClass): Property
  {
    Property(name, KType(ClassRef(cls), [], true), None)
  }

  function ListProp(name: string, elem: KClass): Property
  {
    Property(name, KType(ClassRef(ListClass), [Projection(KType(ClassRef(elem), [], false))], false), None)
  }

  function Doc(name: string, doc: string): Parameter
  {
    Parameter(name, Some(doc))
  }

  function Plain(name: string): Parameter
  {
    Parameter(name, None)
  }

  function Described(t: Type, d: string): Schema
  {
    Schema(Some(t), Some(d), None, None)
  }

  function Object(props: map<string, Schema>): Schema
  {
    Schema(Some(OBJECT), None, Some(props), None)
  }

  // ---- src/test/kotlin/TestStuff.kt ----

  const PrimitivesWithDocs := DataClass("PrimitivesWithDocs", Some("A simple collection of primitive types for testing."),
    [Prop("S_str", StringClass), Prop("S_int", IntClass), Prop("S_bool", BooleanClass),
     Prop("S_long", LongClass), Prop("S_double", DoubleClass)],
    [Doc("S_str", "A string value."), Doc("S_int", "An integer value."), Plain("S_bool"),
     Doc("S_long", "A long value, doc on constructor param."), Doc("S_double", "Property doc takes precedence.")])

  const NestedItemWithDocs := DataClass("NestedItemWithDocs", None,
    [Prop("NI_id", IntClass), Prop("NI_value", StringClass)],
    [Doc("NI_id", "Identifier for the nested item."), Doc("NI_value", "Value of the nested item.")])

  const NestingWithDocs := DataClass("NestingWithDocs",
    Some("Represents an entity with a nested item, demonstrating documentation inheritance."),
    [Prop("WN_name", StringClass), Prop("WN_item", NestedItemWithDocs), ListProp("WN_tags", StringClass)],
    [Doc("WN_name", "Name of the main entity."),
     Doc("WN_item", "The nested item itself. This describes the field holding the item."),
     Doc("WN_tags", "A list of tags for this entity.")])

  const NestedItemForList := DataClass("NestedItemForList", None,
    [Prop("id", IntClass), Prop("value", StringClass)],
    [Doc("id", "ID of the list item"), Doc("value", "Value of the list item")])

  const ContainerOfList := DataClass("ContainerOfList", None,
    [ListProp("items", NestedItemForList)],
    [Doc("items", "A list of documented items")])

  const WithNullable := DataClass("WithNullable", None,
    [Prop("N_reqStr", StringClass), NullableProp("N_optStr", StringClass)],
    [Plain("N_reqStr"), Plain("N_optStr")])

  /** The first three properties of the primitives test, each documented on its constructor parameter or not at all. */
  lemma PrimitivesWithDocsFirstEntries()
    ensures PropertySchema(PrimitivesWithDocs.memberProperties[0], PrimitivesWithDocs.primaryConstructorParams)
         == Ok(Described(STRING, "A string value."))
    ensures PropertySchema(PrimitivesWithDocs.memberProperties[1], PrimitivesWithDocs.primaryConstructorParams)
         == Ok(Described(INTEGER, "An integer value."))
    ensures PropertySchema(PrimitivesWithDocs.memberProperties[2], PrimitivesWithDocs.primaryConstructorParams)
         == Ok(Bare(BOOLEAN))
  {
    var ps := PrimitivesWithDocs.primaryConstructorParams;
    assert FirstNamed(ps, 0, "S_str");
    assert FirstNamed(ps, 1, "S_int");
    assert FirstNamed(ps, 2, "S_bool");
  }

  /** The last two properties of the primitives test. */
  lemma PrimitivesWithDocsLastEntries()
    ensures PropertySchema(PrimitivesWithDocs.memberProperties[3], PrimitivesWithDocs.primaryConstructorParams)
         == Ok(Described(INTEGER, "A long value, doc on constructor param."))
    ensures PropertySchema(PrimitivesWithDocs.memberProperties[4], PrimitivesWithDocs.primaryConstructorParams)
         == Ok(Described(NUMBER, "Property doc takes precedence."))
  {
    var ps := PrimitivesWithDocs.primaryConstructorParams;
    assert FirstNamed(ps, 3, "S_long");
    assert FirstNamed(ps, 4, "S_double");
  }

  /** The primitives test: constructor-parameter docs become descriptions, an undocumented property has none. */
  lemma PrimitivesWithDocsSchema()
    ensures SchemaOf(PrimitivesWithDocs) == Ok(Object(map[
      "S_str" := Described(STRING, "A string value."),
      "S_int" := Described(INTEGER, "An integer value."),
      "S_bool" := Bare(BOOLEAN),
      "S_long" := Described(INTEGER, "A long value, doc on constructor param."),
      "S_double" := Described(NUMBER, "Property doc takes precedence.")]))
  {
    PrimitivesWithDocsFirstEntries();
    PrimitivesWithDocsLastEntries();
    var c := PrimitivesWithDocs;
    assert PropertiesOf(c, 1) == Ok(map["S_str" := Described(STRING, "A string value.")]);
    assert PropertiesOf(c, 2) == Ok(map[
      "S_str" := Described(STRING, "A string value."),
      "S_int" := Described(INTEGER, "An integer value.")]);
    assert PropertiesOf(c, 3) == Ok(map[
      "S_str" := Described(STRING, "A string value."),
      "S_int" := Described(INTEGER, "An integer value."),
      "S_bool" := Bare(BOOLEAN)]);
    assert PropertiesOf(c, 4) == Ok(map[
      "S_str" := Described(STRING, "A string value."),
      "S_int" := Described(INTEGER, "An integer value."),
      "S_bool" := Bare(BOOLEAN),
      "S_long" := Described(INTEGER, "A long value, doc on constructor param.")]);
  }

  /** The nested item of the nesting test on its own. */
  lemma NestedItemWithDocsSchema()
    ensures SchemaOf(NestedItemWithDocs) == Ok(Object(map[
      "NI_id" := Described(INTEGER, "Identifier for the nested item."),
      "NI_value" := Described(STRING, "Value of the nested item.")]))
  {
    var c := NestedItemWithDocs;
    var ps := c.primaryConstructorParams;
    assert FirstNamed(ps, 0, "NI_id");
    assert FirstNamed(ps, 1, "NI_value");
    assert PropertiesOf(c, 1) == Ok(map["NI_id" := Described(INTEGER, "Identifier for the nested item.")]);
  }

  /** The string property of the nesting test. */
  lemma NestingWithDocsNameEntry()
    ensures PropertySchema(NestingWithDocs.memberProperties[0], NestingWithDocs.primaryConstructorParams)
         == Ok(Described(STRING, "Name of the main entity."))
  {
    assert FirstNamed(NestingWithDocs.primaryConstructorParams, 0, "WN_name");
  }

  /** The nested data-class property of the nesting test. */
  lemma NestingWithDocsItemEntry()
    ensures PropertySchema(NestingWithDocs.memberProperties[1], NestingWithDocs.primaryConstructorParams)
         == Ok(Schema(Some(OBJECT), Some("The nested item itself. This describes the field holding the item."),
                 Some(map[
                   "NI_id" := Described(INTEGER, "Identifier for the nested item."),
                   "NI_value" := Described(STRING, "Value of the nested item.")]), None))
  {
    NestedItemWithDocsSchema();
    assert FirstNamed(NestingWithDocs.primaryConstructorParams, 1, "WN_item");
  }

  /** The list-of-strings property of the nesting test. */
  lemma NestingWithDocsTagsEntry()
    ensures PropertySchema(NestingWithDocs.memberProperties[2], NestingWithDocs.primaryConstructorParams)
         == Ok(Schema(Some(ARRAY), Some("A list of tags for this entity."), None, Some(Bare(STRING))))
  {
    assert FirstNamed(NestingWithDocs.primaryConstructorParams, 2, "WN_tags");
  }

  /** The nesting test: a data-class property is an OBJECT with its field's description and the nested properties. */
  lemma NestingWithDocsSchema()
    ensures SchemaOf(NestingWithDocs) == Ok(Object(map[
      "WN_name" := Described(STRING, "Name of the main entity."),
      "WN_item" := Schema(Some(OBJECT), Some("The nested item itself. This describes the field holding the item."),
        Some(map[
          "NI_id" := Described(INTEGER, "Identifier for the nested item."),
          "NI_value" := Described(STRING, "Value of the nested item.")]), None),
      "WN_tags" := Schema(Some(ARRAY), Some("A list of tags for this entity."), None, Some(Bare(STRING)))]))
  {
    NestingWithDocsNameEntry();
    NestingWithDocsItemEntry();
    NestingWithDocsTagsEntry();
    var c := NestingWithDocs;
    assert PropertiesOf(c, 1) == Ok(map["WN_name" := Described(STRING, "Name of the main entity.")]);
    assert PropertiesOf(c, 2) == Ok(map[
      "WN_name" := Described(STRING, "Name of the main entity."),
      "WN_item" := Schema(Some(OBJECT), Some("The nested item itself. This describes the field holding the item."),
        Some(map[
          "NI_id" := Described(INTEGER, "Identifier for the nested item."),
          "NI_value" := Described(STRING, "Value of the nested item.")]), None)]);
  }

  /** The list item of the list test on its own. */
  lemma NestedItemForListSchema()
    ensures SchemaOf(NestedItemForList) == Ok(Object(map[
      "id" := Described(INTEGER, "ID of the list item"),
      "value" := Described(STRING, "Value of the list item")]))
  {
    var c := NestedItemForList;
    var ps := c.primaryConstructorParams;
    assert FirstNamed(ps, 0, "id");
    assert FirstNamed(ps, 1, "value");
    assert PropertiesOf(c, 1) == Ok(map["id" := Described(INTEGER, "ID of the list item")]);
  }

  /** The list test: a list of data-class items gets the items' full schema, without a description. */
  lemma ContainerOfListSchema()
    ensures SchemaOf(ContainerOfList) == Ok(Object(map[
      "items" := Schema(Some(ARRAY), Some("A list of documented items"), None, Some(Object(map[
        "id" := Described(INTEGER, "ID of the list item"),
        "value" := Described(STRING, "Value of the list item")])))]))
  {
    var prop := ContainerOfList.memberProperties[0];
    NestedItemForListSchema();
    assert ItemsSchema(prop.returnType) == SchemaOf(NestedItemForList);
    assert FirstNamed(ContainerOfList.primaryConstructorParams, 0, "items");
    assert Description(prop, ContainerOfList.primaryConstructorParams) == Some("A list of documented items");
    var itemsEntry := Schema(Some(ARRAY), Some("A list of documented items"), None, Some(Object(map[
      "id" := Described(INTEGER, "ID of the list item"),
      "value" := Described(STRING, "Value of the list item")])));
    assert PropertySchema(prop, ContainerOfList.primaryConstructorParams) == Ok(itemsEntry);
    assert PropertiesOf(ContainerOfList, 1) == Ok(map["items" := itemsEntry]);
  }

  /** A `String?` property is a STRING property like a `String` one. */
  lemma WithNullableSchema()
    ensures SchemaOf(WithNullable) == Ok(Object(map["N_reqStr" := Bare(STRING), "N_optStr" := Bare(STRING)]))
  {
    var c := WithNullable;
    assert FirstNamed(c.primaryConstructorParams, 0, "N_reqStr");
    assert FirstNamed(c.primaryConstructorParams, 1, "N_optStr");
    assert PropertiesOf(c, 1) == Ok(map["N_reqStr" := Bare(STRING)]);
  }

  const WithPrimitiveList := DataClass("WithPrimitiveList", None,
    [Prop("L_name", StringClass), ListProp("L_tags", StringClass), ListProp("L_counts", IntClass)],
    [Plain("L_name"), Plain("L_tags"), Plain("L_counts")])

  /** The two list properties of the primitive-list test: items of kind STRING and INTEGER. */
  lemma WithPrimitiveListEntries()
    ensures PropertySchema(WithPrimitiveList.memberProperties[1], WithPrimitiveList.primaryConstructorParams)
         == Ok(Schema(Some(ARRAY), None, None, Some(Bare(STRING))))
    ensures PropertySchema(WithPrimitiveList.memberProperties[2], WithPrimitiveList.primaryConstructorParams)
         == Ok(Schema(Some(ARRAY), None, None, Some(Bare(INTEGER))))
  {
    var ps := WithPrimitiveList.primaryConstructorParams;
    assert FirstNamed(ps, 1, "L_tags");
    assert FirstNamed(ps, 2, "L_counts");
  }

  /** A list's items take the kind of its element class: `List<Int>` has INTEGER items. */
  lemma WithPrimitiveListSchema()
    ensures SchemaOf(WithPrimitiveList) == Ok(Object(map[
      "L_name" := Bare(STRING),
      "L_tags" := Schema(Some(ARRAY), None, None, Some(Bare(STRING))),
      "L_counts" := Schema(Some(ARRAY), None, None, Some(Bare(INTEGER)))]))
  {
    var c := WithPrimitiveList;
    assert FirstNamed(c.primaryConstructorParams, 0, "L_name");
    WithPrimitiveListEntries();
    assert PropertiesOf(c, 1) == Ok(map["L_name" := Bare(STRING)]);
    assert PropertiesOf(c, 2) == Ok(map[
      "L_name" := Bare(STRING), "L_tags" := Schema(Some(ARRAY), None, None, Some(Bare(STRING)))]);
  }

  // ---- src/main/kotlin/com/aiagent/tools/shellcommand/ShellCommandOutput.kt ----

  const ShellCommandOutput := DataClass("ShellCommandOutput", None,
    [Prop("exitCode", IntClass), Prop("stdout", StringClass), Prop("stderr", StringClass)],
    [Doc("exitCode", "Exit code of the command. 0 means success."),
     Doc("stdout", "Standard output of the command"),
     Doc("stderr", "Error output of the command")])

  /** The shell tool's output: OBJECT{exitCode: INTEGER, stdout: STRING, stderr: STRING}, described. */
  lemma ShellCommandOutputSchema()
    ensures SchemaOf(ShellCommandOutput) == Ok(Object(map[
      "exitCode" := Described(INTEGER, "Exit code of the command. 0 means success."),
      "stdout" := Described(STRING, "Standard output of the command"),
      "stderr" := Described(STRING, "Error output of the command")]))
  {
    var c := ShellCommandOutput;
    var ps := c.primaryConstructorParams;
    assert FirstNamed(ps, 0, "exitCode");
    assert FirstNamed(ps, 1, "stdout");
    assert FirstNamed(ps, 2, "stderr");
    assert PropertiesOf(c, 1) == Ok(map["exitCode" := Described(INTEGER, "Exit code of the command. 0 means success.")]);
    assert PropertiesOf(c, 2) == Ok(map[
      "exitCode" := Described(INTEGER, "Exit code of the command. 0 means success."),
      "stdout" := Described(STRING, "Standard output of the command")]);
  }

  // ---- src/main/kotlin/com/aiagent/tools/readFile/ReadFileOutput.kt ----

  /** Annotated with `@ToolDescription`, which the generator does not read: no docs. */
  const ReadFileOutput := DataClass("ReadFileOutput", None,
    [NullableProp("content", StringClass), NullableProp("error", StringClass), Prop("success", BooleanClass)],
    [Plain("content"), Plain("error"), Plain("success")])

  /** The read tool's output: its `@ToolDescription` texts do not appear, nullable strings are STRING. */
  lemma ReadFileOutputSchema()
    ensures SchemaOf(ReadFileOutput) == Ok(Object(map[
      "content" := Bare(STRING), "error" := Bare(STRING), "success" := Bare(BOOLEAN)]))
  {
    var c := ReadFileOutput;
    var ps := c.primaryConstructorParams;
    assert FirstNamed(ps, 0, "content");
    assert FirstNamed(ps, 1, "error");
    assert FirstNamed(ps, 2, "success");
    assert PropertiesOf(c, 1) == Ok(map["content" := Bare(STRING)]);
    assert PropertiesOf(c, 2) == Ok(map["content" := Bare(STRING), "error" := Bare(STRING)]);
  }

  // ---- a class written for this model (no such class exists in the repository) ----

  /** A data class with a property typed by its own type parameter `T`. */
  const Boxed := DataClass("Boxed", None,
    [Prop("label", StringClass), Property("value", KType(TypeParameter("T"), [], false), None)],
    [Plain("label"), Plain("value")])

  /** A property whose type is a type parameter makes the generator throw, naming the property. */
  lemma TypeParameterRejected()
    ensures SchemaOf(Boxed) == Err(NoClassifier("value"))
  {
    assert FirstNamed(Boxed.primaryConstructorParams, 0, "label");
    assert PropertiesOf(Boxed, 1) == Ok(map["label" := Bare(STRING)]);
    assert PropertySchema(Boxed.memberProperties[1], Boxed.primaryConstructorParams) == Err(NoClassifier("value"));
  }

  /** A class that is not a data class is rejected by its simple name. */
  lemma NonDataClassRejected()
    ensures SchemaOf(ListClass) == Err(NotADataClass("List"))
    ensures SchemaOf(OtherClass("ReadDirTool")) == Err(NotADataClass("ReadDirTool"))
  {
  }
}
