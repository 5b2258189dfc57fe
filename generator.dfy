/**
 * `KClass<*>.toSchemaType()` and `generateSchemaFromDataClass` (SchemaGenerator.kt).
 *
 * `SchemaOf`, `PropertiesOf`, `PropertySchema` and `ItemsSchema` say, as pure functions,
 * what schema the generator produces; `GenerateSchemaFromDataClass` is the generator as
 * written, with its loop over the member properties, its builders and its double writes,
 * and is proved to return exactly `SchemaOf`.
 */
module SchemaGenerator {
  import opened Wrappers
  import opened KotlinReflect
  import opened GenAiSchema

  /** The two exceptions the generator throws. */
  datatype SchemaError =
      /** `IllegalArgumentException`: the input class is not a data class. */
    | NotADataClass(className: string)
      /** `IllegalStateException`: a property's type has no class classifier. */
    | NoClassifier(propertyName: string)

  /** `KClass<*>.toSchemaType()`: each class gets exactly one kind, characterised here kind by kind. */
  function ToSchemaType(c: KClass): (t: Type)
    ensures t == STRING <==> c == StringClass || c.OtherClass?
    ensures t == INTEGER <==> c == IntClass || c == LongClass || c == ShortClass || c == ByteClass
    ensures t == BOOLEAN <==> c == BooleanClass
    ensures t == NUMBER <==> c == DoubleClass || c == FloatClass
    ensures t == ARRAY <==> c == ListClass
    ensures t == OBJECT <==> c.IsData()
  {
    match c
    case StringClass => STRING
    case IntClass | LongClass | ShortClass | ByteClass => INTEGER
    case BooleanClass => BOOLEAN
    case DoubleClass | FloatClass => NUMBER
    case ListClass => ARRAY
    case _ => if c.IsData() then OBJECT else STRING
  }

  /** The names of the given properties. */
  function PropertyNames(ps: seq<Property>): set<string>
  {
    set i | 0 <= i < |ps| :: ps[i].name
  }

  /** The names of the first `n` properties are those of the first `n - 1` and the `n`-th one's. */
  lemma PrefixNames(ps: seq<Property>, n: nat)
    requires 0 < n <= |ps|
    ensures PropertyNames(ps[..n]) == PropertyNames(ps[..n - 1]) + {ps[n - 1].name}
  {
    assert ps[..n][n - 1] == ps[n - 1];
    forall i | 0 <= i < n - 1
      ensures ps[..n][i] == ps[..n - 1][i]
    {
    }
  }

  /** Kotlin's `find { it.name == name }` on the constructor parameters: the index of the first match. */
  function FindParameter(params: seq<Parameter>, name: string): (r: Option<nat>)
    ensures r.Some? ==> r.value < |params| && params[r.value].name == name
    ensures r.Some? ==> forall j :: 0 <= j < r.value ==> params[j].name != name
    ensures r.None? <==> forall j :: 0 <= j < |params| ==> params[j].name != name
  {
    FindParameterFrom(params, name, 0)
  }

  /** The search of `FindParameter` from index `from` on, knowing that no earlier parameter matched. */
  function FindParameterFrom(params: seq<Parameter>, name: string, from: nat): (r: Option<nat>)
    requires from <= |params|
    ensures r.Some? ==> from <= r.value < |params| && params[r.value].name == name
    ensures r.Some? ==> forall j :: from <= j < r.value ==> params[j].name != name
    ensures r.None? <==> forall j :: from <= j < |params| ==> params[j].name != name
    decreases |params| - from
  {
    if from == |params| then None
    else if params[from].name == name then Some(from)
    else FindParameterFrom(params, name, from + 1)
  }

  /** `params[i]` is the first parameter called `name`. */
  predicate FirstNamed(params: seq<Parameter>, i: nat, name: string)
  {
    i < |params| && params[i].name == name && forall j :: 0 <= j < i ==> params[j].name != name
  }

  /**
   * The description of a property: its own `@ToolDoc`, otherwise the `@ToolDoc` of the first
   * primary-constructor parameter with the same name, otherwise none.
   */
  function Description(prop: Property, params: seq<Parameter>): (d: Option<string>)
    ensures prop.doc.Some? ==> d == prop.doc
    ensures prop.doc.None? && (forall j :: 0 <= j < |params| ==> params[j].name != prop.name) ==> d == None
    ensures forall i :: 0 <= i < |params| && prop.doc.None? && FirstNamed(params, i, prop.name) ==> d == params[i].doc
  {
    if prop.doc.Some? then prop.doc
    else match FindParameter(params, prop.name)
      case None => None
      case Some(i) => params[i].doc
  }

  /** A schema with only its type set. */
  function Bare(t: Type): Schema
  {
    Schema(Some(t), None, None, None)
  }

  /**
   * The schema of a data class: an OBJECT whose properties are those of its member properties,
   * with no description of its own; any other class is rejected.
   */
  function SchemaOf(c: KClass): (r: Result<Schema, SchemaError>)
    ensures !c.IsData() ==> r == Err(NotADataClass(c.SimpleName()))
    ensures c.IsData() && r.Err? ==> r.error.NoClassifier?
    ensures r.Ok? ==> r.value.kind == Some(OBJECT) && r.value.description == None && r.value.items == None
    ensures r.Ok? ==> r.value.properties.Some? && r.value.properties.value.Keys == PropertyNames(c.memberProperties)
    decreases c, 1
  {
    if !c.IsData() then Err(NotADataClass(c.SimpleName()))
    else match PropertiesOf(c, |c.memberProperties|)
      case Err(e) => Err(e)
      case Ok(props) =>
        assert c.memberProperties[..|c.memberProperties|] == c.memberProperties;
        Ok(Schema(Some(OBJECT), None, Some(props), None))
  }

  /** Storing a property's outcome in the map: its schema under its name, or its exception. */
  function Store(entries: map<string, Schema>, name: string, outcome: Result<Schema, SchemaError>)
    : (r: Result<map<string, Schema>, SchemaError>)
    ensures outcome.Err? ==> r == Err(outcome.error)
    ensures outcome.Ok? ==> r.Ok? && r.value.Keys == entries.Keys + {name} && r.value[name] == outcome.value
    ensures outcome.Ok? ==> forall k :: k in entries && k != name ==> r.value[k] == entries[k]
  {
    match outcome
    case Err(e) => Err(e)
    case Ok(s) => Ok(entries[name := s])
  }

  /**
   * The property map after the first `n` member properties of `c`, each written once with its
   * final schema (a later property of the same name replaces an earlier one); the first
   * property that throws ends the walk with its error.
   */
  function PropertiesOf(c: KClass, n: nat): (r: Result<map<string, Schema>, SchemaError>)
    requires c.IsData() && n <= |c.memberProperties|
    ensures r.Ok? ==> r.value.Keys == PropertyNames(c.memberProperties[..n])
    ensures r.Err? ==> r.error.NoClassifier?
    decreases c, 0, n
  {
    if n == 0 then Ok(map[])
    else
      var prop := c.memberProperties[n - 1];
      match PropertiesOf(c, n - 1)
      case Err(e) => Err(e)
      case Ok(acc) =>
        PrefixNames(c.memberProperties, n);
        Store(acc, prop.name, PropertySchema(prop, c.primaryConstructorParams))
  }

  /**
   * The schema stored for one member property: its type's kind, the property's description,
   * the item schema for a `List`, and for a data class the nested class's properties.
   */
  function PropertySchema(prop: Property, params: seq<Parameter>): (r: Result<Schema, SchemaError>)
    ensures prop.returnType.classifier.TypeParameter? ==> r == Err(NoClassifier(prop.name))
    ensures r.Err? ==> r.error.NoClassifier?
    ensures r.Ok? ==>
      && prop.returnType.classifier.ClassRef?
      && r.value.kind == Some(ToSchemaType(prop.returnType.classifier.cls))
      && r.value.description == Description(prop, params)
    ensures r.Ok? ==> (r.value.items.Some? <==> prop.returnType.classifier.cls == ListClass)
    ensures r.Ok? ==> (r.value.properties.Some? <==> prop.returnType.classifier.cls.IsData())
    ensures prop.returnType.classifier.ClassRef? && prop.returnType.classifier.cls.IsData() ==>
      var nested := SchemaOf(prop.returnType.classifier.cls);
      && (r.Ok? <==> nested.Ok?)
      && (r.Ok? ==> r.value.properties == nested.value.properties)
      && (r.Err? ==> r.error == nested.error)
    ensures prop.returnType.classifier.ClassRef? && prop.returnType.classifier.cls == ListClass ==>
      var items := ItemsSchema(prop.returnType);
      && (r.Ok? <==> items.Ok?)
      && (r.Ok? ==> r.value.items == Some(items.value))
      && (r.Err? ==> r.error == items.error)
    ensures prop.returnType.classifier.ClassRef? && prop.returnType.classifier.cls != ListClass &&
            !prop.returnType.classifier.cls.IsData() ==>
      r == Ok(Schema(Some(ToSchemaType(prop.returnType.classifier.cls)), Description(prop, params), None, None))
    decreases prop
  {
    match prop.returnType.classifier
    case TypeParameter(_) => Err(NoClassifier(prop.name))
    case ClassRef(k) =>
      var description := Description(prop, params);
      if k == ListClass then
        match ItemsSchema(prop.returnType)
        case Err(e) => Err(e)
        case Ok(items) => Ok(Schema(Some(ToSchemaType(k)), description, None, Some(items)))
      else if k.IsData() then
        NestedObject(SchemaOf(k), description)
      else
        Ok(Schema(Some(ToSchemaType(k)), description, None, None))
  }

  /**
   * `returnType.arguments.firstOrNull()?.type?.classifier as? KClass<*>`: the class of a
   * list's element type, if its first type argument is present, not a star projection and
   * classified by a class.
   */
  function ElementClass(listType: KType): (e: Option<KClass>)
    ensures e.None? <==>
      || |listType.arguments| == 0
      || listType.arguments[0].StarProjection?
      || listType.arguments[0].argType.classifier.TypeParameter?
    ensures e.Some? ==> e.value == listType.arguments[0].argType.classifier.cls
  {
    if |listType.arguments| > 0 && listType.arguments[0].Projection? &&
       listType.arguments[0].argType.classifier.ClassRef?
    then Some(listType.arguments[0].argType.classifier.cls)
    else None
  }

  /**
   * The schema of a property holding a data class whose own schema is `nested`: an OBJECT with
   * the property's description and the nested properties, or the nested class's exception.
   */
  function NestedObject(nested: Result<Schema, SchemaError>, description: Option<string>)
    : (r: Result<Schema, SchemaError>)
    ensures r.Ok? <==> nested.Ok?
    ensures r.Err? ==> r.error == nested.error
    ensures r.Ok? ==> r.value.kind == Some(OBJECT) && r.value.description == description && r.value.items == None
    ensures r.Ok? ==> r.value.properties == nested.value.properties
  {
    match nested
    case Err(e) => Err(e)
    case Ok(n) => Ok(Schema(Some(OBJECT), description, n.properties, None))
  }

  /**
   * The `items` schema of a `List` property: the full schema of a data-class element, a bare
   * schema of the element's kind for any other element class, and a bare STRING schema when
   * the element type is missing, a star projection or not a class.
   */
  function ItemsSchema(listType: KType): (r: Result<Schema, SchemaError>)
    ensures r.Err? ==> r.error.NoClassifier?
    ensures r.Ok? ==> r.value.kind.Some? && r.value.description == None
    ensures ElementClass(listType).None? ==> r == Ok(Bare(STRING))
    ensures ElementClass(listType).Some? ==>
      var k := ElementClass(listType).value;
      r == if k.IsData() then SchemaOf(k) else Ok(Bare(ToSchemaType(k)))
    decreases listType
  {
    match ElementClass(listType)
    case None => Ok(Bare(STRING))
    case Some(k) => if k.IsData() then SchemaOf(k) else Ok(Bare(ToSchemaType(k)))
  }

  /** Once the walk over the member properties has thrown, walking further keeps that error. */
  lemma {:induction false} ErrorPersists(c: KClass, k: nat, n: nat)
    requires c.IsData() && k <= n <= |c.memberProperties|
    requires PropertiesOf(c, k).Err?
    ensures PropertiesOf(c, n) == PropertiesOf(c, k)
    decreases n - k
  {
    if k < n {
      ErrorPersists(c, k, n - 1);
      assert PropertiesOf(c, n - 1).Err?;
    }
  }

  /**
   * `generateSchemaFromDataClass`: rejects a non-data class, then fills a mutable property map
   * one member property at a time and returns an OBJECT schema over it. The result is exactly
   * `SchemaOf(dataClass)`.
   */
  method GenerateSchemaFromDataClass(dataClass: KClass) returns (r: Result<Schema, SchemaError>)
    ensures r == SchemaOf(dataClass)
    decreases dataClass, 0
  {
    if !dataClass.IsData() {
      return Err(NotADataClass(dataClass.SimpleName()));
    }

    var propertiesSchema: map<string, Schema> := map[];
    var primaryConstructor := dataClass.primaryConstructorParams;
    var members := dataClass.memberProperties;

    for i := 0 to |members|
      invariant PropertiesOf(dataClass, i) == Ok(propertiesSchema)
    {
      var updated := WriteProperty(propertiesSchema, members[i], primaryConstructor);
      assert PropertiesOf(dataClass, i + 1) ==
        Store(propertiesSchema, members[i].name, PropertySchema(members[i], primaryConstructor));
      if updated.Err? {
        ErrorPersists(dataClass, i + 1, |members|);
        return Err(updated.error);
      }
      propertiesSchema := updated.value;
    }

    assert members[..|members|] == members;
    var result := new SchemaBuilder();
    result.SetType(OBJECT);
    result.SetProperties(propertiesSchema);
    return Ok(result.Build());
  }

  /**
   * The body of the generator's loop for one member property: finds its classifier and
   * description, builds its schema (recursing into a data-class element or property type) and
   * writes it into the map (twice, unless it is a `List`). The map gains exactly that
   * property's final schema, or the exception the property causes is returned.
   */
  method WriteProperty(entries: map<string, Schema>, prop: Property, primaryConstructor: seq<Parameter>)
    returns (r: Result<map<string, Schema>, SchemaError>)
    ensures r == Store(entries, prop.name, PropertySchema(prop, primaryConstructor))
    decreases prop
  {
    var propertiesSchema := entries;
    var propertyName := prop.name;
    var returnType := prop.returnType;
    if returnType.classifier.TypeParameter? {
      return Err(NoClassifier(prop.name));
    }
    var classifier := returnType.classifier.cls;

    var description := FindDescription(prop, primaryConstructor);

    var propertySchemaBuilder := new SchemaBuilder();
    propertySchemaBuilder.SetType(ToSchemaType(classifier));
    if description.Some? {
      propertySchemaBuilder.SetDescription(description.value);
    }

    if classifier == ListClass {
      var items := ListItemSchema(returnType);
      if items.Err? {
        return Err(items.error);
      }
      propertySchemaBuilder.SetItems(items.value);
    } else if classifier.IsData() {
      var propertySchema := NestedObjectSchema(classifier, description);
      if propertySchema.Err? {
        return Err(propertySchema.error);
      }
      propertiesSchema := propertiesSchema[propertyName := propertySchema.value];
    } else {
      propertiesSchema := propertiesSchema[propertyName := propertySchemaBuilder.Build()];
    }
    // Except for a List property, which the first branch does not store, the map already holds
    // the property's final schema here; the second write stores it again.
    ghost var afterFirstWrite := propertiesSchema;

    if !classifier.IsData() {
      assert classifier != ListClass ==> afterFirstWrite[propertyName] == propertySchemaBuilder.Build();
      propertiesSchema := propertiesSchema[propertyName := propertySchemaBuilder.Build()];
    } else {
      var builderForPropertyHoldingNested := NestedObjectSchema(classifier, description);
      assert afterFirstWrite[propertyName] == builderForPropertyHoldingNested.value;
      propertiesSchema := propertiesSchema[propertyName := builderForPropertyHoldingNested.value];
    }
    assert propertiesSchema == entries[propertyName := propertiesSchema[propertyName]];
    return Ok(propertiesSchema);
  }

  /**
   * The schema of a property holding a data class, as the generator builds it (twice): an OBJECT
   * with the property's description and the properties of the nested class's own schema.
   */
  method NestedObjectSchema(classifier: KClass, description: Option<string>) returns (r: Result<Schema, SchemaError>)
    requires classifier.IsData()
    ensures r == NestedObject(SchemaOf(classifier), description)
    decreases classifier, 1
  {
    var nestedSchema := GenerateSchemaFromDataClass(classifier);
    if nestedSchema.Err? {
      return Err(nestedSchema.error);
    }
    var builder := new SchemaBuilder();
    builder.SetType(OBJECT);
    if description.Some? {
      builder.SetDescription(description.value);
    }
    builder.SetProperties(nestedSchema.value.properties.value);
    return Ok(builder.Build());
  }

  /**
   * The generator's description lookup: the `@ToolDoc` on the property, or failing that the one
   * on the primary-constructor parameter found by name.
   */
  method FindDescription(prop: Property, primaryConstructor: seq<Parameter>) returns (description: Option<string>)
    ensures description == Description(prop, primaryConstructor)
  {
    description := prop.doc;
    if description.None? {
      var found := FindParameter(primaryConstructor, prop.name);
      if found.Some? {
        description := primaryConstructor[found.value].doc;
      }
    }
  }

  /**
   * The `items` schema the generator gives a `List` property: a fresh schema of the element
   * class (recursing into a data class) or, without an element class, a STRING schema.
   */
  method ListItemSchema(returnType: KType) returns (r: Result<Schema, SchemaError>)
    ensures r == ItemsSchema(returnType)
    decreases returnType
  {
    var arguments := returnType.arguments;
    var listItemSchemaBuilder := new SchemaBuilder();
    if |arguments| > 0 && arguments[0].Projection? && arguments[0].argType.classifier.ClassRef? {
      var listItemType := arguments[0].argType.classifier.cls;
      if listItemType.IsData() {
        r := GenerateSchemaFromDataClass(listItemType);
      } else {
        listItemSchemaBuilder.SetType(ToSchemaType(listItemType));
        r := Ok(listItemSchemaBuilder.Build());
      }
    } else {
      listItemSchemaBuilder.SetType(STRING);
      r := Ok(listItemSchemaBuilder.Build());
    }
  }
}
