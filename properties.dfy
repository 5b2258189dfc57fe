/**
 * Properties of the schema generator that relate several calls or a whole class: which
 * property's exception wins, what each entry of the property map holds, how many entries
 * there are, and what the generator does not look at (nullability, the class's own doc).
 */
module SchemaGeneratorProperties {
  import opened Wrappers
  import opened KotlinReflect
  import opened GenAiSchema
  import opened SchemaGenerator

  /** No two member properties share a name, as in every Kotlin class. */
  predicate DistinctNames(ps: seq<Property>)
  {
    forall i, j :: 0 <= i < j < |ps| ==> ps[i].name != ps[j].name
  }

  /** Member property `i` of `c` is the first one whose schema throws. */
  predicate FirstFailure(c: KClass, i: nat)
    requires c.IsData()
  {
    && i < |c.memberProperties|
    && PropertySchema(c.memberProperties[i], c.primaryConstructorParams).Err?
    && forall j :: 0 <= j < i ==> PropertySchema(c.memberProperties[j], c.primaryConstructorParams).Ok?
  }

  /**
   * The walk over the first `n` member properties throws exactly when one of them throws,
   * and then it throws what the first such property throws.
   */
  lemma {:induction false} FirstErrorWins(c: KClass, n: nat)
    requires c.IsData() && n <= |c.memberProperties|
    ensures PropertiesOf(c, n).Err? <==>
      exists i :: 0 <= i < n && PropertySchema(c.memberProperties[i], c.primaryConstructorParams).Err?
    ensures forall i :: 0 <= i < n && FirstFailure(c, i) ==>
      PropertiesOf(c, n) == Err(PropertySchema(c.memberProperties[i], c.primaryConstructorParams).error)
    decreases n
  {
    if n > 0 {
      FirstErrorWins(c, n - 1);
      var ps := c.primaryConstructorParams;
      forall i | 0 <= i < n && FirstFailure(c, i)
        ensures PropertiesOf(c, n) == Err(PropertySchema(c.memberProperties[i], ps).error)
      {
        if i == n - 1 {
          assert PropertiesOf(c, n - 1).Ok?;
        }
      }
    }
  }

  /** A data class is rejected exactly when one of its member properties throws. */
  lemma SchemaErrIff(c: KClass)
    requires c.IsData()
    ensures SchemaOf(c).Err? <==>
      exists i :: 0 <= i < |c.memberProperties| && PropertySchema(c.memberProperties[i], c.primaryConstructorParams).Err?
    ensures forall i :: 0 <= i < |c.memberProperties| && FirstFailure(c, i) ==>
      SchemaOf(c) == Err(PropertySchema(c.memberProperties[i], c.primaryConstructorParams).error)
  {
    FirstErrorWins(c, |c.memberProperties|);
  }

  /**
   * After the first `n` member properties, each of them with distinct names is mapped to its
   * own property schema.
   */
  lemma {:induction false} EntriesOfPrefix(c: KClass, n: nat, i: nat)
    requires c.IsData() && i < n <= |c.memberProperties|
    requires DistinctNames(c.memberProperties)
    ensures PropertiesOf(c, n).Ok? ==>
      && PropertySchema(c.memberProperties[i], c.primaryConstructorParams).Ok?
      && c.memberProperties[i].name in PropertiesOf(c, n).value
      && PropertiesOf(c, n).value[c.memberProperties[i].name] ==
         PropertySchema(c.memberProperties[i], c.primaryConstructorParams).value
    decreases n
  {
    if PropertiesOf(c, n).Ok? {
      if i == n - 1 {
        EntryAdded(c, n);
      } else {
        EntriesOfPrefix(c, n - 1, i);
        EntryKept(c, n, c.memberProperties[i].name);
      }
    }
  }

  /** A successful step of the walk stores the last property's own schema under its name. */
  lemma EntryAdded(c: KClass, n: nat)
    requires c.IsData() && 0 < n <= |c.memberProperties|
    requires PropertiesOf(c, n).Ok?
    ensures PropertiesOf(c, n - 1).Ok?
    ensures PropertySchema(c.memberProperties[n - 1], c.primaryConstructorParams).Ok?
    ensures c.memberProperties[n - 1].name in PropertiesOf(c, n).value
    ensures PropertiesOf(c, n).value[c.memberProperties[n - 1].name] ==
            PropertySchema(c.memberProperties[n - 1], c.primaryConstructorParams).value
  {
    PropertiesOfStep(c, n);
  }

  /** A later property with another name leaves an entry of the walk as it was. */
  lemma EntryKept(c: KClass, n: nat, key: string)
    requires c.IsData() && 0 < n <= |c.memberProperties|
    requires PropertiesOf(c, n).Ok? && key != c.memberProperties[n - 1].name
    requires key in PropertiesOf(c, n - 1).value
    ensures key in PropertiesOf(c, n).value
    ensures PropertiesOf(c, n).value[key] == PropertiesOf(c, n - 1).value[key]
  {
    PropertiesOfStep(c, n);
  }

  /**
   * In the schema of a data class, the entry named after a member property is that
   * property's own schema.
   */
  lemma PropertyEntry(c: KClass, i: nat)
    requires c.IsData() && i < |c.memberProperties|
    requires DistinctNames(c.memberProperties)
    ensures SchemaOf(c).Ok? ==>
      && PropertySchema(c.memberProperties[i], c.primaryConstructorParams).Ok?
      && c.memberProperties[i].name in SchemaOf(c).value.properties.value
      && SchemaOf(c).value.properties.value[c.memberProperties[i].name] ==
         PropertySchema(c.memberProperties[i], c.primaryConstructorParams).value
  {
    EntriesOfPrefix(c, |c.memberProperties|, i);
  }

  /** Distinct property names give as many names as properties. */
  lemma {:induction false} DistinctNamesCount(ps: seq<Property>)
    requires DistinctNames(ps)
    ensures |PropertyNames(ps)| == |ps|
  {
    if ps != [] {
      var last := |ps| - 1;
      assert DistinctNames(ps[..last]);
      DistinctNamesCount(ps[..last]);
      assert PropertyNames(ps) == PropertyNames(ps[..last]) + {ps[last].name} by {
        forall i | 0 <= i < last ensures ps[..last][i] == ps[i] { }
      }
      assert ps[last].name !in PropertyNames(ps[..last]);
    }
  }

  /** The schema of a data class has one entry per member property. */
  lemma PropertyCount(c: KClass)
    requires c.IsData()
    requires DistinctNames(c.memberProperties)
    ensures SchemaOf(c).Ok? ==> |SchemaOf(c).value.properties.value| == |c.memberProperties|
  {
    DistinctNamesCount(c.memberProperties);
  }

  /** One step of the walk: a thrown error stays, otherwise property `n - 1` is stored. */
  lemma PropertiesOfStep(c: KClass, n: nat)
    requires c.IsData() && 0 < n <= |c.memberProperties|
    ensures PropertiesOf(c, n) ==
      if PropertiesOf(c, n - 1).Err? then PropertiesOf(c, n - 1)
      else Store(PropertiesOf(c, n - 1).value, c.memberProperties[n - 1].name,
                 PropertySchema(c.memberProperties[n - 1], c.primaryConstructorParams))
  {
  }

  /**
   * The walk over the member properties depends only on their names and property schemas:
   * two data classes that agree on these for the first `n` properties give the same map.
   */
  lemma {:induction false} PropertiesOfCongruent(c: KClass, d: KClass, n: nat)
    requires c.IsData() && d.IsData()
    requires n <= |c.memberProperties| && n <= |d.memberProperties|
    requires forall j :: 0 <= j < n ==>
      && c.memberProperties[j].name == d.memberProperties[j].name
      && PropertySchema(c.memberProperties[j], c.primaryConstructorParams)
         == PropertySchema(d.memberProperties[j], d.primaryConstructorParams)
    ensures PropertiesOf(c, n) == PropertiesOf(d, n)
    decreases n
  {
    if n > 0 {
      PropertiesOfCongruent(c, d, n - 1);
      var j := n - 1;
      assert c.memberProperties[j].name == d.memberProperties[j].name;
      PropertiesOfStep(c, n);
      PropertiesOfStep(d, n);
    }
  }

  /** `@ToolDoc` on the data class itself never reaches the generated schema. */
  lemma ClassDocIgnored(c: KClass, doc: Option<string>)
    requires c.IsData()
    ensures SchemaOf(c.(doc := doc)) == SchemaOf(c)
  {
    PropertiesOfCongruent(c, c.(doc := doc), |c.memberProperties|);
  }

  /** Marking a type `?` does not change the schema of a property of that type. */
  lemma PropertyNullabilityIgnored(prop: Property, params: seq<Parameter>, nullable: bool)
    ensures PropertySchema(prop.(returnType := prop.returnType.(isMarkedNullable := nullable)), params)
         == PropertySchema(prop, params)
  {
    var t := prop.returnType.(isMarkedNullable := nullable);
    assert ItemsSchema(t) == ItemsSchema(prop.returnType);
  }

  /**
   * Marking a list's element type `?` (`List<String?>`) does not change the list's item
   * schema: only the element's classifier is read.
   */
  lemma ElementNullabilityIgnored(listType: KType, nullable: bool)
    requires |listType.arguments| > 0 && listType.arguments[0].Projection?
    ensures
      var elem := listType.arguments[0].argType.(isMarkedNullable := nullable);
      ItemsSchema(listType.(arguments := listType.arguments[0 := Projection(elem)])) == ItemsSchema(listType)
  {
    var elem := listType.arguments[0].argType.(isMarkedNullable := nullable);
    var t := listType.(arguments := listType.arguments[0 := Projection(elem)]);
    assert ElementClass(t) == ElementClass(listType);
  }

  /** Member property `i` of `c` with its type's nullability mark set to `nullable`. */
  function WithNullability(c: KClass, i: nat, nullable: bool): (d: KClass)
    requires c.IsData() && i < |c.memberProperties|
    ensures d.IsData() && |d.memberProperties| == |c.memberProperties|
  {
    var p := c.memberProperties[i];
    c.(memberProperties := c.memberProperties[i := p.(returnType := p.returnType.(isMarkedNullable := nullable))])
  }

  /** `String?` gives the same schema as `String`: a class's schema ignores nullability. */
  lemma ClassNullabilityIgnored(c: KClass, i: nat, nullable: bool)
    requires c.IsData() && i < |c.memberProperties|
    ensures SchemaOf(WithNullability(c, i, nullable)) == SchemaOf(c)
  {
    var d := WithNullability(c, i, nullable);
    PropertyNullabilityIgnored(c.memberProperties[i], c.primaryConstructorParams, nullable);
    PropertiesOfCongruent(c, d, |c.memberProperties|);
  }
}
