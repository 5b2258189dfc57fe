# Schema generator for the agent's tool types

The agent describes each tool's input and output to the Gemini function-calling API as a
`Schema`: a tree of `{type, description?, properties?, items?}` nodes. The repository builds
these trees by reflection over Kotlin data classes, in `src/main/kotlin/SchemaGenerator.kt`:

- `KClass<*>.toSchemaType()` puts every class into one of the schema kinds: STRING,
  INTEGER, NUMBER, BOOLEAN, ARRAY or OBJECT.
- `generateSchemaFromDataClass` rejects a class that is not a data class. Otherwise it walks
  the class's member properties and fills a mutable property map. For each property it:
  - takes the `@ToolDoc` description from the property, or else from the primary-constructor
    parameter of the same name;
  - picks the property's kind;
  - recurses into nested data classes and into the element type of a `List`.

  It returns an OBJECT schema over that map.

This project models that generator in Dafny. Reflection is replaced by finite values
(`KotlinReflect`):
- a `KClass` is one of the eight built-in classes the generator compares against, `List`,
  a `DataClass` (its member properties, its primary-constructor parameters, its own doc) or
  any other class;
- a property's `KType` has a classifier (a class, or a type parameter), type arguments and a
  nullability mark.

The Gemini `Schema` and its builder are in `GenAiSchema`.

The generator is modelled twice in `SchemaGenerator`:
- As pure functions. `SchemaOf` gives the schema of a class. `PropertiesOf` folds over the
  member properties, writing each one once with its final value. `PropertySchema` gives one
  property's schema and `ItemsSchema` a list's item schema. Exceptions are `Err` values:
  `NotADataClass` for the `IllegalArgumentException`, `NoClassifier` for the
  `IllegalStateException`.
- As the imperative code. `GenerateSchemaFromDataClass` runs the loop over the member
  properties into a mutable map. Its loop body is split into methods so that each proof stays
  small:
  - `WriteProperty` writes one property, with the source's two writes per property;
  - `FindDescription` looks up the description;
  - `ListItemSchema` builds a list's items;
  - `NestedObjectSchema` is the nested-object block that the source runs twice.

  Builders are `SchemaBuilder` objects that are mutated step by step. The method is proved
  to return exactly `SchemaOf`.

`SchemaGeneratorProperties` proves facts about a whole class: which exception wins, what each
map entry holds, how many entries there are, and that nullability and the class's own doc
make no difference. `ToolSchemas` writes out some of the repository's data classes as descriptors and proves
their schemas: from `src/test/kotlin/TestStuff.kt`, the classes of the active tests
(`PrimitivesWithDocs`, `NestedItemWithDocs`, `NestingWithDocs`, `NestedItemForList`,
`ContainerOfList`) and two classes of the commented-out tests (`WithPrimitiveList`,
`WithNullable`); from the tools, `ShellCommandOutput` and `ReadFileOutput`. It adds one class of its own,
`Boxed`, which has no counterpart in the repository: it has a property typed by a type
parameter and shows the `NoClassifier` path.

A detail of the code that the model keeps: a `List` property is stored in the map only once
(SchemaGenerator.kt:87). The first `if` chain gives a `List` only its `items`, so only the
data-class and simple branches store a value before the second write (lines 78 and 81).
Every non-list property is written twice, and `WriteProperty` asserts that the first value
equals the final one.

Kotlin applies an annotation on a primary-constructor `val` to the constructor parameter. So
the test classes' `@ToolDoc`s are parameter docs here, found by the fallback lookup. Classes
annotated with `@ToolDescription` instead of `@ToolDoc` (`ReadFileOutput`) get no
descriptions, because the generator does not read that annotation.

## Model

| member | source | states |
|---|---|---|
| SchemaGenerator.ToSchemaType | src/main/kotlin/SchemaGenerator.kt:10-19 | each class gets exactly one kind: STRING iff `String` or a non-data other class; INTEGER iff Int/Long/Short/Byte; BOOLEAN iff Boolean; NUMBER iff Double/Float; ARRAY iff `List`; OBJECT iff a data class |
| SchemaGenerator.FindParameter | src/main/kotlin/SchemaGenerator.kt:40 | `find` by name returns the first constructor parameter with that name, and returns none exactly when no parameter has it |
| SchemaGenerator.FindParameterFrom | src/main/kotlin/SchemaGenerator.kt:40 | the same search from a given index onward |
| SchemaGenerator.Description | src/main/kotlin/SchemaGenerator.kt:35-43 | the property's own doc wins; otherwise the doc of the first same-named constructor parameter; otherwise no description |
| SchemaGenerator.FindDescription | src/main/kotlin/SchemaGenerator.kt:38-43 | the imperative lookup, with its reassigned `description`, returns exactly `Description` |
| SchemaGenerator.SchemaOf | src/main/kotlin/SchemaGenerator.kt:21-103 | a non-data class is rejected with its simple name; a data class fails only with `NoClassifier`; on success the result has type OBJECT, no description (even for a documented class), no items, and its property keys are exactly the member-property names |
| SchemaGenerator.PropertiesOf | src/main/kotlin/SchemaGenerator.kt:29-98 | the map after the first n properties has exactly their names as keys; the only error is `NoClassifier` |
| SchemaGenerator.PropertySchema | src/main/kotlin/SchemaGenerator.kt:30-97 | a type-parameter property throws `NoClassifier` with its name; on success the type is `toSchemaType` of the classifier and the description is the looked-up one; `items` is set iff the class is `List`, and then equals the list's item schema; `properties` is set iff the class is a data class, and then equals the nested class's properties; a property of any other class always succeeds, with exactly its kind and description; so the property fails iff its type is a type parameter, or the nested class fails, or the list's items fail |
| SchemaGenerator.Store | src/main/kotlin/SchemaGenerator.kt:78-97 | storing a property's outcome either propagates its exception or adds its schema under its name and leaves every other key as it was |
| SchemaGenerator.NestedObject | src/main/kotlin/SchemaGenerator.kt:71-77 | a nested-class property is an OBJECT with the property's description, no items and the nested class's properties, and it fails exactly when the nested class fails, with the same error |
| SchemaGenerator.ElementClass | src/main/kotlin/SchemaGenerator.kt:54 | a list's element class is absent exactly when the type has no argument, the first argument is a star projection, or its classifier is not a class; otherwise it is the first argument's class |
| SchemaGenerator.ItemsSchema | src/main/kotlin/SchemaGenerator.kt:53-68 | a data-class element gives that class's full schema; any other element class gives a bare `{type}` of its kind; a missing, star or type-parameter element gives a bare STRING; item schemas never carry a description |
| SchemaGenerator.ErrorPersists | src/main/kotlin/SchemaGenerator.kt:29-33 | once a property has thrown, the rest of the walk does not change the outcome |
| SchemaGenerator.GenerateSchemaFromDataClass | src/main/kotlin/SchemaGenerator.kt:21-103 | the imperative generator returns exactly `SchemaOf(dataClass)`: the same rejection, errors and schema |
| SchemaGenerator.WriteProperty | src/main/kotlin/SchemaGenerator.kt:29-97 | one loop iteration either returns the property's exception or adds exactly the property's final schema under its name, leaving every other key as it was |
| SchemaGenerator.NestedObjectSchema | src/main/kotlin/SchemaGenerator.kt:69-78 | the nested-object block (run again at lines 88-95) gives an OBJECT with the field's description and the nested class's properties, or the nested class's error |
| SchemaGenerator.ListItemSchema | src/main/kotlin/SchemaGenerator.kt:53-68 | the imperative items construction returns exactly `ItemsSchema` |
| KotlinReflect.KClass.SimpleName | src/main/kotlin/SchemaGenerator.kt:23 | the simple name used in the rejection: a data or other class's declared name, `List` for the list class, `String` for the string class |
| GenAiSchema.SchemaBuilder.constructor | src/main/kotlin/SchemaGenerator.kt:45 | `Schema.builder()` starts with every field unset |
| GenAiSchema.SchemaBuilder.SetType | src/main/kotlin/SchemaGenerator.kt:48 | `type(...)` sets the type and leaves the other fields as they were |
| GenAiSchema.SchemaBuilder.SetDescription | src/main/kotlin/SchemaGenerator.kt:51 | `description(...)` sets the description and leaves the other fields as they were |
| GenAiSchema.SchemaBuilder.SetProperties | src/main/kotlin/SchemaGenerator.kt:77 | `properties(...)` sets the property map and leaves the other fields as they were |
| GenAiSchema.SchemaBuilder.SetItems | src/main/kotlin/SchemaGenerator.kt:64 | `items(...)` sets the item schema and leaves the other fields as they were |
| SchemaGeneratorProperties.FirstErrorWins | src/main/kotlin/SchemaGenerator.kt:29-33 | the walk over the first n properties throws iff one of them throws, and then it throws what the first such property throws |
| SchemaGeneratorProperties.SchemaErrIff | src/main/kotlin/SchemaGenerator.kt:29-33 | a data class is rejected iff one of its properties throws, with the first thrower's error |
| SchemaGeneratorProperties.EntriesOfPrefix | src/main/kotlin/SchemaGenerator.kt:78-97 | with distinct names, when the walk over n properties succeeds, each of them succeeded and maps to its own property schema |
| SchemaGeneratorProperties.EntryAdded | src/main/kotlin/SchemaGenerator.kt:78-97 | after a successful iteration, the map holds the current property's own schema under its name, and the walk before it had not thrown |
| SchemaGeneratorProperties.EntryKept | src/main/kotlin/SchemaGenerator.kt:78-97 | an iteration for a property with another name leaves an existing entry as it was |
| SchemaGeneratorProperties.PropertyEntry | src/main/kotlin/SchemaGenerator.kt:78-97 | with distinct names, in a successful class schema the entry named after a member property is that property's schema |
| SchemaGeneratorProperties.PropertyCount | src/main/kotlin/SchemaGenerator.kt:26-29 | with distinct names, a successful class schema has exactly one entry per member property |
| SchemaGeneratorProperties.PropertiesOfCongruent | src/main/kotlin/SchemaGenerator.kt:29-98 | the walk depends only on the properties' names and schemas |
| SchemaGeneratorProperties.ClassDocIgnored | src/main/kotlin/SchemaGenerator.kt:99-102 | a `@ToolDoc` on the class itself never changes the schema |
| SchemaGeneratorProperties.PropertyNullabilityIgnored | src/main/kotlin/SchemaGenerator.kt:31-33 | marking a property's type `?` does not change its schema |
| SchemaGeneratorProperties.ElementNullabilityIgnored | src/main/kotlin/SchemaGenerator.kt:54 | marking a list's element type `?` does not change the list's item schema |
| SchemaGeneratorProperties.ClassNullabilityIgnored | src/main/kotlin/SchemaGenerator.kt:31-33 | marking any property's type `?` does not change the class's schema |
| ToolSchemas.PrimitivesWithDocsSchema | src/test/kotlin/TestStuff.kt:55-70 | the primitives test class gives the expected five described or undescribed primitive entries |
| ToolSchemas.NestedItemWithDocsSchema | src/test/kotlin/TestStuff.kt:74-77 | the nested item class on its own gives the expected two entries |
| ToolSchemas.NestingWithDocsSchema | src/test/kotlin/TestStuff.kt:72-97 | the nesting test class gives the expected OBJECT entry with the field's description and nested properties, and an ARRAY of STRING items |
| ToolSchemas.NestedItemForListSchema | src/test/kotlin/TestStuff.kt:110-115 | the list item class on its own gives the expected schema |
| ToolSchemas.ContainerOfListSchema | src/test/kotlin/TestStuff.kt:99-128 | a list of data-class items gets the item class's full schema as `items` |
| ToolSchemas.WithPrimitiveListSchema | src/test/kotlin/TestStuff.kt:158-162 | (commented-out test) `List<String>` gives STRING items and `List<Int>` gives INTEGER items, as the test at lines 242-257 expects |
| ToolSchemas.WithNullableSchema | src/test/kotlin/TestStuff.kt:189-206 | (commented-out test) `String?` and `String` properties both give bare STRING entries |
| ToolSchemas.ShellCommandOutputSchema | src/main/kotlin/com/aiagent/tools/shellcommand/ShellCommandOutput.kt:5-9 | the shell tool's output is OBJECT{exitCode: INTEGER, stdout: STRING, stderr: STRING} with its docs |
| ToolSchemas.ReadFileOutputSchema | src/main/kotlin/com/aiagent/tools/readFile/ReadFileOutput.kt:6-10 | the read tool's output has no descriptions (its annotation is not `@ToolDoc`) and nullable strings are STRING |
| ToolSchemas.TypeParameterRejected | src/main/kotlin/SchemaGenerator.kt:31-33 | a property typed by a type parameter makes the generator fail with `NoClassifier` naming it |
| ToolSchemas.NonDataClassRejected | src/main/kotlin/SchemaGenerator.kt:22-24 | `List` and a plain class are rejected by simple name |

## Left out

- Self-referential data classes: the source recurses without a guard (SchemaGenerator.kt:74,
  91) and would overflow the stack. Descriptors here are finite trees, so such a class cannot
  be written down.
- The order of `memberProperties` and of the resulting map: `properties` is a Dafny `map`,
  compared without order, as the tests compare it.
- The exception message texts: an error keeps only the class's simple name or the property's
  name.
- The Gemini `Schema` fields other than type, description, properties and items (format,
  enum, required, ...): the generator never sets them.
- Annotations other than `@ToolDoc`, variance of type projections, and type arguments of
  classes other than `List`: the generator does not read them.
- `primaryConstructor` being null: a data class always has one. Null would behave like an
  empty parameter list, since both leave the description unset.
- `KParameter.name` being null (receiver parameters): data-class constructor parameters
  always have names.
- The tool handlers (shell command, file read and write), their prompt templates, the
  Jackson conversion helpers and `Main.kt`'s agent setup: process spawning, file I/O,
  terminal output, environment variables and a remote model call. `Main.kt` and
  `objectMapper.kt` are not part of this model.
- The other commented-out test classes of `TestStuff.kt` (`SimplePrimitives`, `NestedItem`,
  `WithNesting`, `WithDataClassList`) and the tools' `ShellCommandInput`, `ReadFileInput`,
  `WriteFileInput`, `WriteFileOutput`, `ReadDirInput` and `ReadDirOutput` are not written out
  as examples. They use only
  kinds of property that the examples above already cover.
- `src/test/kotlin/SchemaGeneratorTest.kt` tests a different generator that reads
  `@ToolDescription`; that generator is not part of this model.
