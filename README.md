# gomer schema builder, modelled in Dafny

This project models the schema-derivation engine of the `gqbuilder`
package of gomer, a Go library that derives a GraphQL schema from Go
struct and handler-function types. The model covers the following pieces.

- **Registries.** The builder's tables of root objects, custom objects and
  scalars, and the per-object method tables. A duplicate name panics
  before anything is written.
- **Default scalars.** `SetDefaultScalars` adds the built-in scalars without
  overriding the ones already registered.
- **Discovery.** `FindObjectsToBuild`, `findMethodObjectsRecursive`,
  `processObject` and `findDependentObjects` walk a possibly cyclic type
  graph. They collect every input and output struct type reachable from the
  registered handlers.
- **Shells, then fields.** `CreateObjects` registers one empty object per
  discovered type before any field is filled. `CreateObjectsFields` then
  fills them.
- **Type mapping.** There are two families: field types, and resolver
  result and argument types.
- **Arguments and roots.** `buildFieldConfigArgument`, `buildMethod`,
  `buildMethods` and `buildSubscriptionMethods` build argument definitions
  and fields, and record argument prototypes in `argsMap`. The resolve
  function of a handler-backed field fills the handler's argument vector
  slot by slot.
- **`Build`.** Its fixed phase order is modelled, up to the schema
  configuration passed to the engine.
- **Helpers.** `getKey`, `isScalar`, `getFieldName` and the `int64`
  scalar's parse and serialise functions.

Go reflection is replaced by an abstract type descriptor (`Reflect.TypeDesc`):

- `Ptr`;
- `Slice`;
- `Struct`, whose fields live in a `TypeTable` keyed by the descriptor, so
  that self-referential types such as `TicketFilterInput.And` can be
  expressed;
- `Other` for every other kind.

The GraphQL engine's constructors become the datatype `Schema.SchemaType`.
Its objects are classes (`InputObjectDef`, `ObjectDef`) because the builder
fills them in place after other types already refer to them.

A Go panic is a `Panic(message)` outcome (`Wrappers.Result`). State written
before the panic stays written, as in Go.

The builder is the class `Builder.SchemaBuilder`. Its fields are the maps
of `SchemaBuilder` (gqbuilder/schemabuilder.go:41-51), and each
state-changing operation is a method with a `modifies` clause. Each loop
over a map is proved against a specification function:

- discovery against the closure predicates of module `Discovery`;
- field filling against the functions of module `Assembly`, which say what
  each object holds afterwards;
- prototype recording against `RecordAll` and `RecordEach`.

The order Go visits a map in is arbitrary. The model picks any remaining
key (`:|`), so every proved property holds for every iteration order.

The model follows the code as written, including where it departs from
what it evidently means:

- A slice of non-scalars maps to a plain `List`, never made `NonNull`,
  whatever `required` is (gqbuilder/schemabuilder.go:386-388, 415-417;
  `TypeMapping.FieldNonNullIff`).
- A map of built objects holds interface values, so a struct with no built
  object maps to the nil interface. Reached through a pointer, such a
  field gets no field config at all (`TypeMapping.FieldTypeNilIff`); made
  `NonNull` or wrapped in a `List`, it becomes a wrapper around nil. After
  `CreateObjects` it cannot happen to a struct field of a type discovery
  walked (`Builder.WalkedFieldFindsShell`). It can happen to a field of a
  registered object's own type, which discovery stores without walking.
- `CreateObjectsFields` looks up the custom object of an output type by its
  type key, while `customObjects` is keyed by registration name. With the
  slash-free names used throughout the repository, no output type finds its
  custom object (`Builder.CustomLookupMisses`). Custom methods therefore
  never replace plain fields. The model keeps this lookup as written.
- The `Query`/`Mutation` skip in `CreateObjects` can never fire, because
  every type key contains a slash (`Builder.RootNamesAreNotKeys`).
- The subscription variant records prototypes under
  `argsMap[methodName][methodName]`, not under the object's name
  (`Assembly.RecordEachProperties`).

## Model

| member | source | states |
|---|---|---|
| Tools.KeyDeterminesPkgAndName | gqbuilder/tools.go:30-35 | `getKey` is the package path, a slash and the name: splitting a key at its last slash gives back both parts |
| Tools.KeysCollide | gqbuilder/tools.go:30-35 | types with equal package path and name share a key |
| Tools.AnonymousStructsShareKey | gqbuilder/tools.go:30-35 | distinct anonymous struct types all get the key "/" |
| Tools.KeyHasSlash | gqbuilder/tools.go:30-35 | every key contains a slash |
| Tools.ScalarIn | gqbuilder/schemabuilder.go:704-710 | scalar lookup answers exactly when the type's name is in the table, with that entry |
| Tools.IsScalar | gqbuilder/tools.go:22-28 | the package-level `isScalar` answers exactly when the name is a key of `scalarsMap` |
| Tools.IsScalarIgnoresKind | gqbuilder/tools.go:22-28 | the answer depends on the name only, not on the kind |
| Tools.ToSnakeIsLowerCase | gqbuilder/tools.go:62-64 | the snake-case name has no upper-case letter and is no shorter than the Go name |
| Tools.ToSnakeOnlyInsertsUnderscores | gqbuilder/tools.go:62-64 | the conversion only lower-cases and inserts underscores |
| Tools.SnakeOfJoin | gqbuilder/tools.go:62-64 | a lower-case-ended word followed by a capitalised word gets exactly one underscore between them |
| SnakeCaseExamples.SnakeLimit | tests/reflection_test.go:29 | `Limit` becomes `limit` |
| SnakeCaseExamples.SnakeTagsPointers | tests/reflection_test.go:113 | `TagsPointers` becomes `tags_pointers` |
| SnakeCaseExamples.SnakePointerTagsPointer | tests/reflection_test.go:206 | `PointerTagsPointer` becomes `pointer_tags_pointer` |
| Builder.ScalarTablesDiffer | gqbuilder/tools.go:12-20 | `scalarsMap` maps `int64` to Int where the defaults use the int64 scalar; it has `float`; it lacks `Time`, `Decimal` and `float32` |
| Builder.WithDefaultsProperties | gqbuilder/schemabuilder.go:692-702 | registered scalars win over defaults, every default name is present afterwards, and adding the defaults twice changes nothing |
| Builder.SchemaBuilder.SetDefaultScalars | gqbuilder/schemabuilder.go:692-702 | the scalar table becomes the registered table with each missing default added |
| Registry.RegisterFreeName | gqbuilder/schemabuilder.go:170-195 | registering a free name adds exactly that entry and keeps the others |
| Registry.FirstRegistrationWins | gqbuilder/schemabuilder.go:170-195 | registering a taken name again panics, so the first value survives |
| Builder.SchemaBuilder.constructor | gqbuilder/schemabuilder.go:53-55 | `GetBuilder` leaves every table empty |
| Builder.SchemaBuilder.Query | gqbuilder/schemabuilder.go:120-130 | a free `Query` name gets a fresh, method-less object with the `query{}` prototype; a taken one panics and leaves the table unchanged |
| Builder.SchemaBuilder.Mutation | gqbuilder/schemabuilder.go:145-156 | likewise for `Mutation` |
| Builder.SchemaBuilder.Subscription | gqbuilder/schemabuilder.go:132-143 | likewise for `Subscription`, with a subscription object |
| Builder.SchemaBuilder.Object | gqbuilder/schemabuilder.go:158-177 | a free custom-object name gets a fresh object with the given prototype type; a taken one panics and leaves the table unchanged |
| Builder.SchemaBuilder.RegisterScalar | gqbuilder/schemabuilder.go:687-690 | a free scalar name is added; a taken one panics and leaves the table unchanged |
| Objects.WithMethodAddsOne | gqbuilder/object.go:14-21 | a fresh name adds exactly one entry carrying that name and handler; every other entry is kept |
| Objects.NilEntryIsFree | gqbuilder/object.go:27-29 | a name mapped to nil counts as free and is overwritten |
| Objects.SecondRegistrationPanics | gqbuilder/object.go:27-29 | registering a taken name panics, so the first handler is kept |
| Objects.Object.FieldFunc | gqbuilder/object.go:14-30 | allocates the table on first use, then either panics and keeps the table, or stores the new method |
| Subscriptions.WithSubscriptionAddsOne | gqbuilder/subscription.go:15-33 | a fresh name stores one method with the given name, output and handler; others are kept; a second registration panics |
| Subscriptions.NilEntryBlocks | gqbuilder/subscription.go:30-32 | any present key, even one mapped to nil, blocks the name |
| Subscriptions.SubscriptionObject.FieldSubscription | gqbuilder/subscription.go:15-33 | allocates the table on first use, then either panics and keeps the table, or stores the new method |
| TypeMapping.ActualType | gqbuilder/schemabuilder.go:616-632 | the actual type is one of the type's layers, never a pointer, and a slice only if that slice is a scalar |
| TypeMapping.ActualTypeIdempotent | gqbuilder/schemabuilder.go:616-632 | taking the actual type twice changes nothing |
| TypeMapping.OptionalNeverNonNull | gqbuilder/schemabuilder.go:378-433 | a field reached through a pointer is never top-level NonNull |
| TypeMapping.FieldNonNullIff | gqbuilder/schemabuilder.go:378-433 | a field type is NonNull exactly when required, not a pointer, and a scalar or a struct |
| TypeMapping.FieldTypeNilIff | gqbuilder/schemabuilder.go:378-433 | mapping yields nil exactly when the type behind its pointers is not a scalar and is either another kind, or a struct with no built object that is not made NonNull (reached through a pointer or not required) |
| TypeMapping.FieldTypeUsesActualKey | gqbuilder/schemabuilder.go:389-396 | a field standing for a non-scalar struct refers to the object stored under that struct's key, the key discovery records |
| TypeMapping.FieldTypeUsesActualScalar | gqbuilder/schemabuilder.go:378-433 | a field standing for a scalar maps to that scalar, wrapped |
| TypeMapping.BuiltMapsHoldRefs | gqbuilder/schemabuilder.go:394 | the maps of built objects hold only object references, under the same keys |
| TypeMapping.ResolverOutputOkIff | gqbuilder/schemabuilder.go:653-664 | a resolver result type maps exactly when it is pointers and slices over a struct; otherwise it panics |
| TypeMapping.ResolverInputOkIff | gqbuilder/schemabuilder.go:666-680 | an argument type maps exactly when it is pointers and slices over a struct or a scalar |
| TypeMapping.ResolverOutputNonPointerIsNonNull | gqbuilder/schemabuilder.go:653-664 | a non-pointer resolver result type is NonNull |
| Discovery.Walk | gqbuilder/schemabuilder.go:575-614 | for a valid category, the walk only grows the set, keeps keys consistent and adds only keys reachable through the type table; on success `t` and every newly added type are closed; a non-struct panics |
| Discovery.WalkField | gqbuilder/schemabuilder.go:579-599 | for a valid category, a field's actual type is skipped when scalar or present, else recorded and walked; it is accounted for afterwards |
| Discovery.WalkInvalid | gqbuilder/schemabuilder.go:575-601 | under a category that is neither input nor output, the walk succeeds exactly when `t` is a struct whose every field's actual type is a scalar; otherwise it panics with "Invalid object type" and the category, whatever the sets hold |
| Discovery.FewerMissing | gqbuilder/schemabuilder.go:586-594 | recording a missing reachable key shrinks the set of missing keys: the termination measure over cyclic types |
| Discovery.KeyUniverse | gqbuilder/schemabuilder.go:575-614 | a finite set holds every key the walk can reach |
| Discovery.StoreAndWalk | gqbuilder/schemabuilder.go:291-299 | the type is stored under its key, other entries are kept, every other key added is reachable through the type table, and on success every entry the walk added is closed |
| Builder.SchemaBuilder.FindDependentObjects | gqbuilder/schemabuilder.go:575-614 | only the set the category names grows; on success `t` is closed in it and so is every type it gained; under any other category nothing changes and it succeeds exactly when every field of the struct `t` stands for a scalar |
| Builder.SchemaBuilder.ProcessObject | gqbuilder/schemabuilder.go:287-300 | a scalar changes nothing; otherwise the type is stored only in the set its category names; any other category panics |
| Builder.SchemaBuilder.ProcessHandler | gqbuilder/schemabuilder.go:257-267 | after one method, its result type and argument type are accounted for, and both sets stay closed |
| Builder.SchemaBuilder.FindMethodObjectsRecursive | gqbuilder/schemabuilder.go:255-285 | on success every method of the object is covered; a nil method or one without results panics |
| Builder.SchemaBuilder.StoreAndProcess | gqbuilder/schemabuilder.go:65-78 | the object's type key is among the outputs, and its methods are covered |
| Builder.SchemaBuilder.ProcessCustomObjects | gqbuilder/schemabuilder.go:65-71 | every custom object's type is an output and its methods are covered |
| Builder.SchemaBuilder.ProcessRootObjects | gqbuilder/schemabuilder.go:73-79 | every root object's type is an output and its methods are covered |
| Builder.SchemaBuilder.FindObjectsToBuild | gqbuilder/schemabuilder.go:57-83 | the sets only grow; on success they are closed except for registered types, and every registered object's type key is an output |
| Builder.SchemaBuilder.Discover | gqbuilder/schemabuilder.go:717-719 | default scalars, then discovery: the scalar table gains its defaults, and on success the sets are closed and cover every registration |
| Builder.WalkedFieldFindsShell | gqbuilder/schemabuilder.go:378-433 | once every discovered key has a built object, a field of a walked type that stands for a non-scalar struct refers, under its wrappers, to the object built for that struct and never to nil |
| Builder.OutputFieldFindsShell | gqbuilder/schemabuilder.go:418-424 | the same for output fields: the innermost type is the shell `CreateObjects` made for the field's actual type |
| Builder.InputFieldFindsShell | gqbuilder/schemabuilder.go:389-396 | the same for input fields and the input shells |
| Builder.RootNamesAreNotKeys | gqbuilder/schemabuilder.go:105-108 | no discovered key equals `Query` or `Mutation`, so the skip never fires |
| Builder.CustomLookupMisses | gqbuilder/schemabuilder.go:314 | with slash-free registration names, no output key finds a custom object |
| Builder.SchemaBuilder.CreateObjects | gqbuilder/schemabuilder.go:85-118 | exactly one fresh, field-less shell per input key, named by the key, and per output key other than `Query`/`Mutation`, named by the type; no other key is added or replaced |
| Builder.SchemaBuilder.CreateInputObjects | gqbuilder/schemabuilder.go:94-103 | one fresh, field-less input object per input key |
| Builder.SchemaBuilder.CreateOutputObjects | gqbuilder/schemabuilder.go:105-116 | one fresh, field-less object per output key, each distinct |
| Builder.SchemaBuilder.CreateOutputShell | gqbuilder/schemabuilder.go:106-115 | one output key gets a fresh empty object, except the root names |
| Assembly.InputFieldNilIff | gqbuilder/schemabuilder.go:335-345 | an input field is the nil config exactly when the type behind its pointers is not a scalar and is either another kind, or a struct reached through a pointer that has no built input object |
| Assembly.InputWritesAt | gqbuilder/schemabuilder.go:305-310 | the i-th write into an input object is the i-th struct field's input field under its snake-case name |
| Assembly.OutputFieldShape | gqbuilder/schemabuilder.go:347-358 | a plain output field is nil exactly when the type behind its pointers is not a scalar and is either another kind, or a struct reached through a pointer that has no built object; otherwise it is named by the Go field and has no arguments |
| Assembly.FieldConfigArgumentOkIff | gqbuilder/schemabuilder.go:206-220 | argument definitions exist exactly when the type is a struct whose every field maps as an argument |
| Assembly.FieldConfigArgumentKeys | gqbuilder/schemabuilder.go:206-220 | there is one argument per snake-case field name |
| Assembly.FieldConfigArgumentValue | gqbuilder/schemabuilder.go:212-216 | an unshadowed field defines its argument as its resolver input type |
| Assembly.ResolverInputPanicMessage | gqbuilder/schemabuilder.go:679 | an argument type that does not map panics with "Invalid input type" |
| Assembly.MethodFieldProperties | gqbuilder/schemabuilder.go:435-455 | a handler becomes a field exactly when its result maps and its argument struct, if any, defines arguments; the field calls the handler and is NonNull unless the result is a pointer |
| Assembly.PlainOutputEntry | gqbuilder/schemabuilder.go:326-328 | without a custom object every output entry is the plain field |
| Assembly.OutputObjectFieldsOkIff | gqbuilder/schemabuilder.go:312-331 | filling an output object succeeds exactly when its type is a struct and every field's entry succeeds |
| Assembly.OutputObjectFieldsContent | gqbuilder/schemabuilder.go:312-331 | on success the object holds one field per snake-case name, and an unshadowed field holds its own entry |
| Assembly.SubscriptionFieldProperties | gqbuilder/schemabuilder.go:513-537 | a subscription field exists exactly when its argument struct, if any, defines arguments; its type is the stored object as is, or the nil type when the key has no object |
| Assembly.FillAllWrites | gqbuilder/schemabuilder.go:315-330 | a fill that stops at the first panic succeeds exactly when every entry does, and then equals the ordered writes |
| Assembly.WritesLastWins | gqbuilder/schemabuilder.go:329 | a key not overwritten later holds the value written for it |
| Assembly.RecordSetsOne | gqbuilder/schemabuilder.go:441-448 | recording a prototype creates the inner map if needed, sets exactly one entry and keeps every other |
| Assembly.RecordAllProperties | gqbuilder/schemabuilder.go:441-448 | after `buildMethods`, every method with an argument struct has its zero value under the object's name; other owners are untouched |
| Assembly.RecordEachProperties | gqbuilder/schemabuilder.go:521-529 | after `buildSubscriptionMethods`, a method `n` with an argument struct has its zero value at `argsMap[n][n]`; other owners are untouched |
| Builder.SchemaBuilder.FillInputObject | gqbuilder/schemabuilder.go:304-310 | a struct gets the ordered writes of its input fields; a non-struct panics and changes nothing |
| Builder.SchemaBuilder.FillInputObjects | gqbuilder/schemabuilder.go:303-311 | succeeds exactly when every input key has an object and is a struct; each object then holds its input fields |
| Builder.SchemaBuilder.OutputFieldEntry | gqbuilder/schemabuilder.go:317-328 | the entry is the custom method's field when one is registered under the snake-case name, else the plain field |
| Builder.SchemaBuilder.FillOutputObject | gqbuilder/schemabuilder.go:315-330 | the object ends with exactly the fields `OutputObjectFields` gives, or the panic it predicts |
| Builder.SchemaBuilder.FillOutputKey | gqbuilder/schemabuilder.go:313-330 | a key without an object fails the type assertion; otherwise that key's object gets its specified fields, and no other object changes |
| Builder.SchemaBuilder.FillOutputObjects | gqbuilder/schemabuilder.go:312-331 | succeeds exactly when every output key has an object and its fields succeed; each object then holds them |
| Builder.SchemaBuilder.CreateObjectsFields | gqbuilder/schemabuilder.go:302-333 | on success every input object holds its input fields, and every output object holds its specified fields |
| Builder.SchemaBuilder.FillObjects | gqbuilder/schemabuilder.go:302-333 | on the shells `CreateObjects` made, every output object ends with the fields `OutputObjectFields` gives its type and custom table |
| Builder.SchemaBuilder.MakeObjects | gqbuilder/schemabuilder.go:720-721 | shells then fields: on success every discovered key has its object, input objects hold their fields, output objects are named by their types |
| Builder.SchemaBuilder.BuildTypes | gqbuilder/schemabuilder.go:717-721 | the phases up to the fields: defaults, discovery, shells, fields; on success the key sets of built and discovered types agree |
| Builder.SchemaBuilder.BuildFieldConfigArgument | gqbuilder/schemabuilder.go:206-220 | returns the argument definitions `FieldConfigArgument` specifies |
| Builder.SchemaBuilder.BuildMethod | gqbuilder/schemabuilder.go:435-455 | returns the field `MethodEntryField` specifies, recording the argument prototype under `argsMap[o.name][n]` exactly when the result maps and there is an argument struct |
| Builder.SchemaBuilder.BuildMethods | gqbuilder/schemabuilder.go:502-511 | one field per method, failing exactly when one does; the prototypes of all methods are recorded |
| Builder.SchemaBuilder.BuildSubscriptionMethod | gqbuilder/schemabuilder.go:515-536 | returns the field `SubscriptionEntryField` specifies, recording the prototype under `argsMap[m.name][n]` |
| Builder.SchemaBuilder.BuildSubscriptionMethods | gqbuilder/schemabuilder.go:513-562 | one field per subscription method, failing exactly when one does; each prototype is at `argsMap[n][n]` |
| Builder.SchemaBuilder.BuildRootObject | gqbuilder/schemabuilder.go:222-242 | no registration gives no object; a subscription object panics; otherwise a fresh object named by the root holds each method's field, failing exactly when one does |
| Builder.SchemaBuilder.BuildSubscription | gqbuilder/schemabuilder.go:244-253 | no registration gives no object; a plain object panics; otherwise a fresh object holds each subscription field |
| Builder.SchemaBuilder.BuildRoots | gqbuilder/schemabuilder.go:723-727 | a root registered with the wrong kind of object fails; on success each root is built from its registration |
| Builder.SchemaBuilder.Build | gqbuilder/schemabuilder.go:717-737 | fixed phase order: defaults are added; on success discovery is closed, every discovered input and output has its object, and the roots are built; a misregistered root fails |
| Resolving.SlotsOkIff | gqbuilder/schemabuilder.go:464-481 | the argument vector is built exactly when the handler has a parameter and every slot written exists |
| Resolving.SlotsContent | gqbuilder/schemabuilder.go:464-481 | slot 0 holds the request context, the source slot the source (unless a map), and the argument slot the decoded arguments or the zero value of the argument type |
| Resolving.BackgroundByDefault | gqbuilder/schemabuilder.go:457-463 | without a request context the handler gets the background context, with the selection added exactly when the source is a map |
| Resolving.RootCallWithoutArguments | gqbuilder/schemabuilder.go:474-481 | with no arguments but a known argument type, the argument slot gets that type's zero value |
| Resolving.RespondProperties | gqbuilder/schemabuilder.go:485-497 | a nil first result becomes the zero of the declared result type, and a non-nil second result is returned as the error |
| Resolving.FillSlots | gqbuilder/schemabuilder.go:464-481 | the slot-by-slot array fill yields exactly the vector `Slots` specifies |
| Resolving.ReturnResults | gqbuilder/schemabuilder.go:485-497 | returns exactly the response `Respond` specifies |
| Resolving.Resolve | gqbuilder/schemabuilder.go:456-498 | builds the vector, calls the handler and returns its results as `Resolution` specifies |
| Resolving.ForwardResolution | gqbuilder/schemabuilder.go:537-539 | a subscription field's resolve function returns the source itself with no error: a nil source gives the nil interface, any other the source |
| Int64Scalar.ParseInt | gqbuilder/scalars.go:82-92 | a successful base-10 parse has a non-empty input, and a negative result has a leading minus |
| Int64Scalar.ParseFormatRoundTrip | gqbuilder/scalars.go:87-92 | parsing the base-10 rendering of any int64 gives it back |
| Int64Scalar.RangeLimits | gqbuilder/scalars.go:87-92 | the most negative int64 parses; any magnitude beyond the 64-bit range does not |
| Int64Scalar.PlusSignIgnored | gqbuilder/scalars.go:87-92 | a leading plus sign parses like the bare digits |
| Int64Scalar.Serialize | gqbuilder/scalars.go:61-72 | an int64 is returned unchanged, a pointer to one is dereferenced, and anything else panics |
| Int64Scalar.ParseText | gqbuilder/scalars.go:87-92 | a string yields its value exactly when it parses, and panics otherwise |
| Int64Scalar.ParseValue | gqbuilder/scalars.go:75-98 | int64 values and pointers behave as in `Serialize`; strings and pointers to strings are parsed; any other value panics |
| Int64Scalar.ParseLiteral | gqbuilder/scalars.go:101-112 | an integer literal is parsed, panicking when invalid; every other node, a string literal included, yields nil |
| Int64Scalar.ParseRendered | gqbuilder/scalars.go:75-112 | a rendered int64 sent back as a string variable or an integer literal comes back unchanged |

## Left out

- The subscription `Subscribe` goroutine (gqbuilder/schemabuilder.go:540-559) is concurrency: the model keeps only the subscription field's resolve function.
- The websocket handler (gqbuilder/subHandler.go), logging, and the HTTP server in main.go are transport and I/O.
- `NewSchema` validation and query execution belong to the GraphQL engine. `Build` stops at the schema configuration, and its error return is not modelled.
- `MakeObjectNullable`, `getArgs`, `ParseSelections`, `ReflectStructRecursive`, `FieldResolver` and `GomerObject.GetType` are not shown in the source. All but `GetType` are not given bodies (see the `Builder.TypeOf` line below):
  - `MakeObjectNullable` is a function parameter of the builder;
  - the handler descriptor carries what `getArgs` reports;
  - `ParseSelections` and `ReflectStructRecursive` are recorded as uninterpreted values.
- Builder.TypeOf: `GetType` is assumed to return the `Type` field set at registration, the prototype's type (gqbuilder/schemabuilder.go:125, 138, 151, 163). This includes the `Type` field of `SubscriptionObject`, which `Subscription` sets (gqbuilder/schemabuilder.go:136-139) but the shown struct (gqbuilder/subscription.go:7-13) does not declare. `FindObjectsToBuild`, `Builder.SchemaBuilder.RegistrationsCovered` and `Discover` rest on this assumption.
- Misuse panics are not modelled. `Object(name, nil)`, `FieldSubscription(n, nil, h)`, `FieldFunc(n, nil)` and a handler that is not a function all panic later in Go, at `getKey(nil)` (gqbuilder/tools.go:31) or at `reflect.TypeOf(fn).Out(0)` (gqbuilder/schemabuilder.go:566). The descriptors `TypeDesc` and `Handler` cannot be nil or a non-function.
- `AddFieldConfig` (gqbuilder/schemabuilder.go:309, 329) is modelled as an unconditional map write. A nil config is stored as a `NilInputField` or `NilField` entry and counts among the "one field per snake-case name" of `Assembly.OutputObjectFieldsContent`. Whether the engine keeps a nil config is inside the engine.
- `fun.Call` itself, and its type checks on the argument vector beyond a zero `Value`, are not modelled. The handler call is a function parameter.
- Go's nil maps are modelled as empty maps. The lazy `make` calls become the `methodsAllocated` flag on objects and are otherwise invisible.
- Panic messages of Go's runtime (nil dereference, failed interface conversions, index out of range) are given fixed texts. No call site distinguishes panic messages.
- Builder.SchemaBuilder.Build: only a builder that has not been built before is modelled (its sets of discovered and built types are empty). A second `Build` on the same builder is not modelled.
- Builder.SchemaBuilder.Build: its contract does not restate that every registered object's type is an output with its methods covered. `Discover` states that for the discovery phase, and `Build` changes neither the sets nor the registrations afterwards.
- Builder.SchemaBuilder.Build: its contract does not restate the fields of the output objects. `MakeObjects`, `FillObjects` and `CreateObjectsFields` state them for the phase that writes them.
- Builder.SchemaBuilder.MakeObjects: it states the names and input fields, but not the output fields, which `FillObjects` states.
- Builder.SchemaBuilder.CreateObjectsFields: a custom object's prototypes may change, and only "every other owner is unchanged" is stated (`OthersUnchanged`). `BuildMethods` states the exact prototypes.
- Builder.SchemaBuilder.FindObjectsToBuild: a registered object's own type is stored without its fields being walked, as in the source. The model states closure for every other discovered type only.
- `DecimalScalar`, the float and `DateTime` scalars, and `BuildTestSchema` are outside the modelled core.
- `strcase.ToSnake`'s full acronym and digit rules are replaced by a simple word-boundary rule. Its results are proved for the names the tests use.
