/** The schema builder: registries of root objects, custom objects and
    scalars; the discovery pass over the Go types reachable from handlers;
    the creation of empty object shells and the filling of their fields;
    and the assembly of the root objects. */
module Builder {
  import opened Wrappers
  import opened Reflect
  import opened Schema
  import opened Discovery
  import Objects
  import Subscriptions
  import Tools
  import TypeMapping
  import Registry
  import opened Assembly

  const QueryName := "Query"
  const MutationName := "Mutation"
  const SubscriptionName := "Subscription"

  /** The panics of the type assertions in `buildQuery`/`buildMutation`
      and in `buildSubscription` on a root of the wrong kind. */
  const NotAnObject := "interface conversion: gqbuilder.GomerObject is *gqbuilder.SubscriptionObject, not *gqbuilder.Object"
  const NotASubscriptionObject := "interface conversion: gqbuilder.GomerObject is *gqbuilder.Object, not *gqbuilder.SubscriptionObject"

  /** The package that declares the root prototypes `query{}`,
      `mutation{}` and `subscription{}`. */
  const BuilderPkg := "github.com/mirogindev/gomer/gqbuilder"
  const QueryType := Struct(BuilderPkg, "query", 0)
  const MutationType := Struct(BuilderPkg, "mutation", 0)
  const SubscriptionType := Struct(BuilderPkg, "subscription", 0)

  /** A registered root or custom object. */
  datatype GomerObject =
    | PlainObject(obj: Objects.Object)
    | SubscriptionRoot(sub: Subscriptions.SubscriptionObject)

  /** The dynamic type of the object's prototype value. */
  function TypeOf(gm: GomerObject): TypeDesc {
    match gm
    case PlainObject(o) => o.typ
    case SubscriptionRoot(s) => s.typ
  }

  /** The scalars a build adds unless already registered. */
  const DefaultScalarsMap: map<string, Scalar> := map[
    "string" := Schema.String,
    "int" := Schema.Int,
    "int64" := Schema.Int64,
    "Decimal" := Schema.Decimal,
    "float64" := Schema.Float,
    "float32" := Schema.Float,
    "datetime" := Schema.DateTime,
    "Time" := Schema.DateTime,
    "bool" := Schema.Boolean
  ]

  /** The package-level table differs from the builder's defaults: it
      maps `int64` to the built-in Int, has `float`, and lacks `Time`,
      `Decimal` and `float32`. */
  lemma ScalarTablesDiffer()
    ensures Tools.ScalarsMap["int64"] == Schema.Int && DefaultScalarsMap["int64"] == Schema.Int64 && Schema.Int != Schema.Int64
    ensures "float" in Tools.ScalarsMap && "float" !in DefaultScalarsMap
    ensures forall n | n in {"Time", "Decimal", "float32"} :: n in DefaultScalarsMap && n !in Tools.ScalarsMap
  {
  }

  /** `scalars` with the defaults named in `names` added where missing. */
  function AddDefaults(scalars: map<string, Scalar>, names: set<string>): map<string, Scalar>
    requires names <= DefaultScalarsMap.Keys
  {
    map k | k in scalars.Keys + names :: if k in scalars then scalars[k] else DefaultScalarsMap[k]
  }

  /** The scalar table after `SetDefaultScalars`. */
  function WithDefaults(scalars: map<string, Scalar>): map<string, Scalar> {
    AddDefaults(scalars, DefaultScalarsMap.Keys)
  }

  /** Registered scalars win over defaults, every default name ends up
      present, and adding the defaults twice changes nothing. */
  lemma WithDefaultsProperties(scalars: map<string, Scalar>)
    ensures forall k | k in scalars :: k in WithDefaults(scalars) && WithDefaults(scalars)[k] == scalars[k]
    ensures WithDefaults(scalars).Keys == scalars.Keys + DefaultScalarsMap.Keys
    ensures forall k | k in DefaultScalarsMap && k !in scalars :: WithDefaults(scalars)[k] == DefaultScalarsMap[k]
    ensures WithDefaults(WithDefaults(scalars)) == WithDefaults(scalars)
  {
  }

  /** A handler's result type and argument type (if any) are accounted for. */
  predicate HandlerCovered(scalars: TypeMapping.Scalars, inputs: Found, outputs: Found, out: TypeDesc, h: Handler) {
    Accounted(scalars, outputs, out) && (h.argType.Some? ==> Accounted(scalars, inputs, h.argType.value))
  }

  function Repr(gm: GomerObject): set<object> {
    match gm
    case PlainObject(o) => {o}
    case SubscriptionRoot(s) => {s}
  }

  /** A method entry is a non-nil handler with a result whose result and
      argument types are accounted for. */
  predicate MethodCovered(scalars: TypeMapping.Scalars, inputs: Found, outputs: Found, m: Objects.MethodRef) {
    && m.MethodPtr?
    && |m.target.fn.outs| > 0
    && HandlerCovered(scalars, inputs, outputs, m.target.fn.outs[0], m.target.fn)
  }

  /** A subscription entry is non-nil and its output and argument types are
      accounted for. */
  predicate SubscriptionCovered(scalars: TypeMapping.Scalars, inputs: Found, outputs: Found, m: Subscriptions.SubscriptionRef) {
    && m.SubscriptionPtr?
    && HandlerCovered(scalars, inputs, outputs, m.target.output, m.target.fn)
  }

  /** Every method of the object is covered. */
  ghost predicate ObjectCovered(scalars: TypeMapping.Scalars, inputs: Found, outputs: Found, gm: GomerObject)
    reads Repr(gm)
  {
    match gm
    case PlainObject(o) => forall n | n in o.methods :: MethodCovered(scalars, inputs, outputs, o.methods[n])
    case SubscriptionRoot(s) => forall n | n in s.methods :: SubscriptionCovered(scalars, inputs, outputs, s.methods[n])
  }

  /** Coverage only needs presence, so it survives growth of the sets. */
  lemma ObjectCoveredGrows(scalars: TypeMapping.Scalars, i1: Found, o1: Found, i2: Found, o2: Found, gm: GomerObject)
    requires i1.Keys <= i2.Keys && o1.Keys <= o2.Keys
    requires ObjectCovered(scalars, i1, o1, gm)
    ensures ObjectCovered(scalars, i2, o2, gm)
  {
    match gm
    case PlainObject(o) =>
      forall n | n in o.methods
        ensures MethodCovered(scalars, i2, o2, o.methods[n])
      {
        assert MethodCovered(scalars, i1, o1, o.methods[n]);
      }
    case SubscriptionRoot(s) =>
      forall n | n in s.methods
        ensures SubscriptionCovered(scalars, i2, o2, s.methods[n])
      {
        assert SubscriptionCovered(scalars, i1, o1, s.methods[n]);
      }
  }

  lemma MethodsCoveredGrow(scalars: TypeMapping.Scalars, i1: Found, o1: Found, i2: Found, o2: Found,
                           methods: map<string, Objects.MethodRef>, done: set<string>, n: string)
    requires i1.Keys <= i2.Keys && o1.Keys <= o2.Keys
    requires forall d | d in methods && d in done :: MethodCovered(scalars, i1, o1, methods[d])
    requires n in methods && MethodCovered(scalars, i2, o2, methods[n])
    ensures forall d | d in methods && d in done + {n} :: MethodCovered(scalars, i2, o2, methods[d])
  {
    forall d | d in methods && d in done + {n}
      ensures MethodCovered(scalars, i2, o2, methods[d])
    {
      if d != n {
        assert MethodCovered(scalars, i1, o1, methods[d]);
      }
    }
  }

  lemma SubscriptionsCoveredGrow(scalars: TypeMapping.Scalars, i1: Found, o1: Found, i2: Found, o2: Found,
                                 methods: map<string, Subscriptions.SubscriptionRef>, done: set<string>, n: string)
    requires i1.Keys <= i2.Keys && o1.Keys <= o2.Keys
    requires forall d | d in methods && d in done :: SubscriptionCovered(scalars, i1, o1, methods[d])
    requires n in methods && SubscriptionCovered(scalars, i2, o2, methods[n])
    ensures forall d | d in methods && d in done + {n} :: SubscriptionCovered(scalars, i2, o2, methods[d])
  {
    forall d | d in methods && d in done + {n}
      ensures SubscriptionCovered(scalars, i2, o2, methods[d])
    {
      if d != n {
        assert SubscriptionCovered(scalars, i1, o1, methods[d]);
      }
    }
  }

  function ObjectsRepr(roots: map<string, GomerObject>): set<object> {
    set n, o | n in roots && o in Repr(roots[n]) :: o
  }

  /** The objects registered under `names` have their types stored and
      their methods covered. */
  ghost predicate RootsCovered(scalars: TypeMapping.Scalars, inputs: Found, outputs: Found, roots: map<string, GomerObject>,
                               names: set<string>)
    reads ObjectsRepr(roots)
  {
    forall n | n in names && n in roots ::
      Tools.GetKey(TypeOf(roots[n])) in outputs && ObjectCovered(scalars, inputs, outputs, roots[n])
  }

  /** Coverage of some names survives growth, and joins coverage of more. */
  lemma RootsCoveredGrow(scalars: TypeMapping.Scalars, i1: Found, o1: Found, i2: Found, o2: Found,
                         roots: map<string, GomerObject>, names: set<string>, more: set<string>)
    requires i1.Keys <= i2.Keys && o1.Keys <= o2.Keys
    requires RootsCovered(scalars, i1, o1, roots, names)
    requires RootsCovered(scalars, i2, o2, roots, more)
    ensures RootsCovered(scalars, i2, o2, roots, names + more)
  {
    forall n | n in names && n in roots && n !in more
      ensures Tools.GetKey(TypeOf(roots[n])) in o2 && ObjectCovered(scalars, i2, o2, roots[n])
    {
      assert Repr(roots[n]) <= ObjectsRepr(roots);
      ObjectCoveredGrows(scalars, i1, o1, i2, o2, roots[n]);
    }
  }

  /** The custom objects, seen as root objects. */
  function AsRoots(customs: map<string, Objects.Object>): map<string, GomerObject> {
    map n | n in customs :: PlainObject(customs[n])
  }

  /** No type key is a plain root-object name: every key has a slash. So
      the skip of `Query` and `Mutation` in `CreateObjects` never fires. */
  lemma RootNamesAreNotKeys(found: Found)
    requires KeyConsistent(found)
    ensures QueryName !in found && MutationName !in found
  {
    if QueryName in found {
      Tools.KeyHasSlash(found[QueryName]);
    }
    if MutationName in found {
      Tools.KeyHasSlash(found[MutationName]);
    }
  }

  /** `customObjects` is keyed by registration name while output types
      are keyed by type key, so an output type finds its custom object only
      if some registration name has a slash: with slash-free names (every
      registration in the repository's tests and example server), no
      output type ever does. */
  lemma CustomLookupMisses(outputs: Found, customs: map<string, Objects.Object>)
    requires KeyConsistent(outputs)
    requires forall c | c in customs :: '/' !in c
    ensures forall n | n in outputs :: n !in customs
  {
    forall n | n in outputs
      ensures n !in customs
    {
      Tools.KeyHasSlash(outputs[n]);
    }
  }

  /** What the shells are for: once every discovered key has a built
      object, a field of a walked type that stands for a struct that is not
      a scalar refers, under all its NonNull and List wrappers, to the
      object built for that struct, and never to the nil a missing key
      gives. */
  lemma WalkedFieldFindsShell(types: TypeTable, scalars: TypeMapping.Scalars, found: Found, exempt: set<string>,
                              memo: map<string, SchemaType>, k: string, f: FieldDesc, required: bool)
    requires AllClosed(types, scalars, found, exempt) && TypeMapping.ObjectRefs(memo) && memo.Keys == found.Keys
    requires k in found && k !in exempt && f in Fields(types, found[k])
    requires TypeMapping.ActualType(scalars, f.typ).Struct?
    requires Tools.ScalarIn(scalars, TypeMapping.ActualType(scalars, f.typ)).None?
    ensures Tools.GetKey(TypeMapping.ActualType(scalars, f.typ)) in memo
    ensures TypeMapping.Innermost(TypeMapping.FieldType(scalars, memo, f.typ, required))
         == memo[Tools.GetKey(TypeMapping.ActualType(scalars, f.typ))]
    ensures TypeMapping.Innermost(TypeMapping.FieldType(scalars, memo, f.typ, required)) != Nil
  {
    assert Closed(types, scalars, found, found[k]);
    assert Accounted(scalars, found, f.typ);
    TypeMapping.FieldTypeUsesActualKey(scalars, memo, f.typ, required);
  }

  /** `WalkedFieldFindsShell` for the output objects `CreateObjects` made. */
  lemma OutputFieldFindsShell(types: TypeTable, scalars: TypeMapping.Scalars, outputs: Found, exempt: set<string>,
                              built: map<string, ObjectDef>, k: string, f: FieldDesc)
    requires AllClosed(types, scalars, outputs, exempt) && built.Keys == outputs.Keys
    requires k in outputs && k !in exempt && f in Fields(types, outputs[k])
    requires TypeMapping.ActualType(scalars, f.typ).Struct?
    requires Tools.ScalarIn(scalars, TypeMapping.ActualType(scalars, f.typ)).None?
    ensures Tools.GetKey(TypeMapping.ActualType(scalars, f.typ)) in built
    ensures TypeMapping.Innermost(TypeMapping.OutputFieldType(scalars, built, f.typ, true))
         == OutputRef(built[Tools.GetKey(TypeMapping.ActualType(scalars, f.typ))])
  {
    TypeMapping.BuiltMapsHoldRefs(map[], built);
    WalkedFieldFindsShell(types, scalars, outputs, exempt, TypeMapping.OutputRefs(built), k, f, true);
  }

  /** `WalkedFieldFindsShell` for the input objects `CreateObjects` made. */
  lemma InputFieldFindsShell(types: TypeTable, scalars: TypeMapping.Scalars, inputs: Found,
                             built: map<string, InputObjectDef>, k: string, f: FieldDesc)
    requires AllClosed(types, scalars, inputs, {}) && built.Keys == inputs.Keys
    requires k in inputs && f in Fields(types, inputs[k])
    requires TypeMapping.ActualType(scalars, f.typ).Struct?
    requires Tools.ScalarIn(scalars, TypeMapping.ActualType(scalars, f.typ)).None?
    ensures Tools.GetKey(TypeMapping.ActualType(scalars, f.typ)) in built
    ensures TypeMapping.Innermost(TypeMapping.InputFieldType(scalars, built, f.typ, true))
         == InputRef(built[Tools.GetKey(TypeMapping.ActualType(scalars, f.typ))])
  {
    TypeMapping.BuiltMapsHoldRefs(built, map[]);
    WalkedFieldFindsShell(types, scalars, inputs, {}, TypeMapping.InputRefs(built), k, f, true);
  }

  /** A custom object's method table, if there is one. */
  function CustomTable(co: Option<Objects.Object>): Option<map<string, Objects.MethodRef>>
    reads if co.Some? then {co.value} else {}
  {
    if co.Some? then Some(co.value.methods) else None
  }

  /** The owners whose prototypes filling an object with custom object `co` may change. */
  function Owners(co: Option<Objects.Object>): set<string> {
    if co.Some? then {co.value.name} else {}
  }

  /** The root objects handed to the engine's schema constructor. */
  function Defs(d: Option<ObjectDef>): set<ObjectDef> {
    if d.Some? then {d.value} else {}
  }

  datatype SchemaConfig = SchemaConfig(query: Option<ObjectDef>, mutation: Option<ObjectDef>, subscription: Option<ObjectDef>)

  class SchemaBuilder {
    /** The program's struct definitions, as reflection reports them. */
    const types: TypeTable
    /** `MakeObjectNullable`, which the model does not define. */
    const makeNullable: SchemaType -> SchemaType

    var scalars: map<string, Scalar>
    var objects: map<string, GomerObject>
    var customObjects: map<string, Objects.Object>
    var outputsToBuild: map<string, TypeDesc>
    var inputsToBuild: map<string, TypeDesc>
    var argsMap: map<string, map<string, Prototype>>
    var builtOutputs: map<string, ObjectDef>
    var builtInputs: map<string, InputObjectDef>
    /** The output type key each object made by `CreateObjects` was made for. */
    ghost var shellOwner: map<ObjectDef, string>

    /** The keys of the types of registered objects, which discovery stores
        without walking their fields. */
    ghost function RegisteredKeys(): set<string>
      reads this`customObjects, this`objects
    {
      (set n | n in customObjects :: Tools.GetKey(customObjects[n].typ))
      + (set n | n in objects :: Tools.GetKey(TypeOf(objects[n])))
    }

    /** Every registered object, custom or root, has its type among the
        outputs and its methods covered by discovery. */
    ghost predicate RegistrationsCovered()
      reads this`scalars, this`inputsToBuild, this`outputsToBuild, this`customObjects, this`objects
      reads ObjectsRepr(AsRoots(customObjects)), ObjectsRepr(objects)
    {
      && RootsCovered(scalars, inputsToBuild, outputsToBuild, AsRoots(customObjects), customObjects.Keys)
      && RootsCovered(scalars, inputsToBuild, outputsToBuild, objects, objects.Keys)
    }

    /** The discovered sets are keyed consistently and closed, except for
        the registered objects' own types. */
    ghost predicate Discovered()
      reads this`inputsToBuild, this`outputsToBuild, this`scalars, this`customObjects, this`objects
    {
      Settled(types, scalars, inputsToBuild, outputsToBuild, RegisteredKeys())
    }

    /** `GetBuilder`: every table empty. */
    constructor (types: TypeTable, makeNullable: SchemaType -> SchemaType)
      ensures this.types == types && this.makeNullable == makeNullable
      ensures scalars == map[] && objects == map[] && customObjects == map[]
      ensures outputsToBuild == map[] && inputsToBuild == map[] && argsMap == map[]
      ensures builtOutputs == map[] && builtInputs == map[]
      ensures Discovered()
    {
      this.types := types;
      this.makeNullable := makeNullable;
      scalars := map[];
      objects := map[];
      customObjects := map[];
      outputsToBuild := map[];
      inputsToBuild := map[];
      argsMap := map[];
      builtOutputs := map[];
      builtInputs := map[];
      shellOwner := map[];
    }

    // ---------------------------------------------------------------- registries

    method Query() returns (r: Result<Objects.Object>)
      modifies this`objects
      ensures r.Ok? <==> QueryName !in old(objects)
      ensures r.Panic? ==> objects == old(objects)
      ensures r.Ok? ==> && fresh(r.value) && r.value.name == QueryName && r.value.typ == QueryType
                        && r.value.methods == map[] && r.value.Valid()
                        && objects == Registry.Register(old(objects), QueryName, PlainObject(r.value), "Resolver").value
    {
      if QueryName in objects {
        return Panic("Resolver with name " + QueryName + " aready exists");
      }
      var obj := new Objects.Object(QueryName, QueryType);
      objects := objects[QueryName := PlainObject(obj)];
      r := Ok(obj);
    }

    method Subscription() returns (r: Result<Subscriptions.SubscriptionObject>)
      modifies this`objects
      ensures r.Ok? <==> SubscriptionName !in old(objects)
      ensures r.Panic? ==> objects == old(objects)
      ensures r.Ok? ==> && fresh(r.value) && r.value.name == SubscriptionName && r.value.typ == SubscriptionType
                        && r.value.methods == map[] && r.value.Valid()
                        && objects == Registry.Register(old(objects), SubscriptionName, SubscriptionRoot(r.value), "Resolver").value
    {
      if SubscriptionName in objects {
        return Panic("Resolver with name " + SubscriptionName + " aready exists");
      }
      var obj := new Subscriptions.SubscriptionObject(SubscriptionName, SubscriptionType);
      objects := objects[SubscriptionName := SubscriptionRoot(obj)];
      r := Ok(obj);
    }

    method Mutation() returns (r: Result<Objects.Object>)
      modifies this`objects
      ensures r.Ok? <==> MutationName !in old(objects)
      ensures r.Panic? ==> objects == old(objects)
      ensures r.Ok? ==> && fresh(r.value) && r.value.name == MutationName && r.value.typ == MutationType
                        && r.value.methods == map[] && r.value.Valid()
                        && objects == Registry.Register(old(objects), MutationName, PlainObject(r.value), "Resolver").value
    {
      if MutationName in objects {
        return Panic("Resolver with name " + MutationName + " aready exists");
      }
      var obj := new Objects.Object(MutationName, MutationType);
      objects := objects[MutationName := PlainObject(obj)];
      r := Ok(obj);
    }

    /** `Object`: register a custom object whose fields come from `objType`. */
    method Object(name: string, objType: TypeDesc) returns (r: Result<Objects.Object>)
      modifies this`customObjects
      ensures r.Ok? <==> name !in old(customObjects)
      ensures r.Panic? ==> customObjects == old(customObjects)
      ensures r.Ok? ==> && fresh(r.value) && r.value.name == name && r.value.typ == objType
                        && r.value.methods == map[] && r.value.Valid()
                        && customObjects == Registry.Register(old(customObjects), name, r.value, "Cutsom object").value
    {
      if name in customObjects {
        return Panic("Cutsom object with name " + name + " aready exists");
      }
      var obj := new Objects.Object(name, objType);
      customObjects := customObjects[name := obj];
      r := Ok(obj);
    }

    method RegisterScalar(key: string, sType: Scalar) returns (r: Result<()>)
      modifies this`scalars
      ensures r.Ok? == Registry.Register(old(scalars), key, sType, "Scalar").Ok?
      ensures scalars == if r.Ok? then Registry.Register(old(scalars), key, sType, "Scalar").value else old(scalars)
    {
      if key in scalars {
        return Panic("Scalar with name " + key + " aready exists");
      }
      scalars := scalars[key := sType];
      r := Ok(());
    }

    method SetDefaultScalars()
      modifies this`scalars
      ensures scalars == WithDefaults(old(scalars))
    {
      var todo := DefaultScalarsMap.Keys;
      while todo != {}
        invariant todo <= DefaultScalarsMap.Keys
        invariant scalars == AddDefaults(old(scalars), DefaultScalarsMap.Keys - todo)
        decreases todo
      {
        var k :| k in todo;
        if k !in scalars {
          scalars := scalars[k := DefaultScalarsMap[k]];
        }
        todo := todo - {k};
      }
    }

    // ---------------------------------------------------------------- discovery

    /** The discovered set a category names; anything but the input
        category reads as the output set. */
    ghost function Found(objType: string): Found
      reads this
    {
      if objType == INPUT_TYPE then inputsToBuild else outputsToBuild
    }

    /** `findDependentObjects`: grow the set `objType` names by the walk
        from `t`; any other category panics at the first field that is not
        a scalar, whatever the sets hold. */
    method FindDependentObjects(t: TypeDesc, objType: string) returns (r: Result<()>)
      requires KeyConsistent(inputsToBuild) && KeyConsistent(outputsToBuild)
      modifies this`inputsToBuild, this`outputsToBuild
      ensures KeyConsistent(inputsToBuild) && KeyConsistent(outputsToBuild)
      ensures Grew(old(inputsToBuild), inputsToBuild) && Grew(old(outputsToBuild), outputsToBuild)
      ensures objType != INPUT_TYPE ==> inputsToBuild == old(inputsToBuild)
      ensures objType != OUTPUT_TYPE ==> outputsToBuild == old(outputsToBuild)
      ensures !t.Struct? ==> r.Panic?
      ensures objType != INPUT_TYPE && objType != OUTPUT_TYPE ==> (r.Ok? <==> ScalarFieldsOnly(types, scalars, t))
      ensures r.Ok? ==> Closed(types, scalars, Found(objType), t)
      ensures r.Ok? ==> NewClosed(types, scalars, old(Found(objType)), Found(objType))
    {
      if objType == INPUT_TYPE {
        inputsToBuild, r := Walk(types, scalars, inputsToBuild, t, KeyUniverse(types));
      } else if objType == OUTPUT_TYPE {
        outputsToBuild, r := Walk(types, scalars, outputsToBuild, t, KeyUniverse(types));
      } else {
        r := WalkInvalid(types, scalars, t, objType);
      }
    }

    /** `processObject`: nothing for a scalar; otherwise store `t` under its
        key in the set `objType` names and walk it; any other category
        panics. */
    method ProcessObject(t: TypeDesc, objType: string) returns (r: Result<()>)
      requires KeyConsistent(inputsToBuild) && KeyConsistent(outputsToBuild)
      modifies this`inputsToBuild, this`outputsToBuild
      ensures KeyConsistent(inputsToBuild) && KeyConsistent(outputsToBuild)
      ensures objType != INPUT_TYPE ==> inputsToBuild == old(inputsToBuild)
      ensures objType != OUTPUT_TYPE ==> outputsToBuild == old(outputsToBuild)
      ensures Tools.ScalarIn(scalars, t).Some? ==> r.Ok? && Found(objType) == old(Found(objType))
      ensures Tools.ScalarIn(scalars, t).None? && objType != INPUT_TYPE && objType != OUTPUT_TYPE ==> r.Panic?
      ensures old(Found(objType)).Keys <= Found(objType).Keys
      ensures forall k | k in old(Found(objType)) && k != Tools.GetKey(t) :: Found(objType)[k] == old(Found(objType))[k]
      ensures r.Ok? && Tools.ScalarIn(scalars, t).None? ==>
                && Tools.GetKey(t) in Found(objType) && Found(objType)[Tools.GetKey(t)] == t
                && NewClosed(types, scalars, old(Found(objType)) - {Tools.GetKey(t)}, Found(objType))
    {
      if Tools.ScalarIn(scalars, t).Some? {
        return Ok(());
      }
      if objType == INPUT_TYPE {
        inputsToBuild, r := StoreAndWalk(types, scalars, inputsToBuild, t);
      } else if objType == OUTPUT_TYPE {
        outputsToBuild, r := StoreAndWalk(types, scalars, outputsToBuild, t);
      } else {
        return Panic("Invalid object type " + objType);
      }
    }

    /** One method of `findMethodObjectsRecursive`: process the actual type
        of its result as an output and, when it takes arguments, the actual
        type of those as an input. */
    method ProcessHandler(out: TypeDesc, h: Handler, ghost exempt: set<string>) returns (r: Result<()>)
      requires KeyConsistent(inputsToBuild) && KeyConsistent(outputsToBuild)
      requires AllClosed(types, scalars, inputsToBuild, {}) && AllClosed(types, scalars, outputsToBuild, exempt)
      modifies this`inputsToBuild, this`outputsToBuild
      ensures KeyConsistent(inputsToBuild) && KeyConsistent(outputsToBuild)
      ensures old(inputsToBuild).Keys <= inputsToBuild.Keys && old(outputsToBuild).Keys <= outputsToBuild.Keys
      ensures r.Ok? ==> AllClosed(types, scalars, inputsToBuild, {}) && AllClosed(types, scalars, outputsToBuild, exempt)
      ensures r.Ok? ==> HandlerCovered(scalars, inputsToBuild, outputsToBuild, out, h)
    {
      var ro := TypeMapping.ActualType(scalars, out);
      ghost var outs0 := outputsToBuild;
      r := ProcessObject(ro, OUTPUT_TYPE);
      if r.Panic? {
        return;
      }
      if Tools.ScalarIn(scalars, ro).Some? {
        AccountedByScalar(scalars, outputsToBuild, out);
      } else {
        AllClosedPreserved(types, scalars, outs0, outputsToBuild, Tools.GetKey(ro), exempt);
        AccountedByKey(scalars, outputsToBuild, out);
      }
      if h.argType.None? {
        return;
      }
      var ao := TypeMapping.ActualType(scalars, h.argType.value);
      ghost var ins0 := inputsToBuild;
      r := ProcessObject(ao, INPUT_TYPE);
      if r.Panic? {
        return;
      }
      if Tools.ScalarIn(scalars, ao).Some? {
        AccountedByScalar(scalars, inputsToBuild, h.argType.value);
      } else {
        AllClosedPreserved(types, scalars, ins0, inputsToBuild, Tools.GetKey(ao), {});
        AccountedByKey(scalars, inputsToBuild, h.argType.value);
      }
    }

    /** `findMethodObjectsRecursive`: process every method of a root or
        custom object, in any order. */
    method FindMethodObjectsRecursive(gm: GomerObject, ghost exempt: set<string>) returns (r: Result<()>)
      requires KeyConsistent(inputsToBuild) && KeyConsistent(outputsToBuild)
      requires AllClosed(types, scalars, inputsToBuild, {}) && AllClosed(types, scalars, outputsToBuild, exempt)
      modifies this`inputsToBuild, this`outputsToBuild
      ensures KeyConsistent(inputsToBuild) && KeyConsistent(outputsToBuild)
      ensures old(inputsToBuild).Keys <= inputsToBuild.Keys && old(outputsToBuild).Keys <= outputsToBuild.Keys
      ensures r.Ok? ==> AllClosed(types, scalars, inputsToBuild, {}) && AllClosed(types, scalars, outputsToBuild, exempt)
      ensures r.Ok? ==> ObjectCovered(scalars, inputsToBuild, outputsToBuild, gm)
    {
      r := Ok(());
      match gm
      case PlainObject(o) =>
        var todo := o.methods.Keys;
        while todo != {}
          invariant todo <= o.methods.Keys
          invariant KeyConsistent(inputsToBuild) && KeyConsistent(outputsToBuild)
          invariant old(inputsToBuild).Keys <= inputsToBuild.Keys && old(outputsToBuild).Keys <= outputsToBuild.Keys
          invariant AllClosed(types, scalars, inputsToBuild, {}) && AllClosed(types, scalars, outputsToBuild, exempt)
          invariant forall n | n in o.methods && n !in todo :: MethodCovered(scalars, inputsToBuild, outputsToBuild, o.methods[n])
          invariant r.Ok?
          decreases todo
        {
          var n :| n in todo;
          var v := o.methods[n];
          if v.NilMethod? {
            return Panic("runtime error: invalid memory address or nil pointer dereference");
          }
          var h := v.target.fn;
          if |h.outs| == 0 {
            return Panic("runtime error: index out of range [0] with length 0");
          }
          ghost var ins0, outs0 := inputsToBuild, outputsToBuild;
          r := ProcessHandler(h.outs[0], h, exempt);
          if r.Panic? {
            return;
          }
          MethodsCoveredGrow(scalars, ins0, outs0, inputsToBuild, outputsToBuild, o.methods, o.methods.Keys - todo, n);
          todo := todo - {n};
        }
      case SubscriptionRoot(so) =>
        var todo := so.methods.Keys;
        while todo != {}
          invariant todo <= so.methods.Keys
          invariant KeyConsistent(inputsToBuild) && KeyConsistent(outputsToBuild)
          invariant old(inputsToBuild).Keys <= inputsToBuild.Keys && old(outputsToBuild).Keys <= outputsToBuild.Keys
          invariant AllClosed(types, scalars, inputsToBuild, {}) && AllClosed(types, scalars, outputsToBuild, exempt)
          invariant forall n | n in so.methods && n !in todo :: SubscriptionCovered(scalars, inputsToBuild, outputsToBuild, so.methods[n])
          invariant r.Ok?
          decreases todo
        {
          var n :| n in todo;
          var v := so.methods[n];
          if v.NilSubscription? {
            return Panic("runtime error: invalid memory address or nil pointer dereference");
          }
          ghost var ins0, outs0 := inputsToBuild, outputsToBuild;
          r := ProcessHandler(v.target.output, v.target.fn, exempt);
          if r.Panic? {
            return;
          }
          SubscriptionsCoveredGrow(scalars, ins0, outs0, inputsToBuild, outputsToBuild, so.methods, so.methods.Keys - todo, n);
          todo := todo - {n};
        }
    }

    /** One iteration of `FindObjectsToBuild`: store the object's type
        among the outputs under its key, then process its methods. */
    method StoreAndProcess(gm: GomerObject, ghost exempt: set<string>) returns (r: Result<()>)
      requires KeyConsistent(inputsToBuild) && KeyConsistent(outputsToBuild)
      requires AllClosed(types, scalars, inputsToBuild, {}) && AllClosed(types, scalars, outputsToBuild, exempt)
      requires Tools.GetKey(TypeOf(gm)) in exempt
      modifies this`inputsToBuild, this`outputsToBuild
      ensures KeyConsistent(inputsToBuild) && KeyConsistent(outputsToBuild)
      ensures old(inputsToBuild).Keys <= inputsToBuild.Keys && old(outputsToBuild).Keys <= outputsToBuild.Keys
      ensures Tools.GetKey(TypeOf(gm)) in outputsToBuild
      ensures r.Ok? ==> AllClosed(types, scalars, inputsToBuild, {}) && AllClosed(types, scalars, outputsToBuild, exempt)
      ensures r.Ok? ==> ObjectCovered(scalars, inputsToBuild, outputsToBuild, gm)
    {
      var t := TypeOf(gm);
      AllClosedExemptWrite(types, scalars, outputsToBuild, Tools.GetKey(t), t, exempt);
      outputsToBuild := outputsToBuild[Tools.GetKey(t) := t];
      r := FindMethodObjectsRecursive(gm, exempt);
    }

    /** The first loop of `FindObjectsToBuild`: every custom object. */
    method ProcessCustomObjects(ghost exempt: set<string>) returns (r: Result<()>)
      requires KeyConsistent(inputsToBuild) && KeyConsistent(outputsToBuild)
      requires AllClosed(types, scalars, inputsToBuild, {}) && AllClosed(types, scalars, outputsToBuild, exempt)
      requires RegisteredKeys() <= exempt
      modifies this`inputsToBuild, this`outputsToBuild
      ensures KeyConsistent(inputsToBuild) && KeyConsistent(outputsToBuild)
      ensures old(inputsToBuild).Keys <= inputsToBuild.Keys && old(outputsToBuild).Keys <= outputsToBuild.Keys
      ensures r.Ok? ==> AllClosed(types, scalars, inputsToBuild, {}) && AllClosed(types, scalars, outputsToBuild, exempt)
      ensures r.Ok? ==> RootsCovered(scalars, inputsToBuild, outputsToBuild, AsRoots(customObjects), customObjects.Keys)
    {
      var customs := AsRoots(customObjects);
      var todo := customObjects.Keys;
      r := Ok(());
      while todo != {}
        invariant todo <= customObjects.Keys
        invariant KeyConsistent(inputsToBuild) && KeyConsistent(outputsToBuild)
        invariant old(inputsToBuild).Keys <= inputsToBuild.Keys && old(outputsToBuild).Keys <= outputsToBuild.Keys
        invariant AllClosed(types, scalars, inputsToBuild, {}) && AllClosed(types, scalars, outputsToBuild, exempt)
        invariant RootsCovered(scalars, inputsToBuild, outputsToBuild, customs, customObjects.Keys - todo)
        decreases todo
      {
        var n :| n in todo;
        ghost var ins0, outs0 := inputsToBuild, outputsToBuild;
        assert customs[n] == PlainObject(customObjects[n]);
        r := StoreAndProcess(PlainObject(customObjects[n]), exempt);
        if r.Panic? {
          return;
        }
        RootsCoveredGrow(scalars, ins0, outs0, inputsToBuild, outputsToBuild, customs, customObjects.Keys - todo, {n});
        todo := todo - {n};
      }
    }

    /** The second loop of `FindObjectsToBuild`: every root object. */
    method ProcessRootObjects(ghost exempt: set<string>) returns (r: Result<()>)
      requires KeyConsistent(inputsToBuild) && KeyConsistent(outputsToBuild)
      requires AllClosed(types, scalars, inputsToBuild, {}) && AllClosed(types, scalars, outputsToBuild, exempt)
      requires RegisteredKeys() <= exempt
      modifies this`inputsToBuild, this`outputsToBuild
      ensures KeyConsistent(inputsToBuild) && KeyConsistent(outputsToBuild)
      ensures old(inputsToBuild).Keys <= inputsToBuild.Keys && old(outputsToBuild).Keys <= outputsToBuild.Keys
      ensures r.Ok? ==> AllClosed(types, scalars, inputsToBuild, {}) && AllClosed(types, scalars, outputsToBuild, exempt)
      ensures r.Ok? ==> RootsCovered(scalars, inputsToBuild, outputsToBuild, objects, objects.Keys)
    {
      var todo := objects.Keys;
      r := Ok(());
      while todo != {}
        invariant todo <= objects.Keys
        invariant KeyConsistent(inputsToBuild) && KeyConsistent(outputsToBuild)
        invariant old(inputsToBuild).Keys <= inputsToBuild.Keys && old(outputsToBuild).Keys <= outputsToBuild.Keys
        invariant AllClosed(types, scalars, inputsToBuild, {}) && AllClosed(types, scalars, outputsToBuild, exempt)
        invariant RootsCovered(scalars, inputsToBuild, outputsToBuild, objects, objects.Keys - todo)
        decreases todo
      {
        var n :| n in todo;
        ghost var ins0, outs0 := inputsToBuild, outputsToBuild;
        r := StoreAndProcess(objects[n], exempt);
        if r.Panic? {
          return;
        }
        RootsCoveredGrow(scalars, ins0, outs0, inputsToBuild, outputsToBuild, objects, objects.Keys - todo, {n});
        todo := todo - {n};
      }
    }

    /** `FindObjectsToBuild`: afterwards the discovered sets are keyed
        consistently and closed except for the registered objects' own
        types, those types are stored among the outputs, and the result and
        argument types of every method are accounted for. */
    method FindObjectsToBuild() returns (r: Result<()>)
      requires Discovered()
      modifies this`inputsToBuild, this`outputsToBuild
      ensures KeyConsistent(inputsToBuild) && KeyConsistent(outputsToBuild)
      ensures old(inputsToBuild).Keys <= inputsToBuild.Keys && old(outputsToBuild).Keys <= outputsToBuild.Keys
      ensures r.Ok? ==> Discovered()
      ensures r.Ok? ==> RootsCovered(scalars, inputsToBuild, outputsToBuild, AsRoots(customObjects), customObjects.Keys)
      ensures r.Ok? ==> RootsCovered(scalars, inputsToBuild, outputsToBuild, objects, objects.Keys)
    {
      ghost var exempt := RegisteredKeys();
      r := ProcessCustomObjects(exempt);
      if r.Panic? {
        return;
      }
      ghost var insC, outsC := inputsToBuild, outputsToBuild;
      r := ProcessRootObjects(exempt);
      if r.Panic? {
        return;
      }
      RootsCoveredGrow(scalars, insC, outsC, inputsToBuild, outputsToBuild, AsRoots(customObjects), customObjects.Keys, {});
    }

    // ---------------------------------------------------------------- shells

    /** Distinct input types have distinct input objects: each is named by
        its key. */
    ghost predicate InputShellsDistinct()
      reads this, set k | k in builtInputs :: builtInputs[k]
    {
      forall k | k in inputsToBuild && k in builtInputs :: builtInputs[k].name == k
    }

    /** Distinct output types (other than the root names) have distinct
        objects: each maps back to its key. */
    ghost predicate OutputShellsDistinct()
      reads this
    {
      forall k | k in outputsToBuild && k in builtOutputs && k != QueryName && k != MutationName ::
        builtOutputs[k] in shellOwner && shellOwner[builtOutputs[k]] == k
    }

    /** `CreateObjects`: for every input key a fresh input object named by
        the key and without fields, stored under the key of its type (the
        key itself); for every output key except `Query` and `Mutation` a
        fresh object named by the type's name and without fields. Nothing
        else is added or replaced. */
    method CreateObjects()
      requires KeyConsistent(inputsToBuild) && KeyConsistent(outputsToBuild)
      modifies this`builtInputs, this`builtOutputs, this`shellOwner
      ensures builtInputs.Keys == old(builtInputs).Keys + inputsToBuild.Keys
      ensures forall k | k in old(builtInputs) && k !in inputsToBuild :: builtInputs[k] == old(builtInputs)[k]
      ensures forall k | k in inputsToBuild ::
                fresh(builtInputs[k]) && builtInputs[k].name == k && builtInputs[k].fields == map[]
      ensures builtOutputs.Keys == old(builtOutputs).Keys + (outputsToBuild.Keys - {QueryName, MutationName})
      ensures forall k | k in old(builtOutputs) && (k !in outputsToBuild || k == QueryName || k == MutationName) ::
                builtOutputs[k] == old(builtOutputs)[k]
      ensures forall k | k in outputsToBuild && k != QueryName && k != MutationName ::
                fresh(builtOutputs[k]) && builtOutputs[k].name == Name(outputsToBuild[k]) && builtOutputs[k].fields == map[]
      ensures InputShellsDistinct() && OutputShellsDistinct()
    {
      CreateInputObjects();
      CreateOutputObjects();
    }

    /** The first loop of `CreateObjects`. */
    method CreateInputObjects()
      requires KeyConsistent(inputsToBuild)
      modifies this`builtInputs
      ensures builtInputs.Keys == old(builtInputs).Keys + inputsToBuild.Keys
      ensures forall k | k in old(builtInputs) && k !in inputsToBuild :: builtInputs[k] == old(builtInputs)[k]
      ensures forall k | k in inputsToBuild ::
                fresh(builtInputs[k]) && builtInputs[k].name == k && builtInputs[k].fields == map[]
      ensures InputShellsDistinct()
    {
      var todo := inputsToBuild.Keys;
      while todo != {}
        invariant todo <= inputsToBuild.Keys
        invariant builtInputs.Keys == old(builtInputs).Keys + (inputsToBuild.Keys - todo)
        invariant forall k | k in old(builtInputs) && (k !in inputsToBuild || k in todo) :: builtInputs[k] == old(builtInputs)[k]
        invariant forall k | k in inputsToBuild && k !in todo ::
                    fresh(builtInputs[k]) && builtInputs[k].name == k && builtInputs[k].fields == map[]
        decreases todo
      {
        var n :| n in todo;
        var v := inputsToBuild[n];
        var obj := new InputObjectDef(n);
        builtInputs := builtInputs[Tools.GetKey(v) := obj];
        todo := todo - {n};
      }
    }

    /** The second loop of `CreateObjects`. */
    method CreateOutputObjects()
      requires KeyConsistent(outputsToBuild)
      modifies this`builtOutputs, this`shellOwner
      ensures builtOutputs.Keys == old(builtOutputs).Keys + (outputsToBuild.Keys - {QueryName, MutationName})
      ensures forall k | k in old(builtOutputs) && (k !in outputsToBuild || k == QueryName || k == MutationName) ::
                builtOutputs[k] == old(builtOutputs)[k]
      ensures forall k | k in outputsToBuild && k != QueryName && k != MutationName ::
                fresh(builtOutputs[k]) && builtOutputs[k].name == Name(outputsToBuild[k]) && builtOutputs[k].fields == map[]
      ensures OutputShellsDistinct()
    {
      var todo := outputsToBuild.Keys;
      ghost var done: set<string> := {};
      shellOwner := map[];
      while todo != {}
        invariant done !! todo && done + todo == outputsToBuild.Keys
        invariant builtOutputs.Keys == old(builtOutputs).Keys + (done - {QueryName, MutationName})
        invariant forall k | k in old(builtOutputs) && (k !in done || k == QueryName || k == MutationName) ::
                    builtOutputs[k] == old(builtOutputs)[k]
        invariant forall k | k in done && k != QueryName && k != MutationName ::
                    && fresh(builtOutputs[k]) && builtOutputs[k].name == Name(outputsToBuild[k]) && builtOutputs[k].fields == map[]
                    && builtOutputs[k] in shellOwner && shellOwner[builtOutputs[k]] == k
        decreases todo
      {
        var n :| n in todo;
        CreateOutputShell(n);
        done := done + {n};
        todo := todo - {n};
      }
    }

    /** The body of the second loop of `CreateObjects`, for key `n`: the
        root names are skipped, any other type gets an empty object shell
        under its key, owned by `n`. */
    method CreateOutputShell(n: string)
      requires n in outputsToBuild && Tools.GetKey(outputsToBuild[n]) == n
      modifies this`builtOutputs, this`shellOwner
      ensures n == QueryName || n == MutationName ==> builtOutputs == old(builtOutputs) && shellOwner == old(shellOwner)
      ensures n != QueryName && n != MutationName ==>
                && n in builtOutputs && fresh(builtOutputs[n])
                && builtOutputs == old(builtOutputs)[n := builtOutputs[n]]
                && builtOutputs[n].name == Name(outputsToBuild[n]) && builtOutputs[n].fields == map[]
                && shellOwner == old(shellOwner)[builtOutputs[n] := n]
    {
      if n != QueryName && n != MutationName {
        var v := outputsToBuild[n];
        var obj := new ObjectDef(Name(v), map[]);
        builtOutputs := builtOutputs[Tools.GetKey(v) := obj];
        shellOwner := shellOwner[obj := n];
      }
    }

    // ---------------------------------------------------------------- fields

    /** The first loop of `CreateObjectsFields`, for one input object:
        write the input field of every struct field under its snake-case
        name; a non-struct panics in `NumField`. */
    method FillInputObject(bo: InputObjectDef, t: TypeDesc) returns (r: Result<()>)
      modifies bo
      ensures r.Ok? <==> t.Struct?
      ensures r.Ok? ==> bo.fields == Writes(old(bo.fields), InputWrites(scalars, builtInputs, Fields(types, t)))
      ensures r.Panic? ==> bo.fields == old(bo.fields)
    {
      if !t.Struct? {
        return Panic("reflect: NumField of non-struct type");
      }
      var fs := Fields(types, t);
      ghost var ws := InputWrites(scalars, builtInputs, fs);
      var i := 0;
      while i < |fs|
        invariant 0 <= i <= |fs|
        invariant bo.fields == Writes(old(bo.fields), ws[..i])
      {
        WritesStep(old(bo.fields), ws, i);
        InputWritesAt(scalars, builtInputs, fs, i);
        bo.fields := bo.fields[Tools.ToSnake(fs[i].name) := InputFieldOf(scalars, builtInputs, fs[i])];
        i := i + 1;
      }
      assert ws[..|fs|] == ws;
      r := Ok(());
    }

    /** The first loop of `CreateObjectsFields`: fill the input object of
        every input key. A key without an input object fails the type
        assertion, a non-struct fails in `NumField`. */
    method FillInputObjects() returns (r: Result<()>)
      requires InputShellsDistinct()
      modifies set k | k in builtInputs :: builtInputs[k]
      ensures r.Ok? <==> forall n | n in inputsToBuild :: n in builtInputs && inputsToBuild[n].Struct?
      ensures r.Ok? ==> forall n | n in inputsToBuild ::
                builtInputs[n].fields == Writes(old(builtInputs[n].fields), InputWrites(scalars, builtInputs, Fields(types, inputsToBuild[n])))
    {
      var todo := inputsToBuild.Keys;
      r := Ok(());
      while todo != {}
        invariant todo <= inputsToBuild.Keys
        invariant forall n | n in inputsToBuild && n !in todo :: n in builtInputs && inputsToBuild[n].Struct?
        invariant forall n | n in inputsToBuild && n !in todo ::
                    builtInputs[n].fields == Writes(old(builtInputs[n].fields), InputWrites(scalars, builtInputs, Fields(types, inputsToBuild[n])))
        invariant forall n | n in todo && n in builtInputs :: builtInputs[n].fields == old(builtInputs[n].fields)
        invariant r.Ok?
        decreases todo
      {
        var n :| n in todo;
        if n !in builtInputs {
          return Panic("interface conversion: graphql.Input is nil, not *graphql.InputObject");
        }
        var bo := builtInputs[n];
        r := FillInputObject(bo, inputsToBuild[n]);
        if r.Panic? {
          return;
        }
        todo := todo - {n};
      }
    }

    /** The method table of the custom object registered under `n`, if any. */
    ghost function CustomMethodsAt(n: string): Option<map<string, Objects.MethodRef>>
      reads this`customObjects, (if n in customObjects then {customObjects[n]} else {})`methods
    {
      if n in customObjects then Some(customObjects[n].methods) else None
    }

    /** The names the custom objects were registered with. */
    ghost function CustomNames(): set<string>
      reads this`customObjects
    {
      set k | k in customObjects :: customObjects[k].name
    }

    /** The field `CreateObjectsFields` writes for struct field `f` of an
        output object whose custom object is `co`. */
    method OutputFieldEntry(f: FieldDesc, co: Option<Objects.Object>) returns (r: Result<FieldConfig>)
      modifies this`argsMap
      ensures r == OutputEntry(makeNullable, scalars, TypeMapping.InputRefs(builtInputs), builtOutputs, types, CustomTable(co), f)
      ensures OthersUnchanged(old(argsMap), argsMap, Owners(co))
    {
      var fName := Tools.ToSnake(f.name);
      if co.Some? && fName in co.value.methods {
        r := BuildMethod(fName, co.value.methods[fName], co.value);
      } else {
        r := Ok(OutputFieldOf(scalars, builtOutputs, f));
      }
    }

    /** One turn of the loop in `FillOutputObject`: write entry `i` of the
        struct's fields into `bo`, or stop at its panic, which is then the
        outcome of the whole fill. */
    method FillOutputField(bo: ObjectDef, fs: seq<FieldDesc>, i: nat, co: Option<Objects.Object>,
                           ghost es: seq<(string, Result<FieldConfig>)>, ghost acc: map<string, FieldConfig>)
      returns (r: Result<()>)
      requires i < |fs|
      requires es == OutputEntries(makeNullable, scalars, TypeMapping.InputRefs(builtInputs), builtOutputs, types, CustomTable(co), fs)
      requires FillAll(acc, es[..i]) == Ok(bo.fields)
      modifies bo, this`argsMap
      ensures r.Ok? ==> FillAll(acc, es[..i + 1]) == Ok(bo.fields)
      ensures r.Panic? ==> FillAll(acc, es) == Panic(r.message)
      ensures OthersUnchanged(old(argsMap), argsMap, Owners(co))
    {
      var of := OutputFieldEntry(fs[i], co);
      FillAllStep(acc, es, i);
      if of.Panic? {
        FillAllPanicStays(acc, es, i + 1);
        return Panic(of.message);
      }
      bo.fields := bo.fields[Tools.ToSnake(fs[i].name) := of.value];
      r := Ok(());
    }

    /** The second loop of `CreateObjectsFields`, for one output object:
        write, under each struct field's snake-case name, the field of the
        custom method of that name when `co` has one, and the plain field
        otherwise, panicking at the first entry that panics. Only the
        prototypes of `co` can change. */
    method FillOutputObject(bo: ObjectDef, t: TypeDesc, co: Option<Objects.Object>,
                            ghost spec: Result<map<string, FieldConfig>>) returns (r: Result<()>)
      requires spec == OutputObjectFields(makeNullable, scalars, TypeMapping.InputRefs(builtInputs), builtOutputs, types,
                                          CustomTable(co), bo.fields, t)
      modifies bo, this`argsMap
      ensures spec == if r.Ok? then Ok(bo.fields) else Panic(r.message)
      ensures OthersUnchanged(old(argsMap), argsMap, Owners(co))
    {
      if !t.Struct? {
        return Panic("reflect: NumField of non-struct type");
      }
      var fs := Fields(types, t);
      ghost var inputs := TypeMapping.InputRefs(builtInputs);
      ghost var es := OutputEntries(makeNullable, scalars, inputs, builtOutputs, types, CustomTable(co), fs);
      assert spec == FillAll(old(bo.fields), es);
      var i := 0;
      while i < |fs|
        invariant 0 <= i <= |fs|
        invariant FillAll(old(bo.fields), es[..i]) == Ok(bo.fields)
        invariant OthersUnchanged(old(argsMap), argsMap, Owners(co))
      {
        ghost var before := argsMap;
        var step := FillOutputField(bo, fs, i, co, es, old(bo.fields));
        OthersUnchangedTrans(old(argsMap), before, argsMap, Owners(co), Owners(co));
        if step.Panic? {
          return step;
        }
        i := i + 1;
      }
      assert es[..|es|] == es;
      r := Ok(());
    }

    /** The fields every output key's object gets, as `CreateObjectsFields`
        builds them: from no fields, with the methods of the custom object
        registered under the key (as written, the lookup is by type key). */
    ghost function OutputSpecs(): map<string, Result<map<string, FieldConfig>>>
      reads this`outputsToBuild, this`scalars, this`builtInputs, this`builtOutputs, this`customObjects,
            (set k | k in customObjects :: customObjects[k])`methods
    {
      map n | n in outputsToBuild ::
        OutputObjectFields(makeNullable, scalars, TypeMapping.InputRefs(builtInputs), builtOutputs, types,
                           CustomMethodsAt(n), map[], outputsToBuild[n])
    }

    /** One turn of the second loop of `CreateObjectsFields`: fill the
        object of output key `n`, still among the keys `todo` not yet
        filled. A key without an object fails the type assertion; otherwise
        the object gets the fields `specs` gives the key. No other object
        changes, and only the prototypes of custom objects can. */
    method FillOutputKey(n: string, ghost specs: map<string, Result<map<string, FieldConfig>>>, ghost todo: set<string>)
      returns (r: Result<()>)
      requires n in todo && todo <= outputsToBuild.Keys
      requires QueryName !in outputsToBuild && MutationName !in outputsToBuild && OutputShellsDistinct()
      requires forall k | k in todo && k in builtOutputs :: builtOutputs[k].fields == map[]
      requires n in specs
      requires specs[n] == OutputObjectFields(makeNullable, scalars, TypeMapping.InputRefs(builtInputs), builtOutputs, types,
                                              CustomMethodsAt(n), map[], outputsToBuild[n])
      modifies (if n in builtOutputs then {builtOutputs[n]} else {}), this`argsMap
      ensures r.Ok? <==> n in builtOutputs && specs[n].Ok?
      ensures r.Ok? ==> Ok(builtOutputs[n].fields) == specs[n]
      ensures forall k | k in todo && k != n && k in builtOutputs :: builtOutputs[k].fields == map[]
      ensures forall k | k in outputsToBuild && k !in todo && k in builtOutputs :: builtOutputs[k].fields == old(builtOutputs[k].fields)
      ensures OthersUnchanged(old(argsMap), argsMap, CustomNames())
    {
      if n !in builtOutputs {
        return Panic("interface conversion: graphql.Output is nil, not *graphql.Object");
      }
      var bo := builtOutputs[n];
      var co: Option<Objects.Object> := if n in customObjects then Some(customObjects[n]) else None;
      assert CustomTable(co) == CustomMethodsAt(n);
      r := FillOutputObject(bo, outputsToBuild[n], co, specs[n]);
    }

    /** The second loop of `CreateObjectsFields`: fill the object of every
        output key with the fields `specs` gives it (`objs` holds every
        output object). A key without an object fails the type assertion, a
        non-struct fails in `NumField`, a field whose entry panics panics.
        Only the prototypes of custom objects can change. */
    method FillOutputObjects(ghost specs: map<string, Result<map<string, FieldConfig>>>, ghost objs: set<ObjectDef>)
      returns (r: Result<()>)
      requires QueryName !in outputsToBuild && MutationName !in outputsToBuild && OutputShellsDistinct()
      requires forall n | n in outputsToBuild && n in builtOutputs :: builtOutputs[n].fields == map[]
      requires forall n | n in outputsToBuild :: n in specs
      requires forall n {:trigger OutputObjectFields(makeNullable, scalars, TypeMapping.InputRefs(builtInputs), builtOutputs, types,
                                                     CustomMethodsAt(n), map[], outputsToBuild[n])}
                 | n in outputsToBuild ::
                 specs[n] == OutputObjectFields(makeNullable, scalars, TypeMapping.InputRefs(builtInputs), builtOutputs, types,
                                                CustomMethodsAt(n), map[], outputsToBuild[n])
      requires forall k | k in builtOutputs :: builtOutputs[k] in objs
      modifies objs, this`argsMap
      ensures r.Ok? <==> forall n | n in outputsToBuild :: n in builtOutputs && specs[n].Ok?
      ensures r.Ok? ==> forall n | n in outputsToBuild :: Ok(builtOutputs[n].fields) == specs[n]
      ensures OthersUnchanged(old(argsMap), argsMap, CustomNames())
    {
      var todo := outputsToBuild.Keys;
      r := Ok(());
      while todo != {}
        invariant todo <= outputsToBuild.Keys
        invariant forall n | n in outputsToBuild && n !in todo :: n in builtOutputs && Ok(builtOutputs[n].fields) == specs[n]
        invariant forall n | n in todo && n in builtOutputs :: builtOutputs[n].fields == map[]
        invariant OthersUnchanged(old(argsMap), argsMap, CustomNames())
        invariant r.Ok?
        decreases todo
      {
        var n :| n in todo;
        ghost var prior := argsMap;
        r := FillOutputKey(n, specs, todo);
        OthersUnchangedTrans(old(argsMap), prior, argsMap, CustomNames(), CustomNames());
        if r.Panic? {
          return;
        }
        todo := todo - {n};
      }
    }

    /** `CreateObjectsFields`: fill every input object, then every output
        object; `specs` gives each output key its fields (`OutputSpecs`),
        `ins` and `outs` hold the built objects. */
    method CreateObjectsFields(ghost specs: map<string, Result<map<string, FieldConfig>>>,
                               ghost ins: set<InputObjectDef>, ghost outs: set<ObjectDef>) returns (r: Result<()>)
      requires QueryName !in outputsToBuild && MutationName !in outputsToBuild
      requires InputShellsDistinct() && OutputShellsDistinct()
      requires forall n | n in outputsToBuild && n in builtOutputs :: builtOutputs[n].fields == map[]
      requires forall n | n in outputsToBuild :: n in specs
      requires forall n {:trigger OutputObjectFields(makeNullable, scalars, TypeMapping.InputRefs(builtInputs), builtOutputs, types,
                                                     CustomMethodsAt(n), map[], outputsToBuild[n])}
                 | n in outputsToBuild ::
                 specs[n] == OutputObjectFields(makeNullable, scalars, TypeMapping.InputRefs(builtInputs), builtOutputs, types,
                                                CustomMethodsAt(n), map[], outputsToBuild[n])
      requires forall k | k in builtInputs :: builtInputs[k] in ins
      requires forall k | k in builtOutputs :: builtOutputs[k] in outs
      modifies ins, outs, this`argsMap
      ensures r.Ok? ==> forall n | n in inputsToBuild ::
                n in builtInputs && inputsToBuild[n].Struct?
                && builtInputs[n].fields == Writes(old(builtInputs[n].fields), InputWrites(scalars, builtInputs, Fields(types, inputsToBuild[n])))
      ensures r.Ok? ==> forall n | n in outputsToBuild :: n in builtOutputs && Ok(builtOutputs[n].fields) == specs[n]
      ensures OthersUnchanged(old(argsMap), argsMap, CustomNames())
    {
      r := FillInputObjects();
      if r.Panic? {
        return;
      }
      r := FillOutputObjects(specs, outs);
    }

    // ---------------------------------------------------------------- handler fields

    /** `buildFieldConfigArgument`: the argument definitions of struct `t`. */
    method BuildFieldConfigArgument(t: TypeDesc) returns (r: Result<map<string, SchemaType>>)
      ensures r == FieldConfigArgument(makeNullable, scalars, TypeMapping.InputRefs(builtInputs), types, t)
    {
      if !t.Struct? {
        return Panic("reflect: NumField of non-struct type");
      }
      var fs := Fields(types, t);
      var inputs := TypeMapping.InputRefs(builtInputs);
      var fields: map<string, SchemaType> := map[];
      var i := 0;
      while i < |fs|
        invariant 0 <= i <= |fs|
        invariant ArgumentsMap(makeNullable, scalars, inputs, fs[..i])
        invariant fields == Writes(map[], ArgumentWrites(makeNullable, scalars, inputs, fs[..i]))
      {
        var io := TypeMapping.ResolverInputType(makeNullable, scalars, inputs, fs[i].typ);
        if io.Panic? {
          ResolverInputPanicMessage(makeNullable, scalars, inputs, fs[i].typ);
          return Panic(io.message);
        }
        ArgumentWritesStep(makeNullable, scalars, inputs, fs, i);
        fields := fields[Tools.ToSnake(fs[i].name) := io.value];
        i := i + 1;
      }
      assert fs[..|fs|] == fs;
      r := Ok(fields);
    }

    /** `buildMethod`: the field of method `n` of object `o`. When the
        handler has a result that maps and an argument struct, the zero
        value of that struct's actual type is recorded as
        `argsMap[o.name][n]` before the arguments are built. */
    method BuildMethod(n: string, v: Objects.MethodRef, o: Objects.Object) returns (r: Result<FieldConfig>)
      modifies this`argsMap
      ensures r == MethodEntryField(makeNullable, scalars, TypeMapping.InputRefs(builtInputs), TypeMapping.OutputRefs(builtOutputs), types, v)
      ensures argsMap == if v.MethodPtr?
                            && HandlerOutput(makeNullable, TypeMapping.OutputRefs(builtOutputs), v.target.fn).Ok?
                            && ArgPrototype(scalars, v.target.fn).Some?
                         then Record(old(argsMap), o.name, n, ZeroOf(ArgPrototype(scalars, v.target.fn).value))
                         else old(argsMap)
      ensures r.Ok? ==> && v.MethodPtr?
                        && argsMap == if v.target.fn.argType.Some?
                                      then Record(old(argsMap), o.name, n, ZeroOf(ArgPrototype(scalars, v.target.fn).value))
                                      else old(argsMap)
    {
      if v.NilMethod? {
        return Panic("runtime error: invalid memory address or nil pointer dereference");
      }
      var h := v.target.fn;
      if |h.outs| == 0 {
        return Panic("runtime error: index out of range [0] with length 0");
      }
      var out := TypeMapping.ResolverOutputType(makeNullable, TypeMapping.OutputRefs(builtOutputs), h.outs[0]);
      if out.Panic? {
        return Panic(out.message);
      }
      var args := ArgPrototype(scalars, h);
      var fieldConfigArgument: map<string, SchemaType> := map[];
      if args.Some? {
        if o.name !in argsMap {
          argsMap := argsMap[o.name := map[]];
        }
        argsMap := argsMap[o.name := argsMap[o.name][n := ZeroOf(args.value)]];
        assert argsMap == Record(old(argsMap), o.name, n, ZeroOf(args.value));
        var built := BuildFieldConfigArgument(args.value);
        if built.Panic? {
          return Panic(built.message);
        }
        fieldConfigArgument := built.value;
      }
      r := Ok(Field("", fieldConfigArgument, out.value, CallHandler(h)));
    }

    /** One turn of the loop in `buildMethods`: entry `n` is built, and on
        success its prototype, if it has one, joins those already recorded
        for the entries in `done`. */
    method BuildMethodStep(n: string, methods: map<string, Objects.MethodRef>, o: Objects.Object,
                           ghost spec: Result<FieldConfig>, ghost start: ArgsMap, ghost done: set<string>)
      returns (r: Result<FieldConfig>)
      requires n in methods && n !in done
      requires spec == MethodEntryField(makeNullable, scalars, TypeMapping.InputRefs(builtInputs), TypeMapping.OutputRefs(builtOutputs), types, methods[n])
      requires argsMap == RecordAll(start, o.name, MethodPrototypes(scalars, methods, done))
      modifies this`argsMap
      ensures r == spec
      ensures r.Ok? ==> argsMap == RecordAll(start, o.name, MethodPrototypes(scalars, methods, done + {n}))
    {
      MethodPrototypesStep(scalars, methods, done, n);
      r := BuildMethod(n, methods[n], o);
      if r.Ok? && methods[n].target.fn.argType.Some? {
        RecordAllStep(start, o.name, MethodPrototypes(scalars, methods, done), n,
                      ZeroOf(ArgPrototype(scalars, methods[n].target.fn).value));
      }
    }

    /** `buildMethods`: one field per method of `o`, under the method's
        name; on success the prototypes of all methods with an argument
        struct are recorded under `o.name`. */
    method BuildMethods(o: Objects.Object) returns (r: Result<map<string, FieldConfig>>)
      modifies this`argsMap
      ensures r.Ok? <==> forall n | n in o.methods :: MethodEntryField(makeNullable, scalars, TypeMapping.InputRefs(builtInputs), TypeMapping.OutputRefs(builtOutputs), types, o.methods[n]).Ok?
      ensures r.Ok? ==> r.value.Keys == o.methods.Keys
      ensures r.Ok? ==> forall n | n in o.methods :: Ok(r.value[n]) == MethodEntryField(makeNullable, scalars, TypeMapping.InputRefs(builtInputs), TypeMapping.OutputRefs(builtOutputs), types, o.methods[n])
      ensures r.Ok? ==> argsMap == RecordAll(old(argsMap), o.name, MethodPrototypes(scalars, o.methods, o.methods.Keys))
    {
      ghost var specs := map n | n in o.methods :: MethodEntryField(makeNullable, scalars, TypeMapping.InputRefs(builtInputs), TypeMapping.OutputRefs(builtOutputs), types, o.methods[n]);
      r := FillMethodFields(o, specs);
    }

    /** The loop of `buildMethods`, with the field expected for each method
        passed in as `specs`. */
    method FillMethodFields(o: Objects.Object, ghost specs: map<string, Result<FieldConfig>>) returns (r: Result<map<string, FieldConfig>>)
      requires o.methods.Keys <= specs.Keys
      requires forall n {:trigger MethodEntryField(makeNullable, scalars, TypeMapping.InputRefs(builtInputs), TypeMapping.OutputRefs(builtOutputs), types, o.methods[n])} | n in o.methods ::
                 specs[n] == MethodEntryField(makeNullable, scalars, TypeMapping.InputRefs(builtInputs), TypeMapping.OutputRefs(builtOutputs), types, o.methods[n])
      modifies this`argsMap
      ensures r.Ok? <==> forall n | n in o.methods :: specs[n].Ok?
      ensures r.Ok? ==> r.value.Keys == o.methods.Keys
      ensures r.Ok? ==> forall n | n in o.methods :: Ok(r.value[n]) == specs[n]
      ensures r.Ok? ==> argsMap == RecordAll(old(argsMap), o.name, MethodPrototypes(scalars, o.methods, o.methods.Keys))
    {
      var methods := o.methods;
      var fields: map<string, FieldConfig> := map[];
      var todo := methods.Keys;
      ghost var done: set<string> := {};
      while todo != {}
        invariant done !! todo && done + todo == methods.Keys
        invariant fields.Keys == done
        invariant forall n | n in fields :: Ok(fields[n]) == specs[n]
        invariant argsMap == RecordAll(old(argsMap), o.name, MethodPrototypes(scalars, methods, done))
        decreases todo
      {
        var n :| n in todo;
        var f := BuildMethodStep(n, methods, o, specs[n], old(argsMap), done);
        if f.Panic? {
          return Panic(f.message);
        }
        done := done + {n};
        fields := fields[n := f.value];
        todo := todo - {n};
      }
      r := Ok(fields);
    }

    /** The body of the loop in `buildSubscriptionMethods`, for entry `n`:
        when the handler has an argument struct, the zero value of that
        struct's actual type is recorded as `argsMap[m.name][n]` before the
        arguments are built. */
    method BuildSubscriptionMethod(n: string, v: Subscriptions.SubscriptionRef) returns (r: Result<FieldConfig>)
      modifies this`argsMap
      ensures r == SubscriptionEntryField(makeNullable, scalars, TypeMapping.InputRefs(builtInputs), TypeMapping.OutputRefs(builtOutputs), types, v)
      ensures argsMap == if v.SubscriptionPtr? && ArgPrototype(scalars, v.target.fn).Some?
                         then Record(old(argsMap), v.target.name, n, ZeroOf(ArgPrototype(scalars, v.target.fn).value))
                         else old(argsMap)
    {
      if v.NilSubscription? {
        return Panic("runtime error: invalid memory address or nil pointer dereference");
      }
      var m := v.target;
      var out := TypeMapping.Lookup(TypeMapping.OutputRefs(builtOutputs), Tools.GetKey(m.output));
      var args := ArgPrototype(scalars, m.fn);
      var fieldConfigArgument: map<string, SchemaType> := map[];
      if args.Some? {
        if m.name !in argsMap {
          argsMap := argsMap[m.name := map[]];
        }
        argsMap := argsMap[m.name := argsMap[m.name][n := ZeroOf(args.value)]];
        assert argsMap == Record(old(argsMap), m.name, n, ZeroOf(args.value));
        var built := BuildFieldConfigArgument(args.value);
        if built.Panic? {
          return Panic(built.message);
        }
        fieldConfigArgument := built.value;
      }
      r := Ok(Field("", fieldConfigArgument, out, ForwardSource(m.fn)));
    }

    /** One turn of the loop in `buildSubscriptionMethods`: entry `n` is
        built, and on success its prototype, if it has one, joins those
        already recorded for the entries in `done`. */
    method BuildSubscriptionStep(n: string, methods: map<string, Subscriptions.SubscriptionRef>, ghost spec: Result<FieldConfig>,
                                 ghost start: ArgsMap, ghost done: set<string>) returns (r: Result<FieldConfig>)
      requires n in methods && n !in done
      requires spec == SubscriptionEntryField(makeNullable, scalars, TypeMapping.InputRefs(builtInputs), TypeMapping.OutputRefs(builtOutputs), types, methods[n])
      requires methods[n].SubscriptionPtr? ==> methods[n].target.name == n
      requires argsMap == RecordEach(start, SubscriptionPrototypes(scalars, methods, done))
      modifies this`argsMap
      ensures r == spec
      ensures r.Ok? ==> argsMap == RecordEach(start, SubscriptionPrototypes(scalars, methods, done + {n}))
    {
      SubscriptionPrototypesStep(scalars, methods, done, n);
      r := BuildSubscriptionMethod(n, methods[n]);
      if r.Ok? && methods[n].target.fn.argType.Some? {
        RecordEachStep(start, SubscriptionPrototypes(scalars, methods, done), n,
                       ZeroOf(ArgPrototype(scalars, methods[n].target.fn).value));
      }
    }

    /** `buildSubscriptionMethods`: one field per subscription method; on
        success each method `n` with an argument struct has its prototype at
        `argsMap[n][n]` (recorded under the method's own name, which is its
        key). */
    method BuildSubscriptionMethods(so: Subscriptions.SubscriptionObject) returns (r: Result<map<string, FieldConfig>>)
      requires so.Valid()
      modifies this`argsMap
      ensures r.Ok? <==> forall n | n in so.methods :: SubscriptionEntryField(makeNullable, scalars, TypeMapping.InputRefs(builtInputs), TypeMapping.OutputRefs(builtOutputs), types, so.methods[n]).Ok?
      ensures r.Ok? ==> r.value.Keys == so.methods.Keys
      ensures r.Ok? ==> forall n | n in so.methods :: Ok(r.value[n]) == SubscriptionEntryField(makeNullable, scalars, TypeMapping.InputRefs(builtInputs), TypeMapping.OutputRefs(builtOutputs), types, so.methods[n])
      ensures r.Ok? ==> argsMap == RecordEach(old(argsMap), SubscriptionPrototypes(scalars, so.methods, so.methods.Keys))
    {
      ghost var specs := map n | n in so.methods :: SubscriptionEntryField(makeNullable, scalars, TypeMapping.InputRefs(builtInputs), TypeMapping.OutputRefs(builtOutputs), types, so.methods[n]);
      r := FillSubscriptionFields(so, specs);
    }

    /** The loop of `buildSubscriptionMethods`, with the field expected for
        each method passed in as `specs`. */
    method FillSubscriptionFields(so: Subscriptions.SubscriptionObject, ghost specs: map<string, Result<FieldConfig>>)
      returns (r: Result<map<string, FieldConfig>>)
      requires so.Valid()
      requires so.methods.Keys <= specs.Keys
      requires forall n {:trigger SubscriptionEntryField(makeNullable, scalars, TypeMapping.InputRefs(builtInputs), TypeMapping.OutputRefs(builtOutputs), types, so.methods[n])} | n in so.methods :: specs[n] == SubscriptionEntryField(makeNullable, scalars, TypeMapping.InputRefs(builtInputs), TypeMapping.OutputRefs(builtOutputs), types, so.methods[n])
      modifies this`argsMap
      ensures r.Ok? <==> forall n | n in so.methods :: specs[n].Ok?
      ensures r.Ok? ==> r.value.Keys == so.methods.Keys
      ensures r.Ok? ==> forall n | n in so.methods :: Ok(r.value[n]) == specs[n]
      ensures r.Ok? ==> argsMap == RecordEach(old(argsMap), SubscriptionPrototypes(scalars, so.methods, so.methods.Keys))
    {
      var methods := so.methods;
      var fields: map<string, FieldConfig> := map[];
      var todo := methods.Keys;
      ghost var done: set<string> := {};
      while todo != {}
        invariant done !! todo && done + todo == methods.Keys
        invariant fields.Keys == done
        invariant forall n | n in fields :: Ok(fields[n]) == specs[n]
        invariant argsMap == RecordEach(old(argsMap), SubscriptionPrototypes(scalars, methods, done))
        decreases todo
      {
        var n :| n in todo;
        var f := BuildSubscriptionStep(n, methods, specs[n], old(argsMap), done);
        if f.Panic? {
          return Panic(f.message);
        }
        fields := fields[n := f.value];
        done := done + {n};
        todo := todo - {n};
      }
      r := Ok(fields);
    }

    // ---------------------------------------------------------------- roots and Build

    /** The plain object registered under `name`, if any. */
    function PlainAt(name: string): set<Objects.Object>
      reads this`objects
    {
      if name in objects && objects[name].PlainObject? then {objects[name].obj} else {}
    }

    /** The subscription object registered as the subscription root, if any. */
    function SubscriptionAt(): set<Subscriptions.SubscriptionObject>
      reads this`objects
    {
      if SubscriptionName in objects && objects[SubscriptionName].SubscriptionRoot? then {objects[SubscriptionName].sub} else {}
    }

    /** The root object registered under `name` as `buildQuery` and
        `buildMutation` leave it: none when nothing is registered under the
        name; otherwise the registration is a plain object and `d` is named
        `name`, with the field `buildMethod` builds for each of its methods. */
    ghost predicate RootBuilt(name: string, d: Option<ObjectDef>)
      reads this`objects, this`scalars, this`builtInputs, this`builtOutputs, PlainAt(name)`methods, Defs(d)`fields
    {
      if name !in objects then d.None?
      else
        && objects[name].PlainObject? && d.Some? && d.value.name == name
        && MethodFields(makeNullable, scalars, TypeMapping.InputRefs(builtInputs), TypeMapping.OutputRefs(builtOutputs), types,
                        objects[name].obj.methods, d.value.fields)
    }

    /** The subscription root as `buildSubscription` leaves it, likewise. */
    ghost predicate SubscriptionBuilt(d: Option<ObjectDef>)
      reads this`objects, this`scalars, this`builtInputs, this`builtOutputs, SubscriptionAt()`methods, Defs(d)`fields
    {
      if SubscriptionName !in objects then d.None?
      else
        && objects[SubscriptionName].SubscriptionRoot? && d.Some? && d.value.name == SubscriptionName
        && SubscriptionFields(makeNullable, scalars, TypeMapping.InputRefs(builtInputs), TypeMapping.OutputRefs(builtOutputs), types,
                              objects[SubscriptionName].sub.methods, d.value.fields)
    }

    /** `buildQuery` (`name` is `Query`) and `buildMutation` (`name` is
        `Mutation`). Nothing registered: no object. A subscription object
        registered under the name fails the type assertion. Otherwise the
        object gets the methods' fields, and the build fails exactly when
        one of them does. */
    method BuildRootObject(name: string) returns (r: Result<Option<ObjectDef>>)
      modifies this`argsMap
      ensures name !in objects ==> r == Ok(None) && argsMap == old(argsMap)
      ensures name in objects && objects[name].SubscriptionRoot? ==>
                r == Panic(NotAnObject)
      ensures name in objects && objects[name].PlainObject? ==>
                (r.Ok? <==> forall n | n in objects[name].obj.methods ::
                   MethodEntryField(makeNullable, scalars, TypeMapping.InputRefs(builtInputs),
                                    TypeMapping.OutputRefs(builtOutputs), types, objects[name].obj.methods[n]).Ok?)
      ensures r.Ok? ==> RootBuilt(name, r.value)
      ensures r.Ok? && r.value.Some? ==> fresh(r.value.value)
      ensures r.Ok? && name in objects ==>
                argsMap == RecordAll(old(argsMap), objects[name].obj.name,
                                     MethodPrototypes(scalars, objects[name].obj.methods, objects[name].obj.methods.Keys))
    {
      if name !in objects {
        return Ok(None);
      }
      if objects[name].SubscriptionRoot? {
        return Panic(NotAnObject);
      }
      var fields := BuildMethods(objects[name].obj);
      if fields.Panic? {
        return Panic(fields.message);
      }
      var d := new ObjectDef(name, fields.value);
      r := Ok(Some(d));
    }

    /** `buildSubscription`: as `BuildRootObject`, for the subscription
        root, whose registration must be a subscription object. */
    method BuildSubscription() returns (r: Result<Option<ObjectDef>>)
      requires SubscriptionName in objects && objects[SubscriptionName].SubscriptionRoot? ==> objects[SubscriptionName].sub.Valid()
      modifies this`argsMap
      ensures SubscriptionName !in objects ==> r == Ok(None) && argsMap == old(argsMap)
      ensures SubscriptionName in objects && objects[SubscriptionName].PlainObject? ==>
                r == Panic(NotASubscriptionObject)
      ensures SubscriptionName in objects && objects[SubscriptionName].SubscriptionRoot? ==>
                (r.Ok? <==> forall n | n in objects[SubscriptionName].sub.methods ::
                   SubscriptionEntryField(makeNullable, scalars, TypeMapping.InputRefs(builtInputs),
                                          TypeMapping.OutputRefs(builtOutputs), types, objects[SubscriptionName].sub.methods[n]).Ok?)
      ensures r.Ok? ==> SubscriptionBuilt(r.value)
      ensures r.Ok? && r.value.Some? ==> fresh(r.value.value)
      ensures r.Ok? && SubscriptionName in objects ==>
                argsMap == RecordEach(old(argsMap), SubscriptionPrototypes(scalars, objects[SubscriptionName].sub.methods,
                                                                           objects[SubscriptionName].sub.methods.Keys))
    {
      if SubscriptionName !in objects {
        return Ok(None);
      }
      if objects[SubscriptionName].PlainObject? {
        return Panic(NotASubscriptionObject);
      }
      var fields := BuildSubscriptionMethods(objects[SubscriptionName].sub);
      if fields.Panic? {
        return Panic(fields.message);
      }
      var d := new ObjectDef(SubscriptionName, fields.value);
      r := Ok(Some(d));
    }

    /** The builder as `GetBuilder` and the registrations leave it: nothing
        discovered or built yet. */
    ghost predicate Unbuilt()
      reads this
    {
      inputsToBuild == map[] && outputsToBuild == map[] && builtInputs == map[] && builtOutputs == map[]
    }

    /** The first two phases of `Build`: default scalars, then discovery. */
    method Discover() returns (r: Result<()>)
      requires Unbuilt()
      modifies this`scalars, this`inputsToBuild, this`outputsToBuild
      ensures scalars == WithDefaults(old(scalars))
      ensures KeyConsistent(inputsToBuild) && KeyConsistent(outputsToBuild)
      ensures r.Ok? ==> Discovered()
      ensures r.Ok? ==> RegistrationsCovered()
    {
      SetDefaultScalars();
      r := FindObjectsToBuild();
    }

    /** The next two phases of `Build`: one shell per discovered type, then
        the shells' fields. On success every discovered input type has an
        input object named by its key and holding one field per struct
        field, and every discovered output type an object named by the
        type (`FillObjects` states the fields those objects receive). */
    method MakeObjects() returns (r: Result<()>)
      requires KeyConsistent(inputsToBuild) && KeyConsistent(outputsToBuild)
      requires builtInputs == map[] && builtOutputs == map[]
      modifies this`builtInputs, this`builtOutputs, this`shellOwner, this`argsMap
      ensures r.Ok? ==> builtInputs.Keys == inputsToBuild.Keys && builtOutputs.Keys == outputsToBuild.Keys
      ensures r.Ok? ==> forall n | n in inputsToBuild ::
                && builtInputs[n].name == n && inputsToBuild[n].Struct?
                && builtInputs[n].fields == Writes(map[], InputWrites(scalars, builtInputs, Fields(types, inputsToBuild[n])))
      ensures r.Ok? ==> forall n | n in outputsToBuild :: builtOutputs[n].name == Name(outputsToBuild[n])
      ensures OthersUnchanged(old(argsMap), argsMap, CustomNames())
    {
      RootNamesAreNotKeys(outputsToBuild);
      CreateObjects();
      r := FillObjects(set k | k in builtInputs :: builtInputs[k], set k | k in builtOutputs :: builtOutputs[k]);
    }

    /** `CreateObjectsFields` on the shells `CreateObjects` made, which are
        among `ins` and `outs`. */
    method FillObjects(ghost ins: set<InputObjectDef>, ghost outs: set<ObjectDef>) returns (r: Result<()>)
      requires builtInputs.Keys == inputsToBuild.Keys && builtOutputs.Keys == outputsToBuild.Keys
      requires QueryName !in outputsToBuild && MutationName !in outputsToBuild
      requires InputShellsDistinct() && OutputShellsDistinct()
      requires forall n | n in inputsToBuild :: builtInputs[n].fields == map[]
      requires forall n | n in outputsToBuild :: builtOutputs[n].name == Name(outputsToBuild[n]) && builtOutputs[n].fields == map[]
      requires forall k | k in builtInputs :: builtInputs[k] in ins
      requires forall k | k in builtOutputs :: builtOutputs[k] in outs
      modifies ins, outs, this`argsMap
      ensures builtInputs.Keys == inputsToBuild.Keys && builtOutputs.Keys == outputsToBuild.Keys
      ensures r.Ok? ==> forall n | n in inputsToBuild ::
                && builtInputs[n].name == n && inputsToBuild[n].Struct?
                && builtInputs[n].fields == Writes(map[], InputWrites(scalars, builtInputs, Fields(types, inputsToBuild[n])))
      ensures r.Ok? ==> forall n | n in outputsToBuild ::
                && builtOutputs[n].name == Name(outputsToBuild[n])
                && Ok(builtOutputs[n].fields)
                   == OutputObjectFields(makeNullable, scalars, TypeMapping.InputRefs(builtInputs), builtOutputs, types,
                                         old(CustomMethodsAt(n)), map[], outputsToBuild[n])
      ensures OthersUnchanged(old(argsMap), argsMap, CustomNames())
    {
      ghost var specs := OutputSpecs();
      r := CreateObjectsFields(specs, ins, outs);
    }

    /** The phases of `Build` before the roots: `Discover`, then
        `MakeObjects`. */
    method BuildTypes() returns (r: Result<()>)
      requires Unbuilt()
      modifies this`scalars, this`inputsToBuild, this`outputsToBuild, this`builtInputs, this`builtOutputs,
               this`shellOwner, this`argsMap
      ensures scalars == WithDefaults(old(scalars))
      ensures r.Ok? ==> Discovered() && builtInputs.Keys == inputsToBuild.Keys && builtOutputs.Keys == outputsToBuild.Keys
    {
      r := Discover();
      if r.Panic? {
        return;
      }
      r := MakeObjects();
    }

    /** A root name is registered with the wrong kind of object: `Query`
        or `Mutation` with a subscription object, `Subscription` with a
        plain one. */
    ghost predicate RootMisregistered()
      reads this`objects
    {
      || (QueryName in objects && objects[QueryName].SubscriptionRoot?)
      || (MutationName in objects && objects[MutationName].SubscriptionRoot?)
      || (SubscriptionName in objects && objects[SubscriptionName].PlainObject?)
    }

    /** The three roots of `c` are built from their registrations. */
    ghost predicate RootsBuilt(c: SchemaConfig)
      reads this`objects, this`scalars, this`builtInputs, this`builtOutputs
      reads PlainAt(QueryName)`methods, PlainAt(MutationName)`methods, SubscriptionAt()`methods
      reads Defs(c.query)`fields, Defs(c.mutation)`fields, Defs(c.subscription)`fields
    {
      RootBuilt(QueryName, c.query) && RootBuilt(MutationName, c.mutation) && SubscriptionBuilt(c.subscription)
    }

    /** The last phase of `Build`: the mutation, query and subscription
        roots, in that order. */
    method BuildRoots() returns (r: Result<SchemaConfig>)
      requires SubscriptionName in objects && objects[SubscriptionName].SubscriptionRoot? ==> objects[SubscriptionName].sub.Valid()
      modifies this`argsMap
      ensures RootMisregistered() ==> r.Panic?
      ensures r.Ok? ==> RootsBuilt(r.value)
    {
      var mutation := BuildRootObject(MutationName);
      if mutation.Panic? {
        return Panic(mutation.message);
      }
      var query := BuildRootObject(QueryName);
      if query.Panic? {
        return Panic(query.message);
      }
      var subscription := BuildSubscription();
      if subscription.Panic? {
        return Panic(subscription.message);
      }
      r := Ok(SchemaConfig(query.value, mutation.value, subscription.value));
    }

    /** `Build`, up to the schema: `BuildTypes` (default scalars,
        discovery, shells, fields), then `BuildRoots`. A root registered with the wrong kind of
        object fails the build; on success every discovered type has its
        object, filled by `FillObjects`, and the roots are as `RootsBuilt`
        says (`Discover` states that every registered object's methods are
        covered by discovery).
        With `OutputFieldFindsShell` and `InputFieldFindsShell`, every
        field of a walked type that stands for a struct then refers to that
        struct's built object. */
    method Build() returns (r: Result<SchemaConfig>)
      requires Unbuilt()
      requires SubscriptionName in objects && objects[SubscriptionName].SubscriptionRoot? ==> objects[SubscriptionName].sub.Valid()
      modifies this`scalars, this`inputsToBuild, this`outputsToBuild, this`builtInputs, this`builtOutputs,
               this`shellOwner, this`argsMap
      ensures scalars == WithDefaults(old(scalars))
      ensures RootMisregistered() ==> r.Panic?
      ensures r.Ok? ==> Discovered() && builtInputs.Keys == inputsToBuild.Keys && builtOutputs.Keys == outputsToBuild.Keys
      ensures r.Ok? ==> RootsBuilt(r.value)
    {
      var built := BuildTypes();
      if built.Panic? {
        return Panic(built.message);
      }
      r := BuildRoots();
    }
  }
}
