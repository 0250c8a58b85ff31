/** What the builder writes into the objects it fills and the fields it
    makes: input fields, plain output fields, argument definitions and
    handler-backed fields, each as a function of the builder's tables. The
    builder's loops are proved to produce exactly these. */
module Assembly {
  import opened Wrappers
  import opened Reflect
  import opened Schema
  import Tools
  import TypeMapping
  import Objects
  import Subscriptions

  type Scalars = TypeMapping.Scalars

  // ------------------------------------------------------------ ordered writes

  /** The map after writing each (key, value) pair of `ws` in order, as a
      loop of `m[k] = v` statements does. */
  function Writes<V>(acc: map<string, V>, ws: seq<(string, V)>): map<string, V> {
    if ws == [] then acc else Writes(acc, ws[..|ws| - 1])[ws[|ws| - 1].0 := ws[|ws| - 1].1]
  }

  /** One more write extends the prefix. */
  lemma WritesStep<V>(acc: map<string, V>, ws: seq<(string, V)>, i: nat)
    requires i < |ws|
    ensures Writes(acc, ws[..i + 1]) == Writes(acc, ws[..i])[ws[i].0 := ws[i].1]
  {
    assert ws[..i + 1][..i] == ws[..i];
  }

  /** The keys written are exactly the old keys and the keys of the pairs. */
  lemma {:induction false} WritesKeys<V>(acc: map<string, V>, ws: seq<(string, V)>)
    ensures Writes(acc, ws).Keys == acc.Keys + set w | w in ws :: w.0
  {
    if ws != [] {
      var init := ws[..|ws| - 1];
      WritesKeys(acc, init);
      assert ws == init + [ws[|ws| - 1]];
      assert (set w | w in ws :: w.0) == (set w | w in init :: w.0) + {ws[|ws| - 1].0};
    }
  }

  /** A pair that no later pair overwrites is what the key ends up holding. */
  lemma {:induction false} WritesLastWins<V>(acc: map<string, V>, ws: seq<(string, V)>, j: nat)
    requires j < |ws|
    requires forall k | j < k < |ws| :: ws[k].0 != ws[j].0
    ensures ws[j].0 in Writes(acc, ws) && Writes(acc, ws)[ws[j].0] == ws[j].1
  {
    if j < |ws| - 1 {
      var init := ws[..|ws| - 1];
      assert init[j] == ws[j];
      forall k | j < k < |init|
        ensures init[k].0 != init[j].0
      {
        assert init[k] == ws[k];
      }
      WritesLastWins(acc, init, j);
    }
  }

  /** A key that no pair mentions keeps its value. */
  lemma {:induction false} WritesKeepsOthers<V>(acc: map<string, V>, ws: seq<(string, V)>, key: string)
    requires key in acc
    requires forall k | 0 <= k < |ws| :: ws[k].0 != key
    ensures key in Writes(acc, ws) && Writes(acc, ws)[key] == acc[key]
  {
    if ws != [] {
      var init := ws[..|ws| - 1];
      forall k | 0 <= k < |init|
        ensures init[k].0 != key
      {
        assert init[k] == ws[k];
      }
      WritesKeepsOthers(acc, init, key);
    }
  }

  /** The snake-case names of a struct's fields. */
  function SnakeNames(fs: seq<FieldDesc>): set<string> {
    set f | f in fs :: Tools.ToSnake(f.name)
  }

  /** Writes made one per field under its snake-case name write exactly
      the snake-case names. */
  lemma WrittenNames<V>(fs: seq<FieldDesc>, ws: seq<(string, V)>)
    requires |ws| == |fs| && forall i | 0 <= i < |fs| :: ws[i].0 == Tools.ToSnake(fs[i].name)
    ensures (set w | w in ws :: w.0) == SnakeNames(fs)
  {
    forall w | w in ws
      ensures w.0 in SnakeNames(fs)
    {
      var i :| 0 <= i < |ws| && ws[i] == w;
      assert fs[i] in fs;
    }
    forall f | f in fs
      ensures Tools.ToSnake(f.name) in set w | w in ws :: w.0
    {
      var i :| 0 <= i < |fs| && fs[i] == f;
      assert ws[i] in ws;
    }
  }

  // ------------------------------------------------------------ writes that can fail

  /** A loop that writes each (key, entry) pair of `es` in order and stops
      at the first entry that failed: that failure, or the map with every
      entry written. */
  function FillAll<V>(acc: map<string, V>, es: seq<(string, Result<V>)>): Result<map<string, V>> {
    if es == [] then Ok(acc)
    else
      var prev := FillAll(acc, es[..|es| - 1]);
      var e := es[|es| - 1];
      if prev.Panic? then prev
      else if e.1.Panic? then Panic(e.1.message)
      else Ok(prev.value[e.0 := e.1.value])
  }

  /** Every entry succeeded. */
  predicate AllOk<V>(es: seq<(string, Result<V>)>) {
    forall i | 0 <= i < |es| :: es[i].1.Ok?
  }

  /** The pairs of entries that all succeeded. */
  function Unwrapped<V>(es: seq<(string, Result<V>)>): seq<(string, V)>
    requires AllOk(es)
  {
    seq(|es|, i requires 0 <= i < |es| => (es[i].0, es[i].1.value))
  }

  /** One more entry extends the fold over a prefix. */
  lemma FillAllStep<V>(acc: map<string, V>, es: seq<(string, Result<V>)>, i: nat)
    requires i < |es|
    ensures FillAll(acc, es[..i + 1])
         == var prev := FillAll(acc, es[..i]);
            if prev.Panic? then prev
            else if es[i].1.Panic? then Panic(es[i].1.message)
            else Ok(prev.value[es[i].0 := es[i].1.value])
  {
    assert es[..i + 1][..i] == es[..i];
  }

  /** A failure in a prefix is the failure of the whole fold. */
  lemma {:induction false} FillAllPanicStays<V>(acc: map<string, V>, es: seq<(string, Result<V>)>, k: nat)
    requires k <= |es| && FillAll(acc, es[..k]).Panic?
    ensures FillAll(acc, es) == FillAll(acc, es[..k])
    decreases |es| - k
  {
    if k == |es| {
      assert es[..k] == es;
    } else {
      var init := es[..|es| - 1];
      assert init[..k] == es[..k];
      FillAllPanicStays(acc, init, k);
    }
  }

  /** The fold succeeds exactly when every entry does, and then it is the
      ordered writes of their values. */
  lemma {:induction false} FillAllWrites<V>(acc: map<string, V>, es: seq<(string, Result<V>)>)
    ensures FillAll(acc, es).Ok? <==> AllOk(es)
    ensures AllOk(es) ==> FillAll(acc, es).value == Writes(acc, Unwrapped(es))
  {
    if es != [] {
      var init := es[..|es| - 1];
      FillAllWrites(acc, init);
      assert forall i | 0 <= i < |init| :: init[i] == es[i];
      if AllOk(es) {
        assert AllOk(init);
        assert Unwrapped(es)[..|es| - 1] == Unwrapped(init);
      } else if AllOk(init) {
        var i :| 0 <= i < |es| && !es[i].1.Ok?;
        assert i == |es| - 1;
      }
    }
  }

  // ------------------------------------------------------------ input objects

  /** `createInputField`: the field's type mapped as required, or the nil
      config when the type does not map. */
  function InputFieldOf(scalars: Scalars, builtInputs: map<string, InputObjectDef>, f: FieldDesc): InputFieldConfig {
    var ft := TypeMapping.InputFieldType(scalars, builtInputs, f.typ, true);
    if ft == Nil then NilInputField else InputField(ft)
  }

  /** An input field gets the nil config exactly when the type behind its
      pointers is not a scalar and either is neither a slice nor a struct,
      or is a struct reached through a pointer that has no built input
      object. */
  lemma InputFieldNilIff(scalars: Scalars, builtInputs: map<string, InputObjectDef>, f: FieldDesc)
    ensures InputFieldOf(scalars, builtInputs, f) == NilInputField
        <==> && Tools.ScalarIn(scalars, TypeMapping.Pointee(f.typ)).None?
             && (|| TypeMapping.Pointee(f.typ).Other?
                 || (TypeMapping.Pointee(f.typ).Struct? && f.typ.Ptr?
                     && Tools.GetKey(TypeMapping.Pointee(f.typ)) !in builtInputs))
  {
    TypeMapping.BuiltMapsHoldRefs(builtInputs, map[]);
    TypeMapping.FieldTypeNilIff(scalars, TypeMapping.InputRefs(builtInputs), f.typ, true);
  }

  /** The writes the builder makes into an input object, one per struct
      field, under the field's snake-case name. */
  function InputWrites(scalars: Scalars, builtInputs: map<string, InputObjectDef>, fs: seq<FieldDesc>)
    : (ws: seq<(string, InputFieldConfig)>)
    ensures |ws| == |fs|
  {
    if fs == [] then []
    else InputWrites(scalars, builtInputs, fs[..|fs| - 1]) + [(Tools.ToSnake(fs[|fs| - 1].name), InputFieldOf(scalars, builtInputs, fs[|fs| - 1]))]
  }

  /** The `i`th write into an input object is the `i`th struct field's. */
  lemma {:induction false} InputWritesAt(scalars: Scalars, builtInputs: map<string, InputObjectDef>, fs: seq<FieldDesc>, i: nat)
    requires i < |fs|
    ensures InputWrites(scalars, builtInputs, fs)[i] == (Tools.ToSnake(fs[i].name), InputFieldOf(scalars, builtInputs, fs[i]))
  {
    if i < |fs| - 1 {
      InputWritesAt(scalars, builtInputs, fs[..|fs| - 1], i);
    }
  }

  // ------------------------------------------------------------ output objects

  /** `createOutputField`: a field named by the Go field name, without
      arguments or resolver, of the field's type mapped as required; the nil
      field when the type does not map. */
  function OutputFieldOf(scalars: Scalars, builtOutputs: map<string, ObjectDef>, f: FieldDesc): FieldConfig {
    var ft := TypeMapping.OutputFieldType(scalars, builtOutputs, f.typ, true);
    if ft == Nil then NilField else Field(f.name, map[], ft, DefaultResolver)
  }

  /** A plain output field is the nil field exactly when its type does not
      map: the type behind its pointers is not a scalar and is either
      neither a slice nor a struct, or a struct reached through a pointer
      that has no built object. Otherwise it carries the Go field name and
      no resolver. */
  lemma OutputFieldShape(scalars: Scalars, builtOutputs: map<string, ObjectDef>, f: FieldDesc)
    ensures OutputFieldOf(scalars, builtOutputs, f) == NilField
        <==> && Tools.ScalarIn(scalars, TypeMapping.Pointee(f.typ)).None?
             && (|| TypeMapping.Pointee(f.typ).Other?
                 || (TypeMapping.Pointee(f.typ).Struct? && f.typ.Ptr?
                     && Tools.GetKey(TypeMapping.Pointee(f.typ)) !in builtOutputs))
    ensures OutputFieldOf(scalars, builtOutputs, f).Field? ==>
        && OutputFieldOf(scalars, builtOutputs, f).name == f.name
        && OutputFieldOf(scalars, builtOutputs, f).args == map[]
        && OutputFieldOf(scalars, builtOutputs, f).resolver == DefaultResolver
  {
    TypeMapping.BuiltMapsHoldRefs(map[], builtOutputs);
    TypeMapping.FieldTypeNilIff(scalars, TypeMapping.OutputRefs(builtOutputs), f.typ, true);
  }

  // ------------------------------------------------------------ arguments

  /** Every field of an argument struct has a type that maps to an argument type. */
  predicate ArgumentsMap(makeNullable: SchemaType -> SchemaType, scalars: Scalars, inputs: map<string, SchemaType>,
                         fs: seq<FieldDesc>) {
    forall i | 0 <= i < |fs| :: TypeMapping.ResolverInputType(makeNullable, scalars, inputs, fs[i].typ).Ok?
  }

  /** The argument definitions, one per field under its snake-case name. */
  function ArgumentWrites(makeNullable: SchemaType -> SchemaType, scalars: Scalars, inputs: map<string, SchemaType>,
                          fs: seq<FieldDesc>): (ws: seq<(string, SchemaType)>)
    requires ArgumentsMap(makeNullable, scalars, inputs, fs)
    ensures |ws| == |fs|
  {
    if fs == [] then []
    else
      var last := fs[|fs| - 1];
      ArgumentWrites(makeNullable, scalars, inputs, fs[..|fs| - 1])
        + [(Tools.ToSnake(last.name), TypeMapping.ResolverInputType(makeNullable, scalars, inputs, last.typ).value)]
  }

  /** The `i`th argument definition is the `i`th field's. */
  lemma {:induction false} ArgumentWritesAt(makeNullable: SchemaType -> SchemaType, scalars: Scalars, inputs: map<string, SchemaType>,
                                            fs: seq<FieldDesc>, i: nat)
    requires ArgumentsMap(makeNullable, scalars, inputs, fs) && i < |fs|
    ensures ArgumentWrites(makeNullable, scalars, inputs, fs)[i]
         == (Tools.ToSnake(fs[i].name), TypeMapping.ResolverInputType(makeNullable, scalars, inputs, fs[i].typ).value)
  {
    if i < |fs| - 1 {
      ArgumentWritesAt(makeNullable, scalars, inputs, fs[..|fs| - 1], i);
    }
  }

  /** `buildFieldConfigArgument`: the argument definitions of struct `t`;
      a non-struct panics in `NumField`, and a field whose type does not
      map panics as an invalid input type. */
  function FieldConfigArgument(makeNullable: SchemaType -> SchemaType, scalars: Scalars, inputs: map<string, SchemaType>,
                               types: TypeTable, t: TypeDesc): Result<map<string, SchemaType>>
  {
    if !t.Struct? then Panic("reflect: NumField of non-struct type")
    else if ArgumentsMap(makeNullable, scalars, inputs, Fields(types, t)) then
      Ok(Writes(map[], ArgumentWrites(makeNullable, scalars, inputs, Fields(types, t))))
    else Panic("Invalid input type")
  }

  /** The only message an argument type that fails to map panics with. */
  lemma {:induction false} ResolverInputPanicMessage(makeNullable: SchemaType -> SchemaType, scalars: Scalars,
                                                     inputs: map<string, SchemaType>, t: TypeDesc)
    requires TypeMapping.ResolverInputType(makeNullable, scalars, inputs, t).Panic?
    ensures TypeMapping.ResolverInputType(makeNullable, scalars, inputs, t).message == "Invalid input type"
  {
    match t
    case Ptr(e) => ResolverInputPanicMessage(makeNullable, scalars, inputs, e);
    case Slice(_, e) => ResolverInputPanicMessage(makeNullable, scalars, inputs, e);
    case Struct(_, _, _) =>
    case Other(_, _, _) =>
  }

  /** The argument definitions exist exactly when `t` is a struct each of
      whose fields is a tower of pointers and slices over a struct or a
      scalar. */
  lemma FieldConfigArgumentOkIff(makeNullable: SchemaType -> SchemaType, scalars: Scalars,
                                 inputs: map<string, SchemaType>, types: TypeTable, t: TypeDesc)
    ensures FieldConfigArgument(makeNullable, scalars, inputs, types, t).Ok?
        <==> t.Struct? && forall f | f in Fields(types, t) ::
               TypeMapping.Base(f.typ).Struct? || Tools.ScalarIn(scalars, TypeMapping.Base(f.typ)).Some?
  {
    if t.Struct? {
      forall f | f in Fields(types, t)
        ensures TypeMapping.ResolverInputType(makeNullable, scalars, inputs, f.typ).Ok?
            <==> TypeMapping.Base(f.typ).Struct? || Tools.ScalarIn(scalars, TypeMapping.Base(f.typ)).Some?
      {
        TypeMapping.ResolverInputOkIff(makeNullable, scalars, inputs, f.typ);
      }
    }
  }

  /** There is one argument per snake-case field name. */
  lemma FieldConfigArgumentKeys(makeNullable: SchemaType -> SchemaType, scalars: Scalars,
                                inputs: map<string, SchemaType>, types: TypeTable, t: TypeDesc)
    requires FieldConfigArgument(makeNullable, scalars, inputs, types, t).Ok?
    ensures FieldConfigArgument(makeNullable, scalars, inputs, types, t).value.Keys == SnakeNames(Fields(types, t))
  {
    var fs := Fields(types, t);
    var ws := ArgumentWrites(makeNullable, scalars, inputs, fs);
    forall i | 0 <= i < |fs|
      ensures ws[i].0 == Tools.ToSnake(fs[i].name)
    {
      ArgumentWritesAt(makeNullable, scalars, inputs, fs, i);
    }
    WritesKeys(map[], ws);
    WrittenNames(Fields(types, t), ws);
  }

  /** A field that no later field shadows defines its own argument: the
      non-null, list or nullable form of its type. */
  lemma FieldConfigArgumentValue(makeNullable: SchemaType -> SchemaType, scalars: Scalars,
                                 inputs: map<string, SchemaType>, types: TypeTable, t: TypeDesc, j: nat)
    requires FieldConfigArgument(makeNullable, scalars, inputs, types, t).Ok?
    requires j < |Fields(types, t)|
    requires forall k | j < k < |Fields(types, t)| :: Tools.ToSnake(Fields(types, t)[k].name) != Tools.ToSnake(Fields(types, t)[j].name)
    ensures Tools.ToSnake(Fields(types, t)[j].name) in FieldConfigArgument(makeNullable, scalars, inputs, types, t).value
    ensures FieldConfigArgument(makeNullable, scalars, inputs, types, t).value[Tools.ToSnake(Fields(types, t)[j].name)]
              == TypeMapping.ResolverInputType(makeNullable, scalars, inputs, Fields(types, t)[j].typ).value
  {
    var fs := Fields(types, t);
    var ws := ArgumentWrites(makeNullable, scalars, inputs, fs);
    forall i | 0 <= i < |fs|
      ensures ws[i] == (Tools.ToSnake(fs[i].name), TypeMapping.ResolverInputType(makeNullable, scalars, inputs, fs[i].typ).value)
    {
      ArgumentWritesAt(makeNullable, scalars, inputs, fs, i);
    }
    WritesLastWins(map[], ws, j);
  }

  /** One more field extends the argument definitions of a prefix. */
  lemma ArgumentWritesStep(makeNullable: SchemaType -> SchemaType, scalars: Scalars, inputs: map<string, SchemaType>,
                           fs: seq<FieldDesc>, i: nat)
    requires i < |fs| && ArgumentsMap(makeNullable, scalars, inputs, fs[..i])
    requires TypeMapping.ResolverInputType(makeNullable, scalars, inputs, fs[i].typ).Ok?
    ensures ArgumentsMap(makeNullable, scalars, inputs, fs[..i + 1])
    ensures Writes(map[], ArgumentWrites(makeNullable, scalars, inputs, fs[..i + 1]))
         == Writes(map[], ArgumentWrites(makeNullable, scalars, inputs, fs[..i]))[Tools.ToSnake(fs[i].name) :=
              TypeMapping.ResolverInputType(makeNullable, scalars, inputs, fs[i].typ).value]
  {
    assert fs[..i + 1][..i] == fs[..i];
    var ws := ArgumentWrites(makeNullable, scalars, inputs, fs[..i + 1]);
    assert ws[..i] == ArgumentWrites(makeNullable, scalars, inputs, fs[..i]);
    WritesStep(map[], ws, i);
    assert ws[..i + 1] == ws;
  }

  // ------------------------------------------------------------ handler fields

  /** `getResolverArgs`: the actual type of the handler's argument struct, if it has one. */
  function ArgPrototype(scalars: Scalars, h: Handler): Option<TypeDesc> {
    if h.argType.Some? then Some(TypeMapping.ActualType(scalars, h.argType.value)) else None
  }

  /** The result type `buildMethod` gives a handler's field: its first
      result mapped as a resolver output; no result is an index panic. */
  function HandlerOutput(makeNullable: SchemaType -> SchemaType, outputs: map<string, SchemaType>, h: Handler)
    : Result<SchemaType>
  {
    if |h.outs| == 0 then Panic("runtime error: index out of range [0] with length 0")
    else TypeMapping.ResolverOutputType(makeNullable, outputs, h.outs[0])
  }

  /** `buildMethod`: an unnamed field of the handler's output type, whose
      arguments are those of the handler's argument struct (none without
      one), resolved by calling the handler. */
  function MethodField(makeNullable: SchemaType -> SchemaType, scalars: Scalars, inputs: map<string, SchemaType>,
                       outputs: map<string, SchemaType>, types: TypeTable, h: Handler): Result<FieldConfig>
  {
    var out := HandlerOutput(makeNullable, outputs, h);
    if out.Panic? then Panic(out.message)
    else match ArgPrototype(scalars, h)
      case None => Ok(Field("", map[], out.value, CallHandler(h)))
      case Some(a) =>
        var args := FieldConfigArgument(makeNullable, scalars, inputs, types, a);
        if args.Panic? then Panic(args.message) else Ok(Field("", args.value, out.value, CallHandler(h)))
  }

  /** A handler becomes a field exactly when it has a result that is a tower
      of pointers and slices over a struct, and it either takes no argument
      struct or one that defines its arguments; the field calls the handler,
      and is non-null unless the result is a pointer. */
  lemma MethodFieldProperties(makeNullable: SchemaType -> SchemaType, scalars: Scalars, inputs: map<string, SchemaType>,
                              outputs: map<string, SchemaType>, types: TypeTable, h: Handler)
    ensures MethodField(makeNullable, scalars, inputs, outputs, types, h).Ok?
        <==> && |h.outs| > 0 && TypeMapping.Base(h.outs[0]).Struct?
             && (h.argType.Some? ==>
                   FieldConfigArgument(makeNullable, scalars, inputs, types, ArgPrototype(scalars, h).value).Ok?)
    ensures MethodField(makeNullable, scalars, inputs, outputs, types, h).Ok? ==>
        var fc := MethodField(makeNullable, scalars, inputs, outputs, types, h).value;
        && fc.Field? && fc.resolver == CallHandler(h)
        && (!h.outs[0].Ptr? ==> fc.typ.NonNull?)
        && (h.argType.None? ==> fc.args == map[])
        && (h.argType.Some? ==> fc.args == FieldConfigArgument(makeNullable, scalars, inputs, types, ArgPrototype(scalars, h).value).value)
  {
    if |h.outs| > 0 {
      TypeMapping.ResolverOutputOkIff(makeNullable, outputs, h.outs[0]);
      if !h.outs[0].Ptr? && TypeMapping.ResolverOutputType(makeNullable, outputs, h.outs[0]).Ok? {
        TypeMapping.ResolverOutputNonPointerIsNonNull(makeNullable, outputs, h.outs[0]);
      }
    }
  }

  /** A method-table entry as `buildMethod` treats it: nil dereferences. */
  function MethodEntryField(makeNullable: SchemaType -> SchemaType, scalars: Scalars, inputs: map<string, SchemaType>,
                            outputs: map<string, SchemaType>, types: TypeTable, m: Objects.MethodRef): Result<FieldConfig>
  {
    match m
    case NilMethod => Panic("runtime error: invalid memory address or nil pointer dereference")
    case MethodPtr(target) => MethodField(makeNullable, scalars, inputs, outputs, types, target.fn)
  }

  /** `fields` holds, under the name of each of `methods`, the field
      `buildMethod` builds for it, and nothing else. */
  predicate MethodFields(makeNullable: SchemaType -> SchemaType, scalars: Scalars, inputs: map<string, SchemaType>,
                         outputs: map<string, SchemaType>, types: TypeTable, methods: map<string, Objects.MethodRef>,
                         fields: map<string, FieldConfig>)
  {
    && fields.Keys == methods.Keys
    && forall n | n in methods :: Ok(fields[n]) == MethodEntryField(makeNullable, scalars, inputs, outputs, types, methods[n])
  }

  /** The field `CreateObjectsFields` makes for struct field `f` of an
      output object: when the object has a custom method table holding the
      snake-case name, that method's field; otherwise the plain field. */
  function OutputEntry(makeNullable: SchemaType -> SchemaType, scalars: Scalars, inputs: map<string, SchemaType>,
                       builtOutputs: map<string, ObjectDef>, types: TypeTable,
                       custom: Option<map<string, Objects.MethodRef>>, f: FieldDesc): Result<FieldConfig>
  {
    var name := Tools.ToSnake(f.name);
    if custom.Some? && name in custom.value then
      MethodEntryField(makeNullable, scalars, inputs, TypeMapping.OutputRefs(builtOutputs), types, custom.value[name])
    else Ok(OutputFieldOf(scalars, builtOutputs, f))
  }

  /** Without a custom method table every entry is the plain field. */
  lemma PlainOutputEntry(makeNullable: SchemaType -> SchemaType, scalars: Scalars, inputs: map<string, SchemaType>,
                         builtOutputs: map<string, ObjectDef>, types: TypeTable, f: FieldDesc)
    ensures OutputEntry(makeNullable, scalars, inputs, builtOutputs, types, None, f)
         == Ok(OutputFieldOf(scalars, builtOutputs, f))
  {
  }

  /** The entries the builder writes into an output object, one per struct
      field in order: the field's snake-case name and its entry. */
  function OutputEntries(makeNullable: SchemaType -> SchemaType, scalars: Scalars, inputs: map<string, SchemaType>,
                         builtOutputs: map<string, ObjectDef>, types: TypeTable,
                         custom: Option<map<string, Objects.MethodRef>>, fs: seq<FieldDesc>): seq<(string, Result<FieldConfig>)>
  {
    seq(|fs|, i requires 0 <= i < |fs| =>
      (Tools.ToSnake(fs[i].name), OutputEntry(makeNullable, scalars, inputs, builtOutputs, types, custom, fs[i])))
  }

  /** The fields `CreateObjectsFields` gives the output object of type `t`
      that held `acc`: a non-struct panics in `NumField`, otherwise each
      struct field's entry is written in turn, stopping at the first entry
      that panics. */
  function OutputObjectFields(makeNullable: SchemaType -> SchemaType, scalars: Scalars, inputs: map<string, SchemaType>,
                              builtOutputs: map<string, ObjectDef>, types: TypeTable,
                              custom: Option<map<string, Objects.MethodRef>>, acc: map<string, FieldConfig>, t: TypeDesc)
    : Result<map<string, FieldConfig>>
  {
    if !t.Struct? then Panic("reflect: NumField of non-struct type")
    else FillAll(acc, OutputEntries(makeNullable, scalars, inputs, builtOutputs, types, custom, Fields(types, t)))
  }

  /** Filling an output object succeeds exactly when its type is a struct
      and every struct field gets its entry. */
  lemma OutputObjectFieldsOkIff(makeNullable: SchemaType -> SchemaType, scalars: Scalars, inputs: map<string, SchemaType>,
                                builtOutputs: map<string, ObjectDef>, types: TypeTable,
                                custom: Option<map<string, Objects.MethodRef>>, acc: map<string, FieldConfig>, t: TypeDesc)
    ensures OutputObjectFields(makeNullable, scalars, inputs, builtOutputs, types, custom, acc, t).Ok?
        <==> t.Struct? && forall f | f in Fields(types, t) ::
               OutputEntry(makeNullable, scalars, inputs, builtOutputs, types, custom, f).Ok?
  {
    if t.Struct? {
      var fs := Fields(types, t);
      var es := OutputEntries(makeNullable, scalars, inputs, builtOutputs, types, custom, fs);
      FillAllWrites(acc, es);
      if AllOk(es) {
        forall f | f in fs
          ensures OutputEntry(makeNullable, scalars, inputs, builtOutputs, types, custom, f).Ok?
        {
          var i :| 0 <= i < |fs| && fs[i] == f;
          assert es[i].1.Ok?;
        }
      } else {
        var i :| 0 <= i < |es| && !es[i].1.Ok?;
        assert fs[i] in fs;
      }
    }
  }

  /** On success the object holds its old fields and one field per
      snake-case struct field name; a struct field that no later field
      shadows holds its own entry. */
  lemma OutputObjectFieldsContent(makeNullable: SchemaType -> SchemaType, scalars: Scalars, inputs: map<string, SchemaType>,
                                  builtOutputs: map<string, ObjectDef>, types: TypeTable,
                                  custom: Option<map<string, Objects.MethodRef>>, acc: map<string, FieldConfig>, t: TypeDesc, j: nat)
    requires OutputObjectFields(makeNullable, scalars, inputs, builtOutputs, types, custom, acc, t).Ok?
    ensures t.Struct?
    ensures OutputObjectFields(makeNullable, scalars, inputs, builtOutputs, types, custom, acc, t).value.Keys
         == acc.Keys + SnakeNames(Fields(types, t))
    ensures j < |Fields(types, t)|
            && (forall k | j < k < |Fields(types, t)| :: Tools.ToSnake(Fields(types, t)[k].name) != Tools.ToSnake(Fields(types, t)[j].name))
        ==> && OutputEntry(makeNullable, scalars, inputs, builtOutputs, types, custom, Fields(types, t)[j]).Ok?
            && OutputObjectFields(makeNullable, scalars, inputs, builtOutputs, types, custom, acc, t).value[Tools.ToSnake(Fields(types, t)[j].name)]
                 == OutputEntry(makeNullable, scalars, inputs, builtOutputs, types, custom, Fields(types, t)[j]).value
  {
    var fs := Fields(types, t);
    var es := OutputEntries(makeNullable, scalars, inputs, builtOutputs, types, custom, fs);
    FillAllWrites(acc, es);
    var ws := Unwrapped(es);
    WritesKeys(acc, ws);
    WrittenNames(fs, ws);
    if j < |fs| && forall k | j < k < |fs| :: Tools.ToSnake(fs[k].name) != Tools.ToSnake(fs[j].name) {
      WritesLastWins(acc, ws, j);
    }
  }

  // ------------------------------------------------------------ subscription fields

  /** `buildSubscriptionMethods`, for one method: an unnamed field whose
      type is the built object stored under the key of the output prototype's
      type (not made non-null, and not stripped of pointers), whose arguments
      are those of the handler's argument struct, and whose resolve function
      forwards the event while the subscribe function starts the handler. */
  function SubscriptionField(makeNullable: SchemaType -> SchemaType, scalars: Scalars, inputs: map<string, SchemaType>,
                             outputs: map<string, SchemaType>, types: TypeTable, m: Subscriptions.SubscriptionMethod)
    : Result<FieldConfig>
  {
    var out := TypeMapping.Lookup(outputs, Tools.GetKey(m.output));
    match ArgPrototype(scalars, m.fn)
    case None => Ok(Field("", map[], out, ForwardSource(m.fn)))
    case Some(a) =>
      var args := FieldConfigArgument(makeNullable, scalars, inputs, types, a);
      if args.Panic? then Panic(args.message) else Ok(Field("", args.value, out, ForwardSource(m.fn)))
  }

  /** A subscription entry: nil dereferences. */
  function SubscriptionEntryField(makeNullable: SchemaType -> SchemaType, scalars: Scalars, inputs: map<string, SchemaType>,
                                  outputs: map<string, SchemaType>, types: TypeTable, m: Subscriptions.SubscriptionRef)
    : Result<FieldConfig>
  {
    match m
    case NilSubscription => Panic("runtime error: invalid memory address or nil pointer dereference")
    case SubscriptionPtr(target) => SubscriptionField(makeNullable, scalars, inputs, outputs, types, target)
  }

  /** Likewise for subscription methods and `buildSubscriptionMethods`. */
  predicate SubscriptionFields(makeNullable: SchemaType -> SchemaType, scalars: Scalars, inputs: map<string, SchemaType>,
                               outputs: map<string, SchemaType>, types: TypeTable,
                               methods: map<string, Subscriptions.SubscriptionRef>, fields: map<string, FieldConfig>)
  {
    && fields.Keys == methods.Keys
    && forall n | n in methods :: Ok(fields[n]) == SubscriptionEntryField(makeNullable, scalars, inputs, outputs, types, methods[n])
  }

  /** A subscription field exists exactly when the method takes no argument
      struct or one that defines its arguments; its type is the stored
      object as is, so a missing key gives the nil type and nothing is
      made non-null. */
  lemma SubscriptionFieldProperties(makeNullable: SchemaType -> SchemaType, scalars: Scalars, inputs: map<string, SchemaType>,
                                    outputs: map<string, SchemaType>, types: TypeTable, m: Subscriptions.SubscriptionMethod)
    ensures SubscriptionField(makeNullable, scalars, inputs, outputs, types, m).Ok?
        <==> (m.fn.argType.Some? ==>
                FieldConfigArgument(makeNullable, scalars, inputs, types, ArgPrototype(scalars, m.fn).value).Ok?)
    ensures SubscriptionField(makeNullable, scalars, inputs, outputs, types, m).Ok? ==>
        var fc := SubscriptionField(makeNullable, scalars, inputs, outputs, types, m).value;
        && fc.Field? && fc.resolver == ForwardSource(m.fn)
        && (Tools.GetKey(m.output) in outputs ==> fc.typ == outputs[Tools.GetKey(m.output)])
        && (Tools.GetKey(m.output) !in outputs ==> fc.typ == Nil)
  {
  }

  // ------------------------------------------------------------ argument prototypes

  /** `b` agrees with `a` on every owner outside `owners`. */
  ghost predicate OthersUnchanged(a: ArgsMap, b: ArgsMap, owners: set<string>) {
    forall o | o !in owners :: (o in b <==> o in a) && (o in b ==> b[o] == a[o])
  }

  lemma OthersUnchangedTrans(a: ArgsMap, b: ArgsMap, c: ArgsMap, s1: set<string>, s2: set<string>)
    requires OthersUnchanged(a, b, s1) && OthersUnchanged(b, c, s2)
    ensures OthersUnchanged(a, c, s1 + s2)
  {
  }

  /** With no owner excepted, nothing changed. */
  lemma OthersUnchangedNone(a: ArgsMap, b: ArgsMap)
    requires OthersUnchanged(a, b, {})
    ensures a == b
  {
    assert forall o | o in a :: o in b;
  }


  type ArgsMap = map<string, map<string, Prototype>>

  /** A zero value of a type, kept as the prototype of a handler's argument. */
  datatype Prototype = ZeroOf(typ: TypeDesc)

  /** The prototypes recorded for `owner`, none if it has no entry. */
  function Owned(am: ArgsMap, owner: string): map<string, Prototype> {
    if owner in am then am[owner] else map[]
  }

  /** `argsMap[owner][n] = prototype`, creating the inner map if needed. */
  function Record(am: ArgsMap, owner: string, n: string, p: Prototype): ArgsMap {
    am[owner := Owned(am, owner)[n := p]]
  }

  /** Recording sets exactly one prototype and keeps every other one. */
  lemma RecordSetsOne(am: ArgsMap, owner: string, n: string, p: Prototype, o: string, m: string)
    ensures owner in Record(am, owner, n, p) && n in Record(am, owner, n, p)[owner]
    ensures Record(am, owner, n, p)[owner][n] == p
    ensures Record(am, owner, n, p).Keys == am.Keys + {owner}
    ensures (o != owner || m != n) && o in am && m in am[o] ==> o in Record(am, owner, n, p) && m in Record(am, owner, n, p)[o] && Record(am, owner, n, p)[o][m] == am[o][m]
  {
  }

  /** The prototypes of the methods named in `names` that take an argument struct. */
  function MethodPrototypes(scalars: Scalars, methods: map<string, Objects.MethodRef>, names: set<string>): map<string, Prototype> {
    map n | n in names && n in methods && methods[n].MethodPtr? && methods[n].target.fn.argType.Some? ::
      ZeroOf(ArgPrototype(scalars, methods[n].target.fn).value)
  }

  /** Taking one more method in adds its prototype, if it has one. */
  lemma MethodPrototypesStep(scalars: Scalars, methods: map<string, Objects.MethodRef>, names: set<string>, n: string)
    requires n in methods && n !in names
    ensures n !in MethodPrototypes(scalars, methods, names)
    ensures MethodPrototypes(scalars, methods, names + {n})
         == if methods[n].MethodPtr? && methods[n].target.fn.argType.Some?
            then MethodPrototypes(scalars, methods, names)[n := ZeroOf(ArgPrototype(scalars, methods[n].target.fn).value)]
            else MethodPrototypes(scalars, methods, names)
  {
  }

  /** `argsMap` after recording the prototypes `protos` for `owner`; an owner
      with nothing to record gets no entry. */
  function RecordAll(am: ArgsMap, owner: string, protos: map<string, Prototype>): ArgsMap {
    if protos == map[] then am else am[owner := Owned(am, owner) + protos]
  }

  /** After recording a table's prototypes, each method with an argument
      struct has the zero value of that struct's actual type under the
      owner, every other owner is untouched, and an owner without such a
      method gains no entry. */
  lemma RecordAllProperties(scalars: Scalars, am: ArgsMap, owner: string, methods: map<string, Objects.MethodRef>, n: string, o: string)
    ensures var am' := RecordAll(am, owner, MethodPrototypes(scalars, methods, methods.Keys));
      && (n in methods && methods[n].MethodPtr? && methods[n].target.fn.argType.Some? ==>
            owner in am' && n in am'[owner]
            && am'[owner][n] == ZeroOf(TypeMapping.ActualType(scalars, methods[n].target.fn.argType.value)))
      && (o != owner ==> (o in am' <==> o in am) && (o in am ==> am'[o] == am[o]))
      && (owner !in am && (forall k | k in methods :: methods[k].NilMethod? || methods[k].target.fn.argType.None?) ==> owner !in am')
  {
    var protos := MethodPrototypes(scalars, methods, methods.Keys);
    if owner !in am && (forall k | k in methods :: methods[k].NilMethod? || methods[k].target.fn.argType.None?) {
      assert protos == map[];
    }
  }

  /** Recording one more method's prototype extends the recorded set. */
  lemma RecordAllStep(am: ArgsMap, owner: string, protos: map<string, Prototype>, n: string, p: Prototype)
    requires n !in protos
    ensures Record(RecordAll(am, owner, protos), owner, n, p) == RecordAll(am, owner, protos[n := p])
  {
    assert protos[n := p] != map[] by { assert n in protos[n := p]; }
    assert Owned(RecordAll(am, owner, protos), owner)[n := p] == Owned(am, owner) + protos[n := p];
  }

  /** The subscription prototypes: each method named in `names` that takes
      an argument struct is recorded under its own name, both as owner and
      as field. */
  function SubscriptionPrototypes(scalars: Scalars, methods: map<string, Subscriptions.SubscriptionRef>, names: set<string>)
    : map<string, Prototype>
  {
    map n | n in names && n in methods && methods[n].SubscriptionPtr? && methods[n].target.fn.argType.Some? ::
      ZeroOf(ArgPrototype(scalars, methods[n].target.fn).value)
  }

  /** Taking one more subscription method in adds its prototype, if it has one. */
  lemma SubscriptionPrototypesStep(scalars: Scalars, methods: map<string, Subscriptions.SubscriptionRef>, names: set<string>, n: string)
    requires n in methods && n !in names
    ensures n !in SubscriptionPrototypes(scalars, methods, names)
    ensures SubscriptionPrototypes(scalars, methods, names + {n})
         == if methods[n].SubscriptionPtr? && methods[n].target.fn.argType.Some?
            then SubscriptionPrototypes(scalars, methods, names)[n := ZeroOf(ArgPrototype(scalars, methods[n].target.fn).value)]
            else SubscriptionPrototypes(scalars, methods, names)
  {
  }

  /** `argsMap` after recording each subscription prototype under
      `argsMap[n][n]`. */
  function RecordEach(am: ArgsMap, protos: map<string, Prototype>): ArgsMap {
    map o | o in am.Keys + protos.Keys :: if o in protos then Owned(am, o)[o := protos[o]] else am[o]
  }

  /** Recording one more subscription prototype extends the recorded set. */
  lemma RecordEachStep(am: ArgsMap, protos: map<string, Prototype>, n: string, p: Prototype)
    requires n !in protos
    ensures Record(RecordEach(am, protos), n, n, p) == RecordEach(am, protos[n := p])
  {
  }

  /** After recording the subscription prototypes, a method `n` with an
      argument struct has its zero value at `argsMap[n][n]`, and the owners
      that are not names of such methods are untouched. */
  lemma RecordEachProperties(scalars: Scalars, am: ArgsMap, methods: map<string, Subscriptions.SubscriptionRef>, n: string, o: string)
    ensures var am' := RecordEach(am, SubscriptionPrototypes(scalars, methods, methods.Keys));
      && (n in methods && methods[n].SubscriptionPtr? && methods[n].target.fn.argType.Some? ==>
            n in am' && n in am'[n]
            && am'[n][n] == ZeroOf(TypeMapping.ActualType(scalars, methods[n].target.fn.argType.value)))
      && (o !in SubscriptionPrototypes(scalars, methods, methods.Keys) ==> (o in am' <==> o in am) && (o in am ==> am'[o] == am[o]))
  {
  }
}
