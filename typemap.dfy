/** How the builder turns Go types into GraphQL types: the "actual" type a
    field stands for, the type of a struct field, and the type of a
    resolver's result or argument. The builder's own scalar table and its
    maps of built objects are parameters, so every mapping is a function. */
module TypeMapping {
  import opened Wrappers
  import opened Reflect
  import opened Schema
  import Tools

  /** The builder's scalar table, keyed by Go type name. */
  type Scalars = map<string, Scalar>

  /** The schema type stored under `key` in a map of built objects, or the
      nil interface Go's map lookup yields for a missing key. */
  function Lookup(memo: map<string, SchemaType>, key: string): SchemaType {
    if key in memo then memo[key] else Nil
  }

  function InputRefs(built: map<string, InputObjectDef>): map<string, SchemaType> {
    map k | k in built :: InputRef(built[k])
  }

  function OutputRefs(built: map<string, ObjectDef>): map<string, SchemaType> {
    map k | k in built :: OutputRef(built[k])
  }

  /** A map of built objects holds only references to objects. */
  predicate ObjectRefs(memo: map<string, SchemaType>) {
    forall k | k in memo :: memo[k].InputRef? || memo[k].OutputRef?
  }

  lemma BuiltMapsHoldRefs(inputs: map<string, InputObjectDef>, outputs: map<string, ObjectDef>)
    ensures ObjectRefs(InputRefs(inputs)) && ObjectRefs(OutputRefs(outputs))
    ensures InputRefs(inputs).Keys == inputs.Keys && OutputRefs(outputs).Keys == outputs.Keys
  {
  }

  /** `getActualTypeRecursive`: look through pointers, and through slices
      unless the slice type itself is a scalar. The result is one of the
      layers of `t`, never a pointer, and a slice only if it is a scalar. */
  function ActualType(scalars: Scalars, t: TypeDesc): (r: TypeDesc)
    ensures r in Layers(t)
    ensures !r.Ptr?
    ensures r.Slice? ==> Tools.ScalarIn(scalars, r).Some?
  {
    match t
    case Ptr(e) => ActualType(scalars, e)
    case Slice(_, e) => if Tools.ScalarIn(scalars, t).Some? then t else ActualType(scalars, e)
    case _ => t
  }

  /** The actual type is a fixed point: looking through it again changes nothing. */
  lemma ActualTypeIdempotent(scalars: Scalars, t: TypeDesc)
    ensures ActualType(scalars, ActualType(scalars, t)) == ActualType(scalars, t)
  {
  }

  /** `t` with every pointer layer removed. */
  function Pointee(t: TypeDesc): (r: TypeDesc)
    ensures !r.Ptr?
  {
    if t.Ptr? then Pointee(t.elem) else t
  }

  /** `getInputFieldType` / `getOutputFieldType`: wrap in NonNull when required. */
  function Wrap(v: SchemaType, required: bool): SchemaType {
    if required then NonNull(v) else v
  }

  /** `getInputFieldTypeRecursive` and `getOutputFieldTypeRecursive`, which
      differ only in the map of built objects they consult (`memo`). */
  function FieldType(scalars: Scalars, memo: map<string, SchemaType>, t: TypeDesc, required: bool): SchemaType {
    match t
    case Ptr(e) => FieldType(scalars, memo, e, false)
    case Slice(_, e) =>
      if Tools.ScalarIn(scalars, t).Some? then Wrap(ScalarRef(Tools.ScalarIn(scalars, t).value), required)
      else List(FieldType(scalars, memo, e, true))
    case Struct(_, _, _) =>
      if Tools.ScalarIn(scalars, t).Some? then Wrap(ScalarRef(Tools.ScalarIn(scalars, t).value), required)
      else Wrap(Lookup(memo, Tools.GetKey(t)), required)
    case Other(_, _, _) =>
      if Tools.ScalarIn(scalars, t).Some? then Wrap(ScalarRef(Tools.ScalarIn(scalars, t).value), required)
      else Nil
  }

  function InputFieldType(scalars: Scalars, builtInputs: map<string, InputObjectDef>, t: TypeDesc, required: bool): SchemaType {
    FieldType(scalars, InputRefs(builtInputs), t, required)
  }

  function OutputFieldType(scalars: Scalars, builtOutputs: map<string, ObjectDef>, t: TypeDesc, required: bool): SchemaType {
    FieldType(scalars, OutputRefs(builtOutputs), t, required)
  }

  /** A field reached through a pointer is never NonNull at the top. */
  lemma {:induction false} OptionalNeverNonNull(scalars: Scalars, memo: map<string, SchemaType>, t: TypeDesc)
    requires ObjectRefs(memo)
    ensures !FieldType(scalars, memo, t, false).NonNull?
  {
    if t.Ptr? {
      OptionalNeverNonNull(scalars, memo, t.elem);
    }
  }

  /** A field's type is NonNull exactly when the field is required, not a
      pointer, and is a scalar or a struct: slices of objects become plain
      (nullable) lists, and unmapped kinds become nil. */
  lemma FieldNonNullIff(scalars: Scalars, memo: map<string, SchemaType>, t: TypeDesc, required: bool)
    requires ObjectRefs(memo)
    ensures FieldType(scalars, memo, t, required).NonNull?
        <==> required && !t.Ptr? && (t.Struct? || Tools.ScalarIn(scalars, t).Some?)
  {
    if t.Ptr? {
      OptionalNeverNonNull(scalars, memo, t.elem);
    }
  }

  /** Mapping a field fails (yields nil, so no field config is made) exactly
      when the type behind its pointers is not a scalar and either is
      neither a slice nor a struct, or is a struct with no built object that
      is not made NonNull (it is reached through a pointer or not required). */
  lemma {:induction false} FieldTypeNilIff(scalars: Scalars, memo: map<string, SchemaType>, t: TypeDesc, required: bool)
    requires ObjectRefs(memo)
    ensures FieldType(scalars, memo, t, required) == Nil
        <==> && Tools.ScalarIn(scalars, Pointee(t)).None?
             && (|| Pointee(t).Other?
                 || (Pointee(t).Struct? && Tools.GetKey(Pointee(t)) !in memo && (t.Ptr? || !required)))
  {
    if t.Ptr? {
      FieldTypeNilIff(scalars, memo, t.elem, false);
    }
  }

  /** The type inside every NonNull and List wrapper. */
  function Innermost(s: SchemaType): SchemaType {
    match s
    case NonNull(of) => Innermost(of)
    case List(of) => Innermost(of)
    case _ => s
  }

  /** When a field stands for a non-scalar struct, its type refers to the
      object stored under that struct's key: the key discovery records for
      the field is the key the mapping consults. */
  lemma {:induction false} FieldTypeUsesActualKey(scalars: Scalars, memo: map<string, SchemaType>, t: TypeDesc, required: bool)
    requires ActualType(scalars, t).Struct? && Tools.ScalarIn(scalars, ActualType(scalars, t)).None?
    ensures Innermost(FieldType(scalars, memo, t, required)) == Innermost(Lookup(memo, Tools.GetKey(ActualType(scalars, t))))
  {
    match t
    case Ptr(e) => FieldTypeUsesActualKey(scalars, memo, e, false);
    case Slice(_, e) => FieldTypeUsesActualKey(scalars, memo, e, true);
    case Struct(_, _, _) =>
    case Other(_, _, _) =>
  }

  /** When a field stands for a scalar, its type is that scalar, wrapped. */
  lemma {:induction false} FieldTypeUsesActualScalar(scalars: Scalars, memo: map<string, SchemaType>, t: TypeDesc, required: bool)
    requires Tools.ScalarIn(scalars, ActualType(scalars, t)).Some?
    ensures Innermost(FieldType(scalars, memo, t, required)) == ScalarRef(Tools.ScalarIn(scalars, ActualType(scalars, t)).value)
  {
    match t
    case Ptr(e) => FieldTypeUsesActualScalar(scalars, memo, e, false);
    case Slice(_, e) =>
      if Tools.ScalarIn(scalars, t).None? {
        FieldTypeUsesActualScalar(scalars, memo, e, true);
      }
    case Struct(_, _, _) =>
    case Other(_, _, _) =>
  }

  /** `t` with every pointer and slice layer removed. */
  function Base(t: TypeDesc): (r: TypeDesc)
    ensures r.Struct? || r.Other?
  {
    match t
    case Ptr(e) => Base(e)
    case Slice(_, e) => Base(e)
    case _ => t
  }

  /** `getResolverOutputObjectRecursive`: pointers go through the nullable
      maker, slices become non-null lists, structs the non-null built
      object; any other kind panics. */
  function ResolverOutputType(makeNullable: SchemaType -> SchemaType, builtOutputs: map<string, SchemaType>, t: TypeDesc)
    : Result<SchemaType>
  {
    match t
    case Ptr(e) =>
      var r := ResolverOutputType(makeNullable, builtOutputs, e);
      if r.Panic? then r else Ok(makeNullable(r.value))
    case Slice(_, e) =>
      var r := ResolverOutputType(makeNullable, builtOutputs, e);
      if r.Panic? then r else Ok(NonNull(List(r.value)))
    case Struct(_, _, _) => Ok(NonNull(Lookup(builtOutputs, Tools.GetKey(t))))
    case Other(_, _, _) => Panic("Invalid output type")
  }

  /** `getResolverInputObjectRecursive`: as for outputs, and a scalar kind
      becomes the non-null scalar; a struct is looked up even when it is a
      scalar. */
  function ResolverInputType(makeNullable: SchemaType -> SchemaType, scalars: Scalars, builtInputs: map<string, SchemaType>,
                             t: TypeDesc): Result<SchemaType>
  {
    match t
    case Ptr(e) =>
      var r := ResolverInputType(makeNullable, scalars, builtInputs, e);
      if r.Panic? then r else Ok(makeNullable(r.value))
    case Slice(_, e) =>
      var r := ResolverInputType(makeNullable, scalars, builtInputs, e);
      if r.Panic? then r else Ok(NonNull(List(r.value)))
    case Struct(_, _, _) => Ok(NonNull(Lookup(builtInputs, Tools.GetKey(t))))
    case Other(_, _, _) =>
      if Tools.ScalarIn(scalars, t).Some? then Ok(NonNull(ScalarRef(Tools.ScalarIn(scalars, t).value)))
      else Panic("Invalid input type")
  }

  /** A resolver's result type maps exactly when it is a tower of pointers
      and slices over a struct. */
  lemma {:induction false} ResolverOutputOkIff(makeNullable: SchemaType -> SchemaType, builtOutputs: map<string, SchemaType>, t: TypeDesc)
    ensures ResolverOutputType(makeNullable, builtOutputs, t).Ok? <==> Base(t).Struct?
  {
    match t
    case Ptr(e) => ResolverOutputOkIff(makeNullable, builtOutputs, e);
    case Slice(_, e) => ResolverOutputOkIff(makeNullable, builtOutputs, e);
    case Struct(_, _, _) =>
    case Other(_, _, _) =>
  }

  /** A resolver's argument type maps exactly when it is a tower of pointers
      and slices over a struct or a scalar. */
  lemma {:induction false} ResolverInputOkIff(makeNullable: SchemaType -> SchemaType, scalars: Scalars,
                                              builtInputs: map<string, SchemaType>, t: TypeDesc)
    ensures ResolverInputType(makeNullable, scalars, builtInputs, t).Ok?
        <==> Base(t).Struct? || Tools.ScalarIn(scalars, Base(t)).Some?
  {
    match t
    case Ptr(e) => ResolverInputOkIff(makeNullable, scalars, builtInputs, e);
    case Slice(_, e) => ResolverInputOkIff(makeNullable, scalars, builtInputs, e);
    case Struct(_, _, _) =>
    case Other(_, _, _) =>
  }

  /** A resolver whose result is not a pointer is non-null; a pointer's
      nullability is whatever the nullable maker makes of it. */
  lemma ResolverOutputNonPointerIsNonNull(makeNullable: SchemaType -> SchemaType, builtOutputs: map<string, SchemaType>, t: TypeDesc)
    requires !t.Ptr? && ResolverOutputType(makeNullable, builtOutputs, t).Ok?
    ensures ResolverOutputType(makeNullable, builtOutputs, t).value.NonNull?
  {
  }
}
