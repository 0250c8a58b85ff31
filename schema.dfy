/** The parts of the GraphQL engine's type system the builder constructs:
    scalars, object and input-object definitions, and the NonNull/List
    wrappers. Objects are references, so a type that mentions an object
    shares it, and filling an object's fields later is seen by every
    reference to it. */
module Schema {
  import opened Reflect
  import opened Wrappers

  /** A built-in or custom leaf scalar, identified by its GraphQL name. */
  datatype Scalar = Scalar(name: string)

  const String := Scalar("String")
  const Int := Scalar("Int")
  const Float := Scalar("Float")
  const Boolean := Scalar("Boolean")
  const DateTime := Scalar("DateTime")
  const Int64 := Scalar("int64")
  const Decimal := Scalar("Decimal")

  /** A schema type. `Nil` is Go's nil interface value, which is also what
      looking up a missing key in a map of built objects yields; the
      wrappers accept it, so `NonNull(Nil)` and `List(Nil)` are not nil. */
  datatype SchemaType =
    | Nil
    | ScalarRef(scalar: Scalar)
    | InputRef(input: InputObjectDef)
    | OutputRef(output: ObjectDef)
    | NonNull(of: SchemaType)
    | List(of: SchemaType)

  /** An input-object field's configuration; `NilInputField` is the nil
      pointer the builder passes when it cannot map the field's type. */
  datatype InputFieldConfig = NilInputField | InputField(typ: SchemaType)

  /** What a field's resolve function does: nothing set (the engine's
      default), call a handler, or return the event it is given while a
      separate subscribe function starts the handler. */
  datatype Resolver =
    | DefaultResolver
    | CallHandler(handler: Handler)
    | ForwardSource(subscribe: Handler)

  /** An object field: its name as set by the builder (plain fields only),
      argument definitions, type and resolver; `NilField` is the nil pointer
      passed when mapping fails. */
  datatype FieldConfig =
    | NilField
    | Field(name: string, args: map<string, SchemaType>, typ: SchemaType, resolver: Resolver)

  class InputObjectDef {
    const name: string
    var fields: map<string, InputFieldConfig>

    constructor (name: string)
      ensures this.name == name && fields == map[]
    {
      this.name := name;
      fields := map[];
    }
  }

  class ObjectDef {
    const name: string
    var fields: map<string, FieldConfig>

    constructor (name: string, fields: map<string, FieldConfig>)
      ensures this.name == name && this.fields == fields
    {
      this.name := name;
      this.fields := fields;
    }
  }
}
