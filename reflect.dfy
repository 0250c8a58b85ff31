/** An abstract stand-in for Go's `reflect.Type`: just the parts of a type
    that the schema builder inspects (kind, package path, name, element type
    and the fields of a struct). */
module Reflect {
  import opened Wrappers

  /** Kinds of Go types other than pointer, slice and struct. */
  datatype Kind = Bool | Int | Int64 | Float32 | Float64 | String | Chan | Map | Func | Interface

  /** A Go type. `Struct` carries, besides its package path and name, a
      `shape` number telling apart struct types that share both (Go's
      anonymous structs all have an empty package path and an empty name). */
  datatype TypeDesc =
    | Ptr(elem: TypeDesc)
    | Slice(name: string, elem: TypeDesc)
    | Struct(pkg: string, name: string, shape: nat)
    | Other(kind: Kind, pkg: string, name: string)

  datatype FieldDesc = FieldDesc(name: string, typ: TypeDesc)

  /** The fields of every struct type, keyed by its `Struct` descriptor;
      keying by descriptor lets a struct's fields mention the struct itself. */
  type TypeTable = map<TypeDesc, seq<FieldDesc>>

  /** `reflect.Type.Name`: unnamed types (pointers) have the empty name. */
  function Name(t: TypeDesc): string {
    match t
    case Ptr(_) => ""
    case Slice(n, _) => n
    case Struct(_, n, _) => n
    case Other(_, _, n) => n
  }

  /** `reflect.Type.PkgPath`: empty for unnamed types. */
  function PkgPath(t: TypeDesc): string {
    match t
    case Struct(p, _, _) => p
    case Other(_, p, _) => p
    case _ => ""
  }

  /** `reflect.Type.NumField` and `Field(i)`: only defined on structs (Go
      panics otherwise); a struct the table does not list has no fields. */
  function Fields(types: TypeTable, t: TypeDesc): seq<FieldDesc>
    requires t.Struct?
  {
    if t in types then types[t] else []
  }

  /** The types reachable from `t` by taking element types of pointers and slices. */
  function Layers(t: TypeDesc): (r: set<TypeDesc>)
    ensures t in r
  {
    match t
    case Ptr(e) => {t} + Layers(e)
    case Slice(_, e) => {t} + Layers(e)
    case _ => {t}
  }

  /** A handler function value as the builder sees it: its parameter and
      result types, and the argument struct type and parameter position that
      the argument-locating helper (`getArgs`, not part of this model)
      reports for it. */
  datatype Handler = Handler(ins: seq<TypeDesc>, outs: seq<TypeDesc>, argType: Option<TypeDesc>, argPos: int)
}
