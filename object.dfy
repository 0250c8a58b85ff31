/** Root and custom objects: a named Go value whose methods map field names
    to handler functions. */
module Objects {
  import opened Wrappers
  import opened Reflect

  datatype Method = Method(name: string, fn: Handler)

  /** An entry of the `Methods` map; Go stores pointers, which may be nil. */
  datatype MethodRef = NilMethod | MethodPtr(target: Method)

  /** A field name is taken when its entry exists and is not nil. */
  predicate Occupied(methods: map<string, MethodRef>, name: string) {
    name in methods && methods[name] != NilMethod
  }

  /** The method table after registering `handler` under `name`: a panic if
      the name is taken, otherwise the table with one more entry. */
  function WithMethod(methods: map<string, MethodRef>, name: string, handler: Handler): Result<map<string, MethodRef>> {
    if Occupied(methods, name) then Panic("Func with name " + name + " aready exists")
    else Ok(methods[name := MethodPtr(Method(name, handler))])
  }

  /** A registration under a free name stores exactly one entry, carrying
      that name and handler, and leaves every other name as it was. */
  lemma WithMethodAddsOne(methods: map<string, MethodRef>, name: string, handler: Handler, other: string)
    requires !Occupied(methods, name)
    ensures WithMethod(methods, name, handler).Ok?
    ensures var m := WithMethod(methods, name, handler).value;
      && m.Keys == methods.Keys + {name}
      && m[name] == MethodPtr(Method(name, handler))
      && (other != name && other in methods ==> m[other] == methods[other])
  {
  }

  /** A name whose entry is nil counts as free. */
  lemma NilEntryIsFree(methods: map<string, MethodRef>, name: string, handler: Handler)
    requires name in methods && methods[name] == NilMethod
    ensures WithMethod(methods, name, handler) == Ok(methods[name := MethodPtr(Method(name, handler))])
  {
  }

  /** Registering a taken name a second time panics, so the first handler stays. */
  lemma SecondRegistrationPanics(methods: map<string, MethodRef>, name: string, h1: Handler, h2: Handler)
    requires !Occupied(methods, name)
    ensures var m := WithMethod(methods, name, h1).value;
      WithMethod(m, name, h2).Panic? && m[name].target.fn == h1
  {
  }

  class Object {
    const name: string
    /** The dynamic type of the object's prototype value (`Type`), which
        `GetType` reports. */
    const typ: TypeDesc
    var methods: map<string, MethodRef>
    /** Whether the `Methods` map has been allocated (a nil map is empty). */
    var methodsAllocated: bool

    ghost predicate Valid()
      reads this`methods, this`methodsAllocated
    {
      !methodsAllocated ==> methods == map[]
    }

    constructor (name: string, typ: TypeDesc)
      ensures Valid() && this.name == name && this.typ == typ
      ensures methods == map[] && !methodsAllocated
    {
      this.name := name;
      this.typ := typ;
      methods := map[];
      methodsAllocated := false;
    }

    /** `FieldFunc`: allocate the map if needed, reject a taken name, store
        the new method. */
    method FieldFunc(name: string, handler: Handler) returns (r: Result<()>)
      requires Valid()
      modifies this
      ensures Valid() && methodsAllocated
      ensures r.Ok? == WithMethod(old(methods), name, handler).Ok?
      ensures methods == if r.Ok? then WithMethod(old(methods), name, handler).value else old(methods)
    {
      if !methodsAllocated {
        methods := map[];
        methodsAllocated := true;
      }
      if Occupied(methods, name) {
        return Panic("Func with name " + name + " aready exists");
      }
      methods := methods[name := MethodPtr(Method(name, handler))];
      r := Ok(());
    }
  }
}
