/** The root Subscription object: like an object, but each method also
    records the value whose type the subscription delivers. */
module Subscriptions {
  import opened Wrappers
  import opened Reflect

  /** A subscription method; `output` is the dynamic type of the value
      given as its output prototype. */
  datatype SubscriptionMethod = SubscriptionMethod(name: string, output: TypeDesc, fn: Handler)

  datatype SubscriptionRef = NilSubscription | SubscriptionPtr(target: SubscriptionMethod)

  /** The method table after registering under `name`: unlike objects, a
      name is taken as soon as it is a key, even one mapped to nil. */
  function WithSubscription(methods: map<string, SubscriptionRef>, name: string, output: TypeDesc, handler: Handler)
    : Result<map<string, SubscriptionRef>>
  {
    if name in methods then Panic("Func with name " + name + " aready exists")
    else Ok(methods[name := SubscriptionPtr(SubscriptionMethod(name, output, handler))])
  }

  /** A fresh name stores one method carrying the given name, output and
      handler; every other entry is kept; a second registration panics. */
  lemma WithSubscriptionAddsOne(methods: map<string, SubscriptionRef>, name: string, output: TypeDesc, handler: Handler,
                                other: string)
    requires name !in methods
    ensures WithSubscription(methods, name, output, handler).Ok?
    ensures var m := WithSubscription(methods, name, output, handler).value;
      && m.Keys == methods.Keys + {name}
      && m[name] == SubscriptionPtr(SubscriptionMethod(name, output, handler))
      && (other in methods ==> m[other] == methods[other])
      && WithSubscription(m, name, output, handler).Panic?
  {
  }

  /** A key mapped to nil still blocks the name. */
  lemma NilEntryBlocks(methods: map<string, SubscriptionRef>, name: string, output: TypeDesc, handler: Handler)
    requires name in methods && methods[name] == NilSubscription
    ensures WithSubscription(methods, name, output, handler).Panic?
  {
  }

  class SubscriptionObject {
    const name: string
    /** The dynamic type of the object's prototype value. */
    const typ: TypeDesc
    var methods: map<string, SubscriptionRef>
    var methodsAllocated: bool

    /** The table is allocated before anything is stored, and every method
        is stored under its own name. */
    ghost predicate Valid()
      reads this`methods, this`methodsAllocated
    {
      && (!methodsAllocated ==> methods == map[])
      && forall n | n in methods && methods[n].SubscriptionPtr? :: methods[n].target.name == n
    }

    constructor (name: string, typ: TypeDesc)
      ensures Valid() && this.name == name && this.typ == typ
      ensures methods == map[] && !methodsAllocated
    {
      this.name := name;
      this.typ := typ;
      methods := map[];
      methodsAllocated := false;
    }

    /** `FieldSubscription`: allocate the map if needed, reject a present
        key, store the new method. */
    method FieldSubscription(name: string, output: TypeDesc, handler: Handler) returns (r: Result<()>)
      requires Valid()
      modifies this
      ensures Valid() && methodsAllocated
      ensures r.Ok? == WithSubscription(old(methods), name, output, handler).Ok?
      ensures methods == if r.Ok? then WithSubscription(old(methods), name, output, handler).value else old(methods)
    {
      if !methodsAllocated {
        methods := map[];
        methodsAllocated := true;
      }
      if name in methods {
        return Panic("Func with name " + name + " aready exists");
      }
      methods := methods[name := SubscriptionPtr(SubscriptionMethod(name, output, handler))];
      r := Ok(());
    }
  }
}
