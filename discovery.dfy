/** What the discovery pass computes: for each category (inputs, outputs)
    a map from type key to the struct type stored under it, closed under
    "the actual type of every non-scalar field is present". */
module Discovery {
  import opened Reflect
  import opened Schema
  import Tools
  import TypeMapping
  import opened Wrappers

  /** The panic of reflection's field count on a type that is not a struct. */
  const NumFieldPanic := "reflect: NumField of non-struct type"

  /** The two category names the pass accepts. */
  const INPUT_TYPE := "INPUT_TYPE"
  const OUTPUT_TYPE := "OUTPUT_TYPE"

  type Found = map<string, TypeDesc>

  /** Every entry is stored under its own key. */
  predicate KeyConsistent(found: Found) {
    forall k | k in found :: Tools.GetKey(found[k]) == k
  }

  /** A Go type (of a field, a result or an argument) is accounted for when
      its actual type is a scalar or has its key in `found`. */
  predicate Accounted(scalars: TypeMapping.Scalars, found: Found, ft: TypeDesc) {
    var a := TypeMapping.ActualType(scalars, ft);
    Tools.ScalarIn(scalars, a).Some? || Tools.GetKey(a) in found
  }

  lemma AccountedByKey(scalars: TypeMapping.Scalars, found: Found, ft: TypeDesc)
    requires Tools.GetKey(TypeMapping.ActualType(scalars, ft)) in found
    ensures Accounted(scalars, found, ft)
  {
  }

  lemma AccountedByScalar(scalars: TypeMapping.Scalars, found: Found, ft: TypeDesc)
    requires Tools.ScalarIn(scalars, TypeMapping.ActualType(scalars, ft)).Some?
    ensures Accounted(scalars, found, ft)
  {
  }

  /** Accounting only needs presence, so it survives growth of the set. */
  lemma AccountedPrefixGrows(scalars: TypeMapping.Scalars, a: Found, b: Found, fs: seq<FieldDesc>, i: nat)
    requires i < |fs| && a.Keys <= b.Keys
    requires forall j | 0 <= j < i :: Accounted(scalars, a, fs[j].typ)
    requires Accounted(scalars, b, fs[i].typ)
    ensures forall j | 0 <= j < i + 1 :: Accounted(scalars, b, fs[j].typ)
  {
  }

  /** `t` is a struct whose every field is accounted for. */
  predicate Closed(types: TypeTable, scalars: TypeMapping.Scalars, found: Found, t: TypeDesc) {
    t.Struct? && forall f | f in Fields(types, t) :: Accounted(scalars, found, f.typ)
  }

  /** `t` is a struct whose every field stands for a scalar: the only
      structs a walk under an invalid category gets through. */
  predicate ScalarFieldsOnly(types: TypeTable, scalars: TypeMapping.Scalars, t: TypeDesc) {
    t.Struct? && forall f | f in Fields(types, t) :: Tools.ScalarIn(scalars, TypeMapping.ActualType(scalars, f.typ)).Some?
  }

  /** Every entry of `found`, except those under the keys in `exempt`, is closed. */
  predicate AllClosed(types: TypeTable, scalars: TypeMapping.Scalars, found: Found, exempt: set<string>) {
    forall k | k in found && k !in exempt :: Closed(types, scalars, found, found[k])
  }

  /** The state discovery works in and leaves: both sets keyed
      consistently and closed, the output set except for the types under
      `exempt`, which are stored without their fields being walked. */
  predicate Settled(types: TypeTable, scalars: TypeMapping.Scalars, inputs: Found, outputs: Found, exempt: set<string>) {
    && KeyConsistent(inputs) && KeyConsistent(outputs)
    && AllClosed(types, scalars, inputs, {})
    && AllClosed(types, scalars, outputs, exempt)
  }

  /** Every entry that `after` has and `before` lacks is closed. */
  predicate NewClosed(types: TypeTable, scalars: TypeMapping.Scalars, before: Found, after: Found) {
    forall k | k in after && k !in before :: Closed(types, scalars, after, after[k])
  }

  /** `after` has every key of `before`, with the same type. */
  predicate Grew(before: Found, after: Found) {
    before.Keys <= after.Keys && forall k | k in before :: after[k] == before[k]
  }

  lemma GrewTrans(a: Found, b: Found, c: Found)
    requires Grew(a, b) && Grew(b, c)
    ensures Grew(a, c)
  {
  }

  lemma GrewByAdding(a: Found, k: string, v: TypeDesc)
    requires k !in a
    ensures Grew(a, a[k := v])
  {
  }

  /** Presence only grows, so a closed type stays closed. */
  lemma ClosedGrows(types: TypeTable, scalars: TypeMapping.Scalars, found: Found, found': Found, t: TypeDesc)
    requires Closed(types, scalars, found, t) && found.Keys <= found'.Keys
    ensures Closed(types, scalars, found', t)
  {
  }

  /** New entries closed in two steps are closed overall. */
  lemma NewClosedTrans(types: TypeTable, scalars: TypeMapping.Scalars, a: Found, b: Found, c: Found)
    requires NewClosed(types, scalars, a, b) && NewClosed(types, scalars, b, c) && Grew(b, c)
    ensures NewClosed(types, scalars, a, c)
  {
    forall k | k in c && k !in a
      ensures Closed(types, scalars, c, c[k])
    {
      if k in b {
        ClosedGrows(types, scalars, b, c, b[k]);
      }
    }
  }

  /** The keys of the layers of a type. */
  ghost function LayerKeys(t: TypeDesc): set<string> {
    set u | u in Layers(t) :: Tools.GetKey(u)
  }

  /** `universe` holds every key the walk can reach from a field of a
      struct in the table. */
  ghost predicate Reaches(types: TypeTable, universe: set<string>) {
    forall t, f | t in types && f in types[t] :: LayerKeys(f.typ) <= universe
  }

  /** Storing a type under a key and walking it keeps every entry outside
      `exempt` closed: entries other than the overwritten one keep their
      types, and the overwritten and the new ones are closed. */
  lemma AllClosedPreserved(types: TypeTable, scalars: TypeMapping.Scalars, a: Found, b: Found, key: string, exempt: set<string>)
    requires AllClosed(types, scalars, a, exempt) && a.Keys <= b.Keys
    requires forall k | k in a && k != key :: b[k] == a[k]
    requires NewClosed(types, scalars, a - {key}, b)
    ensures AllClosed(types, scalars, b, exempt)
  {
    forall k | k in b && k !in exempt
      ensures Closed(types, scalars, b, b[k])
    {
      if k in a && k != key {
        ClosedGrows(types, scalars, a, b, a[k]);
      }
    }
  }

  /** Overwriting an exempt key keeps every other entry closed. */
  lemma AllClosedExemptWrite(types: TypeTable, scalars: TypeMapping.Scalars, a: Found, key: string, t: TypeDesc, exempt: set<string>)
    requires AllClosed(types, scalars, a, exempt) && key in exempt
    ensures AllClosed(types, scalars, a[key := t], exempt)
  {
    forall k | k in a[key := t] && k !in exempt
      ensures Closed(types, scalars, a[key := t], a[key := t][k])
    {
      ClosedGrows(types, scalars, a, a[key := t], a[k]);
    }
  }

  /** Every key the walk can reach; it is finite, which bounds the walk. */
  ghost function KeyUniverse(types: TypeTable): (u: set<string>)
    ensures Reaches(types, u)
  {
    set t, f, u | t in types && f in types[t] && u in Layers(f.typ) :: Tools.GetKey(u)
  }

  /** The key of a field's actual type is among the reachable keys. */
  lemma FieldKeyInUniverse(types: TypeTable, scalars: TypeMapping.Scalars, universe: set<string>, t: TypeDesc, f: FieldDesc)
    requires Reaches(types, universe) && t.Struct? && f in Fields(types, t)
    ensures Tools.GetKey(TypeMapping.ActualType(scalars, f.typ)) in universe
  {
    var u := TypeMapping.ActualType(scalars, f.typ);
    assert t in types && f in types[t];
    assert Tools.GetKey(u) in LayerKeys(f.typ);
  }

  lemma {:induction false} SubsetCard<T>(a: set<T>, b: set<T>)
    requires a <= b
    ensures |a| <= |b|
    decreases a
  {
    if a != {} {
      var x :| x in a;
      SubsetCard(a - {x}, b - {x});
    }
  }

  /** Discovering a reachable key that was missing leaves fewer missing:
      the measure that makes the walk over a cyclic type graph terminate. */
  lemma FewerMissing(universe: set<string>, before: set<string>, after: set<string>, key: string)
    requires before <= after && key in universe && key in after && key !in before
    ensures |universe - after| < |universe - before|
  {
    assert universe - after <= (universe - before) - {key};
    SubsetCard(universe - after, (universe - before) - {key});
  }

  /** The walk of `findDependentObjects` over the set its category names
      (`found`): account for every field of `t`, recording and walking each
      actual type met for the first time. Only keys of `universe`, the keys
      reachable through the type table, are ever added. */
  method Walk(types: TypeTable, scalars: TypeMapping.Scalars, found: Found, t: TypeDesc,
              ghost universe: set<string>) returns (found': Found, r: Result<()>)
    requires Reaches(types, universe) && KeyConsistent(found)
    decreases |universe - found.Keys|, 1
    ensures KeyConsistent(found') && Grew(found, found')
    ensures found'.Keys <= found.Keys + universe
    ensures !t.Struct? ==> r.Panic?
    ensures r.Ok? ==> Closed(types, scalars, found', t)
    ensures r.Ok? ==> NewClosed(types, scalars, found, found')
  {
    found' := found;
    if !t.Struct? {
      return found', Panic(NumFieldPanic);
    }
    var fs := Fields(types, t);
    var i := 0;
    while i < |fs|
      invariant 0 <= i <= |fs|
      invariant KeyConsistent(found') && Grew(found, found')
      invariant found'.Keys <= found.Keys + universe
      invariant forall j | 0 <= j < i :: Accounted(scalars, found', fs[j].typ)
      invariant NewClosed(types, scalars, found, found')
    {
      var before := found';
      FieldKeyInUniverse(types, scalars, universe, t, fs[i]);
      SubsetCard(universe - found'.Keys, universe - found.Keys);
      found', r := WalkField(types, scalars, found', fs[i], universe);
      if r.Panic? {
        return;
      }
      GrewTrans(found, before, found');
      NewClosedTrans(types, scalars, found, before, found');
      AccountedPrefixGrows(scalars, before, found', fs, i);
      i := i + 1;
    }
    r := Ok(());
  }

  /** One iteration of the walk: skip a scalar or a key already present,
      otherwise record the actual type and walk it. */
  method WalkField(types: TypeTable, scalars: TypeMapping.Scalars, found: Found, f: FieldDesc,
                   ghost universe: set<string>) returns (found': Found, r: Result<()>)
    requires Reaches(types, universe) && KeyConsistent(found)
    requires Tools.GetKey(TypeMapping.ActualType(scalars, f.typ)) in universe
    decreases |universe - found.Keys|, 0
    ensures KeyConsistent(found') && Grew(found, found')
    ensures found'.Keys <= found.Keys + universe
    ensures r.Ok? ==> Accounted(scalars, found', f.typ)
    ensures r.Ok? ==> NewClosed(types, scalars, found, found')
  {
    var ao := TypeMapping.ActualType(scalars, f.typ);
    if Tools.ScalarIn(scalars, ao).Some? {
      AccountedByScalar(scalars, found, f.typ);
      return found, Ok(());
    }
    var key := Tools.GetKey(ao);
    if key in found {
      AccountedByKey(scalars, found, f.typ);
      return found, Ok(());
    }
    var mid := found[key := ao];
    GrewByAdding(found, key, ao);
    FewerMissing(universe, found.Keys, mid.Keys, key);
    found', r := Walk(types, scalars, mid, ao, universe);
    GrewTrans(found, mid, found');
    AccountedByKey(scalars, found', f.typ);
  }

  /** The same walk under a category that is neither input nor output:
      the first field whose actual type is not a scalar panics before
      anything is recorded or looked up, so nothing is ever recorded and
      the walk never goes deeper. */
  method WalkInvalid(types: TypeTable, scalars: TypeMapping.Scalars, t: TypeDesc, objType: string) returns (r: Result<()>)
    ensures r.Ok? <==> ScalarFieldsOnly(types, scalars, t)
    ensures r.Panic? && t.Struct? ==> r.message == "Invalid object type " + objType
  {
    if !t.Struct? {
      return Panic(NumFieldPanic);
    }
    var fs := Fields(types, t);
    var i := 0;
    while i < |fs|
      invariant 0 <= i <= |fs|
      invariant forall j | 0 <= j < i :: Tools.ScalarIn(scalars, TypeMapping.ActualType(scalars, fs[j].typ)).Some?
    {
      if Tools.ScalarIn(scalars, TypeMapping.ActualType(scalars, fs[i].typ)).None? {
        return Panic("Invalid object type " + objType);
      }
      i := i + 1;
    }
    r := Ok(());
  }

  /** `processObject` for a valid category and a type that is not a
      scalar: store `t` under its key, replacing what was there, then walk
      it. Every other entry is kept, every key added besides `t`'s is
      reachable through the type table, and on success every entry the
      walk added, and `t` itself, is closed. */
  method StoreAndWalk(types: TypeTable, scalars: TypeMapping.Scalars, found: Found, t: TypeDesc)
    returns (found': Found, r: Result<()>)
    requires KeyConsistent(found)
    ensures KeyConsistent(found') && found.Keys <= found'.Keys
    ensures Tools.GetKey(t) in found' && found'[Tools.GetKey(t)] == t
    ensures found'.Keys <= found.Keys + {Tools.GetKey(t)} + KeyUniverse(types)
    ensures forall k | k in found && k != Tools.GetKey(t) :: found'[k] == found[k]
    ensures !t.Struct? ==> r.Panic?
    ensures r.Ok? ==> NewClosed(types, scalars, found - {Tools.GetKey(t)}, found')
  {
    var stored := found[Tools.GetKey(t) := t];
    found', r := Walk(types, scalars, stored, t, KeyUniverse(types));
  }
}
