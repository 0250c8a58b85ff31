/** The builder's name-keyed tables (root objects, custom objects,
    scalars): a registration under a free name adds it, a registration
    under a taken name panics and leaves the table as it was. */
module Registry {
  import opened Wrappers

  function Register<V>(table: map<string, V>, name: string, v: V, what: string): Result<map<string, V>> {
    if name in table then Panic(what + " with name " + name + " aready exists")
    else Ok(table[name := v])
  }

  /** A free name is added with its value, and every other entry is kept. */
  lemma RegisterFreeName<V>(table: map<string, V>, name: string, v: V, what: string)
    requires name !in table
    ensures Register(table, name, v, what).Ok?
    ensures var t := Register(table, name, v, what).value;
      t.Keys == table.Keys + {name} && t[name] == v
      && forall k | k in table :: t[k] == table[k]
  {
  }

  /** The first registration survives: registering the same name again
      panics, whatever the second value. */
  lemma FirstRegistrationWins<V>(table: map<string, V>, name: string, v1: V, v2: V, what: string)
    requires Register(table, name, v1, what).Ok?
    ensures Register(Register(table, name, v1, what).value, name, v2, what).Panic?
    ensures Register(table, name, v1, what).value[name] == v1
  {
  }
}
