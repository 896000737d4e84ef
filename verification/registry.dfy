/** The registry of configured queries (`SQLQuery` and the map `loadQueries` builds). */
module Registry {
  import opened Values

  /** A configured query: its routing name, its SQL text and the types of the named parameters it expects. */
  datatype SqlQuery = SqlQuery(name: string, sql: string, parameters: map<string, FieldType>)

  function QueryNames(defs: seq<SqlQuery>): set<string>
  {
    set i | 0 <= i < |defs| :: defs[i].name
  }

  /** No definition after position `i` has the same name as `defs[i]`. */
  predicate IsLastWithName(defs: seq<SqlQuery>, i: nat)
    requires i < |defs|
  {
    forall j :: i < j < |defs| ==> defs[j].name != defs[i].name
  }

  /** The loop of `loadQueries` over the decoded definitions: `result[q.Name] = q`
      for each in turn. Every listed name is registered, nothing else is, and
      each name is registered with a definition of that name. */
  function LoadQueries(defs: seq<SqlQuery>): (r: map<string, SqlQuery>)
    ensures r.Keys == QueryNames(defs)
    ensures forall n :: n in r ==> r[n].name == n
    decreases |defs|
  {
    if |defs| == 0 then map[]
    else
      var n := |defs| - 1;
      var init := defs[..n];
      assert QueryNames(defs) == QueryNames(init) + {defs[n].name} by {
        assert forall i :: 0 <= i < n ==> init[i] == defs[i];
      }
      LoadQueries(init)[defs[n].name := defs[n]]
  }

  /** Last wins: the definition registered under a name is the last one in the list with that name. */
  lemma {:induction false} LastDefinitionWins(defs: seq<SqlQuery>, i: nat)
    requires i < |defs| && IsLastWithName(defs, i)
    ensures defs[i].name in LoadQueries(defs) && LoadQueries(defs)[defs[i].name] == defs[i]
    decreases |defs|
  {
    var n := |defs| - 1;
    if i < n {
      var init := defs[..n];
      assert init[i] == defs[i];
      assert IsLastWithName(init, i) by {
        forall j | i < j < n ensures init[j].name != init[i].name {
          assert init[j] == defs[j];
        }
      }
      LastDefinitionWins(init, i);
      assert defs[n].name != defs[i].name;
    }
  }

  /** Every registered name has a last definition in the list, and that one is served. */
  lemma LookupIsLastDefinition(defs: seq<SqlQuery>, name: string)
    requires name in LoadQueries(defs)
    ensures exists i ::
      (0 <= i < |defs| && IsLastWithName(defs, i) && defs[i].name == name && LoadQueries(defs)[name] == defs[i])
  {
    var i :| 0 <= i < |defs| && defs[i].name == name;
    var k := LastIndexFrom(defs, i);
    LastDefinitionWins(defs, k);
  }

  /** The last index at or after `i` that holds a definition named like `defs[i]`. */
  ghost function LastIndexFrom(defs: seq<SqlQuery>, i: nat): (k: nat)
    requires i < |defs|
    ensures i <= k < |defs| && defs[k].name == defs[i].name && IsLastWithName(defs, k)
    decreases |defs| - i
  {
    if exists j :: i < j < |defs| && defs[j].name == defs[i].name then
      var j :| i < j < |defs| && defs[j].name == defs[i].name;
      LastIndexFrom(defs, j)
    else i
  }

  /** Appending a definition makes it the one served under its name and leaves the others alone. */
  lemma LoadAppend(defs: seq<SqlQuery>, d: SqlQuery)
    ensures LoadQueries(defs + [d]) == LoadQueries(defs)[d.name := d]
  {
    assert (defs + [d])[..|defs|] == defs;
  }
}
