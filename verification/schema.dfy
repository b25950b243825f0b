/**
 * The declared settings schema: the values a setting can hold, the write
 * policy attached to a field through its metadata, and the ordered list of
 * field descriptors the manager works over.
 */
module Schema {
  import opened Wrappers

  /** A setting value. Settings hold JSON-like data: strings, numbers,
      booleans, lists (such as `feature_flags`) and `None`. */
  datatype Value =
    | Null
    | Bool(b: bool)
    | Int(i: int)
    | Text(s: string)
    | List(items: seq<Value>)

  /** The write policy a field's metadata selects. One variant per shape of
      metadata that the permission tests exercise:
      `immutable: True`, a single `required_role`, a list `required_role`,
      `allow_change: False`, and no policy metadata at all. */
  datatype Policy =
    | Immutable
    | RequiredRole(role: string)
    | RequiredRoles(roles: seq<string>)
    | ChangeForbidden
    | Unmarked

  /** One declared field of the settings class.
      `defaultFalsy` records whether the declared default is falsy in Python,
      which decides between the `environment` and `default` provenance.
      `annotation` is the name of the declared type, if there is one. */
  datatype Field = Field(
    name: string,
    default: Value,
    defaultFalsy: bool,
    description: string,
    annotation: Option<string>,
    policy: Policy)

  /** The set of declared field names: the keys `hasattr` accepts. */
  function Declared(fields: seq<Field>): (ks: set<string>)
    ensures forall i :: 0 <= i < |fields| ==> fields[i].name in ks
    ensures forall k :: k in ks ==> exists i :: 0 <= i < |fields| && fields[i].name == k
  {
    set i | 0 <= i < |fields| :: fields[i].name
  }

  /** Unfolding `Declared` over the first field. */
  lemma DeclaredCons(fields: seq<Field>)
    requires fields != []
    ensures Declared(fields) == {fields[0].name} + Declared(fields[1..])
  {
    forall k | k in Declared(fields)
      ensures k in {fields[0].name} + Declared(fields[1..])
    {
      var i :| 0 <= i < |fields| && fields[i].name == k;
      if i > 0 { assert fields[1..][i - 1].name == k; }
    }
  }

  /** The descriptor declared under `key`, if any (the first one, should two
      share a name). */
  function Lookup(fields: seq<Field>, key: string): (r: Option<Field>)
    ensures r.None? <==> key !in Declared(fields)
    ensures r.Some? ==> r.value.name == key && r.value in fields
  {
    if fields == [] then None
    else if fields[0].name == key then Some(fields[0])
    else
      DeclaredCons(fields);
      Lookup(fields[1..], key)
  }

  /** `Lookup` returns the first field declared under `key`. */
  lemma {:induction false} LookupFirst(fields: seq<Field>, i: nat, key: string)
    requires i < |fields| && fields[i].name == key
    requires forall j :: 0 <= j < i ==> fields[j].name != key
    ensures Lookup(fields, key) == Some(fields[i])
  {
    if i > 0 {
      assert fields[0].name != key;
      assert fields[1..][i - 1] == fields[i];
      LookupFirst(fields[1..], i - 1, key);
    }
  }

  /** The declared type name reported for a field: the annotation's name,
      or `"str"` when the field has none. */
  function TypeName(f: Field): (t: string)
    ensures f.annotation.Some? ==> t == f.annotation.value
    ensures f.annotation.None? ==> t == "str"
  {
    f.annotation.GetOr("str")
  }
}
