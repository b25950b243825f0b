/**
 * The role-gated write rule. The manager version that enforces it is not
 * part of this model; the rule here is pinned down by the permission tests
 * (`tests/test_permissions.py`) and by nothing else, so the lemmas in
 * `PermissionTests` prove exactly the outcomes those tests assert.
 */
module Permissions {
  import opened Wrappers
  import opened Schema
  import opened SettingsManager

  /** `role` is the configured superuser role (when one is configured). */
  predicate IsSuperuser(role: string, superuser: Option<string>) {
    superuser == Some(role)
  }

  /** The roles a field's metadata names as allowed to change it. */
  function RequiredRolesOf(policy: Policy): set<string> {
    match policy
    case RequiredRole(r) => {r}
    case RequiredRoles(rs) => set i | 0 <= i < |rs| :: rs[i]
    case _ => {}
  }

  /** Whether a user acting in `role` may change a field under `policy`.
      An immutable field is closed to everyone; a field with required roles
      is open to those roles and to the superuser; a field with
      `allow_change: False` or without policy metadata is open to the
      superuser only. Put the other way round: the superuser may change every
      field that is not immutable, and any other role only a field whose
      required roles name it. */
  predicate CanChange(policy: Policy, role: string, superuser: Option<string>): (ok: bool)
    ensures policy.Immutable? ==> !ok
    ensures IsSuperuser(role, superuser) ==> (ok <==> !policy.Immutable?)
    ensures !IsSuperuser(role, superuser) ==>
              (ok <==> role in RequiredRolesOf(policy))
  {
    match policy
    case Immutable => false
    case RequiredRole(r) => role == r || IsSuperuser(role, superuser)
    case RequiredRoles(rs) => role in rs || IsSuperuser(role, superuser)
    case ChangeForbidden => IsSuperuser(role, superuser)
    case Unmarked => IsSuperuser(role, superuser)
  }

  /** A write as the permission tests perform it: an undeclared key is
      rejected, a write the field's policy denies raises "cannot be changed"
      and changes nothing, and a permitted write is an ordinary update. */
  function GuardedUpdate(m: State, key: string, v: Value, role: string,
                         superuser: Option<string>, stamp: Stamp)
    : (r: Result<State, Error>)
    ensures key !in Declared(m.fields) ==> r == Err(UnknownKey(key))
    ensures key in Declared(m.fields) ==>
              (r.Ok? <==> CanChange(Lookup(m.fields, key).value.policy, role, superuser))
    ensures key in Declared(m.fields) && r.Err? ==> r.error == CannotChange(key, role)
    ensures r.Ok? ==> r == Update(m, key, v, stamp)
    ensures r.Ok? ==> key in r.value.live && r.value.live[key] == v
  {
    match Lookup(m.fields, key)
    case None => Err(UnknownKey(key))
    case Some(f) =>
      if !CanChange(f.policy, role, superuser) then Err(CannotChange(key, role))
      else Update(m, key, v, stamp)
  }

  /** A denied write raises "cannot be changed" and yields no new state. */
  lemma DeniedWrite(m: State, superuser: Option<string>, key: string, v: Value, role: string,
                    t: Stamp)
    requires key in Declared(m.fields)
    requires !CanChange(Lookup(m.fields, key).value.policy, role, superuser)
    ensures GuardedUpdate(m, key, v, role, superuser, t) == Err(CannotChange(key, role))
  {
  }

  /** Writes by two roles the policy both denies each raise "cannot be
      changed". */
  lemma DeniedToBoth(m: State, superuser: Option<string>, key: string, v: Value,
                     first: string, second: string, t: Stamp)
    requires key in Declared(m.fields)
    requires !CanChange(Lookup(m.fields, key).value.policy, first, superuser)
    requires !CanChange(Lookup(m.fields, key).value.policy, second, superuser)
    ensures GuardedUpdate(m, key, v, first, superuser, t) == Err(CannotChange(key, first))
    ensures GuardedUpdate(m, key, v, second, superuser, t) == Err(CannotChange(key, second))
  {
    DeniedWrite(m, superuser, key, v, first, t);
    DeniedWrite(m, superuser, key, v, second, t);
  }

  /** A permitted write succeeds, keeps the schema and reads back the value
      written. */
  lemma AllowedWrite(m: State, superuser: Option<string>, key: string, v: Value, role: string,
                     t: Stamp)
    requires key in Declared(m.fields)
    requires CanChange(Lookup(m.fields, key).value.policy, role, superuser)
    ensures var r := GuardedUpdate(m, key, v, role, superuser, t);
            && r.Ok?
            && r.value.fields == m.fields
            && r.value.live[key] == v
  {
  }

  /** A permitted write followed by a denied one on the same field: the first
      succeeds and reads back its value, the second raises "cannot be
      changed". */
  lemma AllowThenDeny(m: State, superuser: Option<string>, key: string, v: Value, w: Value,
                      allowed: string, denied: string, t1: Stamp, t2: Stamp)
    requires key in Declared(m.fields)
    requires CanChange(Lookup(m.fields, key).value.policy, allowed, superuser)
    requires !CanChange(Lookup(m.fields, key).value.policy, denied, superuser)
    ensures var r := GuardedUpdate(m, key, v, allowed, superuser, t1);
            && r.Ok?
            && r.value.fields == m.fields
            && r.value.live[key] == v
            && GuardedUpdate(r.value, key, w, denied, superuser, t2) == Err(CannotChange(key, denied))
  {
  }

  /** Two permitted writes by two roles, then a denied one, on the same
      field: each permitted write reads back its own value. */
  lemma AllowTwiceThenDeny(m: State, superuser: Option<string>, key: string,
                           v1: Value, v2: Value, w: Value,
                           first: string, second: string, denied: string,
                           t1: Stamp, t2: Stamp, t3: Stamp)
    requires key in Declared(m.fields)
    requires CanChange(Lookup(m.fields, key).value.policy, first, superuser)
    requires CanChange(Lookup(m.fields, key).value.policy, second, superuser)
    requires !CanChange(Lookup(m.fields, key).value.policy, denied, superuser)
    ensures var r1 := GuardedUpdate(m, key, v1, first, superuser, t1);
            && r1.Ok?
            && r1.value.live[key] == v1
            && var r2 := GuardedUpdate(r1.value, key, v2, second, superuser, t2);
            && r2.Ok?
            && r2.value.live[key] == v2
            && GuardedUpdate(r2.value, key, w, denied, superuser, t3) == Err(CannotChange(key, denied))
  {
    AllowedWrite(m, superuser, key, v1, first, t1);
    var r1 := GuardedUpdate(m, key, v1, first, superuser, t1);
    AllowThenDeny(r1.value, superuser, key, v2, w, second, denied, t2, t3);
  }
}
