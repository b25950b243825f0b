/**
 * The test schema of `tests/conftest.py`: the `AppSettings` class with its
 * six fields, the role names the tests use, and the `manager` fixture, a
 * manager initialised over an empty collection with `superuser` as the
 * configured superuser role.
 */
module Conftest {
  import opened Wrappers
  import opened Schema
  import opened SettingsManager

  const SuperuserRole := "superuser"
  const AdminRole := "admin"
  const DeveloperRole := "developer"
  const RegularUserRole := "user"
  const TesterRole := "tester"

  const Superuser: Option<string> := Some(SuperuserRole)

  /** The test schema, in declaration order. `feature_flags` has a default
      factory rather than a declared default; no lemma here depends on its
      provenance flag. */
  function AppSettings(): seq<Field> {
    [ Field("app_name", Text("My App"), false, "", Some("str"), Unmarked),
      Field("environment", Text("prod"), false, "", Some("str"), Immutable),
      Field("admin_email", Text("admin@test.com"), false, "", Some("str"), RequiredRole(AdminRole)),
      Field("feature_flags", List([]), false, "", Some("list"),
            RequiredRoles([DeveloperRole, TesterRole])),
      Field("api_key", Text("secret"), false, "", Some("str"), Unmarked),
      Field("service_host", Text("localhost"), false, "", Some("str"), ChangeForbidden) ]
  }

  /** The live values of a freshly constructed settings instance. */
  function Defaults(): map<string, Value> {
    map[ "app_name" := Text("My App"),
         "environment" := Text("prod"),
         "admin_email" := Text("admin@test.com"),
         "feature_flags" := List([]),
         "api_key" := Text("secret"),
         "service_host" := Text("localhost") ]
  }

  /** The `manager` fixture: a manager over an empty collection, loaded. */
  function Fixture(): (m: State)
    ensures Valid(m) && m.fields == AppSettings()
    ensures m.store == map[] && m.cache == map[] && m.live == Defaults()
  {
    var m0 := State(AppSettings(), map[], map[], Defaults());
    DefaultsCoverSchema();
    LoadEmpty(m0);
    Load(m0)
  }

  /** Loading over an empty collection changes nothing. */
  lemma LoadEmpty(m: State)
    requires m.store == map[] && m.cache == map[]
    ensures Load(m) == m
  {
  }

  /** The defaults give a value to exactly the declared fields. */
  lemma DefaultsCoverSchema()
    ensures Declared(AppSettings()) == Defaults().Keys
  {
    AppSettingsNames();
    var fs := AppSettings();
    forall k | k in Declared(fs) ensures k in Defaults() {
      var i :| 0 <= i < |fs| && fs[i].name == k;
    }
  }

  /** The names of the test schema, in declaration order. */
  lemma AppSettingsNames()
    ensures |AppSettings()| == 6
    ensures AppSettings()[0].name == "app_name" && AppSettings()[1].name == "environment"
    ensures AppSettings()[2].name == "admin_email" && AppSettings()[3].name == "feature_flags"
    ensures AppSettings()[4].name == "api_key" && AppSettings()[5].name == "service_host"
  {
  }

  /** The policy the manager finds for `key`, which is declared at index `i`
      of the test schema and at no earlier index. */
  lemma AppSettingsPolicy(i: nat, key: string)
    requires i < |AppSettings()| && AppSettings()[i].name == key
    requires forall j :: 0 <= j < i ==> AppSettings()[j].name != key
    ensures key in Declared(AppSettings())
    ensures Lookup(AppSettings(), key).value.policy == AppSettings()[i].policy
  {
    LookupFirst(AppSettings(), i, key);
  }
  /** `environment` is declared and immutable. */
  lemma EnvironmentPolicy(fields: seq<Field>)
    requires fields == AppSettings()
    ensures "environment" in Declared(fields)
    ensures Lookup(fields, "environment").value.policy == Immutable
  {
    AppSettingsNames();
    AppSettingsPolicy(1, "environment");
  }

  /** `admin_email` is declared and requires the `admin` role. */
  lemma AdminEmailPolicy(fields: seq<Field>)
    requires fields == AppSettings()
    ensures "admin_email" in Declared(fields)
    ensures Lookup(fields, "admin_email").value.policy == RequiredRole(AdminRole)
  {
    AppSettingsNames();
    assert "environment"[1] != "admin_email"[1];
    AppSettingsPolicy(2, "admin_email");
  }

  /** `feature_flags` is declared and requires `developer` or `tester`. */
  lemma FeatureFlagsPolicy(fields: seq<Field>)
    requires fields == AppSettings()
    ensures "feature_flags" in Declared(fields)
    ensures Lookup(fields, "feature_flags").value.policy
            == RequiredRoles([DeveloperRole, TesterRole])
  {
    AppSettingsNames();
    AppSettingsPolicy(3, "feature_flags");
  }

  /** `service_host` is declared with `allow_change: False`. */
  lemma ServiceHostPolicy(fields: seq<Field>)
    requires fields == AppSettings()
    ensures "service_host" in Declared(fields)
    ensures Lookup(fields, "service_host").value.policy == ChangeForbidden
  {
    AppSettingsNames();
    AppSettingsPolicy(5, "service_host");
  }

  /** `app_name` is declared without policy metadata. */
  lemma AppNamePolicy(fields: seq<Field>)
    requires fields == AppSettings()
    ensures "app_name" in Declared(fields)
    ensures Lookup(fields, "app_name").value.policy == Unmarked
  {
    AppSettingsNames();
    AppSettingsPolicy(0, "app_name");
  }
}
