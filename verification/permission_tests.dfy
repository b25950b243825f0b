/**
 * The permission tests of `tests/test_permissions.py`, replayed on the test
 * schema. Each lemma states, for any manager over that schema, the outcome
 * its test asserts.
 */
module PermissionTests {
  import opened Wrappers
  import opened Schema
  import opened SettingsManager
  import opened Permissions
  import opened Conftest

  /** `test_immutable_setting`: on any manager over the test schema, neither
      the superuser nor `admin` may change `environment`. A denied write
      yields no new state, so the caller's value of `environment` (`prod` in
      the fixture) stays as it was. */
  lemma TestImmutableSetting(m: State, t: Stamp)
    requires m.fields == AppSettings()
    ensures GuardedUpdate(m, "environment", Text("staging"), SuperuserRole, Superuser, t)
            == Err(CannotChange("environment", SuperuserRole))
    ensures GuardedUpdate(m, "environment", Text("staging"), AdminRole, Superuser, t)
            == Err(CannotChange("environment", AdminRole))
  {
    EnvironmentPolicy(m.fields);
    DeniedToBoth(m, Superuser, "environment", Text("staging"), SuperuserRole, AdminRole, t);
  }

  /** `test_required_role_string`: `admin` may change `admin_email` and reads
      the new value back; `developer` then may not change it. */
  lemma TestRequiredRoleString(m: State, t1: Stamp, t2: Stamp)
    requires m.fields == AppSettings()
    ensures var r := GuardedUpdate(m, "admin_email", Text("new@test.com"), AdminRole, Superuser, t1);
            && r.Ok?
            && r.value.live["admin_email"] == Text("new@test.com")
            && GuardedUpdate(r.value, "admin_email", Text("hacker@test.com"), DeveloperRole, Superuser, t2)
               == Err(CannotChange("admin_email", DeveloperRole))
  {
    AdminEmailPolicy(m.fields);
    AllowThenDeny(m, Superuser, "admin_email", Text("new@test.com"), Text("hacker@test.com"),
                  AdminRole, DeveloperRole, t1, t2);
  }

  /** The decisions the `feature_flags` policy makes for the roles of its
      test. */
  lemma RoleListDecisions()
    ensures CanChange(RequiredRoles([DeveloperRole, TesterRole]), DeveloperRole, Superuser)
    ensures CanChange(RequiredRoles([DeveloperRole, TesterRole]), TesterRole, Superuser)
    ensures !CanChange(RequiredRoles([DeveloperRole, TesterRole]), AdminRole, Superuser)
  {
  }

  /** `test_required_role_list`: `developer` and then `tester` may change
      `feature_flags`, each reading its own value back; `admin` then may
      not change it. */
  lemma TestRequiredRoleList(m: State, t1: Stamp, t2: Stamp, t3: Stamp)
    requires m.fields == AppSettings()
    ensures var r1 := GuardedUpdate(m, "feature_flags", List([Text("feat1")]), DeveloperRole, Superuser, t1);
            && r1.Ok?
            && r1.value.live["feature_flags"] == List([Text("feat1")])
            && var r2 := GuardedUpdate(r1.value, "feature_flags", List([Text("feat2")]), TesterRole, Superuser, t2);
            && r2.Ok?
            && r2.value.live["feature_flags"] == List([Text("feat2")])
            && GuardedUpdate(r2.value, "feature_flags", List([Text("feat3")]), AdminRole, Superuser, t3)
               == Err(CannotChange("feature_flags", AdminRole))
  {
    FeatureFlagsPolicy(m.fields);
    RoleListDecisions();
    AllowTwiceThenDeny(m, Superuser, "feature_flags", List([Text("feat1")]), List([Text("feat2")]),
                       List([Text("feat3")]), DeveloperRole, TesterRole, AdminRole, t1, t2, t3);
  }

  /** `test_allow_change_false`: the superuser may change `service_host` and
      reads the new value back; `user` then may not change it. */
  lemma TestAllowChangeFalse(m: State, t1: Stamp, t2: Stamp)
    requires m.fields == AppSettings()
    ensures var r := GuardedUpdate(m, "service_host", Text("remote_host"), SuperuserRole, Superuser, t1);
            && r.Ok?
            && r.value.live["service_host"] == Text("remote_host")
            && GuardedUpdate(r.value, "service_host", Text("some_other_host"), RegularUserRole, Superuser, t2)
               == Err(CannotChange("service_host", RegularUserRole))
  {
    ServiceHostPolicy(m.fields);
    AllowThenDeny(m, Superuser, "service_host", Text("remote_host"), Text("some_other_host"),
                  SuperuserRole, RegularUserRole, t1, t2);
  }

  /** `test_private_setting_without_role`: with a superuser role configured,
      the superuser may change `app_name`, which carries no policy metadata,
      and reads the new value back; `admin` then may not change it. */
  lemma TestPrivateSettingWithoutRole(m: State, t1: Stamp, t2: Stamp)
    requires m.fields == AppSettings()
    ensures var r := GuardedUpdate(m, "app_name", Text("Super App"), SuperuserRole, Superuser, t1);
            && r.Ok?
            && r.value.live["app_name"] == Text("Super App")
            && GuardedUpdate(r.value, "app_name", Text("Regular App"), AdminRole, Superuser, t2)
               == Err(CannotChange("app_name", AdminRole))
  {
    AppNamePolicy(m.fields);
    AllowThenDeny(m, Superuser, "app_name", Text("Super App"), Text("Regular App"),
                  SuperuserRole, AdminRole, t1, t2);
  }
}
