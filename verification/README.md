# Settings manager: override merge and role-gated writes

This project models the core of a runtime-mutable settings manager. The
manager keeps a typed settings object. It layers overrides persisted in a
document collection on top of the values the object got from the
environment or from its declared defaults. It reports where each value
comes from, and it writes, resets and reloads overrides.

The model has two parts.

- **The override state machine of `core/manager.py`** (`SettingsManager`,
  `ManagerProps`). A `State` holds four things:
  - the declared fields, in declaration order;
  - the collection, as a map from key to `Record` (value plus write stamp);
  - the override cache `_db_settings`;
  - the live settings values, as a map from field name to value.

  Each public operation is a pure transition. These are cleanup, load, the
  settings report, update, reset of one key and reset of all keys. The
  proved properties are the operations' frame conditions, a coherence
  invariant that load establishes and the other operations keep,
  idempotence of cleanup and load, the update-then-load round trip, and
  what a reset leaves behind.
- **The role-gated write rule** (`Permissions`, `Conftest`,
  `PermissionTests`). `CanChange(policy, role, superuser)` decides whether a
  role may write a field, over a `Policy` datatype with one variant per shape
  of field metadata the permission tests use. The manager version that
  enforces the rule is not part of this model. The rule is pinned down only
  by `tests/test_permissions.py`, on the schema of `tests/conftest.py`.
  `GuardedUpdate` composes the rule with `Update` the way the tests call it,
  and each test becomes a lemma stating the outcome it asserts.

Abstractions:

- The collection is a map, so a key is stored at most once.
- `hasattr(settings, key)` is modelled as membership in the declared field
  set (`Schema.Declared`). Python's `hasattr` is also true for attributes
  that are not fields.
- Whether a field's declared default is falsy is an input
  (`Field.defaultFalsy`); pydantic's reflection is not modelled.
- The write time (`datetime.utcnow()`) and the writing user are a `Stamp`
  passed to `Update`. They are stored and never read.
- The dictionary iteration order of the load loop is left open.
  `ApplyOverrides` picks keys in an arbitrary order and is proved equal to
  the order-free `Overlay`.

Where the code and its own comments or interface suggest otherwise, the
model follows the code.

- **Reset does not restore values.** The comment at `core/manager.py:122`
  says a reset returns the environment or default value. But the reload
  only calls `setattr` for keys still in the collection. So a reset removes
  the override from the collection, the cache and the provenance, while the
  live value keeps the last value written. `ManagerProps.ResetSettingKeepsLiveValues`
  proves this, and `ManagerProps.UpdateThenReset` shows it on an update
  followed by a reset. `SettingsManager.ResetAllSettings` states it for
  reset-all.
- **Provenance follows the cache.** `get_settings_info` reports `database`
  for a name in the cache, not for a name in the collection.
  `ManagerProps.SourceIsDatabaseIffStored` proves the two agree in every
  coherent state.
- **`update_setting` checks no role.** `update_setting` in `core/manager.py`
  takes a `user` and performs no role check. No order between the role
  check and the other checks is claimed; only the test outcomes are proved.

## Model

| member | source | states |
|---|---|---|
| Schema.Lookup | core/manager.py:75 | Finding a field by name fails exactly when the name is undeclared; otherwise it returns a declared field carrying that name. |
| Schema.LookupFirst | core/manager.py:75 | When several fields could match, finding a field by name returns the first one declared under that name. |
| SettingsManager.Cleanup | core/manager.py:49-63 | After cleanup, a key is stored exactly when it was stored before and is declared. Stored keys are then a subset of the declared keys. Kept documents are unchanged, and cache and live values are untouched. |
| SettingsManager.ApplyOverrides | core/manager.py:35-37 | The `setattr` loop over the cache, in any iteration order, computes exactly the order-free overlay. |
| SettingsManager.Load | core/manager.py:26-37 | After a load, the collection is the cleaned collection and the cache equals its values. Every cached key's live value is the stored value. Every field absent from the collection keeps its previous live value. |
| SettingsManager.SettingsInfo | core/manager.py:65-88 | The report has one entry per declared field, in declaration order, with the field's live value, description and type. The source is `database` iff the name is cached; `environment` iff it is not cached and the default is falsy; `default` iff it is not cached and the default is truthy. |
| SettingsManager.Update | core/manager.py:90-112 | An undeclared key fails with the "does not exist" error. A declared key gets the new value in the live values and the cache, and an upserted document holding the value and stamp. Every other key is unchanged in all three maps. |
| SettingsManager.ResetSetting | core/manager.py:114-123 | After a reset, the key is neither stored nor cached. Every other key stays stored iff it was stored and declared, with its document unchanged. The cache is rebuilt from what is still stored, and every key still stored has its stored value as its live value; every other live value, the reset key's included, is the one it had before the reset. |
| SettingsManager.ResetAllSettings | core/manager.py:125-129 | After reset-all, the collection and cache are empty and every live value is the one it had before. |
| ManagerProps.CleanupIdempotent | core/manager.py:61-63 | A second cleanup finds no invalid key and leaves the collection as the first cleanup left it. |
| ManagerProps.CleanupKeepsDeclared | core/manager.py:61-63 | Cleanup never deletes a declared key, nor changes its document. |
| ManagerProps.LoadEstablishesCoherent | core/manager.py:26-37 | After a load, every stored key is declared, the cache mirrors the collection, and every cached key's live value is the cached value. |
| ManagerProps.LoadOfCoherentIsIdentity | core/manager.py:26-37 | Reloading a state that is already coherent changes nothing. |
| ManagerProps.OverlayOfAgreeing | core/manager.py:35-37 | The load loop changes nothing when every cached key is a live, declared field that already holds its cached value. |
| ManagerProps.LoadIdempotent | core/manager.py:26-37 | From any state, loading twice gives the same state as loading once. |
| ManagerProps.UpdatePreservesCoherent | core/manager.py:95-112 | A successful update keeps the collection, the cache and the live values coherent. |
| ManagerProps.StoredValuesUpsert | core/manager.py:99-109 | Upserting one document changes the values read back from the collection at that key alone, where the new value is read. |
| ManagerProps.SourceIsDatabaseIffStored | core/manager.py:73-74 | In a coherent state, a field is reported as coming from the database exactly when it is stored in the collection. |
| ManagerProps.UpdateThenLoad | core/manager.py:90-112 | After an update and a reload, the field's live value and stored value are the written value, and the field is reported as coming from the database. |
| ManagerProps.ResetSettingCoherent | core/manager.py:114-123 | A reset of one key keeps the state coherent, and that key is no longer reported as coming from the database. Every other key stays stored exactly when it was stored before. |
| ManagerProps.ResetSettingKeepsLiveValues | core/manager.py:114-123 | From a coherent state, a reset leaves every live value unchanged. The reset key keeps its last written value, not its environment or default value. |
| ManagerProps.ResetAllSettingsCoherent | core/manager.py:125-129 | After reset-all the state is coherent and no field is reported as coming from the database. |
| ManagerProps.UpdateThenReset | core/manager.py:90-123 | From any well-formed state, loaded or not, an update followed by a reset of the same key leaves the key neither stored nor cached, and not reported as coming from the database. Its live value is still the value the update wrote. |
| ManagerProps.UpdateThenResetAll | core/manager.py:90-129 | An update followed by reset-all leaves nothing stored or cached, while the updated field still holds the value the update wrote. |
| Permissions.CanChange | tests/test_permissions.py:13-65 | An immutable field is closed to everyone. The superuser may change every other field. Any other role may change a field only when the field's required roles name it. The five test lemmas and `PermissionTests.RoleListDecisions` pin these decisions on the test schema. |
| Permissions.GuardedUpdate | tests/test_permissions.py:13-65 | An undeclared key fails as unknown. A declared key succeeds iff its field's policy lets the role change it, and otherwise fails with "cannot be changed". A permitted write is the ordinary update, and the written value is immediately the live value. |
| Conftest.Fixture | tests/conftest.py:37-48 | The fixture manager runs over the test schema and an empty collection, with no overrides, and its live values are the declared defaults (the process environment sets none of the field names). |
| Conftest.LoadEmpty | tests/conftest.py:41-47 | Initialising over an empty collection loads no override and leaves the state as constructed. |
| Conftest.DefaultsCoverSchema | tests/conftest.py:11-23 | The values of a freshly constructed test settings object cover exactly the declared fields. |
| Conftest.AppSettingsNames | tests/conftest.py:11-23 | The test schema declares six fields: `app_name`, `environment`, `admin_email`, `feature_flags`, `api_key`, `service_host`, in that order. |
| Conftest.EnvironmentPolicy | tests/conftest.py:15 | `environment` is declared and immutable. |
| Conftest.AdminEmailPolicy | tests/conftest.py:16-18 | `admin_email` is declared and requires the single role `admin`. |
| Conftest.FeatureFlagsPolicy | tests/conftest.py:19-21 | `feature_flags` is declared and requires one of the roles `developer` and `tester`. |
| Conftest.ServiceHostPolicy | tests/conftest.py:23 | `service_host` is declared with `allow_change: False`. |
| Conftest.AppNamePolicy | tests/conftest.py:14 | `app_name` is declared with no policy metadata. |
| Permissions.DeniedWrite | tests/test_permissions.py:15-18 | A write the policy denies raises "cannot be changed" for that key and role. |
| Permissions.DeniedToBoth | tests/test_permissions.py:13-18 | Writes to one field by two roles the policy both denies each raise "cannot be changed" for that key and role. |
| Permissions.AllowedWrite | tests/test_permissions.py:24-25 | A permitted write succeeds, keeps the schema, and reads back the value written. |
| Permissions.AllowThenDeny | tests/test_permissions.py:21-29 | A permitted write reads back its value, and a following write by a denied role raises "cannot be changed". |
| Permissions.AllowTwiceThenDeny | tests/test_permissions.py:32-43 | Successive writes by two permitted roles each read back their own value, and a following write by a denied role raises "cannot be changed". |
| PermissionTests.RoleListDecisions | tests/test_permissions.py:32-43 | The `["developer", "tester"]` policy admits `developer` and `tester` and refuses `admin`, who is not the superuser. |
| PermissionTests.TestImmutableSetting | tests/test_permissions.py:13-18 | On any manager over the test schema, both the superuser and `admin` are refused a change to `environment` with "cannot be changed". |
| PermissionTests.TestRequiredRoleString | tests/test_permissions.py:21-29 | `admin` may change `admin_email` and reads the new value back; `developer` is then refused. |
| PermissionTests.TestRequiredRoleList | tests/test_permissions.py:32-43 | `developer`, then `tester`, may change `feature_flags`, each reading back its own value; `admin` is then refused. |
| PermissionTests.TestAllowChangeFalse | tests/test_permissions.py:46-54 | The superuser may change `service_host` and reads the new value back; `user` is then refused. |
| PermissionTests.TestPrivateSettingWithoutRole | tests/test_permissions.py:57-65 | With a superuser role configured, the superuser may change `app_name` and reads the new value back; `admin` is then refused. |

## Left out

- Permissions.CanChange: no test exercises two of its decisions, and the model makes a choice for each. The superuser may also write a field with required roles. With no superuser role configured, a field marked `allow_change: False` or carrying no policy metadata is closed to everyone. No test lemma relies on either choice. No precedence order between metadata flags is modelled: each field carries exactly one policy.
- Conftest.AppSettings: `feature_flags` uses a default factory, so whether its declared default counts as falsy depends on pydantic internals. It is recorded as not falsy, and nothing proved depends on it.
- Storage failures: `update_setting` assigns the live value before awaiting the write, so a failing write would leave the live value changed while the collection and cache are not. The model has no failing storage operations.
- Asynchrony and concurrency between operations are not modelled. Each operation is one atomic transition.
- Mongo specifics are not modelled: cursors, query documents, `upsert=True` mechanics, and duplicate documents for one key. The collection is a map.
- `get_setting`, `initialize`, the change-notifier subscriptions (`on_change`) and the storage-port class are not part of this model: the tests and the example call them, but their code is not available. The fixture's `initialize` is taken to be a load over the empty collection, and reading a setting is a lookup in the live values.
- The manager version that enforces roles and takes `user_role=` is not part of this model. `GuardedUpdate` composes `CanChange` with `Update`. It checks the key before the role; no test pins that order.
- The wording of error messages is not modelled: only the error kinds are. `UnknownKey` is the "does not exist" error, and `CannotChange` is the "cannot be changed" error.
- Pydantic reflection is not modelled: `model_fields`, descriptions and annotations are given fields of `Field`.
- SettingsManager.SettingsInfo: the source passes `field_info.description` (`core/manager.py:84`) into `SettingInfo.description`, declared `str` (`core/manager.py:11`). A field without a description has `None` there, which pydantic's validation rejects, so the source's report raises a validation error whenever a field has no description. That includes every field of the test schema. The model takes descriptions as strings (the test schema's are `""`) and always returns a report.
- Conftest.Fixture: `AppSettings` is a `BaseSettings`, so its constructor first reads `APP_NAME`, `ENVIRONMENT` and the other field names (case-insensitively) from the process environment. The fixture's live values are the declared defaults only when none of those variables is set; the process environment is not modelled.
- Setting values are JSON-like (`null`, booleans, integers, strings, lists). Floats and dictionaries are not modelled.
- `examples/fastapi_example.py` is HTTP routing, header-based role extraction, startup and logging. It is not part of this model.
