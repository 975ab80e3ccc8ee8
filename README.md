# nosedjango, modelled in Dafny

A model of the core of nosedjango, the nose plugin that runs Django test suites. The
plugin wraps every test in the isolation the test asks for. It either rolls back a
transaction it opened before the test, flushes the database, or leaves the job to Django's
own `TransactionTestCase`. A test with `rebuild_schema` gets a freshly rebuilt test
database. The plugin also loads fixtures, switches the URLconf and dispatches hooks to its
sibling plugins. Around this core sit a few helpers: the search for the settings file up
the directory tree, the random url-safe token, the settings switcher that writes that
token into settings, and the file-storage plugin that keeps uploaded files in a token
directory and deletes it after each test.

Django and the database are not modelled as behaviour. Every call the plugin makes into
them is an `Event` appended to the plugin's log: loaddata, flush, create/destroy test
database, cache clearing, content types and permissions. Django's transaction module is a
`TransactionModule` object. It holds the six replaceable functions (Django's own or the
no-op `_dummy`) and the `is_managed()` flag.

Files:
- `py.dfy`: Python values, truthiness, `getattr`, and the settings object (`Py`).
- `tokens.dfy`: `random_token` and its alphabet (`Tokens`).
- `settings_path.dfy`: `get_settings_path` over a directory listing and a split function (`SettingsPath`).
- `nose_django.dfy`: the `NoseDjango` plugin and its per-test state machine (`NoseDjangoPlugin`).
- `settings_switcher.dfy`: `SetupSettingsSwitcher` and `%`-formatting of its templates (`SettingsSwitcher`).
- `file_storage.dfy`: `TestFileSystemStorage` and `FileStoragePlugin` (`FileStorage`).

The two copies of `random_token`, in nosedjango/nosedjango.py:453-461 and
nosedjango/plugins/file_storage.py:48-56, are identical. The model has one of them,
`Tokens.RandomToken`. The letters `random.choice` picks are a parameter `choose`: the
i-th pick is `Alphabet[choose(i)]`.

## Model

| member | source | states |
|---|---|---|
| `Tokens.RandomToken` | nosedjango/nosedjango.py:453-461 | the token has ceil(bits/6) letters (none for bits <= 0), and every letter is from the alphabet |
| `Tokens.NumLetters` | nosedjango/nosedjango.py:460 | `int(math.ceil(bits / 6.0))` as exact integer arithmetic: 0 for bits <= 0, otherwise the least n with 6n >= bits |
| `Tokens.AlphabetIsUrlSafe` | nosedjango/nosedjango.py:458-459 | the alphabet has 64 letters, and they are exactly the ASCII letters, the digits, `-` and `_` |
| `Tokens.DefaultTokenLength` | nosedjango/plugins/file_storage.py:48-56 | with the default 128 bits a token has 22 letters |
| `SettingsPath.LastDotted` | nosedjango/nosedjango.py:45-47 | the settings file name stem is the dot-free tail of the module path after its last dot |
| `SettingsPath.Walk` | nosedjango/nosedjango.py:44-56 | the outcome of the walk from a directory: the empty path is returned, a directory missing from the listing makes listdir fail, a directory listing the file is returned, otherwise its split head ends the walk with `None` when it is "/" (or an NT drive root on NT), loops forever when it equals the directory, and continues there otherwise |
| `SettingsPath.GetSettingsPath` | nosedjango/nosedjango.py:40-56 | the loop ends exactly as the walk `Walk` from the working directory does: found, `None`, listdir failure, or a split that makes no progress (Python loops forever) |
| `SettingsPath.WalkReturnsAncestorWithFile` | nosedjango/nosedjango.py:48-50 | a returned directory is the start or an ancestor reached by repeated splits, and it lists `<stem>.py`; "/" is returned only when the walk started there |
| `SettingsPath.WalkReturnsNearest` | nosedjango/nosedjango.py:48-51 | the returned directory is the nearest one listing `<stem>.py`: every directory passed on the way up exists and does not list it |
| `SettingsPath.WalkNoneAtRoot` | nosedjango/nosedjango.py:51-55 | `None` means the walk reached a directory whose split is "/" (or an NT drive root on NT), and every directory from the start up to it exists and does not list the file |
| `SettingsPath.WalkStopsAtRoot` | nosedjango/nosedjango.py:51-55 | a walk that passes only existing directories without the file up to one whose split is "/" (or an NT drive root on NT) returns `None` |
| `SettingsPath.WalkFindsFirst` | nosedjango/nosedjango.py:48-50 | the first directory on the way up that lists the file is returned, when every directory before it exists, lacks the file and does not split to a stopping point |
| `SettingsPath.PosixHeadShrinking` | nosedjango/nosedjango.py:51 | the POSIX `os.path.split` head is shorter than the path or the path itself, which is what the walk's termination needs |
| `SettingsPath.PosixHead` | nosedjango/nosedjango.py:51 | POSIX `os.path.split(p)[0]`: everything up to the last slash, with trailing slashes stripped unless the head is only slashes |
| `NoseDjangoPlugin.UseTransactionIsolation` | nosedjango/nosedjango.py:207-229 | isolation is used unless the test context's `use_transaction_isolation` is falsy, DISABLE_TRANSACTION_MANAGEMENT is truthy, or DATABASE_SUPPORTS_TRANSACTIONS is present and falsy |
| `NoseDjangoPlugin.DjangoManagesTestCase` | nosedjango/nosedjango.py:231-242 | Django's own test case handles transactions, fixtures and URLconf exactly when the test is a `TransactionTestCase` instance |
| `NoseDjangoPlugin.RebuildSchema` | nosedjango/nosedjango.py:244-247 | the schema is rebuilt after the test exactly when the context's `rebuild_schema` is truthy; an absent attribute means no |
| `NoseDjangoPlugin.HookCalls` | nosedjango/nosedjango.py:130-133 | the hook calls of one dispatch: one call per plugin that defines the method, in the order the plugins are listed |
| `NoseDjangoPlugin.DjangoPlugins` | nosedjango/nosedjango.py:141-143 | the plugins `begin` registers: those whose `django_plugin` is true, in nose's order |
| `NoseDjangoPlugin.RepairsContentTypes` | nosedjango/nosedjango.py:297-298 | the content-type repair runs when the major version is at most 1, the minor version is below 2, and `django.contrib.contenttypes` is in INSTALLED_APPS |
| `NoseDjangoPlugin.BeforeTestEvents` | nosedjango/nosedjango.py:353-383 | what beforeTest does up to the URLconf: if the plugin isolates, the beforeTransactionManagement hooks, enter, managed(True); the two cache clears; if it isolates, the afterTransactionManagement hooks; the fixture hooks around the conditional loaddata; the beforeUrlConfLoad hooks |
| `NoseDjangoPlugin.AfterTestEvents` | nosedjango/nosedjango.py:261-335 | what afterTest does as written: only the rebuild with `rebuild_schema`; otherwise the rollback sequence when the plugin isolates, the flush and repair when isolation is off, nothing when Django manages an isolated test, then the afterRollback hooks |
| `NoseDjangoPlugin.AfterTestCorrectedEvents` | nosedjango/nosedjango.py:261-282 | the corrected afterTest: with `rebuild_schema`, the rollback sequence of lines 276-282 when the plugin isolates, then the rebuild; otherwise as written |
| `NoseDjangoPlugin.TransactionIsolationDecision` | nosedjango/nosedjango.py:207-229 | isolation is on iff the test does not opt out, DISABLE_TRANSACTION_MANAGEMENT is not true, and DATABASE_SUPPORTS_TRANSACTIONS is absent or true |
| `NoseDjangoPlugin.HookCallsAppend` | nosedjango/nosedjango.py:130-133 | hooks are called in registration order |
| `NoseDjangoPlugin.HookCallsExactly` | nosedjango/nosedjango.py:131-133 | a hook is called on a plugin iff the plugin defines it, and dispatch does nothing else |
| `NoseDjangoPlugin.DjangoPluginsAppend` | nosedjango/nosedjango.py:141-143 | registration keeps nose's plugin order |
| `NoseDjangoPlugin.DjangoPluginsExactly` | nosedjango/nosedjango.py:142-143 | a plugin is registered iff its `django_plugin` attribute is true |
| `NoseDjangoPlugin.RenumberPks` | nosedjango/nosedjango.py:311-317 | the loop saves the listed rows in order, with primary keys 1, 2, ... |
| `NoseDjangoPlugin.RenumberingIsDenseAndOrdered` | nosedjango/nosedjango.py:327-333 | the new keys are 1..n, rows keep their data, and two rows compare by new key as they compared by old key |
| `NoseDjangoPlugin.RepairKeepsListedOrder` | nosedjango/nosedjango.py:311-333 | for tables listed by ascending key (`order_by('pk')`), the repair saves the content types and then the permissions in listed order, with keys 1..n, data kept, and key order unchanged |
| `NoseDjangoPlugin.FixturesLoadedExactlyWhen` | nosedjango/nosedjango.py:369-381 | beforeTest runs loaddata iff the test is a nose test, Django does not manage it, and it has `fixtures`; it passes commit=False iff isolation is on |
| `NoseDjangoPlugin.EntersExactlyWhenIsolating` | nosedjango/nosedjango.py:357-361 | beforeTest enters transaction management iff isolation is on and Django does not manage the test |
| `NoseDjangoPlugin.RebuildOnlyRebuilds` | nosedjango/nosedjango.py:261-268 | with `rebuild_schema`, afterTest destroys the test database, tears down and sets up the environment, creates the database, and does nothing else |
| `NoseDjangoPlugin.AfterTestBranches` | nosedjango/nosedjango.py:270-335 | without `rebuild_schema`, afterTest rolls back through the restored function iff it isolated the test, flushes iff isolation is off, never both, and always ends with the afterRollback hooks |
| `NoseDjangoPlugin.FlushHasNoRollback` | nosedjango/nosedjango.py:283-290 | the branch without isolation flushes the database and never rolls back, with or without the content-type repair |
| `NoseDjangoPlugin.EnterAndRollbackPaired` | nosedjango/nosedjango.py:274-282 | for the same test and settings, afterTest rolls back iff beforeTest entered transaction management |
| `NoseDjangoPlugin.DjangoTestCaseBypassesPlugin` | nosedjango/nosedjango.py:236-242 | for a `TransactionTestCase`, the plugin loads no fixtures, enters no transaction, installs no URLconf and rolls nothing back |
| `NoseDjangoPlugin.NoseDjango.constructor` | nosedjango/nosedjango.py:75-78 | no plugins registered, nothing saved, empty log |
| `NoseDjangoPlugin.NoseDjango.DisableTransactionSupport` | nosedjango/nosedjango.py:80-93 | the six functions are saved, and each slot then holds `_dummy` |
| `NoseDjangoPlugin.NoseDjango.RestoreTransactionSupport` | nosedjango/nosedjango.py:95-101 | the six saved functions are put back and nothing else changes; with nothing saved it raises and changes nothing |
| `NoseDjangoPlugin.NoseDjango.CallPluginsMethod` | nosedjango/nosedjango.py:130-133 | the log grows by exactly the hook calls on the registered plugins that define the hook, in order |
| `NoseDjangoPlugin.NoseDjango.RegisterDjangoPlugins` | nosedjango/nosedjango.py:141-143 | the registered list grows by the Django plugins among nose's plugins, in order |
| `NoseDjangoPlugin.NoseDjango.EnterIsolation` | nosedjango/nosedjango.py:353-367 | when it isolates, it calls the hooks, enters and marks management, and saves and dummies the six functions; otherwise the transaction state is untouched |
| `NoseDjangoPlugin.NoseDjango.LoadFixtures` | nosedjango/nosedjango.py:369-381 | the fixture hooks, with loaddata between them when the plugin loads fixtures |
| `NoseDjangoPlugin.NoseDjango.BeforeUrlConf` | nosedjango/nosedjango.py:353-383 | the common part of beforeTest: isolation, fixtures, the beforeUrlConfLoad hooks |
| `NoseDjangoPlugin.NoseDjango.BeforeTest` | nosedjango/nosedjango.py:337-392 | with no settings path nothing happens; otherwise isolation and fixtures as above, and a test with `urls` raises after saving `old_urlconf` |
| `NoseDjangoPlugin.NoseDjango.BeforeTestCorrected` | nosedjango/nosedjango.py:383-392 | as BeforeTest, but a test with `urls` gets ROOT_URLCONF set to its `urls`, with the old value kept in `old_urlconf` |
| `NoseDjangoPlugin.NoseDjango.FlushDatabase` | nosedjango/nosedjango.py:283-333 | clears the content-type cache, flushes, then runs the repair exactly when Django < 1.2 and the contenttypes app is installed |
| `NoseDjangoPlugin.NoseDjango.RepairContentTypes` | nosedjango/nosedjango.py:297-333 | the content-type and permission repair for Django < 1.2, with both tables renumbered from 1 |
| `NoseDjangoPlugin.NoseDjango.RollBack` | nosedjango/nosedjango.py:274-282 | restore, roll back through the restored function, leave management if managed, close the connection |
| `NoseDjangoPlugin.NoseDjango.LeaveManagement` | nosedjango/nosedjango.py:278-279 | leave is called only when managed, and management ends only when leave is a real function |
| `NoseDjangoPlugin.NoseDjango.CleanUp` | nosedjango/nosedjango.py:270-335 | afterTest without `rebuild_schema`: the events of `AfterTestEvents`, and the restored transaction state |
| `NoseDjangoPlugin.NoseDjango.AfterTest` | nosedjango/nosedjango.py:249-335 | afterTest as written: the rebuild path leaves the transaction module untouched; other paths restore iff the plugin isolated the test |
| `NoseDjangoPlugin.NoseDjango.AfterTestCorrected` | nosedjango/nosedjango.py:261-268 | with `rebuild_schema`, when the plugin isolated the test, it first restores the six functions, rolls back, leaves management and closes the connection, as the isolated path does; it raises only when nothing was saved |
| `NoseDjangoPlugin.NoseDjango.RunTest` | nosedjango/nosedjango.py:357-361 | as written, a test without `rebuild_schema` fails exactly when it declares `urls`; otherwise, started with Django's own functions outside managed transactions, it ends the same way |
| `NoseDjangoPlugin.NoseDjango.RunTestCorrected` | nosedjango/nosedjango.py:357-361 | corrected, any test fails exactly when it declares `urls` and ROOT_URLCONF is missing; otherwise, started with Django's own functions outside managed transactions, it ends the same way |
| `NoseDjangoPlugin.RebuildSchemaStrandsDummies` | nosedjango/nosedjango.py:261-268 | as written, after a rebuild test the six slots hold `_dummy`, and the next test's rollback is a `_dummy` call |
| `NoseDjangoPlugin.RebuildSchemaRestoresCorrected` | nosedjango/nosedjango.py:274-282 | corrected, the same two tests leave Django's functions in place, and the second test's rollback reaches Django's rollback |
| `NoseDjangoPlugin.UrlConfTestRaises` | nosedjango/nosedjango.py:389-390 | as written, a nose test with `urls` makes beforeTest raise |
| `NoseDjangoPlugin.UrlConfTestSwitchesCorrected` | nosedjango/nosedjango.py:384-391 | corrected, that test runs with its own URLconf |
| `SettingsSwitcher.FormatLiteralPrefix` | nosedjango/nosedjango.py:484 | `%`-formatting copies text without `%` unchanged |
| `SettingsSwitcher.Format` | nosedjango/nosedjango.py:484 | `template % {'token': token}`: `%(token)s` becomes the token, `%%` becomes `%`, other text is copied, and any other use of `%` raises |
| `SettingsSwitcher.FormatPlaceholder` | nosedjango/nosedjango.py:484 | `stem%(token)s` formats to the stem followed by the token |
| `SettingsSwitcher.CustomSettingsCarryToken` | nosedjango/nosedjango.py:425-431 | each of the four settings in `custom_before` becomes its stem followed by the token |
| `SettingsSwitcher.SetupSettingsSwitcher.constructor` | nosedjango/nosedjango.py:476-478 | the switcher draws one 22-letter token |
| `SettingsSwitcher.SetupSettingsSwitcher.Before` | nosedjango/nosedjango.py:480-484 | it succeeds iff every template formats; then exactly the listed keys change, each to its template filled with the one token; otherwise only listed keys changed, to their filled values |
| `FileStorage.TestStorage` | nosedjango/plugins/file_storage.py:16-22 | the storage can be built iff the settings hold a string token and MEDIA_ROOT and MEDIA_URL are strings |
| `FileStorage.PathJoin` | nosedjango/plugins/file_storage.py:20-21 | POSIX `os.path.join(a, b)`: `b` when it is absolute, otherwise `a` and `b` with one slash between them unless `a` is empty or already ends in a slash |
| `FileStorage.StorageIgnoresArguments` | nosedjango/plugins/file_storage.py:16-21 | the location and base_url arguments do not matter |
| `FileStorage.StorageUnderMediaRoot` | nosedjango/plugins/file_storage.py:20-21 | the location is MEDIA_ROOT, a separator if needed, then the token; the URL is MEDIA_URL, a separator if needed, then the token and a slash |
| `FileStorage.TestStorageIsTokenDirectory` | nosedjango/plugins/file_storage.py:18-21 | the test storage lies strictly under MEDIA_ROOT and ends with the token; its URL lies under MEDIA_URL and ends with the token and `/` |
| `FileStorage.DistinctTokensDistinctLocations` | nosedjango/plugins/file_storage.py:20 | different tokens give different storage directories |
| `FileStorage.RandomTokenIsAName` | nosedjango/plugins/file_storage.py:33 | a drawn token is non-empty and has no slash, so it names one directory |
| `FileStorage.RemovedTreeIdempotent` | nosedjango/plugins/file_storage.py:41-46 | clearing the test media twice is clearing it once |
| `FileStorage.RemovedTree` | nosedjango/plugins/file_storage.py:43-46 | the paths left by `shutil.rmtree(dir)`: the directory and everything below it are gone, and a missing directory leaves everything as it was |
| `FileStorage.RemovedTreeExactly` | nosedjango/plugins/file_storage.py:44 | rmtree removes the directory and everything below it, and keeps every other path |
| `FileStorage.FileStoragePlugin.BeforeTestSetup` | nosedjango/plugins/file_storage.py:31-35 | DEFAULT_FILE_STORAGE names the test storage class, and the same token is on the plugin and in `_TEST_FS_TOKEN` |
| `FileStorage.FileStoragePlugin.ClearTestMedia` | nosedjango/plugins/file_storage.py:41-46 | removes the storage's tree if it exists, and a missing directory is no error; a missing token raises |
| `FileStorage.FileStoragePlugin.AfterRollback` | nosedjango/plugins/file_storage.py:38-39 | always clears the test media |
| `FileStorage.SetupThenClear` | nosedjango/plugins/file_storage.py:31-46 | after beforeTestSetup, clearing removes exactly the token's directory under MEDIA_ROOT |

## Findings

| source | as written | input that shows it | evidently intended | confidence | as-written member | corrected member |
|---|---|---|---|---|---|---|
| nosedjango/nosedjango.py:390 | `settings.ROOT_URLCONF = self.urls` reads `urls` from the plugin, which never has one, so beforeTest raises AttributeError | a nose test, not a `TransactionTestCase`, whose class defines `urls` | install the test's own `test.context.urls` | high (not executed) | `NoseDjangoPlugin.UrlConfTestRaises` | `NoseDjangoPlugin.NoseDjango.BeforeTestCorrected` |
| nosedjango/nosedjango.py:261-268 | with `rebuild_schema`, afterTest returns before restoring the transaction functions and leaving management | a nose test, not a `TransactionTestCase`, with `rebuild_schema = True` and isolation on, then any isolated test: its saved "originals" are `_dummy`, so its rollback does nothing | restore transaction support, roll back and leave management before rebuilding, as on the other isolated path | medium (not executed) | `NoseDjangoPlugin.RebuildSchemaStrandsDummies` | `NoseDjangoPlugin.NoseDjango.AfterTestCorrected` |

`NoseDjangoPlugin.NoseDjango.BeforeTest` and `NoseDjangoPlugin.NoseDjango.AfterTest` model the
code as written. `RunTest` runs one test as written; it keeps the transaction module balanced only for tests without `rebuild_schema`. `RunTestCorrected` runs one test under the corrected pair and keeps it balanced for every test whose hooks do not raise.

## Left out

- `begin` beyond its registration loop: importing the settings module, `sys.path`, the sqlite options, `custom_before`, `DEBUG`, the begin-time hooks and `create_test_db`. These are imports and environment changes. The settings path and the old database name are constructor arguments of `NoseDjango`.
- `finalize`, `options`, `configure`, `custom_after`, `SetupCacheTesting`, and the `pstat` settings in `custom_before`. These are foreign modules, option parsing and a cache clear. The switched-settings dictionary of `custom_before` is modelled.
- The Selenium plugin (both copies), the Sphinx plugin, the celery and sqlite plugins, and `plugins/base.py`. These are browser drivers, subprocesses or constant assignments.
- Hook arguments. Hook calls are logged by plugin and hook name only. nosedjango/nosedjango.py:195-196 passes three arguments to `beforeTestSetup`, which `FileStoragePlugin.beforeTestSetup` (nosedjango/plugins/file_storage.py:31) does not accept. Since every nosedjango plugin is a Django plugin (nosedjango/plugins/base.py:4), `begin` raises TypeError whenever the file-storage plugin is enabled. The setup-then-clear flow of `FileStorage.SetupThenClear` therefore cannot happen through `begin` as written. The model calls `beforeTestSetup` directly and does not model that TypeError.
- Django's transaction semantics. `is_managed()` is a flag. `managed(True)` sets it. A call of the real `leave_transaction_management` clears it. Nesting depth and Django's TransactionManagementError are not modelled.
- `SettingsSwitcher.Format`: only `%(token)s` and `%%` are modelled; every other conversion is modelled as raising. With a dict argument Python also accepts `%(token)r`, flags and widths such as `%(token)5s`, and a bare `%s` or `%r`, which format the token or the whole dict. No template in the code uses them.
- `Tokens.NumLetters`: computes ceil(bits/6) exactly. The source divides by 6.0 in floating point, which agrees below 2^53 bits.
- `FileStorage.ClearTestMedia`: only the missing-directory OSError is modelled. An rmtree that fails part way, for example on permissions, is swallowed by the source and leaves a partial tree. The model does not capture that.
- `SettingsPath.GetSettingsPath`: NT's `os.path.split` is not given concretely. The walk is proved for any split head that shrinks or stays fixed. The POSIX split is proved to be one.
- `TestStorage`: what `FileSystemStorage.__init__` does with its location and URL is Django's and is not modelled.
- `FileStorage.TestStorage`: a `_TEST_FS_TOKEN` that starts with `/` makes POSIX `os.path.join` drop MEDIA_ROOT without looking at it, so Python would not raise on a non-string MEDIA_ROOT; the model returns an error. No token from `random_token` starts with `/`.
