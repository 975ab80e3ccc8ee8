/** The `NoseDjango` plugin: per-test transaction isolation around each test, fixture
    loading, URLconf switching and dispatch of hooks to the registered sibling plugins.
    The framework's side effects (test database, flush, loaddata, caches) are recorded
    as events in a log; the six transaction functions and `is_managed()` are the state
    of a `TransactionModule` object. */
module NoseDjangoPlugin {
  import opened Py

  // ---------------------------------------------------------------------------
  // Tests and the three decisions

  /** A test as nose hands it to `beforeTest`/`afterTest`. */
  datatype Test = Test(
    context: Attrs,              // attributes of `test.context` (the test class or module)
    isNoseTest: bool,            // isinstance(test, nose.case.Test)
    isTransactionTestCase: bool) // isinstance(test.test, django.test.TransactionTestCase)

  /** `_should_use_transaction_isolation` */
  predicate UseTransactionIsolation(test: Test, settings: Attrs)
  {
    if !Truthy(GetAttr(test.context, "use_transaction_isolation", Bool(true))) then false
    else if Truthy(GetAttr(settings, "DISABLE_TRANSACTION_MANAGEMENT", Bool(false))) then false
    else if "DATABASE_SUPPORTS_TRANSACTIONS" in settings then Truthy(settings["DATABASE_SUPPORTS_TRANSACTIONS"])
    else true
  }

  /** `_should_use_django_testcase_management` */
  predicate DjangoManagesTestCase(test: Test)
  {
    test.isTransactionTestCase
  }

  /** `_should_rebuild_schema` */
  predicate RebuildSchema(test: Test)
  {
    Truthy(GetAttr(test.context, "rebuild_schema", Bool(false)))
  }

  /** The plugin itself wraps the test in a transaction that it rolls back afterwards. */
  predicate PluginIsolates(test: Test, settings: Attrs)
  {
    UseTransactionIsolation(test, settings) && !DjangoManagesTestCase(test)
  }

  /** Fixtures are loaded by the plugin (not by Django's test case). */
  predicate LoadsFixtures(test: Test)
  {
    test.isNoseTest && !DjangoManagesTestCase(test) && "fixtures" in test.context
  }

  /** The test's URLconf is installed by the plugin. */
  predicate SwitchesUrlConf(test: Test)
  {
    test.isNoseTest && !DjangoManagesTestCase(test) && "urls" in test.context
  }

  /** Isolation is on unless the test opts out, the settings forbid transaction
      management, or the settings say the database has no transactions. */
  lemma TransactionIsolationDecision(test: Test, settings: Attrs)
    ensures UseTransactionIsolation(test, settings) <==>
      !("use_transaction_isolation" in test.context && !Truthy(test.context["use_transaction_isolation"]))
      && !("DISABLE_TRANSACTION_MANAGEMENT" in settings && Truthy(settings["DISABLE_TRANSACTION_MANAGEMENT"]))
      && !("DATABASE_SUPPORTS_TRANSACTIONS" in settings && !Truthy(settings["DATABASE_SUPPORTS_TRANSACTIONS"]))
  {
  }

  // ---------------------------------------------------------------------------
  // The transaction module's six functions

  /** What occupies one of the six slots: `_dummy` or a real function. */
  datatype TxFn = Dummy | Fn(name: string)

  datatype TxSlots = TxSlots(
    commit: TxFn, rollback: TxFn, savepointCommit: TxFn, savepointRollback: TxFn,
    enter: TxFn, leave: TxFn)

  const AllDummy := TxSlots(Dummy, Dummy, Dummy, Dummy, Dummy, Dummy)

  /** Django's own functions, as the module holds them before any test. */
  const Originals := TxSlots(
    Fn("commit"), Fn("rollback"), Fn("savepoint_commit"), Fn("savepoint_rollback"),
    Fn("enter_transaction_management"), Fn("leave_transaction_management"))

  predicate NoDummies(s: TxSlots)
  {
    s.commit != Dummy && s.rollback != Dummy && s.savepointCommit != Dummy
    && s.savepointRollback != Dummy && s.enter != Dummy && s.leave != Dummy
  }

  /** `django.db.transaction`: the six replaceable functions and whether the
      connection is under managed transactions (`is_managed()`). */
  class TransactionModule {
    var slots: TxSlots
    var managed: bool

    constructor (slots: TxSlots)
      ensures this.slots == slots && !managed
    {
      this.slots := slots;
      managed := false;
    }
  }

  // ---------------------------------------------------------------------------
  // Events

  datatype TxOp = Rollback | Enter | Leave
  datatype Table = ContentTypes | Permissions
  datatype Row = Row(pk: int, data: string)

  /** An external action, in the order the plugin performs it. */
  datatype Event =
    | Hook(plugin: nat, hook: string)   // a sibling plugin's hook method was called
    | TxCall(op: TxOp, fn: TxFn)          // a call through a transaction slot (a no-op when `fn` is Dummy)
    | SetManaged                          // transaction.managed(True)
    | CloseConnection
    | ClearSiteCache | ClearContentTypeCache | ClearUrlCaches
    | LoadData(fixtures: Value, commit: bool)
    | Flush
    | DestroyTestDb(oldName: string) | CreateTestDb
    | SetupTestEnv | TeardownTestEnv
    | DeleteAll(table: Table) | UpdateAllContentTypes | CreatePermissions(app: string)
    | Save(table: Table, row: Row)

  // ---------------------------------------------------------------------------
  // Sibling plugins

  /** A nose plugin: an identity, the truth of its `django_plugin` attribute
      (False when absent) and the names of the methods it defines. */
  datatype PluginInfo = PluginInfo(id: nat, djangoPlugin: bool, methods: set<string>)

  /** The calls `call_plugins_method(name)` makes, in registration order. */
  function HookCalls(plugins: seq<PluginInfo>, name: string): seq<Event>
  {
    if plugins == [] then []
    else
      var first := if name in plugins[0].methods then [Hook(plugins[0].id, name)] else [];
      first + HookCalls(plugins[1..], name)
  }

  /** The plugins `begin` registers, in the order nose lists them. */
  function DjangoPlugins(all: seq<PluginInfo>): seq<PluginInfo>
  {
    if all == [] then []
    else
      var first := if all[0].djangoPlugin then [all[0]] else [];
      first + DjangoPlugins(all[1..])
  }

  /** Calling the hooks of two groups of plugins is calling those of the first group,
      then those of the second: dispatch follows registration order. */
  lemma {:induction false} HookCallsAppend(a: seq<PluginInfo>, b: seq<PluginInfo>, name: string)
    ensures HookCalls(a + b, name) == HookCalls(a, name) + HookCalls(b, name)
  {
    if a == [] {
      assert a + b == b;
    } else {
      var first := if name in a[0].methods then [Hook(a[0].id, name)] else [];
      assert (a + b)[0] == a[0];
      assert (a + b)[1..] == a[1..] + b;
      HookCallsAppend(a[1..], b, name);
      calc {
        HookCalls(a + b, name);
        first + HookCalls(a[1..] + b, name);
        first + (HookCalls(a[1..], name) + HookCalls(b, name));
        (first + HookCalls(a[1..], name)) + HookCalls(b, name);
      }
    }
  }

  /** Exactly the plugins that define the method are called, and nothing else happens. */
  lemma {:induction false} HookCallsExactly(plugins: seq<PluginInfo>, name: string, e: Event)
    ensures e in HookCalls(plugins, name) <==>
      exists p :: p in plugins && name in p.methods && e == Hook(p.id, name)
  {
    if plugins != [] {
      HookCallsExactly(plugins[1..], name, e);
      assert forall p :: p in plugins <==> p == plugins[0] || p in plugins[1..];
    }
  }

  /** Registration keeps order and drops exactly the non-Django plugins. */
  lemma {:induction false} DjangoPluginsAppend(a: seq<PluginInfo>, b: seq<PluginInfo>)
    ensures DjangoPlugins(a + b) == DjangoPlugins(a) + DjangoPlugins(b)
  {
    if a == [] {
      assert a + b == b;
    } else {
      var first := if a[0].djangoPlugin then [a[0]] else [];
      assert (a + b)[0] == a[0];
      assert (a + b)[1..] == a[1..] + b;
      DjangoPluginsAppend(a[1..], b);
      calc {
        DjangoPlugins(a + b);
        first + DjangoPlugins(a[1..] + b);
        first + (DjangoPlugins(a[1..]) + DjangoPlugins(b));
        (first + DjangoPlugins(a[1..])) + DjangoPlugins(b);
      }
    }
  }

  lemma {:induction false} DjangoPluginsExactly(all: seq<PluginInfo>, p: PluginInfo)
    ensures p in DjangoPlugins(all) <==> p in all && p.djangoPlugin
  {
    if all != [] {
      DjangoPluginsExactly(all[1..], p);
      assert p in all <==> p == all[0] || p in all[1..];
    }
  }

  // ---------------------------------------------------------------------------
  // Primary-key renumbering

  /** The rows saved by the renumbering loop: the same rows, in the same order,
      with primary keys 1, 2, ... */
  function Renumbered(rows: seq<Row>): seq<Row>
  {
    seq(|rows|, i requires 0 <= i < |rows| => rows[i].(pk := i + 1))
  }

  predicate Ascending(rows: seq<Row>)
  {
    forall i, j :: 0 <= i < j < |rows| ==> rows[i].pk < rows[j].pk
  }

  /** The loop `for ct in content_types: ct.pk = next_pk; ct.save(); next_pk += 1`
      over the rows listed by ascending primary key. */
  method RenumberPks(rows: seq<Row>) returns (saved: seq<Row>)
    ensures saved == Renumbered(rows)
  {
    var nextPk := 1;
    saved := [];
    for i := 0 to |rows|
      invariant nextPk == i + 1
      invariant saved == Renumbered(rows[..i])
    {
      saved := saved + [rows[i].(pk := nextPk)];
      nextPk := nextPk + 1;
    }
    assert rows[..|rows|] == rows;
  }

  /** The new keys are dense, every row keeps its other data, and two rows compare by
      new key exactly as they compared by old key. */
  lemma RenumberingIsDenseAndOrdered(rows: seq<Row>)
    requires Ascending(rows)
    ensures |Renumbered(rows)| == |rows|
    ensures forall i :: 0 <= i < |rows| ==> Renumbered(rows)[i].pk == i + 1 && Renumbered(rows)[i].data == rows[i].data
    ensures forall i, j :: 0 <= i < |rows| && 0 <= j < |rows| ==>
      (rows[i].pk < rows[j].pk <==> Renumbered(rows)[i].pk < Renumbered(rows)[j].pk)
  {
  }

  function SaveEvents(table: Table, rows: seq<Row>): seq<Event>
  {
    seq(|rows|, i requires 0 <= i < |rows| => Save(table, rows[i]))
  }

  function CreatePermissionEvents(apps: seq<string>): seq<Event>
  {
    seq(|apps|, i requires 0 <= i < |apps| => CreatePermissions(apps[i]))
  }

  // ---------------------------------------------------------------------------
  // What the framework answers during afterTest

  /** `DJANGO_VERSION[0]`, `DJANGO_VERSION[1]`, `models.get_apps()`, and the content types
      and permissions as listed after they were recreated; `order_by('pk')` lists them by
      ascending primary key, which `ListedByKey` states. */
  datatype Framework = Framework(
    major: int, minor: int, apps: seq<string>, contentTypes: seq<Row>, permissions: seq<Row>)

  /** The Django < 1.2 content-type repair applies (the version test as written). */
  predicate RepairsContentTypes(fw: Framework, settings: Attrs)
  {
    fw.major <= 1 && fw.minor < 2
    && match GetAttr(settings, "INSTALLED_APPS", List([]))
       case List(apps) => Str("django.contrib.contenttypes") in apps
       case _ => false
  }

  // ---------------------------------------------------------------------------
  // The event sequences of beforeTest and afterTest

  /** beforeTest, from the isolation decision up to the `beforeUrlConfLoad` hooks. */
  function BeforeTestEvents(plugins: seq<PluginInfo>, test: Test, settings: Attrs, enter: TxFn): seq<Event>
  {
    IsolationEvents(plugins, test, settings, enter) + FixtureEvents(plugins, test, settings)
    + HookCalls(plugins, "beforeUrlConfLoad")
  }

  /** Entering the plugin's transaction, and the cache clearing between the hooks. */
  function IsolationEvents(plugins: seq<PluginInfo>, test: Test, settings: Attrs, enter: TxFn): seq<Event>
  {
    var own := PluginIsolates(test, settings);
    (if own then HookCalls(plugins, "beforeTransactionManagement") + [TxCall(Enter, enter), SetManaged] else [])
    + [ClearSiteCache, ClearContentTypeCache]
    + (if own then HookCalls(plugins, "afterTransactionManagement") else [])
  }

  /** The fixture hooks, and `loaddata` (with commit=False under isolation) when the plugin loads fixtures. */
  function FixtureEvents(plugins: seq<PluginInfo>, test: Test, settings: Attrs): seq<Event>
  {
    HookCalls(plugins, "beforeFixtureLoad")
    + (if LoadsFixtures(test) then [LoadData(test.context["fixtures"], !UseTransactionIsolation(test, settings))] else [])
    + HookCalls(plugins, "afterFixtureLoad")
  }

  function RebuildEvents(oldDb: string): seq<Event>
  {
    [DestroyTestDb(oldDb), TeardownTestEnv, SetupTestEnv, CreateTestDb]
  }

  function LeaveEvents(restored: TxSlots, managed: bool): seq<Event>
  {
    if managed then [TxCall(Leave, restored.leave)] else []
  }

  function RollbackEvents(restored: TxSlots, managed: bool): seq<Event>
  {
    [TxCall(Rollback, restored.rollback)] + LeaveEvents(restored, managed) + [CloseConnection]
  }

  function ContentTypeRepairEvents(fw: Framework): seq<Event>
  {
    [DeleteAll(ContentTypes), ClearContentTypeCache, UpdateAllContentTypes, DeleteAll(ContentTypes)]
    + SaveEvents(ContentTypes, Renumbered(fw.contentTypes))
    + [DeleteAll(Permissions)] + CreatePermissionEvents(fw.apps)
    + [DeleteAll(Permissions)] + SaveEvents(Permissions, Renumbered(fw.permissions))
  }

  /** `order_by('pk')`: both tables are listed by ascending primary key. */
  predicate ListedByKey(fw: Framework)
  {
    Ascending(fw.contentTypes) && Ascending(fw.permissions)
  }

  /** The repair saves the listed content types, in listed order, with keys 1..n, and two
      of them compare by new key exactly as they compared by old key; likewise the permissions. */
  lemma RepairKeepsListedOrder(fw: Framework)
    requires ListedByKey(fw)
    ensures var ev := ContentTypeRepairEvents(fw);
      var n := |fw.contentTypes|;
      var m := |fw.permissions|;
      var p := 4 + n + 1 + |fw.apps| + 1;
      && p + m == |ev|
      && (forall i :: 0 <= i < n ==> ev[4 + i] == Save(ContentTypes, Row(i + 1, fw.contentTypes[i].data)))
      && (forall i :: 0 <= i < m ==> ev[p + i] == Save(Permissions, Row(i + 1, fw.permissions[i].data)))
      && (forall i, j :: 0 <= i < n && 0 <= j < n ==>
            (fw.contentTypes[i].pk < fw.contentTypes[j].pk <==> ev[4 + i].row.pk < ev[4 + j].row.pk))
      && (forall i, j :: 0 <= i < m && 0 <= j < m ==>
            (fw.permissions[i].pk < fw.permissions[j].pk <==> ev[p + i].row.pk < ev[p + j].row.pk))
  {
    RenumberingIsDenseAndOrdered(fw.contentTypes);
    RenumberingIsDenseAndOrdered(fw.permissions);
  }

  function FlushEvents(settings: Attrs, fw: Framework): seq<Event>
  {
    [ClearContentTypeCache, Flush] + (if RepairsContentTypes(fw, settings) then ContentTypeRepairEvents(fw) else [])
  }

  /** afterTest has to restore transaction support but nothing was ever saved:
      reading `self.orig_commit` raises AttributeError. */
  predicate RestoreFails(test: Test, settings: Attrs, saved: Option<TxSlots>)
  {
    !RebuildSchema(test) && PluginIsolates(test, settings) && saved.None?
  }

  /** afterTest as written, when it does not raise. */
  function AfterTestEvents(plugins: seq<PluginInfo>, test: Test, settings: Attrs, fw: Framework,
                           oldDb: string, saved: Option<TxSlots>, managed: bool): seq<Event>
    requires !RestoreFails(test, settings, saved)
  {
    if RebuildSchema(test) then RebuildEvents(oldDb)
    else
      var cleanup :=
        if PluginIsolates(test, settings) then RollbackEvents(saved.value, managed)
        else if !UseTransactionIsolation(test, settings) then FlushEvents(settings, fw)
        else [];
      cleanup + HookCalls(plugins, "afterRollback")
  }

  /** The corrected afterTest must restore transaction support on every path it was disabled on. */
  predicate RestoreFailsCorrected(test: Test, settings: Attrs, saved: Option<TxSlots>)
  {
    PluginIsolates(test, settings) && saved.None?
  }

  /** The corrected afterTest: a schema rebuild first rolls back and leaves the plugin's
      transaction, as the isolated path without a rebuild does. */
  function AfterTestCorrectedEvents(plugins: seq<PluginInfo>, test: Test, settings: Attrs, fw: Framework,
                                    oldDb: string, saved: Option<TxSlots>, managed: bool): seq<Event>
    requires !RestoreFailsCorrected(test, settings, saved)
  {
    if RebuildSchema(test) then
      (if PluginIsolates(test, settings) then RollbackEvents(saved.value, managed) else []) + RebuildEvents(oldDb)
    else AfterTestEvents(plugins, test, settings, fw, oldDb, saved, managed)
  }

  // ---------------------------------------------------------------------------
  // Properties of the event sequences

  /** Fixtures are loaded only for a nose test that Django does not manage and whose
      context has `fixtures`, and they are loaded with commit=False exactly when
      transaction isolation is on. */
  lemma FixturesLoadedExactlyWhen(plugins: seq<PluginInfo>, test: Test, settings: Attrs, enter: TxFn,
                                  fixtures: Value, commit: bool)
    ensures LoadData(fixtures, commit) in BeforeTestEvents(plugins, test, settings, enter) <==>
      LoadsFixtures(test) && fixtures == test.context["fixtures"] && commit == !UseTransactionIsolation(test, settings)
  {
    var e := LoadData(fixtures, commit);
    HookCallsExactly(plugins, "beforeTransactionManagement", e);
    HookCallsExactly(plugins, "afterTransactionManagement", e);
    HookCallsExactly(plugins, "beforeFixtureLoad", e);
    HookCallsExactly(plugins, "afterFixtureLoad", e);
    HookCallsExactly(plugins, "beforeUrlConfLoad", e);
  }

  /** beforeTest enters transaction management (through the `enter` slot) exactly when
      isolation is on and Django's TransactionTestCase is not in charge. */
  lemma EntersExactlyWhenIsolating(plugins: seq<PluginInfo>, test: Test, settings: Attrs, enter: TxFn, fn: TxFn)
    ensures TxCall(Enter, fn) in BeforeTestEvents(plugins, test, settings, enter) <==>
      PluginIsolates(test, settings) && fn == enter
  {
    var e := TxCall(Enter, fn);
    HookCallsExactly(plugins, "beforeTransactionManagement", e);
    HookCallsExactly(plugins, "afterTransactionManagement", e);
    HookCallsExactly(plugins, "beforeFixtureLoad", e);
    HookCallsExactly(plugins, "afterFixtureLoad", e);
    HookCallsExactly(plugins, "beforeUrlConfLoad", e);
  }

  /** With rebuild_schema, afterTest destroys and recreates the test database and does
      nothing else: no rollback, no flush, no afterRollback hooks. */
  lemma RebuildOnlyRebuilds(plugins: seq<PluginInfo>, test: Test, settings: Attrs, fw: Framework,
                            oldDb: string, saved: Option<TxSlots>, managed: bool)
    requires RebuildSchema(test)
    ensures AfterTestEvents(plugins, test, settings, fw, oldDb, saved, managed)
      == [DestroyTestDb(oldDb), TeardownTestEnv, SetupTestEnv, CreateTestDb]
  {
  }

  /** Without rebuild_schema, afterTest rolls back (through the restored slot) exactly
      when the plugin isolated the test, flushes exactly when isolation is off, never
      both, and always ends with the afterRollback hooks. */
  lemma AfterTestBranches(plugins: seq<PluginInfo>, test: Test, settings: Attrs, fw: Framework,
                          oldDb: string, saved: Option<TxSlots>, managed: bool, fn: TxFn)
    requires !RebuildSchema(test) && !RestoreFails(test, settings, saved)
    ensures var events := AfterTestEvents(plugins, test, settings, fw, oldDb, saved, managed);
      && (TxCall(Rollback, fn) in events <==> PluginIsolates(test, settings) && fn == saved.value.rollback)
      && (Flush in events <==> !UseTransactionIsolation(test, settings))
      && !(Flush in events && TxCall(Rollback, fn) in events)
      && |HookCalls(plugins, "afterRollback")| <= |events|
      && events[|events| - |HookCalls(plugins, "afterRollback")|..] == HookCalls(plugins, "afterRollback")
  {
    var hooks := HookCalls(plugins, "afterRollback");
    var cleanup :=
      if PluginIsolates(test, settings) then RollbackEvents(saved.value, managed)
      else if !UseTransactionIsolation(test, settings) then FlushEvents(settings, fw)
      else [];
    assert AfterTestEvents(plugins, test, settings, fw, oldDb, saved, managed) == cleanup + hooks;
    HookCallsExactly(plugins, "afterRollback", TxCall(Rollback, fn));
    HookCallsExactly(plugins, "afterRollback", Flush);
    if PluginIsolates(test, settings) {
      assert Flush !in cleanup;
      assert TxCall(Rollback, fn) in cleanup <==> fn == saved.value.rollback;
    } else if !UseTransactionIsolation(test, settings) {
      FlushHasNoRollback(settings, fw, fn);
    }
    assert (cleanup + hooks)[|cleanup|..] == hooks;
  }

  /** The flush branch flushes and never rolls back. */
  lemma FlushHasNoRollback(settings: Attrs, fw: Framework, fn: TxFn)
    ensures Flush in FlushEvents(settings, fw)
    ensures TxCall(Rollback, fn) !in FlushEvents(settings, fw)
  {
  }

  /** For a test without rebuild_schema, the rollback in afterTest happens under exactly
      the condition under which beforeTest entered transaction management. */
  lemma EnterAndRollbackPaired(plugins: seq<PluginInfo>, test: Test, settings: Attrs, fw: Framework,
                               oldDb: string, saved: Option<TxSlots>, managed: bool, enter: TxFn)
    requires !RebuildSchema(test) && !RestoreFails(test, settings, saved)
    ensures TxCall(Enter, enter) in BeforeTestEvents(plugins, test, settings, enter) <==>
      exists fn :: TxCall(Rollback, fn) in AfterTestEvents(plugins, test, settings, fw, oldDb, saved, managed)
  {
    EntersExactlyWhenIsolating(plugins, test, settings, enter, enter);
    if PluginIsolates(test, settings) {
      AfterTestBranches(plugins, test, settings, fw, oldDb, saved, managed, saved.value.rollback);
    } else {
      forall fn ensures TxCall(Rollback, fn) !in AfterTestEvents(plugins, test, settings, fw, oldDb, saved, managed) {
        AfterTestBranches(plugins, test, settings, fw, oldDb, saved, managed, fn);
      }
    }
  }

  /** A test that is a Django `TransactionTestCase` is left to Django: the plugin loads
      no fixtures, enters no transaction, installs no URLconf and rolls nothing back. */
  lemma DjangoTestCaseBypassesPlugin(plugins: seq<PluginInfo>, test: Test, settings: Attrs, fw: Framework,
                                     oldDb: string, saved: Option<TxSlots>, managed: bool, enter: TxFn,
                                     fixtures: Value, commit: bool, fn: TxFn)
    requires DjangoManagesTestCase(test)
    ensures LoadData(fixtures, commit) !in BeforeTestEvents(plugins, test, settings, enter)
    ensures TxCall(Enter, fn) !in BeforeTestEvents(plugins, test, settings, enter)
    ensures !SwitchesUrlConf(test)
    ensures !RebuildSchema(test) ==>
      TxCall(Rollback, fn) !in AfterTestEvents(plugins, test, settings, fw, oldDb, saved, managed)
  {
    FixturesLoadedExactlyWhen(plugins, test, settings, enter, fixtures, commit);
    EntersExactlyWhenIsolating(plugins, test, settings, enter, fn);
    if !RebuildSchema(test) {
      AfterTestBranches(plugins, test, settings, fw, oldDb, saved, managed, fn);
    }
  }

  // ---------------------------------------------------------------------------
  // The plugin object

  class NoseDjango {
    var settingsPath: string           // `self.settings_path` ("" when no settings file was found)
    var oldDb: string                  // `self.old_db`
    var djangoPlugins: seq<PluginInfo> // `self.django_plugins`
    var saved: Option<TxSlots>         // `self.orig_commit` ... `self.orig_leave`, absent until the first disable
    var oldUrlconf: Option<Value>      // `self.old_urlconf`, absent until a test switches URLconf
    var log: seq<Event>                // the external actions performed so far

    /** `__init__`; the settings path and the database name are those `begin` found. */
    constructor (settingsPath: string, oldDb: string)
      ensures this.settingsPath == settingsPath && this.oldDb == oldDb
      ensures djangoPlugins == [] && saved == None && oldUrlconf == None && log == []
    {
      this.settingsPath := settingsPath;
      this.oldDb := oldDb;
      djangoPlugins := [];
      saved := None;
      oldUrlconf := None;
      log := [];
    }

    /** Save the six transaction functions and replace each by `_dummy`. */
    method DisableTransactionSupport(tx: TransactionModule)
      modifies this`saved, tx`slots
      ensures saved == Some(old(tx.slots))
      ensures tx.slots == AllDummy
    {
      saved := Some(tx.slots);
      tx.slots := AllDummy;
    }

    /** Put the six saved functions back; raises AttributeError if none were saved. */
    method RestoreTransactionSupport(tx: TransactionModule) returns (ok: bool)
      modifies tx`slots
      ensures ok == saved.Some?
      ensures tx.slots == if ok then saved.value else old(tx.slots)
    {
      if saved.None? {
        return false;
      }
      tx.slots := saved.value;
      return true;
    }

    /** `call_plugins_method`: call the hook on every registered plugin that has it. */
    method CallPluginsMethod(name: string)
      modifies this`log
      ensures log == old(log) + HookCalls(djangoPlugins, name)
    {
      for i := 0 to |djangoPlugins|
        invariant log == old(log) + HookCalls(djangoPlugins[..i], name)
      {
        var plugin := djangoPlugins[i];
        HookCallsAppend(djangoPlugins[..i], [plugin], name);
        assert djangoPlugins[..i + 1] == djangoPlugins[..i] + [plugin];
        if name in plugin.methods {
          log := log + [Hook(plugin.id, name)];
        }
      }
      assert djangoPlugins[..|djangoPlugins|] == djangoPlugins;
    }

    /** The registration loop at the start of `begin`. */
    method RegisterDjangoPlugins(all: seq<PluginInfo>)
      modifies this`djangoPlugins
      ensures djangoPlugins == old(djangoPlugins) + DjangoPlugins(all)
    {
      for i := 0 to |all|
        invariant djangoPlugins == old(djangoPlugins) + DjangoPlugins(all[..i])
      {
        DjangoPluginsAppend(all[..i], [all[i]]);
        assert all[..i + 1] == all[..i] + [all[i]];
        if all[i].djangoPlugin {
          djangoPlugins := djangoPlugins + [all[i]];
        }
      }
      assert all[..|all|] == all;
    }

    /** beforeTest up to the `beforeUrlConfLoad` hooks, shared by both versions. */
    method BeforeUrlConf(test: Test, settings: Settings, tx: TransactionModule)
      modifies this`log, this`saved, tx
      ensures var own := PluginIsolates(test, settings.attrs);
        && tx.slots == (if own then AllDummy else old(tx.slots))
        && saved == (if own then Some(old(tx.slots)) else old(saved))
        && tx.managed == (old(tx.managed) || own)
        && log == old(log) + BeforeTestEvents(djangoPlugins, test, settings.attrs, old(tx.slots).enter)
    {
      EnterIsolation(test, settings, tx);
      ghost var entered := log;
      LoadFixtures(test, settings);
      CallPluginsMethod("beforeUrlConfLoad");
      assert log == entered + FixtureEvents(djangoPlugins, test, settings.attrs) + HookCalls(djangoPlugins, "beforeUrlConfLoad");
    }

    /** Enter managed transactions and disable transaction support when the plugin isolates the test. */
    method EnterIsolation(test: Test, settings: Settings, tx: TransactionModule)
      modifies this`log, this`saved, tx
      ensures var own := PluginIsolates(test, settings.attrs);
        && tx.slots == (if own then AllDummy else old(tx.slots))
        && saved == (if own then Some(old(tx.slots)) else old(saved))
        && tx.managed == (old(tx.managed) || own)
        && log == old(log) + IsolationEvents(djangoPlugins, test, settings.attrs, old(tx.slots).enter)
    {
      var useTransactionIsolation := UseTransactionIsolation(test, settings.attrs);
      var usingDjangoManagement := DjangoManagesTestCase(test);
      ghost var entered := [];
      if useTransactionIsolation && !usingDjangoManagement {
        CallPluginsMethod("beforeTransactionManagement");
        log := log + [TxCall(Enter, tx.slots.enter), SetManaged];
        tx.managed := true;
        DisableTransactionSupport(tx);
        entered := HookCalls(djangoPlugins, "beforeTransactionManagement") + [TxCall(Enter, old(tx.slots).enter), SetManaged];
      }
      assert log == old(log) + entered;
      log := log + [ClearSiteCache, ClearContentTypeCache];
      if useTransactionIsolation && !usingDjangoManagement {
        CallPluginsMethod("afterTransactionManagement");
      }
    }

    /** The fixture part of beforeTest. */
    method LoadFixtures(test: Test, settings: Settings)
      modifies this`log
      ensures log == old(log) + FixtureEvents(djangoPlugins, test, settings.attrs)
    {
      var useTransactionIsolation := UseTransactionIsolation(test, settings.attrs);
      var usingDjangoManagement := DjangoManagesTestCase(test);
      CallPluginsMethod("beforeFixtureLoad");
      if test.isNoseTest && !usingDjangoManagement && "fixtures" in test.context {
        log := log + [LoadData(test.context["fixtures"], !useTransactionIsolation)];
      }
      CallPluginsMethod("afterFixtureLoad");
    }

    /** beforeTest as written: installing a test URLconf reads `self.urls`, which the
        plugin does not have, so it raises AttributeError after saving `old_urlconf`. */
    method BeforeTest(test: Test, settings: Settings, tx: TransactionModule) returns (ok: bool)
      modifies this`log, this`saved, this`oldUrlconf, tx
      ensures settingsPath == "" ==>
        ok && log == old(log) && saved == old(saved) && oldUrlconf == old(oldUrlconf)
        && tx.slots == old(tx.slots) && tx.managed == old(tx.managed)
      ensures settingsPath != "" ==> var own := PluginIsolates(test, settings.attrs);
        && ok == !SwitchesUrlConf(test)
        && tx.slots == (if own then AllDummy else old(tx.slots))
        && saved == (if own then Some(old(tx.slots)) else old(saved))
        && tx.managed == (old(tx.managed) || own)
        && oldUrlconf == (if SwitchesUrlConf(test) && "ROOT_URLCONF" in settings.attrs
                          then Some(settings.attrs["ROOT_URLCONF"]) else old(oldUrlconf))
        && log == old(log) + BeforeTestEvents(djangoPlugins, test, settings.attrs, old(tx.slots).enter)
                  + (if ok then HookCalls(djangoPlugins, "afterUrlConfLoad") else [])
    {
      if settingsPath == "" {
        return true;
      }
      BeforeUrlConf(test, settings, tx);
      if SwitchesUrlConf(test) {
        if "ROOT_URLCONF" in settings.attrs {
          oldUrlconf := Some(settings.attrs["ROOT_URLCONF"]);
        }
        return false;
      }
      CallPluginsMethod("afterUrlConfLoad");
      return true;
    }

    /** beforeTest with the test context's `urls` installed as the URLconf. */
    method BeforeTestCorrected(test: Test, settings: Settings, tx: TransactionModule) returns (ok: bool)
      modifies this`log, this`saved, this`oldUrlconf, tx, settings
      ensures settingsPath == "" ==>
        ok && log == old(log) && saved == old(saved) && oldUrlconf == old(oldUrlconf)
        && tx.slots == old(tx.slots) && tx.managed == old(tx.managed) && settings.attrs == old(settings.attrs)
      ensures settingsPath != "" ==> var own := PluginIsolates(test, old(settings.attrs));
        var switches := SwitchesUrlConf(test) && "ROOT_URLCONF" in old(settings.attrs);
        && ok == (SwitchesUrlConf(test) ==> "ROOT_URLCONF" in old(settings.attrs))
        && tx.slots == (if own then AllDummy else old(tx.slots))
        && saved == (if own then Some(old(tx.slots)) else old(saved))
        && tx.managed == (old(tx.managed) || own)
        && oldUrlconf == (if switches then Some(old(settings.attrs)["ROOT_URLCONF"]) else old(oldUrlconf))
        && settings.attrs == (if switches then old(settings.attrs)["ROOT_URLCONF" := test.context["urls"]]
                              else old(settings.attrs))
        && log == old(log) + BeforeTestEvents(djangoPlugins, test, old(settings.attrs), old(tx.slots).enter)
                  + (if switches then [ClearUrlCaches] else [])
                  + (if ok then HookCalls(djangoPlugins, "afterUrlConfLoad") else [])
    {
      if settingsPath == "" {
        return true;
      }
      BeforeUrlConf(test, settings, tx);
      if SwitchesUrlConf(test) {
        if "ROOT_URLCONF" !in settings.attrs {
          return false;
        }
        oldUrlconf := Some(settings.attrs["ROOT_URLCONF"]);
        settings.attrs := settings.attrs["ROOT_URLCONF" := test.context["urls"]];
        log := log + [ClearUrlCaches];
      }
      CallPluginsMethod("afterUrlConfLoad");
      return true;
    }

    /** The flush branch's repair for Django < 1.2: recreate the content types and the
        permissions and renumber both from 1. */
    method RepairContentTypes(fw: Framework)
      modifies this`log
      ensures log == old(log) + ContentTypeRepairEvents(fw)
    {
      log := log + [DeleteAll(ContentTypes), ClearContentTypeCache, UpdateAllContentTypes];
      log := log + [DeleteAll(ContentTypes)];
      var rows := RenumberPks(fw.contentTypes);
      log := log + SaveEvents(ContentTypes, rows);
      log := log + [DeleteAll(Permissions)];
      ghost var before := log;
      for i := 0 to |fw.apps|
        invariant log == before + CreatePermissionEvents(fw.apps[..i])
      {
        log := log + [CreatePermissions(fw.apps[i])];
      }
      assert fw.apps[..|fw.apps|] == fw.apps;
      log := log + [DeleteAll(Permissions)];
      rows := RenumberPks(fw.permissions);
      log := log + SaveEvents(Permissions, rows);
    }

    /** Roll back the plugin's transaction through the restored slots. */
    method RollBack(tx: TransactionModule) returns (ok: bool)
      modifies this`log, tx
      ensures ok == saved.Some?
      ensures ok ==> (tx.slots == saved.value
        && tx.managed == (old(tx.managed) && saved.value.leave == Dummy)
        && log == old(log) + RollbackEvents(saved.value, old(tx.managed)))
      ensures !ok ==> tx.slots == old(tx.slots) && tx.managed == old(tx.managed) && log == old(log)
    {
      ok := RestoreTransactionSupport(tx);
      if !ok {
        return;
      }
      log := log + [TxCall(Rollback, tx.slots.rollback)];
      LeaveManagement(tx);
      log := log + [CloseConnection];
    }

    /** `if transaction.is_managed(): transaction.leave_transaction_management()` */
    method LeaveManagement(tx: TransactionModule)
      modifies this`log, tx`managed
      ensures tx.managed == (old(tx.managed) && tx.slots.leave == Dummy)
      ensures log == old(log) + LeaveEvents(tx.slots, old(tx.managed))
    {
      if tx.managed {
        log := log + [TxCall(Leave, tx.slots.leave)];
        if tx.slots.leave != Dummy {
          tx.managed := false;
        }
      }
    }

    /** afterTest without rebuild_schema: the cleanup branch and the afterRollback hooks. */
    method CleanUp(test: Test, settings: Settings, tx: TransactionModule, fw: Framework) returns (ok: bool)
      requires !RebuildSchema(test)
      modifies this`log, tx
      ensures ok == !RestoreFails(test, settings.attrs, saved)
      ensures ok ==> log == old(log) + AfterTestEvents(djangoPlugins, test, settings.attrs, fw, oldDb, saved, old(tx.managed))
      ensures !ok ==> log == old(log)
      ensures var restores := ok && PluginIsolates(test, settings.attrs);
        && tx.slots == (if restores then saved.value else old(tx.slots))
        && tx.managed == (if restores then old(tx.managed) && saved.value.leave == Dummy else old(tx.managed))
    {
      var useTransactionIsolation := UseTransactionIsolation(test, settings.attrs);
      var usingDjangoManagement := DjangoManagesTestCase(test);
      ghost var cleanup: seq<Event> := [];
      if useTransactionIsolation && !usingDjangoManagement {
        ok := RollBack(tx);
        if !ok {
          return;
        }
        cleanup := RollbackEvents(saved.value, old(tx.managed));
      } else if !useTransactionIsolation {
        FlushDatabase(settings, fw);
        cleanup := FlushEvents(settings.attrs, fw);
      }
      assert log == old(log) + cleanup;
      ok := true;
      CallPluginsMethod("afterRollback");
    }

    /** The branch of afterTest without isolation: flush, then repair the content types. */
    method FlushDatabase(settings: Settings, fw: Framework)
      modifies this`log
      ensures log == old(log) + FlushEvents(settings.attrs, fw)
    {
      log := log + [ClearContentTypeCache, Flush];
      if RepairsContentTypes(fw, settings.attrs) {
        RepairContentTypes(fw);
      }
    }

    /** afterTest as written: with rebuild_schema it rebuilds the database and returns
        at once, before transaction support is restored. */
    method AfterTest(test: Test, settings: Settings, tx: TransactionModule, fw: Framework) returns (ok: bool)
      modifies this`log, tx
      ensures ok == !RestoreFails(test, settings.attrs, saved)
      ensures ok ==> log == old(log) + AfterTestEvents(djangoPlugins, test, settings.attrs, fw, oldDb, saved, old(tx.managed))
      ensures !ok ==> log == old(log)
      ensures var restores := ok && !RebuildSchema(test) && PluginIsolates(test, settings.attrs);
        && tx.slots == (if restores then saved.value else old(tx.slots))
        && tx.managed == (if restores then old(tx.managed) && saved.value.leave == Dummy else old(tx.managed))
    {
      if RebuildSchema(test) {
        log := log + [DestroyTestDb(oldDb), TeardownTestEnv];
        log := log + [SetupTestEnv, CreateTestDb];
        return true;
      }
      ok := CleanUp(test, settings, tx, fw);
    }

    /** afterTest that rolls back and leaves the plugin's transaction before rebuilding the schema. */
    method AfterTestCorrected(test: Test, settings: Settings, tx: TransactionModule, fw: Framework) returns (ok: bool)
      modifies this`log, tx
      ensures ok == !RestoreFailsCorrected(test, settings.attrs, saved)
      ensures ok ==> log == old(log) + AfterTestCorrectedEvents(djangoPlugins, test, settings.attrs, fw, oldDb, saved, old(tx.managed))
      ensures !ok ==> log == old(log)
      ensures var restores := ok && PluginIsolates(test, settings.attrs);
        && tx.slots == (if restores then saved.value else old(tx.slots))
        && tx.managed == (if restores then old(tx.managed) && saved.value.leave == Dummy else old(tx.managed))
    {
      if RebuildSchema(test) {
        if PluginIsolates(test, settings.attrs) {
          ok := RollBack(tx);
          if !ok {
            return;
          }
        }
        log := log + [DestroyTestDb(oldDb), TeardownTestEnv];
        log := log + [SetupTestEnv, CreateTestDb];
        return true;
      }
      ok := CleanUp(test, settings, tx, fw);
    }

    /** One test under the hooks as written: without rebuild_schema, the transaction
        module ends as it started, with its own functions and outside managed transactions. */
    method RunTest(test: Test, settings: Settings, tx: TransactionModule, fw: Framework)
      returns (ok: bool)
      requires settingsPath != "" && !RebuildSchema(test)
      modifies this`log, this`saved, this`oldUrlconf, tx
      ensures ok == !SwitchesUrlConf(test)
      ensures ok && NoDummies(old(tx.slots)) && !old(tx.managed) ==> tx.slots == old(tx.slots) && !tx.managed
    {
      ok := BeforeTest(test, settings, tx);
      if !ok {
        return;
      }
      ok := AfterTest(test, settings, tx, fw);
    }

    /** One test under the corrected hooks: whatever the test, the transaction module
        ends as it started, with its own functions and outside managed transactions. */
    method RunTestCorrected(test: Test, settings: Settings, tx: TransactionModule, fw: Framework)
      returns (ok: bool)
      requires settingsPath != ""
      modifies this`log, this`saved, this`oldUrlconf, tx, settings
      ensures ok == (SwitchesUrlConf(test) ==> "ROOT_URLCONF" in old(settings.attrs))
      ensures ok && NoDummies(old(tx.slots)) && !old(tx.managed) ==> tx.slots == old(tx.slots) && !tx.managed
    {
      ok := BeforeTestCorrected(test, settings, tx);
      if !ok {
        return;
      }
      ok := AfterTestCorrected(test, settings, tx, fw);
    }
  }

  // ---------------------------------------------------------------------------
  // The two discrepancies, on concrete runs

  /** As written, a plain nose test with rebuild_schema leaves `_dummy` in all six
      slots, and the next isolated test's "rollback" is a call to `_dummy`. */
  method RebuildSchemaStrandsDummies() returns (stranded: TxSlots, nextRollback: TxFn)
    ensures stranded == AllDummy
    ensures nextRollback == Dummy
  {
    var plugin := new NoseDjango("settings", "test_db");
    var tx := new TransactionModule(Originals);
    var settings := new Settings(map[]);
    var fw := Framework(1, 2, [], [], []);
    var rebuild := Test(map["rebuild_schema" := Bool(true)], true, false);
    assert PluginIsolates(rebuild, settings.attrs) && RebuildSchema(rebuild);
    var ok := plugin.BeforeTest(rebuild, settings, tx);
    assert tx.slots == AllDummy && plugin.saved == Some(Originals);
    ok := plugin.AfterTest(rebuild, settings, tx, fw);
    stranded := tx.slots;
    var plain := Test(map[], true, false);
    assert PluginIsolates(plain, settings.attrs) && !RebuildSchema(plain);
    ok := plugin.BeforeTest(plain, settings, tx);
    assert plugin.saved == Some(AllDummy);
    var start := |plugin.log|;
    ok := plugin.AfterTest(plain, settings, tx, fw);
    nextRollback := plugin.log[start].fn;
  }

  /** Corrected, the same two tests leave Django's functions in place and the second
      test's rollback reaches Django's rollback. */
  method RebuildSchemaRestoresCorrected() returns (restored: TxSlots, nextRollback: TxFn)
    ensures restored == Originals
    ensures nextRollback == Fn("rollback")
  {
    var plugin := new NoseDjango("settings", "test_db");
    var tx := new TransactionModule(Originals);
    var settings := new Settings(map[]);
    var fw := Framework(1, 2, [], [], []);
    var rebuild := Test(map["rebuild_schema" := Bool(true)], true, false);
    assert PluginIsolates(rebuild, settings.attrs) && RebuildSchema(rebuild);
    var ok := plugin.BeforeTestCorrected(rebuild, settings, tx);
    assert tx.slots == AllDummy && plugin.saved == Some(Originals);
    ok := plugin.AfterTestCorrected(rebuild, settings, tx, fw);
    restored := tx.slots;
    var plain := Test(map[], true, false);
    assert PluginIsolates(plain, settings.attrs) && !RebuildSchema(plain);
    ok := plugin.BeforeTestCorrected(plain, settings, tx);
    assert plugin.saved == Some(Originals);
    var start := |plugin.log|;
    ok := plugin.AfterTestCorrected(plain, settings, tx, fw);
    nextRollback := plugin.log[start].fn;
  }

  /** As written, a nose test that declares `urls` makes beforeTest raise. */
  method UrlConfTestRaises() returns (ok: bool)
    ensures !ok
  {
    var plugin := new NoseDjango("settings", "test_db");
    var tx := new TransactionModule(Originals);
    var settings := new Settings(map["ROOT_URLCONF" := Str("urls")]);
    var test := Test(map["urls" := Str("polls.test_urls")], true, false);
    ok := plugin.BeforeTest(test, settings, tx);
  }

  /** Corrected, the same test runs under its own URLconf. */
  method UrlConfTestSwitchesCorrected() returns (ok: bool, urlconf: Value)
    ensures ok && urlconf == Str("polls.test_urls")
  {
    var plugin := new NoseDjango("settings", "test_db");
    var tx := new TransactionModule(Originals);
    var settings := new Settings(map["ROOT_URLCONF" := Str("urls")]);
    var test := Test(map["urls" := Str("polls.test_urls")], true, false);
    ok := plugin.BeforeTestCorrected(test, settings, tx);
    urlconf := settings.attrs["ROOT_URLCONF"];
  }
}
