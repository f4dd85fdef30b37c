/**
 The database phase of a plan: several caches and several ways to ask the server.
 For mutating commands all of them come down to what the database holds.
 */
module PlanDb {
  import opened Prelude
  import opened Domain
  import opened Server
  import opened AuditLoad
  import opened Scope
  import Planner

  datatype Snapshot = Snapshot(checksums: Planner.Checksums, catalog: Planner.Catalog)

  datatype Failure = QueryFailed | Undecodable(key: string)

  /** The settings that choose a path, and what git says about the working tree. */
  datatype Config = Config(
    inspectFull: bool,
    skipGit: bool,
    catalogCache: bool,
    direct: bool,
    gitFull: bool,
    gitPaths: bool,
    gitClean: bool,
    delta: set<string>,
    picked: set<string>)

  datatype Setup = Setup(
    full: bool,
    gitDelta: bool,
    needBootstrap: bool,
    needChecksums: bool,
    needCatalog: bool,
    defer: bool,
    base: Option<Planner.Catalog>,
    bypass: bool,
    repair: bool)

  /** Every live object as the catalog query reports it. */
  function LiveObjects(db: Database): map<string, Planner.CatalogObject> {
    map k | k in db.live :: Planner.CatalogObject(db.live[k].parent)
  }

  /** Read-only commands take the git-delta body exactly if git names changed paths and nothing asks for a full inspection. */
  predicate ByGitDelta(cfg: Config) {
    cfg.gitPaths && !cfg.inspectFull && !cfg.skipGit && !cfg.gitFull
  }

  /** A stored catalog may stand in for the inspection: it is enabled, git is silent, and no module needs a live look. */
  predicate StoredAllowed(cfg: Config, layout: Planner.Layout) {
    && cfg.catalogCache && !cfg.gitPaths && !cfg.gitClean && !cfg.inspectFull && !cfg.skipGit && !cfg.gitFull
    && forall o :: o in layout.objects ==> !IsModule(o.kind)
  }

  /** Entries may be dropped, none is added or changed. */
  ghost predicate Shrinks<K, V>(before: map<K, V>, after: map<K, V>) {
    forall k :: k in after ==> k in before && after[k] == before[k]
  }

  /** Kinds the fast probe cannot see: they are not in sys.objects. */
  predicate Unprobed(kind: Kind) {
    kind.Indexes? || kind.Types?
  }

  lemma {:induction false} ProvenEmpty(db: Database, layout: Planner.Layout)
    requires forall o :: o in layout.objects ==> o.key !in db.live
    ensures Inspect(LiveObjects(db), KeySet(layout.objects)) == map[]
  {
  }

  class PlanPhase {
    /** The identity of the database and the digest of the layout, which the caches are keyed by. */
    const fingerprint: string
    const digest: nat

    // What the server holds while the phase runs.
    const db: Database
    const schemas: set<string>
    /** Some object of another kind bears the name of an object in scope. */
    const homonym: bool
    /** What the git-delta body would answer. */
    const deltaAnswer: Snapshot
    var tables: bool

    /** Which of the requests fail. */
    const down: nat -> bool
    var clock: nat
    ghost var ddl: nat

    // The caches.
    var l1: map<(string, nat), Snapshot>
    var warm: map<(string, nat), Snapshot>
    var inspect: map<(string, nat, set<string>), Planner.Catalog>
    var stored: Option<Planner.Catalog>
    var historyEmpty: map<string, bool>
    var ensured: set<string>

    /** Any cache contents whatever. */
    constructor (fingerprint: string, digest: nat, db: Database, schemas: set<string>, tables: bool, homonym: bool, deltaAnswer: Snapshot,
                 down: nat -> bool, l1: map<(string, nat), Snapshot>, warm: map<(string, nat), Snapshot>,
                 inspect: map<(string, nat, set<string>), Planner.Catalog>, stored: Option<Planner.Catalog>,
                 historyEmpty: map<string, bool>, ensured: set<string>)
      requires !tables ==> db.history == []
      ensures Valid() && this.db == db && this.down == down && this.fingerprint == fingerprint
      ensures this.l1 == l1 && this.warm == warm && this.inspect == inspect && this.stored == stored
      ensures this.historyEmpty == historyEmpty && this.ensured == ensured && this.tables == tables
    {
      this.fingerprint, this.digest, this.db, this.schemas, this.tables := fingerprint, digest, db, schemas, tables;
      this.homonym, this.deltaAnswer, this.down, this.clock := homonym, deltaAnswer, down, 0;
      this.l1, this.warm, this.inspect, this.stored := l1, warm, inspect, stored;
      this.historyEmpty, this.ensured, this.ddl := historyEmpty, ensured, 0;
    }

    /** Without audit tables there is no history. */
    ghost predicate Valid()
      reads this
    {
      !tables ==> db.history == []
    }

    /** The bootstrap cache claims no tables that are not there. */
    ghost predicate Synced()
      reads this
    {
      Valid() && (fingerprint in ensured ==> tables)
    }

    ghost predicate AllUp() {
      forall n :: !down(n)
    }

    /** One request. */
    method Ask() returns (ok: bool)
      modifies this`clock
      ensures AllUp() ==> ok
    {
      ok := !down(clock);
      clock := clock + 1;
    }

    /** Creates or upgrades the audit tables. */
    method EnsureTables() returns (ok: bool)
      modifies this`clock, this`tables, this`ensured, this`ddl
      ensures ddl > old(ddl) && (old(tables) ==> tables)
      ensures ok ==> tables && fingerprint in ensured
      ensures !ok ==> ensured == old(ensured)
      ensures AllUp() ==> ok
    {
      ddl := ddl + 1;
      ok := Ask();
      if ok {
        tables := true;
        ok := Ask();
      }
      if ok {
        ensured := ensured + {fingerprint};
      }
    }

    /** Brings the bootstrap cache in line with the database. */
    method SyncTablesEnsured() returns (ok: bool)
      modifies this`clock, this`ensured, this`historyEmpty
      ensures ok ==> (fingerprint in ensured <==> tables)
      ensures historyEmpty == old(historyEmpty) || historyEmpty == old(historyEmpty) - {fingerprint}
      ensures AllUp() ==> ok
    {
      ok := Ask();
      if !ok {
        return;
      }
      if tables {
        ensured := ensured + {fingerprint};
      } else if fingerprint in ensured {
        historyEmpty := historyEmpty - {fingerprint};
        ensured := ensured - {fingerprint};
      }
    }

    /** Answers from the cache, else from the database; read-only commands never run DDL. */
    method HistoryIsEmpty(allowBootstrap: bool) returns (r: Result<bool, Failure>)
      requires Synced()
      modifies this`clock, this`tables, this`ensured, this`ddl, this`historyEmpty, this`inspect
      ensures Synced() && (!allowBootstrap ==> ddl == old(ddl)) && Shrinks(old(inspect), inspect)
      ensures r.Ok? && fingerprint !in old(historyEmpty) ==> r.value == (db.history == [])
      ensures r.Err? ==> r.error.QueryFailed? && !AllUp()
    {
      if fingerprint in historyEmpty {
        return Ok(historyEmpty[fingerprint]);
      }
      if fingerprint !in ensured {
        var ok;
        if allowBootstrap {
          ok := EnsureTables();
          if !ok {
            return Err(QueryFailed);
          }
        } else {
          ok := Ask();
          if !ok {
            return Err(QueryFailed);
          }
          if !tables {
            historyEmpty := historyEmpty[fingerprint := true];
            return Ok(true);
          }
        }
      }
      var ok := Ask();
      if !ok || !tables {
        return Err(QueryFailed);
      }
      ensured := ensured + {fingerprint};
      var empty := db.history == [];
      if !empty {
        inspect := map key | key in inspect && !(fingerprint <= key.0) :: inspect[key];
      }
      historyEmpty := historyEmpty[fingerprint := empty];
      return Ok(empty);
    }

    method QueryChecksums(keys: seq<string>, repair: bool) returns (r: Result<Planner.Checksums, Failure>)
      modifies this`clock
      ensures var loaded := FromLines(Lines(db, keys), repair);
              && (r.Ok? ==> loaded == Ok(r.value))
              && (r.Err? ==> loaded.Err? || !AllUp())
    {
      var ok := Ask();
      if !ok {
        return Err(QueryFailed);
      }
      var loaded := ChecksumMapFromRows(Lines(db, keys), repair);
      match loaded
      case Ok(c) => return Ok(c);
      case Err(key) => return Err(Undecodable(key));
    }

    method LoadChecksums(keys: seq<string>, allowBootstrap: bool, repair: bool) returns (r: Result<Planner.Checksums, Failure>)
      requires Synced()
      modifies this`clock, this`tables, this`ensured, this`ddl, this`historyEmpty, this`inspect
      ensures Synced() && (!allowBootstrap ==> ddl == old(ddl)) && Shrinks(old(inspect), inspect)
      ensures fingerprint !in old(historyEmpty) && r.Ok? ==> Loaded(db, keys, repair) == Ok(r.value)
      ensures fingerprint !in old(historyEmpty) && r.Err? ==> Loaded(db, keys, repair).Err? || !AllUp()
    {
      if keys == [] {
        return Ok(Planner.Checksums(map[], {}));
      }
      if fingerprint in historyEmpty && !historyEmpty[fingerprint] {
        r := QueryChecksums(keys, repair);
        return;
      }
      var empty := HistoryIsEmpty(allowBootstrap);
      if empty.Err? {
        return Err(empty.error);
      }
      if empty.value {
        return Ok(NoBaselines(keys));
      }
      r := QueryChecksums(keys, repair);
    }

    /** The catalog rows of the objects in scope; a failing request yields nothing. */
    method QueryCatalog(scope: InspectScope) returns (r: Result<Planner.Catalog, Failure>)
      modifies this`clock, this`inspect
      ensures r.Ok? ==> r.value.objects == Inspect(LiveObjects(db), scope.hot)
      ensures r.Err? ==> !AllUp()
    {
      var ok := Ask();
      if !ok {
        return Err(QueryFailed);
      }
      var loaded := Planner.Catalog(schemas, Inspect(LiveObjects(db), scope.hot));
      if loaded.objects != map[] || loaded.schemas != {} {
        inspect := inspect[(fingerprint, digest, scope.hot) := loaded];
      }
      return Ok(loaded);
    }

    /** The probe reads sys.objects by name, so a homonym of another kind counts as a hit. */
    method ProbeHits(layout: Planner.Layout, scope: InspectScope) returns (r: Result<bool, Failure>)
      modifies this`clock
      ensures r.Ok? && !r.value ==> forall o :: o in layout.objects && o.key in scope.hot && !Unprobed(o.kind) ==> o.key !in db.live
      ensures r.Err? ==> !AllUp()
    {
      var ok := Ask();
      if !ok {
        return Err(QueryFailed);
      }
      return Ok(homonym || exists o :: o in layout.objects && o.key in scope.hot && !Unprobed(o.kind) && o.key in db.live);
    }

    /** Full inspection: an empty probe proves the scope empty unless it holds kinds the probe cannot see. */
    method LoadFullCatalog(layout: Planner.Layout, scope: InspectScope) returns (r: Result<Planner.Catalog, Failure>)
      requires scope.full ==> scope.hot == KeySet(layout.objects)
      modifies this`clock, this`inspect
      ensures r.Ok? && scope.full ==> r.value.objects == Inspect(LiveObjects(db), scope.hot)
      ensures r.Err? ==> !AllUp()
    {
      if !exists o :: o in layout.objects && (scope.full || o.key in scope.hot) && Unprobed(o.kind) {
        var hit := ProbeHits(layout, scope);
        if hit.Err? {
          return Err(hit.error);
        }
        if !hit.value {
          if scope.full {
            ProvenEmpty(db, layout);
          }
          return Ok(Planner.Catalog({}, map[]));
        }
      }
      r := QueryCatalog(scope);
    }

    /** Incremental inspection; with a deferred bootstrap the tables are created in the same batch. */
    method LoadIncrementalCatalog(scope: InspectScope, bootstrapInSql: bool) returns (r: Result<Planner.Catalog, Failure>)
      requires Synced()
      modifies this`clock, this`tables, this`ensured, this`ddl, this`inspect
      ensures Synced() && (!bootstrapInSql ==> ddl == old(ddl))
      ensures r.Ok? ==> r.value.objects == Inspect(LiveObjects(db), scope.hot)
      ensures r.Err? ==> !AllUp()
    {
      if bootstrapInSql && fingerprint !in ensured {
        var ok := EnsureTables();
        if !ok {
          return Err(QueryFailed);
        }
      }
      r := QueryCatalog(scope);
    }

    /** Mutating commands never read the inspect cache, and an empty entry is no hit. */
    function CachedInspection(bypass: bool, scope: InspectScope): Option<Planner.Catalog>
      reads this
    {
      var key := (fingerprint, digest, scope.hot);
      if bypass || key !in inspect || (inspect[key].objects == map[] && inspect[key].schemas == {}) then None else Some(inspect[key])
    }

    /** A hit is an entry that holds something, stored under the very database, layout and names asked for. */
    lemma {:induction false} CachedInspectionMeans(bypass: bool, scope: InspectScope)
      ensures CachedInspection(bypass, scope).Some? <==>
                !bypass && (fingerprint, digest, scope.hot) in inspect
                && var c := inspect[(fingerprint, digest, scope.hot)]; (exists k :: k in c.objects) || exists n :: n in c.schemas
      ensures CachedInspection(bypass, scope).Some? ==> CachedInspection(bypass, scope).value == inspect[(fingerprint, digest, scope.hot)]
    {
      var key := (fingerprint, digest, scope.hot);
      if key in inspect {
        assert inspect[key].objects != map[] ==> exists k :: k in inspect[key].objects.Keys;
      }
    }

    /**
     A catalog looked up in the scope: its plan, schemas aside, is the plan of the live
     catalog if and only if every object taken to exist does.
     */
    ghost predicate ScopedLive(layout: Planner.Layout, delta: set<string>, checksums: Planner.Checksums, scope: InspectScope, catalog: Planner.Catalog) {
      && catalog.objects == scope.stable + Inspect(LiveObjects(db), scope.hot)
      && (ObjectPlan(layout, catalog, checksums) == ObjectPlan(layout, FullCatalog(layout, LiveObjects(db), {}), checksums)
          <==> scope.stable.Keys <= db.live.Keys)
    }

    lemma {:induction false} ScopedIsLive(layout: Planner.Layout, delta: set<string>, checksums: Planner.Checksums, scope: InspectScope, catalog: Planner.Catalog)
      requires Sound(layout, delta, checksums, scope) && catalog.objects == scope.stable + Inspect(LiveObjects(db), scope.hot)
      ensures ScopedLive(layout, delta, checksums, scope, catalog)
    {
      ScopedObjectPlan(layout, LiveObjects(db), catalog, delta, checksums, scope);
    }

    /** The objects of the scope, from the inspect cache or from the server. */
    method InspectObjects(layout: Planner.Layout, setup: Setup, scope: InspectScope, bootstrapInSql: bool) returns (r: Result<Planner.Catalog, Failure>)
      requires Synced() && (scope.full ==> scope.hot == KeySet(layout.objects)) && (setup.full ==> scope.full)
      modifies this`clock, this`tables, this`ensured, this`ddl, this`inspect
      ensures Synced() && (!bootstrapInSql ==> ddl == old(ddl))
      ensures r.Ok? && old(CachedInspection(setup.bypass, scope)).None? ==> r.value.objects == Inspect(LiveObjects(db), scope.hot)
      ensures r.Err? ==> !AllUp()
    {
      if scope.hot == {} {
        return Ok(Planner.Catalog({}, map[]));
      }
      var cached := CachedInspection(setup.bypass, scope);
      if cached.Some? {
        return Ok(cached.value);
      }
      if setup.full {
        r := LoadFullCatalog(layout, scope);
      } else {
        r := LoadIncrementalCatalog(scope, bootstrapInSql);
      }
    }

    method LoadCatalog(cfg: Config, layout: Planner.Layout, setup: Setup, checksums: Planner.Checksums, parents: map<string, string>, bootstrapInSql: bool)
      returns (r: Result<Planner.Catalog, Failure>, ghost scope: InspectScope)
      requires Synced() && Planner.DistinctObjects(layout.objects)
      modifies this`clock, this`tables, this`ensured, this`ddl, this`inspect
      ensures Synced() && (!bootstrapInSql ==> ddl == old(ddl)) && Sound(layout, cfg.delta, checksums, scope)
      ensures r.Ok? && old(CachedInspection(setup.bypass, scope)).None? ==> ScopedLive(layout, cfg.delta, checksums, scope, r.value)
      ensures setup.bypass && r.Ok? ==> r.value.objects == Inspect(LiveObjects(db), KeySet(layout.objects))
      ensures r.Err? ==> !AllUp()
    {
      var inspected := BuildInspectScope(layout, cfg.delta, setup.full || setup.bypass, checksums, parents, cfg.picked);
      scope := inspected;
      r := InspectObjects(layout, setup, inspected, bootstrapInSql);
      if r.Err? {
        return;
      }
      ghost var loaded := r.value.objects;
      assert setup.bypass ==> scope.full && scope.stable + loaded == loaded;
      var objects := MergeStableCatalog(r.value.objects, inspected.stable);
      r := Ok(r.value.(objects := objects));
      if loaded == Inspect(LiveObjects(db), scope.hot) {
        ScopedIsLive(layout, cfg.delta, checksums, scope, r.value);
      }
    }

    method RunStandardBody(cfg: Config, layout: Planner.Layout, setup: Setup, parents: map<string, string>, bootstrapInSql: bool)
      returns (r: Result<Snapshot, Failure>, ghost scope: InspectScope)
      requires Synced() && Planner.DistinctObjects(layout.objects) && (setup.needChecksums <==> layout.objects != [])
      requires bootstrapInSql ==> setup.bypass
      modifies this`clock, this`tables, this`ensured, this`ddl, this`historyEmpty, this`inspect
      ensures Synced() && (!setup.bypass ==> ddl == old(ddl))
      ensures setup.bypass && setup.needCatalog && fingerprint !in old(historyEmpty) ==> Live(layout, setup.repair, r)
      ensures r.Ok? && setup.needCatalog && old(CachedInspection(setup.bypass, scope)).None? ==>
                ScopedLive(layout, cfg.delta, r.value.checksums, scope, r.value.catalog)
      ensures r.Ok? && !setup.needCatalog && setup.base.Some? ==> r.value.catalog == setup.base.value
      ensures r.Ok? && fingerprint !in old(historyEmpty) ==> Loaded(db, Planner.Keys(layout), setup.repair) == Ok(r.value.checksums)
    {
      scope := InspectScope(true, {}, map[]);
      var checksums := Planner.Checksums(map[], {});
      if setup.needChecksums {
        if bootstrapInSql && fingerprint !in ensured {
          var ok := EnsureTables();
          if !ok {
            return Err(QueryFailed), scope;
          }
        }
        var loaded := LoadChecksums(Planner.Keys(layout), setup.bypass, setup.repair);
        if loaded.Err? {
          return Err(loaded.error), scope;
        }
        checksums := loaded.value;
      }
      assert fingerprint !in old(historyEmpty) ==> Loaded(db, Planner.Keys(layout), setup.repair) == Ok(checksums);
      var catalog := setup.base.GetOr(Planner.Catalog({}, map[]));
      if setup.needCatalog {
        var loaded;
        loaded, scope := LoadCatalog(cfg, layout, setup, checksums, parents, bootstrapInSql);
        if loaded.Err? {
          return Err(loaded.error), scope;
        }
        catalog := loaded.value;
      }
      return Ok(Snapshot(checksums, catalog)), scope;
    }

    /** The answer is the live one; it can only fail because a request did or a checksum cannot be decoded. */
    ghost predicate Live(layout: Planner.Layout, repair: bool, r: Result<Snapshot, Failure>) {
      match r
      case Ok(snapshot) =>
        && Loaded(db, Planner.Keys(layout), repair) == Ok(snapshot.checksums)
        && snapshot.catalog.objects == Inspect(LiveObjects(db), KeySet(layout.objects))
      case Err(_) => Loaded(db, Planner.Keys(layout), repair).Err? || !AllUp()
    }

    /** The catalog stored in the database by an earlier run; only an entry of the right size is used. */
    method TryStoredCatalog(layout: Planner.Layout) returns (r: Result<Option<Planner.Catalog>, Failure>)
      modifies this`clock
      ensures r.Err? ==> !AllUp()
      ensures r.Ok? ==> r.value == if stored.Some? && |stored.value.objects| == |layout.objects| then stored else None
    {
      var ok := Ask();
      if !ok {
        return Err(QueryFailed);
      }
      return Ok(if stored.Some? && |stored.value.objects| == |layout.objects| then stored else None);
    }

    /** The path of a read-only command. */
    ghost predicate ChosenFor(cfg: Config, layout: Planner.Layout, setup: Setup)
      reads this
    {
      && setup.gitDelta == ByGitDelta(cfg) && (setup.needCatalog <==> setup.base.None?)
      && setup.base == if StoredAllowed(cfg, layout) && tables && stored.Some? && |stored.value.objects| == |layout.objects| then stored else None
    }

    /**
     What a read-only command answers for a layout with objects: git's answer, or the
     checksums of the live history (unless an earlier probe is cached) with the stored
     catalog where that is allowed, or else with a catalog that plans like the live one
     if and only if every object taken to exist does (unless an inspection is cached).
     */
    ghost predicate ReadOnly(cfg: Config, layout: Planner.Layout, repair: bool, probed: bool, cached: bool, tables: bool, stored: Option<Planner.Catalog>,
                             scope: InspectScope, snapshot: Snapshot)
    {
      if ByGitDelta(cfg) then snapshot == deltaAnswer
      else
        && (!probed ==> Loaded(db, Planner.Keys(layout), repair) == Ok(snapshot.checksums))
        && if StoredAllowed(cfg, layout) && tables && stored.Some? && |stored.value.objects| == |layout.objects| then snapshot.catalog == stored.value
           else !cached ==> ScopedLive(layout, cfg.delta, snapshot.checksums, scope, snapshot.catalog)
    }

    /** Derives every mode flag. Mutating commands forget the history probe and skip every shortcut. */
    method PrepareExecute(cfg: Config, layout: Planner.Layout, bypass: bool, repair: bool) returns (r: Result<Setup, Failure>)
      requires Valid()
      modifies this`clock, this`ensured, this`historyEmpty
      ensures r.Err? ==> !AllUp()
      ensures r.Ok? ==>
                && Synced() && r.value.bypass == r.value.needBootstrap == bypass && r.value.repair == repair
                && (r.value.needChecksums <==> layout.objects != []) && (r.value.defer ==> bypass)
                && (bypass ==> fingerprint !in historyEmpty && r.value.needCatalog && !r.value.gitDelta)
                && (!bypass ==> ChosenFor(cfg, layout, r.value) && (fingerprint !in old(historyEmpty) ==> fingerprint !in historyEmpty))
    {
      if bypass {
        historyEmpty := historyEmpty - {fingerprint};
      }
      var ok := SyncTablesEnsured();
      if !ok {
        return Err(QueryFailed);
      }
      var full := cfg.inspectFull || cfg.skipGit || cfg.gitFull;
      var gitDelta := !full && cfg.gitPaths && !bypass;
      var needChecksums := layout.objects != [];
      var hasModules := exists o :: o in layout.objects && IsModule(o.kind);
      var base := None;
      if !hasModules && !bypass && cfg.catalogCache && fingerprint in ensured && !cfg.gitPaths && !full && !cfg.gitClean {
        var loaded := TryStoredCatalog(layout);
        if loaded.Err? {
          return Err(loaded.error);
        }
        base := loaded.value;
      }
      var needCatalog := base.None?;
      var defer := bypass && needCatalog && !full && !gitDelta && !needChecksums;
      return Ok(Setup(full, gitDelta, bypass, needChecksums, needCatalog, defer, base, bypass, repair));
    }

    method RunPlanBody(cfg: Config, layout: Planner.Layout, setup: Setup, parents: map<string, string>)
      returns (r: Result<Snapshot, Failure>, ghost scope: InspectScope)
      requires Synced() && Planner.DistinctObjects(layout.objects) && setup.needBootstrap == setup.bypass
      requires (setup.needChecksums <==> layout.objects != []) && (setup.defer ==> setup.bypass)
      modifies this`clock, this`tables, this`ensured, this`ddl, this`historyEmpty, this`inspect
      ensures Synced() && (!setup.bypass ==> ddl == old(ddl))
      ensures setup.bypass && setup.needCatalog && !setup.gitDelta && fingerprint !in old(historyEmpty) ==> Live(layout, setup.repair, r)
      ensures !setup.bypass && r.Ok? && old(ChosenFor(cfg, layout, setup)) ==>
                ReadOnly(cfg, layout, setup.repair, fingerprint in old(historyEmpty), old(CachedInspection(false, scope)).Some?, old(tables), stored, scope, r.value)
    {
      scope := InspectScope(true, {}, map[]);
      var defer := setup.defer && !cfg.direct;
      if setup.needBootstrap && !defer {
        var ok := EnsureTables();
        if !ok {
          return Err(QueryFailed), scope;
        }
      }
      if setup.gitDelta {
        return Ok(deltaAnswer), scope;
      }
      r, scope := RunStandardBody(cfg, layout, setup, parents, defer);
    }

    /** Everything but the snapshots; `keep` when the catalog was not taken from the stored one. */
    method AskServer(cfg: Config, layout: Planner.Layout, parents: map<string, string>, bypass: bool, repair: bool)
      returns (r: Result<Snapshot, Failure>, keep: bool, ghost scope: InspectScope)
      requires Valid() && Planner.DistinctObjects(layout.objects)
      modifies this`clock, this`tables, this`ensured, this`ddl, this`historyEmpty, this`inspect
      ensures Valid() && (!bypass ==> ddl == old(ddl))
      ensures bypass ==> Live(layout, repair, r)
      ensures !bypass && r.Ok? ==>
                ReadOnly(cfg, layout, repair, fingerprint in old(historyEmpty), old(CachedInspection(false, scope)).Some?, old(tables), stored, scope, r.value)
    {
      scope, keep := InspectScope(true, {}, map[]), false;
      var setup := PrepareExecute(cfg, layout, bypass, repair);
      if setup.Err? {
        return Err(setup.error), keep, scope;
      }
      keep := setup.value.needCatalog || setup.value.gitDelta;
      r, scope := RunPlanBody(cfg, layout, setup.value, parents);
    }

    /**
     The whole phase. For mutating commands the answer is the live one whatever the
     five caches hold. Read-only commands send no DDL, and for a layout with objects
     neither the snapshot on disk nor the one in memory has a say.
     */
    method RunPlanDbPhase(cfg: Config, layout: Planner.Layout, parents: map<string, string>, bypass: bool, repair: bool)
      returns (r: Result<Snapshot, Failure>, ghost scope: InspectScope)
      requires Valid() && Planner.DistinctObjects(layout.objects)
      modifies this
      ensures Valid()
      ensures bypass ==> Live(layout, repair, r)
      ensures !bypass ==> ddl == old(ddl)
      ensures !bypass && layout.objects != [] && r.Ok? ==>
                ReadOnly(cfg, layout, repair, fingerprint in old(historyEmpty), old(CachedInspection(false, scope)).Some?, old(tables), old(stored), scope, r.value)
    {
      scope := InspectScope(true, {}, map[]);
      var key := (fingerprint, digest);
      if !bypass && layout.objects == [] {
        if key in l1 {
          return Ok(l1[key]), scope;
        }
        if key in warm {
          l1 := l1[key := warm[key]];
          return Ok(warm[key]), scope;
        }
      }
      var keep;
      r, keep, scope := AskServer(cfg, layout, parents, bypass, repair);
      if r.Err? {
        return;
      }
      if cfg.catalogCache && r.value.catalog.objects != map[] && keep {
        var saved := Ask();
        if saved {
          stored := Some(r.value.catalog);
        }
      }
      if layout.objects == [] {
        l1 := l1[key := r.value];
      }
    }
  }
}
