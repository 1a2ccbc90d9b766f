/** The post-authentication activation: access, provider configuration and resources in one
  * transaction, with a backup before it and another in the middle of it.
  */
module Activation {
  import opened Wrappers
  import opened KeyedTable
  import opened AccessPlan
  import opened Resources
  import opened WebUiConnection
  import AccessResults

  const BASE_URLS := "openai.api_base_urls"
  const API_KEYS := "openai.api_keys"
  const DESIRED_URLS := ["http://model-proxy:8080/v1"]
  const DESIRED_KEYS := ["not-needed"]
  const DEFAULT_OWNER := "d264d0df-d0b6-4f35-bd66-5d602e84aae4"

  // ---- the dry run -----------------------------------------------------------------------

  datatype Counts = Counts(inserts: nat, updates: nat)

  datatype ResourceCounts = ResourceCounts(knowledge: Counts, tools: Counts, memory: Counts)

  datatype DryRun =
    | Unavailable          // no database, or no resource export
    | DryRun(access: Plan, providerReady: bool, owner: Option<Id>, counts: Option<ResourceCounts>)

  predicate ActivationReady(d: DryRun) {
    d.DryRun? && d.owner.Some? && d.access.missingModels == {}
  }

  function CountsFor<R>(rows: seq<Row<Id, R>>, table: map<Id, R>): Counts {
    Counts(CountNew(rows, table.Keys), CountKnown(rows, table.Keys))
  }

  function CountAll(t: Tables, rows: Rows): ResourceCounts {
    ResourceCounts(CountsFor(rows.knowledge, t.knowledge), CountsFor(rows.tools, t.tools),
                   CountsFor(rows.memory, t.memory))
  }

  function CurrentUrls(db: WebUi): seq<string> {
    if BASE_URLS in db.config then db.config[BASE_URLS].value else []
  }

  // An owner named by the empty text would be found by identity but has no rows.
  function Predict(file: Option<WebUi>, resources: Option<Export>, c: Catalogue, named: Option<Id>, now: int): DryRun {
    if file.None? || resources.None? then Unavailable
    else
      var db := file.value;
      var owner := ResolveOwner(db.access.users, named);
      DryRun(MakePlan(db.access, c), CurrentUrls(db) == DESIRED_URLS, owner,
             if owner.Some? && owner.value != ""
               then Some(CountAll(db.resources, BuildRows(resources.value, owner.value, now))) else None)
  }

  method BuildActivationPlan(file: Option<WebUi>, resources: Option<Export>, c: Catalogue, named: Option<Id>, now: int)
    returns (d: DryRun)
    ensures d == Predict(file, resources, c, named, now)
  {
    if file.None? || resources.None? { return Unavailable; }
    var db := file.value;
    var access := PlanAccess(db.access, c);
    var owner := ResolveOwner(db.access.users, named);
    var counts: Option<ResourceCounts> := None;
    if owner.Some? && owner.value != "" {
      var rows := BuildRows(resources.value, owner.value, now);
      var ki, ku := CountRows(rows.knowledge, db.resources.knowledge.Keys);
      var ti, tu := CountRows(rows.tools, db.resources.tools.Keys);
      var mi, mu := CountRows(rows.memory, db.resources.memory.Keys);
      counts := Some(ResourceCounts(Counts(ki, ku), Counts(ti, tu), Counts(mi, mu)));
    }
    d := DryRun(access, CurrentUrls(db) == DESIRED_URLS, owner, counts);
  }

  // ---- the activation ---------------------------------------------------------------------

  datatype Step =
    | ReadPlan | InspectSchema | FindOwner | FirstBackup | BindAccess | ConfigureUrls | ConfigureKeys
    | BuildResources | SecondBackup | WriteResources | CommitAll

  // A step that raises may have written anything to the open transaction first.
  datatype Failure = Failure(step: Step, debris: WebUi)

  datatype Result = Applied | Refused | Raised(at: Step)

  // The clock readings of the four writers.
  datatype Times = Times(access: int, config: int, resources: int)

  function Configured(config: map<string, Setting>, now: int): map<string, Setting> {
    config[BASE_URLS := Setting(DESIRED_URLS, now)][API_KEYS := Setting(DESIRED_KEYS, now)]
  }

  function Written(db: WebUi, p: Plan, c: Catalogue, rows: Rows, t: Times): WebUi {
    WebUi(
      Apply(db.access, p, c, DEFAULT_OWNER, t.access),
      Configured(db.config, t.config),
      Upsert(db.resources, rows))
  }

  function Activated(db: WebUi, e: Export, c: Catalogue, owner: Id, t: Times): WebUi {
    Written(db, MakePlan(db.access, c), c, BuildRows(e, owner, t.resources), t)
  }

  predicate Fails(f: Option<Failure>, step: Step) {
    f.Some? && f.value.step == step
  }

  // The file of a ready database after an activation that nothing interrupts.
  function Outcome(file: WebUi, e: Export, c: Catalogue, named: Option<Id>, t: Times): WebUi
    requires ResolveOwner(file.access.users, named).Some?
  {
    Activated(file, e, c, ResolveOwner(file.access.users, named).value, t)
  }

  // Every agent of the catalogue has a row, and the owner is known: an account with the id that
  // is named, or the only account when none is.
  ghost predicate CanApply(db: WebUi, c: Catalogue, named: Option<Id>) {
    && (forall i :: 0 <= i < |c.models| ==> c.models[i].id in db.access.models)
    && (if named.Some? && named.value != "" then
          exists i :: 0 <= i < |db.access.users| && db.access.users[i].id == named.value
        else |db.access.users| == 1)
  }

  // The backups made before a result.
  function Copies(r: Result): nat {
    match r
    case Applied => 2
    case Refused => 0
    case Raised(step) =>
      if step.ReadPlan? || step.InspectSchema? || step.FindOwner? || step.FirstBackup? then 0
      else if step.WriteResources? || step.CommitAll? then 2
      else 1
  }

  // What comes of it: a step that reads may raise first, and one that writes only if it is reached.
  ghost function Verdict(db: WebUi, c: Catalogue, named: Option<Id>, f: Option<Failure>): Result {
    if f.Some? && f.value.step in {ReadPlan, InspectSchema, FindOwner} then Raised(f.value.step)
    else if !CanApply(db, c, named) then Refused
    else if f.Some? then Raised(f.value.step)
    else Applied
  }

  // Backups have been added, and all of them copy the file.
  predicate BackedUp(before: seq<WebUi>, after: seq<WebUi>, file: WebUi) {
    before <= after && forall i :: |before| <= i < |after| ==> after[i] == file
  }

  // The dry run is ready exactly for such a file, and reports the provider as ready when its
  // setting lists the proxy and nothing else.
  lemma ReadyOnTables(db: WebUi, e: Export, c: Catalogue, named: Option<Id>, now: int)
    ensures var d, key := Predict(Some(db), Some(e), c, named, now), "openai.api_base_urls";
      && d.DryRun? && (ActivationReady(d) <==> CanApply(db, c, named))
      && (d.providerReady <==> key in db.config && db.config[key].value == ["http://model-proxy:8080/v1"])
    ensures ResolveOwner(db.access.users, named).Some? && MakePlan(db.access, c).missingModels == {} <==>
      CanApply(db, c, named)
  {
    var missing := MakePlan(db.access, c).missingModels;
    forall i | 0 <= i < |c.models| ensures c.models[i].id in missing <==> c.models[i].id !in db.access.models {
    }
    if missing != {} {
      var m :| m in missing;
    }
  }

  // The dry run counts rows exactly when the owner is known and is not the empty text: for each
  // exported item an insert when its id is not in the table, and an update when it is.
  lemma DryRunCounts(db: WebUi, e: Export, c: Catalogue, named: Option<Id>, now: int)
    ensures var d := Predict(Some(db), Some(e), c, named, now);
      && (d.counts.Some? <==>
            if named.Some? && named.value != "" then
              exists i :: 0 <= i < |db.access.users| && db.access.users[i].id == named.value
            else |db.access.users| == 1 && db.access.users[0].id != "")
      && (d.counts.Some? ==>
            && d.counts.value.knowledge == Counts(
                 |set i | 0 <= i < |e.knowledge| && e.knowledge[i].id !in db.resources.knowledge|,
                 |set i | 0 <= i < |e.knowledge| && e.knowledge[i].id in db.resources.knowledge|)
            && d.counts.value.tools == Counts(
                 |set i | 0 <= i < |e.tools| && e.tools[i].id !in db.resources.tools|,
                 |set i | 0 <= i < |e.tools| && e.tools[i].id in db.resources.tools|)
            && d.counts.value.memory == Counts(
                 |set i | 0 <= i < |e.preferences| && MemoryId(e, i) !in db.resources.memory|,
                 |set i | 0 <= i < |e.preferences| && MemoryId(e, i) in db.resources.memory|))
  {
    var owner := ResolveOwner(db.access.users, named);
    if owner.Some? && owner.value != "" {
      var rows := BuildRows(e, owner.value, now);
      CountsArePlaces(rows.knowledge, db.resources.knowledge.Keys);
      CountsArePlaces(rows.tools, db.resources.tools.Keys);
      CountsArePlaces(rows.memory, db.resources.memory.Keys);
      SamePlaces(e, rows, db.resources);
    }
  }

  function MemoryId(e: Export, i: int): Id
    requires 0 <= i < |e.preferences|
  {
    "freyja_native_memory_policy:" + e.preferences[i].name
  }

  lemma SamePlaces(e: Export, rows: Rows, t: Tables)
    requires |rows.knowledge| == |e.knowledge| && |rows.tools| == |e.tools| && |rows.memory| == |e.preferences|
    requires forall i :: 0 <= i < |e.knowledge| ==> rows.knowledge[i].key == e.knowledge[i].id
    requires forall i :: 0 <= i < |e.tools| ==> rows.tools[i].key == e.tools[i].id
    requires forall i :: 0 <= i < |e.preferences| ==> rows.memory[i].key == MemoryId(e, i)
    ensures Places(rows.knowledge, t.knowledge.Keys, false) ==
      (set i | 0 <= i < |e.knowledge| && e.knowledge[i].id !in t.knowledge)
    ensures Places(rows.knowledge, t.knowledge.Keys, true) ==
      (set i | 0 <= i < |e.knowledge| && e.knowledge[i].id in t.knowledge)
    ensures Places(rows.tools, t.tools.Keys, false) ==
      (set i | 0 <= i < |e.tools| && e.tools[i].id !in t.tools)
    ensures Places(rows.tools, t.tools.Keys, true) ==
      (set i | 0 <= i < |e.tools| && e.tools[i].id in t.tools)
    ensures Places(rows.memory, t.memory.Keys, false) ==
      (set i | 0 <= i < |e.preferences| && MemoryId(e, i) !in t.memory)
    ensures Places(rows.memory, t.memory.Keys, true) ==
      (set i | 0 <= i < |e.preferences| && MemoryId(e, i) in t.memory)
  {
  }

  // What it leaves, in the words of the file: the access rows of the plan under the script's own
  // owner, the provider's two settings, and the resources under the owner that was found.
  lemma OutcomeOnTables(db: WebUi, e: Export, c: Catalogue, named: Option<Id>, t: Times)
    requires CanApply(db, c, named)
    ensures ResolveOwner(db.access.users, named).Some?
    ensures var owner := if named.Some? && named.value != "" then named.value else db.access.users[0].id;
      var db' := Outcome(db, e, c, named, t);
      && db'.access == Apply(db.access, MakePlan(db.access, c), c, "d264d0df-d0b6-4f35-bd66-5d602e84aae4", t.access)
      && db'.config == db.config["openai.api_base_urls" := Setting(["http://model-proxy:8080/v1"], t.config)]
                                ["openai.api_keys" := Setting(["not-needed"], t.config)]
      && db'.resources == Upsert(db.resources, BuildRows(e, owner, t.resources))
  {
  }

  predicate WriteStep(step: Step) {
    !step.ReadPlan? && !step.InspectSchema? && !step.FindOwner?
  }

  predicate BindStep(step: Step) {
    step.BindAccess? || step.ConfigureUrls? || step.ConfigureKeys?
  }

  method BindAndConfigure(conn: Connection, c: Catalogue, p: Plan, t: Times, f: Option<Failure>) returns (r: Result)
    modifies conn`working
    ensures r == if f.Some? && BindStep(f.value.step) then Raised(f.value.step) else Applied
    ensures r.Applied? ==>
      conn.working == WebUi(Apply(old(conn.working).access, p, c, DEFAULT_OWNER, t.access),
                            Configured(old(conn.working).config, t.config), old(conn.working).resources)
  {
    if Fails(f, BindAccess) { conn.working := f.value.debris; return Raised(BindAccess); }
    conn.ApplyAccess(p, c, DEFAULT_OWNER, t.access);
    if Fails(f, ConfigureUrls) { conn.working := f.value.debris; return Raised(ConfigureUrls); }
    conn.Configure(BASE_URLS, DESIRED_URLS, t.config);
    if Fails(f, ConfigureKeys) { conn.working := f.value.debris; return Raised(ConfigureKeys); }
    conn.Configure(API_KEYS, DESIRED_KEYS, t.config);
    r := Applied;
  }

  method Finish(conn: Connection, rows: Rows, f: Option<Failure>) returns (r: Result)
    modifies conn`working, conn`committed
    ensures r == if f.Some? && (f.value.step.WriteResources? || f.value.step.CommitAll?)
      then Raised(f.value.step) else Applied
    ensures conn.committed ==
      if r.Applied? then old(conn.working).(resources := Upsert(old(conn.working).resources, rows))
        else old(conn.committed)
  {
    if Fails(f, WriteResources) { conn.working := f.value.debris; return Raised(WriteResources); }
    conn.UpsertResources(rows);
    if Fails(f, CommitAll) { conn.working := f.value.debris; return Raised(CommitAll); }
    conn.Commit();
    r := Applied;
  }

  // The writes and backups of one transaction, up to the first that raises.
  method Write(conn: Connection, e: Export, c: Catalogue, p: Plan, owner: Id, t: Times, f: Option<Failure>)
    returns (r: Result)
    requires conn.working == conn.committed
    modifies conn
    ensures r == if f.Some? && WriteStep(f.value.step) then Raised(f.value.step) else Applied
    ensures conn.committed ==
      if r.Applied? then Written(old(conn.committed), p, c, BuildRows(e, owner, t.resources), t)
        else old(conn.committed)
    ensures BackedUp(old(conn.backups), conn.backups, old(conn.committed))
    ensures |conn.backups| == |old(conn.backups)| + Copies(r)
  {
    if Fails(f, FirstBackup) { conn.working := f.value.debris; return Raised(FirstBackup); }
    conn.Backup();
    r := BindAndConfigure(conn, c, p, t, f);
    if r.Raised? { return; }
    if Fails(f, BuildResources) { conn.working := f.value.debris; return Raised(BuildResources); }
    var rows := BuildRows(e, owner, t.resources);
    if Fails(f, SecondBackup) { conn.working := f.value.debris; return Raised(SecondBackup); }
    conn.Backup();
    r := Finish(conn, rows, f);
  }

  // The body of the try block.
  method Statements(conn: Connection, e: Export, c: Catalogue, named: Option<Id>, t: Times, f: Option<Failure>)
    returns (r: Result)
    requires conn.working == conn.committed
    modifies conn
    ensures r == Verdict(old(conn.committed), c, named, f)
    ensures r.Applied? ==> ResolveOwner(old(conn.committed).access.users, named).Some?
    ensures conn.committed ==
      if r.Applied? then Outcome(old(conn.committed), e, c, named, t) else old(conn.committed)
    ensures BackedUp(old(conn.backups), conn.backups, old(conn.committed))
    ensures |conn.backups| == |old(conn.backups)| + Copies(r)
  {
    ReadyOnTables(conn.committed, e, c, named, t.resources);
    if Fails(f, ReadPlan) { return Raised(ReadPlan); }
    var p := PlanAccess(conn.working.access, c);
    if Fails(f, InspectSchema) { return Raised(InspectSchema); }
    if Fails(f, FindOwner) { return Raised(FindOwner); }
    var owner := ResolveOwner(conn.working.access.users, named);
    if p.missingModels != {} || owner.None? { return Refused; }
    r := Write(conn, e, c, p, owner.value, t, f);
  }

  // The activation is all or nothing: whatever step raises, and whatever it had written,
  // the file is either untouched or holds access, configuration and resources together.
  // Every backup, the one taken in mid-transaction included, is the file as it was before.
  // When no step raises it applies exactly when every agent has a row and the owner is known,
  // which is when the dry run of the same file is ready.
  method ApplyActivation(conn: Connection, e: Export, c: Catalogue, named: Option<Id>, t: Times, f: Option<Failure>)
    returns (r: Result)
    requires conn.working == conn.committed
    modifies conn
    ensures r == Verdict(old(conn.committed), c, named, f)
    ensures r.Applied? <==>
      f.None? && ActivationReady(Predict(Some(old(conn.committed)), Some(e), c, named, t.resources))
    ensures r.Applied? ==>
      ResolveOwner(old(conn.committed).access.users, named).Some? &&
      conn.committed == Outcome(old(conn.committed), e, c, named, t)
    ensures !r.Applied? ==> conn.committed == old(conn.committed)
    ensures BackedUp(old(conn.backups), conn.backups, old(conn.committed))
    ensures |conn.backups| == |old(conn.backups)| + Copies(r)
    ensures conn.working == conn.committed
  {
    ReadyOnTables(conn.committed, e, c, named, t.resources);
    r := Statements(conn, e, c, named, t, f);
    conn.Close();
  }

  // main: apply only when the dry run is ready.
  method Activate(conn: Connection, e: Option<Export>, c: Catalogue, named: Option<Id>, t: Times, apply: bool,
                  f: Option<Failure>)
    returns (ready: bool, r: Result)
    requires conn.working == conn.committed
    modifies conn
    ensures ready == ActivationReady(Predict(Some(old(conn.committed)), e, c, named, t.resources))
    ensures ready == (e.Some? && CanApply(old(conn.committed), c, named))
    ensures r == if apply && ready then Verdict(old(conn.committed), c, named, f) else Refused
    ensures !r.Applied? ==> conn.committed == old(conn.committed)
    ensures |conn.backups| == |old(conn.backups)| + Copies(r)
    ensures conn.working == conn.committed
  {
    var d := BuildActivationPlan(Some(conn.working), e, c, named, t.resources);
    ready := ActivationReady(d);
    if e.Some? { ReadyOnTables(conn.committed, e.value, c, named, t.resources); }
    r := Refused;
    if apply && ready {
      r := ApplyActivation(conn, e.value, c, named, t, f);
    }
  }

  // ---- what an activation leaves ------------------------------------------------------------

  lemma {:induction false} AllKnown<K, R>(rows: seq<Row<K, R>>, known: set<K>)
    requires forall i :: 0 <= i < |rows| ==> rows[i].key in known
    ensures CountNew(rows, known) == 0 && CountKnown(rows, known) == |rows|
  {
    if rows != [] { AllKnown(rows[..|rows| - 1], known); }
  }

  lemma UpsertedKnown<K, R>(table: map<K, R>, rows: seq<Row<K, R>>, again: seq<Row<K, R>>, merge: (R, R) -> R)
    requires |again| == |rows| && forall i :: 0 <= i < |rows| ==> again[i].key == rows[i].key
    ensures CountNew(again, UpsertAll(table, rows, merge).Keys) == 0
    ensures CountKnown(again, UpsertAll(table, rows, merge).Keys) == |rows|
  {
    forall i | 0 <= i < |again| ensures again[i].key in UpsertAll(table, rows, merge).Keys {
      UpsertKeys(table, rows, merge, again[i].key);
      assert rows[i].key == again[i].key;
    }
    AllKnown(again, UpsertAll(table, rows, merge).Keys);
  }

  // A dry run after an activation finds everything in place: no access row and no resource
  // row to insert, the provider configured, and the activation still ready.
  lemma ActivationSettles(db: WebUi, e: Export, c: Catalogue, named: Option<Id>, t: Times, later: int)
    requires ActivationReady(Predict(Some(db), Some(e), c, named, t.resources))
    ensures var owner := ResolveOwner(db.access.users, named).value;
      var next := Predict(Some(Activated(db, e, c, owner, t)), Some(e), c, named, later);
      && ActivationReady(next) && next.providerReady && next.owner == Some(owner)
      && next.access.groupInserts == [] && next.access.memberInserts == [] && next.access.grantInserts == []
      && (next.counts.Some? ==>
            next.counts.value == ResourceCounts(Counts(0, |e.knowledge|), Counts(0, |e.tools|),
                                                Counts(0, |e.preferences|)))
  {
    var owner := ResolveOwner(db.access.users, named).value;
    assert BASE_URLS[11] != API_KEYS[11];
    AccessResults.ApplyConverges(db.access, c, DEFAULT_OWNER, t.access);
    var rows, again := BuildRows(e, owner, t.resources), BuildRows(e, owner, later);
    UpsertedKnown(db.resources.knowledge, rows.knowledge, again.knowledge, KeepKnowledge);
    UpsertedKnown(db.resources.tools, rows.tools, again.tools, KeepTool);
    UpsertedKnown(db.resources.memory, rows.memory, again.memory, KeepMemory);
  }
}
