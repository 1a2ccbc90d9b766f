/** The Open WebUI resource rows: exported Knowledge, tools and native-memory policy. */
module Resources {
  import opened Wrappers
  import opened TextOrder
  import opened KeyedTable
  import opened AccessPlan

  // ---- the three tables ------------------------------------------------------------------

  datatype Knowledge = Knowledge(owner: Id, name: string, description: string, meta: string, data: string,
                                 createdAt: int, updatedAt: int)

  datatype ToolSpec = ToolSpec(name: string, operation: string)

  datatype Tool = Tool(owner: Id, name: string, content: string, specs: seq<ToolSpec>, meta: string, valves: string,
                       createdAt: int, updatedAt: int)

  datatype PolicyMeta = PolicyMeta(policy: string, scope: string, userKey: string)

  datatype Memory = Memory(owner: Id, content: string, kind: string, path: Option<string>, meta: PolicyMeta,
                           createdAt: int, updatedAt: int)

  datatype Tables = Tables(knowledge: map<Id, Knowledge>, tools: map<Id, Tool>, memory: map<Id, Memory>)

  // ---- the export ---------------------------------------------------------------------------

  datatype KnowledgeItem = KnowledgeItem(id: Id, name: string, description: string, meta: string, data: string)

  datatype ToolItem = ToolItem(id: Id, name: string, operations: seq<string>, meta: string)

  datatype Preference = Preference(name: string, scope: string)

  // Preferences are the items of a dictionary in name order.
  datatype Export = Export(knowledge: seq<KnowledgeItem>, tools: seq<ToolItem>, policy: string,
                           preferences: seq<Preference>)

  ghost predicate SortedNames(e: Export) {
    forall i, j :: 0 <= i < j < |e.preferences| ==> StrLt(e.preferences[i].name, e.preferences[j].name)
  }

  // ---- rows -----------------------------------------------------------------------------------

  datatype Rows = Rows(knowledge: seq<Row<Id, Knowledge>>, tools: seq<Row<Id, Tool>>, memory: seq<Row<Id, Memory>>)

  const TOOL_BOUNDARY :=
    "# Freyja managed tool boundary. Configure the live OpenAPI/MCP adapter in Open WebUI before enabling."
  const TOOL_VALVES := "{\"enabled\": false, \"managed_by\": \"freyja-home-agent\"}"
  const MEMORY_PREFIX := "freyja_native_memory_policy:"

  function Underscored(s: string): string {
    seq(|s|, i requires 0 <= i < |s| => if s[i] == '-' then '_' else s[i])
  }

  function ToolSpecs(operations: seq<string>): seq<ToolSpec> {
    seq(|operations|, i requires 0 <= i < |operations| => ToolSpec(Underscored(operations[i]), operations[i]))
  }

  function KnowledgeRow(item: KnowledgeItem, owner: Id, now: int): Row<Id, Knowledge> {
    Row(item.id, Knowledge(owner, item.name, item.description, item.meta, item.data, now, now))
  }

  function ToolRow(item: ToolItem, owner: Id, now: int): Row<Id, Tool> {
    Row(item.id, Tool(owner, item.name, TOOL_BOUNDARY, ToolSpecs(item.operations), item.meta, TOOL_VALVES, now, now))
  }

  function MemoryRow(p: Preference, policy: string, owner: Id, now: int): Row<Id, Memory> {
    Row(MEMORY_PREFIX + p.name,
        Memory(owner, "Freyja native memory scope for " + p.name + ": " + p.scope + ".", "context", None,
               PolicyMeta(policy, p.scope, p.name), now, now))
  }

  function BuildRows(e: Export, owner: Id, now: int): Rows {
    Rows(
      seq(|e.knowledge|, i requires 0 <= i < |e.knowledge| => KnowledgeRow(e.knowledge[i], owner, now)),
      seq(|e.tools|, i requires 0 <= i < |e.tools| => ToolRow(e.tools[i], owner, now)),
      seq(|e.preferences|, i requires 0 <= i < |e.preferences| => MemoryRow(e.preferences[i], e.policy, owner, now)))
  }

  // The owner named, if there is such a user; with none named, the only user there is.
  function ResolveOwner(users: seq<User>, named: Option<Id>): Option<Id> {
    if named.Some? && named.value != "" then
      if exists i :: 0 <= i < |users| && users[i].id == named.value then Some(named.value) else None
    else if |users| == 1 then Some(users[0].id)
    else None
  }

  // ---- the upsert --------------------------------------------------------------------------------

  function KeepKnowledge(had: Knowledge, row: Knowledge): Knowledge {
    row.(createdAt := had.createdAt)
  }

  function KeepTool(had: Tool, row: Tool): Tool {
    row.(createdAt := had.createdAt)
  }

  function KeepMemory(had: Memory, row: Memory): Memory {
    row.(createdAt := had.createdAt)
  }

  function Upsert(t: Tables, rows: Rows): Tables {
    Tables(UpsertAll(t.knowledge, rows.knowledge, KeepKnowledge),
           UpsertAll(t.tools, rows.tools, KeepTool),
           UpsertAll(t.memory, rows.memory, KeepMemory))
  }

  // The dry run's counts for one table: rows whose id is not there, and rows whose id is.
  method CountRows<R>(rows: seq<Row<Id, R>>, existing: set<Id>) returns (inserts: nat, updates: nat)
    ensures inserts == CountNew(rows, existing) && updates == CountKnown(rows, existing)
    ensures inserts + updates == |rows|
  {
    inserts, updates := 0, 0;
    for k := 0 to |rows|
      invariant inserts == CountNew(rows[..k], existing) && updates == CountKnown(rows[..k], existing)
    {
      assert rows[..k + 1][..k] == rows[..k];
      if rows[k].key in existing {
        updates := updates + 1;
      } else {
        inserts := inserts + 1;
      }
    }
    assert rows[..|rows|] == rows;
    CountsAddUp(rows, existing);
  }

  lemma ResourceMergesAreLawful()
    ensures LastWins(KeepKnowledge) && LastWins(KeepTool) && LastWins(KeepMemory)
  {
  }

  // Repeating the upsert with the same rows is the identity, repeated ids included.
  lemma UpsertTwice(t: Tables, rows: Rows)
    ensures Upsert(Upsert(t, rows), rows) == Upsert(t, rows)
  {
    ResourceMergesAreLawful();
    UpsertAgain(t.knowledge, rows.knowledge, KeepKnowledge);
    UpsertAgain(t.tools, rows.tools, KeepTool);
    UpsertAgain(t.memory, rows.memory, KeepMemory);
  }

  ghost predicate Unrelated(rows: Rows, id: Id) {
    !Mentions(rows.knowledge, id) && !Mentions(rows.tools, id) && !Mentions(rows.memory, id)
  }

  lemma UnrelatedUntouched(t: Tables, rows: Rows, id: Id)
    requires Unrelated(rows, id)
    ensures var t' := Upsert(t, rows);
      && Lookup(t'.knowledge, id) == Lookup(t.knowledge, id)
      && Lookup(t'.tools, id) == Lookup(t.tools, id)
      && Lookup(t'.memory, id) == Lookup(t.memory, id)
  {
    UpsertKeys(t.knowledge, rows.knowledge, KeepKnowledge, id);
    UpsertKeys(t.tools, rows.tools, KeepTool, id);
    UpsertKeys(t.memory, rows.memory, KeepMemory, id);
  }

  // An existing row keeps its creation time whatever is upserted over it.
  lemma CreationKept(t: Tables, rows: Rows, id: Id)
    ensures var t' := Upsert(t, rows);
      && (id in t.knowledge ==> id in t'.knowledge && t'.knowledge[id].createdAt == t.knowledge[id].createdAt)
      && (id in t.tools ==> id in t'.tools && t'.tools[id].createdAt == t.tools[id].createdAt)
      && (id in t.memory ==> id in t'.memory && t'.memory[id].createdAt == t.memory[id].createdAt)
  {
    ResourceMergesAreLawful();
    UpsertKeys(t.knowledge, rows.knowledge, KeepKnowledge, id);
    UpsertKeys(t.tools, rows.tools, KeepTool, id);
    UpsertKeys(t.memory, rows.memory, KeepMemory, id);
    if Mentions(rows.knowledge, id) { UpsertRow(t.knowledge, rows.knowledge, KeepKnowledge, id); }
    if Mentions(rows.tools, id) { UpsertRow(t.tools, rows.tools, KeepTool, id); }
    if Mentions(rows.memory, id) { UpsertRow(t.memory, rows.memory, KeepMemory, id); }
    var t' := Upsert(t, rows);
    assert id in t'.knowledge ==> Lookup(t'.knowledge, id) == Some(t'.knowledge[id]);
    assert id in t'.tools ==> Lookup(t'.tools, id) == Some(t'.tools[id]);
    assert id in t'.memory ==> Lookup(t'.memory, id) == Some(t'.memory[id]);
  }

  lemma MemoryIdsDistinct(e: Export, owner: Id, now: int)
    requires SortedNames(e)
    ensures DistinctKeys(BuildRows(e, owner, now).memory)
  {
    var rows := BuildRows(e, owner, now).memory;
    forall i, j | 0 <= i < j < |rows| ensures rows[i].key != rows[j].key {
      var a, b := e.preferences[i].name, e.preferences[j].name;
      assert StrLt(a, b);
      assert (MEMORY_PREFIX + a)[|MEMORY_PREFIX|..] == a && (MEMORY_PREFIX + b)[|MEMORY_PREFIX|..] == b;
    }
  }

  // No id that is new to the table is exported twice.
  ghost predicate NewIdsDistinct(t: Tables, rows: Rows) {
    NewKeysDistinct(rows.knowledge, t.knowledge.Keys) && NewKeysDistinct(rows.tools, t.tools.Keys)
  }

  // The predicted inserts are the growth of all three tables if and only if no new id is
  // exported twice. The memory ids come from dictionary keys, so that table always agrees.
  lemma GrowthAsPredicted(t: Tables, e: Export, owner: Id, now: int)
    requires SortedNames(e)
    ensures var rows := BuildRows(e, owner, now); var t' := Upsert(t, rows);
      && |t'.memory| == |t.memory| + CountNew(rows.memory, t.memory.Keys)
      && ((|t'.knowledge| == |t.knowledge| + CountNew(rows.knowledge, t.knowledge.Keys) &&
           |t'.tools| == |t.tools| + CountNew(rows.tools, t.tools.Keys)) <==> NewIdsDistinct(t, rows))
  {
    var rows := BuildRows(e, owner, now);
    MemoryIdsDistinct(e, owner, now);
    Growth(t.memory, rows.memory, KeepMemory);
    Growth(t.knowledge, rows.knowledge, KeepKnowledge);
    Growth(t.tools, rows.tools, KeepTool);
  }

  // With distinct ids every exported item ends in its table, under the resolved owner.
  lemma ExportedKnowledgeLands(t: Tables, e: Export, owner: Id, now: int, i: nat)
    requires DistinctKeys(BuildRows(e, owner, now).knowledge) && i < |e.knowledge|
    ensures var t', item := Upsert(t, BuildRows(e, owner, now)), e.knowledge[i];
      && item.id in t'.knowledge
      && t'.knowledge[item.id] == Knowledge(owner, item.name, item.description, item.meta, item.data,
           if item.id in t.knowledge then t.knowledge[item.id].createdAt else now, now)
  {
    var rows := BuildRows(e, owner, now).knowledge;
    ResourceMergesAreLawful();
    assert rows[i] == KnowledgeRow(e.knowledge[i], owner, now);
    UpsertDistinct(t.knowledge, rows, KeepKnowledge, i);
    assert Lookup(Upsert(t, BuildRows(e, owner, now)).knowledge, e.knowledge[i].id).Some?;
  }

  // One spec for each operation, named after it with underscores for dashes.
  ghost predicate SpecifiesEach(specs: seq<ToolSpec>, operations: seq<string>) {
    |specs| == |operations| && forall i :: 0 <= i < |specs| ==>
      && specs[i].operation == operations[i] && |specs[i].name| == |operations[i]|
      && forall k :: 0 <= k < |operations[i]| ==>
           specs[i].name[k] == if operations[i][k] == '-' then '_' else operations[i][k]
  }

  // A tool ends disabled behind the managed boundary, with one spec for each operation.
  lemma ExportedToolLands(t: Tables, e: Export, owner: Id, now: int, i: nat)
    requires DistinctKeys(BuildRows(e, owner, now).tools) && i < |e.tools|
    ensures var t', item := Upsert(t, BuildRows(e, owner, now)), e.tools[i];
      && item.id in t'.tools && SpecifiesEach(t'.tools[item.id].specs, item.operations)
      && t'.tools[item.id] == Tool(owner, item.name,
           "# Freyja managed tool boundary. Configure the live OpenAPI/MCP adapter in Open WebUI before enabling.",
           t'.tools[item.id].specs, item.meta, "{\"enabled\": false, \"managed_by\": \"freyja-home-agent\"}",
           if item.id in t.tools then t.tools[item.id].createdAt else now, now)
  {
    var rows := BuildRows(e, owner, now).tools;
    ResourceMergesAreLawful();
    assert rows[i] == ToolRow(e.tools[i], owner, now);
    UpsertDistinct(t.tools, rows, KeepTool, i);
    assert Lookup(Upsert(t, BuildRows(e, owner, now)).tools, e.tools[i].id).Some?;
  }

  // A preference ends in the memory table, as one sentence of context without a path, under
  // the id made from its name; no two share one.
  lemma ExportedPreferenceLands(t: Tables, e: Export, owner: Id, now: int, i: nat)
    requires SortedNames(e) && i < |e.preferences|
    ensures var t', p := Upsert(t, BuildRows(e, owner, now)), e.preferences[i];
      var id := "freyja_native_memory_policy:" + p.name;
      && id in t'.memory
      && t'.memory[id] == Memory(owner, "Freyja native memory scope for " + p.name + ": " + p.scope + ".",
           "context", None,
           PolicyMeta(e.policy, p.scope, p.name), if id in t.memory then t.memory[id].createdAt else now, now)
  {
    var rows := BuildRows(e, owner, now).memory;
    ResourceMergesAreLawful();
    MemoryIdsDistinct(e, owner, now);
    assert rows[i] == MemoryRow(e.preferences[i], e.policy, owner, now);
    UpsertDistinct(t.memory, rows, KeepMemory, i);
    assert Lookup(Upsert(t, BuildRows(e, owner, now)).memory, MEMORY_PREFIX + e.preferences[i].name).Some?;
  }
}
