/** A SQLite connection to the Open WebUI database: the committed file and this transaction.
  *
  * Statements change only the working copy. A commit makes it the file; closing without one
  * throws it away. A backup opens its own connection, so it copies the file as committed.
  */
module WebUiConnection {
  import opened Wrappers
  import opened KeyedTable
  import opened AccessPlan
  import opened HomeAccess
  import opened Resources

  // A configuration entry whose value is a list of texts.
  datatype Setting = Setting(value: seq<string>, updatedAt: int)

  datatype WebUi = WebUi(access: AccessDb, config: map<string, Setting>, resources: Tables)

  // ---- planning reads --------------------------------------------------------------------

  // _load_users: one pass over the accounts, the first answer wins.
  method LoadUsers(users: seq<User>, c: Catalogue) returns (byGroup: map<Id, Id>)
    ensures byGroup == UsersByGroup(users, c)
    ensures forall g :: g in byGroup <==> IsGroup(c, g) && exists i :: EarliestNamed(users, g, i)
    ensures forall g :: g in byGroup ==> UserOf(users, g, byGroup[g])
  {
    byGroup := map[];
    for k := 0 to |users|
      invariant forall g :: g in byGroup <==> IsGroup(c, g) && FirstUser(users[..k], g).Some?
      invariant forall g :: g in byGroup ==> FirstUser(users[..k], g) == Some(byGroup[g])
    {
      var user := users[k];
      ghost var before := byGroup;
      for n := 0 to |c.groups|
        invariant forall g :: g in byGroup <==>
          g in before || (Answers(user, g) && exists i :: 0 <= i < n && c.groups[i].id == g)
        invariant forall g :: g in byGroup ==> byGroup[g] == if g in before then before[g] else user.id
      {
        var g := c.groups[n].id;
        if Answers(user, g) && g !in byGroup {
          byGroup := byGroup[g := user.id];
        }
      }
      forall g ensures FirstUser(users[..k + 1], g) == FirstUser(users[..k], g).OrElse(AnswerOf(user, g)) {
        OneMoreUser(users, k, g);
      }
    }
    assert users[..|users|] == users;
    forall g ensures FirstUser(users, g).Some? <==> exists i :: EarliestNamed(users, g, i) {
      StandsFor(users, g);
    }
    forall g | g in byGroup ensures UserOf(users, g, byGroup[g]) { UserOfIsFirst(users, g, byGroup[g]); }
  }

  function AnswerOf(user: User, g: Id): Option<Id> {
    if Answers(user, g) then Some(user.id) else None
  }

  lemma OneMoreUser(users: seq<User>, k: nat, g: Id)
    requires k < |users|
    ensures FirstUser(users[..k + 1], g) == FirstUser(users[..k], g).OrElse(AnswerOf(users[k], g))
  {
    assert users[..k + 1] == users[..k] + [users[k]];
    NewUsersComeLater(users[..k], [users[k]], g);
    assert [users[k]][1..] == [];
  }

  method PlanAccess(db: AccessDb, c: Catalogue) returns (p: Plan)
    ensures p == MakePlan(db, c)
  {
    var groupInserts := ListGroups(db, c);
    var users := LoadUsers(db.users, c);
    var memberInserts := ListMembers(db, c, users);
    var grantInserts := ListGrants(db, c.models);
    var missingUsers := set i | 0 <= i < |c.groups| && c.groups[i].id !in users :: c.groups[i].id;
    assert forall i :: 0 <= i < |c.groups| ==> (c.groups[i].id in users <==> FirstUser(db.users, c.groups[i].id).Some?);
    p := Plan(missingUsers, set i | 0 <= i < |c.models| && c.models[i].id !in db.models :: c.models[i].id,
              groupInserts, memberInserts, grantInserts);
  }

  method ListGroups(db: AccessDb, c: Catalogue) returns (inserts: seq<Id>)
    ensures inserts == GroupInserts(db.groups, c.groups)
  {
    inserts := [];
    for n := 0 to |c.groups|
      invariant inserts == GroupInserts(db.groups, c.groups[..n])
    {
      assert c.groups[..n + 1][..n] == c.groups[..n];
      if c.groups[n].id !in db.groups { inserts := inserts + [c.groups[n].id]; }
    }
    assert c.groups[..|c.groups|] == c.groups;
  }

  method ListMembers(db: AccessDb, c: Catalogue, users: map<Id, Id>) returns (inserts: seq<Member>)
    requires users == UsersByGroup(db.users, c)
    ensures inserts == MemberInserts(db, c.groups)
  {
    inserts := [];
    for n := 0 to |c.groups|
      invariant inserts == MemberInserts(db, c.groups[..n])
    {
      assert c.groups[..n + 1][..n] == c.groups[..n];
      var g := c.groups[n].id;
      assert g in users <==> FirstUser(db.users, g).Some?;
      if g in users && Member(g, users[g]) !in db.members {
        inserts := inserts + [Member(g, users[g])];
      }
    }
    assert c.groups[..|c.groups|] == c.groups;
  }

  // The nested loop over models and their groups; a model without a row is skipped.
  method ListGrants(db: AccessDb, models: seq<HomeModel>) returns (inserts: seq<Grant>)
    ensures inserts == GrantInserts(db, models)
  {
    inserts := [];
    for n := 0 to |models|
      invariant inserts == GrantInserts(db, models[..n])
    {
      assert models[..n + 1][..n] == models[..n];
      var m := models[n];
      if m.id in db.models {
        ghost var before := inserts;
        for i := 0 to |m.groups|
          invariant inserts == before + ModelGrants(db.grants, m.id, m.groups[..i])
        {
          assert m.groups[..i + 1][..i] == m.groups[..i];
          var key := ReadGrant(m.id, m.groups[i]);
          if key !in db.grants { inserts := inserts + [key]; }
        }
        assert m.groups[..|m.groups|] == m.groups;
      }
    }
    assert models[..|models|] == models;
  }

  // ---- the connection -------------------------------------------------------------------------

  class Connection {
    var committed: WebUi
    var working: WebUi
    var backups: seq<WebUi>

    constructor (file: WebUi)
      ensures committed == working == file && backups == []
    {
      committed, working, backups := file, file, [];
    }

    method Backup()
      modifies this`backups
      ensures backups == old(backups) + [committed]
    {
      backups := backups + [committed];
    }

    method Commit()
      modifies this`committed
      ensures committed == working
    {
      committed := working;
    }

    // Closing rolls an open transaction back.
    method Close()
      modifies this`working
      ensures working == committed
    {
      working := committed;
    }

    method ApplyAccess(p: Plan, c: Catalogue, owner: Id, now: int)
      modifies this`working
      ensures working == old(working).(access := Apply(old(working).access, p, c, owner, now))
    {
      var groups := ExecuteMany(working.access.groups, GroupRows(c.groups, owner, now), KeepOwner);
      working := working.(access := working.access.(groups := groups));
      var members := ExecuteMany(working.access.members, MemberRows(p.memberInserts, now), KeepCreation);
      working := working.(access := working.access.(members := members));
      var grants := ExecuteMany(working.access.grants, GrantRows(p.grantInserts, now), DoNothing);
      working := working.(access := working.access.(grants := grants));
    }

    method Configure(key: string, value: seq<string>, now: int)
      modifies this`working
      ensures working == old(working).(config := old(working).config[key := Setting(value, now)])
    {
      working := working.(config := working.config[key := Setting(value, now)]);
    }

    method UpsertResources(rows: Rows)
      modifies this`working
      ensures working == old(working).(resources := Upsert(old(working).resources, rows))
    {
      var knowledge := ExecuteMany(working.resources.knowledge, rows.knowledge, KeepKnowledge);
      working := working.(resources := working.resources.(knowledge := knowledge));
      var tools := ExecuteMany(working.resources.tools, rows.tools, KeepTool);
      working := working.(resources := working.resources.(tools := tools));
      var memory := ExecuteMany(working.resources.memory, rows.memory, KeepMemory);
      working := working.(resources := working.resources.(memory := memory));
    }
  }
}
