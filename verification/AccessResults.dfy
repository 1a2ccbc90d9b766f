/** What applying an access plan achieves, on any database and for a plan of any age. */
module AccessResults {
  import opened Wrappers
  import opened KeyedTable
  import opened AccessPlan

  lemma AccessMergesAreLawful()
    ensures LastWins(KeepOwner) && LastWins(KeepCreation) && LastWins(DoNothing)
  {
  }

  // ---- keys after an application ---------------------------------------------------------

  lemma MentionedGroups(c: Catalogue, owner: Id, now: int, g: Id)
    ensures Mentions(GroupRows(c.groups, owner, now), g) <==> IsGroup(c, g)
  {
    var rows := GroupRows(c.groups, owner, now);
    assert forall i :: 0 <= i < |rows| ==> rows[i].key == c.groups[i].id;
  }

  lemma MentionedMembers(keys: seq<Member>, now: int, k: Member)
    ensures Mentions(MemberRows(keys, now), k) <==> k in keys
  {
    var rows := MemberRows(keys, now);
    assert forall i :: 0 <= i < |rows| ==> rows[i].key == keys[i];
  }

  lemma MentionedGrants(keys: seq<Grant>, now: int, k: Grant)
    ensures Mentions(GrantRows(keys, now), k) <==> k in keys
  {
    var rows := GrantRows(keys, now);
    assert forall i :: 0 <= i < |rows| ==> rows[i].key == keys[i];
  }

  lemma AppliedKeys(db: AccessDb, p: Plan, c: Catalogue, owner: Id, now: int)
    ensures var db' := Apply(db, p, c, owner, now);
      && (forall g :: g in db'.groups <==> g in db.groups || IsGroup(c, g))
      && (forall k :: k in db'.members <==> k in db.members || k in p.memberInserts)
      && (forall k :: k in db'.grants <==> k in db.grants || k in p.grantInserts)
  {
    var db' := Apply(db, p, c, owner, now);
    forall g ensures g in db'.groups <==> g in db.groups || IsGroup(c, g) {
      UpsertKeys(db.groups, GroupRows(c.groups, owner, now), KeepOwner, g);
      MentionedGroups(c, owner, now, g);
    }
    forall k ensures k in db'.members <==> k in db.members || k in p.memberInserts {
      UpsertKeys(db.members, MemberRows(p.memberInserts, now), KeepCreation, k);
      MentionedMembers(p.memberInserts, now, k);
    }
    forall k ensures k in db'.grants <==> k in db.grants || k in p.grantInserts {
      UpsertKeys(db.grants, GrantRows(p.grantInserts, now), DoNothing, k);
      MentionedGrants(p.grantInserts, now, k);
    }
  }

  // ---- rows after an application ------------------------------------------------------------

  // No row is deleted. Members and grants that the plan does not insert are untouched, a
  // grant is never rewritten, and a group keeps its owner and creation time.
  ghost predicate RowsKept(db: AccessDb, p: Plan, c: Catalogue, db': AccessDb) {
    && db'.users == db.users && db'.models == db.models
    && db.groups.Keys <= db'.groups.Keys && db.members.Keys <= db'.members.Keys
    && (forall g :: g in db.groups ==>
          if IsGroup(c, g) then
            db'.groups[g].owner == db.groups[g].owner && db'.groups[g].createdAt == db.groups[g].createdAt
          else db'.groups[g] == db.groups[g])
    && (forall k :: k in db.members ==>
          if k in p.memberInserts then db'.members[k].createdAt == db.members[k].createdAt
            else db'.members[k] == db.members[k])
    && (forall k :: k in db.grants ==> k in db'.grants && db'.grants[k] == db.grants[k])
  }

  lemma AppliedRows(db: AccessDb, p: Plan, c: Catalogue, owner: Id, now: int)
    ensures RowsKept(db, p, c, Apply(db, p, c, owner, now))
  {
    var db' := Apply(db, p, c, owner, now);
    AccessMergesAreLawful();
    AppliedKeys(db, p, c, owner, now);
    forall g | g in db.groups
      ensures if IsGroup(c, g) then
        db'.groups[g].owner == db.groups[g].owner && db'.groups[g].createdAt == db.groups[g].createdAt
              else db'.groups[g] == db.groups[g]
    {
      GroupRowKept(db, p, c, owner, now, g);
    }
    forall k | k in db.members
      ensures if k in p.memberInserts
        then db'.members[k].createdAt == db.members[k].createdAt else db'.members[k] == db.members[k]
    {
      var rows := MemberRows(p.memberInserts, now);
      MentionedMembers(p.memberInserts, now, k);
      UpsertKeys(db.members, rows, KeepCreation, k);
      if Mentions(rows, k) { UpsertRow(db.members, rows, KeepCreation, k); }
      assert Lookup(db'.members, k) == Some(db'.members[k]);
    }
    forall k | k in db.grants ensures db'.grants[k] == db.grants[k] {
      var rows := GrantRows(p.grantInserts, now);
      UpsertKeys(db.grants, rows, DoNothing, k);
      if Mentions(rows, k) { UpsertRow(db.grants, rows, DoNothing, k); }
      assert Lookup(db'.grants, k) == Some(db'.grants[k]);
    }
  }

  lemma GroupRowKept(db: AccessDb, p: Plan, c: Catalogue, owner: Id, now: int, g: Id)
    requires g in db.groups
    ensures g in Apply(db, p, c, owner, now).groups
    ensures var row := Apply(db, p, c, owner, now).groups[g];
      if IsGroup(c, g) then
        row.owner == db.groups[g].owner && row.createdAt == db.groups[g].createdAt && row.updatedAt == now
      else row == db.groups[g]
  {
    var rows := GroupRows(c.groups, owner, now);
    var db' := Apply(db, p, c, owner, now);
    AccessMergesAreLawful();
    MentionedGroups(c, owner, now, g);
    UpsertKeys(db.groups, rows, KeepOwner, g);
    if Mentions(rows, g) {
      UpsertRow(db.groups, rows, KeepOwner, g);
      LastStamp(c.groups, owner, now, g);
    }
    assert Lookup(db'.groups, g) == Some(db'.groups[g]);
  }

  lemma {:induction false} LastStamp(listed: seq<HomeGroup>, owner: Id, now: int, g: Id)
    requires Mentions(GroupRows(listed, owner, now), g)
    ensures LastFor(GroupRows(listed, owner, now), g).updatedAt == now
    decreases |listed|
  {
    var n := |listed| - 1;
    var rows := GroupRows(listed, owner, now);
    if rows[n].key != g {
      var i :| 0 <= i < |rows| && rows[i].key == g;
      assert rows[..n] == GroupRows(listed[..n], owner, now);
      assert rows[..n][i].key == g;
      LastStamp(listed[..n], owner, now, g);
    }
  }

  // The group's descriptive columns are the catalogue's, whatever they were before.
  lemma GroupProfileApplied(db: AccessDb, p: Plan, c: Catalogue, owner: Id, now: int, i: nat)
    requires WellFormed(c) && i < |c.groups|
    ensures var db' := Apply(db, p, c, owner, now);
      c.groups[i].id in db'.groups && db'.groups[c.groups[i].id].profile == c.groups[i].profile
  {
    var rows := GroupRows(c.groups, owner, now);
    AccessMergesAreLawful();
    assert forall j :: 0 <= j < |rows| ==> rows[j].key == c.groups[j].id;
    UpsertDistinct(db.groups, rows, KeepOwner, i);
    assert Lookup(Apply(db, p, c, owner, now).groups, c.groups[i].id).Some?;
  }

  // ---- a plan applied to a database that has grown -----------------------------------------

  // Other programs have only added rows: accounts at the end, models, groups, members, grants.
  ghost predicate Grown(earlier: AccessDb, later: AccessDb) {
    && earlier.users <= later.users && earlier.models <= later.models
    && earlier.groups.Keys <= later.groups.Keys
    && earlier.members.Keys <= later.members.Keys
    && earlier.grants.Keys <= later.grants.Keys
  }

  lemma FirstUserKept(earlier: seq<User>, later: seq<User>, g: Id)
    requires earlier <= later && FirstUser(earlier, g).Some?
    ensures FirstUser(later, g) == FirstUser(earlier, g)
  {
    assert later == earlier + later[|earlier|..];
    NewUsersComeLater(earlier, later[|earlier|..], g);
  }

  // A stale plan gives the grown database plus every row that was required when it was made:
  // the rows already there then are still there, so nothing required is missed. Each key
  // occurs once, because the tables are keyed by it.
  lemma StalePlanIsUnion(planned: AccessDb, db: AccessDb, c: Catalogue, owner: Id, now: int)
    requires Grown(planned, db)
    ensures var db' := Apply(db, MakePlan(planned, c), c, owner, now);
      && RowsKept(db, MakePlan(planned, c), c, db')
      && (forall g :: g in db'.groups <==> g in db.groups || IsGroup(c, g))
      && (forall k :: k in db'.members <==> k in db.members || RequiredMember(planned.users, c, k))
      && (forall k :: k in db'.grants <==> k in db.grants || RequiredGrant(planned.models, c, k))
  {
    PlanHolds(planned, c);
    AppliedKeys(db, MakePlan(planned, c), c, owner, now);
    AppliedRows(db, MakePlan(planned, c), c, owner, now);
  }

  lemma SomeMember<T>(s: seq<T>)
    ensures s == [] || exists x :: x in s
  {
    if s != [] { assert s[0] in s; }
  }

  // What a new plan would still insert concerns only accounts and models that have arrived
  // since the old plan was made.
  lemma StalePlanLeavesOnlyNewcomers(planned: AccessDb, db: AccessDb, c: Catalogue, owner: Id, now: int)
    requires Grown(planned, db)
    ensures var next := MakePlan(Apply(db, MakePlan(planned, c), c, owner, now), c);
      && next.groupInserts == []
      && (forall k :: k in next.memberInserts ==> k.groupId in MakePlan(planned, c).missingUsers)
      && (forall k :: k in next.grantInserts ==> k.resourceId in MakePlan(planned, c).missingModels)
  {
    var db' := Apply(db, MakePlan(planned, c), c, owner, now);
    var next := MakePlan(db', c);
    StalePlanIsUnion(planned, db, c, owner, now);
    PlanHolds(planned, c);
    PlanHolds(db', c);
    SomeMember(next.groupInserts);
    forall k | k in next.memberInserts ensures k.groupId in MakePlan(planned, c).missingUsers {
      if FirstUser(planned.users, k.groupId).Some? { FirstUserKept(planned.users, db.users, k.groupId); }
    }
    forall k | k in next.grantInserts ensures k.resourceId in MakePlan(planned, c).missingModels {
      var i :| 0 <= i < |c.models| && c.models[i].id == k.resourceId && k.principalId in c.models[i].groups;
      assert IsModel(c, k.resourceId);
    }
  }

  // ---- a fresh plan --------------------------------------------------------------------------

  // Applying the plan of a database leaves nothing to insert, whatever the database.
  lemma ApplyConverges(db: AccessDb, c: Catalogue, owner: Id, now: int)
    ensures var p, next := MakePlan(db, c), MakePlan(Apply(db, MakePlan(db, c), c, owner, now), c);
      && next.groupInserts == [] && next.memberInserts == [] && next.grantInserts == []
      && next.missingUsers == p.missingUsers && next.missingModels == p.missingModels
  {
    var p, next := MakePlan(db, c), MakePlan(Apply(db, MakePlan(db, c), c, owner, now), c);
    StalePlanLeavesOnlyNewcomers(db, db, c, owner, now);
    PlanHolds(db, c);
    PlanHolds(Apply(db, p, c, owner, now), c);
    assert next.missingUsers == p.missingUsers && next.missingModels == p.missingModels;
    SomeMember(next.memberInserts);
    SomeMember(next.grantInserts);
  }

  lemma {:induction false} AllNew<K, R>(rows: seq<Row<K, R>>, known: set<K>)
    requires forall i :: 0 <= i < |rows| ==> rows[i].key !in known
    ensures CountNew(rows, known) == |rows|
  {
    if rows != [] { AllNew(rows[..|rows| - 1], known); }
  }

  lemma {:induction false} NewGroups(groups: map<Id, Group>, listed: seq<HomeGroup>, owner: Id, now: int)
    ensures CountNew(GroupRows(listed, owner, now), groups.Keys) == |GroupInserts(groups, listed)|
  {
    if listed != [] {
      var n := |listed| - 1;
      NewGroups(groups, listed[..n], owner, now);
      assert GroupRows(listed, owner, now)[..n] == GroupRows(listed[..n], owner, now);
    }
  }

  lemma GroupsGrow(db: AccessDb, c: Catalogue, owner: Id, now: int)
    requires WellFormed(c)
    ensures |UpsertAll(db.groups, GroupRows(c.groups, owner, now), KeepOwner)| ==
      |db.groups| + |GroupInserts(db.groups, c.groups)|
  {
    var rows := GroupRows(c.groups, owner, now);
    assert forall i :: 0 <= i < |rows| ==> rows[i].key == c.groups[i].id;
    Growth(db.groups, rows, KeepOwner);
    NewGroups(db.groups, c.groups, owner, now);
  }

  lemma MembersGrow(members: map<Member, Stamps>, keys: seq<Member>, now: int)
    requires Distinct(keys) && forall k :: k in keys ==> k !in members
    ensures |UpsertAll(members, MemberRows(keys, now), KeepCreation)| == |members| + |keys|
  {
    var rows := MemberRows(keys, now);
    assert forall i :: 0 <= i < |rows| ==> rows[i].key == keys[i] && keys[i] in keys;
    AllNew(rows, members.Keys);
    Growth(members, rows, KeepCreation);
  }

  lemma GrantsGrow(grants: map<Grant, int>, keys: seq<Grant>, now: int)
    requires Distinct(keys) && forall k :: k in keys ==> k !in grants
    ensures |UpsertAll(grants, GrantRows(keys, now), DoNothing)| == |grants| + |keys|
  {
    var rows := GrantRows(keys, now);
    assert forall i :: 0 <= i < |rows| ==> rows[i].key == keys[i] && keys[i] in keys;
    AllNew(rows, grants.Keys);
    Growth(grants, rows, DoNothing);
  }

  // Each table grows by exactly the planned number of rows.
  lemma GrowsAsPlanned(db: AccessDb, c: Catalogue, owner: Id, now: int)
    requires WellFormed(c)
    ensures var p, db' := MakePlan(db, c), Apply(db, MakePlan(db, c), c, owner, now);
      && |db'.groups| == |db.groups| + |p.groupInserts|
      && |db'.members| == |db.members| + |p.memberInserts|
      && |db'.grants| == |db.grants| + |p.grantInserts|
  {
    var p := MakePlan(db, c);
    PlanHolds(db, c);
    GroupsGrow(db, c, owner, now);
    MemberInsertsDistinct(db, c.groups);
    MembersGrow(db.members, p.memberInserts, now);
    GrantInsertsDistinct(db, c.models);
    GrantsGrow(db.grants, p.grantInserts, now);
  }

  // A second run by the same catalogue changes only the update times of the home groups.
  lemma SecondRunTouchesTimestamps(db: AccessDb, c: Catalogue, owner: Id, now: int, owner2: Id, later: int)
    requires WellFormed(c)
    ensures var once := Apply(db, MakePlan(db, c), c, owner, now);
      var twice := Apply(once, MakePlan(once, c), c, owner2, later);
      && twice == once.(groups := twice.groups) && twice.groups.Keys == once.groups.Keys
      && (forall g :: g in once.groups ==>
            twice.groups[g] == if IsGroup(c, g) then once.groups[g].(updatedAt := later) else once.groups[g])
  {
    var once := Apply(db, MakePlan(db, c), c, owner, now);
    var p2 := MakePlan(once, c);
    var twice := Apply(once, p2, c, owner2, later);
    ApplyConverges(db, c, owner, now);
    assert MemberRows(p2.memberInserts, later) == [] && GrantRows(p2.grantInserts, later) == [];
    AppliedKeys(once, p2, c, owner2, later);
    AppliedKeys(db, MakePlan(db, c), c, owner, now);
    forall g | g in once.groups
      ensures twice.groups[g] == if IsGroup(c, g) then once.groups[g].(updatedAt := later) else once.groups[g]
    {
      GroupRowKept(once, p2, c, owner2, later, g);
      if IsGroup(c, g) {
        var i :| 0 <= i < |c.groups| && c.groups[i].id == g;
        GroupProfileApplied(db, MakePlan(db, c), c, owner, now, i);
        GroupProfileApplied(once, p2, c, owner2, later, i);
      }
    }
    assert twice.groups.Keys == once.groups.Keys;
  }

  // ---- effective access -----------------------------------------------------------------------

  // A user may read a model when one of the user's groups has the read grant for it.
  ghost predicate CanRead(members: set<Member>, grants: set<Grant>, user: Id, model: Id) {
    exists g :: Member(g, user) in members && ReadGrant(model, g) in grants
  }

  // Access afterwards is the composition of old and planned memberships with old and planned
  // grants; in particular each home user can read every agent its group is bound to.
  lemma EffectiveAccess(db: AccessDb, c: Catalogue, owner: Id, now: int, user: Id, model: Id)
    ensures var p, db' := MakePlan(db, c), Apply(db, MakePlan(db, c), c, owner, now);
      CanRead(db'.members.Keys, db'.grants.Keys, user, model) <==>
      CanRead(db.members.Keys + (set k | k in p.memberInserts), db.grants.Keys + (set k | k in p.grantInserts),
              user, model)
    ensures model in db.models && (exists g :: RequiredMember(db.users, c, Member(g, user)) && Binds(c, model, g)) ==>
      var db' := Apply(db, MakePlan(db, c), c, owner, now); CanRead(db'.members.Keys, db'.grants.Keys, user, model)
  {
    var p, db' := MakePlan(db, c), Apply(db, MakePlan(db, c), c, owner, now);
    AppliedKeys(db, p, c, owner, now);
    assert db'.members.Keys == db.members.Keys + (set k | k in p.memberInserts);
    assert db'.grants.Keys == db.grants.Keys + (set k | k in p.grantInserts);
    if model in db.models && exists g :: RequiredMember(db.users, c, Member(g, user)) && Binds(c, model, g) {
      var g :| RequiredMember(db.users, c, Member(g, user)) && Binds(c, model, g);
      StalePlanIsUnion(db, db, c, owner, now);
      assert RequiredGrant(db.models, c, ReadGrant(model, g));
      assert Member(g, user) in db'.members.Keys && ReadGrant(model, g) in db'.grants.Keys;
    }
  }

  // Nobody gains access except through the catalogue: a new reader is the user of a home
  // group, or reads a home agent through a group bound to it.
  lemma NoOtherAccess(db: AccessDb, c: Catalogue, owner: Id, now: int, user: Id, model: Id)
    requires var db' := Apply(db, MakePlan(db, c), c, owner, now);
      CanRead(db'.members.Keys, db'.grants.Keys, user, model)
    requires !CanRead(db.members.Keys, db.grants.Keys, user, model)
    ensures exists g ::
      && (RequiredMember(db.users, c, Member(g, user)) || Member(g, user) in db.members)
      && (RequiredGrant(db.models, c, ReadGrant(model, g)) || ReadGrant(model, g) in db.grants)
      && (Member(g, user) !in db.members || ReadGrant(model, g) !in db.grants)
  {
    var db' := Apply(db, MakePlan(db, c), c, owner, now);
    StalePlanIsUnion(db, db, c, owner, now);
    var g :| Member(g, user) in db'.members.Keys && ReadGrant(model, g) in db'.grants.Keys;
    assert Member(g, user) in db.members || RequiredMember(db.users, c, Member(g, user));
    assert ReadGrant(model, g) in db.grants || RequiredGrant(db.models, c, ReadGrant(model, g));
  }
}
