/** Open WebUI access: who is bound to which agent, and the plan that makes it so. */
module AccessPlan {
  import opened Wrappers
  import opened KeyedTable
  import opened Text

  type Id = string

  // ---- tables -----------------------------------------------------------------------

  datatype User = User(id: Id, name: Option<string>, email: Option<string>, username: Option<string>)

  // The descriptive columns of a group: name, description, data, meta, permissions.
  datatype Profile = Profile(name: string, description: string, data: string, meta: string, permissions: string)

  datatype Group = Group(owner: Id, profile: Profile, createdAt: int, updatedAt: int)

  datatype Stamps = Stamps(createdAt: int, updatedAt: int)

  datatype Member = Member(groupId: Id, userId: Id)

  datatype Grant = Grant(resourceType: string, resourceId: Id, principalType: string, principalId: Id,
                         permission: string)

  // A grant row has no other column of interest than its creation time.
  datatype AccessDb = AccessDb(
    users: seq<User>,
    models: set<Id>,
    groups: map<Id, Group>,
    members: map<Member, Stamps>,
    grants: map<Grant, int>)

  // ---- the catalogue of home groups and agents ----------------------------------------

  datatype HomeGroup = HomeGroup(id: Id, profile: Profile)

  datatype HomeModel = HomeModel(id: Id, groups: seq<Id>)

  datatype Catalogue = Catalogue(groups: seq<HomeGroup>, models: seq<HomeModel>)

  function HomeProfile(name: string): Profile {
    Profile(name, "Freyja home-agent access group for " + name + ".",
            "{\"freyja_home_agent\": true}", "{\"managed_by\": \"freyja-home-agent\"}", "{}")
  }

  const HOME := Catalogue(
    [HomeGroup("joe", HomeProfile("Joe")), HomeGroup("beth", HomeProfile("Beth")),
     HomeGroup("liam", HomeProfile("Liam")), HomeGroup("jenna", HomeProfile("Jenna"))],
    [HomeModel("agent/freyja", ["joe", "beth"]), HomeModel("agent/cloyd-gibbler", ["joe"]),
     HomeModel("agent/freyja-coder", ["joe"]), HomeModel("agent/benedict", ["beth"]),
     HomeModel("agent/agent-47", ["liam", "joe", "beth"]), HomeModel("agent/jennacide", ["jenna", "joe", "beth"])])

  // Groups and models are dictionary keys, and no model lists a group twice.
  ghost predicate WellFormed(c: Catalogue) {
    && (forall i, j :: 0 <= i < j < |c.groups| ==> c.groups[i].id != c.groups[j].id)
    && (forall i, j :: 0 <= i < j < |c.models| ==> c.models[i].id != c.models[j].id)
    && (forall i :: 0 <= i < |c.models| ==> Distinct(c.models[i].groups))
  }

  predicate IsGroup(c: Catalogue, g: Id) {
    exists i :: 0 <= i < |c.groups| && c.groups[i].id == g
  }

  predicate Binds(c: Catalogue, m: Id, g: Id) {
    exists i :: 0 <= i < |c.models| && c.models[i].id == m && g in c.models[i].groups
  }

  predicate IsModel(c: Catalogue, m: Id) {
    exists i :: 0 <= i < |c.models| && c.models[i].id == m
  }

  // ---- which user is meant by a group ----------------------------------------------------

  function Fold(s: string): string {
    seq(|s|, i requires 0 <= i < |s| => Lower(s[i]))
  }

  function Clean(s: string): string {
    Fold(Trim(s))
  }

  // The part before the first at-sign; the whole string when there is none.
  function Prefix(s: string): string {
    if s == "" || s[0] == '@' then "" else [s[0]] + Prefix(s[1..])
  }

  predicate FieldMeans(field: Option<string>, g: Id) {
    field.Some? && field.value != "" &&
    (Clean(field.value) == g || ('@' in Clean(field.value) && Prefix(Clean(field.value)) == g))
  }

  // The casefolded name, e-mail, user name or the part of one before an at-sign is the group id.
  predicate Answers(u: User, g: Id) {
    FieldMeans(u.name, g) || FieldMeans(u.email, g) || FieldMeans(u.username, g)
  }

  lemma {:induction false} PrefixStops(s: string)
    ensures '@' !in Prefix(s) && ('@' !in s ==> Prefix(s) == s)
  {
    if s != "" {
      PrefixStops(s[1..]);
      assert s == [s[0]] + s[1..];
    }
  }

  // For an id without an at-sign: a field means the group exactly when its cleaned text, up
  // to the first at-sign if there is one, is the id.
  lemma FieldMeansPrefix(field: string, g: Id)
    requires g != "" && '@' !in g
    ensures FieldMeans(Some(field), g) <==> Prefix(Clean(field)) == g
  {
    PrefixStops(Clean(field));
    if field == "" { assert Clean(field) == ""; }
  }

  function FirstUser(users: seq<User>, g: Id): Option<Id> {
    if users == [] then None
    else if Answers(users[0], g) then Some(users[0].id)
    else FirstUser(users[1..], g)
  }

  ghost predicate EarliestAnswer(users: seq<User>, g: Id, i: int) {
    0 <= i < |users| && Answers(users[i], g) && forall j :: 0 <= j < i ==> !Answers(users[j], g)
  }

  // A group stands for the earliest row that answers to it, and for nobody exactly when
  // no row does.
  lemma {:induction false} FirstUserIsEarliest(users: seq<User>, g: Id)
    ensures FirstUser(users, g).None? <==> forall i :: 0 <= i < |users| ==> !Answers(users[i], g)
    ensures FirstUser(users, g).Some? ==>
      exists i :: EarliestAnswer(users, g, i) && users[i].id == FirstUser(users, g).value
    decreases |users|
  {
    if users != [] && !Answers(users[0], g) {
      var rest := users[1..];
      FirstUserIsEarliest(rest, g);
      assert forall i :: 0 <= i < |rest| ==> rest[i] == users[i + 1];
      if FirstUser(rest, g).Some? {
        var i :| EarliestAnswer(rest, g, i) && rest[i].id == FirstUser(rest, g).value;
        assert forall j :: 1 <= j < i + 1 ==> users[j] == rest[j - 1];
        assert EarliestAnswer(users, g, i + 1);
      } else {
        assert forall j :: 1 <= j < |users| ==> users[j] == rest[j - 1];
      }
    } else if users != [] {
      assert EarliestAnswer(users, g, 0);
    }
  }

  // New accounts do not change whom a group already stands for.
  lemma {:induction false} NewUsersComeLater(users: seq<User>, more: seq<User>, g: Id)
    ensures FirstUser(users + more, g) == if FirstUser(users, g).Some? then FirstUser(users, g) else FirstUser(more, g)
    decreases |users|
  {
    if users == [] {
      assert users + more == more;
    } else {
      assert (users + more)[1..] == users[1..] + more;
      NewUsersComeLater(users[1..], more, g);
    }
  }

  ghost function UsersByGroup(users: seq<User>, c: Catalogue): map<Id, Id> {
    map i | 0 <= i < |c.groups| && FirstUser(users, c.groups[i].id).Some? ::
      c.groups[i].id := FirstUser(users, c.groups[i].id).value
  }

  // ---- what is required ---------------------------------------------------------------------

  function ReadGrant(m: Id, g: Id): Grant {
    Grant("model", m, "group", g, "read")
  }

  // The membership a group needs.
  predicate RequiredMember(users: seq<User>, c: Catalogue, k: Member) {
    IsGroup(c, k.groupId) && FirstUser(users, k.groupId) == Some(k.userId)
  }

  predicate RequiredGrant(models: set<Id>, c: Catalogue, k: Grant) {
    k == ReadGrant(k.resourceId, k.principalId) && k.resourceId in models && Binds(c, k.resourceId, k.principalId)
  }

  // ---- the plan --------------------------------------------------------------------------------

  datatype Plan = Plan(
    missingUsers: set<Id>,
    missingModels: set<Id>,
    groupInserts: seq<Id>,
    memberInserts: seq<Member>,
    grantInserts: seq<Grant>)

  predicate Ready(p: Plan) {
    p.missingUsers == {} && p.missingModels == {}
  }

  function GroupInserts(groups: map<Id, Group>, listed: seq<HomeGroup>): seq<Id> {
    if listed == [] then []
    else
      var n := |listed| - 1;
      GroupInserts(groups, listed[..n]) + (if listed[n].id in groups then [] else [listed[n].id])
  }

  function MemberInserts(db: AccessDb, listed: seq<HomeGroup>): seq<Member> {
    if listed == [] then []
    else
      var n := |listed| - 1;
      var user := FirstUser(db.users, listed[n].id);
      MemberInserts(db, listed[..n]) +
      (if user.Some? && Member(listed[n].id, user.value) !in db.members then [Member(listed[n].id, user.value)] else [])
  }

  function ModelGrants(grants: map<Grant, int>, m: Id, groups: seq<Id>): seq<Grant> {
    if groups == [] then []
    else
      var n := |groups| - 1;
      ModelGrants(grants, m, groups[..n]) +
        (if ReadGrant(m, groups[n]) in grants then [] else [ReadGrant(m, groups[n])])
  }

  function GrantInserts(db: AccessDb, listed: seq<HomeModel>): seq<Grant> {
    if listed == [] then []
    else
      var n := |listed| - 1;
      GrantInserts(db, listed[..n]) +
      (if listed[n].id in db.models then ModelGrants(db.grants, listed[n].id, listed[n].groups) else [])
  }

  function MakePlan(db: AccessDb, c: Catalogue): Plan {
    Plan(
      set i | 0 <= i < |c.groups| && FirstUser(db.users, c.groups[i].id).None? :: c.groups[i].id,
      set i | 0 <= i < |c.models| && c.models[i].id !in db.models :: c.models[i].id,
      GroupInserts(db.groups, c.groups),
      MemberInserts(db, c.groups),
      GrantInserts(db, c.models))
  }

  // ---- applying it -----------------------------------------------------------------------------

  function KeepOwner(had: Group, row: Group): Group {
    Group(had.owner, row.profile, had.createdAt, row.updatedAt)
  }

  function KeepCreation(had: Stamps, row: Stamps): Stamps {
    Stamps(had.createdAt, row.updatedAt)
  }

  function DoNothing(had: int, row: int): int {
    had
  }

  function GroupRows(listed: seq<HomeGroup>, owner: Id, now: int): seq<Row<Id, Group>> {
    seq(|listed|, i requires 0 <= i < |listed| => Row(listed[i].id, Group(owner, listed[i].profile, now, now)))
  }

  function MemberRows(keys: seq<Member>, now: int): seq<Row<Member, Stamps>> {
    seq(|keys|, i requires 0 <= i < |keys| => Row(keys[i], Stamps(now, now)))
  }

  function GrantRows(keys: seq<Grant>, now: int): seq<Row<Grant, int>> {
    seq(|keys|, i requires 0 <= i < |keys| => Row(keys[i], now))
  }

  function Apply(db: AccessDb, p: Plan, c: Catalogue, owner: Id, now: int): AccessDb {
    db.(groups := UpsertAll(db.groups, GroupRows(c.groups, owner, now), KeepOwner),
        members := UpsertAll(db.members, MemberRows(p.memberInserts, now), KeepCreation),
        grants := UpsertAll(db.grants, GrantRows(p.grantInserts, now), DoNothing))
  }

  // ---- what the planned lists hold --------------------------------------------------------------

  lemma {:induction false} GroupInsertsHold(groups: map<Id, Group>, listed: seq<HomeGroup>, g: Id)
    ensures g in GroupInserts(groups, listed) <==> g !in groups && exists i :: 0 <= i < |listed| && listed[i].id == g
  {
    if listed != [] {
      var n := |listed| - 1;
      GroupInsertsHold(groups, listed[..n], g);
      assert forall i :: 0 <= i < n ==> listed[..n][i] == listed[i];
    }
  }

  lemma {:induction false} MemberInsertsHold(db: AccessDb, listed: seq<HomeGroup>, k: Member)
    ensures k in MemberInserts(db, listed) <==>
      k !in db.members && FirstUser(db.users, k.groupId) == Some(k.userId) &&
      exists i :: 0 <= i < |listed| && listed[i].id == k.groupId
  {
    if listed != [] {
      var n := |listed| - 1;
      MemberInsertsHold(db, listed[..n], k);
      assert forall i :: 0 <= i < n ==> listed[..n][i] == listed[i];
    }
  }

  lemma {:induction false} ModelGrantsHold(grants: map<Grant, int>, m: Id, groups: seq<Id>, k: Grant)
    ensures k in ModelGrants(grants, m, groups) <==>
      k !in grants && k == ReadGrant(m, k.principalId) && k.principalId in groups
  {
    if groups != [] {
      var n := |groups| - 1;
      ModelGrantsHold(grants, m, groups[..n], k);
      assert k.principalId in groups <==> k.principalId in groups[..n] || k.principalId == groups[n];
    }
  }

  lemma {:induction false} GrantInsertsHold(db: AccessDb, listed: seq<HomeModel>, k: Grant)
    ensures k in GrantInserts(db, listed) <==>
      && k !in db.grants && k == ReadGrant(k.resourceId, k.principalId) && k.resourceId in db.models
      && exists i :: 0 <= i < |listed| && listed[i].id == k.resourceId && k.principalId in listed[i].groups
  {
    if listed != [] {
      var n := |listed| - 1;
      GrantInsertsHold(db, listed[..n], k);
      ModelGrantsHold(db.grants, listed[n].id, listed[n].groups, k);
      assert forall i :: 0 <= i < n ==> listed[..n][i] == listed[i];
    }
  }

  // The plan inserts exactly what is required and not there.
  lemma PlanHolds(db: AccessDb, c: Catalogue)
    ensures var p := MakePlan(db, c);
      && (forall g :: g in p.groupInserts <==> IsGroup(c, g) && g !in db.groups)
      && (forall k :: k in p.memberInserts <==> RequiredMember(db.users, c, k) && k !in db.members)
      && (forall k :: k in p.grantInserts <==> RequiredGrant(db.models, c, k) && k !in db.grants)
      && (forall g :: g in p.missingUsers <==> IsGroup(c, g) && FirstUser(db.users, g).None?)
      && (forall m :: m in p.missingModels <==> IsModel(c, m) && m !in db.models)
      && (Ready(p) <==>
          && (forall g :: IsGroup(c, g) ==> FirstUser(db.users, g).Some?)
          && (forall m :: IsModel(c, m) ==> m in db.models))
  {
    var p := MakePlan(db, c);
    forall g ensures g in p.groupInserts <==> IsGroup(c, g) && g !in db.groups {
      GroupInsertsHold(db.groups, c.groups, g);
    }
    forall k ensures k in p.memberInserts <==> RequiredMember(db.users, c, k) && k !in db.members {
      MemberInsertsHold(db, c.groups, k);
    }
    forall k ensures k in p.grantInserts <==> RequiredGrant(db.models, c, k) && k !in db.grants {
      GrantInsertsHold(db, c.models, k);
    }
  }

  lemma {:induction false} MemberInsertsDistinct(db: AccessDb, listed: seq<HomeGroup>)
    requires forall i, j :: 0 <= i < j < |listed| ==> listed[i].id != listed[j].id
    ensures Distinct(MemberInserts(db, listed))
  {
    if listed != [] {
      var n := |listed| - 1;
      MemberInsertsDistinct(db, listed[..n]);
      var user := FirstUser(db.users, listed[n].id);
      if user.Some? { MemberInsertsHold(db, listed[..n], Member(listed[n].id, user.value)); }
    }
  }

  lemma {:induction false} ModelGrantsDistinct(grants: map<Grant, int>, m: Id, groups: seq<Id>)
    requires Distinct(groups)
    ensures Distinct(ModelGrants(grants, m, groups))
  {
    if groups != [] {
      var n := |groups| - 1;
      ModelGrantsDistinct(grants, m, groups[..n]);
      ModelGrantsHold(grants, m, groups[..n], ReadGrant(m, groups[n]));
    }
  }

  lemma DistinctConcat<T>(a: seq<T>, b: seq<T>)
    requires Distinct(a) && Distinct(b) && forall x :: x in a ==> x !in b
    ensures Distinct(a + b)
  {
    forall i, j | 0 <= i < j < |a + b| ensures (a + b)[i] != (a + b)[j] {
      if i < |a| && |a| <= j { assert (a + b)[i] in a && (a + b)[j] in b; }
    }
  }

  lemma {:induction false} GrantInsertsDistinct(db: AccessDb, listed: seq<HomeModel>)
    requires forall i, j :: 0 <= i < j < |listed| ==> listed[i].id != listed[j].id
    requires forall i :: 0 <= i < |listed| ==> Distinct(listed[i].groups)
    ensures Distinct(GrantInserts(db, listed))
  {
    if listed != [] {
      var n := |listed| - 1;
      var before, now := GrantInserts(db, listed[..n]), ModelGrants(db.grants, listed[n].id, listed[n].groups);
      GrantInsertsDistinct(db, listed[..n]);
      ModelGrantsDistinct(db.grants, listed[n].id, listed[n].groups);
      forall k | k in before ensures k !in now {
        GrantInsertsHold(db, listed[..n], k);
        ModelGrantsHold(db.grants, listed[n].id, listed[n].groups, k);
      }
      DistinctConcat(before, now);
    }
  }

  lemma HomeListsDistinct()
    ensures forall i :: 0 <= i < |HOME.models| ==> Distinct(HOME.models[i].groups)
  {
  }

  lemma HomeModelsDistinct()
    ensures forall i, j :: 0 <= i < j < |HOME.models| ==> HOME.models[i].id != HOME.models[j].id
  {
  }

  lemma HomeIsWellFormed()
    ensures WellFormed(HOME)
  {
    HomeModelsDistinct();
    HomeListsDistinct();
  }
}
