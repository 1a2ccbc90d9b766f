/** Whom a home group stands for, and what an application leaves in the tables, row by row. */
module HomeAccess {
  import opened Wrappers
  import opened Text
  import opened KeyedTable
  import opened AccessPlan
  import opened AccessResults

  // ---- what a field says -------------------------------------------------------------

  predicate IsSpace(c: char) {
    c in " \t\n\r\U{0B}\U{0C}\U{1C}\U{1D}\U{1E}\U{1F}"
  }

  // The second letter is the first one with a capital made small.
  predicate Folds(c: char, d: char) {
    if 'A' <= c <= 'Z' then d as int == c as int + 32 else d == c
  }

  // After leading blanks the field reads as the id, and then it ends, up to trailing blanks,
  // or goes on with its first at-sign.
  ghost predicate SaysFrom(field: string, g: Id, from: nat) {
    var end := from + |g|;
    && end <= |field|
    && (forall k :: 0 <= k < from ==> IsSpace(field[k])) && (from < |field| ==> !IsSpace(field[from]))
    && (forall k :: 0 <= k < |g| ==> Folds(field[from + k], g[k]))
    && (|| ((forall k :: end <= k < |field| ==> IsSpace(field[k])) && (g != "" ==> !IsSpace(field[end - 1])))
        || (end < |field| && field[end] == '@' && '@' !in g))
  }

  ghost predicate Says(field: Option<string>, g: Id) {
    field.Some? && field.value != "" && exists from: nat :: SaysFrom(field.value, g, from)
  }

  lemma SpaceIsBlank(c: char)
    ensures IsSpace(c) <==> Blank(c)
  {
    var spaces := " \t\n\r\U{0B}\U{0C}\U{1C}\U{1D}\U{1E}\U{1F}";
    assert spaces[0] == ' ' && spaces[1] == '\t' && spaces[2] == '\n' && spaces[3] == '\r';
    assert spaces[4] as int == 11 && spaces[5] as int == 12 && spaces[6] as int == 28;
    assert spaces[7] as int == 29 && spaces[8] as int == 30 && spaces[9] as int == 31;
    if Blank(c) {
      var i := if c == ' ' then 0 else if c == '\t' then 1 else if c == '\n' then 2 else if c == '\r' then 3
               else if c as int == 11 then 4 else if c as int == 12 then 5 else c as int - 22;
      assert spaces[i] == c;
    }
  }

  lemma {:induction false} LeftIsSuffix(s: string)
    ensures |TrimLeft(s)| <= |s| && TrimLeft(s) == s[|s| - |TrimLeft(s)|..]
    ensures forall k :: 0 <= k < |s| - |TrimLeft(s)| ==> Blank(s[k])
  {
    if s != "" && Blank(s[0]) {
      LeftIsSuffix(s[1..]);
      assert forall k :: 1 <= k < |s| ==> s[k] == s[1..][k - 1];
    }
  }

  lemma {:induction false} RightIsPrefix(s: string)
    ensures TrimRight(s) <= s && forall k :: |TrimRight(s)| <= k < |s| ==> Blank(s[k])
  {
    if s != "" && Blank(s[|s| - 1]) {
      RightIsPrefix(s[..|s| - 1]);
      assert forall k :: 0 <= k < |s| - 1 ==> s[k] == s[..|s| - 1][k];
    }
  }

  // Where the trimmed text lies: blanks before it, blanks after it, and none at its ends.
  lemma TrimLies(s: string) returns (from: nat, end: nat)
    ensures from <= end <= |s| && Trim(s) == s[from..end]
    ensures forall k :: 0 <= k < from || end <= k < |s| ==> Blank(s[k])
    ensures from < |s| ==> from < end && !Blank(s[from]) && !Blank(s[end - 1])
  {
    var left := TrimLeft(s);
    LeftIsSuffix(s);
    RightIsPrefix(left);
    TrimLeftStarts(s);
    TrimRightEnds(left);
    from, end := |s| - |left|, |s| - |left| + |TrimRight(left)|;
    assert forall k :: from <= k < |s| ==> s[k] == left[k - from];
    assert s[from..end] == left[..end - from];
  }

  lemma {:induction false} PrefixEnds(s: string, g: string)
    ensures '@' in s && Prefix(s) == g <==> |g| < |s| && s[..|g|] == g && s[|g|] == '@' && '@' !in g
  {
    if s == "" {
    } else if s[0] == '@' {
    } else {
      if g != "" {
        PrefixEnds(s[1..], g[1..]);
        assert s == [s[0]] + s[1..] && g == [g[0]] + g[1..];
      }
    }
  }

  // The cleaned text, letter by letter.
  lemma CleanLies(s: string) returns (from: nat, end: nat)
    ensures from <= end <= |s| && |Clean(s)| == end - from
    ensures forall k :: 0 <= k < end - from ==> Folds(s[from + k], Clean(s)[k])
    ensures forall k :: 0 <= k < from || end <= k < |s| ==> IsSpace(s[k])
    ensures from < |s| ==> from < end && !IsSpace(s[from]) && !IsSpace(s[end - 1])
  {
    from, end := TrimLies(s);
    forall c ensures IsSpace(c) <==> Blank(c) { SpaceIsBlank(c); }
    assert forall k :: 0 <= k < end - from ==> Trim(s)[k] == s[from + k];
  }

  lemma MeansIsSaid(field: string, g: Id)
    requires field != ""
    ensures FieldMeans(Some(field), g) ==> exists from: nat :: SaysFrom(field, g, from)
  {
    var from, end := CleanLies(field);
    PrefixEnds(Clean(field), g);
    if FieldMeans(Some(field), g) {
      if Clean(field) != g { assert Clean(field)[..|g|][..|g|] == g; }
      assert forall k :: 0 <= k < |g| ==> g[k] == Clean(field)[k];
      assert SaysFrom(field, g, from);
    }
  }

  lemma SaidIsMeant(field: string, g: Id, start: nat)
    requires field != "" && SaysFrom(field, g, start)
    ensures FieldMeans(Some(field), g)
  {
    var from, end := CleanLies(field);
    assert start == from;
    var clean := Clean(field);
    assert forall k :: 0 <= k < |g| && k < |clean| ==> clean[k] == g[k];
    if end == from + |g| {
      assert clean == g;
    } else {
      assert clean[..|g|] == g;
      PrefixEnds(clean, g);
    }
  }

  // Name, e-mail or user name says the group.
  ghost predicate Named(u: User, g: Id) {
    Says(u.name, g) || Says(u.email, g) || Says(u.username, g)
  }

  lemma AnswersIsNamed(u: User, g: Id)
    ensures Answers(u, g) <==> Named(u, g)
  {
    FieldIsSaid(u.name, g);
    FieldIsSaid(u.email, g);
    FieldIsSaid(u.username, g);
  }

  lemma FieldIsSaid(field: Option<string>, g: Id)
    ensures FieldMeans(field, g) <==> Says(field, g)
  {
    if field.Some? && field.value != "" {
      MeansIsSaid(field.value, g);
      if start: nat :| SaysFrom(field.value, g, start) { SaidIsMeant(field.value, g, start); }
    }
  }

  // The earliest row that says the group.
  ghost predicate EarliestNamed(users: seq<User>, g: Id, i: int) {
    0 <= i < |users| && Named(users[i], g) && forall j :: 0 <= j < i ==> !Named(users[j], g)
  }

  // A group stands for the user of the earliest row in which one of the three columns says it,
  // and for nobody exactly when there is none.
  lemma StandsFor(users: seq<User>, g: Id)
    ensures FirstUser(users, g).None? <==> forall i :: 0 <= i < |users| ==> !Named(users[i], g)
    ensures FirstUser(users, g).Some? ==>
      exists i :: EarliestNamed(users, g, i) && users[i].id == FirstUser(users, g).value
  {
    FirstUserIsEarliest(users, g);
    forall u: User ensures Answers(u, g) <==> Named(u, g) { AnswersIsNamed(u, g); }
    if FirstUser(users, g).Some? {
      var i :| EarliestAnswer(users, g, i) && users[i].id == FirstUser(users, g).value;
      assert EarliestNamed(users, g, i);
    }
  }

  // ---- what is required -----------------------------------------------------------------

  // The group has a user among the accounts, by the columns of the rows.
  ghost predicate UserOf(users: seq<User>, g: Id, user: Id) {
    exists i :: EarliestNamed(users, g, i) && users[i].id == user
  }

  lemma UserOfIsFirst(users: seq<User>, g: Id, user: Id)
    ensures UserOf(users, g, user) <==> FirstUser(users, g) == Some(user)
  {
    StandsFor(users, g);
  }

  // The n-th group of the i-th agent.
  predicate BoundAt(c: Catalogue, i: int, n: int) {
    0 <= i < |c.models| && 0 <= n < |c.models[i].groups|
  }

  // The plan on the rows. A model is missing when it has no row, a user when no account says the
  // group; what is to be inserted is what the catalogue binds and the tables lack.
  lemma PlanOnRows(db: AccessDb, c: Catalogue)
    ensures var p := MakePlan(db, c);
      && (forall g :: g in p.groupInserts <==>
            g !in db.groups && exists i :: 0 <= i < |c.groups| && c.groups[i].id == g)
      && (forall k :: k in p.memberInserts <==>
            k !in db.members && UserOf(db.users, k.groupId, k.userId) &&
            exists i :: 0 <= i < |c.groups| && c.groups[i].id == k.groupId)
      && (forall k :: k in p.grantInserts <==>
            k !in db.grants && k.resourceId in db.models &&
            exists i, n :: BoundAt(c, i, n) &&
                           k == Grant("model", c.models[i].id, "group", c.models[i].groups[n], "read"))
      && (forall g :: g in p.missingUsers <==>
            (exists i :: 0 <= i < |c.groups| && c.groups[i].id == g) &&
            forall i :: 0 <= i < |db.users| ==> !Named(db.users[i], g))
      && (forall m :: m in p.missingModels <==>
            m !in db.models && exists i :: 0 <= i < |c.models| && c.models[i].id == m)
  {
    PlanHolds(db, c);
    forall g, user ensures UserOf(db.users, g, user) <==> FirstUser(db.users, g) == Some(user) {
      UserOfIsFirst(db.users, g, user);
    }
    forall g ensures FirstUser(db.users, g).None? <==> forall i :: 0 <= i < |db.users| ==> !Named(db.users[i], g) {
      StandsFor(db.users, g);
    }
  }

  // ---- in the order of the catalogue ---------------------------------------------------------

  lemma {:induction false} GroupInsertsOrdered(groups: map<Id, Group>, listed: seq<HomeGroup>, i: nat, j: nat)
    requires i < j < |listed| && listed[i].id !in groups && listed[j].id !in groups
    ensures Precedes(GroupInserts(groups, listed), listed[i].id, listed[j].id)
    decreases |listed|
  {
    var n := |listed| - 1;
    if j < n {
      GroupInsertsOrdered(groups, listed[..n], i, j);
    } else {
      assert listed[..n][i] == listed[i];
      GroupInsertsHold(groups, listed[..n], listed[i].id);
    }
    PrecedesWithin(GroupInserts(groups, listed[..n]), if listed[n].id in groups then [] else [listed[n].id],
                   listed[i].id, listed[j].id);
  }

  // A membership that the i-th group needs and does not have.
  ghost predicate LacksMember(db: AccessDb, listed: seq<HomeGroup>, i: nat, k: Member)
    requires i < |listed|
  {
    k.groupId == listed[i].id && FirstUser(db.users, k.groupId) == Some(k.userId) && k !in db.members
  }

  lemma {:induction false} MemberInsertsOrdered(db: AccessDb, listed: seq<HomeGroup>, i: nat, k: Member, j: nat,
                                                l: Member)
    requires i < j < |listed| && LacksMember(db, listed, i, k) && LacksMember(db, listed, j, l)
    ensures Precedes(MemberInserts(db, listed), k, l)
    decreases |listed|
  {
    var n := |listed| - 1;
    var user := FirstUser(db.users, listed[n].id);
    if j < n {
      MemberInsertsOrdered(db, listed[..n], i, k, j, l);
    } else {
      assert listed[..n][i] == listed[i];
      MemberInsertsHold(db, listed[..n], k);
    }
    var last := if user.Some? && Member(listed[n].id, user.value) !in db.members
      then [Member(listed[n].id, user.value)] else [];
    PrecedesWithin(MemberInserts(db, listed[..n]), last, k, l);
  }

  lemma {:induction false} ModelGrantsOrdered(grants: map<Grant, int>, m: Id, groups: seq<Id>, i: nat, j: nat)
    requires i < j < |groups| && ReadGrant(m, groups[i]) !in grants && ReadGrant(m, groups[j]) !in grants
    ensures Precedes(ModelGrants(grants, m, groups), ReadGrant(m, groups[i]), ReadGrant(m, groups[j]))
    decreases |groups|
  {
    var n := |groups| - 1;
    if j < n {
      ModelGrantsOrdered(grants, m, groups[..n], i, j);
    } else {
      assert groups[..n][i] == groups[i];
      ModelGrantsHold(grants, m, groups[..n], ReadGrant(m, groups[i]));
    }
    PrecedesWithin(ModelGrants(grants, m, groups[..n]),
                   if ReadGrant(m, groups[n]) in grants then [] else [ReadGrant(m, groups[n])],
                   ReadGrant(m, groups[i]), ReadGrant(m, groups[j]));
  }

  // The a-th group of the i-th agent lacks its grant.
  ghost predicate LacksGrant(db: AccessDb, listed: seq<HomeModel>, i: nat, a: nat) {
    && i < |listed| && a < |listed[i].groups| && listed[i].id in db.models
    && ReadGrant(listed[i].id, listed[i].groups[a]) !in db.grants
  }

  lemma {:induction false} GrantInsertsOrdered(db: AccessDb, listed: seq<HomeModel>, i: nat, a: nat, j: nat, b: nat)
    requires LacksGrant(db, listed, i, a) && LacksGrant(db, listed, j, b) && (i < j || (i == j && a < b))
    ensures Precedes(GrantInserts(db, listed), ReadGrant(listed[i].id, listed[i].groups[a]),
                     ReadGrant(listed[j].id, listed[j].groups[b]))
    decreases |listed|
  {
    var n := |listed| - 1;
    var k, l := ReadGrant(listed[i].id, listed[i].groups[a]), ReadGrant(listed[j].id, listed[j].groups[b]);
    var last := if listed[n].id in db.models then ModelGrants(db.grants, listed[n].id, listed[n].groups) else [];
    if j < n {
      GrantInsertsOrdered(db, listed[..n], i, a, j, b);
    } else if i == n {
      ModelGrantsOrdered(db.grants, listed[n].id, listed[n].groups, a, b);
    } else {
      assert listed[..n][i] == listed[i];
      GrantInsertsHold(db, listed[..n], k);
      ModelGrantsHold(db.grants, listed[n].id, listed[n].groups, l);
    }
    PrecedesWithin(GrantInserts(db, listed[..n]), last, k, l);
  }

  // ---- what an application leaves ----------------------------------------------------------

  lemma {:induction false} SameCells<K, R>(rows: seq<Row<K, R>>, k: K, cells: R)
    requires Mentions(rows, k) && forall i :: 0 <= i < |rows| ==> rows[i].cells == cells
    ensures FirstFor(rows, k) == LastFor(rows, k) == cells
    decreases |rows|
  {
    var n := |rows| - 1;
    if rows[n].key != k {
      var i :| 0 <= i < |rows| && rows[i].key == k;
      assert rows[..n][i].key == k;
      SameCells(rows[..n], k, cells);
      FirstForInit(rows, k);
    } else if Mentions(rows[..n], k) {
      SameCells(rows[..n], k, cells);
      FirstForInit(rows, k);
    } else {
      OnlyRow(rows, k);
    }
  }

  // The groups of the catalogue get its profile and the time, and keep owner and creation time.
  lemma GroupsApplied(db: AccessDb, p: Plan, c: Catalogue, owner: Id, now: int)
    requires WellFormed(c)
    ensures var groups := Apply(db, p, c, owner, now).groups;
      && (forall g :: g in groups <==> g in db.groups || exists i :: 0 <= i < |c.groups| && c.groups[i].id == g)
      && (forall i :: 0 <= i < |c.groups| ==>
            var g, profile := c.groups[i].id, c.groups[i].profile;
            groups[g] == if g in db.groups then Group(db.groups[g].owner, profile, db.groups[g].createdAt, now)
                         else Group(owner, profile, now, now))
      && (forall g :: g in db.groups && (forall i :: 0 <= i < |c.groups| ==> c.groups[i].id != g) ==>
            groups[g] == db.groups[g])
  {
    var groups, rows := Apply(db, p, c, owner, now).groups, GroupRows(c.groups, owner, now);
    AppliedKeys(db, p, c, owner, now);
    AppliedRows(db, p, c, owner, now);
    AccessMergesAreLawful();
    assert forall j :: 0 <= j < |rows| ==> rows[j].key == c.groups[j].id;
    forall i | 0 <= i < |c.groups|
      ensures var g, profile := c.groups[i].id, c.groups[i].profile;
        g in groups && groups[g] ==
          if g in db.groups then Group(db.groups[g].owner, profile, db.groups[g].createdAt, now)
          else Group(owner, profile, now, now)
    {
      UpsertDistinct(db.groups, rows, KeepOwner, i);
      assert Lookup(groups, c.groups[i].id).Some?;
    }
  }

  // A planned membership is new as of now, or is touched now; every other row stays as it is.
  lemma MembersApplied(db: AccessDb, p: Plan, c: Catalogue, owner: Id, now: int)
    ensures var members := Apply(db, p, c, owner, now).members;
      && (forall k :: k in members <==> k in db.members || k in p.memberInserts)
      && (forall k :: k in members ==>
            members[k] == if k !in p.memberInserts then db.members[k]
                          else Stamps(if k in db.members then db.members[k].createdAt else now, now))
  {
    var members, rows := Apply(db, p, c, owner, now).members, MemberRows(p.memberInserts, now);
    AppliedKeys(db, p, c, owner, now);
    AppliedRows(db, p, c, owner, now);
    AccessMergesAreLawful();
    forall k | k in p.memberInserts
      ensures k in members && members[k] == Stamps(if k in db.members then db.members[k].createdAt else now, now)
    {
      MentionedMembers(p.memberInserts, now, k);
      SameCells(rows, k, Stamps(now, now));
      UpsertRow(db.members, rows, KeepCreation, k);
      assert Lookup(members, k).Some?;
    }
  }

  // A planned grant is new as of now, or stays as it is.
  lemma GrantsApplied(db: AccessDb, p: Plan, c: Catalogue, owner: Id, now: int)
    ensures var grants := Apply(db, p, c, owner, now).grants;
      && (forall k :: k in grants <==> k in db.grants || k in p.grantInserts)
      && (forall k :: k in grants ==> grants[k] == if k in db.grants then db.grants[k] else now)
  {
    var grants, rows := Apply(db, p, c, owner, now).grants, GrantRows(p.grantInserts, now);
    AppliedKeys(db, p, c, owner, now);
    AppliedRows(db, p, c, owner, now);
    AccessMergesAreLawful();
    forall k | k in p.grantInserts && k !in db.grants ensures k in grants && grants[k] == now {
      MentionedGrants(p.grantInserts, now, k);
      SameCells(rows, k, now);
      UpsertRow(db.grants, rows, DoNothing, k);
      assert Lookup(grants, k).Some?;
    }
  }

  // ---- the catalogue -------------------------------------------------------------------------

  lemma HomeGroups(g: Id)
    ensures IsGroup(HOME, g) <==> g in {"joe", "beth", "liam", "jenna"}
    ensures HOME.groups[0] == HomeGroup("joe", Profile("Joe", "Freyja home-agent access group for Joe.",
      "{\"freyja_home_agent\": true}", "{\"managed_by\": \"freyja-home-agent\"}", "{}"))
    ensures HOME.groups[1].profile.name == "Beth" && HOME.groups[2].profile.name == "Liam"
    ensures HOME.groups[3].profile.name == "Jenna"
  {
    assert HOME.groups[0].id == "joe" && HOME.groups[1].id == "beth";
    assert HOME.groups[2].id == "liam" && HOME.groups[3].id == "jenna";
  }

  // Who may talk to which agent.
  function Readers(m: Id): set<Id> {
    if m == "agent/freyja" then {"joe", "beth"}
    else if m == "agent/cloyd-gibbler" || m == "agent/freyja-coder" then {"joe"}
    else if m == "agent/benedict" then {"beth"}
    else if m == "agent/agent-47" then {"liam", "joe", "beth"}
    else if m == "agent/jennacide" then {"jenna", "joe", "beth"}
    else {}
  }

  lemma HomeBindings(m: Id, g: Id)
    ensures Binds(HOME, m, g) <==> g in Readers(m)
  {
    var models := HOME.models;
    assert models[0] == HomeModel("agent/freyja", ["joe", "beth"]);
    assert models[1] == HomeModel("agent/cloyd-gibbler", ["joe"]);
    assert models[2] == HomeModel("agent/freyja-coder", ["joe"]);
    assert models[3] == HomeModel("agent/benedict", ["beth"]);
    assert models[4] == HomeModel("agent/agent-47", ["liam", "joe", "beth"]);
    assert models[5] == HomeModel("agent/jennacide", ["jenna", "joe", "beth"]);
    if m == models[0].id {
    } else if m == models[1].id {
    } else if m == models[2].id {
    } else if m == models[3].id {
    } else if m == models[4].id {
    } else if m == models[5].id {
    }
  }
}
