/** Certification fixtures: settings and client attributes changed for one case, then restored. */
module Fixtures {
  import opened Wrappers

  // ---- the world a case runs in --------------------------------------------------------------

  datatype Settings = Settings(cloud: bool, iris: bool, advisory: bool, threshold: real)

  // What an attribute of a client does when called.
  datatype Behaviour = Original(tag: nat) | Unhealthy | Unavailable

  datatype Name = Healthy | Chat

  type ClientId = nat

  datatype IrisClient = Iris(tag: nat) | FixtureIris

  // The router's iris_router_client attribute; it may be missing, or hold None.
  datatype Attr = Missing | Holds(client: Option<IrisClient>)

  datatype Router = Router(reasoning: Option<ClientId>, ollama: Option<ClientId>, iris: Attr)

  datatype World = World(settings: Settings, router: Option<Router>, clients: map<ClientId, map<Name, Behaviour>>)

  // getattr(router, "iris_router_client", None)
  function IrisView(w: World): Option<IrisClient> {
    if w.router.Some? && w.router.value.iris.Holds? then w.router.value.iris.client else None
  }

  function Attribute(w: World, c: ClientId, n: Name): Option<Behaviour> {
    if c in w.clients && n in w.clients[c] then Some(w.clients[c][n]) else None
  }

  function SetAttribute(w: World, c: ClientId, n: Name, b: Behaviour): World {
    w.(clients := w.clients[c := (if c in w.clients then w.clients[c] else map[])[n := b]])
  }

  function SetIris(w: World, client: Option<IrisClient>): World {
    if w.router.Some? then w.(router := Some(w.router.value.(iris := Holds(client)))) else w
  }

  // ---- entering the scope ----------------------------------------------------------------------

  // The fixtures of a case, as far as they change anything: the cloud setting, a heavy local
  // provider reported not ready, and any of the three Iris keys.
  datatype Fixture = Fixture(cloud: Option<bool>, heavyLocalDown: bool, iris: bool)

  // Where the set-up may raise, by the write that is not made; a raise between two writes
  // counts for the later one. The set-up stands before the try block.
  datatype Fault = SettingCloud | SettingHealthy | SettingChat | EnablingIris | EnablingAdvisory | SettingIrisClient

  datatype SavedAttr = SavedAttr(client: ClientId, name: Name, was: Behaviour)

  datatype Saved = Saved(settings: Settings, iris: Option<IrisClient>, attrs: seq<SavedAttr>)

  datatype Entered = Entered(world: World, saved: Saved, raised: bool)

  function HealthClient(w: World): Option<ClientId> {
    if w.router.None? then None else w.router.value.reasoning.OrElse(w.router.value.ollama)
  }

  function Replacement(n: Name): Behaviour {
    match n
    case Healthy => Unhealthy
    case Chat => Unavailable
  }

  function FaultOf(n: Name): Fault {
    match n
    case Healthy => SettingHealthy
    case Chat => SettingChat
  }

  // One round of the loop over ("healthy", "chat"): remember, then replace.
  function ReplaceAttr(e: Entered, c: ClientId, n: Name, fault: Option<Fault>): Entered {
    var was := Attribute(e.world, c, n);
    if e.raised || was.None? then e
    else
      var saved := e.saved.(attrs := e.saved.attrs + [SavedAttr(c, n, was.value)]);
      if fault == Some(FaultOf(n)) then Entered(e.world, saved, true)
      else Entered(SetAttribute(e.world, c, n, Replacement(n)), saved, false)
  }

  function ApplyHealth(e: Entered, f: Fixture, fault: Option<Fault>): Entered {
    var c := HealthClient(e.world);
    if e.raised || !f.heavyLocalDown || c.None? then e
    else ReplaceAttr(ReplaceAttr(e, c.value, Healthy, fault), c.value, Chat, fault)
  }

  function ApplyIris(e: Entered, f: Fixture, fault: Option<Fault>): Entered {
    if e.raised || e.world.router.None? || !f.iris then e
    else if fault == Some(EnablingIris) then e.(raised := true)
    else
      var enabled := e.world.(settings := e.world.settings.(iris := true));
      if fault == Some(EnablingAdvisory) then Entered(enabled, e.saved, true)
      else
        var advised := enabled.(settings := enabled.settings.(advisory := true));
        if fault == Some(SettingIrisClient) then Entered(advised, e.saved, true)
        else Entered(SetIris(advised, Some(FixtureIris)), e.saved, false)
  }

  function ApplyCloud(e: Entered, f: Fixture, fault: Option<Fault>): Entered {
    if f.cloud.None? then e
    else if fault == Some(SettingCloud) then e.(raised := true)
    else e.(world := e.world.(settings := e.world.settings.(cloud := f.cloud.value)))
  }

  // The values to come back to are read before anything is written.
  function Begin(w: World): Entered {
    Entered(w, Saved(w.settings, IrisView(w), []), false)
  }

  function Enter(w: World, f: Fixture, fault: Option<Fault>): Entered {
    ApplyIris(ApplyHealth(ApplyCloud(Begin(w), f, fault), f, fault), f, fault)
  }

  // ---- leaving it ------------------------------------------------------------------------------

  // reversed(restore_client_attrs): the last remembered is set first.
  function RestoreAttrs(w: World, attrs: seq<SavedAttr>): World
    decreases |attrs|
  {
    if attrs == [] then w
    else
      var last := attrs[|attrs| - 1];
      RestoreAttrs(SetAttribute(w, last.client, last.name, last.was), attrs[..|attrs| - 1])
  }

  function RestoreRouter(w: World, saved: Saved): World {
    if w.router.Some? && w.router.value.iris.Holds? then SetIris(w, saved.iris) else w
  }

  function Leave(w: World, saved: Saved): World {
    RestoreAttrs(RestoreRouter(w.(settings := saved.settings), saved), saved.attrs)
  }

  // ---- the scope in place ------------------------------------------------------------------------

  datatype Ending = Normal | SetupRaised | BodyRaised

  // The router call of one case: any change of the world, normally or by exception.
  datatype Body = Body(run: World -> World, raises: bool)

  class Process {
    var world: World

    constructor (w: World)
      ensures world == w
    {
      world := w;
    }

    method ReplaceHealth(c: ClientId, saved: Saved, fault: Option<Fault>) returns (saved': Saved, raised: bool)
      modifies this
      ensures Entered(world, saved', raised) ==
        ReplaceAttr(ReplaceAttr(Entered(old(world), saved, false), c, Healthy, fault), c, Chat, fault)
    {
      saved', raised := saved, false;
      var names := [Healthy, Chat];
      for k := 0 to 2
        invariant k == 0 ==> Entered(world, saved', raised) == Entered(old(world), saved, false)
        invariant k == 1 ==>
          Entered(world, saved', raised) == ReplaceAttr(Entered(old(world), saved, false), c, Healthy, fault)
        invariant k == 2 ==>
          Entered(world, saved', raised) ==
            ReplaceAttr(ReplaceAttr(Entered(old(world), saved, false), c, Healthy, fault), c, Chat, fault)
      {
        var n := names[k];
        var was := Attribute(world, c, n);
        if !raised && was.Some? {
          saved' := saved'.(attrs := saved'.attrs + [SavedAttr(c, n, was.value)]);
          if fault == Some(FaultOf(n)) {
            raised := true;
          } else {
            world := SetAttribute(world, c, n, Replacement(n));
          }
        }
      }
    }

    method EnterScope(f: Fixture, fault: Option<Fault>) returns (saved: Saved, raised: bool)
      modifies this
      ensures Entered(world, saved, raised) == Enter(old(world), f, fault)
    {
      saved, raised := Saved(world.settings, IrisView(world), []), false;
      if f.cloud.Some? {
        if fault == Some(SettingCloud) { return saved, true; }
        world := world.(settings := world.settings.(cloud := f.cloud.value));
      }
      var client := HealthClient(world);
      if f.heavyLocalDown && client.Some? {
        saved, raised := ReplaceHealth(client.value, saved, fault);
      }
      if raised || world.router.None? || !f.iris { return; }
      if fault == Some(EnablingIris) { return saved, true; }
      world := world.(settings := world.settings.(iris := true));
      if fault == Some(EnablingAdvisory) { return saved, true; }
      world := world.(settings := world.settings.(advisory := true));
      if fault == Some(SettingIrisClient) { return saved, true; }
      world := SetIris(world, Some(FixtureIris));
    }

    method LeaveScope(saved: Saved)
      modifies this
      ensures world == Leave(old(world), saved)
    {
      world := world.(settings := saved.settings);
      if world.router.Some? && world.router.value.iris.Holds? {
        world := SetIris(world, saved.iris);
      }
      ghost var start := world;
      var k := |saved.attrs|;
      assert saved.attrs[..k] == saved.attrs;
      while k > 0
        invariant 0 <= k <= |saved.attrs|
        invariant RestoreAttrs(world, saved.attrs[..k]) == RestoreAttrs(start, saved.attrs)
      {
        assert saved.attrs[..k][..k - 1] == saved.attrs[..k - 1];
        k := k - 1;
        var a := saved.attrs[k];
        world := SetAttribute(world, a.client, a.name, a.was);
      }
    }

    // The with statement: set-up, body, and restoration if the set-up was completed.
    method WithFixtures(f: Fixture, fault: Option<Fault>, body: Body) returns (e: Ending)
      modifies this
      ensures (world, e) == Scoped(old(world), f, fault, body)
    {
      var saved, raised := EnterScope(f, fault);
      if raised { return SetupRaised; }
      world := body.run(world);
      LeaveScope(saved);
      e := if body.raises then BodyRaised else Normal;
    }

    // The suite loop: one scope per case, up to the first exception. `starts` lists the
    // world each case began in.
    method RunSuite(cases: seq<CaseRun>) returns (starts: seq<World>, e: Ending)
      modifies this
      ensures |starts| <= |cases| && (e.Normal? ==> |starts| == |cases|)
      ensures forall i :: 0 <= i < |starts| ==> LooksLike(cases, starts[i], old(world))
      ensures !e.SetupRaised? ==> LooksLike(cases, world, old(world))
    {
      starts := [];
      for k := 0 to |cases|
        invariant |starts| == k
        invariant LooksLike(cases, world, old(world))
        invariant forall i :: 0 <= i < k ==> LooksLike(cases, starts[i], old(world))
      {
        starts := starts + [world];
        if !Enter(world, cases[k].fixture, cases[k].fault).raised { CaseKeepsView(world, cases[k]); }
        assert cases[k] in cases;
        e := WithFixtures(cases[k].fixture, cases[k].fault, cases[k].body);
        if !e.Normal? { return; }
      }
      e := Normal;
    }
  }

  datatype CaseRun = CaseRun(fixture: Fixture, fault: Option<Fault>, body: Body)

  function Scoped(w: World, f: Fixture, fault: Option<Fault>, body: Body): (World, Ending) {
    var entered := Enter(w, f, fault);
    if entered.raised then (entered.world, SetupRaised)
    else (Leave(body.run(entered.world), entered.saved), if body.raises then BodyRaised else Normal)
  }

  // What a case in a suite finds: the settings always, the Iris client unless a body deletes
  // the attribute, and every client attribute unless a body sets some itself.
  ghost predicate LooksLike(cases: seq<CaseRun>, w: World, start: World) {
    && w.settings == start.settings
    && ((forall c :: c in cases ==> KeepsIris(c.body)) ==> IrisView(w) == IrisView(start))
    && ((forall c :: c in cases ==> KeepsAttributes(c.body)) ==>
        forall k: ClientId, n: Name :: Attribute(w, k, n) == Attribute(start, k, n))
  }

  ghost predicate KeepsAttributes(body: Body) {
    forall w :: body.run(w).clients == w.clients
  }

  // The body may replace the router's Iris client, but does not delete the attribute or
  // make the router another kind of object.
  ghost predicate KeepsIris(body: Body) {
    forall w ::
      && body.run(w).router.Some? == w.router.Some?
      && (w.router.Some? && w.router.value.iris.Holds? ==> body.run(w).router.value.iris.Holds?)
  }

  // ---- what a scope leaves behind ---------------------------------------------------------------

  predicate IsSaved(attrs: seq<SavedAttr>, c: ClientId, n: Name) {
    exists i :: 0 <= i < |attrs| && attrs[i].client == c && attrs[i].name == n
  }

  lemma {:induction false} RestoreAttrsFrame(w: World, attrs: seq<SavedAttr>)
    ensures RestoreAttrs(w, attrs).settings == w.settings && RestoreAttrs(w, attrs).router == w.router
    decreases |attrs|
  {
    if attrs != [] {
      var last := attrs[|attrs| - 1];
      RestoreAttrsFrame(SetAttribute(w, last.client, last.name, last.was), attrs[..|attrs| - 1]);
    }
  }

  // Restoring sets every remembered attribute to its first remembered value and no other.
  lemma {:induction false} RestoreAttrsExactly(w: World, attrs: seq<SavedAttr>, c: ClientId, n: Name)
    requires forall i, j :: 0 <= i < j < |attrs| ==>
      (attrs[i].client, attrs[i].name) != (attrs[j].client, attrs[j].name)
    ensures !IsSaved(attrs, c, n) ==> Attribute(RestoreAttrs(w, attrs), c, n) == Attribute(w, c, n)
    ensures forall i :: 0 <= i < |attrs| && attrs[i].client == c && attrs[i].name == n ==>
      Attribute(RestoreAttrs(w, attrs), c, n) == Some(attrs[i].was)
    decreases |attrs|
  {
    if attrs != [] {
      var k := |attrs| - 1;
      var w' := SetAttribute(w, attrs[k].client, attrs[k].name, attrs[k].was);
      RestoreAttrsExactly(w', attrs[..k], c, n);
      assert forall i :: 0 <= i < k ==> attrs[..k][i] == attrs[i];
    }
  }

  // What has been remembered is what was there at entry, each attribute at most once.
  ghost predicate SavesEntry(attrs: seq<SavedAttr>, w: World) {
    && (forall i :: 0 <= i < |attrs| ==> Attribute(w, attrs[i].client, attrs[i].name) == Some(attrs[i].was))
    && (forall i, j :: 0 <= i < j < |attrs| ==> (attrs[i].client, attrs[i].name) != (attrs[j].client, attrs[j].name))
  }

  // The two rounds remember the entry values of what they replace, and replace nothing else.
  lemma HealthSaves(e: Entered, c: ClientId, fault: Option<Fault>)
    requires !e.raised && e.saved.attrs == []
    ensures var out := ReplaceAttr(ReplaceAttr(e, c, Healthy, fault), c, Chat, fault);
      && SavesEntry(out.saved.attrs, e.world)
      && out.saved == e.saved.(attrs := out.saved.attrs)
      && forall k: ClientId, n: Name :: !IsSaved(out.saved.attrs, k, n) ==>
        Attribute(out.world, k, n) == Attribute(e.world, k, n)
  {
    var one := ReplaceAttr(e, c, Healthy, fault);
    var out := ReplaceAttr(one, c, Chat, fault);
    assert Attribute(one.world, c, Chat) == Attribute(e.world, c, Chat);
    forall k: ClientId, n: Name | !IsSaved(out.saved.attrs, k, n)
      ensures Attribute(out.world, k, n) == Attribute(e.world, k, n)
    {
      if k == c {
        if one.saved.attrs != [] { assert out.saved.attrs[0] == one.saved.attrs[0]; }
        if out.saved.attrs != [] { assert out.saved.attrs[|out.saved.attrs| - 1].client == c; }
      }
    }
  }

  // Set-up changes only attributes it has remembered.
  lemma EnterSaves(w: World, f: Fixture, fault: Option<Fault>)
    ensures var e := Enter(w, f, fault);
      && e.saved.settings == w.settings && e.saved.iris == IrisView(w)
      && SavesEntry(e.saved.attrs, w)
      && forall k: ClientId, n: Name :: !IsSaved(e.saved.attrs, k, n) ==> Attribute(e.world, k, n) == Attribute(w, k, n)
  {
    var start := ApplyCloud(Begin(w), f, fault);
    var c := HealthClient(start.world);
    if !start.raised && f.heavyLocalDown && c.Some? { HealthSaves(start, c.value, fault); }
    CloudKeepsClients(Begin(w), f, fault);
    IrisKeepsClients(ApplyHealth(start, f, fault), f, fault);
  }

  lemma CloudKeepsClients(e: Entered, f: Fixture, fault: Option<Fault>)
    ensures var out := ApplyCloud(e, f, fault); out.saved == e.saved && out.world.clients == e.world.clients
  {
  }

  lemma IrisKeepsClients(e: Entered, f: Fixture, fault: Option<Fault>)
    ensures var out := ApplyIris(e, f, fault); out.saved == e.saved && out.world.clients == e.world.clients
  {
  }

  // The client whose health the fixtures fake: the heavy reasoning one, or the plain one.
  predicate IsHealthClient(w: World, k: ClientId) {
    && w.router.Some?
    && (w.router.value.reasoning == Some(k) || (w.router.value.reasoning.None? && w.router.value.ollama == Some(k)))
  }

  lemma SettingsShown(w: World, f: Fixture, fault: Option<Fault>)
    requires !Enter(w, f, fault).raised
    ensures var e := Enter(w, f, fault).world; var iris := w.router.Some? && f.iris;
      && e.settings == Settings(f.cloud.GetOr(w.settings.cloud), iris || w.settings.iris, iris || w.settings.advisory,
                                w.settings.threshold)
      && e.router == if iris then Some(w.router.value.(iris := Holds(Some(FixtureIris)))) else w.router
  {
    HealthKeepsRouter(w, f, fault);
  }

  lemma ClientsShown(w: World, f: Fixture, fault: Option<Fault>, k: ClientId, n: Name)
    requires !Enter(w, f, fault).raised
    ensures Attribute(Enter(w, f, fault).world, k, n) ==
      if f.heavyLocalDown && IsHealthClient(w, k) && Attribute(w, k, n).Some? then
        Some(if n == Healthy then Unhealthy else Unavailable)
      else Attribute(w, k, n)
  {
    var start := ApplyCloud(Begin(w), f, fault);
    var c := HealthClient(start.world);
    if f.heavyLocalDown && c.Some? { HealthShows(start, c.value, fault); }
    IrisKeepsClients(ApplyHealth(start, f, fault), f, fault);
  }

  // What the body of the case finds: the cloud setting that was asked for, Iris switched on and
  // replaced, and on the health client, as far as it has them, a `healthy` that says no and a
  // `chat` that fails. Nothing else.
  lemma ScopeShows(w: World, f: Fixture, fault: Option<Fault>)
    requires !Enter(w, f, fault).raised
    ensures var e := Enter(w, f, fault).world; var iris := w.router.Some? && f.iris;
      && e.settings == Settings(f.cloud.GetOr(w.settings.cloud), iris || w.settings.iris, iris || w.settings.advisory,
                                w.settings.threshold)
      && e.router == (if iris then Some(w.router.value.(iris := Holds(Some(FixtureIris)))) else w.router)
      && (forall k: ClientId, n: Name :: Has(e, k, n) <==> Has(w, k, n))
      && (forall k: ClientId, n: Name :: Has(e, k, n) && Has(w, k, n) ==>
            e.clients[k][n] ==
              if f.heavyLocalDown && IsHealthClient(w, k) then if n == Healthy then Unhealthy else Unavailable
              else w.clients[k][n])
  {
    SettingsShown(w, f, fault);
    forall k: ClientId, n: Name
      ensures var e := Enter(w, f, fault).world; Has(e, k, n) <==> Has(w, k, n)
      ensures var e := Enter(w, f, fault).world; Has(e, k, n) && Has(w, k, n) ==>
        Some(e.clients[k][n]) == Attribute(e, k, n) && Some(w.clients[k][n]) == Attribute(w, k, n)
    {
      ClientsShown(w, f, fault, k, n);
    }
    forall k: ClientId, n: Name { ClientsShown(w, f, fault, k, n); }
  }

  predicate Has(w: World, k: ClientId, n: Name) {
    k in w.clients && n in w.clients[k]
  }

  lemma HealthShows(e: Entered, c: ClientId, fault: Option<Fault>)
    requires !e.raised
    ensures var out := ReplaceAttr(ReplaceAttr(e, c, Healthy, fault), c, Chat, fault);
      && out.world.settings == e.world.settings
      && (!out.raised ==> forall k: ClientId, n: Name ::
            Attribute(out.world, k, n) ==
              if k == c && Attribute(e.world, k, n).Some? then Some(if n == Healthy then Unhealthy else Unavailable)
              else Attribute(e.world, k, n))
  {
  }

  // Non-interference: however the body ends and whatever it did, a completed scope puts back
  // the settings and every attribute the fixtures replaced, and touches no other attribute.
  // The Iris client is as at entry if and only if the router still has the attribute after
  // the body, or had no client at entry.
  lemma ScopeRestores(w: World, f: Fixture, fault: Option<Fault>, body: Body)
    requires !Enter(w, f, fault).raised
    ensures var e, b := Enter(w, f, fault), body.run(Enter(w, f, fault).world);
      var out := Scoped(w, f, fault, body).0;
      && out.settings == w.settings
      && (IrisView(out) == IrisView(w) <==> (b.router.Some? && b.router.value.iris.Holds?) || IrisView(w).None?)
      && forall k: ClientId, n: Name ::
           Attribute(out, k, n) == if IsSaved(e.saved.attrs, k, n) then Attribute(w, k, n) else Attribute(b, k, n)
  {
    var e, b := Enter(w, f, fault), body.run(Enter(w, f, fault).world);
    var mid := RestoreRouter(b.(settings := e.saved.settings), e.saved);
    EnterSaves(w, f, fault);
    RestoreAttrsFrame(mid, e.saved.attrs);
    forall k: ClientId, n: Name
      ensures Attribute(RestoreAttrs(mid, e.saved.attrs), k, n) ==
        if IsSaved(e.saved.attrs, k, n) then Attribute(w, k, n) else Attribute(b, k, n)
    {
      RestoreAttrsExactly(mid, e.saved.attrs, k, n);
    }
  }

  function DeleteIris(w: World): World {
    if w.router.Some? then w.(router := Some(w.router.value.(iris := Missing))) else w
  }

  // So a body that deletes the attribute leaves the router without the client it had.
  lemma DeletedIrisIsLost(w: World, f: Fixture, fault: Option<Fault>, raises: bool)
    requires !Enter(w, f, fault).raised && IrisView(w).Some?
    ensures IrisView(Scoped(w, f, fault, Body(DeleteIris, raises)).0) == None
  {
    var e := Enter(w, f, fault);
    RestoreAttrsFrame(RestoreRouter(DeleteIris(e.world).(settings := e.saved.settings), e.saved), e.saved.attrs);
  }

  // One case of a suite hands the world on as it found it.
  lemma CaseKeepsView(w: World, c: CaseRun)
    requires !Enter(w, c.fixture, c.fault).raised
    ensures var out := Scoped(w, c.fixture, c.fault, c.body).0;
      && out.settings == w.settings
      && (KeepsIris(c.body) ==> IrisView(out) == IrisView(w))
      && (KeepsAttributes(c.body) ==> forall k: ClientId, n: Name :: Attribute(out, k, n) == Attribute(w, k, n))
  {
    var e := Enter(w, c.fixture, c.fault);
    ScopeRestores(w, c.fixture, c.fault, c.body);
    if KeepsIris(c.body) { IrisKept(w, c); }
    if KeepsAttributes(c.body) { EnterSaves(w, c.fixture, c.fault); }
  }

  lemma IrisKept(w: World, c: CaseRun)
    requires !Enter(w, c.fixture, c.fault).raised && KeepsIris(c.body)
    ensures IrisView(Scoped(w, c.fixture, c.fault, c.body).0) == IrisView(w)
  {
    var e := Enter(w, c.fixture, c.fault);
    ScopeRestores(w, c.fixture, c.fault, c.body);
    HealthKeepsRouter(w, c.fixture, c.fault);
    var b := c.body.run(e.world);
    assert b.router.Some? == e.world.router.Some?;
    RestoreAttrsFrame(RestoreRouter(b.(settings := e.saved.settings), e.saved), e.saved.attrs);
  }

  // A body that leaves attributes as it finds them: then every attribute of every client is
  // as it was, and only a missing Iris attribute can differ: it comes back holding None.
  lemma GentleScopeRestoresAll(w: World, f: Fixture, fault: Option<Fault>, body: Body)
    requires !Enter(w, f, fault).raised
    requires var e := Enter(w, f, fault).world; body.run(e).clients == e.clients && body.run(e).router == e.router
    ensures var out := Scoped(w, f, fault, body).0;
      && out.settings == w.settings && IrisView(out) == IrisView(w)
      && (forall k: ClientId, n: Name :: Attribute(out, k, n) == Attribute(w, k, n))
      && (out.router == w.router <==> !(w.router.Some? && w.router.value.iris.Missing? && f.iris))
  {
    var e := Enter(w, f, fault);
    EnterSaves(w, f, fault);
    ScopeRestores(w, f, fault, body);
    var mid := RestoreRouter(body.run(e.world).(settings := e.saved.settings), e.saved);
    RestoreAttrsFrame(mid, e.saved.attrs);
    HealthKeepsRouter(w, f, fault);
  }

  lemma HealthKeepsRouter(w: World, f: Fixture, fault: Option<Fault>)
    ensures var e := Enter(w, f, fault);
      e.world.router ==
        if w.router.Some? && f.iris && !e.raised then Some(w.router.value.(iris := Holds(Some(FixtureIris))))
        else w.router
  {
  }

  // ---- a set-up that raises ------------------------------------------------------------------------

  // The health fixture does not apply to this attribute, or finds it replaced already.
  predicate Untouched(w: World, f: Fixture, n: Name) {
    var c := HealthClient(w);
    !f.heavyLocalDown || c.None? || Attribute(w, c.value, n) in {None, Some(Replacement(n))}
  }

  lemma SetSame(w: World, c: ClientId, n: Name, b: Behaviour)
    requires Attribute(w, c, n).Some?
    ensures SetAttribute(w, c, n, b) == w <==> Attribute(w, c, n) == Some(b)
  {
    if Attribute(w, c, n) == Some(b) {
      assert w.clients[c][n := b] == w.clients[c];
      assert w.clients[c := w.clients[c][n := b]] == w.clients;
    } else {
      assert Attribute(SetAttribute(w, c, n, b), c, n) == Some(b);
    }
  }

  // One round leaves the world alone exactly when it finds nothing new to do.
  lemma RoundChanges(e: Entered, c: ClientId, n: Name, fault: Option<Fault>)
    ensures var out := ReplaceAttr(e, c, n, fault);
      && out.world == e.world.(clients := out.world.clients)
      && (out.world == e.world <==>
            e.raised || fault == Some(FaultOf(n)) || Attribute(e.world, c, n) in {None, Some(Replacement(n))})
  {
    if Attribute(e.world, c, n).Some? { SetSame(e.world, c, n, Replacement(n)); }
  }

  lemma HealthChanges(e: Entered, f: Fixture, fault: Fault)
    requires !e.raised
    requires ApplyHealth(e, f, Some(fault)).raised || fault in {EnablingIris, EnablingAdvisory, SettingIrisClient}
    ensures var out := ApplyHealth(e, f, Some(fault));
      && out.world == e.world.(clients := out.world.clients)
      && (out.world == e.world <==>
            || fault == SettingHealthy
            || (fault == SettingChat && Untouched(e.world, f, Healthy))
            || (Untouched(e.world, f, Healthy) && Untouched(e.world, f, Chat)))
  {
    var c := HealthClient(e.world);
    if f.heavyLocalDown && c.Some? {
      var one := ReplaceAttr(e, c.value, Healthy, Some(fault));
      RoundChanges(e, c.value, Healthy, Some(fault));
      RoundChanges(one, c.value, Chat, Some(fault));
      var two := ReplaceAttr(one, c.value, Chat, Some(fault));
      assert Attribute(one.world, c.value, Chat) == Attribute(e.world, c.value, Chat);
      assert Attribute(two.world, c.value, Healthy) == Attribute(one.world, c.value, Healthy);
    }
  }

  // The set-up stands before the try, so nothing is undone when it raises. The world is as
  // it was exactly when the set-up had changed nothing yet: it raised at the cloud setting,
  // or that was not given or had the value already, no attribute had been replaced by
  // another, and the Iris settings written by then were on already.
  lemma RaisingSetupLeaks(w: World, f: Fixture, fault: Fault, body: Body)
    requires Enter(w, f, Some(fault)).raised
    ensures Scoped(w, f, Some(fault), body).1 == SetupRaised
    ensures Scoped(w, f, Some(fault), body).0 == w <==>
      || fault == SettingCloud
      || (&& (f.cloud.Some? ==> f.cloud.value == w.settings.cloud)
          && (|| fault == SettingHealthy
              || (fault == SettingChat && Untouched(w, f, Healthy))
              || (Untouched(w, f, Healthy) && Untouched(w, f, Chat)))
          && (fault == EnablingAdvisory ==> w.settings.iris)
          && (fault == SettingIrisClient ==> w.settings.iris && w.settings.advisory))
  {
    var start := ApplyCloud(Begin(w), f, Some(fault));
    if start.raised { return; }
    HealthChanges(start, f, fault);
    assert forall n: Name :: Untouched(start.world, f, n) == Untouched(w, f, n);
    var health := ApplyHealth(start, f, Some(fault));
    assert Scoped(w, f, Some(fault), body).0 == ApplyIris(health, f, Some(fault)).world;
  }

  // So a raising set-up can leave a setting changed for good: here the cloud setting.
  lemma CloudSettingLeaks(w: World, body: Body)
    requires w.router.Some?
    ensures var f := Fixture(Some(!w.settings.cloud), false, true);
      Scoped(w, f, Some(EnablingIris), body) == (w.(settings := w.settings.(cloud := !w.settings.cloud)), SetupRaised)
  {
  }
}
