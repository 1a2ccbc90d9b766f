/** Comparing two reports: what regressed, what improved, and by how much. */
module Comparison {
  import opened TextOrder

  // ---- sorted key sets ----------------------------------------------------------------------

  ghost function SortedKeys(s: set<string>): (r: seq<string>)
    ensures StrictlySorted(r)
    ensures forall x :: x in r <==> x in s
    decreases |s|
  {
    if s == {} then []
    else
      LeastExists(s);
      var m :| m in s && forall y :: y in s ==> StrLe(m, y);
      var rest := SortedKeys(s - {m});
      assert forall i :: 0 <= i < |rest| ==> rest[i] in rest;
      [m] + rest
  }

  lemma SortedKeysUnique(s: set<string>, r: seq<string>)
    requires StrictlySorted(r) && forall x :: x in r <==> x in s
    ensures r == SortedKeys(s)
  {
    StrictlySortedUnique(r, SortedKeys(s));
  }

  // The keys in ascending order: what a loop over sorted(keys) visits.
  method InOrder(s: set<string>) returns (r: seq<string>)
    ensures r == SortedKeys(s)
  {
    r := [];
    var left := s;
    while left != {}
      invariant left <= s && StrictlySorted(r)
      invariant forall x :: x in r <==> x in s && x !in left
      invariant forall x, y :: x in r && y in left ==> StrLt(x, y)
      decreases |left|
    {
      LeastExists(left);
      var m :| m in left && forall y :: y in left ==> StrLe(m, y);
      assert forall i :: 0 <= i < |r| ==> r[i] in r;
      r := r + [m];
      left := left - {m};
    }
    SortedKeysUnique(s, r);
  }

  // ---- certification reports --------------------------------------------------------------------

  datatype CaseLine = CaseLine(category: string, suite: string, name: string, passed: bool)

  datatype Certification = Certification(score: real, time: real, cases: seq<CaseLine>)

  function CaseId(c: CaseLine): string {
    c.category + "/" + c.suite + "/" + c.name
  }

  // The dictionary of cases by id: a later case with the same id replaces an earlier one.
  function ById(cases: seq<CaseLine>): map<string, bool> {
    if cases == [] then map[]
    else ById(cases[..|cases| - 1])[CaseId(cases[|cases| - 1]) := cases[|cases| - 1].passed]
  }

  datatype CertificationChange = CertificationChange(score: real, time: real, regressions: seq<string>,
                                                     improvements: seq<string>)

  function Broken(before: map<string, bool>, after: map<string, bool>): set<string> {
    set id | id in before.Keys * after.Keys && before[id] && !after[id]
  }

  function Fixed(before: map<string, bool>, after: map<string, bool>): set<string> {
    set id | id in before.Keys * after.Keys && !before[id] && after[id]
  }

  ghost function CompareCertifications(l: Certification, r: Certification): CertificationChange {
    var before, after := ById(l.cases), ById(r.cases);
    CertificationChange(r.score - l.score, r.time - l.time,
      SortedKeys(Broken(before, after)),
      SortedKeys(Fixed(before, after)))
  }

  // Of the first k ids, in order, those that are wanted.
  ghost predicate Collected(found: seq<string>, ids: seq<string>, k: nat, wanted: set<string>)
    requires k <= |ids|
  {
    StrictlySorted(found) && forall x :: x in found <==> x in ids[..k] && x in wanted
  }

  lemma CollectNext(found: seq<string>, ids: seq<string>, k: nat, wanted: set<string>)
    requires StrictlySorted(ids) && k < |ids| && Collected(found, ids, k, wanted)
    ensures Collected(if ids[k] in wanted then found + [ids[k]] else found, ids, k + 1, wanted)
  {
    assert ids[..k + 1] == ids[..k] + [ids[k]];
    AppendKeepsOrder(ids, k, found);
  }

  method CompareCertificationReports(l: Certification, r: Certification) returns (c: CertificationChange)
    ensures c == CompareCertifications(l, r)
  {
    var before, after := ById(l.cases), ById(r.cases);
    var ids := InOrder(before.Keys * after.Keys);
    var regressions, improvements := [], [];
    for k := 0 to |ids|
      invariant Collected(regressions, ids, k, Broken(before, after))
      invariant Collected(improvements, ids, k, Fixed(before, after))
    {
      var id := ids[k];
      assert id in ids && id in before.Keys * after.Keys;
      CollectNext(regressions, ids, k, Broken(before, after));
      CollectNext(improvements, ids, k, Fixed(before, after));
      if before[id] && !after[id] { regressions := regressions + [id]; }
      if !before[id] && after[id] { improvements := improvements + [id]; }
    }
    assert ids[..|ids|] == ids;
    SortedKeysUnique(Broken(before, after), regressions);
    SortedKeysUnique(Fixed(before, after), improvements);
    c := CertificationChange(r.score - l.score, r.time - l.time, regressions, improvements);
  }

  // A list drawn from the ids visited so far stays sorted when the next id is appended.
  lemma AppendKeepsOrder(ids: seq<string>, k: nat, s: seq<string>)
    requires StrictlySorted(ids) && k < |ids| && StrictlySorted(s) && forall x :: x in s ==> x in ids[..k]
    ensures StrictlySorted(s + [ids[k]])
  {
    forall i | 0 <= i < |s| ensures StrLt(s[i], ids[k]) {
      assert s[i] in ids[..k];
    }
  }

  // ---- benchmark reports ---------------------------------------------------------------------------

  datatype Figures = Figures(score: real, latency: real, failures: int, categories: map<string, real>)

  datatype TargetLine = TargetLine(id: string, figures: Figures)

  datatype Benchmark = Benchmark(entries: seq<TargetLine>, rankings: map<string, seq<string>>)

  function Targets(entries: seq<TargetLine>): map<string, Figures> {
    if entries == [] then map[]
    else Targets(entries[..|entries| - 1])[entries[|entries| - 1].id := entries[|entries| - 1].figures]
  }

  datatype Delta = Delta(score: real, latency: real, failures: int, categories: map<string, real>)

  datatype Reordering = Reordering(before: seq<string>, after: seq<string>)

  datatype BenchmarkChange = BenchmarkChange(
    deltas: map<string, Delta>, regressions: seq<string>, improvements: seq<string>, rankings: map<string, Reordering>)

  function Value(m: map<string, real>, c: string): real {
    if c in m then m[c] else 0.0
  }

  function Ranked(m: map<string, seq<string>>, metric: string): seq<string> {
    if metric in m then m[metric] else []
  }

  function ScoreDelta(l: map<string, real>, r: map<string, real>): map<string, real> {
    map c | c in l.Keys + r.Keys :: Value(r, c) - Value(l, c)
  }

  function RankingChanges(l: map<string, seq<string>>, r: map<string, seq<string>>): map<string, Reordering> {
    map m | m in l.Keys + r.Keys && Ranked(l, m) != Ranked(r, m) :: Reordering(Ranked(l, m), Ranked(r, m))
  }

  function Change(before: Figures, after: Figures): Delta {
    Delta(after.score - before.score, after.latency - before.latency, after.failures - before.failures,
          ScoreDelta(before.categories, after.categories))
  }

  function Lower(before: map<string, Figures>, after: map<string, Figures>): set<string> {
    set id | id in before.Keys * after.Keys && after[id].score < before[id].score
  }

  function Higher(before: map<string, Figures>, after: map<string, Figures>): set<string> {
    set id | id in before.Keys * after.Keys && after[id].score > before[id].score
  }

  ghost function CompareBenchmarks(l: Benchmark, r: Benchmark): BenchmarkChange {
    var before, after := Targets(l.entries), Targets(r.entries);
    BenchmarkChange(
      map id | id in before.Keys * after.Keys :: Change(before[id], after[id]),
      SortedKeys(Lower(before, after)),
      SortedKeys(Higher(before, after)),
      RankingChanges(l.rankings, r.rankings))
  }

  // The lists so far, after the ids in `seen`.
  ghost predicate ListsAgree(before: map<string, Figures>, after: map<string, Figures>, seen: seq<string>,
                             regressions: seq<string>, improvements: seq<string>)
  {
    && StrictlySorted(regressions) && StrictlySorted(improvements)
    && (forall x :: x in regressions <==> x in seen && x in Lower(before, after))
    && (forall x :: x in improvements <==> x in seen && x in Higher(before, after))
  }

  lemma ListsStep(before: map<string, Figures>, after: map<string, Figures>, ids: seq<string>, k: nat,
                  regressions: seq<string>, improvements: seq<string>)
    requires StrictlySorted(ids) && k < |ids| && ids[k] in before && ids[k] in after
    requires ListsAgree(before, after, ids[..k], regressions, improvements)
    ensures ListsAgree(before, after, ids[..k + 1],
      if after[ids[k]].score < before[ids[k]].score then regressions + [ids[k]] else regressions,
      if after[ids[k]].score > before[ids[k]].score then improvements + [ids[k]] else improvements)
  {
    assert ids[..k + 1] == ids[..k] + [ids[k]];
    AppendKeepsOrder(ids, k, regressions);
    AppendKeepsOrder(ids, k, improvements);
  }

  ghost predicate DeltasAgree(before: map<string, Figures>, after: map<string, Figures>, seen: seq<string>,
                              deltas: map<string, Delta>) {
    && (forall id :: id in deltas <==> id in seen && id in before.Keys * after.Keys)
    && (forall id :: id in deltas ==> deltas[id] == Change(before[id], after[id]))
  }

  lemma DeltasStep(before: map<string, Figures>, after: map<string, Figures>, ids: seq<string>, k: nat,
                   deltas: map<string, Delta>)
    requires k < |ids| && ids[k] in before && ids[k] in after && DeltasAgree(before, after, ids[..k], deltas)
    ensures DeltasAgree(before, after, ids[..k + 1], deltas[ids[k] := Change(before[ids[k]], after[ids[k]])])
  {
    assert ids[..k + 1] == ids[..k] + [ids[k]];
  }

  lemma AllDeltas(before: map<string, Figures>, after: map<string, Figures>, ids: seq<string>,
                  deltas: map<string, Delta>)
    requires ids == SortedKeys(before.Keys * after.Keys) && DeltasAgree(before, after, ids, deltas)
    ensures deltas == map id | id in before.Keys * after.Keys :: Change(before[id], after[id])
  {
  }

  method CompareBenchmarkReports(l: Benchmark, r: Benchmark) returns (c: BenchmarkChange)
    ensures c == CompareBenchmarks(l, r)
  {
    var before, after := Targets(l.entries), Targets(r.entries);
    var ids := InOrder(before.Keys * after.Keys);
    var deltas: map<string, Delta> := map[];
    var regressions, improvements := [], [];
    for k := 0 to |ids|
      invariant DeltasAgree(before, after, ids[..k], deltas)
      invariant ListsAgree(before, after, ids[..k], regressions, improvements)
    {
      var id := ids[k];
      assert id in ids && id in before.Keys * after.Keys;
      DeltasStep(before, after, ids, k, deltas);
      ListsStep(before, after, ids, k, regressions, improvements);
      var delta := Change(before[id], after[id]);
      deltas := deltas[id := delta];
      if delta.score < 0.0 { regressions := regressions + [id]; }
      if delta.score > 0.0 { improvements := improvements + [id]; }
    }
    assert ids[..|ids|] == ids;
    AllDeltas(before, after, ids, deltas);
    SortedKeysUnique(Lower(before, after), regressions);
    SortedKeysUnique(Higher(before, after), improvements);
    c := BenchmarkChange(deltas, regressions, improvements, RankingChanges(l.rankings, r.rankings));
  }

  // ---- the algebra of comparison --------------------------------------------------------------------

  function Negated(d: Delta): Delta {
    Delta(-d.score, -d.latency, -d.failures, map c | c in d.categories :: -d.categories[c])
  }

  function Exchanged(r: Reordering): Reordering {
    Reordering(r.after, r.before)
  }

  lemma ChangeSwaps(before: Figures, after: Figures)
    ensures Change(after, before) == Negated(Change(before, after))
  {
    var forward, backward := ScoreDelta(before.categories, after.categories),
      ScoreDelta(after.categories, before.categories);
    assert backward == map c | c in forward :: -forward[c];
  }

  lemma RankingsSwap(l: map<string, seq<string>>, r: map<string, seq<string>>)
    ensures var c := RankingChanges(l, r); RankingChanges(r, l) == map m | m in c :: Exchanged(c[m])
  {
  }

  // Swapping the reports negates every delta, exchanges regressions with improvements, and
  // exchanges before with after in the same ranking changes.
  lemma SwapBenchmarks(l: Benchmark, r: Benchmark)
    ensures var c, s := CompareBenchmarks(l, r), CompareBenchmarks(r, l);
      && s.deltas == (map id | id in c.deltas :: Negated(c.deltas[id]))
      && s.regressions == c.improvements && s.improvements == c.regressions
      && s.rankings == (map m | m in c.rankings :: Exchanged(c.rankings[m]))
  {
    var before, after := Targets(l.entries), Targets(r.entries);
    var c, s := CompareBenchmarks(l, r), CompareBenchmarks(r, l);
    forall id | id in c.deltas ensures id in s.deltas && s.deltas[id] == Negated(c.deltas[id]) {
      ChangeSwaps(before[id], after[id]);
    }
    assert s.deltas.Keys == c.deltas.Keys;
    RankingsSwap(l.rankings, r.rankings);
    assert Lower(before, after) == Higher(after, before) && Higher(before, after) == Lower(after, before);
  }

  lemma SwapCertifications(l: Certification, r: Certification)
    ensures var c, s := CompareCertifications(l, r), CompareCertifications(r, l);
      s == CertificationChange(-c.score, -c.time, c.improvements, c.regressions)
  {
    var before, after := ById(l.cases), ById(r.cases);
    assert Broken(before, after) == Fixed(after, before) && Fixed(before, after) == Broken(after, before);
  }

  // Nothing both regresses and improves.
  lemma RegressionsAreNotImprovements(l: Certification, r: Certification, a: Benchmark, b: Benchmark, id: string)
    ensures !(id in CompareCertifications(l, r).regressions && id in CompareCertifications(l, r).improvements)
    ensures !(id in CompareBenchmarks(a, b).regressions && id in CompareBenchmarks(a, b).improvements)
  {
    var cases, cases' := ById(l.cases), ById(r.cases);
    var before, after := Targets(a.entries), Targets(b.entries);
    assert id in CompareCertifications(l, r).regressions ==> cases[id];
    assert id in CompareCertifications(l, r).improvements ==> !cases[id];
    assert id in CompareBenchmarks(a, b).regressions ==> after[id].score < before[id].score;
    assert id in CompareBenchmarks(a, b).improvements ==> after[id].score > before[id].score;
  }

  // A report compared with itself shows no change.
  lemma SelfComparison(l: Certification, b: Benchmark)
    ensures CompareCertifications(l, l) == CertificationChange(0.0, 0.0, [], [])
    ensures var c := CompareBenchmarks(b, b);
      && c.regressions == [] && c.improvements == [] && c.rankings == map[]
      && (forall id :: id in c.deltas ==>
            && c.deltas[id].score == 0.0 && c.deltas[id].latency == 0.0 && c.deltas[id].failures == 0
            && forall k :: k in c.deltas[id].categories ==> c.deltas[id].categories[k] == 0.0)
  {
    var cases, targets := ById(l.cases), Targets(b.entries);
    assert Broken(cases, cases) == {} && Fixed(cases, cases) == {} && Lower(targets, targets) == {}
      && Higher(targets, targets) == {};
  }

  // Deltas telescope: over three reports, for a target in all of them, the change from the
  // first to the last is the sum of the two changes between, category by category too.
  lemma DeltasTelescope(l: Benchmark, m: Benchmark, r: Benchmark, id: string, category: string)
    requires id in Targets(l.entries) && id in Targets(m.entries) && id in Targets(r.entries)
    ensures var a, b, c := CompareBenchmarks(l, m).deltas, CompareBenchmarks(m, r).deltas,
      CompareBenchmarks(l, r).deltas;
      && id in a && id in b && id in c
      && c[id].score == a[id].score + b[id].score
      && c[id].latency == a[id].latency + b[id].latency
      && c[id].failures == a[id].failures + b[id].failures
      && Value(c[id].categories, category) == Value(a[id].categories, category) + Value(b[id].categories, category)
  {
    var x, y, z := Targets(l.entries)[id].categories, Targets(m.entries)[id].categories,
      Targets(r.entries)[id].categories;
    assert Value(ScoreDelta(x, z), category) == Value(z, category) - Value(x, category);
    assert Value(ScoreDelta(x, y), category) == Value(y, category) - Value(x, category);
    assert Value(ScoreDelta(y, z), category) == Value(z, category) - Value(y, category);
  }

  // A target that regresses over a whole series regressed in one of its steps.
  lemma RegressionHasAStep(l: Benchmark, m: Benchmark, r: Benchmark, id: string)
    requires id in CompareBenchmarks(l, r).regressions && id in Targets(m.entries)
    ensures id in CompareBenchmarks(l, m).regressions || id in CompareBenchmarks(m, r).regressions
  {
    var before, mid, after := Targets(l.entries), Targets(m.entries), Targets(r.entries);
    assert id in Lower(before, after);
    assert id in Lower(before, mid) || id in Lower(mid, after);
  }
}
