/** What a comparison of two reports says, line by line: after minus before, and last lines win. */
module ReportChanges {
  import opened TextOrder
  import opened Comparison

  // ---- certification reports -------------------------------------------------------------

  // The last case with the id.
  ghost predicate LastCase(cases: seq<CaseLine>, i: int, id: string) {
    && 0 <= i < |cases| && cases[i].category + "/" + cases[i].suite + "/" + cases[i].name == id
    && forall k :: i < k < |cases| ==> cases[k].category + "/" + cases[k].suite + "/" + cases[k].name != id
  }

  lemma {:induction false} LastCaseCounts(cases: seq<CaseLine>, id: string)
    ensures id in ById(cases) <==> exists i :: LastCase(cases, i, id)
    ensures forall i :: LastCase(cases, i, id) ==> id in ById(cases) && ById(cases)[id] == cases[i].passed
    decreases |cases|
  {
    if cases != [] {
      var n := |cases| - 1;
      var init := cases[..n];
      LastCaseCounts(init, id);
      if CaseId(cases[n]) == id {
        assert LastCase(cases, n, id);
      } else {
        assert forall i :: LastCase(cases, i, id) ==> LastCase(init, i, id);
        assert forall i :: LastCase(init, i, id) ==> LastCase(cases, i, id);
      }
    }
  }

  // A case regresses when its last line passed before and fails after, and improves the other
  // way round; the lists are in order, and score and time are after minus before.
  lemma CertificationSays(l: Certification, r: Certification, i: int, j: int, id: string)
    requires LastCase(l.cases, i, id) && LastCase(r.cases, j, id)
    ensures var c := CompareCertifications(l, r);
      && c.score == r.score - l.score && c.time == r.time - l.time
      && (id in c.regressions <==> l.cases[i].passed && !r.cases[j].passed)
      && (id in c.improvements <==> !l.cases[i].passed && r.cases[j].passed)
      && StrictlySorted(c.regressions) && StrictlySorted(c.improvements)
  {
    LastCaseCounts(l.cases, id);
    LastCaseCounts(r.cases, id);
  }

  // A case that one of the reports does not have is in neither list.
  lemma MissingCase(l: Certification, r: Certification, id: string)
    requires (forall i :: !LastCase(l.cases, i, id)) || (forall i :: !LastCase(r.cases, i, id))
    ensures id !in CompareCertifications(l, r).regressions && id !in CompareCertifications(l, r).improvements
  {
    LastCaseCounts(l.cases, id);
    LastCaseCounts(r.cases, id);
  }

  // ---- benchmark reports -----------------------------------------------------------------

  // The last entry of the target.
  ghost predicate LastTarget(entries: seq<TargetLine>, i: int, id: string) {
    && 0 <= i < |entries| && entries[i].id == id
    && forall k :: i < k < |entries| ==> entries[k].id != id
  }

  lemma {:induction false} LastTargetCounts(entries: seq<TargetLine>, id: string)
    ensures id in Targets(entries) <==> exists i :: LastTarget(entries, i, id)
    ensures forall i :: LastTarget(entries, i, id) ==>
      id in Targets(entries) && Targets(entries)[id] == entries[i].figures
    decreases |entries|
  {
    if entries != [] {
      var n := |entries| - 1;
      var init := entries[..n];
      LastTargetCounts(init, id);
      if entries[n].id == id {
        assert LastTarget(entries, n, id);
      } else {
        assert forall i :: LastTarget(entries, i, id) ==> LastTarget(init, i, id);
        assert forall i :: LastTarget(init, i, id) ==> LastTarget(entries, i, id);
      }
    }
  }

  // The figures of a target in both reports: every delta is after minus before, a category that
  // one of them lacks counts as nothing, and the sign of the score decides between the lists.
  lemma BenchmarkSays(l: Benchmark, r: Benchmark, i: int, j: int, id: string)
    requires LastTarget(l.entries, i, id) && LastTarget(r.entries, j, id)
    ensures id in CompareBenchmarks(l, r).deltas
    ensures var c, before, after := CompareBenchmarks(l, r), l.entries[i].figures, r.entries[j].figures;
      var d := c.deltas[id];
      && d.score == after.score - before.score
      && d.latency == after.latency - before.latency
      && d.failures == after.failures - before.failures
      && (forall k :: k in d.categories <==> k in before.categories || k in after.categories)
      && (forall k :: k in d.categories ==>
            d.categories[k] == (if k in after.categories then after.categories[k] else 0.0) -
                               (if k in before.categories then before.categories[k] else 0.0))
      && (id in c.regressions <==> after.score < before.score)
      && (id in c.improvements <==> after.score > before.score)
      && StrictlySorted(c.regressions) && StrictlySorted(c.improvements)
  {
    LastTargetCounts(l.entries, id);
    LastTargetCounts(r.entries, id);
  }

  lemma MissingTarget(l: Benchmark, r: Benchmark, id: string)
    requires (forall i :: !LastTarget(l.entries, i, id)) || (forall i :: !LastTarget(r.entries, i, id))
    ensures var c := CompareBenchmarks(l, r);
      id !in c.deltas && id !in c.regressions && id !in c.improvements
  {
    LastTargetCounts(l.entries, id);
    LastTargetCounts(r.entries, id);
  }

  // A ranking that one of the reports lacks is an empty one; those that differ are shown as they
  // were before and as they are after.
  lemma RankingsSay(l: Benchmark, r: Benchmark, metric: string)
    ensures var c := CompareBenchmarks(l, r).rankings;
      var before := if metric in l.rankings then l.rankings[metric] else [];
      var after := if metric in r.rankings then r.rankings[metric] else [];
      if before == after then metric !in c else metric in c && c[metric] == Reordering(before, after)
  {
  }
}
