/** Ranking of benchmark entries, and the cut-over gate that trusts the latency ranking. */
module Ranking {
  import opened Wrappers
  import opened TextOrder

  datatype Target = Target(provider: string, model: Option<string>)

  function ModelName(model: Option<string>): string {
    if model.Some? && model.value != "" then model.value else "default"
  }

  function TargetId(t: Target): string {
    t.provider + ":" + ModelName(t.model)
  }

  datatype Metrics = Metrics(
    overall: real, honesty: Option<real>, toolUse: Option<real>, routing: Option<real>,
    memory: Option<real>, vision: Option<real>, failures: nat, latency: real)

  datatype Entry = Entry(target: Target, metrics: Metrics)

  datatype Metric = OverallScore | Honesty | ToolUse | Routing | MemoryUse | Vision | Latency

  // ---- keys and their order ---------------------------------------------------------------

  // What sorted() compares: the score as a tuple, then the target id.
  datatype Key = Key(score: seq<real>, id: string)

  predicate ScoreLe(a: seq<real>, b: seq<real>) {
    a == [] || (b != [] && (a[0] < b[0] || (a[0] == b[0] && ScoreLe(a[1..], b[1..]))))
  }

  predicate KeyLe(a: Key, b: Key) {
    if a.score == b.score then StrLe(a.id, b.id) else ScoreLe(a.score, b.score)
  }

  predicate Before(a: Key, b: Key, descending: bool) {
    if descending then KeyLe(b, a) else KeyLe(a, b)
  }

  lemma {:induction false} ScoreLeTotal(a: seq<real>, b: seq<real>)
    ensures ScoreLe(a, b) || ScoreLe(b, a)
  {
    if a != [] && b != [] && a[0] == b[0] { ScoreLeTotal(a[1..], b[1..]); }
  }

  lemma {:induction false} ScoreLeAntisymmetric(a: seq<real>, b: seq<real>)
    requires ScoreLe(a, b) && ScoreLe(b, a)
    ensures a == b
  {
    if a != [] && b != [] {
      ScoreLeAntisymmetric(a[1..], b[1..]);
      assert a == [a[0]] + a[1..] && b == [b[0]] + b[1..];
    }
  }

  lemma {:induction false} ScoreLeTransitive(a: seq<real>, b: seq<real>, c: seq<real>)
    requires ScoreLe(a, b) && ScoreLe(b, c)
    ensures ScoreLe(a, c)
  {
    if a != [] && a[0] == b[0] && b[0] == c[0] { ScoreLeTransitive(a[1..], b[1..], c[1..]); }
  }

  lemma BeforeTotal(a: Key, b: Key, d: bool)
    ensures Before(a, b, d) || Before(b, a, d)
  {
    ScoreLeTotal(a.score, b.score);
    StrLeTotal(a.id, b.id);
  }

  lemma BeforeAntisymmetric(a: Key, b: Key, d: bool)
    requires Before(a, b, d) && Before(b, a, d)
    ensures a == b
  {
    if a.score == b.score { StrLeAntisymmetric(a.id, b.id); } else { ScoreLeAntisymmetric(a.score, b.score); }
  }

  lemma KeyLeTransitive(a: Key, b: Key, c: Key)
    requires KeyLe(a, b) && KeyLe(b, c)
    ensures KeyLe(a, c)
  {
    if a.score == b.score && b.score == c.score {
      StrLeTransitive(a.id, b.id, c.id);
    } else if a.score != b.score && b.score != c.score {
      ScoreLeTransitive(a.score, b.score, c.score);
      if a.score == c.score { ScoreLeAntisymmetric(a.score, b.score); }
    }
  }

  lemma BeforeTransitive(a: Key, b: Key, c: Key, d: bool)
    requires Before(a, b, d) && Before(b, c, d)
    ensures Before(a, c, d)
  {
    if d { KeyLeTransitive(c, b, a); } else { KeyLeTransitive(a, b, c); }
  }

  // ---- sorting ------------------------------------------------------------------------------

  ghost predicate Sorted(ks: seq<Key>, d: bool) {
    forall i, j :: 0 <= i < j < |ks| ==> Before(ks[i], ks[j], d)
  }

  function Insert(ks: seq<Key>, k: Key, d: bool): seq<Key> {
    if ks == [] || Before(k, ks[0], d) then [k] + ks
    else [ks[0]] + Insert(ks[1..], k, d)
  }

  function Sort(ks: seq<Key>, d: bool): seq<Key> {
    if ks == [] then [] else Insert(Sort(ks[1..], d), ks[0], d)
  }

  lemma {:induction false} InsertHolds(ks: seq<Key>, k: Key, d: bool)
    ensures multiset(Insert(ks, k, d)) == multiset(ks) + multiset{k}
  {
    if ks != [] && !Before(k, ks[0], d) {
      InsertHolds(ks[1..], k, d);
      assert ks == [ks[0]] + ks[1..];
    }
  }

  lemma HeadBefore(k: Key, ks: seq<Key>, d: bool)
    requires Sorted(ks, d) && ks != [] && Before(k, ks[0], d)
    ensures Sorted([k] + ks, d)
  {
    forall j | 0 <= j < |ks| ensures Before(k, ks[j], d) {
      if j > 0 { BeforeTransitive(k, ks[0], ks[j], d); }
    }
  }

  lemma HeadBeforeAll(k: Key, ks: seq<Key>, d: bool)
    requires Sorted(ks, d) && forall x :: x in multiset(ks) ==> Before(k, x, d)
    ensures Sorted([k] + ks, d)
  {
    assert forall j :: 0 <= j < |ks| ==> ks[j] in multiset(ks);
  }

  lemma {:induction false} InsertKeeps(ks: seq<Key>, k: Key, d: bool)
    requires Sorted(ks, d)
    ensures Sorted(Insert(ks, k, d), d) && multiset(Insert(ks, k, d)) == multiset(ks) + multiset{k}
  {
    InsertHolds(ks, k, d);
    if ks != [] {
      BeforeTotal(k, ks[0], d);
      if Before(k, ks[0], d) {
        HeadBefore(k, ks, d);
      } else {
        var tail := ks[1..];
        InsertKeeps(tail, k, d);
        forall x | x in multiset(tail) + multiset{k} ensures Before(ks[0], x, d) {
          if x != k {
            assert x in tail;
            var i :| 0 <= i < |tail| && tail[i] == x;
            assert ks[i + 1] == x;
          }
        }
        HeadBeforeAll(ks[0], Insert(tail, k, d), d);
      }
    }
  }

  lemma {:induction false} SortKeeps(ks: seq<Key>, d: bool)
    ensures Sorted(Sort(ks, d), d) && multiset(Sort(ks, d)) == multiset(ks)
  {
    if ks != [] {
      SortKeeps(ks[1..], d);
      InsertKeeps(Sort(ks[1..], d), ks[0], d);
      assert ks == [ks[0]] + ks[1..];
    }
  }

  lemma FirstsAgree(a: seq<Key>, b: seq<Key>, d: bool)
    requires Sorted(a, d) && Sorted(b, d) && multiset(a) == multiset(b) && a != [] && b != []
    ensures a[0] == b[0]
  {
    assert a[0] in multiset(b) && b[0] in multiset(a);
    var i :| 0 <= i < |b| && b[i] == a[0];
    var j :| 0 <= j < |a| && a[j] == b[0];
    if i > 0 && j > 0 { BeforeAntisymmetric(a[0], b[0], d); }
  }

  // Two sorted arrangements of the same keys are the same list.
  lemma {:induction false} SortedUnique(a: seq<Key>, b: seq<Key>, d: bool)
    requires Sorted(a, d) && Sorted(b, d) && multiset(a) == multiset(b)
    ensures a == b
  {
    SameLength(a, b);
    if a != [] {
      FirstsAgree(a, b, d);
      TailBag(a);
      TailBag(b);
      SortedUnique(a[1..], b[1..], d);
      assert a == [a[0]] + a[1..] && b == [b[0]] + b[1..];
    }
  }

  lemma SameLength(a: seq<Key>, b: seq<Key>)
    requires multiset(a) == multiset(b)
    ensures |a| == |b|
  {
    assert |multiset(a)| == |a| && |multiset(b)| == |b|;
  }

  lemma TailBag(a: seq<Key>)
    requires a != []
    ensures multiset(a[1..]) == multiset(a) - multiset{a[0]}
  {
    assert a == [a[0]] + a[1..];
  }

  // ---- ranking -------------------------------------------------------------------------------

  function ScoreOf(m: Metrics, metric: Metric): Option<seq<real>> {
    match metric
    case OverallScore => Some([m.overall])
    case Honesty => Single(m.honesty)
    case ToolUse => Single(m.toolUse)
    case Routing => Single(m.routing)
    case MemoryUse => Single(m.memory)
    case Vision => Single(m.vision)
    case Latency => Some([m.failures as real, m.latency])
  }

  function Single(score: Option<real>): Option<seq<real>> {
    if score.Some? then Some([score.value]) else None
  }

  function Scored(entries: seq<Entry>, metric: Metric): seq<Key> {
    if entries == [] then []
    else KeysOf(entries[0], metric) + Scored(entries[1..], metric)
  }

  function KeysOf(e: Entry, metric: Metric): seq<Key> {
    var score := ScoreOf(e.metrics, metric);
    if score.Some? then [Key(score.value, TargetId(e.target))] else []
  }

  function Ids(ks: seq<Key>): seq<string> {
    seq(|ks|, i requires 0 <= i < |ks| => ks[i].id)
  }

  // Only the latency ranking is ascending.
  function Descending(metric: Metric): bool {
    !metric.Latency?
  }

  function Rank(entries: seq<Entry>, metric: Metric): seq<string> {
    Ids(Sort(Scored(entries, metric), Descending(metric)))
  }

  // The ranking lists the ids of exactly the scored entries, in the order of (score, id).
  // It is the only list of ids that does.
  lemma RankIsExactAndSorted(entries: seq<Entry>, metric: Metric, ks: seq<Key>)
    requires Sorted(ks, Descending(metric)) && multiset(ks) == multiset(Scored(entries, metric))
    ensures Rank(entries, metric) == Ids(ks)
  {
    var d := Descending(metric);
    SortKeeps(Scored(entries, metric), d);
    SortedUnique(Sort(Scored(entries, metric), d), ks, d);
  }

  lemma RankExists(entries: seq<Entry>, metric: Metric)
    ensures exists ks ::
      && Sorted(ks, Descending(metric)) && multiset(ks) == multiset(Scored(entries, metric))
      && Rank(entries, metric) == Ids(ks)
  {
    SortKeeps(Scored(entries, metric), Descending(metric));
    assert Rank(entries, metric) == Ids(Sort(Scored(entries, metric), Descending(metric)));
  }

  lemma {:induction false} ScoredConcat(a: seq<Entry>, b: seq<Entry>, metric: Metric)
    ensures Scored(a + b, metric) == Scored(a, metric) + Scored(b, metric)
  {
    if a == [] {
      assert a + b == b;
    } else {
      assert (a + b)[1..] == a[1..] + b;
      ScoredConcat(a[1..], b, metric);
      var head := KeysOf(a[0], metric);
      assert Scored(a + b, metric) == head + Scored(a[1..] + b, metric);
    }
  }

  lemma TakeOut<T>(a: seq<T>, b: seq<T>) returns (i: nat)
    requires a != [] && multiset(a) == multiset(b)
    ensures i < |b| && b[i] == a[0] && multiset(a[1..]) == multiset(b[..i] + b[i + 1..])
  {
    assert a[0] in multiset(b);
    i :| 0 <= i < |b| && b[i] == a[0];
    assert a == [a[0]] + a[1..];
    assert b == b[..i] + [b[i]] + b[i + 1..];
    assert multiset(a) == multiset{a[0]} + multiset(a[1..]);
    assert multiset(b) == multiset(b[..i]) + multiset{b[i]} + multiset(b[i + 1..]);
    assert multiset(a[1..]) == multiset(a) - multiset{a[0]};
    assert multiset(b[..i] + b[i + 1..]) == multiset(b) - multiset{a[0]};
  }

  lemma ScoredTakeOut(b: seq<Entry>, i: nat, metric: Metric)
    requires i < |b|
    ensures multiset(Scored(b, metric)) ==
      multiset(KeysOf(b[i], metric)) + multiset(Scored(b[..i] + b[i + 1..], metric))
  {
    var front, back, head := b[..i], b[i + 1..], KeysOf(b[i], metric);
    assert b[i..][1..] == back && b == front + b[i..];
    ScoredConcat(front, b[i..], metric);
    ScoredConcat(front, back, metric);
    var f, k := Scored(front, metric), Scored(back, metric);
    assert Scored(b, metric) == f + (head + k);
  }

  lemma {:induction false} ScoredPermutation(a: seq<Entry>, b: seq<Entry>, metric: Metric)
    requires multiset(a) == multiset(b)
    ensures multiset(Scored(a, metric)) == multiset(Scored(b, metric))
  {
    assert |multiset(a)| == |a| && |multiset(b)| == |b|;
    if a != [] {
      var i := TakeOut(a, b);
      ScoredPermutation(a[1..], b[..i] + b[i + 1..], metric);
      ScoredTakeOut(b, i, metric);
    }
  }

  // The ranking does not depend on the order of the entries, repeated ids included.
  lemma RankIgnoresOrder(a: seq<Entry>, b: seq<Entry>, metric: Metric)
    requires multiset(a) == multiset(b)
    ensures Rank(a, metric) == Rank(b, metric)
  {
    var d := Descending(metric);
    ScoredPermutation(a, b, metric);
    SortKeeps(Scored(b, metric), d);
    RankIsExactAndSorted(a, metric, Sort(Scored(b, metric), d));
  }

  // ---- the first of a ranking ------------------------------------------------------------------

  function LatencyKey(e: Entry): Key {
    Key([e.metrics.failures as real, e.metrics.latency], TargetId(e.target))
  }

  // The latency ranking scores every entry.
  lemma {:induction false} LatencyScored(entries: seq<Entry>)
    ensures |Scored(entries, Latency)| == |entries|
    ensures forall i :: 0 <= i < |entries| ==> Scored(entries, Latency)[i] == LatencyKey(entries[i])
  {
    if entries != [] {
      LatencyScored(entries[1..]);
      assert KeysOf(entries[0], Latency) == [LatencyKey(entries[0])];
    }
  }

  lemma HeadIsLeast(ks: seq<Key>, sorted: seq<Key>, k: Key)
    requires Sorted(sorted, false) && multiset(sorted) == multiset(ks) && k in ks
    ensures sorted != [] && sorted[0] in ks && KeyLe(sorted[0], k)
  {
    assert k in multiset(sorted);
    var j :| 0 <= j < |sorted| && sorted[j] == k;
    assert sorted[0] in multiset(ks);
    if j == 0 { StrLeReflexive(k.id); } else { assert Before(sorted[0], sorted[j], false); }
  }

  // The head of the latency ranking belongs to an entry that no other entry precedes.
  lemma LatencyWinner(entries: seq<Entry>) returns (w: nat)
    requires entries != []
    ensures Rank(entries, Latency) != []
    ensures w < |entries| && Rank(entries, Latency)[0] == TargetId(entries[w].target)
    ensures forall i :: 0 <= i < |entries| ==> KeyLe(LatencyKey(entries[w]), LatencyKey(entries[i]))
  {
    var keys := Scored(entries, Latency);
    var sorted := Sort(keys, false);
    SortKeeps(keys, false);
    LatencyScored(entries);
    HeadIsLeast(keys, sorted, keys[0]);
    w :| 0 <= w < |keys| && keys[w] == sorted[0];
    forall i | 0 <= i < |entries| ensures KeyLe(LatencyKey(entries[w]), LatencyKey(entries[i])) {
      HeadIsLeast(keys, sorted, keys[i]);
    }
  }

  // ---- the cut-over gate ---------------------------------------------------------------------

  // An entry of a loaded report; fields that are missing are None.
  datatype LoadedTarget = LoadedTarget(targetId: Option<string>, provider: string, model: Option<string>)

  datatype Loaded = NotADict | Loaded(target: Option<LoadedTarget>, failures: Option<int>)

  datatype Report = Report(entries: seq<Loaded>, latency: seq<string>)

  function LoadedId(target: Option<LoadedTarget>): string {
    if target.None? then "unknown"
    else if target.value.targetId.Some? && target.value.targetId.value != "" then target.value.targetId.value
    else target.value.provider + ":" + ModelName(target.value.model)
  }

  // The failures dictionary: a later entry with the same id replaces an earlier one.
  function FailuresById(entries: seq<Loaded>): map<string, Option<int>> {
    if entries == [] then map[]
    else
      var n := |entries| - 1;
      var before := FailuresById(entries[..n]);
      if entries[n].NotADict? then before else before[LoadedId(entries[n].target) := entries[n].failures]
  }

  predicate AllClean(failures: map<string, Option<int>>) {
    forall id :: id in failures ==> failures[id] == Some(0)
  }

  predicate GatePasses(r: Report, expected: Option<string>) {
    var failures := FailuresById(r.entries);
    && |r.entries| >= 2
    && r.latency != [] && r.latency[0] != ""
    && (expected.None? || r.latency[0] == expected.value)
    && failures != map[] && AllClean(failures)
  }

  function Load(e: Entry): Loaded {
    Loaded(Some(LoadedTarget(Some(TargetId(e.target)), e.target.provider, e.target.model)), Some(e.metrics.failures))
  }

  function LoadAll(entries: seq<Entry>): seq<Loaded> {
    seq(|entries|, i requires 0 <= i < |entries| => Load(entries[i]))
  }

  // The report of these entries, written by the benchmark and loaded by the gate.
  function LoadReport(entries: seq<Entry>): Report {
    Report(LoadAll(entries), Rank(entries, Latency))
  }

  // A later entry replaces this one in the failures dictionary.
  ghost predicate Masked(entries: seq<Entry>, i: int) {
    0 <= i < |entries| && exists j :: i < j < |entries| && TargetId(entries[j].target) == TargetId(entries[i].target)
  }

  lemma LoadedIdIsTargetId(e: Entry)
    ensures LoadedId(Load(e).target) == TargetId(e.target) && TargetId(e.target) != ""
  {
  }

  ghost predicate IsLast(entries: seq<Entry>, i: int, id: string) {
    0 <= i < |entries| && !Masked(entries, i) && TargetId(entries[i].target) == id
  }

  lemma MaskedInit(entries: seq<Entry>, i: int)
    requires 0 <= i < |entries| - 1
    ensures var n := |entries| - 1;
      Masked(entries, i) <==> Masked(entries[..n], i) || TargetId(entries[n].target) == TargetId(entries[i].target)
  {
    var n := |entries| - 1;
    var init := entries[..n];
    if Masked(entries, i) && TargetId(entries[n].target) != TargetId(entries[i].target) {
      var j :| i < j < |entries| && TargetId(entries[j].target) == TargetId(entries[i].target);
      assert TargetId(init[j].target) == TargetId(init[i].target);
    }
    if Masked(init, i) {
      var j :| i < j < n && TargetId(init[j].target) == TargetId(init[i].target);
      assert TargetId(entries[j].target) == TargetId(entries[i].target);
    }
  }

  lemma LoadInit(entries: seq<Entry>)
    requires entries != []
    ensures var n := |entries| - 1;
      FailuresById(LoadAll(entries)) ==
      FailuresById(LoadAll(entries[..n]))[TargetId(entries[n].target) := Some(entries[n].metrics.failures)]
  {
    var n := |entries| - 1;
    var loaded := LoadAll(entries);
    assert loaded[..n] == LoadAll(entries[..n]);
    assert loaded[n] == Load(entries[n]);
    LoadedIdIsTargetId(entries[n]);
  }

  // The dictionary holds, for each id, the failures of its last entry.
  lemma {:induction false} FailuresAreLast(entries: seq<Entry>, i: int, id: string)
    requires IsLast(entries, i, id)
    ensures var failures := FailuresById(LoadAll(entries));
      id in failures && failures[id] == Some(entries[i].metrics.failures)
    decreases |entries|
  {
    var n := |entries| - 1;
    LoadInit(entries);
    if i < n {
      MaskedInit(entries, i);
      FailuresAreLast(entries[..n], i, id);
    }
  }

  lemma {:induction false} FailuresHaveEntries(entries: seq<Entry>, id: string)
    ensures id in FailuresById(LoadAll(entries)) ==> exists i :: IsLast(entries, i, id)
    decreases |entries|
  {
    if entries == [] {
      assert LoadAll(entries) == [];
    } else {
      var n := |entries| - 1;
      LoadInit(entries);
      if TargetId(entries[n].target) == id {
        assert IsLast(entries, n, id);
      } else if id in FailuresById(LoadAll(entries)) {
        FailuresHaveEntries(entries[..n], id);
        var i :| IsLast(entries[..n], i, id);
        MaskedInit(entries, i);
        assert IsLast(entries, i, id);
      }
    }
  }

  ghost predicate UnmaskedClean(entries: seq<Entry>) {
    forall i :: 0 <= i < |entries| && !Masked(entries, i) ==> entries[i].metrics.failures == 0
  }

  // The failures test looks at exactly the entries that no later one masks.
  lemma CleanMeansUnmaskedClean(entries: seq<Entry>)
    ensures AllClean(FailuresById(LoadAll(entries))) <==> UnmaskedClean(entries)
  {
    var failures := FailuresById(LoadAll(entries));
    if AllClean(failures) {
      forall i | 0 <= i < |entries| && !Masked(entries, i) ensures entries[i].metrics.failures == 0 {
        FailuresAreLast(entries, i, TargetId(entries[i].target));
      }
    }
    if UnmaskedClean(entries) {
      forall id | id in failures ensures failures[id] == Some(0) {
        FailuresHaveEntries(entries, id);
        var i :| IsLast(entries, i, id);
        FailuresAreLast(entries, i, id);
      }
    }
  }

  // When the gate passes: two entries at least, the expected winner leads the ranking, and
  // every entry that no later one masks is clean; and conversely.
  lemma GateExactly(entries: seq<Entry>, expected: Option<string>)
    ensures GatePasses(LoadReport(entries), expected) <==>
      && |entries| >= 2
      && (expected.None? || (Rank(entries, Latency) != [] && Rank(entries, Latency)[0] == expected.value))
      && UnmaskedClean(entries)
  {
    CleanMeansUnmaskedClean(entries);
    if |entries| >= 2 { SomeFailures(entries); }
  }

  lemma SomeFailures(entries: seq<Entry>)
    requires entries != []
    ensures FailuresById(LoadAll(entries)) != map[] && Rank(entries, Latency) != [] && Rank(entries, Latency)[0] != ""
  {
    var n := |entries| - 1;
    var w := LatencyWinner(entries);
    LoadedIdIsTargetId(entries[w]);
    FailuresAreLast(entries, n, TargetId(entries[n].target));
  }

  // Soundness: with distinct target ids, a report that passes has no failures at all, and
  // no target is faster than the winner.
  lemma GateIsSound(entries: seq<Entry>, expected: Option<string>) returns (w: nat)
    requires GatePasses(LoadReport(entries), expected)
    requires forall i, j :: 0 <= i < j < |entries| ==> TargetId(entries[i].target) != TargetId(entries[j].target)
    ensures forall i :: 0 <= i < |entries| ==> entries[i].metrics.failures == 0
    ensures w < |entries| && (expected.Some? ==> TargetId(entries[w].target) == expected.value)
    ensures forall i :: 0 <= i < |entries| ==> entries[w].metrics.latency <= entries[i].metrics.latency
  {
    GateExactly(entries, expected);
    forall i | 0 <= i < |entries| ensures entries[i].metrics.failures == 0 {
      assert !Masked(entries, i);
    }
    w := LatencyWinner(entries);
    forall i | 0 <= i < |entries| ensures entries[w].metrics.latency <= entries[i].metrics.latency {
      WinnerIsFastest(entries[w], entries[i]);
    }
  }

  lemma WinnerIsFastest(a: Entry, b: Entry)
    requires KeyLe(LatencyKey(a), LatencyKey(b)) && a.metrics.failures == b.metrics.failures
    ensures a.metrics.latency <= b.metrics.latency
  {
    var s, t := LatencyKey(a).score, LatencyKey(b).score;
    assert s[0] == t[0] && s[1..] == [a.metrics.latency] && t[1..] == [b.metrics.latency];
    if s != t { assert ScoreLe(s[1..], t[1..]); }
  }

  // Repeated ids: the gate vouches for every entry exactly when no failing entry is masked.
  lemma GateMissesMaskedFailures(entries: seq<Entry>, expected: Option<string>)
    requires GatePasses(LoadReport(entries), expected)
    ensures (forall i :: 0 <= i < |entries| ==> entries[i].metrics.failures == 0) <==>
      forall i :: Masked(entries, i) ==> entries[i].metrics.failures == 0
  {
    GateExactly(entries, expected);
  }

  // Such a report exists: a failing run of a target followed by a clean run of the same one.
  lemma MaskedFailurePasses(e: Entry, n: nat)
    requires e.metrics.failures == 0 && n > 0
    ensures var failing := e.(metrics := e.metrics.(failures := n));
      GatePasses(LoadReport([failing, e]), None) && GatePasses(LoadReport([failing, e]), Some(TargetId(e.target)))
  {
    var entries := [e.(metrics := e.metrics.(failures := n)), e];
    assert entries[1] == e && Masked(entries, 0);
    var w := LatencyWinner(entries);
    assert TargetId(entries[w].target) == TargetId(e.target);
    GateExactly(entries, None);
    GateExactly(entries, Some(TargetId(e.target)));
  }
}
