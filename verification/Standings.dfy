/** What the seven rankings say, figure by figure. */
module Standings {
  import opened Wrappers
  import opened TextOrder
  import opened Ranking

  // How a target is listed.
  function Name(e: Entry): string {
    e.target.provider + ":" + match e.target.model
                              case None => "default"
                              case Some(model) => if model == "" then "default" else model
  }

  ghost predicate DistinctNames(entries: seq<Entry>) {
    forall i, j :: 0 <= i < j < |entries| ==> Name(entries[i]) != Name(entries[j])
  }

  // ---- places in a ranking -----------------------------------------------------------

  lemma {:induction false} ScoredHolds(entries: seq<Entry>, metric: Metric, k: Key)
    ensures k in Scored(entries, metric) <==>
      exists i :: 0 <= i < |entries| && k.id == Name(entries[i]) && ScoreOf(entries[i].metrics, metric) == Some(k.score)
  {
    if entries != [] {
      var rest := entries[1..];
      ScoredHolds(rest, metric, k);
      assert forall i :: 0 <= i < |rest| ==> rest[i] == entries[i + 1];
      assert k in KeysOf(entries[0], metric) <==>
        k.id == Name(entries[0]) && ScoreOf(entries[0].metrics, metric) == Some(k.score);
    }
  }

  lemma SortHolds(ks: seq<Key>, d: bool, k: Key)
    ensures k in Sort(ks, d) <==> k in ks
  {
    SortKeeps(ks, d);
    assert k in Sort(ks, d) <==> k in multiset(Sort(ks, d));
    assert k in ks <==> k in multiset(ks);
  }

  lemma IdsHold(ks: seq<Key>, id: string)
    ensures id in Ids(ks) <==> exists k :: k in ks && k.id == id
  {
    if id in Ids(ks) {
      var p :| 0 <= p < |ks| && Ids(ks)[p] == id;
      assert ks[p] in ks;
    }
    if k :| k in ks && k.id == id {
      var p :| 0 <= p < |ks| && ks[p] == k;
      assert Ids(ks)[p] == id;
    }
  }

  lemma RankHolds(entries: seq<Entry>, metric: Metric, id: string)
    ensures id in Rank(entries, metric) <==>
      exists i :: 0 <= i < |entries| && Name(entries[i]) == id && ScoreOf(entries[i].metrics, metric).Some?
  {
    var scored := Scored(entries, metric);
    var sorted := Sort(scored, Descending(metric));
    IdsHold(sorted, id);
    if id in Rank(entries, metric) {
      var k :| k in sorted && k.id == id;
      SortHolds(scored, Descending(metric), k);
      ScoredHolds(entries, metric, k);
    }
    if i :| 0 <= i < |entries| && Name(entries[i]) == id && ScoreOf(entries[i].metrics, metric).Some? {
      var k := Key(ScoreOf(entries[i].metrics, metric).value, id);
      ScoredHolds(entries, metric, k);
      SortHolds(scored, Descending(metric), k);
    }
  }

  lemma SortedPrecedes(ks: seq<Key>, d: bool, a: Key, b: Key)
    requires Sorted(ks, d) && a in ks && b in ks && !Before(b, a, d)
    ensures Precedes(Ids(ks), a.id, b.id)
  {
    BeforeTotal(a, a, d);
    var p :| 0 <= p < |ks| && ks[p] == a;
    var q :| 0 <= q < |ks| && ks[q] == b;
    assert p < q;
    assert Ids(ks)[p] == a.id && Ids(ks)[q] == b.id;
  }

  // The key that is strictly ahead has its id first.
  lemma AheadIsFirst(entries: seq<Entry>, metric: Metric, a: Key, b: Key)
    requires a in Scored(entries, metric) && b in Scored(entries, metric)
    requires !Before(b, a, Descending(metric))
    ensures Precedes(Rank(entries, metric), a.id, b.id)
  {
    var d := Descending(metric);
    SortKeeps(Scored(entries, metric), d);
    SortHolds(Scored(entries, metric), d, a);
    SortHolds(Scored(entries, metric), d, b);
    SortedPrecedes(Sort(Scored(entries, metric), d), d, a, b);
  }

  // Of two scored entries the one with the strictly smaller key is first in an ascending
  // ranking and last in a descending one.
  lemma ScoredFirst(entries: seq<Entry>, metric: Metric, i: nat, s: seq<real>, j: nat, t: seq<real>)
    requires i < |entries| && ScoreOf(entries[i].metrics, metric) == Some(s)
    requires j < |entries| && ScoreOf(entries[j].metrics, metric) == Some(t)
    ensures !Before(Key(t, Name(entries[j])), Key(s, Name(entries[i])), Descending(metric)) ==>
      Precedes(Rank(entries, metric), Name(entries[i]), Name(entries[j]))
  {
    var a, b := Key(s, Name(entries[i])), Key(t, Name(entries[j]));
    ScoredHolds(entries, metric, a);
    ScoredHolds(entries, metric, b);
    if !Before(b, a, Descending(metric)) { AheadIsFirst(entries, metric, a, b); }
  }

  // ---- the six rankings with the best score first ----------------------------------------

  // Ahead by the higher score, or by the larger name.
  predicate Higher(x: real, a: string, y: real, b: string) {
    x > y || (x == y && StrLt(b, a))
  }

  lemma HigherIsBefore(x: real, a: string, y: real, b: string)
    requires Higher(x, a, y, b)
    ensures !Before(Key([y], b), Key([x], a), true)
  {
    if x == y {
      if StrLe(a, b) { StrLeAntisymmetric(a, b); }
    } else {
      assert [x][0] != [y][0];
    }
  }

  // One score of an entry.
  function Figure(m: Metrics, metric: Metric): Option<real> {
    match metric
    case OverallScore => Some(m.overall)
    case Honesty => m.honesty
    case ToolUse => m.toolUse
    case Routing => m.routing
    case MemoryUse => m.memory
    case Vision => m.vision
    case Latency => Some(m.latency)
  }

  // Every ranking but the latency one lists the entries that have the figure, best first, and
  // entries with the same figure by name from the last to the first.
  lemma BestFirst(entries: seq<Entry>, metric: Metric, i: nat, j: nat)
    requires !metric.Latency? && i < |entries| && j < |entries|
    ensures var x, y := Figure(entries[i].metrics, metric), Figure(entries[j].metrics, metric);
      var a, b := Name(entries[i]), Name(entries[j]);
      x.Some? && y.Some? && Higher(x.value, a, y.value, b) ==> Precedes(Rank(entries, metric), a, b)
  {
    var x, y := Figure(entries[i].metrics, metric), Figure(entries[j].metrics, metric);
    var a, b := Name(entries[i]), Name(entries[j]);
    if x.Some? && y.Some? && Higher(x.value, a, y.value, b) {
      HigherIsBefore(x.value, a, y.value, b);
      ScoredFirst(entries, metric, i, [x.value], j, [y.value]);
    }
  }

  // Who is listed: the names of the entries that have the figure.
  lemma ListedIffFigure(entries: seq<Entry>, metric: Metric, id: string)
    ensures id in Rank(entries, metric) <==>
      exists i :: 0 <= i < |entries| && Name(entries[i]) == id && Figure(entries[i].metrics, metric).Some?
  {
    RankHolds(entries, metric, id);
  }

  // ---- the latency ranking ------------------------------------------------------------------

  // Ahead by fewer failures, then by the shorter time, then by the smaller name.
  predicate Quicker(m: Metrics, a: string, n: Metrics, b: string) {
    || m.failures < n.failures
    || (m.failures == n.failures && (m.latency < n.latency || (m.latency == n.latency && StrLt(a, b))))
  }

  lemma QuickestFirst(entries: seq<Entry>, i: nat, j: nat)
    requires i < |entries| && j < |entries|
    requires Quicker(entries[i].metrics, Name(entries[i]), entries[j].metrics, Name(entries[j]))
    ensures Precedes(Rank(entries, Latency), Name(entries[i]), Name(entries[j]))
  {
    var m, n := entries[i].metrics, entries[j].metrics;
    var s, t := [m.failures as real, m.latency], [n.failures as real, n.latency];
    assert s[1..] == [m.latency] && t[1..] == [n.latency];
    if s == t {
      assert s[0] == t[0] && s[1] == t[1];
      if StrLe(Name(entries[j]), Name(entries[i])) { StrLeAntisymmetric(Name(entries[i]), Name(entries[j])); }
    } else if m.failures == n.failures {
      assert [m.latency][0] != [n.latency][0];
      assert !ScoreLe(t[1..], s[1..]);
    }
    ScoredFirst(entries, Latency, i, s, j, t);
  }

  // ---- each name once -----------------------------------------------------------------------

  lemma {:induction false} DistinctScored(entries: seq<Entry>, metric: Metric)
    requires DistinctNames(entries)
    ensures Distinct(Ids(Scored(entries, metric)))
  {
    if entries != [] {
      var rest, scored := entries[1..], Scored(entries, metric);
      DistinctScored(rest, metric);
      forall k | k in Scored(rest, metric) ensures k.id != Name(entries[0]) { ScoredHolds(rest, metric, k); }
      var head, tail := KeysOf(entries[0], metric), Scored(rest, metric);
      forall i, j | 0 <= i < j < |scored| ensures scored[i].id != scored[j].id {
        assert scored[j] == tail[j - |head|] && scored[j] in tail;
        if i >= |head| { assert Ids(tail)[i - |head|] != Ids(tail)[j - |head|]; }
      }
    }
  }

  lemma {:induction false} OnceInBag<T>(s: seq<T>, x: T)
    requires Distinct(s)
    ensures multiset(s)[x] <= 1
  {
    if s != [] {
      OnceInBag(s[1..], x);
      assert s == [s[0]] + s[1..];
      if s[0] == x { assert x !in s[1..]; }
    }
  }

  lemma TwiceInBag<T>(s: seq<T>, i: nat, j: nat)
    requires i < j < |s| && s[i] == s[j]
    ensures multiset(s)[s[i]] >= 2
  {
    assert s == s[..j] + [s[j]] + s[j + 1..];
    assert s[i] in s[..j];
  }

  // With distinct names no name is listed twice, so one that is first anywhere is first.
  lemma NamesOnce(entries: seq<Entry>, metric: Metric)
    requires DistinctNames(entries)
    ensures Distinct(Rank(entries, metric))
  {
    var scored, d := Scored(entries, metric), Descending(metric);
    var sorted := Sort(scored, d);
    DistinctScored(entries, metric);
    SortKeeps(scored, d);
    forall i, j | 0 <= i < j < |sorted| ensures sorted[i].id != sorted[j].id {
      DistinctAfterSort(scored, sorted, i, j);
    }
  }

  lemma DistinctAfterSort(ks: seq<Key>, sorted: seq<Key>, i: nat, j: nat)
    requires Distinct(Ids(ks)) && multiset(sorted) == multiset(ks) && i < j < |sorted|
    ensures sorted[i].id != sorted[j].id
  {
    assert sorted[i] in multiset(ks) && sorted[j] in multiset(ks);
    var p :| 0 <= p < |ks| && ks[p] == sorted[i];
    var q :| 0 <= q < |ks| && ks[q] == sorted[j];
    forall a, b | 0 <= a < b < |ks| ensures ks[a].id != ks[b].id { assert Ids(ks)[a] != Ids(ks)[b]; }
    OnceInBag(ks, sorted[i]);
    if sorted[i] == sorted[j] { TwiceInBag(sorted, i, j); }
    assert p != q;
  }

  // ---- the gate on any report -----------------------------------------------------------------

  // The id under which the gate files an entry; entries that are no dictionaries are left out.
  function FiledAs(e: Loaded): Option<string> {
    match e
    case NotADict => None
    case Loaded(None, _) => Some("unknown")
    case Loaded(Some(t), _) =>
      match t.targetId
      case None => Some(t.provider + ":" + if t.model.GetOr("") == "" then "default" else t.model.value)
      case Some(id) =>
        if id != "" then Some(id)
        else Some(t.provider + ":" + if t.model.GetOr("") == "" then "default" else t.model.value)
  }

  // The last entry filed under the id.
  ghost predicate LastFiled(entries: seq<Loaded>, i: int, id: string) {
    && 0 <= i < |entries| && FiledAs(entries[i]) == Some(id)
    && forall k :: i < k < |entries| ==> FiledAs(entries[k]) != Some(id)
  }

  lemma LastFiledInit(entries: seq<Loaded>, i: int, id: string)
    requires entries != []
    ensures var n := |entries| - 1;
      LastFiled(entries, i, id) <==>
        if FiledAs(entries[n]) == Some(id) then i == n else LastFiled(entries[..n], i, id)
  {
    var n := |entries| - 1;
    assert forall k :: 0 <= k < n ==> entries[..n][k] == entries[k];
  }

  lemma FiledAsLoaded(e: Loaded)
    ensures FiledAs(e) == if e.Loaded? then Some(LoadedId(e.target)) else None
  {
  }

  lemma FailuresInit(entries: seq<Loaded>, id: string)
    requires entries != []
    ensures var n := |entries| - 1; var before, after := FailuresById(entries[..n]), FailuresById(entries);
      if FiledAs(entries[n]) == Some(id) then id in after && after[id] == entries[n].failures
      else (id in after <==> id in before) && (id in before ==> after[id] == before[id])
  {
    var e := entries[|entries| - 1];
    FiledAsLoaded(e);
    var filed := FiledAs(e);
    assert filed == if e.Loaded? then Some(LoadedId(e.target)) else None;
  }

  lemma {:induction false} FailuresFiledAt(entries: seq<Loaded>, i: int, id: string)
    requires LastFiled(entries, i, id)
    ensures id in FailuresById(entries) && FailuresById(entries)[id] == entries[i].failures
    decreases |entries|
  {
    var n := |entries| - 1;
    FailuresInit(entries, id);
    LastFiledInit(entries, i, id);
    if FiledAs(entries[n]) != Some(id) { FailuresFiledAt(entries[..n], i, id); }
  }

  lemma {:induction false} FiledHasEntry(entries: seq<Loaded>, id: string) returns (i: int)
    requires id in FailuresById(entries)
    ensures LastFiled(entries, i, id)
    decreases |entries|
  {
    var n := |entries| - 1;
    FailuresInit(entries, id);
    if FiledAs(entries[n]) == Some(id) {
      i := n;
    } else {
      i := FiledHasEntry(entries[..n], id);
    }
    LastFiledInit(entries, i, id);
  }

  lemma {:induction false} SomethingFiled(entries: seq<Loaded>)
    ensures FailuresById(entries) != map[] <==> exists i :: 0 <= i < |entries| && entries[i].Loaded?
    decreases |entries|
  {
    if entries != [] {
      var n := |entries| - 1;
      SomethingFiled(entries[..n]);
      assert forall i :: 0 <= i < n ==> entries[..n][i] == entries[i];
      if entries[n].Loaded? { assert LoadedId(entries[n].target) in FailuresById(entries); }
    }
  }

  // Whatever was loaded: the gate passes exactly when there are two entries, one of them a
  // dictionary, the latency ranking has a first name, the expected one if there is one, and the
  // last entry filed under each id has no failures.
  lemma GateOnAnyReport(r: Report, expected: Option<string>)
    ensures GatePasses(r, expected) <==>
      && |r.entries| >= 2 && (exists i :: 0 <= i < |r.entries| && r.entries[i].Loaded?)
      && r.latency != [] && r.latency[0] != "" && (expected.None? || expected.value == r.latency[0])
      && (forall i, id :: LastFiled(r.entries, i, id) ==> r.entries[i].failures == Some(0))
  {
    var failures := FailuresById(r.entries);
    SomethingFiled(r.entries);
    if AllClean(failures) {
      forall i, id | LastFiled(r.entries, i, id) ensures r.entries[i].failures == Some(0) {
        FailuresFiledAt(r.entries, i, id);
      }
    } else {
      var id :| id in failures && failures[id] != Some(0);
      var i := FiledHasEntry(r.entries, id);
      FailuresFiledAt(r.entries, i, id);
    }
  }
}
