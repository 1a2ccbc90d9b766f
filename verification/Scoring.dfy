/** Certification scores: grading a case, adding up a report, combining reports. */
module Scoring {
  import opened Wrappers

  // ---- grading ----------------------------------------------------------------------------

  datatype TestCase = TestCase(expected: seq<string>, forbidden: seq<string>, maxScore: real, category: string)

  datatype Case = Case(category: string, score: real, maxScore: real, passed: bool, missing: seq<string>,
                       forbidden: seq<string>)

  predicate Occurs(needle: string, text: string) {
    needle <= text || (text != "" && Occurs(needle, text[1..]))
  }

  // `{keyword for keyword in keywords if it is (not) found}`, order and repetition kept.
  function Select(keywords: seq<string>, text: string, found: bool, normalize: string -> string): seq<string> {
    if keywords == [] then []
    else
      (if Occurs(normalize(keywords[0]), text) == found then [keywords[0]] else []) +
        Select(keywords[1..], text, found, normalize)
  }

  // `normalize` stands for Unicode and whitespace normalisation, which is not modelled.
  function Grade(c: TestCase, response: string, error: Option<string>, verified: seq<bool>,
                 normalize: string -> string): Case {
    if error.Some? && error.value != "" then Case(c.category, 0.0, c.maxScore, false, [], [])
    else
      var text := normalize(response);
      var missing := Select(c.expected, text, false, normalize);
      var forbidden := Select(c.forbidden, text, true, normalize);
      var passed := missing == [] && forbidden == [] && false !in verified;
      Case(c.category, if passed then c.maxScore else 0.0, c.maxScore, passed, missing, forbidden)
  }

  lemma {:induction false} SelectEmpty(keywords: seq<string>, text: string, found: bool, normalize: string -> string)
    ensures Select(keywords, text, found, normalize) == [] <==>
      forall k :: k in keywords ==> Occurs(normalize(k), text) != found
  {
    if keywords != [] {
      SelectEmpty(keywords[1..], text, found, normalize);
      assert keywords == [keywords[0]] + keywords[1..];
    }
  }

  // The text has the part in it.
  ghost predicate Contains(text: string, part: string) {
    exists i :: HasAt(text, i, part)
  }

  ghost predicate HasAt(text: string, i: int, part: string) {
    0 <= i <= |text| - |part| && text[i..i + |part|] == part
  }

  lemma {:induction false} OccursIsContains(part: string, text: string)
    ensures Occurs(part, text) <==> Contains(text, part)
  {
    if part <= text {
      assert HasAt(text, 0, part);
    } else if text != "" {
      var rest := text[1..];
      OccursIsContains(part, rest);
      if i :| HasAt(rest, i, part) {
        assert text[i + 1..i + 1 + |part|] == rest[i..i + |part|];
        assert HasAt(text, i + 1, part);
      }
      if i :| HasAt(text, i, part) {
        assert i > 0;
        assert rest[i - 1..i - 1 + |part|] == text[i..i + |part|];
        assert HasAt(rest, i - 1, part);
      }
    } else {
      assert !HasAt(text, 0, part);
    }
  }

  lemma {:induction false} SelectHolds(keywords: seq<string>, text: string, found: bool, normalize: string -> string,
                                       k: string)
    ensures k in Select(keywords, text, found, normalize) <==>
      k in keywords && Contains(text, normalize(k)) == found
  {
    if keywords != [] {
      SelectHolds(keywords[1..], text, found, normalize, k);
      OccursIsContains(normalize(keywords[0]), text);
      assert keywords == [keywords[0]] + keywords[1..];
    }
  }

  // The selected keywords stand in the order in which they were given.
  lemma {:induction false} SelectOrdered(keywords: seq<string>, text: string, found: bool, normalize: string -> string,
                                         i: nat, j: nat)
    requires i < j < |keywords|
    requires Contains(text, normalize(keywords[i])) == found && Contains(text, normalize(keywords[j])) == found
    ensures Precedes(Select(keywords, text, found, normalize), keywords[i], keywords[j])
  {
    var rest := keywords[1..];
    OccursIsContains(normalize(keywords[0]), text);
    if i > 0 {
      SelectOrdered(rest, text, found, normalize, i - 1, j - 1);
    } else {
      assert rest[j - 1] == keywords[j];
      SelectHolds(rest, text, found, normalize, keywords[j]);
    }
    PrecedesWithin(if Occurs(normalize(keywords[0]), text) == found then [keywords[0]] else [],
                   Select(rest, text, found, normalize), keywords[i], keywords[j]);
  }

  // A case is worth everything or nothing.
  ghost predicate Graded(c: Case) {
    c.score == if c.passed then c.maxScore else 0.0
  }

  // It passes exactly when there is no error, every expected keyword occurs, no forbidden
  // one does, and no verifier failed.
  lemma GradeExactly(c: TestCase, response: string, error: Option<string>, verified: seq<bool>,
                     normalize: string -> string)
    ensures var result := Grade(c, response, error, verified, normalize);
      && Graded(result)
      && (result.passed <==>
            && error.GetOr("") == ""
            && (forall k :: k in c.expected ==> Contains(normalize(response), normalize(k)))
            && (forall k :: k in c.forbidden ==> !Contains(normalize(response), normalize(k)))
            && (forall i :: 0 <= i < |verified| ==> verified[i]))
      && result.category == c.category && result.maxScore == c.maxScore
      && result.score == (if result.passed then c.maxScore else 0.0)
  {
    forall k ensures Occurs(normalize(k), normalize(response)) <==> Contains(normalize(response), normalize(k)) {
      OccursIsContains(normalize(k), normalize(response));
    }
    SelectEmpty(c.expected, normalize(response), false, normalize);
    SelectEmpty(c.forbidden, normalize(response), true, normalize);
  }

  // What is reported: the expected keywords that do not occur and the forbidden ones that do,
  // and nothing when there is an error.
  lemma KeywordsReported(c: TestCase, response: string, error: Option<string>, verified: seq<bool>,
                         normalize: string -> string, k: string)
    ensures var result := Grade(c, response, error, verified, normalize);
      if error.GetOr("") != "" then result.missing == [] && result.forbidden == []
      else
        && (k in result.missing <==> k in c.expected && !Contains(normalize(response), normalize(k)))
        && (k in result.forbidden <==> k in c.forbidden && Contains(normalize(response), normalize(k)))
  {
    SelectHolds(c.expected, normalize(response), false, normalize, k);
    SelectHolds(c.forbidden, normalize(response), true, normalize, k);
  }

  // ---- sums ---------------------------------------------------------------------------------

  function Score(c: Case): real { c.score }

  function Weight(c: Case): real { c.maxScore }

  function Sum(cases: seq<Case>, of: Case -> real): real {
    if cases == [] then 0.0 else Sum(cases[..|cases| - 1], of) + of(cases[|cases| - 1])
  }

  function SumIn(cases: seq<Case>, category: string, of: Case -> real): real {
    if cases == [] then 0.0
    else
      var last := cases[|cases| - 1];
      SumIn(cases[..|cases| - 1], category, of) + (if last.category == category then of(last) else 0.0)
  }

  function Categories(cases: seq<Case>): set<string> {
    set c | c in cases :: c.category
  }

  function Ratio(earned: real, max: real): real {
    if max == 0.0 then 0.0 else earned / max
  }

  function Overall(cases: seq<Case>): real {
    Ratio(Sum(cases, Score), Sum(cases, Weight))
  }

  function CategoryScore(cases: seq<Case>, category: string): real {
    Ratio(SumIn(cases, category, Score), SumIn(cases, category, Weight))
  }

  datatype Totals = Totals(earned: real, max: real)

  ghost predicate TotalsAgree(totals: map<string, Totals>, cases: seq<Case>) {
    && totals.Keys == Categories(cases)
    && forall c :: c in totals ==> totals[c] == Totals(SumIn(cases, c, Score), SumIn(cases, c, Weight))
  }

  lemma {:induction false} NothingElsewhere(cases: seq<Case>, category: string, of: Case -> real)
    requires category !in Categories(cases)
    ensures SumIn(cases, category, of) == 0.0
  {
    if cases != [] {
      var init, last := cases[..|cases| - 1], cases[|cases| - 1];
      assert last in cases;
      assert forall c :: c in init ==> c in cases;
      NothingElsewhere(init, category, of);
    }
  }

  // One more case in the accumulating dictionary.
  function AddCase(totals: map<string, Totals>, c: Case): map<string, Totals> {
    var before := if c.category in totals then totals[c.category] else Totals(0.0, 0.0);
    totals[c.category := Totals(before.earned + c.score, before.max + c.maxScore)]
  }

  lemma TotalsStep(totals: map<string, Totals>, cases: seq<Case>, c: Case)
    requires TotalsAgree(totals, cases)
    ensures TotalsAgree(AddCase(totals, c), cases + [c])
  {
    var more := cases + [c];
    assert more[..|more| - 1] == cases;
    assert Categories(more) == Categories(cases) + {c.category};
    if c.category !in totals {
      NothingElsewhere(cases, c.category, Score);
      NothingElsewhere(cases, c.category, Weight);
    }
  }

  method CategoryScores(cases: seq<Case>) returns (scores: map<string, real>)
    ensures scores.Keys == Categories(cases)
    ensures forall c :: c in scores ==> scores[c] == CategoryScore(cases, c)
  {
    var totals: map<string, Totals> := map[];
    for k := 0 to |cases|
      invariant TotalsAgree(totals, cases[..k])
    {
      var c := cases[k];
      TotalsStep(totals, cases[..k], c);
      assert cases[..k + 1] == cases[..k] + [c];
      var earned, max := 0.0, 0.0;
      if c.category in totals { earned, max := totals[c.category].earned, totals[c.category].max; }
      totals := totals[c.category := Totals(earned + c.score, max + c.maxScore)];
    }
    assert cases[..|cases|] == cases;
    scores := map c | c in totals :: Ratio(totals[c].earned, totals[c].max);
  }

  // ---- several reports ------------------------------------------------------------------------

  function AllCases(reports: seq<seq<Case>>): seq<Case> {
    if reports == [] then [] else AllCases(reports[..|reports| - 1]) + reports[|reports| - 1]
  }

  function SumReports(reports: seq<seq<Case>>, of: Case -> real): real {
    if reports == [] then 0.0 else SumReports(reports[..|reports| - 1], of) + Sum(reports[|reports| - 1], of)
  }

  lemma {:induction false} SumConcat(a: seq<Case>, b: seq<Case>, of: Case -> real)
    ensures Sum(a + b, of) == Sum(a, of) + Sum(b, of)
  {
    if b == [] {
      assert a + b == a;
    } else {
      assert (a + b)[..|a + b| - 1] == a + b[..|b| - 1];
      SumConcat(a, b[..|b| - 1], of);
    }
  }

  // Adding up report by report is adding up the concatenated cases.
  lemma {:induction false} ReportsAddUp(reports: seq<seq<Case>>, of: Case -> real)
    ensures SumReports(reports, of) == Sum(AllCases(reports), of)
  {
    if reports != [] {
      var n := |reports| - 1;
      ReportsAddUp(reports[..n], of);
      SumConcat(AllCases(reports[..n]), reports[n], of);
    }
  }

  lemma OneMoreCase(before: seq<Case>, cases: seq<Case>, k: nat)
    requires k < |cases|
    ensures before + cases[..k + 1] == (before + cases[..k]) + [cases[k]]
  {
  }

  // The combined category scores of several reports are those of their concatenated cases.
  method CombinedCategoryScores(reports: seq<seq<Case>>) returns (scores: map<string, real>)
    ensures scores.Keys == Categories(AllCases(reports))
    ensures forall c :: c in scores ==> scores[c] == CategoryScore(AllCases(reports), c)
  {
    var totals: map<string, Totals> := map[];
    for r := 0 to |reports|
      invariant TotalsAgree(totals, AllCases(reports[..r]))
    {
      var cases := reports[r];
      ghost var before := AllCases(reports[..r]);
      assert before + cases[..0] == before;
      for k := 0 to |cases|
        invariant TotalsAgree(totals, before + cases[..k])
      {
        TotalsStep(totals, before + cases[..k], cases[k]);
        OneMoreCase(before, cases, k);
        totals := AddCase(totals, cases[k]);
      }
      assert cases[..|cases|] == cases;
      assert reports[..r + 1][..r] == reports[..r];
    }
    assert reports[..|reports|] == reports;
    scores := map c | c in totals :: Ratio(totals[c].earned, totals[c].max);
  }

  // ---- sums over categories ---------------------------------------------------------------------

  ghost function SumOver(keys: set<string>, f: string -> real): real {
    if keys == {} then 0.0
    else
      var k :| k in keys;
      f(k) + SumOver(keys - {k}, f)
  }

  lemma {:induction false} SumPick(keys: set<string>, f: string -> real, k: string)
    requires k in keys
    ensures SumOver(keys, f) == f(k) + SumOver(keys - {k}, f)
    decreases |keys|
  {
    var p :| p in keys && SumOver(keys, f) == f(p) + SumOver(keys - {p}, f);
    if p != k {
      SumPick(keys - {p}, f, k);
      SumPick(keys - {k}, f, p);
      assert keys - {p} - {k} == keys - {k} - {p};
    }
  }

  lemma {:induction false} SumSame(keys: set<string>, f: string -> real, g: string -> real)
    requires forall k :: k in keys ==> f(k) == g(k)
    ensures SumOver(keys, f) == SumOver(keys, g)
    decreases |keys|
  {
    if keys != {} {
      var k :| k in keys;
      SumPick(keys, f, k);
      SumPick(keys, g, k);
      SumSame(keys - {k}, f, g);
    }
  }

  lemma QuotientSum(a: real, b: real, m: real)
    requires m != 0.0
    ensures (a + b) / m == a / m + b / m
  {
    assert (a / m + b / m) * m == a + b;
  }

  lemma {:induction false} SumDivided(keys: set<string>, f: string -> real, g: string -> real, m: real)
    requires m != 0.0 && forall k :: k in keys ==> g(k) == f(k) / m
    ensures SumOver(keys, g) == SumOver(keys, f) / m
    decreases |keys|
  {
    if keys != {} {
      var k :| k in keys;
      SumPick(keys, f, k);
      SumPick(keys, g, k);
      SumDivided(keys - {k}, f, g, m);
      QuotientSum(f(k), SumOver(keys - {k}, f), m);
    }
  }

  // Conservation: the category sums add up to the overall sum.
  lemma {:induction false} ScoresConserved(cases: seq<Case>, of: Case -> real)
    ensures SumOver(Categories(cases), c => SumIn(cases, c, of)) == Sum(cases, of)
    decreases |cases|
  {
    if cases == [] {
      assert Categories(cases) == {};
    } else {
      var init, last := cases[..|cases| - 1], cases[|cases| - 1];
      var k, f, g := last.category, (c: string) => SumIn(init, c, of), (c: string) => SumIn(cases, c, of);
      ScoresConserved(init, of);
      assert cases == init + [last];
      assert Categories(cases) == Categories(init) + {k};
      SumPick(Categories(cases), g, k);
      SumSame(Categories(cases) - {k}, f, g);
      if k in Categories(init) {
        SumPick(Categories(init), f, k);
        assert Categories(cases) == Categories(init);
      } else {
        NothingElsewhere(init, k, of);
        assert Categories(cases) - {k} == Categories(init);
      }
    }
  }

  // ---- what a report's score means ------------------------------------------------------------

  // Every case is worth all or nothing, and no weight is negative.
  ghost predicate WellGraded(cases: seq<Case>) {
    forall c :: c in cases ==> Graded(c) && c.maxScore >= 0.0
  }

  lemma {:induction false} EarnedWithin(cases: seq<Case>)
    requires WellGraded(cases)
    ensures 0.0 <= Sum(cases, Score) <= Sum(cases, Weight)
    ensures Sum(cases, Score) == Sum(cases, Weight) <==> forall c :: c in cases && c.maxScore > 0.0 ==> c.passed
  {
    if cases != [] {
      var init, last := cases[..|cases| - 1], cases[|cases| - 1];
      assert last in cases;
      assert forall c :: c in init ==> c in cases;
      EarnedWithin(init);
      assert cases == init + [last];
    }
  }

  lemma {:induction false} EarnedInWithin(cases: seq<Case>, category: string)
    requires WellGraded(cases)
    ensures 0.0 <= SumIn(cases, category, Score) <= SumIn(cases, category, Weight)
  {
    if cases != [] {
      var init, last := cases[..|cases| - 1], cases[|cases| - 1];
      assert last in cases;
      assert forall c :: c in init ==> c in cases;
      EarnedInWithin(init, category);
    }
  }

  lemma DivideMonotone(a: real, b: real, m: real)
    requires a <= b && m > 0.0
    ensures a / m <= b / m && m / m == 1.0
  {
    assert a / m * m == a && b / m * m == b;
  }

  // How much of a report's total a category is worth.
  function Share(cases: seq<Case>, category: string): real {
    Ratio(SumIn(cases, category, Weight), Sum(cases, Weight))
  }

  lemma SharesAddUp(cases: seq<Case>)
    requires Sum(cases, Weight) > 0.0
    ensures SumOver(Categories(cases), c => Share(cases, c)) == 1.0
  {
    var weight, share := (c: string) => SumIn(cases, c, Weight), (c: string) => Share(cases, c);
    ScoresConserved(cases, Weight);
    SumDivided(Categories(cases), weight, share, Sum(cases, Weight));
    DivideMonotone(0.0, 0.0, Sum(cases, Weight));
  }

  lemma ShareOfScore(cases: seq<Case>, category: string)
    requires WellGraded(cases) && Sum(cases, Weight) > 0.0
    ensures 0.0 <= Share(cases, category)
    ensures Share(cases, category) * CategoryScore(cases, category) ==
      SumIn(cases, category, Score) / Sum(cases, Weight)
  {
    EarnedInWithin(cases, category);
    DivideMonotone(0.0, SumIn(cases, category, Weight), Sum(cases, Weight));
    ShareTimesScore(SumIn(cases, category, Score), SumIn(cases, category, Weight), Sum(cases, Weight));
  }

  // The overall score is a convex combination of the category scores, weighted by how much
  // of the total each category is worth.
  lemma OverallIsConvex(cases: seq<Case>)
    requires WellGraded(cases) && Sum(cases, Weight) > 0.0
    ensures (forall c :: 0.0 <= Share(cases, c)) && SumOver(Categories(cases), c => Share(cases, c)) == 1.0
    ensures Overall(cases) == SumOver(Categories(cases), c => Share(cases, c) * CategoryScore(cases, c))
  {
    SharesAddUp(cases);
    SharesNotNegative(cases);
    WeightedScores(cases, c => Share(cases, c) * CategoryScore(cases, c));
  }

  lemma SharesNotNegative(cases: seq<Case>)
    requires WellGraded(cases) && Sum(cases, Weight) > 0.0
    ensures forall c :: 0.0 <= Share(cases, c)
  {
    forall c ensures 0.0 <= Share(cases, c) { ShareOfScore(cases, c); }
  }

  lemma WeightedScores(cases: seq<Case>, product: string -> real)
    requires WellGraded(cases) && Sum(cases, Weight) > 0.0
    requires forall c :: product(c) == Share(cases, c) * CategoryScore(cases, c)
    ensures Overall(cases) == SumOver(Categories(cases), product)
  {
    var earned, total := (c: string) => SumIn(cases, c, Score), Sum(cases, Weight);
    ScoresConserved(cases, Score);
    forall c ensures product(c) == earned(c) / total { ShareOfScore(cases, c); }
    SumDivided(Categories(cases), earned, product, total);
  }

  lemma ShareTimesScore(earned: real, weight: real, total: real)
    requires 0.0 <= earned <= weight && total > 0.0
    ensures weight / total * Ratio(earned, weight) == earned / total
  {
    if weight > 0.0 {
      assert earned == earned / weight * weight;
      assert weight / total * (earned / weight) * total == earned;
    }
  }

  // With passing score 1.0 a report with something to earn passes if and only if every
  // case that is worth anything passed; one with nothing to earn never passes.
  lemma PassesExactlyWhenAllPass(cases: seq<Case>)
    requires WellGraded(cases)
    ensures Overall(cases) >= 1.0 <==>
      (exists c :: c in cases && c.maxScore > 0.0) && forall c :: c in cases && c.maxScore > 0.0 ==> c.passed
  {
    EarnedWithin(cases);
    SomethingToEarn(cases);
    var earned, total := Sum(cases, Score), Sum(cases, Weight);
    if total > 0.0 { AtLeastOne(earned, total); }
  }

  lemma AtLeastOne(earned: real, total: real)
    requires total > 0.0
    ensures earned / total >= 1.0 <==> earned >= total
  {
    if earned >= total {
      DivideMonotone(total, earned, total);
    } else {
      assert earned / total * total == earned;
      if earned / total >= 1.0 {
        ProductMonotone(earned / total, total);
      }
    }
  }

  lemma ProductMonotone(a: real, m: real)
    requires a >= 1.0 && m > 0.0
    ensures a * m >= m
  {
  }

  lemma {:induction false} SomethingToEarn(cases: seq<Case>)
    requires WellGraded(cases)
    ensures Sum(cases, Weight) > 0.0 <==> exists c :: c in cases && c.maxScore > 0.0
  {
    if cases != [] {
      var init, last := cases[..|cases| - 1], cases[|cases| - 1];
      assert last in cases;
      assert forall c :: c in init ==> c in cases;
      SomethingToEarn(init);
      EarnedWithin(init);
      assert cases == init + [last];
    }
  }
}
