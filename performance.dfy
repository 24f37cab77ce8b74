/** The summary of a performance benchmark: the share of tests that passed,
    the letter grade of that share, and the optimisation advice for the tests
    that failed. The benchmark results themselves come from timing pipeline
    functions and are inputs here. */
module Performance {
  import opened Common
  import opened Values
  import opened Seqs
  import opened Config

  /** The thresholds the benchmark suite is set up with. */
  const BenchmarkThresholds: PerformanceThresholds := PerformanceThresholds(1000, 10, 10, 80, 90)

  /** The suite's thresholds are the pipeline's configured ones. */
  lemma ThresholdsAgree()
    ensures BenchmarkThresholds == PerformanceThresholdValues
    ensures BenchmarkThresholds.transactionProcessing == 1000 && BenchmarkThresholds.memoryUsage == 80
  {
  }

  /** A benchmark result per test, in the order the tests were run. */
  type BenchmarkResults = seq<(string, Record)>

  /** `result.get('passed', False)`, read for its truth value. */
  predicate Passed(result: Record) {
    Truthy(GetOr(result, "passed", Bool(false)))
  }

  // ---------------------------------------------------------------------------
  // Score and grade

  /** `sum(1 for result in results.values() if result.get('passed', False))` */
  function PassedCount(results: BenchmarkResults): (n: nat)
    ensures n <= |results|
  {
    if results == [] then 0
    else (if Passed(results[0].1) then 1 else 0) + PassedCount(results[1..])
  }

  lemma {:induction false} PassedCountExtremes(results: BenchmarkResults)
    ensures PassedCount(results) == |results| <==> forall i :: 0 <= i < |results| ==> Passed(results[i].1)
    ensures PassedCount(results) == 0 <==> forall i :: 0 <= i < |results| ==> !Passed(results[i].1)
  {
    if results != [] {
      PassedCountExtremes(results[1..]);
      assert forall i :: 1 <= i < |results| ==> results[i] == results[1..][i - 1];
      if !Passed(results[0].1) {
        assert PassedCount(results) <= |results[1..]|;
      }
    }
  }

  /** `passed_tests / total_tests if total_tests > 0 else 0` */
  function OverallScore(results: BenchmarkResults): real {
    if |results| > 0 then PassedCount(results) as real / |results| as real else 0.0
  }

  /** The score is a share: between 0 and 1, 1 exactly when every test passed
      and 0 exactly when none did (or there were no tests). */
  lemma OverallScoreBounds(results: BenchmarkResults)
    ensures 0.0 <= OverallScore(results) <= 1.0
    ensures results != [] ==>
      (OverallScore(results) == 1.0 <==> forall i :: 0 <= i < |results| ==> Passed(results[i].1))
    ensures OverallScore(results) == 0.0 <==> forall i :: 0 <= i < |results| ==> !Passed(results[i].1)
  {
    PassedCountExtremes(results);
    if results != [] {
      Share(PassedCount(results) as real, |results| as real);
    }
  }

  /** A part divided by its whole lies in [0, 1], and is 1 or 0 only at the ends. */
  lemma Share(p: real, t: real)
    requires 0.0 <= p <= t && t > 0.0
    ensures 0.0 <= p / t <= 1.0
    ensures p / t == 1.0 <==> p == t
    ensures p / t == 0.0 <==> p == 0.0
  {
    var q := p / t;
    assert q * t == p;
  }

  /** `_calculate_performance_grade` */
  function Grade(score: real): string {
    if score >= 0.9 then "A"
    else if score >= 0.8 then "B"
    else if score >= 0.7 then "C"
    else if score >= 0.6 then "D"
    else "F"
  }

  /** How good a grade is: F is 0, A is 4. */
  function GradeRank(grade: string): (rank: nat)
    ensures rank <= 4
  {
    if grade == "A" then 4
    else if grade == "B" then 3
    else if grade == "C" then 2
    else if grade == "D" then 1
    else 0
  }

  /** A higher score never gets a worse grade. */
  lemma GradeMonotone(a: real, b: real)
    requires a <= b
    ensures GradeRank(Grade(a)) <= GradeRank(Grade(b))
  {
  }

  /** Each grade is the band of scores the chain of thresholds gives it. */
  lemma GradeBands(score: real)
    ensures Grade(score) == "A" <==> 0.9 <= score
    ensures Grade(score) == "B" <==> 0.8 <= score < 0.9
    ensures Grade(score) == "C" <==> 0.7 <= score < 0.8
    ensures Grade(score) == "D" <==> 0.6 <= score < 0.7
    ensures Grade(score) == "F" <==> score < 0.6
  {
  }

  // ---------------------------------------------------------------------------
  // Recommendations

  /** The advice for a failed test, by the first of `processing`, `memory` and
      `query` its name contains. */
  function Advice(testName: string): Option<string> {
    if Contains(testName, "processing") then
      Some("Optimize " + testName + " - consider batch processing or parallelization")
    else if Contains(testName, "memory") then
      Some("Reduce memory usage in " + testName + " - consider streaming or chunking")
    else if Contains(testName, "query") then
      Some("Optimize " + testName + " - add indexes or rewrite query")
    else None
  }

  function Recommendation(entry: (string, Record)): Option<string> {
    if Passed(entry.1) then None else Advice(entry.0)
  }

  function Recommendations(results: BenchmarkResults): seq<string> {
    FilterMap(results, Recommendation)
  }

  /** `_generate_recommendations` */
  method GenerateRecommendations(results: BenchmarkResults) returns (recommendations: seq<string>)
    ensures recommendations == Recommendations(results)
  {
    recommendations := [];
    var i := 0;
    while i < |results|
      invariant 0 <= i <= |results|
      invariant recommendations == FilterMap(results[..i], Recommendation)
    {
      FilterMapStep(results, Recommendation, i);
      var (testName, result) := results[i];
      if !Passed(result) {
        if Contains(testName, "processing") {
          recommendations := recommendations + ["Optimize " + testName + " - consider batch processing or parallelization"];
        } else if Contains(testName, "memory") {
          recommendations := recommendations + ["Reduce memory usage in " + testName + " - consider streaming or chunking"];
        } else if Contains(testName, "query") {
          recommendations := recommendations + ["Optimize " + testName + " - add indexes or rewrite query"];
        }
      }
      i := i + 1;
    }
    assert results[..i] == results;
  }

  /** Every recommendation is the advice for a distinct failed test, in test
      order; every failed test whose name has advice gets it; passed tests get none. */
  lemma RecommendationsFromFailures(results: BenchmarkResults)
    ensures |Recommendations(results)| <= |results| - PassedCount(results)
    ensures |Kept(results, Recommendation)| == |Recommendations(results)|
    ensures forall k :: 0 <= k < |Recommendations(results)| ==>
      var i := Kept(results, Recommendation)[k];
      i < |results| && !Passed(results[i].1) && Advice(results[i].0) == Some(Recommendations(results)[k])
    ensures forall k, l :: 0 <= k < l < |Kept(results, Recommendation)| ==>
      Kept(results, Recommendation)[k] < Kept(results, Recommendation)[l]
    ensures forall i :: 0 <= i < |results| && !Passed(results[i].1) && Advice(results[i].0).Some? ==>
      i in Kept(results, Recommendation)
  {
    FilterMapSelection(results, Recommendation);
    RecommendationsAtMostFailed(results);
  }

  lemma {:induction false} RecommendationsAtMostFailed(results: BenchmarkResults)
    ensures |Recommendations(results)| <= |results| - PassedCount(results)
  {
    if results != [] {
      RecommendationsAtMostFailed(results[1..]);
      FilterMapAppend([results[0]], results[1..], Recommendation);
      assert [results[0]] + results[1..] == results;
      assert FilterMap([results[0]], Recommendation) == Emit(Recommendation(results[0])) by {
        assert [results[0]][1..] == [];
      }
    }
  }

  /** A test whose name mentions none of the three words (such as the data
      loading test) never gets advice, and `processing` wins over the others. */
  lemma AdvicePriority(testName: string)
    ensures !Contains(testName, "processing") && !Contains(testName, "memory") && !Contains(testName, "query") ==>
      Advice(testName).None?
    ensures Contains(testName, "processing") ==>
      Advice(testName) == Some("Optimize " + testName + " - consider batch processing or parallelization")
    ensures !Contains(testName, "processing") && Contains(testName, "memory") ==>
      Advice(testName) == Some("Reduce memory usage in " + testName + " - consider streaming or chunking")
  {
  }

  // ---------------------------------------------------------------------------
  // The summary of `run_performance_benchmark`

  datatype BenchmarkSummary = BenchmarkSummary(
    overallScore: real, passedTests: nat, totalTests: nat,
    benchmarkResults: BenchmarkResults, performanceGrade: string, recommendations: seq<string>)

  function Summarize(results: BenchmarkResults): (s: BenchmarkSummary)
    ensures s.passedTests == PassedCount(results) && s.overallScore == OverallScore(results)
    ensures s.performanceGrade == Grade(s.overallScore)
    ensures s.recommendations == Recommendations(results) && s.benchmarkResults == results
    ensures s.passedTests <= s.totalTests == |results|
    ensures 0.0 <= s.overallScore <= 1.0
    ensures s.totalTests == 0 ==> s.overallScore == 0.0 && s.performanceGrade == "F" && s.recommendations == []
    ensures s.passedTests == s.totalTests > 0 ==> s.performanceGrade == "A" && s.recommendations == []
  {
    OverallScoreBounds(results);
    PassedCountExtremes(results);
    NoRecommendationsWhenAllPass(results);
    BenchmarkSummary(OverallScore(results), PassedCount(results), |results|, results,
                     Grade(OverallScore(results)), Recommendations(results))
  }

  /** The summary's grade is A exactly when at least nine tests in ten passed. */
  lemma SummaryGradeA(results: BenchmarkResults)
    ensures Summarize(results).performanceGrade == "A" <==>
      results != [] && PassedCount(results) as real >= 0.9 * |results| as real
  {
    if results != [] {
      GradeAShare(PassedCount(results) as real, |results| as real);
    } else {
      assert Grade(0.0) == "F";
    }
  }

  /** A share gets grade A exactly when the part is at least nine tenths of the whole. */
  lemma GradeAShare(p: real, t: real)
    requires t > 0.0
    ensures Grade(p / t) == "A" <==> p >= 0.9 * t
  {
    var q := p / t;
    assert q * t == p;
    if q >= 0.9 {
      assert q * t >= 0.9 * t;
    }
    if p >= 0.9 * t {
      assert q * t >= 0.9 * t;
    }
  }

  lemma NoRecommendationsWhenAllPass(results: BenchmarkResults)
    ensures PassedCount(results) == |results| ==> Recommendations(results) == []
  {
    RecommendationsAtMostFailed(results);
    PassedCountExtremes(results);
  }
}
