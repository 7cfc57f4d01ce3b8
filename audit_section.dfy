/** The statistics the audit section shows for a list of findings: one count
    per severity and the audit score with its colour band. */
module AuditSection {
  import opened Types

  // ---------------------------------------------------------------------
  // Per-severity counts
  // ---------------------------------------------------------------------

  /** Reference count: the number of findings with severity `s`. */
  function Count(audit: seq<Vulnerability>, s: Severity): nat {
    if audit == [] then 0
    else (if audit[0].severity == s then 1 else 0) + Count(audit[1..], s)
  }

  /** Whether some finding has severity `s`. */
  predicate Present(audit: seq<Vulnerability>, s: Severity) {
    exists k :: 0 <= k < |audit| && audit[k].severity == s
  }

  /** The truthiness filter on the severity field. A severity's run-time
      value is a non-empty string, so it keeps every finding. */
  function KeepWithSeverity(audit: seq<Vulnerability>): (kept: seq<Vulnerability>)
    ensures kept == audit
  {
    if audit == [] then []
    else (if |SeverityName(audit[0].severity)| > 0 then [audit[0]] else []) + KeepWithSeverity(audit[1..])
  }

  /** The counting reduce: starting from `acc`, add one per finding whose
      severity equals `s`. It adds exactly the number of such findings. */
  function Tally(audit: seq<Vulnerability>, s: Severity, acc: nat): (n: nat)
    ensures n == acc + Count(audit, s)
  {
    if audit == [] then acc
    else Tally(audit[1..], s, if audit[0].severity == s then acc + 1 else acc)
  }

  /** `lowSeverityCount`, `mediumSeverityCount` and `highSeverityCount`: the
      filter followed by the counting reduce, for severity `s`. */
  function SeverityCount(audit: seq<Vulnerability>, s: Severity): (n: nat)
    ensures n == Count(audit, s)
    ensures n <= |audit|
    ensures n > 0 <==> Present(audit, s)
  {
    CountBounds(audit, s);
    Tally(KeepWithSeverity(audit), s, 0)
  }

  lemma {:induction false} CountBounds(audit: seq<Vulnerability>, s: Severity)
    ensures Count(audit, s) <= |audit|
    ensures Count(audit, s) > 0 <==> Present(audit, s)
  {
    if audit != [] {
      CountBounds(audit[1..], s);
      if Present(audit[1..], s) {
        var k :| 0 <= k < |audit[1..]| && audit[1..][k].severity == s;
        assert audit[k + 1].severity == s;
      }
      if Present(audit, s) && audit[0].severity != s {
        var k :| 0 <= k < |audit| && audit[k].severity == s;
        assert audit[1..][k - 1].severity == s;
      }
    }
  }

  /** The three counts add up to the number of findings: severity has no
      fourth value. */
  lemma {:induction false} CountsSumToLength(audit: seq<Vulnerability>)
    ensures Count(audit, Low) + Count(audit, Medium) + Count(audit, High) == |audit|
  {
    if audit != [] {
      CountsSumToLength(audit[1..]);
    }
  }

  /** Counting a list with one more finding at the end. */
  lemma {:induction false} CountSnoc(audit: seq<Vulnerability>, v: Vulnerability, s: Severity)
    ensures Count(audit + [v], s) == Count(audit, s) + (if v.severity == s then 1 else 0)
  {
    if audit == [] {
      assert audit + [v] == [v];
    } else {
      assert (audit + [v])[1..] == audit[1..] + [v];
      CountSnoc(audit[1..], v, s);
    }
  }

  // ---------------------------------------------------------------------
  // Audit score
  // ---------------------------------------------------------------------

  /** The result of the score computation: a percentage, or the `NaN` that
      `0 / 0` produces. */
  datatype Score = NotANumber | Percent(value: real)

  /** `severityValue`: the weight of each tier, from 1 to 3, with the
      largest weight 3 for Low alone. */
  function Weight(s: Severity): (w: nat)
    ensures 1 <= w <= 3
    ensures w == 3 <==> s == Low
  {
    match s
    case Low => 3
    case Medium => 2
    case High => 1
  }

  /** The occurrence table holds one entry per severity. */
  predicate Complete(occurrences: map<Severity, nat>) {
    Low in occurrences && Medium in occurrences && High in occurrences
  }

  /** Every finding's own tier has a non-zero entry, so no divisor of the
      `totalScore` reduce is zero. */
  predicate DivisorsPositive(audit: seq<Vulnerability>, occurrences: map<Severity, nat>) {
    forall k :: 0 <= k < |audit| ==> audit[k].severity in occurrences && occurrences[audit[k].severity] >= 1
  }

  /** The `totalScore` reduce: starting from `acc`, add each finding's
      weight divided by the occurrences of its tier. Every term is
      positive, so the result exceeds `acc` exactly when there is a finding. */
  function TotalScore(audit: seq<Vulnerability>, occurrences: map<Severity, nat>, acc: real): (total: real)
    requires DivisorsPositive(audit, occurrences)
    ensures audit == [] ==> total == acc
    ensures audit != [] ==> total > acc
  {
    if audit == [] then acc
    else
      assert DivisorsPositive(audit[1..], occurrences) by {
        forall k | 0 <= k < |audit[1..]|
          ensures audit[1..][k].severity in occurrences && occurrences[audit[1..][k].severity] >= 1
        {
          assert audit[1..][k] == audit[k + 1];
        }
      }
      var s := audit[0].severity;
      TotalScore(audit[1..], occurrences, acc + Weight(s) as real / occurrences[s] as real)
  }

  /** The position of each tier in the table's insertion order. */
  function InsertionIndex(s: Severity): nat {
    match s
    case Low => 0
    case Medium => 1
    case High => 2
  }

  /** `Object.values(severityOccurrences)`: one value per tier, each at its
      tier's insertion position. */
  function OccurrenceValues(occurrences: map<Severity, nat>): (values: seq<nat>)
    requires Complete(occurrences)
    ensures |values| == 3
    ensures forall s :: values[InsertionIndex(s)] == occurrences[s]
  {
    [occurrences[Low], occurrences[Medium], occurrences[High]]
  }

  /** Reference sum of a list of numbers. */
  function Sum(values: seq<nat>): nat {
    if values == [] then 0 else values[0] + Sum(values[1..])
  }

  /** The `maxScore` reduce: starting from `acc`, add three per value; it
      adds three times the values' sum. */
  function SumTimesThree(values: seq<nat>, acc: nat): (total: nat)
    ensures total == acc + 3 * Sum(values)
  {
    if values == [] then acc else SumTimesThree(values[1..], acc + values[0] * 3)
  }

  /** What the tier `s` adds to `totalScore`: its findings times its
      weight over its occurrences. */
  function Share(audit: seq<Vulnerability>, occurrences: map<Severity, nat>, s: Severity): real
    requires s in occurrences
  {
    if occurrences[s] == 0 then 0.0
    else Count(audit, s) as real * (Weight(s) as real / occurrences[s] as real)
  }

  /** Distributing an extra finding over a tier's share. */
  lemma ShareStep(audit: seq<Vulnerability>, occurrences: map<Severity, nat>, t: Severity)
    requires audit != [] && t in occurrences
    requires audit[0].severity in occurrences && occurrences[audit[0].severity] >= 1
    ensures Share(audit, occurrences, t)
            == Share(audit[1..], occurrences, t)
               + (if audit[0].severity == t then Weight(t) as real / occurrences[t] as real else 0.0)
  {
    if audit[0].severity == t {
      var q := Weight(t) as real / occurrences[t] as real;
      var c := Count(audit[1..], t) as real;
      assert Count(audit, t) as real == c + 1.0;
      assert (c + 1.0) * q == c * q + q;
    }
  }

  lemma {:induction false} TotalScoreIsSumOfShares(audit: seq<Vulnerability>, occurrences: map<Severity, nat>, acc: real)
    requires Complete(occurrences) && DivisorsPositive(audit, occurrences)
    ensures TotalScore(audit, occurrences, acc)
            == acc + Share(audit, occurrences, Low) + Share(audit, occurrences, Medium) + Share(audit, occurrences, High)
  {
    if audit != [] {
      var s := audit[0].severity;
      var q := Weight(s) as real / occurrences[s] as real;
      assert DivisorsPositive(audit[1..], occurrences) by {
        forall k | 0 <= k < |audit[1..]|
          ensures audit[1..][k].severity in occurrences && occurrences[audit[1..][k].severity] >= 1
        {
          assert audit[1..][k] == audit[k + 1];
        }
      }
      assert TotalScore(audit, occurrences, acc) == TotalScore(audit[1..], occurrences, acc + q);
      TotalScoreIsSumOfShares(audit[1..], occurrences, acc + q);
      ShareStep(audit, occurrences, Low);
      ShareStep(audit, occurrences, Medium);
      ShareStep(audit, occurrences, High);
    }
  }

  /** When the table holds the true counts, a tier's share is its weight
      if it is present and zero otherwise. */
  lemma ShareOfTrueCount(audit: seq<Vulnerability>, occurrences: map<Severity, nat>, s: Severity)
    requires s in occurrences && occurrences[s] == Count(audit, s)
    ensures Share(audit, occurrences, s) == if Present(audit, s) then Weight(s) as real else 0.0
  {
    CountBounds(audit, s);
    if occurrences[s] > 0 {
      var c := occurrences[s] as real;
      var w := Weight(s) as real;
      assert c * (w / c) == w;
    }
  }

  /** The sum of the weights of the distinct tiers present. */
  function DistinctWeight(audit: seq<Vulnerability>): nat {
    (if Present(audit, Low) then Weight(Low) else 0)
    + (if Present(audit, Medium) then Weight(Medium) else 0)
    + (if Present(audit, High) then Weight(High) else 0)
  }

  /** A non-empty list has at least one tier present and at most three
      points per finding. */
  lemma DistinctWeightBounds(audit: seq<Vulnerability>)
    requires audit != []
    ensures 1 <= DistinctWeight(audit) <= 3 * |audit|
  {
    assert Present(audit, audit[0].severity) by { assert audit[0].severity == audit[0].severity; }
    CountBounds(audit, Low);
    CountBounds(audit, Medium);
    CountBounds(audit, High);
    CountsSumToLength(audit);
  }

  /** The score in closed form: the weights of the distinct tiers present
      over three points per finding, as a percentage; `0 / 0` for an empty
      list. A non-empty list scores in (0, 100]. */
  function AuditScoreOf(audit: seq<Vulnerability>): (score: Score)
    ensures score.NotANumber? <==> audit == []
    ensures score.Percent? ==> 0.0 < score.value <= 100.0
  {
    if audit == [] then NotANumber
    else
      DistinctWeightBounds(audit);
      var d := DistinctWeight(audit) as real;
      var m := (3 * |audit|) as real;
      assert d / m <= 1.0 by { assert d <= m; }
      Percent(d / m * 100.0)
  }

  /** `calculateAuditScore` without the final rounding: tally the
      occurrences of each tier in a table, reduce the findings to
      `totalScore`, reduce the table to `maxScore`, and divide. */
  method CalculateAuditScore(audit: seq<Vulnerability>) returns (score: Score)
    ensures score == AuditScoreOf(audit)
  {
    var occurrences: map<Severity, nat> := map[Low := 0, Medium := 0, High := 0];
    for i := 0 to |audit|
      invariant Complete(occurrences)
      invariant forall s :: s in occurrences ==> occurrences[s] == Count(audit[..i], s)
    {
      var severity := audit[i].severity;
      forall s ensures Count(audit[..i + 1], s) == Count(audit[..i], s) + (if severity == s then 1 else 0) {
        assert audit[..i + 1] == audit[..i] + [audit[i]];
        CountSnoc(audit[..i], audit[i], s);
      }
      occurrences := occurrences[severity := occurrences[severity] + 1];
    }
    assert audit[..|audit|] == audit;
    TotalScoreIsDistinctWeight(audit, occurrences);
    MaxScoreIsThreePerFinding(audit, occurrences);
    var totalScore := TotalScore(audit, occurrences, 0.0);
    var maxScore := SumTimesThree(OccurrenceValues(occurrences), 0);
    if maxScore == 0 {
      // `totalScore` is 0 too: the division is 0 / 0
      score := NotANumber;
    } else {
      score := Percent(totalScore / maxScore as real * 100.0);
    }
  }

  /** `maxScore` is three points per finding whenever the table holds the
      true counts. */
  lemma MaxScoreIsThreePerFinding(audit: seq<Vulnerability>, occurrences: map<Severity, nat>)
    requires Complete(occurrences)
    requires forall s :: s in occurrences ==> occurrences[s] == Count(audit, s)
    ensures SumTimesThree(OccurrenceValues(occurrences), 0) == 3 * |audit|
  {
    var values := OccurrenceValues(occurrences);
    assert values == [occurrences[Low], occurrences[Medium], occurrences[High]];
    assert values[1..] == [occurrences[Medium], occurrences[High]];
    assert values[1..][1..] == [occurrences[High]];
    assert values[1..][1..][1..] == [];
    assert Sum(values[1..][1..]) == occurrences[High];
    assert Sum(values[1..]) == occurrences[Medium] + occurrences[High];
    assert Sum(values) == occurrences[Low] + occurrences[Medium] + occurrences[High];
    CountsSumToLength(audit);
  }

  /** `totalScore` is the sum of the weights of the distinct tiers present
      whenever the table holds the true counts. */
  lemma TotalScoreIsDistinctWeight(audit: seq<Vulnerability>, occurrences: map<Severity, nat>)
    requires Complete(occurrences)
    requires forall s :: s in occurrences ==> occurrences[s] == Count(audit, s)
    ensures DivisorsPositive(audit, occurrences)
    ensures TotalScore(audit, occurrences, 0.0) == DistinctWeight(audit) as real
  {
    forall k | 0 <= k < |audit|
      ensures audit[k].severity in occurrences && occurrences[audit[k].severity] >= 1
    {
      CountBounds(audit, audit[k].severity);
    }
    TotalScoreIsSumOfShares(audit, occurrences, 0.0);
    ShareOfTrueCount(audit, occurrences, Low);
    ShareOfTrueCount(audit, occurrences, Medium);
    ShareOfTrueCount(audit, occurrences, High);
  }

  /** Two Low findings and one High finding score 4 points out of 9. */
  lemma TwoLowOneHighExample(a: Vulnerability, b: Vulnerability, c: Vulnerability)
    requires a.severity == Low && b.severity == Low && c.severity == High
    ensures AuditScoreOf([a, b, c]) == Percent(400.0 / 9.0)
  {
    var audit := [a, b, c];
    assert audit[0].severity == Low && audit[2].severity == High;
    assert !Present(audit, Medium);
    assert DistinctWeight(audit) == 4;
  }

  // ---------------------------------------------------------------------
  // Colour band of the score bar
  // ---------------------------------------------------------------------

  datatype Band = Red | Yellow | Green

  /** The colour classes that apply to a score; every comparison with
      `NaN` is false, so none applies to it. */
  function Bands(score: Score): (bands: set<Band>)
    ensures bands == {} <==> score.NotANumber?
    ensures Red in bands <==> score.Percent? && score.value < 35.0
    ensures Yellow in bands <==> score.Percent? && 35.0 <= score.value < 65.0
    ensures Green in bands <==> score.Percent? && 65.0 <= score.value
  {
    match score
    case NotANumber => {}
    case Percent(v) =>
      (if v < 35.0 then {Red} else {})
      + (if v >= 35.0 && v < 65.0 then {Yellow} else {})
      + (if v >= 65.0 then {Green} else {})
  }

  /** A percentage gets exactly one band: red below 35, yellow from 35 up
      to 65, green from 65. */
  lemma ExactlyOneBand(v: real)
    ensures Bands(Percent(v)) == {if v < 35.0 then Red else if v < 65.0 then Yellow else Green}
  {
  }

  /** As written, an empty audit scores `NaN` and its bar gets no colour. */
  lemma EmptyAuditHasNoBand()
    ensures AuditScoreOf([]) == NotANumber
    ensures Bands(AuditScoreOf([])) == {}
  {
  }

  /** The score with the missing guard: an empty list scores 0, any other
      list scores as before. */
  function GuardedAuditScore(audit: seq<Vulnerability>): (score: Score)
    ensures score.Percent? && 0.0 <= score.value <= 100.0
    ensures audit == [] ==> score.value == 0.0
    ensures audit != [] ==> score == AuditScoreOf(audit)
  {
    if audit == [] then Percent(0.0) else AuditScoreOf(audit)
  }

  /** With the guard every list's bar gets exactly one colour. */
  lemma GuardedScoreHasOneBand(audit: seq<Vulnerability>)
    ensures |Bands(GuardedAuditScore(audit))| == 1
  {
    ExactlyOneBand(GuardedAuditScore(audit).value);
  }
}
