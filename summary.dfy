/** The structured summary of a report (src/tools/lighthouse.ts:144-173):
    category scores in report order, and audits counted as failed or passed
    by score, with unscored audits in neither count. */
module Summary {
  import opened Wrappers
  import opened AuditRequest
  import opened LighthouseEngine

  /** The elements of `s` that satisfy `p`, in order (`Array.prototype.filter`). */
  function Filter<T(!new)>(s: seq<T>, p: T -> bool): (r: seq<T>)
    ensures |r| <= |s|
    ensures forall x :: x in r <==> x in s && p(x)
  {
    if s == [] then []
    else (if p(s[0]) then [s[0]] else []) + Filter(s[1..], p)
  }

  /** Filtering keeps multiplicities: an element that satisfies `p` occurs in
      the result as often as in `s`, any other not at all. */
  lemma {:induction false} FilterMultiset<T(!new)>(s: seq<T>, p: T -> bool)
    ensures forall x :: multiset(Filter(s, p))[x] == if p(x) then multiset(s)[x] else 0
  {
    if s != [] {
      FilterMultiset(s[1..], p);
      assert s == [s[0]] + s[1..];
      assert multiset(s) == multiset([s[0]]) + multiset(s[1..]);
      var head := if p(s[0]) then [s[0]] else [];
      assert Filter(s, p) == head + Filter(s[1..], p);
      assert multiset(Filter(s, p)) == multiset(head) + multiset(Filter(s[1..], p));
    }
  }

  /** Filtering keeps order: filtering a concatenation concatenates the
      filtered parts. */
  lemma {:induction false} FilterConcat<T(!new)>(s: seq<T>, t: seq<T>, p: T -> bool)
    ensures Filter(s + t, p) == Filter(s, p) + Filter(t, p)
  {
    if s == [] {
      assert s + t == t;
    } else {
      assert (s + t)[0] == s[0] && (s + t)[1..] == s[1..] + t;
      FilterConcat(s[1..], t, p);
      var head := if p(s[0]) then [s[0]] else [];
      assert Filter(s + t, p) == head + Filter(s[1..] + t, p);
      assert Filter(s, p) == head + Filter(s[1..], p);
    }
  }

  /** A scored audit below 1 has failed. */
  predicate IsFailed(a: AuditResult) {
    a.score.Some? && a.score.value < 1.0
  }

  /** An audit scored exactly 1 has passed. */
  predicate IsPassed(a: AuditResult) {
    a.score == Some(1.0)
  }

  /** An unscored audit is not applicable. */
  predicate IsNotApplicable(a: AuditResult) {
    a.score.None?
  }

  /** A score above 1, which the engine does not produce, is in neither count. */
  predicate IsAboveRange(a: AuditResult) {
    a.score.Some? && a.score.value > 1.0
  }

  /** Every audit falls in exactly one of the four classes, so the four
      counts add up to the number of audits and no audit is both failed and
      passed. */
  lemma {:induction false} ClassesPartition(audits: seq<AuditResult>)
    ensures |Filter(audits, IsFailed)| + |Filter(audits, IsPassed)| +
            |Filter(audits, IsNotApplicable)| + |Filter(audits, IsAboveRange)| == |audits|
    ensures forall a :: a in Filter(audits, IsFailed) ==> a !in Filter(audits, IsPassed)
  {
    if audits != [] {
      ClassesPartition(audits[1..]);
    }
  }

  /** Failed, passed and not-applicable audits account for every audit exactly
      when no score lies above 1; in particular whenever all scores lie in [0, 1]. */
  lemma CountsCoverAudits(audits: seq<AuditResult>)
    ensures |Filter(audits, IsFailed)| + |Filter(audits, IsPassed)| + |Filter(audits, IsNotApplicable)| == |audits|
            <==> forall i :: 0 <= i < |audits| ==> !IsAboveRange(audits[i])
  {
    ClassesPartition(audits);
    var above := Filter(audits, IsAboveRange);
    if |above| != 0 {
      assert above[0] in above;
    }
    if exists i :: 0 <= i < |audits| && IsAboveRange(audits[i]) {
      var i :| 0 <= i < |audits| && IsAboveRange(audits[i]);
      assert audits[i] in above;
    }
  }

  /** One entry of `summary.scores`. */
  datatype CategoryScore = CategoryScore(id: string, title: string, score: Option<real>)

  /** The categories projected to id, title and score, one entry per category
      in report order. */
  function CategoryScores(categories: seq<CategoryResult>): (r: seq<CategoryScore>)
    ensures |r| == |categories|
    ensures forall i :: 0 <= i < |r| ==>
              r[i].id == categories[i].id && r[i].title == categories[i].title &&
              r[i].score == categories[i].score
  {
    if categories == [] then []
    else
      var c := categories[0];
      [CategoryScore(c.id, c.title, c.score)] + CategoryScores(categories[1..])
  }

  datatype AuditCounts = AuditCounts(failed: nat, passed: nat)
  datatype Timing = Timing(total: real)

  datatype AuditSummary = AuditSummary(
    mode: Mode,
    device: Device,
    url: string,
    scores: seq<CategoryScore>,
    audits: AuditCounts,
    timing: Timing)

  /** The summary echoes the effective mode and device, the report's main
      document URL and total time, lists the category scores in order, and
      counts failed and passed audits, which together never exceed the audits. */
  function Summarize(lhr: Lhr, mode: Mode, device: Device): (s: AuditSummary)
    ensures s.mode == mode && s.device == device
    ensures s.url == lhr.mainDocumentUrl && s.timing.total == lhr.timingTotal
    ensures |s.scores| == |lhr.categories|
    ensures forall i :: 0 <= i < |s.scores| ==>
              s.scores[i] == CategoryScore(lhr.categories[i].id, lhr.categories[i].title, lhr.categories[i].score)
    ensures s.audits.failed == |Filter(lhr.audits, IsFailed)|
    ensures s.audits.passed == |Filter(lhr.audits, IsPassed)|
    ensures s.audits.failed + s.audits.passed <= |lhr.audits|
  {
    ClassesPartition(lhr.audits);
    AuditSummary(
      mode,
      device,
      lhr.mainDocumentUrl,
      CategoryScores(lhr.categories),
      AuditCounts(|Filter(lhr.audits, IsFailed)|, |Filter(lhr.audits, IsPassed)|),
      Timing(lhr.timingTotal))
  }
}
