/** The bookkeeping shared by `createBulkShortUrls`
    (src/ElnkProShortener.js:129-175) and `bulkDeleteLinks`
    (src/ElnkProShortener.js:776-808): every input entry is skipped, pushed
    onto `results` or pushed onto `errors`, and the report counts both
    lists against the input length. */
module Bulk {

  /** What happened to one input entry. */
  datatype Entry<S, F> = Skipped | Passed(item: S) | Rejected(problem: F)

  /** The `results` list after the entries es, in input order. */
  function Successes<S, F>(es: seq<Entry<S, F>>): (r: seq<S>)
    ensures |r| <= |es|
  {
    if es == [] then []
    else
      var last := es[|es| - 1];
      Successes(es[..|es| - 1]) + (if last.Passed? then [last.item] else [])
  }

  /** The `errors` list after the entries es, in input order. */
  function Failures<S, F>(es: seq<Entry<S, F>>): (r: seq<F>)
    ensures |r| <= |es|
  {
    if es == [] then []
    else
      var last := es[|es| - 1];
      Failures(es[..|es| - 1]) + (if last.Rejected? then [last.problem] else [])
  }

  /** Handling one more entry appends at most one item to one of the lists. */
  lemma Snoc<S, F>(es: seq<Entry<S, F>>, e: Entry<S, F>)
    ensures Successes(es + [e]) == Successes(es) + (if e.Passed? then [e.item] else [])
    ensures Failures(es + [e]) == Failures(es) + (if e.Rejected? then [e.problem] else [])
  {
    assert (es + [e])[..|es|] == es;
  }

  function SkippedCount<S, F>(es: seq<Entry<S, F>>): nat {
    if es == [] then 0
    else SkippedCount(es[..|es| - 1]) + (if es[|es| - 1].Skipped? then 1 else 0)
  }

  /** Every entry is counted exactly once. */
  lemma {:induction false} PartitionCount<S, F>(es: seq<Entry<S, F>>)
    ensures |Successes(es)| + |Failures(es)| + SkippedCount(es) == |es|
  {
    if es != [] {
      PartitionCount(es[..|es| - 1]);
    }
  }

  /** Without skipped entries, the two lists share out the whole input. */
  lemma {:induction false} NoneSkipped<S, F>(es: seq<Entry<S, F>>)
    requires forall k :: 0 <= k < |es| ==> !es[k].Skipped?
    ensures SkippedCount(es) == 0
    ensures |Successes(es)| + |Failures(es)| == |es|
  {
    if es != [] {
      NoneSkipped(es[..|es| - 1]);
    }
    PartitionCount(es);
  }

  /** The failures are empty exactly when no entry was rejected. */
  lemma {:induction false} NoFailures<S, F>(es: seq<Entry<S, F>>)
    ensures Failures(es) == [] <==> forall k :: 0 <= k < |es| ==> !es[k].Rejected?
  {
    if es != [] {
      NoFailures(es[..|es| - 1]);
      var init := es[..|es| - 1];
      assert forall k :: 0 <= k < |init| ==> init[k] == es[k];
    }
  }

  /** An entry that passed contributes its item, at the position given by the
      passes before it. */
  lemma {:induction false} SuccessPosition<S, F>(es: seq<Entry<S, F>>, k: nat)
    requires k < |es| && es[k].Passed?
    ensures var before := Successes(es[..k]);
      |before| < |Successes(es)| && Successes(es)[|before|] == es[k].item
  {
    if k < |es| - 1 {
      var init := es[..|es| - 1];
      assert init[..k] == es[..k];
      SuccessPosition(init, k);
    } else {
      assert es[..k] == es[..|es| - 1];
    }
  }

  /** The object a bulk operation resolves to. */
  datatype Report<S, F> = Report(success: bool, successful: seq<S>, failed: seq<F>,
                                 total: nat, successCount: nat, errorCount: nat)

  /** The report for the entries es of an input of `total` entries. */
  function Summarize<S, F>(es: seq<Entry<S, F>>, total: nat): (r: Report<S, F>)
    requires |es| == total
    ensures r.successful == Successes(es) && r.failed == Failures(es)
    ensures r.successCount == |r.successful| && r.errorCount == |r.failed|
    ensures r.successCount + r.errorCount <= r.total == total
    ensures r.success <==> r.errorCount == 0
  {
    PartitionCount(es);
    var results := Successes(es);
    var errors := Failures(es);
    Report(|errors| == 0, results, errors, total, |results|, |errors|)
  }
}
