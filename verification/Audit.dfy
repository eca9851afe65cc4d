/** The persist-before-submit drill: its two passes over the journal, and what its verdict means. */
module Audit {
  import opened Sums
  import opened ExposureLedger
  import opened Records
  import Lawful
  import Runs

  datatype Reason = NO_SIGNED_RECORD | SIGNED_AFTER_SUBMIT | FEWER_SIGNATURES_THAN_SUBMITS

  datatype Violation = Violation(id: Id, submittedAt: nat, reason: Reason)

  /** Every submission of every attempt has a signature of its own before it. */
  ghost predicate PersistedFirst(j: seq<Record>) {
    forall n: nat, id: Id :: n <= |j| ==> SignedEnough(j, n, id)
  }

  ghost predicate SignedEnough(j: seq<Record>, n: nat, id: Id)
    requires n <= |j|
  {
    AttemptOf(j[..n], id).submits <= AttemptOf(j[..n], id).signs
  }

  /** What the drill reports about line i, a submission: the k-th submit needs k signatures before it. */
  ghost function ReportAt(j: seq<Record>, i: nat): Option<Violation>
    requires i < |j|
  {
    if !j[i].AttemptSubmitted? then None
    else
      var id := j[i].id;
      var before := AttemptOf(j[..i], id);
      if AttemptOf(j, id).signs == 0 then Some(Violation(id, i, NO_SIGNED_RECORD))
      else if before.signs == 0 then Some(Violation(id, i, SIGNED_AFTER_SUBMIT))
      else if before.signs < before.submits + 1 then Some(Violation(id, i, FEWER_SIGNATURES_THAN_SUBMITS))
      else None
  }

  ghost function Reports(j: seq<Record>, n: nat): seq<Violation>
    requires n <= |j|
  {
    if n == 0 then []
    else if ReportAt(j, n - 1).Some? then Reports(j, n - 1) + [ReportAt(j, n - 1).value]
    else Reports(j, n - 1)
  }

  ghost function Submissions(j: seq<Record>): nat {
    if j == [] then 0 else Submissions(j[..|j| - 1]) + if j[|j| - 1].AttemptSubmitted? then 1 else 0
  }

  // ---------------------------------------------------------------- the index of the first pass

  function Below(list: seq<nat>, i: nat): nat {
    if list == [] then 0 else Below(list[..|list| - 1], i) + if list[|list| - 1] < i then 1 else 0
  }

  /** `list` holds the positions of the SIGNED lines of an attempt in the first n lines. */
  ghost predicate Indexes(j: seq<Record>, n: nat, list: seq<nat>, id: Id)
    requires n <= |j|
  {
    && (forall k :: 0 <= k < |list| ==> list[k] < n)
    && |list| == AttemptOf(j[..n], id).signs
    && forall i: nat :: i <= n ==> Below(list, i) == AttemptOf(j[..i], id).signs
  }

  function Listed(index: map<Id, seq<nat>>, id: Id): seq<nat> {
    if id in index then index[id] else []
  }

  lemma BelowNext(list: seq<nat>, x: nat, i: nat)
    ensures Below(list + [x], i) == Below(list, i) + if x < i then 1 else 0
  {
    assert (list + [x])[..|list|] == list;
  }

  lemma {:induction false} BelowAll(list: seq<nat>, i: nat)
    requires forall k :: 0 <= k < |list| ==> list[k] < i
    ensures Below(list, i) == |list|
  {
    if list != [] {
      BelowAll(list[..|list| - 1], i);
    }
  }

  lemma IndexesNext(j: seq<Record>, n: nat, list: seq<nat>, id: Id)
    requires n < |j| && Indexes(j, n, list, id)
    ensures Indexes(j, n + 1, if j[n].AttemptSigned? && j[n].id == id then list + [n] else list, id)
  {
    var next := if j[n].AttemptSigned? && j[n].id == id then list + [n] else list;
    assert j[..n + 1] == j[..n] + [j[n]];
    AttemptNext(j[..n], j[n], id);
    forall i: nat | i <= n + 1 ensures Below(next, i) == AttemptOf(j[..i], id).signs {
      BelowNext(list, n, i);
      if i == n + 1 {
        BelowAll(list, n + 1);
      }
    }
  }

  ghost predicate AllIndexed(j: seq<Record>, n: nat, index: map<Id, seq<nat>>)
    requires n <= |j|
  {
    forall id: Id :: Indexes(j, n, Listed(index, id), id)
  }

  lemma AllIndexedNext(j: seq<Record>, n: nat, index: map<Id, seq<nat>>)
    requires n < |j| && AllIndexed(j, n, index)
    ensures AllIndexed(j, n + 1, if j[n].AttemptSigned? then index[j[n].id := Listed(index, j[n].id) + [n]] else index)
  {
    var next := if j[n].AttemptSigned? then index[j[n].id := Listed(index, j[n].id) + [n]] else index;
    forall id: Id ensures Indexes(j, n + 1, Listed(next, id), id) {
      IndexesNext(j, n, Listed(index, id), id);
    }
  }

  /** The first pass: every SIGNED position, by attempt. */
  method IndexSigned(j: seq<Record>) returns (index: map<Id, seq<nat>>)
    ensures AllIndexed(j, |j|, index)
  {
    index := map[];
    for n := 0 to |j|
      invariant AllIndexed(j, n, index)
    {
      AllIndexedNext(j, n, index);
      if j[n].AttemptSigned? {
        index := index[j[n].id := Listed(index, j[n].id) + [n]];
      }
    }
  }

  /** No violation exactly when every submission was persisted first. */
  method Drill(j: seq<Record>) returns (violations: seq<Violation>, audited: nat)
    ensures violations == Reports(j, |j|) && audited == Submissions(j)
    ensures violations == [] <==> PersistedFirst(j)
  {
    var index := IndexSigned(j);
    var count: map<Id, nat> := map[];
    violations, audited := [], 0;
    for n := 0 to |j|
      invariant Counts(j[..n], count)
      invariant violations == Reports(j, n) && audited == Submissions(j[..n])
    {
      CountNext(j, n, count);
      assert j[..n + 1][..n] == j[..n];
      if j[n].AttemptSubmitted? {
        audited := audited + 1;
        var id := j[n].id;
        var nth := (if id in count then count[id] else 0) + 1;
        count := count[id := nth];
        var signs := Listed(index, id);
        var before := Below(signs, n);
        assert Indexes(j, |j|, signs, id) && j[..|j|] == j;
        if |signs| == 0 {
          violations := violations + [Violation(id, n, NO_SIGNED_RECORD)];
        } else if before == 0 {
          violations := violations + [Violation(id, n, SIGNED_AFTER_SUBMIT)];
        } else if before < nth {
          violations := violations + [Violation(id, n, FEWER_SIGNATURES_THAN_SUBMITS)];
        }
      }
    }
    assert j[..|j|] == j;
    CleanMeansPersisted(j);
  }

  ghost predicate Counts(j: seq<Record>, count: map<Id, nat>) {
    forall id: Id :: (if id in count then count[id] else 0) == AttemptOf(j, id).submits
  }

  lemma CountNext(j: seq<Record>, n: nat, count: map<Id, nat>)
    requires n < |j| && Counts(j[..n], count)
    ensures Counts(j[..n + 1], if j[n].AttemptSubmitted? then count[j[n].id := (if j[n].id in count then count[j[n].id] else 0) + 1] else count)
  {
    var after := if j[n].AttemptSubmitted? then count[j[n].id := (if j[n].id in count then count[j[n].id] else 0) + 1] else count;
    assert j[..n + 1] == j[..n] + [j[n]];
    forall id: Id ensures (if id in after then after[id] else 0) == AttemptOf(j[..n + 1], id).submits {
      AttemptNext(j[..n], j[n], id);
    }
  }

  // ---------------------------------------------------------------- the verdict

  lemma {:induction false} NoReports(j: seq<Record>, n: nat)
    requires n <= |j|
    ensures Reports(j, n) == [] <==> forall i: nat :: i < n ==> ReportAt(j, i).None?
  {
    if n > 0 {
      NoReports(j, n - 1);
    }
  }

  lemma {:induction false} SignsGrow(j: seq<Record>, n: nat, id: Id)
    requires n <= |j|
    ensures AttemptOf(j[..n], id).signs <= AttemptOf(j, id).signs
    decreases |j|
  {
    if n == |j| {
      assert j[..n] == j;
    } else {
      SignsGrow(j[..|j| - 1], n, id);
      assert j[..|j| - 1][..n] == j[..n];
    }
  }

  lemma {:induction false} CleanPrefix(j: seq<Record>, n: nat, id: Id)
    requires n <= |j| && forall i: nat :: i < n ==> ReportAt(j, i).None?
    ensures SignedEnough(j, n, id)
  {
    if n > 0 {
      CleanPrefix(j, n - 1, id);
      assert j[..n] == j[..n - 1] + [j[n - 1]];
      AttemptNext(j[..n - 1], j[n - 1], id);
      assert ReportAt(j, n - 1).None?;
    } else {
      assert j[..0] == [];
    }
  }

  lemma PersistedNotReported(j: seq<Record>, i: nat)
    requires i < |j| && j[i].AttemptSubmitted? && SignedEnough(j, i + 1, j[i].id)
    ensures ReportAt(j, i).None?
  {
    assert j[..i + 1] == j[..i] + [j[i]];
    AttemptNext(j[..i], j[i], j[i].id);
    SignsGrow(j, i, j[i].id);
  }

  lemma CleanMeansPersisted(j: seq<Record>)
    ensures Reports(j, |j|) == [] <==> PersistedFirst(j)
  {
    NoReports(j, |j|);
    if Reports(j, |j|) == [] {
      forall n: nat, id: Id | n <= |j| ensures SignedEnough(j, n, id) {
        CleanPrefix(j, n, id);
      }
    } else if PersistedFirst(j) {
      forall i: nat | i < |j| ensures ReportAt(j, i).None? {
        if j[i].AttemptSubmitted? {
          PersistedNotReported(j, i);
        }
      }
    }
  }

  /** Every pipeline run writes a journal the drill finds clean. */
  lemma EveryRunIsClean(s: Runs.Setup, run: seq<Runs.World>, steps: seq<Runs.Step>, m: nat)
    requires Runs.Run(s, run, steps) && m < |run|
    ensures PersistedFirst(run[m].core.journal) && Reports(run[m].core.journal, |run[m].core.journal|) == []
  {
    var j := run[m].core.journal;
    Lawful.EveryJournalIsLawful(s, run, steps, m);
    forall n: nat, id: Id | n <= |j| ensures SignedEnough(j, n, id) {
      Lawful.LawfulPrefix(s, j, n);
      Lawful.SubmissionsNeverOutrunSignatures(s, j[..n], id);
    }
    CleanMeansPersisted(j);
  }
}
