/** What every journal the executor can write says, line against line. */
module JournalFacts {
  import opened Sums
  import opened ExposureLedger
  import opened Records
  import opened Intents
  import opened Protocol
  import opened Runs
  import opened Invariants
  import opened Steps
  import opened Lawful

  // ---------------------------------------------------------------- lines and what is counted of them

  predicate Reserves(r: Record, id: Id) {
    r.ExposureUpdated? && r.event.EntryAuthorized? && r.event.intentId == id
  }

  predicate Releases(r: Record, id: Id) {
    r == ExposureUpdated(EntryReleased(id))
  }

  /** A line is counted from where it stands. */
  lemma {:induction false} LineCounts(j: seq<Record>, i: nat, id: Id)
    requires i < |j|
    ensures Reserves(j[i], id) ==> AttemptOf(j, id).reservations > 0
    ensures Releases(j[i], id) ==> AttemptOf(j, id).releases > 0
    ensures j[i].AttemptSigned? && j[i].id == id ==> AttemptOf(j, id).signs > 0
    ensures j[i].AttemptSubmitted? && j[i].id == id ==> AttemptOf(j, id).submits > 0
    ensures j[i].AttemptResult? && j[i].id == id ==> AttemptOf(j, id).results > 0
    ensures Subject(j[i]) == Some(id) ==> AttemptOf(j, id) != NO_ATTEMPT || j[i].ExposureUpdated?
    decreases |j|
  {
    hide NO_ATTEMPT;
    if i < |j| - 1 {
      LineCounts(j[..|j| - 1], i, id);
    }
    Changed(j, id);
  }

  lemma Changed(j: seq<Record>, id: Id)
    requires j != []
    ensures var a, b := AttemptOf(j[..|j| - 1], id), AttemptOf(j, id);
            && (a != NO_ATTEMPT ==> b != NO_ATTEMPT)
            && (Subject(j[|j| - 1]) == Some(id) ==> b == Observe(a, j[|j| - 1]))
            && (Subject(j[|j| - 1]) == Some(id) && !j[|j| - 1].ExposureUpdated? ==> b != NO_ATTEMPT)
  {
  }

  /** What is counted stands somewhere. */
  lemma {:induction false} ReservationLine(j: seq<Record>, id: Id) returns (k: nat)
    requires AttemptOf(j, id).reservations > 0
    ensures k < |j| && Reserves(j[k], id)
  {
    if Reserves(j[|j| - 1], id) {
      k := |j| - 1;
    } else {
      k := ReservationLine(j[..|j| - 1], id);
    }
  }

  /** The latest of the attempt's SIGNED, SUBMITTED and RESULT lines is no RESULT: exactly then a restart must reconcile it. */
  lemma {:induction false} UnresolvedExactly(j: seq<Record>, id: Id)
    ensures id in UnresolvedIds(j) <==> exists i :: 0 <= i < |j| && Awaits(j, i, id)
    decreases |j|
  {
    UnresolvedIdsMembers(j, id);
    if j != [] {
      var k, r := j[..|j| - 1], j[|j| - 1];
      UnresolvedExactly(k, id);
      UnresolvedIdsMembers(k, id);
      if (r.AttemptSigned? || r.AttemptSubmitted?) && r.id == id {
        assert Awaits(j, |k|, id);
      } else if r.AttemptResult? && r.id == id {
        forall i | 0 <= i < |j| ensures !Awaits(j, i, id) {
          assert i < |k| ==> j[|k|] == r;
        }
      } else {
        forall i | 0 <= i < |j| ensures Awaits(j, i, id) <==> i < |k| && Awaits(k, i, id) {
          AwaitsKept(j, i, id);
        }
      }
    }
  }

  /** A SIGNED or SUBMITTED line of the attempt with no RESULT of it afterwards. */
  predicate Awaits(j: seq<Record>, i: int, id: Id) {
    0 <= i < |j| && (j[i].AttemptSigned? || j[i].AttemptSubmitted?) && j[i].id == id
    && forall m :: i < m < |j| ==> !(j[m].AttemptResult? && j[m].id == id)
  }

  lemma AwaitsKept(j: seq<Record>, i: nat, id: Id)
    requires i < |j| && !((j[|j| - 1].AttemptSigned? || j[|j| - 1].AttemptSubmitted? || j[|j| - 1].AttemptResult?) && j[|j| - 1].id == id)
    ensures Awaits(j, i, id) <==> i < |j| - 1 && Awaits(j[..|j| - 1], i, id)
  {
    var k := j[..|j| - 1];
    if i < |k| && Awaits(k, i, id) {
      forall m | i < m < |j| ensures !(j[m].AttemptResult? && j[m].id == id) {
        assert m < |k| ==> j[m] == k[m];
      }
    }
  }

  /** A nonce is spent exactly when a SIGNED or a SUBMITTED line carries it. */
  lemma SpentExactly(j: seq<Record>, n: Nonce)
    ensures n in UsedNonces(j) <==>
              || (exists i :: 0 <= i < |j| && j[i].AttemptSigned? && j[i].nonce == n)
              || (exists i :: 0 <= i < |j| && j[i].AttemptSubmitted? && j[i].nonce == n)
  {
    if n in UsedNonces(j) {
      var r :| r in j && (r.AttemptSigned? || r.AttemptSubmitted?) && r.nonce == n;
      var i :| 0 <= i < |j| && j[i] == r;
      assert j[i].nonce == n;
    }
  }

  // ---------------------------------------------------------------- reservations and signatures

  /** Before an entry is signed, one line reserves it, for its output mint, its whole authorised input and its
      protection; no other line reserves it and none releases it. */
  lemma ReservedOnceBeforeSigned(s: Setup, run: seq<World>, steps: seq<Step>, n: nat, i: nat) returns (k: nat)
    requires Run(s, run, steps) && n < |run| && i < |run[n].core.journal| && run[n].core.journal[i].AttemptSigned?
    requires !s.cat(run[n].core.journal[i].id).emergency
    ensures var j := run[n].core.journal; var id := j[i].id; var it := s.cat(id);
            && k < i && j[k] == ExposureUpdated(EntryAuthorized(id, it.outputMint, it.maxInput, it.protection))
            && (forall m :: 0 <= m < i && m != k ==> !Reserves(j[m], id))
            && (forall m :: 0 <= m < i ==> !Releases(j[m], id))
            && j[i].key == it.key && j[i].nonce == it.nonce && j[i].sig.Some?
  {
    var j := run[n].core.journal;
    var id := j[i].id;
    EveryJournalIsLawful(s, run, steps, n);
    LawfulAt(s, j, i);
    k := ReservationLine(j[..i], id);
    assert j[..i][k] == j[k];
    LawfulAt(s, j, k);
    forall m | 0 <= m < i ensures !Releases(j[m], id) && (m != k ==> !Reserves(j[m], id)) {
      LineCounts(j[..i], m, id);
      assert j[..i][m] == j[m];
      if m < k {
        LineCounts(j[..k], m, id);
        assert j[..k][m] == j[m];
      } else if m > k {
        LawfulAt(s, j, m);
        LineCounts(j[..m], k, id);
        assert j[..m][k] == j[k];
      }
    }
  }

  /** The authorization's nonce is spent from the moment the entry is signed. */
  lemma SignedSpendsNonce(s: Setup, run: seq<World>, steps: seq<Step>, n: nat, i: nat)
    requires Run(s, run, steps) && n < |run| && i < |run[n].core.journal|
    requires run[n].core.journal[i].AttemptSigned? || run[n].core.journal[i].AttemptSubmitted?
    ensures s.cat(run[n].core.journal[i].id).nonce in UsedNonces(run[n].core.journal)
  {
    var j := run[n].core.journal;
    EveryJournalIsLawful(s, run, steps, n);
    LawfulAt(s, j, i);
    SpentExactly(j, s.cat(j[i].id).nonce);
  }

  // ---------------------------------------------------------------- once per key

  /** Lines of which a key has at most one. */
  predicate SameKind(a: Record, b: Record) {
    || (a.AttemptSubmitted? && b.AttemptSubmitted?) || (a.AttemptResult? && b.AttemptResult?)
    || (Reserves(a, SubjectOf(a)) && Reserves(b, SubjectOf(b)))
    || (a.AttemptPrepared? && b.AttemptPrepared? && !a.emergency && !b.emergency)
  }

  function SubjectOf(r: Record): Id {
    if Subject(r).Some? then Subject(r).value else 0
  }

  /** No two lines of a journal reserve, submit, conclude or, for entries, prepare or sign under one key, whatever is
      redelivered, concurrently or after restarts. */
  lemma NoSecondLine(s: Setup, run: seq<World>, steps: seq<Step>, n: nat, i: nat, k: nat)
    requires Run(s, run, steps) && n < |run| && i < k < |run[n].core.journal|
    requires var a, b := run[n].core.journal[i], run[n].core.journal[k];
             SameKind(a, b) || (a.AttemptSigned? && b.AttemptSigned? && !s.cat(a.id).emergency && !s.cat(b.id).emergency)
    ensures s.cat(SubjectOf(run[n].core.journal[i])).key != s.cat(SubjectOf(run[n].core.journal[k])).key
  {
    hide Next;
    var j := run[n].core.journal;
    var x, y := SubjectOf(j[i]), SubjectOf(j[k]);
    EveryJournalIsLawful(s, run, steps, n);
    LawfulAt(s, j, k);
    assert j[..k][i] == j[i];
    LineCounts(j[..k], i, x);
    LineCounts(j, i, x);
    LineCounts(j, k, y);
    if s.cat(x).key == s.cat(y).key {
      OncePerKey(s, run, steps, n, x, y);
      ReservedIsAttempt(j, x);
      ReservedIsAttempt(j, y);
    }
  }

  lemma ReservedIsAttempt(j: seq<Record>, id: Id)
    ensures AttemptOf(j, id).reservations > 0 ==> AttemptOf(j, id) != NO_ATTEMPT
  {
  }

  // ---------------------------------------------------------------- pauses and doubts

  lemma {:induction false} ClearedSince(j: seq<Record>, k: nat) returns (m: nat)
    requires k < |j| && j[k].PauseApplied? && LastPause(j) == Inactive
    ensures k < m < |j| && j[m].PauseCleared?
    decreases |j|
  {
    if j[|j| - 1].PauseCleared? {
      m := |j| - 1;
    } else {
      m := ClearedSince(j[..|j| - 1], k);
    }
  }

  /** Between a PAUSE_APPLIED and a later submission of an attempt that does not reduce risk, there is a PAUSE_CLEARED. */
  lemma ClearedBeforeSubmission(s: Setup, run: seq<World>, steps: seq<Step>, n: nat, k: nat, i: nat) returns (m: nat)
    requires Run(s, run, steps) && n < |run| && k < i < |run[n].core.journal|
    requires run[n].core.journal[k].PauseApplied? && run[n].core.journal[i].AttemptSubmitted? && s.cat(run[n].core.journal[i].id).effect != Reduce
    ensures k < m < i && run[n].core.journal[m].PauseCleared?
  {
    NoSubmissionWhilePaused(s, run, steps, n, i);
    m := ClearedSince(run[n].core.journal[..i], k);
  }

  lemma {:induction false} DoubtedSince(j: seq<Record>, k: nat, id: Id) returns (m: nat)
    requires k < |j| && j[k].AttemptObserved? && j[k].id == id && !AttemptOf(j, id).seen.SeenConfirmed?
    ensures k < m < |j| && j[m].AttemptReorgPending? && j[m].id == id
    decreases |j|
  {
    if j[|j| - 1].AttemptReorgPending? && j[|j| - 1].id == id {
      m := |j| - 1;
    } else {
      m := DoubtedSince(j[..|j| - 1], k, id);
    }
  }

  /** Between an attempt's confirmation and a NOT_LANDED the tracker writes for it, there is a REORG_PENDING of it. */
  lemma DoubtedBeforeBuried(s: Setup, run: seq<World>, steps: seq<Step>, n: nat, k: nat, i: nat) returns (m: nat)
    requires Run(s, run, steps) && n < |run| && k < i < |run[n].core.journal|
    requires var j := run[n].core.journal;
             j[k].AttemptObserved? && j[i].AttemptResult? && j[i].author == Tracked && j[i].state == NOT_LANDED && j[i].id == j[k].id
    ensures k < m < i && run[n].core.journal[m].AttemptReorgPending? && run[n].core.journal[m].id == run[n].core.journal[k].id
  {
    TrackerDoubtsFirst(s, run, steps, n, i);
    m := DoubtedSince(run[n].core.journal[..i], k, run[n].core.journal[k].id);
  }

  // ---------------------------------------------------------------- shadows

  lemma {:induction false} ShadowBounds(s: Setup, j: seq<Record>, k: nat)
    requires Lawful.Lawful(s, j) && k < |j| && j[k].ShadowSynced?
    ensures LastShadow(j).Some? && j[k].shadowSequence <= LastShadow(j).value
    decreases |j|
  {
    if k < |j| - 1 {
      ShadowBounds(s, j[..|j| - 1], k);
    }
  }

  /** Of two journaled shadow sequences the later is the larger. */
  lemma ShadowsAscend(s: Setup, run: seq<World>, steps: seq<Step>, n: nat, k: nat, i: nat)
    requires Run(s, run, steps) && n < |run| && k < i < |run[n].core.journal|
    requires run[n].core.journal[k].ShadowSynced? && run[n].core.journal[i].ShadowSynced?
    ensures run[n].core.journal[k].shadowSequence < run[n].core.journal[i].shadowSequence
  {
    var j := run[n].core.journal;
    EveryJournalIsLawful(s, run, steps, n);
    LawfulAt(s, j, i);
    LawfulPrefix(s, j, i);
    ShadowBounds(s, j[..i], k);
  }
}
