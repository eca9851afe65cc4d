/** What every journal the executor can write looks like, line by line. */
module Lawful {
  import opened Sums
  import opened ExposureLedger
  import opened Records
  import opened Intents
  import opened Protocol
  import opened Caps
  import opened Authority
  import opened Runs
  import opened Invariants
  import opened Preservation
  import opened Steps
  import Recovery

  /** When a line may follow a journal. */
  ghost predicate MayFollow(s: Setup, j: seq<Record>, r: Record) {
    match r
    case AttemptPrepared(id, _, _, emergency, _, _, _, _) =>
      && r == Prepared(id, s.cat(id))
      && (!emergency ==> AttemptOf(j, id) == NO_ATTEMPT)
    case AttemptSigned(id, key, nonce, sig, _) =>
      && key == s.cat(id).key && nonce == s.cat(id).nonce && sig.Some?
      && (!s.cat(id).emergency ==> AttemptOf(j, id).reservations == 1 && AttemptOf(j, id).releases == 0 && AttemptOf(j, id).signs == 0)
    case AttemptSubmitted(id, key, nonce, sig) =>
      && key == s.cat(id).key && nonce == s.cat(id).nonce && sig.Some?
      && AttemptOf(j, id).submits == 0 && AttemptOf(j, id).signs > 0
      && (s.cat(id).effect != Reduce ==> LastPause(j) == Inactive)
    case AttemptResult(id, key, state, _, author) =>
      && key == s.cat(id).key
      && AttemptOf(j, id).results == 0
      && (author == Tracked && state == NOT_LANDED ==> !AttemptOf(j, id).seen.SeenConfirmed?)
    case ExposureUpdated(EntryAuthorized(id, mint, notional, protection)) =>
      && mint == TradedMint(s.cat(id)) && notional == s.cat(id).maxInput && protection == s.cat(id).protection
      && !s.cat(id).emergency && AttemptOf(j, id).reservations == 0 && AttemptOf(j, id).signs == 0
    case ShadowSynced(n) => LastShadow(j).Some? ==> n > LastShadow(j).value
    case _ => true
  }

  ghost predicate Lawful(s: Setup, j: seq<Record>) {
    j == [] || (Lawful(s, j[..|j| - 1]) && MayFollow(s, j[..|j| - 1], j[|j| - 1]))
  }

  lemma LawfulNext(s: Setup, j: seq<Record>, r: Record)
    requires Lawful(s, j) && MayFollow(s, j, r)
    ensures Lawful(s, j + [r])
  {
    assert (j + [r])[..|j|] == j;
  }

  lemma {:induction false} LawfulAt(s: Setup, j: seq<Record>, i: nat)
    requires Lawful(s, j) && i < |j|
    ensures MayFollow(s, j[..i], j[i])
    decreases |j|
  {
    if i < |j| - 1 {
      LawfulAt(s, j[..|j| - 1], i);
      assert j[..|j| - 1][..i] == j[..i];
    }
  }

  // ---------------------------------------------------------------- one step

  /** The journal stays or grows by one permitted line. */
  ghost predicate Grows(s: Setup, w: World, v: World) {
    v.core.journal == w.core.journal
    || (exists r :: v.core.journal == w.core.journal + [r] && MayFollow(s, w.core.journal, r))
  }

  function Appended(c: Core, out: Out): Record
    requires out.Halt? ==> c.pause.Inactive?
  {
    match out
    case Ledger(e) => ExposureUpdated(e)
    case Line(r, _) => r
    case Halt(reason) => PauseApplied(reason)
  }

  lemma EmitGrows(s: Setup, w: World, id: Id, out: Out, phase: Option<Phase>, v: World)
    requires Emits(s, w, id, out, phase, v)
    requires out.Halt? || MayFollow(s, w.core.journal, Appended(w.core, out))
    ensures Grows(s, w, v)
  {
    if !(out.Halt? && w.core.pause.Active?) {
      assert v.core.journal == w.core.journal + [Appended(w.core, out)];
      assert MayFollow(s, w.core.journal, Appended(w.core, out));
    }
  }

  lemma AdmitGrows(s: Setup, w: World, id: Id, v: World)
    requires Sound(s, w) && Next(s, w, Step.Admit(id), v)
    ensures Grows(s, w, v)
  {
    hide Sound;
    var it := s.cat(id);
    WorkingSound(s, w, id);
    if !Admitted(s.g, w.core.open, it, None) {
      var out := Result(id, it.key, PREPARED, FAILED, Live, To(FAILED));
      Recovery.EmitOne(w.core, it.key, out);
      EmitGrows(s, w, id, out, None, v);
    } else if id !in w.core.open {
      var out := Ledger(Reservation(id, it));
      Recovery.EmitOne(w.core, it.key, out);
      assert v.core.journal == w.core.journal + [ExposureUpdated(Reservation(id, it))];
      assert MayFollow(s, w.core.journal, ExposureUpdated(Reservation(id, it)));
    }
  }

  lemma ClaimGrows(s: Setup, w: World, step: Step, v: World)
    requires Sound(s, w) && Next(s, w, step, v) && (step.Deliver? || step.EmergencyClose?)
    ensures Grows(s, w, v)
  {
    hide Sound;
    if s.cat(step.id).key !in w.core.registry {
      Unclaimed(s, w, step.id);
      assert v.core.journal == w.core.journal + [Prepared(step.id, s.cat(step.id))];
      assert MayFollow(s, w.core.journal, Prepared(step.id, s.cat(step.id)));
    }
  }

  lemma FallbackGrows(s: Setup, w: World, id: Id, v: World)
    requires Next(s, w, Step.Fallback(id), v)
    ensures Grows(s, w, v)
  {
    assert MayFollow(s, w.core.journal, Prepared(id, s.cat(id)));
  }

  lemma SignGrows(s: Setup, w: World, id: Id, sig: Sig, lastValid: Option<nat>, v: World)
    requires Sound(s, w) && Next(s, w, Step.Sign(id, sig, lastValid), v)
    ensures Grows(s, w, v)
  {
    hide Sound;
    WorkingSound(s, w, id);
    EmitGrows(s, w, id, SignedOut(id, s.cat(id), sig, lastValid), Some(Phase.Signed(sig)), v);
  }

  lemma GateGrows(s: Setup, w: World, id: Id, facts: ModeFacts, v: World)
    requires Sound(s, w) && Next(s, w, Step.PassGate(id, facts), v)
    ensures Grows(s, w, v)
  {
    hide Attempts;
    hide Txs;
    WorkingSound(s, w, id);
    var sig := At(w, id).value.sig;
    if ModeGate(facts.(localPause := facts.localPause || w.core.pause.Active?), s.cat(id).effect).Open? {
      EmitGrows(s, w, id, SubmittedOut(id, s.cat(id), sig), Some(Sending(sig)), v);
    }
  }

  lemma AgendaMayFollow(s: Setup, j: seq<Record>, id: Id, l: Local, outs: seq<Out>, c: Core)
    requires Sane(s.cat(id), id, l) && l.att == AttemptOf(j, id) && l.att != NO_ATTEMPT && l.phase == Some(Finishing(outs))
    ensures outs != [] && (outs[0].Halt? || MayFollow(s, j, if outs[0].Ledger? then ExposureUpdated(outs[0].event) else outs[0].rec))
  {
  }

  lemma ProceedGrows(s: Setup, w: World, id: Id, v: World)
    requires Sound(s, w) && Next(s, w, Step.Proceed(id), v)
    ensures Grows(s, w, v)
  {
    hide Sound;
    hide Sane;
    WorkingSound(s, w, id);
    var outs := At(w, id).value.outs;
    AgendaMayFollow(s, w.core.journal, id, LocalOf(s, w, id), outs, w.core);
    if CanEmit(w.core, outs[0]) {
      EmitGrows(s, w, id, outs[0], PhaseFor(outs[1..]), v);
    }
  }

  lemma NoteGrows(s: Setup, w: World, step: Step, v: World)
    requires Next(s, w, step, v) && (step.TickCustody? || step.Note? || step.SyncShadow?)
    ensures Grows(s, w, v)
  {
    if v.core.journal != w.core.journal {
      var r := v.core.journal[|w.core.journal|];
      assert v.core.journal == w.core.journal + [r] && MayFollow(s, w.core.journal, r);
    }
  }

  lemma PauseGrows(s: Setup, w: World, step: Step, v: World)
    requires Next(s, w, step, v) && (step.TickRelease? || step.OperatorClear? || step.EmergencyPause?)
    ensures Grows(s, w, v)
  {
    if v.core.journal != w.core.journal {
      var r := v.core.journal[|w.core.journal|];
      assert v.core.journal == w.core.journal + [r] && MayFollow(s, w.core.journal, r);
    }
  }

  lemma StillGrows(s: Setup, w: World, step: Step, v: World)
    requires Next(s, w, step, v)
    requires step.Send? || step.Settle? || step.Throw? || step.Crash? || step.RecoverOne? || step.RecoverEnd? || step.TickStart? || step.TickVisit?
             || step.TickEnd? || step.Advance? || step.Land? || step.Promote? || step.Reorg?
    ensures v.core.journal == w.core.journal
  {
  }

  lemma StepGrows(s: Setup, w: World, step: Step, v: World)
    requires Sound(s, w) && Next(s, w, step, v)
    ensures Grows(s, w, v)
  {
    hide Next;
    hide Sound;
    if step.Admit? {
      AdmitGrows(s, w, step.id, v);
    } else if step.Deliver? || step.EmergencyClose? {
      ClaimGrows(s, w, step, v);
    } else if step.Fallback? {
      FallbackGrows(s, w, step.id, v);
    } else if step.Sign? {
      SignGrows(s, w, step.id, step.sig, step.lastValid, v);
    } else if step.PassGate? {
      GateGrows(s, w, step.id, step.facts, v);
    } else if step.Proceed? {
      ProceedGrows(s, w, step.id, v);
    } else if step.TickCustody? || step.Note? || step.SyncShadow? {
      NoteGrows(s, w, step, v);
    } else if step.TickRelease? || step.OperatorClear? || step.EmergencyPause? {
      PauseGrows(s, w, step, v);
    } else {
      StillGrows(s, w, step, v);
    }
  }

  // ---------------------------------------------------------------- runs

  /** Every reachable journal is lawful, and only ever grows. */
  lemma {:induction false} EveryJournalIsLawful(s: Setup, run: seq<World>, steps: seq<Step>, n: nat)
    requires Run(s, run, steps) && n < |run|
    ensures Lawful(s, run[n].core.journal)
    ensures n > 0 ==> run[n - 1].core.journal <= run[n].core.journal
  {
    hide Sound;
    hide Next;
    hide MayFollow;
    hide Listed;
    hide AttemptOf;
    if n > 0 {
      EveryJournalIsLawful(s, run, steps, n - 1);
      RunSound(s, run, steps, n - 1);
      StepGrows(s, run[n - 1], steps[n - 1], run[n]);
      var w, v := run[n - 1], run[n];
      if v.core.journal != w.core.journal {
        var r :| v.core.journal == w.core.journal + [r] && MayFollow(s, w.core.journal, r);
        LawfulNext(s, w.core.journal, r);
      }
    }
  }

  /** At every prefix an attempt has signed at least as often as it submitted. */
  lemma {:induction false} SubmissionsNeverOutrunSignatures(s: Setup, j: seq<Record>, id: Id)
    requires Lawful(s, j)
    ensures AttemptOf(j, id).submits <= AttemptOf(j, id).signs && AttemptOf(j, id).submits <= 1
    ensures AttemptOf(j, id).results <= 1
    ensures !s.cat(id).emergency ==> AttemptOf(j, id).signs <= 1
  {
    if j != [] {
      SubmissionsNeverOutrunSignatures(s, j[..|j| - 1], id);
    }
  }

  /** A prefix of a lawful journal is lawful. */
  lemma {:induction false} LawfulPrefix(s: Setup, j: seq<Record>, n: nat)
    requires Lawful(s, j) && n <= |j|
    ensures Lawful(s, j[..n])
    decreases |j|
  {
    if n == |j| {
      assert j[..n] == j;
    } else {
      LawfulPrefix(s, j[..|j| - 1], n);
      assert j[..|j| - 1][..n] == j[..n];
    }
  }

  /** An entry is reserved, once, before its transaction is signed, and nothing of it was released by then. */
  lemma ReservedBeforeSigned(s: Setup, run: seq<World>, steps: seq<Step>, n: nat, i: nat)
    requires Run(s, run, steps) && n < |run| && i < |run[n].core.journal| && run[n].core.journal[i].AttemptSigned?
    requires !s.cat(run[n].core.journal[i].id).emergency
    ensures var a := AttemptOf(run[n].core.journal[..i], run[n].core.journal[i].id);
            a.reservations == 1 && a.releases == 0 && a.signs == 0 && a.submits == 0
  {
    var j := run[n].core.journal;
    EveryJournalIsLawful(s, run, steps, n);
    LawfulAt(s, j, i);
    LawfulPrefix(s, j, i);
    SubmissionsNeverOutrunSignatures(s, j[..i], j[i].id);
  }

  /** No line between a PAUSE_APPLIED and the next PAUSE_CLEARED submits an attempt that does not reduce risk. */
  lemma NoSubmissionWhilePaused(s: Setup, run: seq<World>, steps: seq<Step>, n: nat, i: nat)
    requires Run(s, run, steps) && n < |run| && i < |run[n].core.journal| && run[n].core.journal[i].AttemptSubmitted?
    requires s.cat(run[n].core.journal[i].id).effect != Reduce
    ensures LastPause(run[n].core.journal[..i]) == Inactive
  {
    EveryJournalIsLawful(s, run, steps, n);
    LawfulAt(s, run[n].core.journal, i);
  }

  /** The gate read just before sending appends SUBMITTED exactly when it is open: for an attempt that does not reduce
      risk no pause, local or global, an activity that enters, a live authority, and the capability. */
  lemma SubmittedExactly(s: Setup, run: seq<World>, steps: seq<Step>, n: nat)
    requires Run(s, run, steps) && n < |steps| && steps[n].PassGate?
    ensures var id := steps[n].id; var f := steps[n].facts;
            run[n + 1].core.journal != run[n].core.journal <==>
              || s.cat(id).effect == Reduce
              || (!f.localPause && run[n].core.pause.Inactive? && !f.paused && (f.activity == ActiveNow || f.activity == EventWindow)
                  && (f.authority == LiveApproval || f.authority == LiveAuto) && f.liveEnabled)
    ensures run[n + 1].core.journal != run[n].core.journal ==>
              exists sig: Sig :: run[n + 1].core.journal == run[n].core.journal + [SubmittedBy(steps[n].id, s.cat(steps[n].id), sig)]
  {
    assert Next(s, run[n], steps[n], run[n + 1]);
    var id, f := steps[n].id, steps[n].facts;
    GateExactly(f.(localPause := f.localPause || run[n].core.pause.Active?), s.cat(id).effect);
    var sig := At(run[n], id).value.sig;
    assert SubmittedOut(id, s.cat(id), sig) == Line(SubmittedBy(id, s.cat(id), sig), To(EXECUTING));
  }

  function SubmittedBy(id: Id, it: Intent, sig: Sig): Record {
    AttemptSubmitted(id, it.key, it.nonce, Some(sig))
  }

  /** The tracker's own NOT_LANDED never follows a confirmation it has not first put in doubt. */
  lemma TrackerDoubtsFirst(s: Setup, run: seq<World>, steps: seq<Step>, n: nat, i: nat)
    requires Run(s, run, steps) && n < |run| && i < |run[n].core.journal| && run[n].core.journal[i].AttemptResult?
    requires run[n].core.journal[i].author == Tracked && run[n].core.journal[i].state == NOT_LANDED
    ensures !AttemptOf(run[n].core.journal[..i], run[n].core.journal[i].id).seen.SeenConfirmed?
  {
    EveryJournalIsLawful(s, run, steps, n);
    LawfulAt(s, run[n].core.journal, i);
  }

  /** Synced shadow sequences strictly increase. */
  lemma ShadowsIncrease(s: Setup, run: seq<World>, steps: seq<Step>, n: nat, i: nat)
    requires Run(s, run, steps) && n < |run| && i < |run[n].core.journal| && run[n].core.journal[i].ShadowSynced?
    ensures var last := LastShadow(run[n].core.journal[..i]); last.Some? ==> last.value < run[n].core.journal[i].shadowSequence
  {
    EveryJournalIsLawful(s, run, steps, n);
    LawfulAt(s, run[n].core.journal, i);
  }

  // ---------------------------------------------------------------- idempotency

  /** Whatever is redelivered, concurrently or after restarts, a key belongs to one attempt, which
      reserves, signs (an entry), submits and concludes at most once. */
  lemma OncePerKey(s: Setup, run: seq<World>, steps: seq<Step>, n: nat, x: Id, y: Id)
    requires Run(s, run, steps) && n < |run| && s.cat(x).key == s.cat(y).key
    ensures var j := run[n].core.journal; var a, b := AttemptOf(j, x), AttemptOf(j, y);
            && (a != NO_ATTEMPT && b != NO_ATTEMPT ==> x == y)
            && a.reservations <= 1 && a.submits <= 1 && a.results <= 1
            && (!s.cat(x).emergency ==> a.signs <= 1)
  {
    hide Txs;
    hide Clean;
    RunSound(s, run, steps, n);
    assert Sane(s.cat(x), x, LocalOf(s, run[n], x));
    assert Sane(s.cat(y), y, LocalOf(s, run[n], y));
  }
}
