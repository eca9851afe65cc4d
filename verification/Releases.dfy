/** An entry's exposure is released only when its transaction can never land afterwards. */
module Releases {
  import opened Sums
  import opened ExposureLedger
  import opened Records
  import opened Intents
  import opened Protocol
  import opened Caps
  import opened Authority
  import opened Runs
  import opened Invariants
  import opened Preservation
  import opened Steps
  import Lawful

  /** Never sent, absent past its last valid height, or failed for good. */
  predicate Harmless(t: Tx, height: nat) {
    t.sent ==>
      || (t.status.Absent? && Expiry(t, height))
      || (t.status.Landed? && !t.status.ok && (t.status.commitment == Finalized || Expiry(t, height)))
  }

  /** A release is journaled or decided. */
  ghost predicate Released(w: World, id: Id) {
    AttemptOf(w.core.journal, id).releases > 0 || Releasing(At(w, id), id)
  }

  predicate Releasing(phase: Option<Phase>, id: Id) {
    phase.Some? && phase.value.Finishing? && phase.value.outs != [] && phase.value.outs[0] == Ledger(EntryReleased(id))
  }

  /** A failure seen on chain that is neither final nor past the last valid height. */
  predicate FailedEarly(t: Tx, height: nat) {
    t.status.Landed? && !t.status.ok && t.status.commitment != Finalized && !Expiry(t, height)
  }

  /** A transaction of the attempt has failed early. */
  ghost predicate Early(w: World, id: Id) {
    exists sig: Sig :: sig in w.chain.txs && w.chain.txs[sig].owner == id && FailedEarly(w.chain.txs[sig], w.chain.height)
  }

  /** The step decides to release the entry. */
  predicate Decides(w: World, v: World, id: Id) {
    Releasing(At(v, id), id) && !Releasing(At(w, id), id)
  }

  ghost predicate AllHarmless(w: World, id: Id) {
    forall sig: Sig :: sig in w.chain.txs && w.chain.txs[sig].owner == id ==> Harmless(w.chain.txs[sig], w.chain.height)
  }

  /** The entry sends nothing any more, and nothing it sent can land. */
  ghost predicate Over(s: Setup, w: World, id: Id) {
    && !s.cat(id).emergency && AttemptOf(w.core.journal, id).first.Some?
    && (At(w, id).Some? ==> At(w, id).value.Finishing?) && AllHarmless(w, id)
  }

  // ---------------------------------------------------------------- chain moves

  lemma ChainKeepsHarmless(t: Tx, u: Tx, height: nat, later: nat)
    requires Harmless(t, height) && later >= height && u == t.(status := u.status)
    requires || u.status == t.status
             || (t.sent && t.status.Absent? && !Expiry(t, height) && u.status.Landed?)
             || (t.status.Landed? && u.status == Landed(Further(t.status.commitment), t.status.ok))
             || (t.status.Landed? && t.status.commitment != Finalized && u.status.Absent?)
    ensures Harmless(u, later)
  {
  }

  lemma ChainOver(s: Setup, w: World, step: Step, v: World, id: Id)
    requires Over(s, w, id) && Next(s, w, step, v) && (step.Advance? || step.Land? || step.Promote? || step.Reorg?)
    ensures Over(s, v, id)
  {
    forall sig: Sig | sig in v.chain.txs && v.chain.txs[sig].owner == id ensures Harmless(v.chain.txs[sig], v.chain.height) {
      assert Harmless(w.chain.txs[sig], w.chain.height);
      ChainKeepsHarmless(w.chain.txs[sig], v.chain.txs[sig], w.chain.height, v.chain.height);
    }
  }

  // ---------------------------------------------------------------- over is over

  /** The first line of an attempt stays. */
  lemma FirstKept(s: Setup, w: World, step: Step, v: World, id: Id)
    requires Sound(s, w) && Next(s, w, step, v) && AttemptOf(w.core.journal, id).first.Some?
    ensures AttemptOf(v.core.journal, id).first.Some?
  {
    hide Next;
    hide Sound;
    Lawful.StepGrows(s, w, step, v);
    if v.core.journal != w.core.journal {
      var r :| v.core.journal == w.core.journal + [r] && Lawful.MayFollow(s, w.core.journal, r);
      AttemptNext(w.core.journal, r, id);
    }
  }

  /** What the attempt itself may still do. */
  lemma OverActor(s: Setup, w: World, step: Step, v: World, id: Id)
    requires Sound(s, w) && Over(s, w, id) && Next(s, w, step, v) && Actor(w, step) == Some(id)
    ensures v.chain == w.chain && (At(v, id).Some? ==> At(v, id).value.Finishing?)
  {
    hide Clean;
    hide Txs;
    hide AllHarmless;
    assert Sane(s.cat(id), id, LocalOf(s, w, id));
  }

  /** A transaction signed or sent by another attempt is not this one's. */
  lemma OverOther(s: Setup, w: World, step: Step, v: World, id: Id)
    requires Sound(s, w) && AllHarmless(w, id) && Next(s, w, step, v) && (step.Sign? || step.Send?) && Actor(w, step) != Some(id)
    ensures AllHarmless(v, id)
  {
    hide Attempts;
    hide Clean;
    if step.Send? {
      WorkingSound(s, w, step.id);
      SendingOwner(s, w, step.id);
    }
  }

  lemma SamePhase(s: Setup, w: World, step: Step, v: World, id: Id)
    requires Next(s, w, step, v) && Framed(s, w, step, v) && Actor(w, step) != Some(id)
    ensures LocalOf(s, v, id) == LocalOf(s, w, id) && At(v, id) == At(w, id)
  {
    hide Next;
    assert LocalOf(s, v, id) == LocalOf(s, w, id);
  }

  lemma CrashOver(s: Setup, w: World, v: World, id: Id)
    requires Over(s, w, id) && Next(s, w, Step.Crash, v)
    ensures Over(s, v, id)
  {
  }

  lemma StepOver(s: Setup, w: World, step: Step, v: World, id: Id)
    requires Sound(s, w) && Over(s, w, id) && Next(s, w, step, v)
    ensures Over(s, v, id)
  {
    hide Next;
    hide Sound;
    hide AllHarmless;
    if step.Advance? || step.Land? || step.Promote? || step.Reorg? {
      ChainOver(s, w, step, v, id);
    } else if step.Crash? {
      CrashOver(s, w, v, id);
    } else {
      FirstKept(s, w, step, v, id);
      StepFramed(s, w, step, v);
      if Actor(w, step) == Some(id) {
        OverActor(s, w, step, v, id);
      } else {
        SamePhase(s, w, step, v, id);
        if step.Sign? || step.Send? {
          OverOther(s, w, step, v, id);
        } else {
          SameChain(s, w, step, v);
        }
      }
      HarmlessOnSameChain(w, v, id);
    }
  }

  lemma HarmlessOnSameChain(w: World, v: World, id: Id)
    ensures v.chain == w.chain && AllHarmless(w, id) ==> AllHarmless(v, id)
  {
  }

  lemma {:induction false} OverForEver(s: Setup, w: World, steps: seq<Step>, v: World, id: Id)
    requires Proper(s) && Sound(s, w) && Listed(w) && Over(s, w, id) && Leads(s, w, steps, v)
    ensures Over(s, v, id) && Sound(s, v)
    decreases |steps|
  {
    hide Next;
    hide Sound;
    hide Listed;
    hide Over;
    if steps != [] {
      var u: World :| LeadsBy(s, w, steps, u, v);
      StepSound(s, w, steps[0], u);
      StepOver(s, w, steps[0], u, id);
      OverForEver(s, u, steps[1..], v, id);
    }
  }

  // ---------------------------------------------------------------- decisions to release

  /** All transactions of an attempt whose only sent one, if any, is harmless. */
  lemma OwnHarmless(s: Setup, w: World, id: Id, sig: Sig)
    requires Txs(w) && sig in w.chain.txs && w.chain.txs[sig].owner == id
    requires var a := AttemptOf(w.core.journal, id);
             a.signed.Some? && a.signed.value.AttemptSigned? && a.signed.value.sig.Some? && a.signed.value.sig.value in w.chain.txs
             && Harmless(w.chain.txs[a.signed.value.sig.value], w.chain.height)
    ensures Harmless(w.chain.txs[sig], w.chain.height)
  {
    assert SentTx(w, sig);
  }

  lemma NothingSigned(w: World, id: Id, sig: Sig)
    requires Txs(w) && sig in w.chain.txs && AttemptOf(w.core.journal, id).signs == 0
    ensures w.chain.txs[sig].owner != id
  {
    assert SentTx(w, sig);
  }

  lemma NothingSubmitted(w: World, id: Id, sig: Sig)
    requires Txs(w) && sig in w.chain.txs && AttemptOf(w.core.journal, id).submits == 0 && w.chain.txs[sig].owner == id
    ensures !w.chain.txs[sig].sent
  {
    assert SentTx(w, sig);
  }

  lemma SettleDecides(s: Setup, w: World, step: Step, v: World)
    requires Sound(s, w) && Next(s, w, step, v) && step.Settle? && !s.cat(step.id).emergency && Releasing(At(v, step.id), step.id)
    ensures AllHarmless(w, step.id)
  {
    hide Attempts;
    hide Clean;
    var id := step.id;
    WorkingSound(s, w, id);
    forall sig: Sig | sig in w.chain.txs && w.chain.txs[sig].owner == id ensures Harmless(w.chain.txs[sig], w.chain.height) {
      if step.outcome == PREPARED {
        NothingSigned(w, id, sig);
      } else {
        assert step.outcome == NOT_LANDED;
        OwnHarmless(s, w, id, sig);
      }
    }
  }

  lemma GateDecides(s: Setup, w: World, step: Step, v: World)
    requires Sound(s, w) && Next(s, w, step, v) && step.PassGate? && Releasing(At(v, step.id), step.id)
    ensures AllHarmless(w, step.id)
  {
    hide Attempts;
    hide Clean;
    WorkingSound(s, w, step.id);
    forall sig: Sig | sig in w.chain.txs && w.chain.txs[sig].owner == step.id ensures Harmless(w.chain.txs[sig], w.chain.height) {
      NothingSubmitted(w, step.id, sig);
    }
  }

  lemma SaneAt(s: Setup, w: World, id: Id)
    requires Sound(s, w)
    ensures Sane(s.cat(id), id, LocalOf(s, w, id))
  {
  }

  lemma RecoverDecides(s: Setup, w: World, step: Step, v: World)
    requires Sound(s, w) && Next(s, w, step, v) && step.RecoverOne? && !s.cat(step.id).emergency && Releasing(At(v, step.id), step.id)
    requires !Early(w, step.id)
    ensures AllHarmless(w, step.id)
  {
    hide Attempts;
    hide Clean;
    var id := step.id;
    var a := AttemptOf(w.core.journal, id);
    SaneAt(s, w, id);
    SeenWasSubmitted(s, w, id);
    forall sig: Sig | sig in w.chain.txs && w.chain.txs[sig].owner == id ensures Harmless(w.chain.txs[sig], w.chain.height) {
      if Expired(a, step.now) {
        NothingSigned(w, id, sig);
      } else {
        OwnHarmless(s, w, id, sig);
      }
    }
  }

  lemma VisitDecides(s: Setup, w: World, step: Step, v: World)
    requires Sound(s, w) && Listed(w) && Next(s, w, step, v) && step.TickVisit?
    requires Releasing(At(v, w.task.todo[0]), w.task.todo[0]) && At(w, w.task.todo[0]).None? && !Early(w, w.task.todo[0])
    ensures AllHarmless(w, w.task.todo[0])
  {
    hide Attempts;
    hide Clean;
    var id := w.task.todo[0];
    SaneAt(s, w, id);
    SeenWasSubmitted(s, w, id);
    forall sig: Sig | sig in w.chain.txs && w.chain.txs[sig].owner == id ensures Harmless(w.chain.txs[sig], w.chain.height) {
      OwnHarmless(s, w, id, sig);
    }
  }

  lemma ProceedReleases(it: Intent, id: Id, l: Local, outs: seq<Out>)
    requires Sane(it, id, l) && l.att != NO_ATTEMPT && l.phase == Some(Finishing(outs)) && !it.emergency
    ensures outs != []
    ensures outs[0] != Ledger(EntryReleased(id)) ==> LocalEmit(l, id, outs[0], None).att.releases == l.att.releases
    ensures !Releasing(PhaseFor(outs[1..]), id)
  {
    if |outs| == 2 && Event(it, id, outs[0]) {
      assert Agenda(it, id, l, outs[1..]) && |outs[1..]| == 1;
    }
  }

  lemma ProceedNoRelease(s: Setup, w: World, step: Step, v: World)
    requires Sound(s, w) && Next(s, w, step, v) && step.Proceed? && Framed(s, w, step, v)
    ensures Released(v, step.id) && !s.cat(step.id).emergency ==> Released(w, step.id)
  {
    hide Sound;
    hide Sane;
    hide OthersSame;
    if !s.cat(step.id).emergency {
      WorkingSound(s, w, step.id);
      ProceedReleases(s.cat(step.id), step.id, LocalOf(s, w, step.id), At(w, step.id).value.outs);
    }
  }

  /** Which steps can newly release: those that compute an agenda. */
  lemma NoNewRelease(s: Setup, w: World, step: Step, v: World)
    requires Next(s, w, step, v) && Actor(w, step).Some? && Framed(s, w, step, v)
    requires !step.Settle? && !step.PassGate? && !step.RecoverOne? && !step.TickVisit? && !step.Proceed?
    ensures var id := Actor(w, step).value; Released(v, id) ==> Released(w, id)
  {
    hide OthersSame;
  }

  lemma ComputedRelease(s: Setup, w: World, step: Step, v: World)
    requires Sound(s, w) && Next(s, w, step, v) && Framed(s, w, step, v)
    requires step.Settle? || step.PassGate? || step.RecoverOne? || step.TickVisit?
    ensures var id := Actor(w, step).value; Released(v, id) ==> Released(w, id) || Releasing(At(v, id), id)
  {
    hide OthersSame;
    hide Sound;
  }

  lemma ActorDecides(s: Setup, w: World, step: Step, v: World)
    requires Sound(s, w) && Listed(w) && Next(s, w, step, v) && Framed(s, w, step, v) && Actor(w, step).Some?
    ensures var id := Actor(w, step).value;
            !s.cat(id).emergency && Released(v, id) && !Released(w, id) ==> Decides(w, v, id) && (!Early(w, id) ==> AllHarmless(w, id))
  {
    hide *;
    if step.Settle? || step.PassGate? || step.RecoverOne? || step.TickVisit? {
      ComputedRelease(s, w, step, v);
      ComputedDecides(s, w, step, v);
      ReleasingIsReleased(w, v, Actor(w, step).value);
    } else if step.Proceed? {
      ProceedActor(w, step);
      ProceedNoRelease(s, w, step, v);
    } else {
      NoNewRelease(s, w, step, v);
    }
  }

  lemma ReleasingIsReleased(w: World, v: World, id: Id)
    ensures !Released(w, id) && Releasing(At(v, id), id) ==> Decides(w, v, id)
  {
  }

  lemma ProceedActor(w: World, step: Step)
    requires step.Proceed?
    ensures Actor(w, step) == Some(step.id)
  {
  }

  lemma ComputedDecides(s: Setup, w: World, step: Step, v: World)
    requires Sound(s, w) && Listed(w) && Next(s, w, step, v) && Actor(w, step).Some?
    requires step.Settle? || step.PassGate? || step.RecoverOne? || step.TickVisit?
    ensures var id := Actor(w, step).value; !s.cat(id).emergency && Releasing(At(v, id), id) && !Early(w, id) ==> AllHarmless(w, id)
  {
    hide Next;
    hide Sound;
    hide AllHarmless;
    hide Early;
    var id := Actor(w, step).value;
    if !s.cat(id).emergency && Releasing(At(v, id), id) && !Early(w, id) {
      if step.Settle? {
        SettleDecides(s, w, step, v);
      } else if step.PassGate? {
        GateDecides(s, w, step, v);
      } else if step.RecoverOne? {
        RecoverDecides(s, w, step, v);
      } else {
        VisitAtRest(s, w, step, v);
        VisitDecides(s, w, step, v);
      }
    }
  }

  lemma VisitAtRest(s: Setup, w: World, step: Step, v: World)
    requires Listed(w) && Next(s, w, step, v) && step.TickVisit?
    ensures w.task.Ticking? && w.task.todo != [] && At(w, w.task.todo[0]).None?
  {
  }

  // ---------------------------------------------------------------- the invariant

  ghost predicate SafeFor(s: Setup, w: World, id: Id) {
    !s.cat(id).emergency && Released(w, id) ==> Over(s, w, id)
  }

  lemma CrashReleases(s: Setup, w: World, v: World, id: Id)
    requires Next(s, w, Step.Crash, v)
    ensures Released(v, id) ==> Released(w, id)
  {
  }

  lemma SameReleases(s: Setup, w: World, v: World, id: Id)
    requires LocalOf(s, v, id) == LocalOf(s, w, id)
    ensures Released(v, id) <==> Released(w, id)
  {
  }

  /** Only a step of the attempt itself can newly release it. */
  lemma NewRelease(s: Setup, w: World, step: Step, v: World, id: Id)
    requires Sound(s, w) && Listed(w) && Next(s, w, step, v) && !s.cat(id).emergency && Released(v, id) && !Released(w, id)
    ensures Actor(w, step) == Some(id) && Decides(w, v, id) && (!Early(w, id) ==> AllHarmless(w, id))
  {
    hide Next;
    hide Sound;
    hide Listed;
    hide Released;
    hide Early;
    hide AllHarmless;
    hide Decides;
    if step.Crash? {
      CrashReleases(s, w, v, id);
    } else {
      StepFramed(s, w, step, v);
      if Actor(w, step) == Some(id) {
        ActorDecides(s, w, step, v);
      } else {
        SamePhase(s, w, step, v, id);
        SameReleases(s, w, v, id);
      }
    }
  }

  /** A deciding step computes its agenda on a chain it leaves alone. */
  lemma DecidesStep(s: Setup, w: World, step: Step, v: World, id: Id)
    requires Sound(s, w) && Listed(w) && Next(s, w, step, v) && !s.cat(id).emergency && Decides(w, v, id)
    ensures Actor(w, step) == Some(id) && v.chain == w.chain && AttemptOf(v.core.journal, id).first.Some?
    ensures !Early(w, id) ==> Over(s, v, id)
  {
    hide Next;
    hide Sound;
    hide Listed;
    hide Early;
    hide AllHarmless;
    hide Released;
    if step.Crash? {
      CrashPhase(s, w, v, id);
    } else {
      StepFramed(s, w, step, v);
      if Actor(w, step) != Some(id) {
        SamePhase(s, w, step, v, id);
      } else {
        ComputesAgenda(s, w, step, v);
        SameChain(s, w, step, v);
        ComputedDecides(s, w, step, v);
        StepSoundFor(s, w, step, v, id);
        HarmlessOnSameChain(w, v, id);
      }
    }
  }

  lemma CrashPhase(s: Setup, w: World, v: World, id: Id)
    requires Next(s, w, Step.Crash, v)
    ensures At(v, id).None?
  {
  }

  lemma ComputesAgenda(s: Setup, w: World, step: Step, v: World)
    requires Sound(s, w) && Next(s, w, step, v) && Actor(w, step).Some? && Framed(s, w, step, v)
    requires !s.cat(Actor(w, step).value).emergency && Decides(w, v, Actor(w, step).value)
    ensures step.Settle? || step.PassGate? || step.RecoverOne? || step.TickVisit?
  {
    hide Sound;
    hide Sane;
    hide OthersSame;
    if step.Proceed? {
      WorkingSound(s, w, step.id);
      ProceedReleases(s.cat(step.id), step.id, LocalOf(s, w, step.id), At(w, step.id).value.outs);
    }
  }

  /** Who computes an agenda has been prepared. */
  lemma StepSoundFor(s: Setup, w: World, step: Step, v: World, id: Id)
    requires Sound(s, w) && Listed(w) && Next(s, w, step, v) && Actor(w, step) == Some(id) && Decides(w, v, id)
    requires step.Settle? || step.PassGate? || step.RecoverOne? || step.TickVisit?
    ensures AttemptOf(v.core.journal, id).first.Some?
  {
    hide Clean;
    hide Txs;
    assert Sane(s.cat(id), id, LocalOf(s, w, id));
  }

  /** Unless the step acts on an early failure. */
  lemma StepSafe(s: Setup, w: World, step: Step, v: World, id: Id)
    requires Sound(s, w) && Listed(w) && SafeFor(s, w, id) && Next(s, w, step, v) && !(Decides(w, v, id) && Early(w, id))
    ensures SafeFor(s, v, id)
  {
    hide Next;
    hide Sound;
    hide Listed;
    hide Released;
    hide Over;
    hide Early;
    hide Decides;
    if !s.cat(id).emergency && Released(v, id) {
      if Released(w, id) {
        StepOver(s, w, step, v, id);
      } else {
        NewRelease(s, w, step, v, id);
        DecidesStep(s, w, step, v, id);
      }
    }
  }

  lemma StartSafe(s: Setup, id: Id)
    ensures SafeFor(s, START, id)
  {
  }

  /** Before the n-th world, nobody decides to release this entry on a failure that is neither final nor expired. */
  ghost predicate NoEarlyRelease(run: seq<World>, n: nat, id: Id)
    requires n < |run|
  {
    forall i :: 0 <= i < n ==> !(Decides(run[i], run[i + 1], id) && Early(run[i], id))
  }

  lemma {:induction false} RunSafe(s: Setup, run: seq<World>, steps: seq<Step>, n: nat, id: Id)
    requires Run(s, run, steps) && n < |run| && NoEarlyRelease(run, n, id)
    ensures SafeFor(s, run[n], id)
  {
    hide Next;
    hide Sound;
    hide SafeFor;
    hide Listed;
    hide Early;
    hide Decides;
    if n == 0 {
      StartSafe(s, id);
    } else {
      RunSafe(s, run, steps, n - 1, id);
      RunSound(s, run, steps, n - 1);
      StepSafe(s, run[n - 1], steps[n - 1], run[n], id);
    }
  }

  lemma {:induction false} RunOver(s: Setup, run: seq<World>, steps: seq<Step>, n: nat, m: nat, id: Id)
    requires Run(s, run, steps) && n <= m < |run| && Over(s, run[n], id)
    ensures Over(s, run[m], id)
    decreases m
  {
    hide Next;
    hide Sound;
    hide Over;
    hide Listed;
    if n < m {
      RunOver(s, run, steps, n, m - 1, id);
      RunSound(s, run, steps, m - 1);
      StepOver(s, run[m - 1], steps[m - 1], run[m], id);
    }
  }

  /** A harmless transaction has not landed. */
  lemma OverMeansLost(s: Setup, w: World, id: Id, sig: Sig)
    requires Sound(s, w) && Over(s, w, id) && sig in w.chain.txs && w.chain.txs[sig].owner == id
    ensures !(w.chain.txs[sig].status.Landed? && w.chain.txs[sig].status.ok)
  {
    hide Attempts;
    hide Clean;
    assert SentTx(w, sig) && Harmless(w.chain.txs[sig], w.chain.height);
  }

  // ---------------------------------------------------------------- the results

  /** Once an entry's release is journaled, no transaction of it has landed or lands at any later point,
      whatever other attempts do, provided this entry's own release was not decided on an early failure. */
  lemma ReleasedNeverLands(s: Setup, run: seq<World>, steps: seq<Step>, n: nat, m: nat, id: Id, sig: Sig)
    requires Run(s, run, steps) && n <= m < |run| && NoEarlyRelease(run, n, id)
    requires !s.cat(id).emergency && AttemptOf(run[n].core.journal, id).releases > 0
    requires sig in run[m].chain.txs && run[m].chain.txs[sig].owner == id
    ensures !(run[m].chain.txs[sig].status.Landed? && run[m].chain.txs[sig].status.ok)
  {
    hide Next;
    hide Sound;
    hide Over;
    hide Decides;
    hide Early;
    RunSafe(s, run, steps, n, id);
    RunOver(s, run, steps, n, m, id);
    RunSound(s, run, steps, m);
    OverMeansLost(s, run[m], id, sig);
  }

  /** The release is journaled, and yet a transaction of the entry has landed. */
  ghost predicate LandedDespiteRelease(w: World, id: Id) {
    && AttemptOf(w.core.journal, id).releases > 0
    && exists sig: Sig :: sig in w.chain.txs && w.chain.txs[sig].owner == id && w.chain.txs[sig].status.Landed? && w.chain.txs[sig].status.ok
  }

  ghost predicate MayLandLater(s: Setup, w: World, id: Id) {
    exists steps: seq<Step>, v: World :: Leads(s, w, steps, v) && LandedDespiteRelease(v, id)
  }

  /** The chain drops an early failure and lands the transaction for good. */
  lemma DropsAndLands(s: Setup, w: World, sig: Sig) returns (u: World)
    requires sig in w.chain.txs && w.chain.txs[sig].sent && FailedEarly(w.chain.txs[sig], w.chain.height)
    ensures Leads(s, w, [Reorg(sig), Land(sig, true)], u)
    ensures u == w.(chain := w.chain.(txs := w.chain.txs[sig := w.chain.txs[sig].(status := Landed(Processed, true))]))
  {
    var dropped := w.(chain := w.chain.(txs := w.chain.txs[sig := w.chain.txs[sig].(status := Absent)]));
    u := dropped.(chain := dropped.chain.(txs := dropped.chain.txs[sig := dropped.chain.txs[sig].(status := Landed(Processed, true))]));
    assert Next(s, w, Reorg(sig), dropped) && Next(s, dropped, Land(sig, true), u);
    hide Next;
    LeadsOne(s, w, Reorg(sig), dropped);
    LeadsNext(s, w, [Reorg(sig)], dropped, Land(sig, true), u);
    assert [Reorg(sig)] + [Land(sig, true)] == [Reorg(sig), Land(sig, true)];
    assert u.chain.txs == w.chain.txs[sig := w.chain.txs[sig].(status := Landed(Processed, true))];
  }

  /** From an early release: the line is written, and the transaction lands. */
  lemma EarlyReleaseLands(s: Setup, w: World, step: Step, v: World, id: Id) returns (sig: Sig, u: World)
    requires Sound(s, w) && Listed(w) && Next(s, w, step, v) && !s.cat(id).emergency && Decides(w, v, id) && Early(w, id)
    ensures sig in w.chain.txs && Leads(s, v, [Proceed(id), Reorg(sig), Land(sig, true)], u) && LandedDespiteRelease(u, id)
  {
    hide Next;
    hide Sound;
    hide Listed;
    DecidesStep(s, w, step, v, id);
    sig := EarlySig(s, w, id);
    ReleaseWritten(s, v, id);
    var released := Emitted(s, v, id);
    u := DropsAndLands(s, released, sig);
    LeadsOne(s, v, Proceed(id), released);
    LeadsChain(s, v, [Proceed(id)], released, [Reorg(sig), Land(sig, true)], u);
    assert u.core.journal == released.core.journal && u.chain.txs[sig].owner == id && u.chain.txs[sig].status == Landed(Processed, true);
    assert [Proceed(id)] + [Reorg(sig), Land(sig, true)] == [Proceed(id), Reorg(sig), Land(sig, true)];
  }

  lemma EarlySig(s: Setup, w: World, id: Id) returns (sig: Sig)
    requires Sound(s, w) && Early(w, id)
    ensures sig in w.chain.txs && w.chain.txs[sig].owner == id && w.chain.txs[sig].sent && FailedEarly(w.chain.txs[sig], w.chain.height)
  {
    hide Attempts;
    hide Clean;
    sig :| sig in w.chain.txs && w.chain.txs[sig].owner == id && FailedEarly(w.chain.txs[sig], w.chain.height);
    assert SentTx(w, sig);
  }

  ghost function Emitted(s: Setup, w: World, id: Id): World
    requires Releasing(At(w, id), id)
  {
    w.(core := Emit(w.core, s.cat(id).key, Ledger(EntryReleased(id))), work := Busy(w.work, id, At(w, id).value.outs[1..]))
  }

  lemma ReleaseWritten(s: Setup, w: World, id: Id)
    requires Releasing(At(w, id), id)
    ensures Next(s, w, Proceed(id), Emitted(s, w, id)) && AttemptOf(Emitted(s, w, id).core.journal, id).releases > 0
  {
    AttemptNext(w.core.journal, ExposureUpdated(EntryReleased(id)), id);
  }

  /** The proviso is exact.  At whatever point of whatever run an entry's release is decided: the entry may
      land after its release was journaled if and only if it was decided on an early failure. */
  lemma ReleaseSafeExactly(s: Setup, run: seq<World>, steps: seq<Step>, step: Step, v: World, id: Id)
    requires Run(s, run, steps) && Next(s, run[|steps|], step, v) && !s.cat(id).emergency && Decides(run[|steps|], v, id)
    ensures MayLandLater(s, v, id) <==> Early(run[|steps|], id)
  {
    hide Next;
    hide Sound;
    hide Listed;
    hide Early;
    hide Decides;
    hide Over;
    hide LandedDespiteRelease;
    var w := run[|steps|];
    RunSound(s, run, steps, |steps|);
    if Early(w, id) {
      var sig, u := EarlyReleaseLands(s, w, step, v, id);
    } else {
      DecidesStep(s, w, step, v, id);
      StepSound(s, w, step, v);
      forall more: seq<Step>, u: World | Leads(s, v, more, u) ensures !LandedDespiteRelease(u, id) {
        OverForEver(s, v, more, u, id);
        OverNotLanded(s, u, id);
      }
    }
  }

  lemma OverNotLanded(s: Setup, w: World, id: Id)
    requires Sound(s, w) && Over(s, w, id)
    ensures !LandedDespiteRelease(w, id)
  {
    hide Sound;
    hide Over;
    forall sig: Sig | sig in w.chain.txs && w.chain.txs[sig].owner == id ensures !(w.chain.txs[sig].status.Landed? && w.chain.txs[sig].status.ok) {
      OverMeansLost(s, w, id, sig);
    }
  }
}
