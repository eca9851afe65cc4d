/** What the journaled results of a run mean: for the ledger, and on the chain. */
module Results {
  import opened Sums
  import opened ExposureLedger
  import opened Records
  import opened Intents
  import opened Protocol
  import opened Caps
  import opened Authority
  import opened Runs
  import opened Invariants
  import opened Preservation
  import opened Steps
  import CapRuns
  import Coverage
  import Lawful
  import Outcomes
  import Recovery
  import Refinement

  // ---------------------------------------------------------------- outcomes and visits, written through

  predicate OnlyProceeds(steps: seq<Step>, id: Id) {
    forall i :: 0 <= i < |steps| ==> steps[i] == Proceed(id)
  }

  /** From any reachable world the adapter's answer, once its outputs are written, is recorded at the fill or,
      without one, at the authorised input. */
  lemma SettleReaches(s: Setup, run: seq<World>, steps: seq<Step>, id: Id, outcome: AttemptState, fill: Option<nat>, exits: seq<Id>, v: World)
      returns (more: seq<Step>, u: World)
    requires Run(s, run, steps) && Next(s, run[|steps|], Settle(id, outcome, fill, exits), v)
    ensures Leads(s, v, more, u) && OnlyProceeds(more, id)
    ensures fill.Some? ==> Outcomes.Recorded(run[|steps|].core, id, s.cat(id), outcome, fill.value, u.core)
    ensures fill.None? ==> Outcomes.Recorded(run[|steps|].core, id, s.cat(id), outcome, s.cat(id).maxInput, u.core)
  {
    var w := run[|steps|];
    SettleAgenda(s, w, id, outcome, fill, exits, v);
    hide Next;
    hide Outcomes.Recorded;
    hide RecordOuts;
    Outcomes.RecordMeaning(w.core, id, s.cat(id), outcome, fill, exits);
    var outs := RecordOuts(w.core.open, id, s.cat(id), outcome, fill, exits);
    if outs == [] {
      LeadsNone(s, v);
      more, u := [], v;
    } else {
      u, more := Refinement.AgendaWrites(s, v, id, outs);
    }
  }

  lemma SettleAgenda(s: Setup, w: World, id: Id, outcome: AttemptState, fill: Option<nat>, exits: seq<Id>, v: World)
    requires Next(s, w, Settle(id, outcome, fill, exits), v)
    ensures forall i :: 0 <= i < |exits| ==> exits[i] in w.core.open
    ensures if s.cat(id).emergency && outcome == FINALIZED then ListsMint(w.core.open, s.cat(id).inputMint, exits) else exits == []
    ensures var outs := RecordOuts(w.core.open, id, s.cat(id), outcome, fill, exits);
            v.core == w.core && (outs != [] ==> At(v, id) == Some(Finishing(outs)))
  {
    hide RecordOuts;
  }

  /** The line that prepared an intent. */
  function PreparedBy(id: Id, it: Intent): Record {
    AttemptPrepared(id, it.key, it.nonce, it.emergency, if it.emergency then it.inputMint else it.outputMint, it.maxInput, it.held, it.expiresAt)
  }

  /** From any reachable world a tracker's visit, once its outputs are written, leaves what its verdict asks for, with
      the amounts and the mint of the intent itself. */
  lemma VisitReaches(s: Setup, run: seq<World>, steps: seq<Step>, q: Quorum, exits: seq<Id>, v: World)
      returns (more: seq<Step>, u: World, id: Id, sig: Sig)
    requires Run(s, run, steps) && Next(s, run[|steps|], TickVisit(q, exits), v)
    ensures run[|steps|].task.Ticking? && run[|steps|].task.todo != [] && id == run[|steps|].task.todo[0]
    ensures Leads(s, v, more, u) && OnlyProceeds(more, id)
    ensures SignatureOf(AttemptOf(run[|steps|].core.journal, id)) == Some(sig)
    ensures Outcomes.VisitLeaves(run[|steps|].core, id, PreparedBy(id, s.cat(id)), s.cat(id).key, sig,
                                 AttemptOf(run[|steps|].core.journal, id).seen, q, u.core)
  {
    var w := run[|steps|];
    RunSound(s, run, steps, |steps|);
    VisitFacts(s, w, q, exits, v);
    id := w.task.todo[0];
    var a := AttemptOf(w.core.journal, id);
    sig := SignatureOf(a).value;
    hide Next;
    hide Sound;
    hide Listed;
    hide Outcomes.VisitLeaves;
    hide TickOuts;
    Outcomes.VisitMeaning(w.core, id, a, PreparedBy(id, s.cat(id)), s.cat(id).key, sig, q, exits);
    var outs := TickOuts(w.core.open, id, a, sig, q, exits);
    if outs == [] {
      LeadsNone(s, v);
      more, u := [], v;
    } else {
      u, more := Refinement.AgendaWrites(s, v, id, outs);
    }
  }

  lemma VisitFacts(s: Setup, w: World, q: Quorum, exits: seq<Id>, v: World)
    requires Sound(s, w) && Listed(w) && Next(s, w, TickVisit(q, exits), v)
    ensures w.task.Ticking? && w.task.todo != []
    ensures var id := w.task.todo[0]; var it := s.cat(id); var a := AttemptOf(w.core.journal, id);
            && SignatureOf(a).Some? && Outcomes.Facts(a, PreparedBy(id, it), it.key, SignatureOf(a).value)
            && (if q.QFinalized? && it.emergency then ListsMint(w.core.open, it.inputMint, exits) else exits == [])
            && (forall i :: 0 <= i < |exits| ==> exits[i] in w.core.open)
            && v.core == w.core
            && var outs := TickOuts(w.core.open, id, a, SignatureOf(a).value, q, exits);
               (outs != [] ==> At(v, id) == Some(Finishing(outs)))
  {
    hide Clean;
    hide Txs;
    hide TickOuts;
    assert Sane(s.cat(w.task.todo[0]), w.task.todo[0], LocalOf(s, w, w.task.todo[0]));
  }

  // ---------------------------------------------------------------- failed means not open, completed means final

  /** The result an agenda ends with. */
  function Concluding(phase: Option<Phase>): Option<IntentState> {
    if phase.Some? && phase.value.Finishing? && phase.value.outs != []
       && phase.value.outs[|phase.value.outs| - 1].Line? && phase.value.outs[|phase.value.outs| - 1].rec.AttemptResult?
    then Some(phase.value.outs[|phase.value.outs| - 1].rec.lifecycle) else None
  }

  predicate FailedResult(r: Record, id: Id) {
    r.AttemptResult? && r.id == id && r.lifecycle != COMPLETED
  }

  predicate CompletedResult(r: Record, id: Id) {
    r.AttemptResult? && r.id == id && r.lifecycle == COMPLETED
  }

  ghost predicate Failed(j: seq<Record>, id: Id) {
    exists i :: 0 <= i < |j| && FailedResult(j[i], id)
  }

  ghost predicate Completed(j: seq<Record>, id: Id) {
    exists i :: 0 <= i < |j| && CompletedResult(j[i], id)
  }

  lemma GrownResults(j: seq<Record>, r: Record, id: Id)
    ensures Failed(j + [r], id) <==> Failed(j, id) || FailedResult(r, id)
    ensures Completed(j + [r], id) <==> Completed(j, id) || CompletedResult(r, id)
  {
    var k := j + [r];
    assert k[|j|] == r && forall i :: 0 <= i < |j| ==> k[i] == j[i];
    if Failed(j, id) {
      var i :| 0 <= i < |j| && FailedResult(j[i], id);
      assert FailedResult(k[i], id);
    }
    if Completed(j, id) {
      var i :| 0 <= i < |j| && CompletedResult(j[i], id);
      assert CompletedResult(k[i], id);
    }
    if FailedResult(r, id) {
      assert FailedResult(k[|j|], id);
    }
    if CompletedResult(r, id) {
      assert CompletedResult(k[|j|], id);
    }
  }

  /** The transaction the attempt signed last is final on chain. */
  ghost predicate FinalTx(w: World, id: Id) {
    var a := AttemptOf(w.core.journal, id);
    a.signed.Some? && a.signed.value.AttemptSigned? && a.signed.value.sig.Some? && StatusOf(w.chain, a.signed.value.sig.value) == Landed(Finalized, true)
  }

  predicate FirstReleases(phase: Option<Phase>, id: Id) {
    phase.Some? && phase.value.Finishing? && phase.value.outs != [] && phase.value.outs[0] == Ledger(EntryReleased(id))
  }

  ghost predicate Gone(w: World, id: Id) {
    && (Failed(w.core.journal, id) ==> id !in w.core.open)
    && (Concluding(At(w, id)).Some? && Concluding(At(w, id)).value != COMPLETED && !FirstReleases(At(w, id), id) ==> id !in w.core.open)
  }

  ghost predicate TrueToChain(w: World, id: Id) {
    Completed(w.core.journal, id) || Concluding(At(w, id)) == Some(COMPLETED) ==> FinalTx(w, id)
  }

  // ---------------------------------------------------------------- where results come from

  /** A journal line that is a result of `id` was the attempt's own: the caps' refusal, or the end of its agenda. */
  lemma ResultSource(s: Setup, w: World, step: Step, v: World, id: Id)
    requires Sound(s, w) && Next(s, w, step, v)
    ensures (Failed(v.core.journal, id) ==> Failed(w.core.journal, id) || (step == Step.Admit(id) && v.core.open == w.core.open) || (step == Step.Proceed(id) && OwnFailure(w, id)))
    ensures (Completed(v.core.journal, id) ==> Completed(w.core.journal, id) || (step == Step.Proceed(id) && Concluding(At(w, id)) == Some(COMPLETED)))
  {
    hide Next;
    hide Sound;
    Lawful.StepGrows(s, w, step, v);
    if v.core.journal != w.core.journal {
      var r :| v.core.journal == w.core.journal + [r] && Lawful.MayFollow(s, w.core.journal, r);
      GrownResults(w.core.journal, r, id);
      if r.AttemptResult? && r.id == id {
        ResultWriter(s, w, step, v, id, r);
      }
    }
  }

  /** The next output is a failing result. */
  predicate OwnFailure(w: World, id: Id) {
    Concluding(At(w, id)).Some? && Concluding(At(w, id)).value != COMPLETED && !FirstReleases(At(w, id), id)
  }

  lemma ResultWriter(s: Setup, w: World, step: Step, v: World, id: Id, r: Record)
    requires Sound(s, w) && Next(s, w, step, v) && v.core.journal == w.core.journal + [r] && r.AttemptResult? && r.id == id
    ensures (step == Step.Admit(id) && r.lifecycle != COMPLETED && v.core.open == w.core.open)
            || (step == Step.Proceed(id) && Concluding(At(w, id)) == Some(r.lifecycle) && !FirstReleases(At(w, id), id))
  {
    assert v.core.journal[|w.core.journal|] == r;
    if step.Proceed? {
      ProceedWriter(s, w, step.id, v, r);
    } else if step.Admit? {
      AdmitWriter(s, w, step.id, v, r);
    } else {
      OtherWriter(s, w, step, v, r);
    }
  }

  lemma ProceedWriter(s: Setup, w: World, x: Id, v: World, r: Record)
    requires Sound(s, w) && Next(s, w, Step.Proceed(x), v) && v.core.journal == w.core.journal + [r] && r.AttemptResult?
    ensures r.id == x && Concluding(At(w, x)) == Some(r.lifecycle) && !FirstReleases(At(w, x), x)
  {
    hide Sound;
    WorkingSound(s, w, x);
    assert v.core.journal[|w.core.journal|] == r;
    LineLast(s.cat(x), x, LocalOf(s, w, x), At(w, x).value.outs);
  }

  /** A result ends its agenda. */
  lemma LineLast(it: Intent, id: Id, l: Local, outs: seq<Out>)
    requires Sane(it, id, l) && l.att != NO_ATTEMPT && l.phase == Some(Finishing(outs))
    ensures outs != [] && (outs[0].Line? && outs[0].rec.AttemptResult? ==> |outs| == 1 && outs[0].rec.id == id)
  {
  }

  lemma AdmitWriter(s: Setup, w: World, x: Id, v: World, r: Record)
    requires Next(s, w, Step.Admit(x), v) && v.core.journal == w.core.journal + [r] && r.AttemptResult?
    ensures r.id == x && r.lifecycle != COMPLETED && v.core.open == w.core.open
  {
    hide Admitted;
    var it := s.cat(x);
    assert v.core.journal[|w.core.journal|] == r;
    if !Admitted(s.g, w.core.open, it, None) {
      Recovery.EmitOne(w.core, it.key, Result(x, it.key, PREPARED, FAILED, Live, To(FAILED)));
    } else if x !in w.core.open {
      Recovery.EmitOne(w.core, it.key, Ledger(Reservation(x, it)));
    }
  }

  lemma OtherWriter(s: Setup, w: World, step: Step, v: World, r: Record)
    requires Next(s, w, step, v) && v.core.journal == w.core.journal + [r] && !step.Proceed? && !step.Admit?
    ensures !r.AttemptResult?
  {
    assert v.core.journal[|w.core.journal|] == r;
  }

  lemma {:induction false} ResultsCount(j: seq<Record>, id: Id)
    ensures Failed(j, id) || Completed(j, id) ==> AttemptOf(j, id).results > 0
    decreases |j|
  {
    if j != [] {
      var before, r := j[..|j| - 1], j[|j| - 1];
      assert j == before + [r];
      ResultsCount(before, id);
      GrownResults(before, r, id);
      AttemptNext(before, r, id);
    }
  }

  // ---------------------------------------------------------------- failed means not open

  /** Only its own admission opens an entry. */
  lemma NewlyOpen(s: Setup, w: World, step: Step, v: World, id: Id)
    requires Sound(s, w) && Next(s, w, step, v) && id in v.core.open && id !in w.core.open
    ensures step == Step.Admit(id) && At(w, id) == Some(Checking)
  {
    hide Next;
    hide Sound;
    if step.Admit? {
      StepFramed(s, w, step, v);
      Coverage.AdmitReserves(s, w, step.id, v);
      AdmitStarts(s, w, step.id, v);
    } else {
      Coverage.OpenMoves(s, w, step, v);
    }
  }

  lemma AdmitStarts(s: Setup, w: World, id: Id, v: World)
    requires Next(s, w, Step.Admit(id), v)
    ensures At(w, id) == Some(Checking) && Concluding(At(v, id)).None?
  {
    hide Admission;
    hide Admitted;
  }

  lemma CheckingFresh(s: Setup, w: World, id: Id)
    requires Sound(s, w) && At(w, id) == Some(Checking)
    ensures !Failed(w.core.journal, id) && Concluding(At(w, id)).None?
  {
    hide Clean;
    hide Txs;
    assert Sane(s.cat(id), id, LocalOf(s, w, id));
    ResultsCount(w.core.journal, id);
  }

  /** A journaled failure: the entry is not open, then or afterwards. */
  lemma StepFailed(s: Setup, w: World, step: Step, v: World, id: Id)
    requires Sound(s, w) && Coverage.OpenedFor(s, w, id) && Gone(w, id) && Next(s, w, step, v) && Failed(v.core.journal, id)
    ensures id !in v.core.open
  {
    hide Next;
    hide Sound;
    hide Failed;
    ResultSource(s, w, step, v, id);
    if id in v.core.open {
      if id !in w.core.open {
        NewlyOpen(s, w, step, v, id);
        CheckingFresh(s, w, id);
      } else if step == Step.Admit(id) {
        StepFramed(s, w, step, v);
        Coverage.AdmitReserves(s, w, id, v);
      }
    }
  }

  /** The agenda of an entry: at most one event, then what closes it. */
  lemma EntryAgenda(it: Intent, id: Id, l: Local, outs: seq<Out>)
    requires Sane(it, id, l) && l.att != NO_ATTEMPT && l.phase == Some(Finishing(outs)) && !it.emergency
    ensures 1 <= |outs| <= 2 && (|outs| == 2 ==> Concluding(PhaseFor(outs[1..])) == Concluding(Some(Finishing(outs))))
    ensures Concluding(l.phase).Some? ==> l.att.results == 0
    ensures |outs| == 2 && outs[0].Ledger? ==> outs[0].event == EntryReleased(id) || (outs[0].event.EntryConfirmed? && outs[0].event.intentId == id)
    ensures |outs| == 1 ==> PhaseFor(outs[1..]) == None
  {
  }

  lemma ProceedGone(s: Setup, w: World, id: Id, v: World)
    requires Sound(s, w) && !s.cat(id).emergency && Gone(w, id) && Next(s, w, Step.Proceed(id), v)
    ensures OwnFailure(v, id) ==> id !in v.core.open
  {
    hide Sound;
    hide Sane;
    hide Failed;
    WorkingSound(s, w, id);
    var outs := At(w, id).value.outs;
    EntryAgenda(s.cat(id), id, LocalOf(s, w, id), outs);
    if |outs| == 2 {
      LastKept(outs);
    }
  }

  lemma SettleGone(s: Setup, w: World, step: Step, v: World)
    requires !step.Deliver? && (step.Settle? || step.PassGate?) && !s.cat(step.id).emergency && Next(s, w, step, v)
    ensures !OwnFailure(v, step.id)
  {
    if step.Settle? && step.outcome == FINALIZED {
      var outs := RecordOuts(w.core.open, step.id, s.cat(step.id), FINALIZED, step.fill, step.exits);
      assert outs[|outs| - 1] == Result(step.id, s.cat(step.id).key, FINALIZED, COMPLETED, Live, To(COMPLETED));
    }
  }

  lemma RecoverGone(s: Setup, w: World, step: Step, v: World)
    requires step.RecoverOne? && Next(s, w, step, v)
    ensures OwnFailure(v, step.id) ==> step.id !in v.core.open
  {
  }

  lemma VisitGone(s: Setup, w: World, step: Step, v: World)
    requires Sound(s, w) && Listed(w) && step.TickVisit? && Next(s, w, step, v) && !s.cat(w.task.todo[0]).emergency
    ensures OwnFailure(v, w.task.todo[0]) ==> w.task.todo[0] !in v.core.open
  {
    hide Clean;
    hide Txs;
    assert Sane(s.cat(w.task.todo[0]), w.task.todo[0], LocalOf(s, w, w.task.todo[0]));
  }

  /** The other steps of an attempt set no result to be written. */
  lemma OtherGone(s: Setup, w: World, step: Step, v: World)
    requires Next(s, w, step, v) && Actor(w, step).Some?
    requires !step.Settle? && !step.PassGate? && !step.Proceed? && !step.RecoverOne? && !step.TickVisit?
    ensures Concluding(At(v, Actor(w, step).value)).Some? ==> At(v, Actor(w, step).value) == At(w, Actor(w, step).value) && v == w
  {
    hide Admission;
    hide Emit;
    hide Admitted;
    hide Claimed;
  }

  lemma ActorGone(s: Setup, w: World, step: Step, v: World, id: Id)
    requires Sound(s, w) && Listed(w) && Gone(w, id) && Next(s, w, step, v) && Actor(w, step) == Some(id) && !s.cat(id).emergency
    ensures OwnFailure(v, id) ==> id !in v.core.open
  {
    hide *;
    if step.Settle? || step.PassGate? {
      SettlesItself(w, step, id);
      SettleGone(s, w, step, v);
    } else if step.RecoverOne? {
      SettlesItself(w, step, id);
      RecoverGone(s, w, step, v);
    } else if step.Proceed? {
      SettlesItself(w, step, id);
      ProceedGone(s, w, id, v);
    } else if step.TickVisit? {
      SettlesItself(w, step, id);
      VisitGone(s, w, step, v);
    } else {
      OtherGone(s, w, step, v);
      FailureConcludes(w, v, id);
    }
  }

  lemma SettlesItself(w: World, step: Step, id: Id)
    requires Actor(w, step) == Some(id)
    ensures if step.TickVisit? then w.task.Ticking? && w.task.todo != [] && w.task.todo[0] == id
            else (step.Settle? || step.PassGate? || step.RecoverOne? || step.Proceed? ==> step.id == id)
  {
  }

  lemma FailureConcludes(w: World, v: World, id: Id)
    requires Gone(w, id)
    ensures OwnFailure(v, id) ==> Concluding(At(v, id)).Some?
    ensures OwnFailure(w, id) ==> id !in w.core.open
  {
  }

  lemma CrashGone(s: Setup, w: World, v: World, id: Id)
    requires Next(s, w, Step.Crash, v)
    ensures !OwnFailure(v, id)
  {
  }

  lemma SameFailure(w: World, v: World, id: Id)
    requires At(v, id) == At(w, id)
    ensures OwnFailure(v, id) <==> OwnFailure(w, id)
  {
  }

  lemma StepOwnFailure(s: Setup, w: World, step: Step, v: World, id: Id)
    requires Sound(s, w) && Listed(w) && Gone(w, id) && Next(s, w, step, v) && !s.cat(id).emergency && OwnFailure(v, id)
    ensures id !in v.core.open
  {
    hide Next;
    hide Sound;
    hide Listed;
    hide Gone;
    hide OwnFailure;
    if step.Crash? {
      CrashGone(s, w, v, id);
    } else {
      StepFramed(s, w, step, v);
      if Actor(w, step) == Some(id) {
        ActorGone(s, w, step, v, id);
      } else {
        CapRuns.PhaseSame(s, w, v, id);
        SameFailure(w, v, id);
        FailureConcludes(w, v, id);
        if id in v.core.open {
          NewlyOpen(s, w, step, v, id);
        }
      }
    }
  }

  lemma StepGone(s: Setup, w: World, step: Step, v: World, id: Id)
    requires Sound(s, w) && Listed(w) && Coverage.OpenedFor(s, w, id) && Gone(w, id) && Next(s, w, step, v)
    ensures Gone(v, id)
  {
    hide Next;
    hide Sound;
    hide Listed;
    hide Failed;
    Coverage.StepOpened(s, w, step, v, id);
    if id in v.core.open {
      if Failed(v.core.journal, id) {
        StepFailed(s, w, step, v, id);
      }
      if OwnFailure(v, id) {
        StepOwnFailure(s, w, step, v, id);
      }
    }
  }

  lemma StartGone(s: Setup, id: Id)
    ensures Gone(START, id)
  {
  }

  lemma {:induction false} RunGone(s: Setup, run: seq<World>, steps: seq<Step>, n: nat, id: Id)
    requires Run(s, run, steps) && n < |run|
    ensures Gone(run[n], id)
  {
    hide Next;
    hide Sound;
    hide Listed;
    hide Gone;
    if n == 0 {
      StartGone(s, id);
    } else {
      RunGone(s, run, steps, n - 1, id);
      RunSound(s, run, steps, n - 1);
      Coverage.RunOpened(s, run, steps, n - 1, id);
      StepGone(s, run[n - 1], steps[n - 1], run[n], id);
    }
  }

  /** In every world of every run, an entry with a journaled result other than COMPLETED, whoever wrote it, is not open. */
  lemma FailedIsNotOpen(s: Setup, run: seq<World>, steps: seq<Step>, n: nat, i: nat)
    requires Run(s, run, steps) && n < |run| && i < |run[n].core.journal| && run[n].core.journal[i].AttemptResult?
    requires run[n].core.journal[i].lifecycle != COMPLETED
    ensures run[n].core.journal[i].id !in run[n].core.open
  {
    hide Next;
    var id := run[n].core.journal[i].id;
    RunGone(s, run, steps, n, id);
    assert FailedResult(run[n].core.journal[i], id);
  }

  // ---------------------------------------------------------------- completed means final

  lemma FinalStays(s: Setup, w: World, step: Step, v: World, sig: Sig)
    requires Next(s, w, step, v) && StatusOf(w.chain, sig) == Landed(Finalized, true)
    ensures StatusOf(v.chain, sig) == Landed(Finalized, true)
  {
    hide Next;
    if step.Sign? || step.Send? || step.Advance? || step.Land? || step.Promote? || step.Reorg? {
      ChainFinalStays(s, w, step, v, sig);
    } else {
      SameChain(s, w, step, v);
    }
  }

  lemma ChainFinalStays(s: Setup, w: World, step: Step, v: World, sig: Sig)
    requires Next(s, w, step, v) && StatusOf(w.chain, sig) == Landed(Finalized, true)
    requires step.Sign? || step.Send? || step.Advance? || step.Land? || step.Promote? || step.Reorg?
    ensures StatusOf(v.chain, sig) == Landed(Finalized, true)
  {
  }

  /** Concluded, or about to be: its signature no longer changes. */
  lemma ConcludedSigned(s: Setup, w: World, step: Step, v: World, id: Id)
    requires Sound(s, w) && Next(s, w, step, v) && (Completed(w.core.journal, id) || Concluding(At(w, id)).Some?)
    ensures AttemptOf(v.core.journal, id).signed == AttemptOf(w.core.journal, id).signed
  {
    hide Next;
    hide Sound;
    hide Completed;
    Lawful.StepGrows(s, w, step, v);
    if v.core.journal != w.core.journal {
      var r :| v.core.journal == w.core.journal + [r] && Lawful.MayFollow(s, w.core.journal, r);
      AttemptNext(w.core.journal, r, id);
      if r.AttemptSigned? && r.id == id {
        SignWriter(s, w, step, v, r);
        ConcludedBusy(s, w, id);
      }
    }
  }

  lemma SignWriter(s: Setup, w: World, step: Step, v: World, r: Record)
    requires Sound(s, w) && Next(s, w, step, v) && v.core.journal == w.core.journal + [r] && r.AttemptSigned?
    ensures At(w, r.id) == Some(Building)
  {
    hide Next;
    hide Sound;
    if step.Proceed? {
      ProceedNoSign(s, w, step.id, v, r);
    } else if step.Admit? {
      AdmitNoSign(s, w, step.id, v, r);
    } else {
      OtherSigner(s, w, step, v, r);
    }
  }

  lemma ProceedNoSign(s: Setup, w: World, x: Id, v: World, r: Record)
    requires Sound(s, w) && Next(s, w, Step.Proceed(x), v) && v.core.journal == w.core.journal + [r]
    ensures !r.AttemptSigned?
  {
    hide Sound;
    WorkingSound(s, w, x);
    assert v.core.journal[|w.core.journal|] == r;
  }

  lemma AdmitNoSign(s: Setup, w: World, x: Id, v: World, r: Record)
    requires Next(s, w, Step.Admit(x), v) && v.core.journal == w.core.journal + [r]
    ensures !r.AttemptSigned?
  {
    hide Admitted;
    var it := s.cat(x);
    assert v.core.journal[|w.core.journal|] == r;
    if !Admitted(s.g, w.core.open, it, None) {
      Recovery.EmitOne(w.core, it.key, Result(x, it.key, PREPARED, FAILED, Live, To(FAILED)));
    } else if x !in w.core.open {
      Recovery.EmitOne(w.core, it.key, Ledger(Reservation(x, it)));
    }
  }

  lemma OtherSigner(s: Setup, w: World, step: Step, v: World, r: Record)
    requires Next(s, w, step, v) && v.core.journal == w.core.journal + [r] && r.AttemptSigned? && !step.Proceed? && !step.Admit?
    ensures At(w, r.id) == Some(Building)
  {
    assert v.core.journal[|w.core.journal|] == r;
  }

  lemma ConcludedBusy(s: Setup, w: World, id: Id)
    requires Sound(s, w) && (Completed(w.core.journal, id) || Concluding(At(w, id)).Some?)
    ensures At(w, id) != Some(Building)
  {
    hide Clean;
    hide Txs;
    ResultsCount(w.core.journal, id);
    assert Sane(s.cat(id), id, LocalOf(s, w, id));
  }

  lemma FinalTxStays(s: Setup, w: World, step: Step, v: World, id: Id)
    requires Sound(s, w) && Next(s, w, step, v) && FinalTx(w, id) && (Completed(w.core.journal, id) || Concluding(At(w, id)).Some?)
    ensures FinalTx(v, id)
  {
    hide Next;
    hide Sound;
    hide Completed;
    hide Concluding;
    ConcludedSigned(s, w, step, v, id);
    FinalStays(s, w, step, v, AttemptOf(w.core.journal, id).signed.value.sig.value);
  }

  /** Who sets out to write COMPLETED has seen the transaction final. */
  lemma SettleFinal(s: Setup, w: World, step: Step, v: World)
    requires step.Settle? && Sound(s, w) && Next(s, w, step, v) && Concluding(At(v, step.id)) == Some(COMPLETED)
    ensures FinalTx(v, step.id)
  {
    hide Clean;
    hide Txs;
    assert Sane(s.cat(step.id), step.id, LocalOf(s, w, step.id));
  }

  lemma TaskFinal(s: Setup, w: World, step: Step, v: World, id: Id)
    requires Sound(s, w) && Listed(w) && Next(s, w, step, v) && (step.RecoverOne? || step.TickVisit?) && Actor(w, step) == Some(id)
    requires Concluding(At(v, id)) == Some(COMPLETED)
    ensures FinalTx(v, id)
  {
    hide Clean;
    hide Txs;
    assert Sane(s.cat(id), id, LocalOf(s, w, id));
  }

  lemma GateNotFinal(s: Setup, w: World, step: Step, v: World)
    requires step.PassGate? && Next(s, w, step, v)
    ensures Concluding(At(v, step.id)) != Some(COMPLETED)
  {
  }

  lemma {:induction false} LastKept(outs: seq<Out>)
    requires |outs| > 1
    ensures Concluding(Some(Finishing(outs[1..]))) == Concluding(Some(Finishing(outs)))
  {
    assert outs[1..][|outs[1..]| - 1] == outs[|outs| - 1];
  }

  lemma ProceedConcluding(s: Setup, w: World, id: Id, v: World)
    requires Next(s, w, Step.Proceed(id), v)
    ensures Concluding(At(v, id)).Some? ==> Concluding(At(v, id)) == Concluding(At(w, id))
  {
    var outs := At(w, id).value.outs;
    if |outs| > 1 {
      LastKept(outs);
    }
  }

  lemma ActorFinal(s: Setup, w: World, step: Step, v: World, id: Id)
    requires Sound(s, w) && Listed(w) && Next(s, w, step, v) && Actor(w, step) == Some(id) && Concluding(At(v, id)) == Some(COMPLETED)
    ensures FinalTx(v, id) || Concluding(At(w, id)) == Some(COMPLETED)
  {
    hide *;
    SettlesItself(w, step, id);
    if step.Settle? {
      SettleFinal(s, w, step, v);
    } else if step.PassGate? {
      GateNotFinal(s, w, step, v);
    } else if step.Proceed? {
      ProceedConcluding(s, w, id, v);
    } else if step.RecoverOne? || step.TickVisit? {
      TaskFinal(s, w, step, v, id);
    } else {
      OtherGone(s, w, step, v);
    }
  }

  lemma CrashConcludes(s: Setup, w: World, v: World, id: Id)
    requires Next(s, w, Step.Crash, v)
    ensures Concluding(At(v, id)).None?
  {
  }

  lemma StepTrue(s: Setup, w: World, step: Step, v: World, id: Id)
    requires Sound(s, w) && Listed(w) && TrueToChain(w, id) && Next(s, w, step, v)
    ensures TrueToChain(v, id)
  {
    hide Next;
    hide Sound;
    hide Listed;
    hide Completed;
    hide Concluding;
    hide FinalTx;
    ResultSource(s, w, step, v, id);
    if Completed(w.core.journal, id) || Concluding(At(w, id)) == Some(COMPLETED) {
      FinalTxStays(s, w, step, v, id);
    } else if Concluding(At(v, id)) == Some(COMPLETED) {
      if step.Crash? {
        CrashConcludes(s, w, v, id);
      } else {
        StepFramed(s, w, step, v);
        if Actor(w, step) == Some(id) {
          ActorFinal(s, w, step, v, id);
        } else {
          CapRuns.PhaseSame(s, w, v, id);
        }
      }
    }
  }

  lemma StartTrue(s: Setup, id: Id)
    ensures TrueToChain(START, id)
  {
  }

  lemma {:induction false} RunTrue(s: Setup, run: seq<World>, steps: seq<Step>, n: nat, id: Id)
    requires Run(s, run, steps) && n < |run|
    ensures TrueToChain(run[n], id)
  {
    hide Next;
    hide Sound;
    hide Listed;
    hide TrueToChain;
    if n == 0 {
      StartTrue(s, id);
    } else {
      RunTrue(s, run, steps, n - 1, id);
      RunSound(s, run, steps, n - 1);
      StepTrue(s, run[n - 1], steps[n - 1], run[n], id);
    }
  }

  /** In every world of every run, whoever wrote it: a COMPLETED result means that the signature the attempt
      journaled last is final on chain and succeeded. */
  lemma CompletedIsFinal(s: Setup, run: seq<World>, steps: seq<Step>, n: nat, i: nat)
    requires Run(s, run, steps) && n < |run| && i < |run[n].core.journal| && run[n].core.journal[i].AttemptResult?
    requires run[n].core.journal[i].lifecycle == COMPLETED
    ensures FinalTx(run[n], run[n].core.journal[i].id)
  {
    hide Next;
    var id := run[n].core.journal[i].id;
    RunTrue(s, run, steps, n, id);
    assert CompletedResult(run[n].core.journal[i], id);
  }
}
