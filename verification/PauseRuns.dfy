/** How long a pause lasts: whose pauses the tracker lifts, and which emergency pauses stay. */
module PauseRuns {
  import opened Sums
  import opened ExposureLedger
  import opened Records
  import opened Intents
  import opened Protocol
  import opened Caps
  import opened Runs
  import opened Invariants
  import opened Preservation
  import opened Steps
  import ReorgPause

  // ---------------------------------------------------------------- an active pause

  lemma FlowKeepsPause(s: Setup, w: World, step: Step, v: World)
    requires Next(s, w, step, v) && IsFlow(step) && !step.Proceed?
    ensures v.core.pause == w.core.pause && v.task == w.task
  {
    if step.Admit? {
      ReorgPause.AdmitActed(s, w, step, v);
    }
  }

  lemma ProceedKeepsPause(s: Setup, w: World, step: Step, v: World)
    requires Next(s, w, step, v) && step.Proceed?
    ensures (w.core.pause.Active? ==> v.core.pause == w.core.pause) && (v.task == w.task || v.task.Idle?)
  {
  }

  lemma TaskKeepsPause(s: Setup, w: World, step: Step, v: World)
    requires Next(s, w, step, v) && IsTask(step)
    ensures !step.TickRelease? ==> v.core.pause == w.core.pause
    ensures step.TickRelease? ==> w.task.Clearing? && v.core.pause.Inactive? && v.task.Idle?
    ensures v.task.Clearing? ==> w.task.Clearing? || TrackerReason(w.core.pause)
  {
  }

  lemma OuterKeepsPause(s: Setup, w: World, step: Step, v: World)
    requires Sound(s, w) && Next(s, w, step, v) && !IsFlow(step) && !IsTask(step)
    ensures !step.OperatorClear? && w.core.pause.Active? ==> v.core.pause == w.core.pause
    ensures if step.Crash? then v.task.Idle? else v.task == w.task
  {
    hide Attempts;
    hide Txs;
  }

  /** Only an operator or the tracker ends a pause, and the tracker starts ending one only if it is its own. */
  lemma StepKeepsPause(s: Setup, w: World, step: Step, v: World)
    requires Sound(s, w) && Next(s, w, step, v)
    ensures w.core.pause.Active? && !step.OperatorClear? && !step.TickRelease? ==> v.core.pause == w.core.pause
    ensures step.TickRelease? ==> w.task.Clearing? && v.core.pause.Inactive? && v.task.Idle?
    ensures v.task.Clearing? ==> w.task.Clearing? || TrackerReason(w.core.pause)
  {
    hide Sound;
    hide Next;
    if step.Proceed? {
      ProceedKeepsPause(s, w, step, v);
    } else if IsFlow(step) {
      FlowKeepsPause(s, w, step, v);
    } else if IsTask(step) {
      TaskKeepsPause(s, w, step, v);
    } else {
      OuterKeepsPause(s, w, step, v);
    }
  }

  // ---------------------------------------------------------------- whose pause the tracker lifts

  /** Before the n-th world no operator cleared a pause while the tracker was on its way to lift one. */
  ghost predicate ReleaseUndisturbed(run: seq<World>, steps: seq<Step>, n: nat)
    requires n <= |steps| < |run|
  {
    forall i :: 0 <= i < n ==> !(steps[i].OperatorClear? && run[i].task.Clearing?)
  }

  lemma {:induction false} ClearingItsOwn(s: Setup, run: seq<World>, steps: seq<Step>, n: nat)
    requires Run(s, run, steps) && n <= |steps| && ReleaseUndisturbed(run, steps, n)
    ensures run[n].task.Clearing? ==> TrackerReason(run[n].core.pause)
  {
    hide Next;
    hide Sound;
    hide Listed;
    if n > 0 {
      ClearingItsOwn(s, run, steps, n - 1);
      RunSound(s, run, steps, n - 1);
      StepKeepsPause(s, run[n - 1], steps[n - 1], run[n]);
      if steps[n - 1].OperatorClear? {
        ClearedOutside(s, run[n - 1], run[n]);
      }
    }
  }

  lemma ClearedOutside(s: Setup, w: World, v: World)
    requires Next(s, w, Step.OperatorClear, v)
    ensures v.task == w.task
  {
  }

  /** The tracker lifts only a pause of its own, torn crashes and operator clears at any other time included. */
  lemma TrackerLiftsItsOwn(s: Setup, run: seq<World>, steps: seq<Step>, n: nat)
    requires Run(s, run, steps) && n < |steps| && ReleaseUndisturbed(run, steps, n) && steps[n].TickRelease?
    ensures TrackerReason(run[n].core.pause) && run[n + 1].core.pause.Inactive?
  {
    hide Next;
    hide Sound;
    hide Listed;
    ClearingItsOwn(s, run, steps, n);
    RunSound(s, run, steps, n);
    StepKeepsPause(s, run[n], steps[n], run[n + 1]);
  }

  /** An operator clear at that time is a real exception: from any reachable world in which the tracker is
      about to lift its pause, a clear and an emergency pause have the tracker lift the emergency pause. */
  lemma ClearDuringRelease(s: Setup, run: seq<World>, steps: seq<Step>, reason: PauseReason)
      returns (before: World, after: World)
    requires Run(s, run, steps) && run[|steps|].task.Clearing? && (reason.EmergencyCommand? || reason.EmergencyAction?)
    ensures Leads(s, run[|steps|], [Step.OperatorClear, EmergencyPause(reason)] + CustodySteps(run[|steps|].task), before)
    ensures Next(s, before, Step.TickRelease, after)
    ensures before.core.pause == Active(reason) && after.core.pause.Inactive?
  {
    var w := run[|steps|];
    var cleared := w.(core := Cleared(w.core));
    var paused := cleared.(core := Halted(cleared.core, reason));
    assert Next(s, w, Step.OperatorClear, cleared) && Next(s, cleared, EmergencyPause(reason), paused);
    LeadsOne(s, w, Step.OperatorClear, cleared);
    LeadsNext(s, w, [Step.OperatorClear], cleared, EmergencyPause(reason), paused);
    assert [Step.OperatorClear] + [EmergencyPause(reason)] == [Step.OperatorClear, EmergencyPause(reason)];
    before, after := ReleaseFinishes(s, paused);
    LeadsChain(s, w, [Step.OperatorClear, EmergencyPause(reason)], paused, CustodySteps(w.task), before);
  }

  /** What is left of a release before its last step. */
  function CustodySteps(t: Task): seq<Step> {
    if t == Clearing(false) then [TickCustody(true)] else []
  }

  /** From there on the tracker lifts whatever pause is in force. */
  lemma ReleaseFinishes(s: Setup, w: World) returns (before: World, after: World)
    requires w.task.Clearing?
    ensures Leads(s, w, CustodySteps(w.task), before) && Next(s, before, Step.TickRelease, after)
    ensures before.core.pause == w.core.pause && after.core.pause.Inactive?
  {
    before := w;
    if w.task == Clearing(false) {
      before := w.(core := w.core.(journal := w.core.journal + [CustodyReconciled]), task := Clearing(true));
      assert Next(s, w, TickCustody(true), before);
      LeadsOne(s, w, TickCustody(true), before);
    } else {
      LeadsNone(s, w);
    }
    after := before.(core := Cleared(before.core), task := Idle);
  }

  // ---------------------------------------------------------------- which emergency pauses stay

  predicate Uncleared(steps: seq<Step>) {
    forall i :: 0 <= i < |steps| ==> !steps[i].OperatorClear?
  }

  /** A pause that is not the tracker's, with no release under way. */
  predicate Standing(w: World, reason: PauseReason) {
    w.core.pause == Active(reason) && !TrackerReason(w.core.pause) && !w.task.Clearing?
  }

  lemma StepStanding(s: Setup, w: World, step: Step, v: World, reason: PauseReason)
    requires Sound(s, w) && Next(s, w, step, v) && Standing(w, reason) && !step.OperatorClear?
    ensures Standing(v, reason)
  {
    hide Sound;
    hide Next;
    StepKeepsPause(s, w, step, v);
  }

  lemma {:induction false} StandingStays(s: Setup, w: World, steps: seq<Step>, v: World, reason: PauseReason)
    requires Proper(s) && Sound(s, w) && Listed(w) && Standing(w, reason) && Leads(s, w, steps, v) && Uncleared(steps)
    ensures Standing(v, reason)
    decreases |steps|
  {
    hide Next;
    hide Sound;
    hide Listed;
    hide Standing;
    if steps != [] {
      var u: World :| LeadsBy(s, w, steps, u, v);
      StepSound(s, w, steps[0], u);
      StepStanding(s, w, steps[0], u, reason);
      StandingStays(s, u, steps[1..], v, reason);
    }
  }

  lemma PauseArrives(s: Setup, w: World, reason: PauseReason, v: World)
    requires Next(s, w, EmergencyPause(reason), v)
    ensures v.task == w.task && v.work == w.work && v.core.pause.Active? && !TrackerReason(Active(reason))
    ensures v.core.pause == if w.core.pause.Active? then w.core.pause else Active(reason)
    ensures w.core.pause.Active? ==> v == w
  {
  }

  /** An emergency pause that arrives with no pause in force and no release under way stays, with its own
      reason, until an operator clears it: through ticks, doubts, crashes and restarts. */
  lemma EmergencyPauseStays(s: Setup, run: seq<World>, steps: seq<Step>, k: nat, n: nat, reason: PauseReason)
    requires Run(s, run, steps) && k < n <= |steps| && steps[k] == EmergencyPause(reason)
    requires run[k].core.pause.Inactive? && !run[k].task.Clearing?
    requires forall i :: k < i < n ==> !steps[i].OperatorClear?
    ensures run[n].core.pause == Active(reason)
    ensures n < |steps| ==> !steps[n].TickRelease?
  {
    hide Next;
    hide Sound;
    RunStanding(s, run, steps, k, n, reason);
    RunSound(s, run, steps, n);
    if n < |steps| {
      StepKeepsPause(s, run[n], steps[n], run[n + 1]);
    }
  }

  lemma {:induction false} RunStanding(s: Setup, run: seq<World>, steps: seq<Step>, k: nat, n: nat, reason: PauseReason)
    requires Run(s, run, steps) && k < n <= |steps| && steps[k] == EmergencyPause(reason)
    requires run[k].core.pause.Inactive? && !run[k].task.Clearing?
    requires forall i :: k < i < n ==> !steps[i].OperatorClear?
    ensures Standing(run[n], reason)
    decreases n
  {
    hide Next;
    hide Sound;
    hide Listed;
    if n == k + 1 {
      PauseArrives(s, run[k], reason, run[n]);
    } else {
      RunStanding(s, run, steps, k, n - 1, reason);
      RunSound(s, run, steps, n - 1);
      StepStanding(s, run[n - 1], steps[n - 1], run[n], reason);
    }
  }

  // ---------------------------------------------------------------- what was observed was sent

  predicate Observing(phase: Option<Phase>) {
    phase.Some? && phase.value.Finishing? && phase.value.outs != []
    && var last := phase.value.outs[|phase.value.outs| - 1]; last.Line? && last.rec.AttemptObserved?
  }

  ghost predicate SentBy(w: World, a: Attempt) {
    a.signed.Some? && a.signed.value.AttemptSigned? && a.signed.value.sig.Some? && a.signed.value.sig.value in w.chain.txs
    && w.chain.txs[a.signed.value.sig.value].sent
  }

  predicate Observed(a: Attempt, phase: Option<Phase>) {
    a.seen != Unseen || Observing(phase) || (phase.Some? && phase.value.Sent?)
  }

  /** An attempt observed on chain, once or about to be recorded, had been sent. */
  ghost predicate Shown(s: Setup, w: World, id: Id) {
    var a := AttemptOf(w.core.journal, id);
    Observed(a, At(w, id)) ==> SentBy(w, a)
  }

  ghost predicate AllShown(s: Setup, w: World) {
    forall id: Id :: Shown(s, w, id)
  }

  /** What was sent stays sent. */
  lemma SentKept(s: Setup, w: World, step: Step, v: World, a: Attempt)
    requires Next(s, w, step, v) && SentBy(w, a)
    ensures SentBy(v, a)
  {
    hide Next;
    TxsGrow(s, w, step, v);
  }

  lemma TxsGrow(s: Setup, w: World, step: Step, v: World)
    requires Next(s, w, step, v)
    ensures forall sig: Sig :: sig in w.chain.txs ==> sig in v.chain.txs && (w.chain.txs[sig].sent ==> v.chain.txs[sig].sent)
  {
    hide Next;
    if step.Sign? || step.Send? || step.Advance? || step.Land? || step.Promote? || step.Reorg? {
      ChainStepGrows(s, w, step, v);
    } else {
      SameChain(s, w, step, v);
    }
  }

  lemma ChainStepGrows(s: Setup, w: World, step: Step, v: World)
    requires Next(s, w, step, v) && (step.Sign? || step.Send? || step.Advance? || step.Land? || step.Promote? || step.Reorg?)
    ensures forall sig: Sig :: sig in w.chain.txs ==> sig in v.chain.txs && (w.chain.txs[sig].sent ==> v.chain.txs[sig].sent)
  {
  }

  lemma ShownOther(s: Setup, w: World, step: Step, v: World, id: Id)
    requires Next(s, w, step, v) && Shown(s, w, id) && LocalOf(s, v, id) == LocalOf(s, w, id)
    ensures Shown(s, v, id)
  {
    hide Next;
    if SentBy(w, AttemptOf(w.core.journal, id)) {
      SentKept(s, w, step, v, AttemptOf(w.core.journal, id));
    }
  }

  lemma ShownCrash(s: Setup, w: World, v: World, id: Id)
    requires Next(s, w, Step.Crash, v) && Shown(s, w, id)
    ensures Shown(s, v, id)
  {
  }

  lemma RecordLast(open: Open, id: Id, it: Intent, outcome: AttemptState, fill: Option<nat>, exits: seq<Id>)
    requires forall i :: 0 <= i < |exits| ==> exits[i] in open
    ensures Observing(PhaseFor(RecordOuts(open, id, it, outcome, fill, exits))) ==> outcome == CONFIRMED_PROVISIONAL
  {
    var outs := RecordOuts(open, id, it, outcome, fill, exits);
    if outcome == FINALIZED {
      assert outs[|outs| - 1] == Result(id, it.key, FINALIZED, COMPLETED, Live, To(COMPLETED));
    }
  }

  /** A submission or close before its SUBMITTED line has not been observed. */
  lemma ShownEarly(s: Setup, w: World, step: Step, v: World)
    requires Sound(s, w) && Next(s, w, step, v) && Framed(s, w, step, v)
    requires step.Admit? || step.Sign? || step.PassGate? || step.Fallback?
    ensures Shown(s, v, step.id)
  {
    hide Sound;
    hide Sane;
    hide OthersSame;
    hide RecordOuts;
    WorkingSound(s, w, step.id);
    ReorgPause.FlowsNotInDoubt(s.cat(step.id), step.id, LocalOf(s, w, step.id));
    ReorgPause.FlowActed(s, w, step, v);
    RecordLast(w.core.open, step.id, s.cat(step.id), SIGNED_NOT_SUBMITTED, None, []);
  }

  lemma ShownClaim(s: Setup, w: World, step: Step, v: World)
    requires (step.Deliver? || step.EmergencyClose?) && Sound(s, w) && Shown(s, w, step.id) && Next(s, w, step, v) && Framed(s, w, step, v)
    ensures Shown(s, v, step.id)
  {
    hide Sound;
    hide OthersSame;
  }

  lemma ShownSend(s: Setup, w: World, step: Step, v: World)
    requires Sound(s, w) && Next(s, w, step, v) && Framed(s, w, step, v) && step.Send?
    ensures Shown(s, v, step.id)
  {
    hide Clean;
    hide Txs;
    hide OthersSame;
    assert Sane(s.cat(step.id), step.id, LocalOf(s, w, step.id));
  }

  lemma ShownSettle(s: Setup, w: World, step: Step, v: World)
    requires step.Settle? && Sound(s, w) && Shown(s, w, step.id) && Next(s, w, step, v) && Framed(s, w, step, v)
    ensures Shown(s, v, step.id)
  {
    hide Sound;
    hide OthersSame;
    hide RecordOuts;
    RecordLast(w.core.open, step.id, s.cat(step.id), step.outcome, step.fill, step.exits);
  }

  lemma ShownThrow(s: Setup, w: World, step: Step, v: World)
    requires step.Throw? && Shown(s, w, step.id) && Next(s, w, step, v) && Framed(s, w, step, v)
    ensures Shown(s, v, step.id)
  {
    hide OthersSame;
  }

  lemma ProceedObserved(it: Intent, id: Id, l: Local, outs: seq<Out>)
    requires Sane(it, id, l) && l.att != NO_ATTEMPT && l.phase == Some(Finishing(outs))
    ensures outs != []
    ensures var m := LocalEmit(l, id, outs[0], PhaseFor(outs[1..]));
            m.att.signed == l.att.signed && (Observed(m.att, m.phase) ==> Observed(l.att, l.phase))
  {
    if |outs| > 1 {
      assert outs[1..][|outs[1..]| - 1] == outs[|outs| - 1];
    }
  }

  lemma ShownProceed(s: Setup, w: World, step: Step, v: World)
    requires step.Proceed? && Sound(s, w) && Shown(s, w, step.id) && Next(s, w, step, v) && Framed(s, w, step, v)
    ensures Shown(s, v, step.id)
  {
    hide Sound;
    hide Sane;
    hide OthersSame;
    hide LocalEmit;
    hide Observed;
    WorkingSound(s, w, step.id);
    ProceedObserved(s.cat(step.id), step.id, LocalOf(s, w, step.id), At(w, step.id).value.outs);
    ObservedDropped(AttemptOf(w.core.journal, step.id), At(w, step.id));
  }

  lemma ObservedDropped(a: Attempt, phase: Option<Phase>)
    ensures Observed(a, None) ==> Observed(a, phase)
  {
  }

  lemma RecoverLast(w: World, id: Id, now: int)
    ensures !Observing(PhaseFor(RecoverOuts(w, id, now)))
  {
  }

  lemma ShownRecover(s: Setup, w: World, step: Step, v: World)
    requires step.RecoverOne? && Shown(s, w, step.id) && Next(s, w, step, v) && Framed(s, w, step, v)
    ensures Shown(s, v, step.id)
  {
    hide OthersSame;
    RecoverLast(w, step.id, step.now);
  }

  lemma TickLast(open: Open, id: Id, a: Attempt, sig: Sig, q: Quorum, exits: seq<Id>)
    requires forall i :: 0 <= i < |exits| ==> exits[i] in open
    ensures Observing(PhaseFor(TickOuts(open, id, a, sig, q, exits))) ==> q.QConfirmed?
  {
    var outs := TickOuts(open, id, a, sig, q, exits);
    if q.QFinalized? {
      assert outs[|outs| - 1] == Result(id, KeyOf(a), FINALIZED, COMPLETED, Tracked, IfExecuting(COMPLETED));
    }
  }

  lemma ShownVisit(s: Setup, w: World, step: Step, v: World)
    requires Sound(s, w) && Listed(w) && Next(s, w, step, v) && Framed(s, w, step, v) && step.TickVisit? && Actor(w, step).Some?
    requires Shown(s, w, w.task.todo[0])
    ensures Shown(s, v, w.task.todo[0])
  {
    hide Clean;
    hide Txs;
    hide OthersSame;
    hide TickOuts;
    var id := w.task.todo[0];
    var a := AttemptOf(w.core.journal, id);
    assert Sane(s.cat(id), id, LocalOf(s, w, id));
    if SignatureOf(a).Some? && a.signed.Some? {
      TickLast(w.core.open, id, a, SignatureOf(a).value, step.q, step.exits);
    }
  }

  lemma ShownActor(s: Setup, w: World, step: Step, v: World)
    requires Sound(s, w) && Listed(w) && Next(s, w, step, v) && Framed(s, w, step, v) && Actor(w, step).Some? && Shown(s, w, Actor(w, step).value)
    ensures Shown(s, v, Actor(w, step).value)
  {
    hide *;
    if step.Admit? || step.Sign? || step.PassGate? || step.Fallback? {
      ActorIs(w, step);
      ShownEarly(s, w, step, v);
    } else if step.TickVisit? {
      VisitActs(w, step);
      ShownVisit(s, w, step, v);
    } else {
      ActorIs(w, step);
      if step.Deliver? || step.EmergencyClose? {
        ShownClaim(s, w, step, v);
      } else if step.Send? {
        ShownSend(s, w, step, v);
      } else if step.Settle? {
        ShownSettle(s, w, step, v);
      } else if step.Throw? {
        ShownThrow(s, w, step, v);
      } else if step.Proceed? {
        ShownProceed(s, w, step, v);
      } else {
        ShownRecover(s, w, step, v);
      }
    }
  }

  lemma ActorIs(w: World, step: Step)
    requires Actor(w, step).Some? && !step.TickVisit?
    ensures step.Deliver? || step.Admit? || step.Sign? || step.PassGate? || step.Send? || step.Settle? || step.EmergencyClose?
            || step.Fallback? || step.Throw? || step.Proceed? || step.RecoverOne?
    ensures Actor(w, step) == Some(step.id)
  {
  }

  lemma VisitActs(w: World, step: Step)
    requires Actor(w, step).Some? && step.TickVisit?
    ensures w.task.Ticking? && w.task.todo != [] && Actor(w, step) == Some(w.task.todo[0])
  {
  }

  lemma StepShown(s: Setup, w: World, step: Step, v: World)
    requires Sound(s, w) && Listed(w) && AllShown(s, w) && Next(s, w, step, v)
    ensures AllShown(s, v)
  {
    hide Next;
    hide Sound;
    hide Listed;
    hide Shown;
    if step.Crash? {
      forall x: Id ensures Shown(s, v, x) {
        ShownCrash(s, w, v, x);
      }
    } else {
      StepFramed(s, w, step, v);
      if Actor(w, step).Some? {
        ShownActor(s, w, step, v);
      }
      forall x: Id ensures Shown(s, v, x) {
        if Actor(w, step) != Some(x) {
          assert LocalOf(s, v, x) == LocalOf(s, w, x);
          ShownOther(s, w, step, v, x);
        }
      }
    }
  }

  lemma StartShown(s: Setup)
    ensures AllShown(s, START)
  {
  }

  lemma {:induction false} RunShown(s: Setup, run: seq<World>, steps: seq<Step>, n: nat)
    requires Run(s, run, steps) && n < |run|
    ensures AllShown(s, run[n])
  {
    hide Next;
    hide Sound;
    hide Listed;
    hide AllShown;
    if n == 0 {
      StartShown(s);
    } else {
      RunShown(s, run, steps, n - 1);
      RunSound(s, run, steps, n - 1);
      StepShown(s, run[n - 1], steps[n - 1], run[n]);
    }
  }

  // ---------------------------------------------------------------- a tick that leaves nothing uncertain

  /** The middle of an untroubled tick. */
  ghost predicate Untroubled(s: Setup, w: World) {
    && Sound(s, w) && Listed(w) && AllShown(s, w)
    && w.work == map[] && w.task.Ticking? && !w.task.uncertain
  }

  /** An attempt in doubt is seen confirmed again, and any other cannot be reached. */
  function Verdict(a: Attempt): Quorum {
    if a.seen.SeenReorg? then QConfirmed else QUnavailable
  }

  ghost function Visited(s: Setup, w: World): World
    requires w.task.Ticking? && w.task.todo != []
  {
    var id := w.task.todo[0];
    var a := AttemptOf(w.core.journal, id);
    if SignatureOf(a).None? || a.signed.None? then w.(task := w.task.(todo := w.task.todo[1..]))
    else w.(work := Busy(w.work, id, TickOuts(w.core.open, id, a, SignatureOf(a).value, Verdict(a), [])),
            task := Ticking(w.task.todo[1..], Some(id), w.task.uncertain || LeavesUncertain(a, Verdict(a))))
  }

  lemma VisitEnabled(s: Setup, w: World)
    requires Untroubled(s, w) && w.task.todo != []
    ensures Next(s, w, TickVisit(Verdict(AttemptOf(w.core.journal, w.task.todo[0])), []), Visited(s, w))
  {
    hide Clean;
    hide Txs;
    var id := w.task.todo[0];
    assert Sane(s.cat(id), id, LocalOf(s, w, id)) && Shown(s, w, id);
  }

  /** What such a visit leaves to write. */
  lemma VisitAgenda(s: Setup, w: World)
    requires w.work == map[] && w.task.Ticking? && !w.task.uncertain && w.task.todo != []
    ensures var id := w.task.todo[0]; var v := Visited(s, w);
            && v.core == w.core && v.task.Ticking? && !v.task.uncertain && v.task.todo == w.task.todo[1..]
            && (v.work == map[] || exists outs :: v.work == map[id := Finishing(outs)] && Mild(w.core.open, id, outs))
  {
    var id := w.task.todo[0];
    var a := AttemptOf(w.core.journal, id);
    if SignatureOf(a).Some? && a.signed.Some? {
      var outs := TickOuts(w.core.open, id, a, SignatureOf(a).value, Verdict(a), []);
      if a.seen.SeenReorg? {
        assert Mild(w.core.open, id, outs);
        assert Visited(s, w).work == map[id := Finishing(outs)];
      } else {
        assert outs == [] && w.work - {id} == w.work;
      }
    }
  }

  /** At most one confirmation of an open entry, then a line. */
  predicate Mild(open: Open, id: Id, outs: seq<Out>) {
    outs != [] && outs[|outs| - 1].Line? && |outs| <= 2
    && (|outs| == 2 ==> outs[0].Ledger? && outs[0].event.EntryConfirmed? && outs[0].event.intentId == id && id in open)
  }

  lemma WriteOne(s: Setup, w: World, id: Id, outs: seq<Out>) returns (v: World)
    requires w.work == map[id := Finishing(outs)] && Mild(w.core.open, id, outs)
    ensures Next(s, w, Proceed(id), v) && v.task == w.task && v.chain == w.chain && v.core.pause == w.core.pause
    ensures if |outs| == 1 then v.work == map[] else v.work == map[id := Finishing(outs[1..])] && Mild(v.core.open, id, outs[1..])
  {
    v := w.(core := Emit(w.core, s.cat(id).key, outs[0]), work := Busy(w.work, id, outs[1..]));
  }

  lemma WriteMild(s: Setup, w: World, id: Id, outs: seq<Out>) returns (steps: seq<Step>, v: World)
    requires w.work == map[id := Finishing(outs)] && Mild(w.core.open, id, outs)
    ensures Leads(s, w, steps, v) && Uncleared(steps) && v.task == w.task && v.core.pause == w.core.pause && v.work == map[]
  {
    hide Next;
    v := WriteOne(s, w, id, outs);
    LeadsOne(s, w, Proceed(id), v);
    steps := [Proceed(id)];
    if |outs| == 2 {
      var u := v;
      v := WriteOne(s, u, id, outs[1..]);
      LeadsNext(s, w, steps, u, Proceed(id), v);
      steps := steps + [Proceed(id)];
    }
  }

  lemma {:induction false} InvariantAlong(s: Setup, w: World, steps: seq<Step>, v: World)
    requires Proper(s) && Sound(s, w) && Listed(w) && AllShown(s, w) && Leads(s, w, steps, v)
    ensures Sound(s, v) && Listed(v) && AllShown(s, v)
    decreases |steps|
  {
    hide Next;
    hide Sound;
    hide Listed;
    hide AllShown;
    if steps != [] {
      var u: World :| LeadsBy(s, w, steps, u, v);
      StepSound(s, w, steps[0], u);
      StepShown(s, w, steps[0], u);
      InvariantAlong(s, u, steps[1..], v);
    }
  }

  /** One attempt visited, and what the visit decided written. */
  lemma VisitOne(s: Setup, w: World) returns (steps: seq<Step>, v: World)
    requires Proper(s) && Untroubled(s, w) && w.task.todo != []
    ensures Leads(s, w, steps, v) && Uncleared(steps) && Untroubled(s, v)
    ensures v.task.todo == w.task.todo[1..] && v.core.pause == w.core.pause
  {
    hide Next;
    hide Sound;
    hide Listed;
    hide AllShown;
    hide Mild;
    hide Visited;
    var step := TickVisit(Verdict(AttemptOf(w.core.journal, w.task.todo[0])), []);
    var u := Visited(s, w);
    VisitEnabled(s, w);
    VisitAgenda(s, w);
    LeadsOne(s, w, step, u);
    steps, v := [step], u;
    if u.work != map[] {
      var id := w.task.todo[0];
      var outs :| u.work == map[id := Finishing(outs)] && Mild(w.core.open, id, outs);
      var more;
      more, v := WriteMild(s, u, id, outs);
      LeadsChain(s, w, [step], u, more, v);
      steps := [step] + more;
    }
    InvariantAlong(s, w, steps, v);
  }

  lemma {:induction false} VisitAll(s: Setup, w: World) returns (steps: seq<Step>, v: World)
    requires Proper(s) && Untroubled(s, w)
    ensures Leads(s, w, steps, v) && Uncleared(steps) && Untroubled(s, v) && v.task.todo == [] && v.core.pause == w.core.pause
    decreases |w.task.todo|
  {
    hide Next;
    hide Untroubled;
    assert w.task.Ticking? by { AreTicking(s, w); }
    if w.task.todo == [] {
      steps, v := [], w;
      LeadsNone(s, w);
    } else {
      var u, more;
      steps, u := VisitOne(s, w);
      AreTicking(s, u);
      more, v := VisitAll(s, u);
      LeadsChain(s, w, steps, u, more, v);
      steps := steps + more;
    }
  }

  lemma AreTicking(s: Setup, w: World)
    requires Untroubled(s, w)
    ensures w.task.Ticking? && w.work == map[] && !w.task.uncertain
  {
  }

  /** After a restart, a tick begins. */
  lemma RestartTicks(s: Setup, w: World) returns (v: World)
    requires Proper(s) && Sound(s, w) && Listed(w) && AllShown(s, w)
    ensures Leads(s, w, [Crash, TickStart], v) && Untroubled(s, v) && v.core.pause == w.core.pause
  {
    var u := CrashEnabled(s, w);
    v := u.(task := Ticking(AtRest(UnresolvedIds(u.core.journal), u.work), None, false));
    assert Next(s, u, TickStart, v);
    hide Next;
    LeadsOne(s, w, Crash, u);
    LeadsNext(s, w, [Crash], u, TickStart, v);
    assert [Crash] + [TickStart] == [Crash, TickStart];
    InvariantAlong(s, w, [Crash, TickStart], v);
  }

  lemma CrashEnabled(s: Setup, w: World) returns (v: World)
    requires Sound(s, w)
    ensures Next(s, w, Crash, v) && v.core.pause == w.core.pause && v.work == map[] && v.task.Idle?
  {
    hide Attempts;
    hide Txs;
    v := w.(core := Restart(w.core), work := map[], task := Idle);
  }

  lemma TickEnds(s: Setup, w: World) returns (v: World)
    requires Untroubled(s, w) && w.task.todo == [] && TrackerReason(w.core.pause)
    ensures Next(s, w, TickEnd, v) && v.task == Clearing(false)
  {
    v := w.(task := Clearing(false));
  }

  /** From every reachable world the tracker may come to lift a pause of its own, with no help from an operator. */
  lemma TrackerMayLift(s: Setup, w: World) returns (steps: seq<Step>, v: World)
    requires Proper(s) && Sound(s, w) && Listed(w) && AllShown(s, w) && TrackerReason(w.core.pause)
    ensures Leads(s, w, steps, v) && Uncleared(steps) && v.core.pause.Inactive?
  {
    hide Next;
    hide Untroubled;
    hide Sound;
    hide Listed;
    hide AllShown;
    var ticking := RestartTicks(s, w);
    var visits, done := VisitAll(s, ticking);
    LeadsChain(s, w, [Crash, TickStart], ticking, visits, done);
    AreTicking(s, done);
    var clearing := TickEnds(s, done);
    LeadsNext(s, w, [Crash, TickStart] + visits, done, TickEnd, clearing);
    var before;
    before, v := ReleaseFinishes(s, clearing);
    LeadsChain(s, w, [Crash, TickStart] + visits + [TickEnd], clearing, CustodySteps(clearing.task), before);
    steps := [Crash, TickStart] + visits + [TickEnd] + CustodySteps(clearing.task);
    LeadsNext(s, w, steps, before, TickRelease, v);
    steps := steps + [TickRelease];
  }

  // ---------------------------------------------------------------- exactly which emergency pauses stay

  ghost predicate MayBeLifted(s: Setup, w: World) {
    exists steps: seq<Step>, v: World :: Leads(s, w, steps, v) && Uncleared(steps) && v.core.pause.Inactive?
  }

  /** An emergency pause arrives, at any point of any run.  Without an operator the executor may come to be
      unpaused again if and only if the pause found a tracker's pause in force, which swallowed it, or the
      tracker on its way to lift one. */
  lemma EmergencyPauseHoldsExactly(s: Setup, run: seq<World>, steps: seq<Step>, reason: PauseReason, v: World)
    requires Run(s, run, steps) && Next(s, run[|steps|], EmergencyPause(reason), v)
    ensures var w := run[|steps|]; MayBeLifted(s, v) <==> TrackerReason(w.core.pause) || w.task.Clearing?
    ensures TrackerReason(run[|steps|].core.pause) ==> v == run[|steps|]
  {
    hide Next;
    hide Sound;
    hide Listed;
    hide AllShown;
    var w := run[|steps|];
    RunSound(s, run, steps, |steps|);
    RunShown(s, run, steps, |steps|);
    PauseArrives(s, w, reason, v);
    StepSound(s, w, EmergencyPause(reason), v);
    if w.task.Clearing? {
      var before, after := ReleaseFinishes(s, v);
      LeadsNext(s, v, CustodySteps(v.task), before, TickRelease, after);
    } else if TrackerReason(w.core.pause) {
      var more, u := TrackerMayLift(s, w);
    } else {
      forall more: seq<Step>, u: World | Leads(s, v, more, u) && Uncleared(more) ensures u.core.pause.Active? {
        StandingStays(s, v, more, u, v.core.pause.reason);
      }
    }
  }
}
