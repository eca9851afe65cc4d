/** A confirmed transaction in doubt keeps the executor paused, and the tracker lifts only its own pauses. */
module ReorgPause {
  import opened Sums
  import opened ExposureLedger
  import opened Records
  import opened Intents
  import opened Protocol
  import opened Caps
  import opened Authority
  import opened Runs
  import opened Invariants
  import opened Preservation
  import opened Steps
  import Recovery

  /** The attempt is REORG_PENDING: unresolved, and last seen missing or contradicted. */
  predicate Doubt(a: Attempt) {
    Unresolved(a) && a.seen.SeenReorg?
  }

  /** A pause is the next thing the flow writes. */
  predicate HaltNext(phase: Option<Phase>) {
    phase.Some? && phase.value.Finishing? && |phase.value.outs| == 1 && phase.value.outs[0].Halt?
  }

  predicate HaltLast(phase: Option<Phase>) {
    phase.Some? && phase.value.Finishing? && phase.value.outs != [] && phase.value.outs[|phase.value.outs| - 1].Halt?
  }

  /** A crash between the attempt's REORG_PENDING and its PAUSE_APPLIED, with no pause in force. */
  ghost predicate Torn(w: World, step: Step, id: Id) {
    step.Crash? && w.core.pause.Inactive? && Doubt(AttemptOf(w.core.journal, id)) && HaltNext(At(w, id))
  }

  /** An operator clears a pause while the attempt is in doubt. */
  ghost predicate Uncovers(w: World, step: Step, id: Id) {
    step.OperatorClear? && Doubt(AttemptOf(w.core.journal, id))
  }

  predicate Uncertain(t: Task, id: Id) {
    t.Ticking? && t.current == Some(id) && t.uncertain
  }

  /** A doubt has its pause if it is watched; and the tracker knows of every doubt. */
  ghost predicate PausedFor(s: Setup, w: World, id: Id, watched: set<Id>) {
    var l := LocalOf(s, w, id);
    && (Doubt(l.att) ==> id !in watched || w.core.pause.Active? || HaltNext(l.phase))
    && (HaltLast(l.phase) ==> Uncertain(w.task, id))
    && (Doubt(l.att) && l.phase.Some? ==> Holder(w.task) == Some(id))
    && (Doubt(l.att) && w.task.Ticking? ==> id in w.task.todo || w.task.uncertain || (w.task.current == Some(id) && l.phase.Some?))
    && (Doubt(l.att) ==> !w.task.Clearing?)
  }

  ghost predicate Paused(s: Setup, w: World, watched: set<Id>) {
    forall id: Id :: PausedFor(s, w, id, watched)
  }

  // ---------------------------------------------------------------- who can be in doubt

  /** Nothing in doubt is being submitted. */
  lemma FlowsNotInDoubt(it: Intent, id: Id, l: Local)
    requires Sane(it, id, l) && l.phase.Some? && !l.phase.value.Finishing?
    ensures l.att.seen == Unseen
  {
  }

  /** A step of a submission or a close: its attempt is not in doubt afterwards, and owes no pause. */
  lemma FlowActor(s: Setup, w: World, step: Step, v: World)
    requires Sound(s, w) && Next(s, w, step, v) && IsFlow(step) && !step.Proceed? && v != w
    ensures var id := Actor(w, step).value; var l := Acted(s, w, step, v);
            v.task == w.task && w.core.pause == v.core.pause && !Doubt(l.att) && !HaltLast(l.phase)
  {
    hide Sound;
    hide Sane;
    if step.Deliver? || step.EmergencyClose? {
      Unclaimed(s, w, step.id);
    } else {
      WorkingSound(s, w, step.id);
      FlowsNotInDoubt(s.cat(step.id), step.id, LocalOf(s, w, step.id));
    }
    FlowActed(s, w, step, v);
  }

  lemma FlowActed(s: Setup, w: World, step: Step, v: World)
    requires Next(s, w, step, v) && IsFlow(step) && !step.Proceed? && v != w
    requires (step.Deliver? || step.EmergencyClose?) || AttemptOf(w.core.journal, step.id).seen == Unseen
    ensures v.task == w.task && w.core.pause == v.core.pause
    ensures var l := Acted(s, w, step, v); l.att.seen == Unseen && !HaltLast(l.phase)
  {
    if step.Admit? {
      AdmitActed(s, w, step, v);
    }
  }

  lemma AdmitActed(s: Setup, w: World, step: Step, v: World)
    requires Next(s, w, step, v) && step.Admit?
    ensures v.core.pause == w.core.pause
  {
    var it := s.cat(step.id);
    if !Admitted(s.g, w.core.open, it, None) {
      Recovery.EmitOne(w.core, it.key, Result(step.id, it.key, PREPARED, FAILED, Live, To(FAILED)));
    } else if step.id !in w.core.open {
      Recovery.EmitOne(w.core, it.key, Ledger(Reservation(step.id, it)));
    }
  }

  lemma OtherPaused(s: Setup, w: World, v: World, x: Id, watched: set<Id>)
    requires PausedFor(s, w, x, watched) && LocalOf(s, v, x) == LocalOf(s, w, x) && v.task == w.task
    requires x !in watched || (w.core.pause.Active? ==> v.core.pause.Active?) || !Doubt(AttemptOf(w.core.journal, x))
    ensures PausedFor(s, v, x, watched)
  {
  }

  lemma FlowPaused(s: Setup, w: World, step: Step, v: World, watched: set<Id>)
    requires Sound(s, w) && Paused(s, w, watched) && Next(s, w, step, v) && IsFlow(step) && !step.Proceed?
    ensures Paused(s, v, watched)
  {
    hide Sound;
    hide Next;
    hide PausedFor;
    if v != w {
      StepFramed(s, w, step, v);
      FlowActor(s, w, step, v);
      forall x: Id ensures PausedFor(s, v, x, watched) {
        FlowPausedAt(s, w, step, v, x, watched);
      }
    }
  }

  lemma FlowPausedAt(s: Setup, w: World, step: Step, v: World, x: Id, watched: set<Id>)
    requires Next(s, w, step, v) && IsFlow(step) && Framed(s, w, step, v) && Actor(w, step).Some? && PausedFor(s, w, x, watched)
    requires var l := Acted(s, w, step, v); v.task == w.task && w.core.pause == v.core.pause && !Doubt(l.att) && !HaltLast(l.phase)
    ensures PausedFor(s, v, x, watched)
  {
    hide Next;
    hide Acted;
    if x != Actor(w, step).value {
      assert LocalOf(s, v, x) == LocalOf(s, w, x);
      OtherPaused(s, w, v, x, watched);
    }
  }

  // ---------------------------------------------------------------- writing an agenda

  /** The shapes of an agenda, as far as doubt is concerned. */
  lemma AgendaShapes(it: Intent, id: Id, l: Local, outs: seq<Out>)
    requires Sane(it, id, l) && l.att != NO_ATTEMPT && l.phase == Some(Finishing(outs))
    ensures outs != []
    ensures outs[0].Ledger? ==> |outs| > 1
    ensures outs[0].Line? && |outs| == 1 ==> (outs[0].rec.AttemptResult? || outs[0].rec.AttemptObserved?)
    ensures outs[0].Line? && |outs| > 1 ==> |outs| == 2 && outs[0].rec.AttemptReorgPending? && outs[1].Halt?
    ensures outs[0].Halt? ==> |outs| == 1
    ensures l.att.results == 0
  {
  }

  /** What writing the next output does to doubt. */
  lemma ProceedDoubt(it: Intent, id: Id, l: Local, outs: seq<Out>)
    requires Sane(it, id, l) && l.att != NO_ATTEMPT && l.phase == Some(Finishing(outs))
    ensures outs != []
    ensures var m := LocalEmit(l, id, outs[0], PhaseFor(outs[1..]));
            && (outs[0].Halt? ==> m.phase.None? && m.att == l.att && HaltLast(l.phase))
            && (outs[0].Ledger? ==> (Doubt(m.att) <==> Doubt(l.att)) && m.phase.Some? && !HaltNext(l.phase) && (HaltLast(m.phase) ==> HaltLast(l.phase)))
            && (outs[0].Line? && m.phase.None? ==> !Doubt(m.att))
            && (outs[0].Line? && m.phase.Some? ==> HaltNext(m.phase) && HaltLast(l.phase))
  {
    AgendaShapes(it, id, l, outs);
    if |outs| > 1 {
      assert outs[1..][|outs[1..]| - 1] == outs[|outs| - 1];
    }
  }

  lemma ProceedKept(s: Setup, w: World, id: Id, v: World)
    requires Next(s, w, Step.Proceed(id), v) && CanEmit(w.core, At(w, id).value.outs[0])
    ensures v.task == w.task
    ensures if At(w, id).value.outs[0].Halt? then v.core.pause.Active? else v.core.pause == w.core.pause
    ensures w.core.pause.Active? ==> v.core.pause == w.core.pause
  {
  }

  lemma ProceedDropped(s: Setup, w: World, id: Id, v: World)
    requires Next(s, w, Step.Proceed(id), v) && !CanEmit(w.core, At(w, id).value.outs[0])
    ensures v.core == w.core && v.task == (if Holder(w.task) == Some(id) then Idle else w.task) && At(v, id).None?
  {
  }

  lemma ProceedActor(s: Setup, w: World, id: Id, v: World, watched: set<Id>)
    requires Sound(s, w) && PausedFor(s, w, id, watched) && Next(s, w, Step.Proceed(id), v) && Framed(s, w, Step.Proceed(id), v)
    ensures PausedFor(s, v, id, watched) && (w.core.pause.Active? ==> v.core.pause == w.core.pause)
  {
    hide Sound;
    hide Sane;
    hide OthersSame;
    hide LocalEmit;
    hide HaltNext;
    hide HaltLast;
    WorkingSound(s, w, id);
    var outs := At(w, id).value.outs;
    ProceedDoubt(s.cat(id), id, LocalOf(s, w, id), outs);
    NoHalt(At(v, id));
    if CanEmit(w.core, outs[0]) {
      ProceedKept(s, w, id, v);
    } else {
      ProceedDropped(s, w, id, v);
      LedgerFirst(LocalOf(s, w, id).phase);
    }
  }

  lemma NoHalt(phase: Option<Phase>)
    ensures phase.None? ==> !HaltNext(phase) && !HaltLast(phase)
  {
  }

  lemma LedgerFirst(phase: Option<Phase>)
    ensures phase.Some? && phase.value.Finishing? && phase.value.outs != [] && phase.value.outs[0].Ledger? ==> !HaltNext(phase)
  {
  }

  lemma ProceedOther(s: Setup, w: World, id: Id, v: World, x: Id, watched: set<Id>)
    requires PausedFor(s, w, x, watched) && Next(s, w, Step.Proceed(id), v) && Framed(s, w, Step.Proceed(id), v) && x != id
    requires w.core.pause.Active? ==> v.core.pause == w.core.pause
    requires forall y: Id :: PausedFor(s, w, y, watched)
    ensures PausedFor(s, v, x, watched)
  {
    assert LocalOf(s, v, x) == LocalOf(s, w, x);
    if v.task == w.task {
      OtherPaused(s, w, v, x, watched);
    }
  }

  lemma ProceedPaused(s: Setup, w: World, id: Id, v: World, watched: set<Id>)
    requires Sound(s, w) && Paused(s, w, watched) && Next(s, w, Step.Proceed(id), v)
    ensures Paused(s, v, watched)
  {
    hide Sound;
    hide PausedFor;
    StepFramed(s, w, Step.Proceed(id), v);
    ProceedActor(s, w, id, v, watched);
    forall x: Id ensures PausedFor(s, v, x, watched) {
      if x != id {
        ProceedOther(s, w, id, v, x, watched);
      }
    }
  }

  // ---------------------------------------------------------------- recovery and the tracker

  lemma RecoverNoHalt(w: World, id: Id, now: int)
    ensures RecoverOuts(w, id, now) != [] ==> !RecoverOuts(w, id, now)[|RecoverOuts(w, id, now)| - 1].Halt?
  {
  }

  lemma RecoverPaused(s: Setup, w: World, id: Id, now: int, v: World, watched: set<Id>)
    requires Paused(s, w, watched) && Next(s, w, RecoverOne(id, now), v)
    ensures Paused(s, v, watched)
  {
    RecoverNoHalt(w, id, now);
    PhaseOthers(s, w, id, At(v, id), v);
    forall x: Id ensures PausedFor(s, v, x, watched) {
      assert PausedFor(s, w, x, watched);
    }
  }

  /** What a visit decides, and whether it leaves the tracker uncertain. */
  lemma VisitDoubt(open: Open, id: Id, a: Attempt, sig: Sig, q: Quorum, exits: seq<Id>)
    requires forall i :: 0 <= i < |exits| ==> exits[i] in open
    ensures var outs := TickOuts(open, id, a, sig, q, exits);
            && (a.seen.SeenReorg? ==> outs != [] || LeavesUncertain(a, q))
            && (outs != [] && outs[|outs| - 1].Halt? ==> LeavesUncertain(a, q))
  {
    if q.QFinalized? {
      var outs := TickOuts(open, id, a, sig, q, exits);
      assert outs[|outs| - 1] == Result(id, KeyOf(a), FINALIZED, COMPLETED, Tracked, IfExecuting(COMPLETED));
    }
  }

  lemma VisitActor(s: Setup, w: World, q: Quorum, exits: seq<Id>, v: World, watched: set<Id>)
    requires Sound(s, w) && Listed(w) && Paused(s, w, watched) && Next(s, w, TickVisit(q, exits), v)
    ensures PausedFor(s, v, w.task.todo[0], watched)
  {
    hide Clean;
    hide Txs;
    var id := w.task.todo[0];
    var a := AttemptOf(w.core.journal, id);
    assert Sane(s.cat(id), id, LocalOf(s, w, id));
    assert PausedFor(s, w, id, watched);
    PhaseOthers(s, w, id, At(v, id), v);
    if SignatureOf(a).Some? && a.signed.Some? {
      VisitDoubt(w.core.open, id, a, SignatureOf(a).value, q, exits);
    }
  }

  lemma VisitOther(s: Setup, w: World, q: Quorum, exits: seq<Id>, v: World, x: Id, watched: set<Id>)
    requires Listed(w) && PausedFor(s, w, x, watched) && Next(s, w, TickVisit(q, exits), v) && x != w.task.todo[0]
    ensures PausedFor(s, v, x, watched)
  {
    PhaseOthers(s, w, w.task.todo[0], At(v, w.task.todo[0]), v);
    assert LocalOf(s, v, x) == LocalOf(s, w, x);
    Recovery.RestMembers(w.task.todo, x);
  }

  lemma VisitPaused(s: Setup, w: World, q: Quorum, exits: seq<Id>, v: World, watched: set<Id>)
    requires Sound(s, w) && Listed(w) && Paused(s, w, watched) && Next(s, w, TickVisit(q, exits), v)
    ensures Paused(s, v, watched)
  {
    hide Sound;
    hide Listed;
    hide PausedFor;
    VisitActor(s, w, q, exits, v, watched);
    forall x: Id ensures PausedFor(s, v, x, watched) {
      if x != w.task.todo[0] {
        VisitOther(s, w, q, exits, v, x, watched);
      }
    }
  }

  lemma StartPausedAt(s: Setup, w: World, v: World, x: Id, watched: set<Id>)
    requires PausedFor(s, w, x, watched) && Next(s, w, Step.TickStart, v)
    ensures PausedFor(s, v, x, watched)
  {
    assert LocalOf(s, v, x) == LocalOf(s, w, x);
    AtRestMembers(UnresolvedIds(w.core.journal), w.work, x);
    UnresolvedIdsMembers(w.core.journal, x);
  }

  lemma EndPausedAt(s: Setup, w: World, v: World, x: Id, watched: set<Id>)
    requires PausedFor(s, w, x, watched) && (Next(s, w, Step.TickEnd, v) || Next(s, w, Step.RecoverEnd, v))
    ensures PausedFor(s, v, x, watched)
  {
    assert LocalOf(s, v, x) == LocalOf(s, w, x);
  }

  lemma ClearingPausedAt(s: Setup, w: World, step: Step, v: World, x: Id, watched: set<Id>)
    requires PausedFor(s, w, x, watched) && Next(s, w, step, v) && (step.TickCustody? || step.TickRelease?) && LocalOf(s, v, x) == LocalOf(s, w, x)
    ensures PausedFor(s, v, x, watched)
  {
  }

  lemma CrashPausedAt(s: Setup, w: World, v: World, x: Id, watched: set<Id>)
    requires Faithful(w.core) && PausedFor(s, w, x, watched) && Next(s, w, Step.Crash, v) && (x !in watched || !Torn(w, Step.Crash, x))
    ensures PausedFor(s, v, x, watched)
  {
    if Doubt(AttemptOf(w.core.journal, x)) && HaltNext(At(w, x)) {
      assert x !in watched || w.core.pause.Active?;
    }
  }

  lemma OuterPausedAt(s: Setup, w: World, step: Step, v: World, x: Id, watched: set<Id>)
    requires PausedFor(s, w, x, watched) && Next(s, w, step, v) && LocalOf(s, v, x) == LocalOf(s, w, x)
    requires !IsFlow(step) && !IsTask(step) && !step.Crash? && (x !in watched || !Uncovers(w, step, x))
    ensures PausedFor(s, v, x, watched)
  {
  }

  lemma TaskPaused(s: Setup, w: World, step: Step, v: World, watched: set<Id>)
    requires Sound(s, w) && Listed(w) && Paused(s, w, watched) && Next(s, w, step, v) && IsTask(step)
    ensures Paused(s, v, watched)
  {
    hide Sound;
    hide Next;
    hide Listed;
    hide PausedFor;
    if step.RecoverOne? {
      RecoverPaused(s, w, step.id, step.now, v, watched);
    } else if step.TickVisit? {
      VisitPaused(s, w, step.q, step.exits, v, watched);
    } else if step.TickStart? {
      forall x: Id ensures PausedFor(s, v, x, watched) {
        StartPausedAt(s, w, v, x, watched);
      }
    } else if step.TickEnd? || step.RecoverEnd? {
      forall x: Id ensures PausedFor(s, v, x, watched) {
        EndPausedAt(s, w, v, x, watched);
      }
    } else {
      QuietFramed(s, w, step, v);
      forall x: Id ensures PausedFor(s, v, x, watched) {
        ClearingPausedAt(s, w, step, v, x, watched);
      }
    }
  }

  lemma OuterPaused(s: Setup, w: World, step: Step, v: World, watched: set<Id>)
    requires Sound(s, w) && Paused(s, w, watched) && Next(s, w, step, v) && !IsFlow(step) && !IsTask(step)
    requires forall x: Id :: x !in watched || (!Uncovers(w, step, x) && !Torn(w, step, x))
    ensures Paused(s, v, watched)
  {
    hide Attempts;
    hide Txs;
    hide Next;
    hide PausedFor;
    hide Torn;
    hide Uncovers;
    if step.Crash? {
      forall x: Id ensures PausedFor(s, v, x, watched) {
        CrashPausedAt(s, w, v, x, watched);
      }
    } else {
      QuietFramed(s, w, step, v);
      forall x: Id ensures PausedFor(s, v, x, watched) {
        OuterPausedAt(s, w, step, v, x, watched);
      }
    }
  }

  lemma StepPaused(s: Setup, w: World, step: Step, v: World, watched: set<Id>)
    requires Sound(s, w) && Listed(w) && Paused(s, w, watched) && Next(s, w, step, v)
    requires forall x: Id :: x !in watched || (!Uncovers(w, step, x) && !Torn(w, step, x))
    ensures Paused(s, v, watched)
  {
    hide Next;
    hide Sound;
    hide Listed;
    hide Paused;
    hide Torn;
    hide Uncovers;
    if step.Proceed? {
      ProceedPaused(s, w, step.id, v, watched);
    } else if IsFlow(step) {
      FlowPaused(s, w, step, v, watched);
    } else if IsTask(step) {
      TaskPaused(s, w, step, v, watched);
    } else {
      OuterPaused(s, w, step, v, watched);
    }
  }

  // ---------------------------------------------------------------- runs

  /** Before the n-th world no operator cleared a pause while this attempt was in doubt, and no crash tore its
      doubt from its pause. */
  ghost predicate Undisturbed(run: seq<World>, steps: seq<Step>, n: nat, id: Id)
    requires n <= |steps| < |run|
  {
    forall i :: 0 <= i < n ==> !Uncovers(run[i], steps[i], id) && !Torn(run[i], steps[i], id)
  }

  lemma StartPaused(s: Setup, watched: set<Id>)
    ensures Paused(s, START, watched)
  {
  }

  lemma {:induction false} RunPaused(s: Setup, run: seq<World>, steps: seq<Step>, n: nat, watched: set<Id>)
    requires Run(s, run, steps) && n <= |steps| && (forall x: Id :: x !in watched || Undisturbed(run, steps, n, x))
    ensures Paused(s, run[n], watched)
  {
    hide Next;
    hide Sound;
    hide Listed;
    hide Paused;
    hide Torn;
    hide Uncovers;
    if n == 0 {
      StartPaused(s, watched);
    } else {
      RunPaused(s, run, steps, n - 1, watched);
      RunSound(s, run, steps, n - 1);
      StepPaused(s, run[n - 1], steps[n - 1], run[n], watched);
    }
  }

  /** Attempt by attempt: no other attempt's disturbances matter. */
  lemma RunPausedFor(s: Setup, run: seq<World>, steps: seq<Step>, n: nat, id: Id)
    requires Run(s, run, steps) && n <= |steps| && Undisturbed(run, steps, n, id)
    ensures PausedFor(s, run[n], id, {id})
  {
    hide Next;
    hide PausedFor;
    hide Undisturbed;
    RunPaused(s, run, steps, n, {id});
  }

  /** Whenever the tracker is not in the middle of a tick, an attempt that is REORG_PENDING means a local pause. */
  lemma DoubtMeansPause(s: Setup, run: seq<World>, steps: seq<Step>, n: nat, id: Id)
    requires Run(s, run, steps) && n <= |steps| && Undisturbed(run, steps, n, id)
    requires Doubt(AttemptOf(run[n].core.journal, id)) && !run[n].task.Ticking?
    ensures run[n].core.pause.Active?
  {
    hide Next;
    hide Undisturbed;
    RunPausedFor(s, run, steps, n, id);
    HaltNextIsLast(At(run[n], id));
  }

  lemma HaltNextIsLast(phase: Option<Phase>)
    ensures HaltNext(phase) ==> HaltLast(phase)
  {
  }

  ghost predicate DoubtUnpaused(w: World, id: Id) {
    w.core.pause.Inactive? && Doubt(AttemptOf(w.core.journal, id))
  }

  /** An operator's clear leaves a doubt with no pause exactly when the attempt was in doubt. */
  lemma ClearLeavesDoubt(s: Setup, run: seq<World>, steps: seq<Step>, v: World, id: Id)
    requires Run(s, run, steps) && Next(s, run[|steps|], Step.OperatorClear, v)
    ensures DoubtUnpaused(v, id) <==> Uncovers(run[|steps|], Step.OperatorClear, id)
  {
    RunSound(s, run, steps, |steps|);
    QuietFramed(s, run[|steps|], Step.OperatorClear, v);
    assert LocalOf(s, v, id) == LocalOf(s, run[|steps|], id);
  }

  /** A crash leaves a doubt with no pause exactly when it falls between the attempt's REORG_PENDING line and its
      PAUSE_APPLIED line with no other pause in force. */
  lemma TornDoubt(s: Setup, run: seq<World>, steps: seq<Step>, v: World, id: Id)
    requires Run(s, run, steps) && Undisturbed(run, steps, |steps|, id) && Next(s, run[|steps|], Step.Crash, v)
    ensures DoubtUnpaused(v, id) <==> Torn(run[|steps|], Step.Crash, id)
  {
    hide Next;
    hide Undisturbed;
    RunSound(s, run, steps, |steps|);
    RunPausedFor(s, run, steps, |steps|, id);
    CrashKeeps(s, run[|steps|], v);
  }

  lemma CrashKeeps(s: Setup, w: World, v: World)
    requires Sound(s, w) && Next(s, w, Step.Crash, v)
    ensures v.core.journal == w.core.journal && v.core.pause == w.core.pause && v.work == map[] && v.task.Idle?
  {
    hide Attempts;
    hide Txs;
  }

  /** When the tracker lifts a pause, in any run at all, no attempt is REORG_PENDING. */
  lemma TrackerLiftsInCertainty(s: Setup, run: seq<World>, steps: seq<Step>, n: nat, id: Id)
    requires Run(s, run, steps) && n < |steps| && steps[n].TickRelease?
    ensures !Doubt(AttemptOf(run[n].core.journal, id))
  {
    hide PausedFor;
    RunPaused(s, run, steps, n, {});
    assert Next(s, run[n], steps[n], run[n + 1]);
    assert PausedFor(s, run[n], id, {});
    ClearingCertain(s, run[n], id, {});
  }

  lemma ClearingCertain(s: Setup, w: World, id: Id, watched: set<Id>)
    requires PausedFor(s, w, id, watched) && w.task.Clearing?
    ensures !Doubt(AttemptOf(w.core.journal, id))
  {
  }
}
