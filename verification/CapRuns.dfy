/** The caps over whole runs, whatever the interleaving, the crashes and the restarts. */
module CapRuns {
  import opened Sums
  import opened ExposureLedger
  import opened Records
  import opened Intents
  import opened Protocol
  import opened Caps
  import opened Runs
  import opened Invariants
  import opened Preservation
  import opened Steps
  import Recovery
  import Lawful

  /** Entries increase exposure. */
  ghost predicate Increasing(s: Setup) {
    forall id: Id :: !s.cat(id).emergency ==> s.cat(id).effect == Increase
  }

  /** A fill never exceeds the authorised input. */
  ghost predicate Filled(s: Setup, step: Step) {
    step.Settle? && step.fill.Some? ==> step.fill.value <= s.cat(step.id).maxInput
  }

  ghost predicate FilledFor(s: Setup, step: Step, id: Id) {
    step.Settle? && step.id == id ==> Filled(s, step)
  }

  /** An exit reaches an entry only after the entry's own result. */
  ghost predicate ExitsLate(w: World, step: Step) {
    step.Proceed? && step.id in w.work && w.work[step.id].Finishing? && w.work[step.id].outs != [] ==>
      var out := w.work[step.id].outs[0];
      out.Ledger? && out.event.ExitConfirmed? ==> AttemptOf(w.core.journal, out.event.intentId).results > 0
  }

  // ---------------------------------------------------------------- the invariants

  /** An open entry never counts for more than its intent allows, and an intent that increases exposure is within the per-entry cap. */
  predicate WithinIntent(g: Guardrails, it: Intent, o: OpenEntry) {
    && !it.emergency && (it.effect == Increase ==> it.maxInput <= g.maxPerEntry) && o.protection == it.protection
    && o.authorized <= it.maxInput && (o.confirmed.Some? ==> o.confirmed.value <= it.maxInput)
  }

  predicate PendingBounded(it: Intent, id: Id, phase: Option<Phase>) {
    phase.Some? && phase.value.Finishing? && phase.value.outs != [] && phase.value.outs[0].Ledger? ==>
      var e := phase.value.outs[0].event;
      e.EntryConfirmed? && e.intentId == id ==> e.costBasis <= it.maxInput
  }

  ghost predicate EntryWithin(s: Setup, w: World, id: Id) {
    (id in w.core.open ==> WithinIntent(s.g, s.cat(id), w.core.open[id])) && PendingBounded(s.cat(id), id, At(w, id))
  }

  /** Until its result an open entry counts for its whole authorised input. */
  ghost predicate Whole(s: Setup, w: World) {
    forall id: Id :: id in w.core.open && AttemptOf(w.core.journal, id).results == 0 ==> w.core.open[id].authorized == s.cat(id).maxInput
  }

  ghost predicate UnderCap(g: Guardrails, open: Open) {
    Total(open) <= g.maxAggregate
  }

  ghost predicate UnderOutageCap(g: Guardrails, open: Open) {
    Monitored(open) <= g.maxSignerOutage
  }

  // ---------------------------------------------------------------- events

  /** Nothing appears and nothing grows. */
  ghost predicate Shrinks(open: Open, after: Open) {
    forall id: Id :: id in after ==>
                       id in open && ExposureOf(after[id]) <= ExposureOf(open[id]) && after[id].protection == open[id].protection
  }

  lemma ShrinkingKeepsCaps(g: Guardrails, open: Open, after: Open)
    requires Shrinks(open, after)
    ensures UnderCap(g, open) ==> UnderCap(g, after)
    ensures UnderOutageCap(g, open) ==> UnderOutageCap(g, after)
  {
    SumPointwise(Exposures(after), Exposures(open));
    SumPointwise(MonitoredExposures(after), MonitoredExposures(open));
  }

  lemma EventKeepsEntries(g: Guardrails, it: Intent, open: Open, e: ExposureEvent, x: Id)
    requires Admits(open, e) && !e.EntryAuthorized? && !e.ProtectionChanged?
    requires x in open ==> WithinIntent(g, it, open[x])
    requires e.EntryConfirmed? && e.intentId == x ==> e.costBasis <= it.maxInput
    ensures x in After(open, e) ==> WithinIntent(g, it, After(open, e)[x])
  {
  }

  /** A confirmation up to the authorised input, a release, an exit: none raises an exposure. */
  lemma EventShrinks(open: Open, e: ExposureEvent, maxInput: nat)
    requires Admits(open, e) && !e.EntryAuthorized? && !e.ProtectionChanged?
    requires e.EntryConfirmed? ==> e.costBasis <= maxInput && open[e.intentId].authorized == maxInput
    ensures Shrinks(open, After(open, e))
  {
  }

  /** When a confirmation raises the total: exactly when its basis exceeds what the entry already counts for. */
  lemma ConfirmationRaises(open: Open, id: Id, basis: nat)
    requires id in open
    ensures Total(After(open, EntryConfirmed(id, basis))) > Total(open) <==> basis > ExposureOf(open[id])
    ensures basis > ExposureOf(open[id]) ==>
              Total(After(open, EntryConfirmed(id, basis))) == Total(open) + basis - ExposureOf(open[id])
  {
    TotalAfter(open, EntryConfirmed(id, basis));
    if basis <= ExposureOf(open[id]) {
      LargerTotal(open, id, basis);
    }
  }

  lemma LargerTotal(open: Open, id: Id, basis: nat)
    requires id in open && basis <= ExposureOf(open[id])
    ensures Total(After(open, EntryConfirmed(id, basis))) <= Total(open)
  {
    SumPointwise(Exposures(After(open, EntryConfirmed(id, basis))), Exposures(open));
  }

  // ---------------------------------------------------------------- one step

  /** The ledger moves by an admission or by an event an agenda had ready; a restart replays it. */
  lemma OpenKept(s: Setup, w: World, step: Step, v: World)
    requires Sound(s, w) && Next(s, w, step, v) && !step.Admit? && !step.Proceed?
    ensures v.core.open == w.core.open
  {
    hide Sound;
    hide Next;
    if IsFlow(step) {
      FlowOpenKept(s, w, step, v);
    } else if IsTask(step) {
      TaskOpenKept(s, w, step, v);
    } else if step.Crash? {
      CrashOpenKept(s, w, v);
    } else {
      OuterOpenKept(s, w, step, v);
    }
  }

  lemma FlowOpenKept(s: Setup, w: World, step: Step, v: World)
    requires Next(s, w, step, v) && IsFlow(step) && !step.Admit? && !step.Proceed?
    ensures v.core.open == w.core.open
  {
  }

  lemma TaskOpenKept(s: Setup, w: World, step: Step, v: World)
    requires Next(s, w, step, v) && IsTask(step)
    ensures v.core.open == w.core.open
  {
  }

  lemma CrashOpenKept(s: Setup, w: World, v: World)
    requires Sound(s, w) && Next(s, w, Step.Crash, v)
    ensures v.core.open == w.core.open
  {
    hide Attempts;
    hide Txs;
  }

  lemma OuterOpenKept(s: Setup, w: World, step: Step, v: World)
    requires Next(s, w, step, v) && !IsFlow(step) && !IsTask(step) && !step.Crash?
    ensures v.core.open == w.core.open
  {
  }

  /** What an agenda writes to the ledger. */
  lemma AgendaEvent(it: Intent, id: Id, l: Local, outs: seq<Out>)
    requires Sane(it, id, l) && l.att != NO_ATTEMPT && l.phase == Some(Finishing(outs))
    ensures outs != [] && l.att.results == 0 && (outs[0].Ledger? ==> Event(it, id, outs[0]))
    ensures !it.emergency && |outs| > 1 ==> !outs[1].Ledger?
  {
    if |outs| > 1 && Event(it, id, outs[0]) && !it.emergency {
      assert Agenda(it, id, l, outs[1..]) && outs[1..][0] == outs[1];
    }
  }

  lemma ProceedOpen(s: Setup, w: World, id: Id, v: World)
    requires Sound(s, w) && Next(s, w, Step.Proceed(id), v)
    ensures var outs := At(w, id).value.outs;
            && Sane(s.cat(id), id, LocalOf(s, w, id)) && AttemptOf(w.core.journal, id).results == 0
            && (if outs[0].Ledger? && Admits(w.core.open, outs[0].event)
                then Event(s.cat(id), id, outs[0]) && v.core.open == After(w.core.open, outs[0].event)
                else v.core.open == w.core.open)
  {
    hide Sound;
    hide Sane;
    WorkingSound(s, w, id);
    AgendaEvent(s.cat(id), id, LocalOf(s, w, id), At(w, id).value.outs);
  }

  lemma AdmitOpen(s: Setup, w: World, id: Id, v: World)
    requires Sound(s, w) && Next(s, w, Step.Admit(id), v)
    ensures !s.cat(id).emergency && AttemptOf(w.core.journal, id).results == 0
    ensures if Admitted(s.g, w.core.open, s.cat(id), None) && id !in w.core.open
            then v.core.open == After(w.core.open, Reservation(id, s.cat(id)))
            else v.core.open == w.core.open
  {
    hide Sound;
    hide Admitted;
    var it := s.cat(id);
    WorkingSound(s, w, id);
    if !Admitted(s.g, w.core.open, it, None) {
      Recovery.EmitOne(w.core, it.key, Result(id, it.key, PREPARED, FAILED, Live, To(FAILED)));
    } else if id !in w.core.open {
      Recovery.EmitOne(w.core, it.key, Ledger(Reservation(id, it)));
    }
  }

  // ---------------------------------------------------------------- entries

  lemma AdmitEntries(s: Setup, w: World, id: Id, v: World, x: Id)
    requires Sound(s, w) && Next(s, w, Step.Admit(id), v)
    requires x in w.core.open ==> WithinIntent(s.g, s.cat(x), w.core.open[x])
    ensures x in v.core.open ==> WithinIntent(s.g, s.cat(x), v.core.open[x])
  {
    hide Sound;
    hide Next;
    AdmitOpen(s, w, id, v);
    if Admitted(s.g, w.core.open, s.cat(id), None) && id !in w.core.open && s.cat(id).effect == Increase {
      AdmissionKeepsCaps(s.g, w.core.open, id, s.cat(id), None);
    }
  }

  lemma ProceedEntries(s: Setup, w: World, id: Id, v: World, x: Id)
    requires Sound(s, w) && EntryWithin(s, w, x) && Next(s, w, Step.Proceed(id), v)
    ensures x in v.core.open ==> WithinIntent(s.g, s.cat(x), v.core.open[x])
  {
    hide Sound;
    hide Sane;
    ProceedOpen(s, w, id, v);
    var out := At(w, id).value.outs[0];
    if out.Ledger? && Admits(w.core.open, out.event) {
      EventKeepsEntries(s.g, s.cat(x), w.core.open, out.event, x);
    }
  }

  lemma StepOpenEntries(s: Setup, w: World, step: Step, v: World, x: Id)
    requires Sound(s, w) && EntryWithin(s, w, x) && Next(s, w, step, v)
    ensures x in v.core.open ==> WithinIntent(s.g, s.cat(x), v.core.open[x])
  {
    hide Sound;
    hide Next;
    hide WithinIntent;
    if step.Admit? {
      AdmitEntries(s, w, step.id, v, x);
    } else if step.Proceed? {
      ProceedEntries(s, w, step.id, v, x);
    } else {
      OpenKept(s, w, step, v);
    }
  }

  lemma SettleBounded(s: Setup, w: World, step: Step, v: World)
    requires Next(s, w, step, v) && step.Settle? && Filled(s, step)
    ensures PendingBounded(s.cat(step.id), step.id, At(v, step.id))
  {
  }

  lemma GateBounded(s: Setup, w: World, step: Step, v: World)
    requires Next(s, w, step, v) && step.PassGate?
    ensures PendingBounded(s.cat(step.id), step.id, At(v, step.id))
  {
  }

  lemma NotionalIsBound(s: Setup, w: World, id: Id)
    requires Sound(s, w)
    ensures var a := AttemptOf(w.core.journal, id); a != NO_ATTEMPT ==> NotionalOf(a) == s.cat(id).maxInput
  {
    assert Sane(s.cat(id), id, LocalOf(s, w, id));
  }

  lemma TaskBounded(s: Setup, w: World, step: Step, v: World)
    requires Sound(s, w) && Listed(w) && Next(s, w, step, v) && (step.RecoverOne? || step.TickVisit?)
    ensures var id := Actor(w, step).value; PendingBounded(s.cat(id), id, At(v, id))
  {
    hide Sound;
    NotionalIsBound(s, w, Actor(w, step).value);
  }

  lemma ProceedBounded(s: Setup, w: World, step: Step, v: World)
    requires Sound(s, w) && Next(s, w, step, v) && step.Proceed?
    ensures PendingBounded(s.cat(step.id), step.id, At(v, step.id))
  {
    hide Sound;
    WorkingSound(s, w, step.id);
    var outs := At(w, step.id).value.outs;
    AgendaTail(s.cat(step.id), step.id, LocalOf(s, w, step.id), outs);
  }

  /** After its first event an agenda holds only exits and its closing line. */
  lemma AgendaTail(it: Intent, id: Id, l: Local, outs: seq<Out>)
    requires Sane(it, id, l) && l.att != NO_ATTEMPT && l.phase == Some(Finishing(outs))
    ensures outs != [] && PendingBounded(it, id, PhaseFor(outs[1..]))
  {
    if |outs| > 1 && Event(it, id, outs[0]) {
      assert Agenda(it, id, l, outs[1..]);
    }
  }

  lemma OtherBounded(s: Setup, w: World, step: Step, v: World)
    requires Next(s, w, step, v) && Actor(w, step).Some?
    requires !step.Settle? && !step.PassGate? && !step.Proceed? && !step.RecoverOne? && !step.TickVisit?
    requires PendingBounded(s.cat(Actor(w, step).value), Actor(w, step).value, At(w, Actor(w, step).value))
    ensures PendingBounded(s.cat(Actor(w, step).value), Actor(w, step).value, At(v, Actor(w, step).value))
  {
  }

  lemma ActorBounded(s: Setup, w: World, step: Step, v: World)
    requires Sound(s, w) && Listed(w) && Next(s, w, step, v) && Actor(w, step).Some?
    requires var id := Actor(w, step).value; FilledFor(s, step, id) && PendingBounded(s.cat(id), id, At(w, id))
    ensures PendingBounded(s.cat(Actor(w, step).value), Actor(w, step).value, At(v, Actor(w, step).value))
  {
    hide Next;
    hide Sound;
    hide Listed;
    hide Filled;
    hide PendingBounded;
    if step.Settle? {
      SettleBounded(s, w, step, v);
    } else if step.PassGate? {
      GateBounded(s, w, step, v);
    } else if step.Proceed? {
      ProceedBounded(s, w, step, v);
    } else if step.RecoverOne? || step.TickVisit? {
      TaskBounded(s, w, step, v);
    } else {
      OtherBounded(s, w, step, v);
    }
  }

  lemma CrashBounded(s: Setup, w: World, v: World, x: Id)
    requires Next(s, w, Step.Crash, v)
    ensures PendingBounded(s.cat(x), x, At(v, x))
  {
  }

  lemma PhaseSame(s: Setup, w: World, v: World, x: Id)
    requires LocalOf(s, v, x) == LocalOf(s, w, x)
    ensures At(v, x) == At(w, x) && AttemptOf(v.core.journal, x) == AttemptOf(w.core.journal, x)
  {
  }

  lemma StepPending(s: Setup, w: World, step: Step, v: World, x: Id)
    requires Sound(s, w) && Listed(w) && EntryWithin(s, w, x) && FilledFor(s, step, x) && Next(s, w, step, v)
    ensures PendingBounded(s.cat(x), x, At(v, x))
  {
    hide Next;
    hide Sound;
    hide Listed;
    hide FilledFor;
    hide PendingBounded;
    if step.Crash? {
      CrashBounded(s, w, v, x);
    } else {
      StepFramed(s, w, step, v);
      if Actor(w, step) == Some(x) {
        ActorBounded(s, w, step, v);
      } else {
        PhaseSame(s, w, v, x);
      }
    }
  }

  /** Before the n-th world this attempt's fills stay within its authorised input. */
  ghost predicate FilledBefore(s: Setup, steps: seq<Step>, n: nat, id: Id)
    requires n <= |steps|
  {
    forall i :: 0 <= i < n ==> FilledFor(s, steps[i], id)
  }

  lemma StartWithin(s: Setup, id: Id)
    ensures EntryWithin(s, START, id)
  {
  }

  lemma {:induction false} RunWithin(s: Setup, run: seq<World>, steps: seq<Step>, n: nat, id: Id)
    requires Run(s, run, steps) && n <= |steps| && FilledBefore(s, steps, n, id)
    ensures EntryWithin(s, run[n], id)
  {
    hide Next;
    hide Sound;
    hide Listed;
    hide PendingBounded;
    hide WithinIntent;
    hide FilledFor;
    if n == 0 {
      StartWithin(s, id);
    } else {
      RunWithin(s, run, steps, n - 1, id);
      RunSound(s, run, steps, n - 1);
      StepOpenEntries(s, run[n - 1], steps[n - 1], run[n], id);
      StepPending(s, run[n - 1], steps[n - 1], run[n], id);
    }
  }

  ghost predicate AllFilled(s: Setup, steps: seq<Step>) {
    forall i :: 0 <= i < |steps| ==> Filled(s, steps[i])
  }

  ghost predicate Entries(s: Setup, w: World) {
    forall id: Id :: EntryWithin(s, w, id)
  }

  lemma RunEntries(s: Setup, run: seq<World>, steps: seq<Step>, n: nat)
    requires Run(s, run, steps) && AllFilled(s, steps) && n <= |steps|
    ensures Entries(s, run[n])
  {
    hide Next;
    hide Filled;
    hide EntryWithin;
    forall id: Id ensures EntryWithin(s, run[n], id) {
      RunWithin(s, run, steps, n, id);
    }
  }

  /** An open entry whose fills stay within its authorised input never counts for more than that, nor, if its
      intent increases exposure, for more than the per-entry cap. */
  lemma NoEntryAboveTheCap(s: Setup, run: seq<World>, steps: seq<Step>, n: nat, id: Id)
    requires Run(s, run, steps) && n <= |steps| && FilledBefore(s, steps, n, id) && id in run[n].core.open
    ensures ExposureOf(run[n].core.open[id]) <= s.cat(id).maxInput
    ensures s.cat(id).effect == Increase ==> s.cat(id).maxInput <= s.g.maxPerEntry
  {
    hide Next;
    RunWithin(s, run, steps, n, id);
  }

  // ---------------------------------------------------------------- whole until the result

  lemma AdmitWhole(s: Setup, w: World, id: Id, v: World)
    requires Sound(s, w) && Whole(s, w) && Next(s, w, Step.Admit(id), v) && Framed(s, w, Step.Admit(id), v)
    ensures Whole(s, v)
  {
    hide Sound;
    hide Next;
    hide Framed;
    AdmitOpen(s, w, id, v);
    ResultsKept(s, w, Step.Admit(id), v);
  }

  /** Results are never undone. */
  lemma ResultsKept(s: Setup, w: World, step: Step, v: World)
    requires Sound(s, w) && Next(s, w, step, v)
    ensures forall x: Id :: AttemptOf(v.core.journal, x).results == 0 ==> AttemptOf(w.core.journal, x).results == 0
  {
    hide Next;
    hide Sound;
    Lawful.StepGrows(s, w, step, v);
    forall x: Id ensures AttemptOf(v.core.journal, x).results == 0 ==> AttemptOf(w.core.journal, x).results == 0 {
      ResultsOnlyGrow(s, w, v, x);
    }
  }

  lemma ResultsOnlyGrow(s: Setup, w: World, v: World, x: Id)
    requires Lawful.Grows(s, w, v)
    ensures AttemptOf(v.core.journal, x).results == 0 ==> AttemptOf(w.core.journal, x).results == 0
  {
    if v.core.journal != w.core.journal {
      var r :| v.core.journal == w.core.journal + [r] && Lawful.MayFollow(s, w.core.journal, r);
      AttemptNext(w.core.journal, r, x);
    }
  }

  lemma ProceedWhole(s: Setup, w: World, id: Id, v: World)
    requires Sound(s, w) && Whole(s, w) && ExitsLate(w, Step.Proceed(id)) && Next(s, w, Step.Proceed(id), v)
    ensures Whole(s, v)
  {
    hide Sound;
    hide Sane;
    ProceedOpen(s, w, id, v);
    ResultsKept(s, w, Step.Proceed(id), v);
  }

  lemma StepWhole(s: Setup, w: World, step: Step, v: World)
    requires Sound(s, w) && Whole(s, w) && ExitsLate(w, step) && Next(s, w, step, v)
    ensures Whole(s, v)
  {
    hide Next;
    hide Sound;
    hide ExitsLate;
    if step.Admit? {
      StepFramed(s, w, step, v);
      AdmitWhole(s, w, step.id, v);
    } else if step.Proceed? {
      ProceedWhole(s, w, step.id, v);
    } else {
      OpenKept(s, w, step, v);
      ResultsKept(s, w, step, v);
    }
  }

  // ---------------------------------------------------------------- totals

  /** A monitored entry that is not LIVE_AUTO is admitted only when the signer-outage cap has room for it. */
  ghost predicate RoomFound(s: Setup, w: World, step: Step) {
    step.Admit? && Admitted(s.g, w.core.open, s.cat(step.id), None) && step.id !in w.core.open
    && s.cat(step.id).protection == MonitoredExit && s.cat(step.id).authority != LiveAuto ==>
      Monitored(w.core.open) + s.cat(step.id).maxInput <= s.g.maxSignerOutage
  }

  lemma AdmitUnderCaps(s: Setup, w: World, id: Id, v: World)
    requires Sound(s, w) && Increasing(s) && Next(s, w, Step.Admit(id), v)
    ensures UnderCap(s.g, w.core.open) ==> UnderCap(s.g, v.core.open)
    ensures RoomFound(s, w, Step.Admit(id)) && UnderOutageCap(s.g, w.core.open) ==> UnderOutageCap(s.g, v.core.open)
    ensures UnderOutageCap(s.g, v.core.open) ==> RoomFound(s, w, Step.Admit(id))
  {
    hide Sound;
    hide Next;
    AdmitOpen(s, w, id, v);
    if Admitted(s.g, w.core.open, s.cat(id), None) && id !in w.core.open {
      AdmissionKeepsCaps(s.g, w.core.open, id, s.cat(id), None);
      MonitoredAfterReservation(w.core.open, id, s.cat(id));
    }
  }

  lemma ProceedUnderCaps(s: Setup, w: World, id: Id, v: World)
    requires Sound(s, w) && Entries(s, w) && Whole(s, w) && Next(s, w, Step.Proceed(id), v)
    ensures UnderCap(s.g, w.core.open) ==> UnderCap(s.g, v.core.open)
    ensures UnderOutageCap(s.g, w.core.open) ==> UnderOutageCap(s.g, v.core.open)
  {
    hide Sound;
    hide Sane;
    hide UnderCap;
    hide UnderOutageCap;
    ProceedOpen(s, w, id, v);
    var out := At(w, id).value.outs[0];
    if out.Ledger? && Admits(w.core.open, out.event) {
      assert EntryWithin(s, w, id);
      EventShrinks(w.core.open, out.event, s.cat(id).maxInput);
      ShrinkingKeepsCaps(s.g, w.core.open, v.core.open);
    }
  }

  lemma StepUnderCaps(s: Setup, w: World, step: Step, v: World)
    requires Sound(s, w) && Increasing(s) && Entries(s, w) && Whole(s, w) && Next(s, w, step, v)
    ensures UnderCap(s.g, w.core.open) ==> UnderCap(s.g, v.core.open)
    ensures RoomFound(s, w, step) && UnderOutageCap(s.g, w.core.open) ==> UnderOutageCap(s.g, v.core.open)
    ensures UnderOutageCap(s.g, v.core.open) ==> RoomFound(s, w, step)
  {
    hide Next;
    hide Sound;
    hide UnderCap;
    hide UnderOutageCap;
    hide Entries;
    hide Whole;
    hide Admitted;
    if step.Admit? {
      AdmitUnderCaps(s, w, step.id, v);
    } else if step.Proceed? {
      ProceedUnderCaps(s, w, step.id, v);
    } else {
      OpenKept(s, w, step, v);
    }
  }

  ghost predicate AllExitsLate(run: seq<World>, steps: seq<Step>)
    requires |run| == |steps| + 1
  {
    forall i :: 0 <= i < |steps| ==> ExitsLate(run[i], steps[i])
  }

  lemma StartUnderCaps(s: Setup)
    ensures UnderCap(s.g, START.core.open) && UnderOutageCap(s.g, START.core.open) && Whole(s, START)
  {
    assert Exposures(map[]) == map[] && MonitoredExposures(map[]) == map[];
  }

  /** Total exposure never exceeds the aggregate cap, whatever the entries' authority and protection:
      entries that increase exposure, fills within the authorised input, exits only after an entry's result. */
  lemma {:induction false} CapsHoldThroughout(s: Setup, run: seq<World>, steps: seq<Step>, n: nat)
    requires Run(s, run, steps) && Increasing(s) && AllFilled(s, steps) && AllExitsLate(run, steps) && n < |run|
    ensures Total(run[n].core.open) <= s.g.maxAggregate
    ensures Whole(s, run[n])
  {
    hide Next;
    hide Sound;
    hide Listed;
    hide Entries;
    hide Whole;
    hide Filled;
    hide ExitsLate;
    if n == 0 {
      StartUnderCaps(s);
    } else {
      CapsHoldThroughout(s, run, steps, n - 1);
      RunSound(s, run, steps, n - 1);
      RunEntries(s, run, steps, n - 1);
      StepUnderCaps(s, run[n - 1], steps[n - 1], run[n]);
      StepWhole(s, run[n - 1], steps[n - 1], run[n]);
    }
  }

  // ---------------------------------------------------------------- exactly when the caps hold

  /** The two steps that can raise the total past the cap found room under it: an admission that the
      cap was not asked about, and a confirmation above what its entry counted for. */
  ghost predicate CapRoom(s: Setup, w: World, step: Step) {
    && (step.Admit? && Admitted(s.g, w.core.open, s.cat(step.id), None) && step.id !in w.core.open && s.cat(step.id).effect != Increase ==>
          Total(w.core.open) + s.cat(step.id).maxInput <= s.g.maxAggregate)
    && (step.Proceed? && Raises(w.core.open, At(w, step.id)) ==>
          var e := At(w, step.id).value.outs[0].event;
          Total(w.core.open) + e.costBasis - ExposureOf(w.core.open[e.intentId]) <= s.g.maxAggregate)
  }

  /** The next output confirms an open entry at more than it counts for. */
  predicate Raises(open: Open, phase: Option<Phase>) {
    phase.Some? && phase.value.Finishing? && phase.value.outs != [] && phase.value.outs[0].Ledger?
    && var e := phase.value.outs[0].event; e.EntryConfirmed? && e.intentId in open && e.costBasis > ExposureOf(open[e.intentId])
  }

  lemma AdmitCapRoom(s: Setup, w: World, id: Id, v: World)
    requires Sound(s, w) && UnderCap(s.g, w.core.open) && Next(s, w, Step.Admit(id), v)
    ensures UnderCap(s.g, v.core.open) <==> CapRoom(s, w, Step.Admit(id))
  {
    hide Sound;
    hide Next;
    AdmitOpen(s, w, id, v);
    if Admitted(s.g, w.core.open, s.cat(id), None) && id !in w.core.open {
      TotalAfter(w.core.open, Reservation(id, s.cat(id)));
      if s.cat(id).effect == Increase {
        AdmissionKeepsCaps(s.g, w.core.open, id, s.cat(id), None);
      }
    }
  }

  lemma ProceedCapRoom(s: Setup, w: World, id: Id, v: World)
    requires Sound(s, w) && UnderCap(s.g, w.core.open) && Next(s, w, Step.Proceed(id), v)
    ensures UnderCap(s.g, v.core.open) <==> CapRoom(s, w, Step.Proceed(id))
  {
    hide Sound;
    hide Sane;
    hide After;
    ProceedOpen(s, w, id, v);
    var out := At(w, id).value.outs[0];
    if out.Ledger? && Admits(w.core.open, out.event) {
      TotalAfter(w.core.open, out.event);
      if out.event.EntryConfirmed? {
        ConfirmationRaises(w.core.open, out.event.intentId, out.event.costBasis);
      }
    }
  }

  lemma StepCapRoom(s: Setup, w: World, step: Step, v: World)
    requires Sound(s, w) && UnderCap(s.g, w.core.open) && Next(s, w, step, v)
    ensures UnderCap(s.g, v.core.open) <==> CapRoom(s, w, step)
  {
    hide Next;
    hide Sound;
    hide UnderCap;
    hide Admitted;
    hide Raises;
    if step.Admit? {
      AdmitCapRoom(s, w, step.id, v);
    } else if step.Proceed? {
      ProceedCapRoom(s, w, step.id, v);
    } else {
      OpenKept(s, w, step, v);
    }
  }

  ghost predicate CapHolds(s: Setup, run: seq<World>, n: nat)
    requires n <= |run|
  {
    forall i :: 0 <= i < n ==> UnderCap(s.g, run[i].core.open)
  }

  ghost predicate AllCapRoom(s: Setup, run: seq<World>, steps: seq<Step>, n: nat)
    requires n <= |steps| < |run|
  {
    forall i :: 0 <= i < n ==> CapRoom(s, run[i], steps[i])
  }

  /** In any run at all, the aggregate cap is kept up to a point if and only if each such step before it found room. */
  lemma {:induction false} CapExactly(s: Setup, run: seq<World>, steps: seq<Step>, n: nat)
    requires Run(s, run, steps) && n <= |steps|
    ensures CapHolds(s, run, n + 1) <==> AllCapRoom(s, run, steps, n)
  {
    hide Next;
    hide Sound;
    hide Listed;
    hide CapRoom;
    hide UnderCap;
    StartUnderCaps(s);
    if n > 0 {
      CapExactly(s, run, steps, n - 1);
      assert CapHolds(s, run, n + 1) <==> CapHolds(s, run, n) && UnderCap(s.g, run[n].core.open);
      assert AllCapRoom(s, run, steps, n) <==> AllCapRoom(s, run, steps, n - 1) && CapRoom(s, run[n - 1], steps[n - 1]);
      if CapHolds(s, run, n) {
        assert UnderCap(s.g, run[n - 1].core.open);
        RunSound(s, run, steps, n - 1);
        StepCapRoom(s, run[n - 1], steps[n - 1], run[n]);
      }
    }
  }

  // ---------------------------------------------------------------- exactly when the per-entry cap holds

  ghost predicate EntriesUnderCap(g: Guardrails, open: Open) {
    forall id: Id :: id in open ==> ExposureOf(open[id]) <= g.maxPerEntry
  }

  /** The two steps that can take an entry past the cap: an admission the cap was not asked about, and a
      confirmation above what the entry counted for. */
  ghost predicate EntryRoom(s: Setup, w: World, step: Step) {
    && (step.Admit? && Admitted(s.g, w.core.open, s.cat(step.id), None) && step.id !in w.core.open && s.cat(step.id).effect != Increase ==>
          s.cat(step.id).maxInput <= s.g.maxPerEntry)
    && (step.Proceed? && Raises(w.core.open, At(w, step.id)) ==> At(w, step.id).value.outs[0].event.costBasis <= s.g.maxPerEntry)
  }

  lemma AdmitEntryRoom(s: Setup, w: World, id: Id, v: World)
    requires Sound(s, w) && EntriesUnderCap(s.g, w.core.open) && Next(s, w, Step.Admit(id), v)
    ensures EntriesUnderCap(s.g, v.core.open) <==> EntryRoom(s, w, Step.Admit(id))
  {
    hide Sound;
    hide Next;
    hide Admitted;
    AdmitOpen(s, w, id, v);
    if Admitted(s.g, w.core.open, s.cat(id), None) && id !in w.core.open {
      if s.cat(id).effect == Increase {
        AdmissionKeepsCaps(s.g, w.core.open, id, s.cat(id), None);
      }
      assert id in v.core.open && ExposureOf(v.core.open[id]) == s.cat(id).maxInput;
    }
  }

  lemma ProceedEntryRoom(s: Setup, w: World, id: Id, v: World)
    requires Sound(s, w) && EntriesUnderCap(s.g, w.core.open) && Next(s, w, Step.Proceed(id), v)
    ensures EntriesUnderCap(s.g, v.core.open) <==> EntryRoom(s, w, Step.Proceed(id))
  {
    hide Sound;
    hide Sane;
    ProceedOpen(s, w, id, v);
    if Raises(w.core.open, At(w, id)) {
      assert id in v.core.open;
    }
  }

  lemma StepEntryRoom(s: Setup, w: World, step: Step, v: World)
    requires Sound(s, w) && EntriesUnderCap(s.g, w.core.open) && Next(s, w, step, v)
    ensures EntriesUnderCap(s.g, v.core.open) <==> EntryRoom(s, w, step)
  {
    hide Next;
    hide Sound;
    hide EntriesUnderCap;
    hide Admitted;
    hide Raises;
    if step.Admit? {
      AdmitEntryRoom(s, w, step.id, v);
    } else if step.Proceed? {
      ProceedEntryRoom(s, w, step.id, v);
    } else {
      OpenKept(s, w, step, v);
    }
  }

  ghost predicate EntryCapHolds(s: Setup, run: seq<World>, n: nat)
    requires n <= |run|
  {
    forall i :: 0 <= i < n ==> EntriesUnderCap(s.g, run[i].core.open)
  }

  ghost predicate AllEntryRoom(s: Setup, run: seq<World>, steps: seq<Step>, n: nat)
    requires n <= |steps| < |run|
  {
    forall i :: 0 <= i < n ==> EntryRoom(s, run[i], steps[i])
  }

  /** In any run at all, every open entry is kept under the per-entry cap up to a point if and only if each such step found room. */
  lemma {:induction false} EntryCapExactly(s: Setup, run: seq<World>, steps: seq<Step>, n: nat)
    requires Run(s, run, steps) && n <= |steps|
    ensures EntryCapHolds(s, run, n + 1) <==> AllEntryRoom(s, run, steps, n)
  {
    hide Next;
    hide Sound;
    hide Listed;
    hide EntryRoom;
    hide EntriesUnderCap;
    NothingAboveCap(s);
    if n > 0 {
      EntryCapExactly(s, run, steps, n - 1);
      assert EntryCapHolds(s, run, n + 1) <==> EntryCapHolds(s, run, n) && EntriesUnderCap(s.g, run[n].core.open);
      assert AllEntryRoom(s, run, steps, n) <==> AllEntryRoom(s, run, steps, n - 1) && EntryRoom(s, run[n - 1], steps[n - 1]);
      if EntryCapHolds(s, run, n) {
        assert EntriesUnderCap(s.g, run[n - 1].core.open);
        RunSound(s, run, steps, n - 1);
        StepEntryRoom(s, run[n - 1], steps[n - 1], run[n]);
      }
    }
  }

  lemma NothingAboveCap(s: Setup)
    ensures EntriesUnderCap(s.g, START.core.open)
  {
  }

  // ---------------------------------------------------------------- the signer-outage cap

  ghost predicate OutageCapHolds(s: Setup, run: seq<World>, n: nat)
    requires n <= |run|
  {
    forall i :: 0 <= i < n ==> UnderOutageCap(s.g, run[i].core.open)
  }

  ghost predicate AllRoomFound(s: Setup, run: seq<World>, steps: seq<Step>, n: nat)
    requires n <= |steps| < |run|
  {
    forall i :: 0 <= i < n ==> RoomFound(s, run[i], steps[i])
  }

  /** Signer-dependent exposure stays within its cap up to any point of a run if and only if every
      monitored entry admitted before it that was not LIVE_AUTO found room under that cap. */
  lemma {:induction false} OutageCapExactly(s: Setup, run: seq<World>, steps: seq<Step>, n: nat)
    requires Run(s, run, steps) && Increasing(s) && AllFilled(s, steps) && AllExitsLate(run, steps) && n <= |steps|
    ensures OutageCapHolds(s, run, n + 1) <==> AllRoomFound(s, run, steps, n)
  {
    hide Next;
    hide Sound;
    hide Listed;
    hide Entries;
    hide Whole;
    hide Filled;
    hide ExitsLate;
    hide RoomFound;
    hide UnderOutageCap;
    StartUnderCaps(s);
    if n > 0 {
      OutageCapExactly(s, run, steps, n - 1);
      RunSound(s, run, steps, n - 1);
      RunEntries(s, run, steps, n - 1);
      CapsHoldThroughout(s, run, steps, n - 1);
      StepUnderCaps(s, run[n - 1], steps[n - 1], run[n]);
      assert OutageCapHolds(s, run, n + 1) <==> OutageCapHolds(s, run, n) && UnderOutageCap(s.g, run[n].core.open);
      assert AllRoomFound(s, run, steps, n) <==> AllRoomFound(s, run, steps, n - 1) && RoomFound(s, run[n - 1], steps[n - 1]);
      assert OutageCapHolds(s, run, n) ==> UnderOutageCap(s.g, run[n - 1].core.open);
    }
  }

  /** In particular it always does where only LIVE_AUTO entries rely on the monitor for their exit. */
  lemma OutageCapUnderLiveAuto(s: Setup, run: seq<World>, steps: seq<Step>, n: nat)
    requires Run(s, run, steps) && Increasing(s) && AllFilled(s, steps) && AllExitsLate(run, steps) && n < |run|
    requires forall id: Id :: s.cat(id).protection == MonitoredExit ==> s.cat(id).authority == LiveAuto
    ensures Monitored(run[n].core.open) <= s.g.maxSignerOutage
  {
    hide Next;
    hide Increasing;
    hide AllFilled;
    hide AllExitsLate;
    OutageCapExactly(s, run, steps, n);
    assert UnderOutageCap(s.g, run[n].core.open);
  }
}
