/** Concrete runs from the start, one for each way in which the code departs from what one would expect. */
module Witnesses {
  import opened Sums
  import opened ExposureLedger
  import opened Records
  import opened Intents
  import opened Protocol
  import opened Caps
  import opened Runs
  import opened Invariants
  import opened Preservation
  import opened Steps
  import opened Scenarios
  import CapRuns
  import Releases
  import ReorgPause
  import PauseRuns
  import Rebuild
  import Recovery

  /** Entries of 100 and 50 into one mint, and emergency closes that sell half or all of what is held of it. */
  function Catalogue(id: Id, authority: Records.Authority): Intent {
    if id == 1 then Intent(1, 1, true, authority, 0, Reduce, 2, 1, 50, 0, MonitoredExit, 100, 100)
    else if id == 3 then Intent(3, 3, true, authority, 0, Reduce, 2, 1, 100, 0, MonitoredExit, 100, 100)
    else Intent(id, id, false, authority, 0, Increase, 1, 2, if id == 0 then 100 else 50, 0, MonitoredExit, 100, 0)
  }

  function Deployment(authority: Records.Authority, outageCap: nat): Setup {
    Setup((id: Id) => Catalogue(id, authority), Guardrails(true, 0, {1}, 0, 100, 100, outageCap))
  }

  lemma NothingOpen()
    ensures Total(map[]) == 0 && Monitored(map[]) == 0
  {
    assert Exposures(map[]) == map[] && MonitoredExposures(map[]) == map[];
  }

  /** The first entry is admitted if it fits, under LIVE_AUTO also under the signer-outage cap. */
  lemma FirstAdmitted(authority: Records.Authority, outageCap: nat, id: Id)
    requires IsLive(authority) && id != 1 && id != 3 && (authority == LiveAuto ==> outageCap == 100)
    ensures Admitted(Deployment(authority, outageCap).g, map[], Catalogue(id, authority), None)
  {
    NothingOpen();
  }

  // ---------------------------------------------------------------- the signer-outage cap

  /** Two steps pass the signer-outage cap: a LIVE_APPROVAL entry that relies on the monitor is not asked. */
  lemma OutageCapPassed() returns (s: Setup, run: seq<World>, steps: seq<Step>)
    ensures Run(s, run, steps) && steps == [Deliver(0), Admit(0)]
    ensures CapRuns.Increasing(s) && CapRuns.AllFilled(s, steps) && CapRuns.AllExitsLate(run, steps)
    ensures s.cat(0).authority == LiveApproval && Monitored(run[2].core.open) > s.g.maxSignerOutage
  {
    hide Next;
    hide Trail;
    hide Admitted;
    s := Deployment(LiveApproval, 10);
    FirstAdmitted(LiveApproval, 10, 0);
    Begin(s);
    var w := Reserves(s, [], START, 0);
    steps := [Deliver(0), Admit(0)];
    assert [] + [Deliver(0)] + [Admit(0)] == steps;
    run := Finish(s, steps, w);
    NothingOpen();
    assert MonitoredExposures(w.core.open) == MonitoredExposures(map[])[0 := 100];
    SumAdd(MonitoredExposures(map[]), 0, 100);
  }

  // ---------------------------------------------------------------- an early release

  /** An entry fails on chain, a restart releases it at once, the chain drops the failure and lands the entry. */
  lemma EarlyReleaseRun() returns (s: Setup, run: seq<World>, steps: seq<Step>)
    ensures Run(s, run, steps) && Releases.LandedDespiteRelease(run[|steps|], 0) && !s.cat(0).emergency
    ensures steps == EntrySteps(0, 7, Some(5)) + [Land(7, false), Crash, RecoverOne(0, 0), Proceed(0), Reorg(7), Land(7, true)]
  {
    hide Next;
    hide Trail;
    hide Admitted;
    hide Sound;
    hide Listed;
    hide Leads;
    hide EntrySteps;
    s := Deployment(LiveAuto, 100);
    FirstAdmitted(LiveAuto, 100, 0);
    var a := EntrySent(s, 0, 7, Some(5));
    var t0 := EntrySteps(0, 7, Some(5));
    var b := Lands(s, t0, a, 7, false);
    var c := Crashes(s, t0 + [Land(7, false)], b);
    var t1 := t0 + [Land(7, false)] + [Crash];
    var d := ReleasesEarly(s, t1, c);
    TrailSound(s, t1, c, 0);
    var sig, u := Releases.EarlyReleaseLands(s, c, RecoverOne(0, 0), d, 0);
    Resume(s, t1 + [RecoverOne(0, 0)], d, [Proceed(0), Reorg(sig), Land(sig, true)], u);
    steps := t0 + [Land(7, false), Crash, RecoverOne(0, 0), Proceed(0), Reorg(sig), Land(sig, true)];
    assert steps == t1 + [RecoverOne(0, 0)] + [Proceed(0), Reorg(sig), Land(sig, true)];
    run := Finish(s, steps, u);
  }

  lemma ReleasesEarly(s: Setup, steps: seq<Step>, w: World) returns (v: World)
    requires Trail(s, steps, w) && w.work == map[] && w.task.Idle? && !s.cat(0).emergency
    requires OnItsWay(AttemptOf(w.core.journal, 0), s.cat(0), 0, 7, Some(5))
    requires w.chain == Chain(0, map[7 := Tx(0, Some(5), true, Landed(Processed, false))])
    ensures Trail(s, steps + [RecoverOne(0, 0)], v) && Next(s, w, RecoverOne(0, 0), v)
    ensures Releases.Decides(w, v, 0) && Releases.Early(w, 0)
  {
    hide Trail;
    hide Sound;
    TrailSound(s, steps, w, 0);
    var outs := RecoverOuts(w, 0, 0);
    FailureReleases(s, w);
    v := w.(work := w.work[0 := Finishing(outs)], task := Recovering(0));
    assert Next(s, w, RecoverOne(0, 0), v);
    hide Next;
    Extend(s, steps, w, RecoverOne(0, 0), v);
    assert w.chain.txs[7].owner == 0 && Releases.FailedEarly(w.chain.txs[7], 0);
  }

  lemma FailureReleases(s: Setup, w: World)
    requires Sane(s.cat(0), 0, LocalOf(s, w, 0)) && !s.cat(0).emergency
    requires OnItsWay(AttemptOf(w.core.journal, 0), s.cat(0), 0, 7, Some(5))
    requires w.chain == Chain(0, map[7 := Tx(0, Some(5), true, Landed(Processed, false))])
    ensures RecoverOuts(w, 0, 0) != [] && RecoverOuts(w, 0, 0)[0] == Ledger(EntryReleased(0))
  {
    assert StatusIn(ViewOf(w.chain), 7) == Landed(Processed, false);
  }

  // ---------------------------------------------------------------- pauses

  /** A run and its last two worlds. */
  lemma LastTwo(s: Setup, steps: seq<Step>, w: World, step: Step, v: World) returns (run: seq<World>)
    requires Trail(s, steps, w) && Next(s, w, step, v)
    ensures Run(s, run, steps + [step]) && run[|steps|] == w && run[|steps| + 1] == v
  {
    hide Trail;
    hide Next;
    var r := Finish(s, steps, w);
    run := r + [v];
    forall i | 0 <= i < |steps| + 1 ensures Next(s, run[i], (steps + [step])[i], run[i + 1]) {
      assert i < |steps| ==> run[i] == r[i] && run[i + 1] == r[i + 1];
    }
  }

  /** A divergence seen by one tick pauses the executor. */
  lemma DivergencePauses(s: Setup) returns (steps: seq<Step>, w: World)
    requires s == Deployment(LiveAuto, 100)
    ensures Trail(s, steps, w) && Waiting(s, w, 0, 7, None) && w.work == map[] && w.core.pause == Active(RpcDivergence(7))
    ensures AttemptOf(w.core.journal, 0).seen == Unseen
    ensures steps == EntrySteps(0, 7, None) + [TickStart, TickVisit(QDivergent, []), Proceed(0), TickEnd]
  {
    hide Next;
    hide Trail;
    hide Admitted;
    hide EntrySteps;
    FirstAdmitted(LiveAuto, 100, 0);
    var a := EntrySent(s, 0, 7, None);
    var t0 := EntrySteps(0, 7, None);
    var b := Ticks(s, t0, a, 0, 7, QDivergent);
    var t1 := t0 + [TickStart] + [TickVisit(QDivergent, [])];
    var c := Proceeds(s, t1, b, 0);
    w := TickFinishes(s, t1 + [Proceed(0)], c);
    steps := t0 + [TickStart, TickVisit(QDivergent, []), Proceed(0), TickEnd];
    assert steps == t1 + [Proceed(0)] + [TickEnd];
    forall x: Id ensures AttemptOf(w.core.journal, x) == AttemptOf(a.core.journal, x) {
      SameBesides(s, b, c, 0, x);
    }
  }

  const QUIET_TICK: seq<Step> := [TickStart, TickVisit(QUnavailable, []), TickEnd]

  /** The tracker is on its way to lift its pause, an operator clears it, an emergency command pauses, and
      the tracker lifts that. */
  lemma ForeignPauseLifted() returns (s: Setup, run: seq<World>, steps: seq<Step>)
    ensures Run(s, run, steps) && |steps| > 1 && steps[|steps| - 1] == TickRelease
    ensures run[|steps| - 1].core.pause == Active(EmergencyCommand(3)) && run[|steps|].core.pause.Inactive?
    ensures steps == EntrySteps(0, 7, None) + [TickStart, TickVisit(QDivergent, []), Proceed(0), TickEnd] + QUIET_TICK
                     + [Step.OperatorClear, EmergencyPause(EmergencyCommand(3)), TickCustody(true), TickRelease]
  {
    hide Next;
    hide Trail;
    hide EntrySteps;
    s := Deployment(LiveAuto, 100);
    var t0, a := DivergencePauses(s);
    var b := IdleTick(s, t0, a, 0, 7, None);
    var t1 := t0 + [TickStart] + [TickVisit(QUnavailable, [])] + [TickEnd];
    var r := Finish(s, t1, b);
    var before, after := PauseRuns.ClearDuringRelease(s, r, t1, EmergencyCommand(3));
    var more := [Step.OperatorClear, EmergencyPause(EmergencyCommand(3))] + PauseRuns.CustodySteps(b.task);
    Resume(s, t1, b, more, before);
    Extend(s, t1 + more, before, TickRelease, after);
    steps := t1 + more + [TickRelease];
    run := LastTwo(s, t1 + more, before, TickRelease, after);
    assert steps == t0 + QUIET_TICK + [Step.OperatorClear, EmergencyPause(EmergencyCommand(3)), TickCustody(true), TickRelease];
  }

  /** An emergency command pauses under a tracker's pause, and the tracker's next quiet tick sets out to lift it. */
  lemma SwallowedThenTick(s: Setup) returns (steps: seq<Step>, w: World)
    requires s == Deployment(LiveAuto, 100)
    ensures Trail(s, steps, w) && w.task == Clearing(false)
    ensures steps == EntrySteps(0, 7, None) + [TickStart, TickVisit(QDivergent, []), Proceed(0), TickEnd]
                     + [EmergencyPause(EmergencyCommand(3))] + QUIET_TICK
  {
    hide Next;
    hide Trail;
    hide EntrySteps;
    hide AttemptOf;
    var t0, a := DivergencePauses(s);
    SwallowedStep(s, a);
    Extend(s, t0, a, EmergencyPause(EmergencyCommand(3)), a);
    var t1 := t0 + [EmergencyPause(EmergencyCommand(3))];
    w := IdleTick(s, t1, a, 0, 7, None);
    steps := t1 + QUIET_TICK;
    assert steps == t1 + [TickStart] + [TickVisit(QUnavailable, [])] + [TickEnd];
  }

  /** Which leaves the executor unpaused. */
  lemma EmergencyPauseSwallowed() returns (s: Setup, run: seq<World>, steps: seq<Step>)
    ensures Run(s, run, steps) && PauseRuns.Uncleared(steps) && EmergencyPause(EmergencyCommand(3)) in steps
    ensures run[|steps|].core.pause.Inactive?
    ensures steps == EntrySteps(0, 7, None) + [TickStart, TickVisit(QDivergent, []), Proceed(0), TickEnd]
                     + [EmergencyPause(EmergencyCommand(3))] + QUIET_TICK + [TickCustody(true), TickRelease]
  {
    hide Next;
    hide Trail;
    s := Deployment(LiveAuto, 100);
    UnclearedEntry();
    hide EntrySteps;
    var t, a := SwallowedThenTick(s);
    var before, after := PauseRuns.ReleaseFinishes(s, a);
    Resume(s, t, a, [TickCustody(true)], before);
    Extend(s, t + [TickCustody(true)], before, TickRelease, after);
    steps := t + [TickCustody(true), TickRelease];
    assert steps == t + [TickCustody(true)] + [TickRelease];
    run := Finish(s, steps, after);
    assert steps[|EntrySteps(0, 7, None)| + 4] == EmergencyPause(EmergencyCommand(3));
  }

  lemma UnclearedEntry()
    ensures PauseRuns.Uncleared(EntrySteps(0, 7, None))
  {
  }

  lemma SwallowedStep(s: Setup, w: World)
    requires w.core.pause.Active?
    ensures Next(s, w, EmergencyPause(EmergencyCommand(3)), w)
  {
  }

  // ---------------------------------------------------------------- a torn doubt

  /** A confirmed entry goes missing, and the crash falls between the doubt and its pause. */
  lemma DoubtTornByCrash() returns (s: Setup, run: seq<World>, steps: seq<Step>)
    ensures Run(s, run, steps) && ReorgPause.DoubtUnpaused(run[|steps|], 0)
    ensures steps == EntrySteps(0, 7, None) + ConfirmSteps(0) + [TickStart, TickVisit(QMissing(false), []), Proceed(0), Crash]
  {
    hide Next;
    hide Trail;
    hide Admitted;
    hide EntrySteps;
    hide ConfirmSteps;
    s := Deployment(LiveAuto, 100);
    FirstAdmitted(LiveAuto, 100, 0);
    var a := EntrySent(s, 0, 7, None);
    var t0 := EntrySteps(0, 7, None);
    var b := ConfirmingTick(s, t0, a, 0, 7, None);
    var t1 := t0 + ConfirmSteps(0);
    var e := DoubtTorn(s, t1, b);
    steps := t1 + [TickStart, TickVisit(QMissing(false), []), Proceed(0), Crash];
    assert steps == t1 + [TickStart] + [TickVisit(QMissing(false), [])] + [Proceed(0)] + [Crash];
    run := Finish(s, steps, e);
  }

  lemma DoubtTorn(s: Setup, steps: seq<Step>, w: World) returns (v: World)
    requires Trail(s, steps, w) && Waiting(s, w, 0, 7, None) && !s.cat(0).emergency && w.work == map[] && w.core.pause.Inactive?
    requires AttemptOf(w.core.journal, 0).seen.SeenConfirmed?
    ensures Trail(s, steps + [TickStart] + [TickVisit(QMissing(false), [])] + [Proceed(0)] + [Crash], v)
    ensures ReorgPause.DoubtUnpaused(v, 0)
  {
    hide Next;
    hide Trail;
    var c := Ticks(s, steps, w, 0, 7, QMissing(false));
    var t := steps + [TickStart] + [TickVisit(QMissing(false), [])];
    var d := Proceeds(s, t, c, 0);
    v := Crashes(s, t + [Proceed(0)], d);
    assert ReorgPause.Doubt(AttemptOf(v.core.journal, 0));
  }

  // ---------------------------------------------------------------- a burial

  /** Signed, then a restart, then the last valid height passes and the tracker buries the attempt. */
  lemma BurialRun() returns (s: Setup, run: seq<World>, steps: seq<Step>)
    ensures Run(s, run, steps) && !Rebuild.Simulates(run[|steps|].core.registry, FromJournal(run[|steps|].core.journal))
    ensures [Deliver(0), Admit(0), Sign(0, 7, Some(0)), Crash, Advance, TickStart, TickVisit(QMissing(true), [])] <= steps
  {
    hide Next;
    hide Trail;
    hide Admitted;
    s := Deployment(LiveAuto, 100);
    var t0, a := SignedThenCrashed(s);
    var b := Ticks(s, t0, a, 0, 7, QMissing(true));
    var r := Finish(s, t0 + [TickStart], a.(task := Ticking([0], None, false)));
    var more, u := Rebuild.BurialBreaksSimulation(s, r, t0 + [TickStart], TickVisit(QMissing(true), []), b);
    Resume(s, t0 + [TickStart] + [TickVisit(QMissing(true), [])], b, more, u);
    steps := t0 + [TickStart] + [TickVisit(QMissing(true), [])] + more;
    run := Finish(s, steps, u);
  }

  lemma SignedThenCrashed(s: Setup) returns (steps: seq<Step>, w: World)
    requires s == Deployment(LiveAuto, 100)
    ensures Trail(s, steps, w) && steps == [Deliver(0), Admit(0), Sign(0, 7, Some(0)), Crash, Advance]
    ensures w.task.Idle? && AloneAtRest(w, 0) && w.work == map[] && w.chain == Chain(1, map[7 := Tx(0, Some(0), false, Absent)])
    ensures var a := AttemptOf(w.core.journal, 0);
            && a.signed == Some(SignedLineOf(s.cat(0), 0, 7, Some(0))) && a.last == SignedLine(Some(7)) && !a.seen.SeenConfirmed?
    ensures LocalOf(s, w, 0).live == Some(CREATED)
  {
    hide Next;
    hide Trail;
    hide Admitted;
    hide Sound;
    FirstAdmitted(LiveAuto, 100, 0);
    Begin(s);
    var a := Reserves(s, [], START, 0);
    var b := Signs(s, [] + [Deliver(0)] + [Admit(0)], a, 0, 7, Some(0));
    TrailSound(s, [] + [Deliver(0)] + [Admit(0)] + [Sign(0, 7, Some(0))], b, 0);
    var c := Crashes(s, [] + [Deliver(0)] + [Admit(0)] + [Sign(0, 7, Some(0))], b);
    w := c.(chain := Chain(1, c.chain.txs));
    AdvanceStep(s, c);
    Extend(s, [] + [Deliver(0)] + [Admit(0)] + [Sign(0, 7, Some(0))] + [Crash], c, Advance, w);
    steps := [Deliver(0), Admit(0), Sign(0, 7, Some(0)), Crash, Advance];
    assert steps == [] + [Deliver(0)] + [Admit(0)] + [Sign(0, 7, Some(0))] + [Crash] + [Advance];
    forall x: Id | x != 0 ensures AttemptOf(w.core.journal, x) == NO_ATTEMPT {
      SameBesides(s, START, a, 0, x);
      SameBesides(s, a, b, 0, x);
    }
  }

  lemma AdvanceStep(s: Setup, w: World)
    ensures Next(s, w, Advance, w.(chain := Chain(w.chain.height + 1, w.chain.txs)))
  {
  }

  // ---------------------------------------------------------------- the aggregate cap

  const BOUGHT := OpenEntry(2, 100, Some(100), MonitoredExit)
  const HALVED := OpenEntry(2, 50, Some(50), MonitoredExit)

  function SaleSteps(): seq<Step> {
    [EmergencyClose(1)] + SentSteps(1, 8, None) + [Land(8, true)] + [Promote(8)] + [Promote(8)] + [Settle(1, FINALIZED, Some(50), [0])]
    + [Proceed(1)] + [Proceed(1)]
  }

  /** An emergency close has landed for good: half of what is held is sold. */
  lemma SaleOnChain(s: Setup, steps: seq<Step>, w: World) returns (v: World)
    requires s == Deployment(LiveAuto, 100) && Trail(s, steps, w) && Waiting(s, w, 0, 7, None)
    requires w.core.pause.Inactive? && w.core.registry.Keys == {0} && w.work == map[]
    requires w.chain == Chain(0, map[7 := Tx(0, None, true, Absent)])
    ensures Trail(s, steps + [EmergencyClose(1)] + SentSteps(1, 8, None) + [Land(8, true)] + [Promote(8)] + [Promote(8)], v)
    ensures v.core.open == w.core.open && v.core.pause.Inactive? && v.core.registry.Keys == {0, 1} && v.task == w.task
    ensures v.work == map[1 := Phase.Sent(8)]
    ensures v.chain == Chain(0, map[7 := Tx(0, None, true, Absent), 8 := Tx(1, None, true, Landed(Finalized, true))])
    ensures OnItsWay(AttemptOf(v.core.journal, 1), s.cat(1), 1, 8, None)
    ensures forall x: Id :: x != 1 ==> AttemptOf(v.core.journal, x) == AttemptOf(w.core.journal, x)
  {
    hide Next;
    hide Trail;
    hide SentSteps;
    var a := Closes(s, steps, w, 1);
    var t := steps + [EmergencyClose(1)];
    var b := GoesOut(s, t, a, 1, 8, None);
    var c := Lands(s, t + SentSteps(1, 8, None), b, 8, true);
    v := Finalizes(s, t + SentSteps(1, 8, None) + [Land(8, true)], c, 8);
    forall x: Id | x != 1 ensures AttemptOf(v.core.journal, x) == AttemptOf(w.core.journal, x) {
      SameBesides(s, w, a, 1, x);
    }
  }

  lemma SaleOuts()
    ensures var open := map[0 := BOUGHT];
            && ListsMint(open, 2, [0])
            && RecordOuts(open, 1, Catalogue(1, LiveAuto), FINALIZED, Some(50), [0])
               == [Ledger(ExitConfirmed(0, 50)), Result(1, 1, FINALIZED, COMPLETED, Live, To(COMPLETED))]
            && After(open, ExitConfirmed(0, 50)) == map[0 := HALVED]
  {
    var open := map[0 := BOUGHT];
    var it := Catalogue(1, LiveAuto);
    assert ExitOuts(open, [0], 50, 100) == [Ledger(ExitConfirmed(0, 50))] + ExitOuts(open, [], 50, 100) by {
      assert [0][1..] == [];
      assert SaleReleased(100, 50, 100) == 50;
    }
  }

  const SALE: seq<Out> := [Ledger(ExitConfirmed(0, 50)), Result(1, 1, FINALIZED, COMPLETED, Live, To(COMPLETED))]

  lemma SaleSettled(s: Setup, steps: seq<Step>, w: World) returns (v: World)
    requires s == Deployment(LiveAuto, 100) && Trail(s, steps, w)
    requires w.core.open == map[0 := BOUGHT] && w.work == map[1 := Phase.Sent(8)]
    requires w.chain == Chain(0, map[7 := Tx(0, None, true, Absent), 8 := Tx(1, None, true, Landed(Finalized, true))])
    ensures Trail(s, steps + [Settle(1, FINALIZED, Some(50), [0])], v) && v == w.(work := map[1 := Finishing(SALE)])
  {
    hide Next;
    hide Trail;
    hide RecordOuts;
    hide ListsMint;
    SaleOuts();
    v := Settles(s, steps, w, 1, FINALIZED, Some(50), [0]);
    assert v.work == map[1 := Finishing(SALE)];
  }

  lemma SaleEmits(c: Core)
    ensures c.open == map[0 := BOUGHT] ==>
              var d := Emit(c, 1, SALE[0]); d.open == map[0 := HALVED] && d.pause == c.pause && d.registry == c.registry
    ensures var d := Emit(c, 1, SALE[1]); d.open == c.open && d.pause == c.pause && d.registry.Keys == c.registry.Keys
  {
    SaleOuts();
  }

  lemma ResultIsLast(l: Local)
    ensures LocalEmit(l, 1, SALE[1], None).att.last.ResultLine?
  {
  }

  /** The sale is recorded against the entry, whose own result is still out. */
  lemma SaleRecorded(s: Setup, steps: seq<Step>, w: World) returns (v: World)
    requires s == Deployment(LiveAuto, 100) && Trail(s, steps, w)
    requires w.core.open == map[0 := BOUGHT] && w.work == map[1 := Finishing(SALE)]
    ensures Trail(s, steps + [Proceed(1)] + [Proceed(1)], v)
    ensures v.core.open == map[0 := HALVED] && v.core.pause == w.core.pause && v.core.registry.Keys == w.core.registry.Keys
    ensures v.task == w.task && v.work == map[] && v.chain == w.chain
    ensures AttemptOf(v.core.journal, 1).last.ResultLine?
    ensures forall x: Id :: x != 1 ==> AttemptOf(v.core.journal, x) == AttemptOf(w.core.journal, x)
  {
    hide Next;
    hide Trail;
    hide Emit;
    hide LocalEmit;
    hide FromJournal;
    SaleEmits(w.core);
    var a := Proceeds(s, steps, w, 1);
    assert SALE[1..] == [SALE[1]] && a.work == map[1 := Finishing([SALE[1]])];
    SaleEmits(a.core);
    v := Proceeds(s, steps + [Proceed(1)], a, 1);
    assert [SALE[1]][1..] == [];
    ResultIsLast(LocalOf(s, a, 1));
    assert v.work == map[];
    forall x: Id | x != 1 ensures AttemptOf(v.core.journal, x) == AttemptOf(w.core.journal, x) {
      SameBesides(s, w, a, 1, x);
      SameBesides(s, a, v, 1, x);
    }
  }

  /** Bought, confirmed, and half sold while the entry's own result is still out. */
  lemma HalfSold(s: Setup) returns (w: World)
    requires s == Deployment(LiveAuto, 100)
    ensures Trail(s, EntrySteps(0, 7, None) + ConfirmSteps(0) + SaleSteps(), w) && Waiting(s, w, 0, 7, None)
    ensures w.core.open == map[0 := HALVED] && w.core.pause.Inactive? && w.core.registry.Keys == {0, 1}
    ensures w.work == map[] && w.chain.height == 0 && 7 in w.chain.txs && w.chain.txs[7] == Tx(0, None, true, Absent)
  {
    hide Next;
    hide Trail;
    hide Admitted;
    hide EntrySteps;
    hide ConfirmSteps;
    hide SentSteps;
    FirstAdmitted(LiveAuto, 100, 0);
    var t0 := EntrySteps(0, 7, None);
    var a := EntrySent(s, 0, 7, None);
    var b := ConfirmingTick(s, t0, a, 0, 7, None);
    assert b.core.open == map[0 := BOUGHT];
    var t1 := t0 + ConfirmSteps(0);
    var c := SaleOnChain(s, t1, b);
    var t2 := t1 + [EmergencyClose(1)] + SentSteps(1, 8, None) + [Land(8, true)] + [Promote(8)] + [Promote(8)];
    var d := SaleSettled(s, t2, c);
    w := SaleRecorded(s, t2 + [Settle(1, FINALIZED, Some(50), [0])], d);
    assert t2 + [Settle(1, FINALIZED, Some(50), [0])] + [Proceed(1)] + [Proceed(1)] == t1 + SaleSteps();
  }

  lemma Totals()
    ensures Total(map[0 := HALVED]) == 50 && Monitored(map[0 := HALVED]) == 50
    ensures Total(map[0 := HALVED.(confirmed := Some(100)), 2 := NewEntry(Catalogue(2, LiveAuto))]) == 150
  {
    NothingOpen();
    var sold := map[0 := HALVED];
    assert Exposures(sold) == Exposures(map[])[0 := 50] && MonitoredExposures(sold) == MonitoredExposures(map[])[0 := 50];
    SumAdd(Exposures(map[]), 0, 50);
    SumAdd(MonitoredExposures(map[]), 0, 50);
    var both := map[0 := HALVED.(confirmed := Some(100)), 2 := NewEntry(Catalogue(2, LiveAuto))];
    assert Exposures(both) == Exposures(map[])[0 := 100][2 := 50];
    SumAdd(Exposures(map[]), 0, 100);
    SumAdd(Exposures(map[])[0 := 100], 2, 50);
  }

  /** The sale has made room for another entry. */
  lemma SecondAdmitted()
    ensures Admitted(Deployment(LiveAuto, 100).g, map[0 := HALVED], Catalogue(2, LiveAuto), None)
  {
    Totals();
  }

  function LastSteps(): seq<Step> {
    [Deliver(2)] + [Admit(2)] + [Land(7, true)] + [Promote(7)] + [Promote(7)] + [TickStart] + [TickVisit(QFinalized, [])] + [Proceed(0)]
  }

  /** The tracker confirms the first entry at its full notional after all, and the total passes the cap. */
  lemma FinalizedAfterAll(s: Setup, steps: seq<Step>, w: World) returns (v: World)
    requires s == Deployment(LiveAuto, 100) && Trail(s, steps, w) && Waiting(s, w, 0, 7, None)
    requires w.core.open == map[0 := HALVED] && w.core.registry.Keys == {0, 1} && w.work == map[]
    requires w.chain.height == 0 && 7 in w.chain.txs && w.chain.txs[7] == Tx(0, None, true, Absent)
    ensures Trail(s, steps + LastSteps(), v)
    ensures v.core.open == map[0 := HALVED.(confirmed := Some(100)), 2 := NewEntry(Catalogue(2, LiveAuto))]
  {
    hide Next;
    hide Trail;
    hide Admitted;
    hide AttemptOf;
    SecondAdmitted();
    var a := Reserves(s, steps, w, 2);
    var t := steps + [Deliver(2)] + [Admit(2)];
    var b := Lands(s, t, a, 7, true);
    var c := Finalizes(s, t + [Land(7, true)], b, 7);
    forall x: Id | x != 2 ensures AttemptOf(c.core.journal, x) == AttemptOf(w.core.journal, x) {
      SameBesides(s, w, a, 2, x);
    }
    var t2 := t + [Land(7, true)] + [Promote(7)] + [Promote(7)];
    var d := Ticks(s, t2, c, 0, 7, QFinalized);
    v := Proceeds(s, t2 + [TickStart] + [TickVisit(QFinalized, [])], d, 0);
    assert steps + LastSteps() == t2 + [TickStart] + [TickVisit(QFinalized, [])] + [Proceed(0)];
  }

  lemma StepsFilled(s: Setup, a: seq<Step>, b: seq<Step>)
    requires CapRuns.AllFilled(s, a) && CapRuns.AllFilled(s, b)
    ensures CapRuns.AllFilled(s, a + b)
  {
  }

  /** Fills within the authorised input, entries that all increase exposure, and yet the aggregate cap is
      passed: an exit came before the entry's own result. */
  lemma AggregateCapPassed() returns (s: Setup, run: seq<World>, steps: seq<Step>)
    ensures Run(s, run, steps) && CapRuns.Increasing(s) && CapRuns.AllFilled(s, steps)
    ensures Total(run[|steps|].core.open) == 150 && s.g.maxAggregate == 100
    ensures steps == EntrySteps(0, 7, None) + ConfirmSteps(0) + SaleSteps() + LastSteps()
  {
    hide Next;
    hide Trail;
    s := Deployment(LiveAuto, 100);
    assert CapRuns.AllFilled(s, EntrySteps(0, 7, None)) && CapRuns.AllFilled(s, ConfirmSteps(0));
    assert CapRuns.AllFilled(s, SaleSteps()) && CapRuns.AllFilled(s, LastSteps());
    hide EntrySteps;
    hide ConfirmSteps;
    hide SaleSteps;
    hide LastSteps;
    hide CapRuns.AllFilled;
    var w := HalfSold(s);
    var v := FinalizedAfterAll(s, EntrySteps(0, 7, None) + ConfirmSteps(0) + SaleSteps(), w);
    steps := EntrySteps(0, 7, None) + ConfirmSteps(0) + SaleSteps() + LastSteps();
    run := Finish(s, steps, v);
    Totals();
    StepsFilled(s, EntrySteps(0, 7, None), ConfirmSteps(0));
    StepsFilled(s, EntrySteps(0, 7, None) + ConfirmSteps(0), SaleSteps());
    StepsFilled(s, EntrySteps(0, 7, None) + ConfirmSteps(0) + SaleSteps(), LastSteps());
  }

  // ---------------------------------------------------------------- exposure sold from under an entry

  const FULL_SALE: seq<Out> := [Ledger(ExitConfirmed(0, 100)), Result(3, 3, FINALIZED, COMPLETED, Live, To(COMPLETED))]

  function FullSaleSteps(): seq<Step> {
    [EmergencyClose(3)] + SentSteps(3, 8, None) + [Land(8, true)] + [Promote(8)] + [Promote(8)] + [Settle(3, FINALIZED, None, [0])]
    + [Proceed(3)] + [Proceed(3)]
  }

  lemma FullSaleOuts()
    ensures var open := map[0 := NewEntry(Catalogue(0, LiveAuto))];
            && ListsMint(open, 2, [0])
            && RecordOuts(open, 3, Catalogue(3, LiveAuto), FINALIZED, None, [0]) == FULL_SALE
            && After(open, ExitConfirmed(0, 100)) == map[]
  {
    var open := map[0 := NewEntry(Catalogue(0, LiveAuto))];
    assert ExitOuts(open, [0], 100, 100) == [Ledger(ExitConfirmed(0, 100))] + ExitOuts(open, [], 100, 100) by {
      assert [0][1..] == [];
      assert SaleReleased(100, 100, 100) == 100;
    }
  }

  lemma FullSaleEmits(c: Core)
    ensures c.open == map[0 := NewEntry(Catalogue(0, LiveAuto))] ==>
              var d := Emit(c, 3, FULL_SALE[0]); d.open == map[] && d.pause == c.pause && d.registry == c.registry
    ensures var d := Emit(c, 3, FULL_SALE[1]); d.open == c.open && d.pause == c.pause && d.registry.Keys == c.registry.Keys
  {
    FullSaleOuts();
  }

  /** A close of the entry's mint lands for good and sells all that is held, whatever the entry itself is doing. */
  lemma FullSaleOnChain(s: Setup, steps: seq<Step>, w: World) returns (v: World)
    requires s == Deployment(LiveAuto, 100) && Trail(s, steps, w) && 3 !in w.work && 8 !in w.chain.txs
    requires w.core.open == map[0 := NewEntry(s.cat(0))] && w.core.pause.Inactive? && w.core.registry.Keys == {0}
    ensures Trail(s, steps + [EmergencyClose(3)] + SentSteps(3, 8, None) + [Land(8, true)] + [Promote(8)] + [Promote(8)], v)
    ensures v.core.open == w.core.open && v.core.pause.Inactive? && v.task == w.task && v.work == w.work[3 := Phase.Sent(8)]
    ensures v.chain == w.chain.(txs := w.chain.txs[8 := Tx(3, None, true, Landed(Finalized, true))])
    ensures AttemptOf(v.core.journal, 0) == AttemptOf(w.core.journal, 0)
  {
    hide Next;
    hide Trail;
    hide SentSteps;
    hide AttemptOf;
    var a := Closes(s, steps, w, 3);
    var t := steps + [EmergencyClose(3)];
    var b := GoesOut(s, t, a, 3, 8, None);
    var c := Lands(s, t + SentSteps(3, 8, None), b, 8, true);
    v := Finalizes(s, t + SentSteps(3, 8, None) + [Land(8, true)], c, 8);
    assert v.chain.txs == w.chain.txs[8 := Tx(3, None, true, Landed(Finalized, true))];
    SameBesides(s, w, a, 3, 0);
  }

  /** And is recorded: the reservation is gone. */
  lemma FullSaleRecorded(s: Setup, steps: seq<Step>, w: World) returns (v: World)
    requires s == Deployment(LiveAuto, 100) && Trail(s, steps, w) && At(w, 3) == Some(Phase.Sent(8)) && StatusOf(w.chain, 8) == Landed(Finalized, true)
    requires w.core.open == map[0 := NewEntry(s.cat(0))] && w.core.pause.Inactive?
    ensures Trail(s, steps + [Settle(3, FINALIZED, None, [0])] + [Proceed(3)] + [Proceed(3)], v)
    ensures v.core.open == map[] && v.core.pause.Inactive? && v.task == w.task && v.work == w.work - {3} && v.chain == w.chain
    ensures AttemptOf(v.core.journal, 0) == AttemptOf(w.core.journal, 0)
  {
    hide Next;
    hide Trail;
    hide RecordOuts;
    hide ListsMint;
    hide Emit;
    hide LocalEmit;
    hide AttemptOf;
    FullSaleOuts();
    var a := Settles(s, steps, w, 3, FINALIZED, None, [0]);
    FullSaleEmits(a.core);
    var t := steps + [Settle(3, FINALIZED, None, [0])];
    var b := Proceeds(s, t, a, 3);
    assert FULL_SALE[1..] == [FULL_SALE[1]] && [FULL_SALE[1]][1..] == [];
    FullSaleEmits(b.core);
    v := Proceeds(s, t + [Proceed(3)], b, 3);
    SameBesides(s, a, b, 3, 0);
    SameBesides(s, b, v, 3, 0);
  }

  lemma FullSale(s: Setup, steps: seq<Step>, w: World) returns (v: World)
    requires s == Deployment(LiveAuto, 100) && Trail(s, steps, w) && 3 !in w.work && 8 !in w.chain.txs
    requires w.core.open == map[0 := NewEntry(s.cat(0))] && w.core.pause.Inactive? && w.core.registry.Keys == {0}
    ensures Trail(s, steps + FullSaleSteps(), v)
    ensures v.core.open == map[] && v.core.pause.Inactive? && v.task == w.task && v.work == w.work
    ensures v.chain == w.chain.(txs := w.chain.txs[8 := Tx(3, None, true, Landed(Finalized, true))])
    ensures AttemptOf(v.core.journal, 0) == AttemptOf(w.core.journal, 0)
  {
    hide Next;
    hide Trail;
    hide SentSteps;
    hide AttemptOf;
    var a := FullSaleOnChain(s, steps, w);
    var t := steps + [EmergencyClose(3)] + SentSteps(3, 8, None) + [Land(8, true)] + [Promote(8)] + [Promote(8)];
    v := FullSaleRecorded(s, t, a);
    assert t + [Settle(3, FINALIZED, None, [0])] + [Proceed(3)] + [Proceed(3)] == steps + FullSaleSteps();
    assert v.work == w.work;
  }

  /** Landed, and not in the ledger. */
  ghost predicate LandedUncounted(w: World) {
    w.core.open == map[] && AttemptOf(w.core.journal, 0).last.SubmittedLine?
    && 7 in w.chain.txs && w.chain.txs[7].owner == 0 && w.chain.txs[7].status == Landed(Processed, true)
  }

  /** An entry is on its way when a close of its mint sells all that is held: its reservation goes, and then it lands. */
  lemma SoldWhileOnItsWay() returns (s: Setup, run: seq<World>, steps: seq<Step>)
    ensures Run(s, run, steps) && CapRuns.Increasing(s) && CapRuns.AllFilled(s, steps) && LandedUncounted(run[|steps|])
    ensures steps == EntrySteps(0, 7, None) + FullSaleSteps() + [Land(7, true)]
  {
    hide Next;
    hide Trail;
    hide Admitted;
    hide AttemptOf;
    s := Deployment(LiveAuto, 100);
    assert CapRuns.AllFilled(s, EntrySteps(0, 7, None)) && CapRuns.AllFilled(s, FullSaleSteps()) && CapRuns.AllFilled(s, [Land(7, true)]);
    hide EntrySteps;
    hide FullSaleSteps;
    hide CapRuns.AllFilled;
    FirstAdmitted(LiveAuto, 100, 0);
    var a := EntrySent(s, 0, 7, None);
    var b := FullSale(s, EntrySteps(0, 7, None), a);
    var c := Lands(s, EntrySteps(0, 7, None) + FullSaleSteps(), b, 7, true);
    steps := EntrySteps(0, 7, None) + FullSaleSteps() + [Land(7, true)];
    StepsFilled(s, EntrySteps(0, 7, None), FullSaleSteps());
    StepsFilled(s, EntrySteps(0, 7, None) + FullSaleSteps(), [Land(7, true)]);
    run := Finish(s, steps, c);
  }

  /** The same before the entry is even signed: it is signed, sent and landed with nothing reserved. */
  lemma SignedWithNothingReserved() returns (s: Setup, run: seq<World>, steps: seq<Step>)
    ensures Run(s, run, steps) && CapRuns.Increasing(s) && CapRuns.AllFilled(s, steps) && LandedUncounted(run[|steps|])
    ensures steps == [Deliver(0)] + [Admit(0)] + FullSaleSteps() + SentSteps(0, 7, None) + [Land(7, true)]
  {
    hide Next;
    hide Trail;
    hide Admitted;
    hide AttemptOf;
    s := Deployment(LiveAuto, 100);
    var t0 := [Deliver(0)] + [Admit(0)];
    assert CapRuns.AllFilled(s, t0) && CapRuns.AllFilled(s, FullSaleSteps()) && CapRuns.AllFilled(s, SentSteps(0, 7, None) + [Land(7, true)]);
    hide FullSaleSteps;
    hide SentSteps;
    hide CapRuns.AllFilled;
    FirstAdmitted(LiveAuto, 100, 0);
    Begin(s);
    assert [] + [Deliver(0)] + [Admit(0)] == t0;
    var a := Reserves(s, [], START, 0);
    var b := FullSale(s, t0, a);
    var t1 := t0 + FullSaleSteps();
    var c := GoesOut(s, t1, b, 0, 7, None);
    var d := Lands(s, t1 + SentSteps(0, 7, None), c, 7, true);
    steps := t1 + SentSteps(0, 7, None) + [Land(7, true)];
    StepsFilled(s, t0, FullSaleSteps());
    StepsFilled(s, t1, SentSteps(0, 7, None) + [Land(7, true)]);
    assert steps == t1 + (SentSteps(0, 7, None) + [Land(7, true)]);
    run := Finish(s, steps, d);
  }

  // ---------------------------------------------------------------- a sale that recovery does not record

  /** A final sale of half the holding is recovered: the close is concluded, and the entry still counts in full. */
  lemma SaleNotRecovered() returns (s: Setup, run: seq<World>, steps: seq<Step>)
    ensures Run(s, run, steps) && run[|steps|].core.open == map[0 := BOUGHT]
    ensures AttemptOf(run[|steps|].core.journal, 1).last.ResultLine?
    ensures 8 in run[|steps|].chain.txs && run[|steps|].chain.txs[8] == Tx(1, None, true, Landed(Finalized, true))
  {
    hide Next;
    hide Trail;
    hide Admitted;
    hide EntrySteps;
    hide ConfirmSteps;
    hide SentSteps;
    s := Deployment(LiveAuto, 100);
    FirstAdmitted(LiveAuto, 100, 0);
    var t0 := EntrySteps(0, 7, None);
    var a := EntrySent(s, 0, 7, None);
    var b := ConfirmingTick(s, t0, a, 0, 7, None);
    assert b.core.open == map[0 := BOUGHT];
    var t1 := t0 + ConfirmSteps(0);
    var c := SaleOnChain(s, t1, b);
    var t2 := t1 + [EmergencyClose(1)] + SentSteps(1, 8, None) + [Land(8, true)] + [Promote(8)] + [Promote(8)];
    var d := Crashes(s, t2, c);
    var e := RecoversSale(s, t2 + [Crash], d);
    steps := t2 + [Crash] + [RecoverOne(1, 0)] + [Proceed(1)];
    run := Finish(s, steps, e);
  }

  lemma RecoversSale(s: Setup, steps: seq<Step>, w: World) returns (v: World)
    requires s == Deployment(LiveAuto, 100) && Trail(s, steps, w) && w.core.open == map[0 := BOUGHT] && w.work == map[] && w.task.Idle?
    requires OnItsWay(AttemptOf(w.core.journal, 1), s.cat(1), 1, 8, None)
    requires 8 in w.chain.txs && w.chain.txs[8] == Tx(1, None, true, Landed(Finalized, true))
    ensures Trail(s, steps + [RecoverOne(1, 0)] + [Proceed(1)], v) && v.core.open == w.core.open && v.chain == w.chain
    ensures AttemptOf(v.core.journal, 1).last.ResultLine?
  {
    hide Trail;
    hide Sound;
    hide RecoverOuts;
    hide AttemptOf;
    TrailSound(s, steps, w, 1);
    SaleIsFinal(s, w);
    var outs := RecoverOuts(w, 1, 0);
    var u := w.(work := w.work[1 := Finishing(outs)], task := Recovering(1));
    assert Next(s, w, RecoverOne(1, 0), u);
    hide Next;
    Extend(s, steps, w, RecoverOne(1, 0), u);
    v := Proceeds(s, steps + [RecoverOne(1, 0)], u, 1);
  }

  lemma SaleIsFinal(s: Setup, w: World)
    requires s == Deployment(LiveAuto, 100) && Sane(s.cat(1), 1, LocalOf(s, w, 1)) && 1 !in w.core.open
    requires OnItsWay(AttemptOf(w.core.journal, 1), s.cat(1), 1, 8, None)
    requires 8 in w.chain.txs && w.chain.txs[8] == Tx(1, None, true, Landed(Finalized, true))
    ensures RecoverOuts(w, 1, 0) == [Result(1, KeyOf(AttemptOf(w.core.journal, 1)), FINALIZED, COMPLETED, Recovered, Via(COMPLETED))]
  {
    assert StatusIn(ViewOf(w.chain), 8) == Landed(Finalized, true);
  }
}
