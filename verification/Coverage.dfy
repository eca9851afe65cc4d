/** What an entry counts for in the ledger while a transaction of it may still land, and how it stops counting. */
module Coverage {
  import opened Sums
  import opened ExposureLedger
  import opened Records
  import opened Intents
  import opened Protocol
  import opened Caps
  import opened Runs
  import opened Invariants
  import opened Preservation
  import opened Steps
  import opened Landing
  import CapRuns
  import Lawful
  import Releases

  /** The ledger event a step writes, if any. */
  function Written(w: World, step: Step): Option<ExposureEvent> {
    if step.Proceed? && At(w, step.id).Some? && At(w, step.id).value.Finishing? && At(w, step.id).value.outs != []
       && At(w, step.id).value.outs[0].Ledger? && Admits(w.core.open, At(w, step.id).value.outs[0].event)
    then Some(At(w, step.id).value.outs[0].event) else None
  }

  /** The entry is gone, or counts for less. */
  predicate Falls(open: Open, after: Open, id: Id) {
    id in open && (id !in after || ExposureOf(after[id]) < ExposureOf(open[id]))
  }

  /** An exit or a release takes the entry below its authorised input. */
  predicate Uncounts(s: Setup, w: World, step: Step, id: Id) {
    && Written(w, step).Some? && (Written(w, step).value.ExitConfirmed? || Written(w, step).value.EntryReleased?)
    && Written(w, step).value.intentId == id && id in w.core.open
    && var after := After(w.core.open, Written(w, step).value); id !in after || ExposureOf(after[id]) < s.cat(id).maxInput
  }

  predicate Counted(s: Setup, w: World, id: Id) {
    id in w.core.open && ExposureOf(w.core.open[id]) >= s.cat(id).maxInput
  }

  // ---------------------------------------------------------------- how the open entries move

  /** Besides an admission, only a written event changes the ledger. */
  lemma OpenMoves(s: Setup, w: World, step: Step, v: World)
    requires Sound(s, w) && Next(s, w, step, v) && !step.Admit?
    ensures v.core.open == if Written(w, step).Some? then After(w.core.open, Written(w, step).value) else w.core.open
    ensures Written(w, step).Some? ==> Event(s.cat(step.id), step.id, Ledger(Written(w, step).value))
  {
    hide Next;
    hide Sound;
    hide After;
    hide Sane;
    hide Event;
    if step.Proceed? {
      ProceedStarts(s, w, step, v);
      CapRuns.ProceedOpen(s, w, step.id, v);
    } else {
      CapRuns.OpenKept(s, w, step, v);
    }
  }

  lemma ProceedStarts(s: Setup, w: World, step: Step, v: World)
    requires Next(s, w, step, v) && step.Proceed?
    ensures At(w, step.id).Some? && At(w, step.id).value.Finishing? && At(w, step.id).value.outs != []
  {
  }

  lemma CountsGrow(s: Setup, w: World, step: Step, v: World, id: Id)
    requires Sound(s, w) && Next(s, w, step, v)
    ensures var a, b := AttemptOf(w.core.journal, id), AttemptOf(v.core.journal, id);
            a.reservations <= b.reservations && a.releases <= b.releases && a.results <= b.results
  {
    hide Next;
    hide Sound;
    Lawful.StepGrows(s, w, step, v);
    if v.core.journal != w.core.journal {
      var r :| v.core.journal == w.core.journal + [r] && Lawful.MayFollow(s, w.core.journal, r);
      AttemptNext(w.core.journal, r, id);
    }
  }

  function Reservations(w: World, id: Id): nat {
    AttemptOf(w.core.journal, id).reservations
  }

  /** An admission reserves: the entry is new, and counts for its whole authorised input. */
  lemma AdmitReserves(s: Setup, w: World, id: Id, v: World)
    requires Sound(s, w) && Next(s, w, Step.Admit(id), v) && Framed(s, w, Step.Admit(id), v)
    ensures !s.cat(id).emergency && Reservations(w, id) == 0
    ensures v.core.open == w.core.open
            || (id !in w.core.open && v.core.open == After(w.core.open, Reservation(id, s.cat(id))) && Reservations(v, id) > 0)
    ensures Reservations(v, id) > 0 ==> id !in w.core.open && v.core.open == After(w.core.open, Reservation(id, s.cat(id)))
  {
    hide OthersSame;
    hide Admitted;
    hide Clean;
    hide Txs;
    CapRuns.AdmitOpen(s, w, id, v);
    WorkingSound(s, w, id);
  }

  lemma CrashAttempt(s: Setup, w: World, v: World, x: Id)
    requires Next(s, w, Step.Crash, v)
    ensures AttemptOf(v.core.journal, x) == AttemptOf(w.core.journal, x)
  {
  }

  lemma AttemptSame(s: Setup, w: World, step: Step, v: World, x: Id)
    requires Next(s, w, step, v) && Framed(s, w, step, v) && Actor(w, step) != Some(x)
    ensures AttemptOf(v.core.journal, x) == AttemptOf(w.core.journal, x)
  {
    hide Next;
    assert LocalOf(s, v, x) == LocalOf(s, w, x);
  }

  /** Only an admission of the attempt itself makes its first reservation. */
  lemma FirstReservation(s: Setup, w: World, step: Step, v: World, id: Id)
    requires Sound(s, w) && Next(s, w, step, v) && Reservations(w, id) == 0 && Reservations(v, id) > 0
    ensures step == Step.Admit(id)
  {
    hide Next;
    hide Sound;
    if step.Crash? {
      CrashAttempt(s, w, v, id);
    } else {
      StepFramed(s, w, step, v);
      if Actor(w, step) == Some(id) {
        if !step.Admit? {
          ActedReservation(s, w, step, v);
        }
      } else {
        AttemptSame(s, w, step, v, id);
      }
    }
  }

  lemma ActedReservation(s: Setup, w: World, step: Step, v: World)
    requires Sound(s, w) && Next(s, w, step, v) && Framed(s, w, step, v) && Actor(w, step).Some? && !step.Admit?
    ensures Reservations(v, Actor(w, step).value) <= Reservations(w, Actor(w, step).value)
  {
    hide Sound;
    hide Sane;
    hide OthersSame;
    if step.Proceed? {
      WorkingSound(s, w, step.id);
      ProceedReservation(s.cat(step.id), step.id, LocalOf(s, w, step.id), At(w, step.id).value.outs);
    }
  }

  lemma ProceedReservation(it: Intent, id: Id, l: Local, outs: seq<Out>)
    requires Sane(it, id, l) && l.att != NO_ATTEMPT && l.phase == Some(Finishing(outs))
    ensures outs != [] && LocalEmit(l, id, outs[0], PhaseFor(outs[1..])).att.reservations == l.att.reservations
  {
  }

  /** Whatever its effect, an attempt that was ever reserved is within the limits of the deployment. */
  lemma {:induction false} ReservedWithinLimits(s: Setup, run: seq<World>, steps: seq<Step>, n: nat, id: Id)
    requires Run(s, run, steps) && n < |run| && Reservations(run[n], id) > 0
    ensures WithinLimits(s.g, s.cat(id))
    decreases n
  {
    hide Next;
    hide Sound;
    hide Listed;
    hide WithinLimits;
    if n > 0 {
      RunSound(s, run, steps, n - 1);
      if Reservations(run[n - 1], id) > 0 {
        ReservedWithinLimits(s, run, steps, n - 1, id);
      } else {
        FirstReservation(s, run[n - 1], steps[n - 1], run[n], id);
        AdmittedWithinLimits(s, run[n - 1], id, run[n]);
      }
    }
  }

  lemma AdmittedWithinLimits(s: Setup, w: World, id: Id, v: World)
    requires Sound(s, w) && Next(s, w, Step.Admit(id), v) && Reservations(w, id) == 0 && Reservations(v, id) > 0
    ensures WithinLimits(s.g, s.cat(id))
  {
    hide Next;
    hide Sound;
    hide WithinLimits;
    StepFramed(s, w, Step.Admit(id), v);
    AdmitReserves(s, w, id, v);
    CapRuns.AdmitOpen(s, w, id, v);
    AdmittedExactly(s.g, w.core.open, s.cat(id), None);
    assert id in v.core.open && id !in w.core.open;
  }

  // ---------------------------------------------------------------- what is open was reserved

  ghost predicate OpenedFor(s: Setup, w: World, id: Id) {
    id in w.core.open ==> !s.cat(id).emergency && Reservations(w, id) > 0
  }

  lemma StepOpened(s: Setup, w: World, step: Step, v: World, id: Id)
    requires Sound(s, w) && OpenedFor(s, w, id) && Next(s, w, step, v)
    ensures OpenedFor(s, v, id)
  {
    hide Next;
    hide Sound;
    hide Reservations;
    CountsGrow(s, w, step, v, id);
    ReservationsAre(w, v, id);
    if step.Admit? {
      StepFramed(s, w, step, v);
      AdmitReserves(s, w, step.id, v);
    } else {
      OpenMoves(s, w, step, v);
    }
  }

  lemma ReservationsAre(w: World, v: World, id: Id)
    ensures Reservations(w, id) <= Reservations(v, id) <==> AttemptOf(w.core.journal, id).reservations <= AttemptOf(v.core.journal, id).reservations
  {
  }

  lemma StartOpened(s: Setup, id: Id)
    ensures OpenedFor(s, START, id)
  {
  }

  lemma {:induction false} RunOpened(s: Setup, run: seq<World>, steps: seq<Step>, n: nat, id: Id)
    requires Run(s, run, steps) && n < |run|
    ensures OpenedFor(s, run[n], id)
  {
    hide Next;
    hide Sound;
    hide Listed;
    hide OpenedFor;
    if n == 0 {
      StartOpened(s, id);
    } else {
      RunOpened(s, run, steps, n - 1, id);
      RunSound(s, run, steps, n - 1);
      StepOpened(s, run[n - 1], steps[n - 1], run[n], id);
    }
  }

  lemma ReservedUnderway(s: Setup, w: World, id: Id)
    requires Sound(s, w) && Reservations(w, id) > 0
    ensures Underway(w, id)
  {
    hide Clean;
    hide Txs;
    assert Sane(s.cat(id), id, LocalOf(s, w, id));
  }

  // ---------------------------------------------------------------- when exposure falls

  /** Writing an output neither revives nor kills any attempt. */
  lemma ProceedSameLife(s: Setup, w: World, step: Step, v: World, id: Id)
    requires Next(s, w, step, v) && step.Proceed?
    ensures Alive(v, id) <==> Alive(w, id)
  {
    ProceedPhases(s, w, step, v, id);
    hide Next;
    hide OnTheWire;
    forall sig: Sig | sig in w.chain.txs ensures CouldLand(v, id, sig) <==> CouldLand(w, id, sig) {
    }
  }

  lemma ProceedPhases(s: Setup, w: World, step: Step, v: World, id: Id)
    requires Next(s, w, step, v) && step.Proceed?
    ensures v.chain == w.chain && (At(v, id) == Some(Building) <==> At(w, id) == Some(Building))
    ensures forall t: Tx, sig: Sig :: OnTheWire(At(v, id), t, sig) <==> OnTheWire(At(w, id), t, sig)
  {
    hide Emit;
  }

  lemma FallIsWritten(s: Setup, w: World, step: Step, v: World, id: Id)
    requires Sound(s, w) && Next(s, w, step, v) && Falls(w.core.open, v.core.open, id)
    ensures Written(w, step).Some? && Written(w, step).value.intentId == id && v.core.open == After(w.core.open, Written(w, step).value)
    ensures Event(s.cat(step.id), step.id, Ledger(Written(w, step).value))
  {
    hide Next;
    hide Sound;
    if step.Admit? {
      StepFramed(s, w, step, v);
      AdmitReserves(s, w, step.id, v);
    } else {
      OpenMoves(s, w, step, v);
    }
  }

  /** At any step of any run after which an open entry is gone or counts for less: some continuation lands a
      transaction of it if and only if it was alive; the step wrote an exit, a release or a lower confirmation,
      which still leaves what is authorised; and a release while alive had been decided on an early failure. */
  lemma ExposureFallsExactly(s: Setup, run: seq<World>, steps: seq<Step>, n: nat, id: Id)
    requires Run(s, run, steps) && n < |steps| && Falls(run[n].core.open, run[n + 1].core.open, id)
    ensures MayLand(s, run[n + 1], id) <==> Alive(run[n], id)
    ensures Written(run[n], steps[n]).Some? && Written(run[n], steps[n]).value.intentId == id
    ensures var e := Written(run[n], steps[n]).value;
            || e.ExitConfirmed?
            || (e.EntryReleased? && (Alive(run[n], id) ==> !Releases.NoEarlyRelease(run, n, id)))
            || (e.EntryConfirmed? && id in run[n + 1].core.open && ExposureOf(run[n + 1].core.open[id]) >= run[n].core.open[id].authorized)
  {
    hide Next;
    hide Sound;
    hide Listed;
    hide Alive;
    hide MayLand;
    hide Releases.NoEarlyRelease;
    RunSound(s, run, steps, n);
    RunSound(s, run, steps, n + 1);
    RunOpened(s, run, steps, n, id);
    FallIsWritten(s, run[n], steps[n], run[n + 1], id);
    ProceedSameLife(s, run[n], steps[n], run[n + 1], id);
    CountsGrow(s, run[n], steps[n], run[n + 1], id);
    ReservedUnderway(s, run[n + 1], id);
    MayLandExactly(s, run[n + 1], id);
    if Written(run[n], steps[n]).value.EntryReleased? && Releases.NoEarlyRelease(run, n, id) {
      Releases.RunSafe(s, run, steps, n, id);
      ReleasingNow(run[n], steps[n], id, s);
      OverIsDead(s, run[n], id);
    }
  }

  lemma ReleasingNow(w: World, step: Step, id: Id, s: Setup)
    requires Written(w, step) == Some(EntryReleased(id)) && Event(s.cat(step.id), step.id, Ledger(EntryReleased(id)))
    ensures Releases.Released(w, id)
  {
  }

  // ---------------------------------------------------------------- what may land is counted

  /** The authorised amount stays whole unless an exit or a release takes it below. */
  lemma AuthorizedKept(s: Setup, w: World, step: Step, v: World, id: Id)
    requires Sound(s, w) && Next(s, w, step, v) && id in w.core.open && w.core.open[id].authorized >= s.cat(id).maxInput
    ensures (id in v.core.open && v.core.open[id].authorized >= s.cat(id).maxInput) <==> !Uncounts(s, w, step, id)
    ensures Uncounts(s, w, step, id) ==> !Counted(s, v, id)
  {
    hide Next;
    hide Sound;
    if step.Admit? {
      StepFramed(s, w, step, v);
      AdmitReserves(s, w, step.id, v);
    } else {
      OpenMoves(s, w, step, v);
    }
  }

  /** Alive and reserved, and authorised for its whole input. */
  ghost predicate Covered(s: Setup, w: World, id: Id) {
    Reservations(w, id) > 0 && Alive(w, id) ==> id in w.core.open && w.core.open[id].authorized >= s.cat(id).maxInput
  }

  lemma NewlyReserved(s: Setup, w: World, step: Step, v: World, id: Id)
    requires Sound(s, w) && Next(s, w, step, v) && Reservations(w, id) == 0 && Reservations(v, id) > 0
    ensures id in v.core.open && v.core.open[id].authorized == s.cat(id).maxInput && v.core.open[id].confirmed.None?
  {
    hide Next;
    hide Sound;
    FirstReservation(s, w, step, v, id);
    StepFramed(s, w, step, v);
    AdmitReserves(s, w, id, v);
  }

  lemma StepCovered(s: Setup, w: World, step: Step, v: World, id: Id)
    requires Sound(s, w) && Covered(s, w, id) && Next(s, w, step, v) && !s.cat(id).emergency
    requires !(Alive(w, id) && Uncounts(s, w, step, id))
    ensures Covered(s, v, id)
  {
    hide Next;
    hide Sound;
    hide Alive;
    hide Reservations;
    hide Uncounts;
    if Reservations(v, id) > 0 && Alive(v, id) {
      if Reservations(w, id) == 0 {
        NewlyReserved(s, w, step, v, id);
      } else {
        ReservedUnderway(s, w, id);
        StepAlive(s, w, step, v, id);
        AuthorizedKept(s, w, step, v, id);
      }
    }
  }

  /** Before the n-th world nothing was taken out of the entry, below its authorised input, while it was alive. */
  ghost predicate NoLiveLoss(s: Setup, run: seq<World>, steps: seq<Step>, n: nat, id: Id)
    requires n <= |steps| < |run|
  {
    forall i :: 0 <= i < n ==> !(Alive(run[i], id) && Uncounts(s, run[i], steps[i], id))
  }

  lemma StartCovered(s: Setup, id: Id)
    ensures Covered(s, START, id)
  {
  }

  lemma {:induction false} RunCovered(s: Setup, run: seq<World>, steps: seq<Step>, n: nat, id: Id)
    requires Run(s, run, steps) && n <= |steps| && !s.cat(id).emergency && NoLiveLoss(s, run, steps, n, id)
    ensures Covered(s, run[n], id)
  {
    hide Next;
    hide Sound;
    hide Listed;
    hide Alive;
    hide Uncounts;
    hide Covered;
    if n == 0 {
      StartCovered(s, id);
    } else {
      RunCovered(s, run, steps, n - 1, id);
      RunSound(s, run, steps, n - 1);
      StepCovered(s, run[n - 1], steps[n - 1], run[n], id);
    }
  }

  /** Reserved and able to land, but not counted for its whole authorised input. */
  ghost predicate Exposed(s: Setup, w: World, id: Id) {
    Reservations(w, id) > 0 && MayLand(s, w, id) && !Counted(s, w, id)
  }

  ghost predicate NeverExposed(s: Setup, run: seq<World>, n: nat, id: Id)
    requires n <= |run|
  {
    forall m :: 0 <= m < n ==> !Exposed(s, run[m], id)
  }

  lemma LossExposes(s: Setup, w: World, step: Step, v: World, id: Id)
    requires Proper(s) && Sound(s, w) && Listed(w) && Covered(s, w, id) && OpenedFor(s, w, id) && Next(s, w, step, v)
    requires Alive(w, id) && Uncounts(s, w, step, id)
    ensures Exposed(s, v, id)
  {
    hide Next;
    hide Sound;
    hide Listed;
    hide Alive;
    hide MayLand;
    StepSound(s, w, step, v);
    AuthorizedKept(s, w, step, v, id);
    ProceedSameLife(s, w, step, v, id);
    AliveLands(s, v, id);
    CountsGrow(s, w, step, v, id);
  }

  lemma CoveredNotExposed(s: Setup, w: World, id: Id)
    requires Proper(s) && Sound(s, w) && Listed(w) && Covered(s, w, id) && !s.cat(id).emergency
    ensures !Exposed(s, w, id)
  {
    hide Sound;
    hide Listed;
    hide Alive;
    hide MayLand;
    if Reservations(w, id) > 0 {
      ReservedUnderway(s, w, id);
      MayLandExactly(s, w, id);
    }
  }

  /** Attempt by attempt, in any run: up to any point a reserved entry that may still land has been counted for its
      whole authorised input, at every moment, if and only if nothing was taken out of it while it was alive. */
  lemma {:induction false} LandableIsCounted(s: Setup, run: seq<World>, steps: seq<Step>, n: nat, id: Id)
    requires Run(s, run, steps) && n <= |steps| && !s.cat(id).emergency
    ensures NeverExposed(s, run, n + 1, id) <==> NoLiveLoss(s, run, steps, n, id)
  {
    hide Next;
    hide Sound;
    hide Listed;
    hide Alive;
    hide Uncounts;
    hide Covered;
    hide Exposed;
    RunSound(s, run, steps, n);
    if n == 0 {
      StartCovered(s, id);
      CoveredNotExposed(s, run[0], id);
    } else {
      LandableIsCounted(s, run, steps, n - 1, id);
      assert NeverExposed(s, run, n + 1, id) <==> NeverExposed(s, run, n, id) && !Exposed(s, run[n], id);
      assert NoLiveLoss(s, run, steps, n, id) <==>
             NoLiveLoss(s, run, steps, n - 1, id) && !(Alive(run[n - 1], id) && Uncounts(s, run[n - 1], steps[n - 1], id));
      if NoLiveLoss(s, run, steps, n - 1, id) {
        RunSound(s, run, steps, n - 1);
        RunCovered(s, run, steps, n - 1, id);
        RunOpened(s, run, steps, n - 1, id);
        if Alive(run[n - 1], id) && Uncounts(s, run[n - 1], steps[n - 1], id) {
          LossExposes(s, run[n - 1], steps[n - 1], run[n], id);
        } else {
          RunCovered(s, run, steps, n, id);
          CoveredNotExposed(s, run[n], id);
        }
      }
    }
  }

  // ---------------------------------------------------------------- counted until settled

  /** Reserved, not released, no result yet. */
  ghost predicate InFlight(w: World, id: Id) {
    var a := AttemptOf(w.core.journal, id); a.reservations == 1 && a.releases == 0 && a.results == 0
  }

  ghost predicate CountedInFlight(s: Setup, run: seq<World>, n: nat, id: Id)
    requires n <= |run|
  {
    forall m :: 0 <= m < n && InFlight(run[m], id) ==> Counted(s, run[m], id)
  }

  /** Before the n-th world no exit took the entry below its authorised input while it was in flight. */
  ghost predicate NoExitInFlight(s: Setup, run: seq<World>, steps: seq<Step>, n: nat, id: Id)
    requires n <= |steps| < |run|
  {
    forall i :: 0 <= i < n ==> !ExitInFlight(s, run[i], steps[i], id)
  }

  ghost predicate ExitInFlight(s: Setup, w: World, step: Step, id: Id) {
    InFlight(w, id) && Uncounts(s, w, step, id) && Written(w, step).value.ExitConfirmed?
  }

  ghost predicate Held(s: Setup, w: World, id: Id) {
    InFlight(w, id) ==> id in w.core.open && w.core.open[id].authorized >= s.cat(id).maxInput
  }

  /** A release in flight ends the flight. */
  lemma ReleaseCounts(s: Setup, w: World, step: Step, v: World, id: Id)
    requires Sound(s, w) && Next(s, w, step, v) && Written(w, step) == Some(EntryReleased(id))
    ensures AttemptOf(v.core.journal, id).releases > 0
  {
    hide Sound;
    AttemptNext(w.core.journal, ExposureUpdated(EntryReleased(id)), id);
  }

  lemma StepHeld(s: Setup, w: World, step: Step, v: World, id: Id)
    requires Sound(s, w) && Held(s, w, id) && Next(s, w, step, v)
    ensures Held(s, v, id) <==> !(InFlight(v, id) && ExitInFlight(s, w, step, id))
    ensures InFlight(v, id) && ExitInFlight(s, w, step, id) ==> !Counted(s, v, id)
  {
    hide Next;
    hide Sound;
    CountsGrow(s, w, step, v, id);
    if InFlight(v, id) {
      if Reservations(w, id) == 0 {
        NewlyReserved(s, w, step, v, id);
      } else {
        if Written(w, step) == Some(EntryReleased(id)) {
          ReleaseCounts(s, w, step, v, id);
        }
        AuthorizedKept(s, w, step, v, id);
      }
    }
  }

  /** An exit settles nothing. */
  lemma ExitKeepsFlight(s: Setup, w: World, step: Step, v: World, id: Id)
    requires Sound(s, w) && Next(s, w, step, v) && ExitInFlight(s, w, step, id)
    ensures InFlight(v, id)
  {
    hide Sound;
    AttemptNext(w.core.journal, ExposureUpdated(Written(w, step).value), id);
  }

  lemma NoneInFlight(id: Id)
    ensures !InFlight(START, id)
  {
  }

  lemma StartHeld(s: Setup, id: Id)
    ensures Held(s, START, id)
  {
  }

  lemma {:induction false} RunHeld(s: Setup, run: seq<World>, steps: seq<Step>, n: nat, id: Id)
    requires Run(s, run, steps) && n <= |steps| && NoExitInFlight(s, run, steps, n, id)
    ensures Held(s, run[n], id)
  {
    hide Next;
    hide Sound;
    hide Listed;
    hide Held;
    hide ExitInFlight;
    if n == 0 {
      StartHeld(s, id);
    } else {
      RunHeld(s, run, steps, n - 1, id);
      RunSound(s, run, steps, n - 1);
      StepHeld(s, run[n - 1], steps[n - 1], run[n], id);
    }
  }

  lemma HeldIsCounted(s: Setup, w: World, id: Id)
    requires Held(s, w, id) && InFlight(w, id)
    ensures Counted(s, w, id)
  {
  }

  /** Attempt by attempt, in any run, whatever crashes and restarts it contains: up to any point the entry has counted
      for at least its whole authorised input from its reservation to its release or its result if and only if no
      exit took it below that in between. */
  lemma {:induction false} CountedExactly(s: Setup, run: seq<World>, steps: seq<Step>, n: nat, id: Id)
    requires Run(s, run, steps) && n <= |steps|
    ensures CountedInFlight(s, run, n + 1, id) <==> NoExitInFlight(s, run, steps, n, id)
  {
    hide Next;
    hide Sound;
    hide Listed;
    hide Held;
    hide InFlight;
    hide Counted;
    hide ExitInFlight;
    if n == 0 {
      NoneInFlight(id);
    } else {
      CountedExactly(s, run, steps, n - 1, id);
      assert CountedInFlight(s, run, n + 1, id) <==>
             CountedInFlight(s, run, n, id) && (InFlight(run[n], id) ==> Counted(s, run[n], id));
      assert NoExitInFlight(s, run, steps, n, id) <==>
             NoExitInFlight(s, run, steps, n - 1, id) && !ExitInFlight(s, run[n - 1], steps[n - 1], id);
      if NoExitInFlight(s, run, steps, n - 1, id) {
        RunHeld(s, run, steps, n - 1, id);
        RunSound(s, run, steps, n - 1);
        StepHeld(s, run[n - 1], steps[n - 1], run[n], id);
        if ExitInFlight(s, run[n - 1], steps[n - 1], id) {
          ExitKeepsFlight(s, run[n - 1], steps[n - 1], run[n], id);
        } else if InFlight(run[n], id) {
          HeldIsCounted(s, run[n], id);
        }
      }
    }
  }

  /** And if its fills stay within its authorised input, it counts for exactly that. */
  lemma CountedUntilSettled(s: Setup, run: seq<World>, steps: seq<Step>, n: nat, id: Id)
    requires Run(s, run, steps) && n <= |steps| && CapRuns.FilledBefore(s, steps, n, id) && NoExitInFlight(s, run, steps, n, id)
    requires InFlight(run[n], id)
    ensures id in run[n].core.open && ExposureOf(run[n].core.open[id]) == s.cat(id).maxInput
  {
    hide Next;
    hide InFlight;
    hide ExitInFlight;
    CountedExactly(s, run, steps, n, id);
    CapRuns.NoEntryAboveTheCap(s, run, steps, n, id);
  }

  // ---------------------------------------------------------------- counted when signed

  /** Nothing was taken out of the entry below its authorised input before the n-th world. */
  ghost predicate NoLoss(s: Setup, run: seq<World>, steps: seq<Step>, n: nat, id: Id)
    requires n <= |steps| < |run|
  {
    forall i :: 0 <= i < n ==> !Uncounts(s, run[i], steps[i], id)
  }

  /** Nothing can be taken before the reservation. */
  lemma {:induction false} NoLossUnreserved(s: Setup, run: seq<World>, steps: seq<Step>, n: nat, id: Id)
    requires Run(s, run, steps) && n <= |steps| && Reservations(run[n], id) == 0
    ensures NoLoss(s, run, steps, n, id)
  {
    hide Next;
    hide Sound;
    hide Listed;
    if n > 0 {
      RunSound(s, run, steps, n - 1);
      RunOpened(s, run, steps, n - 1, id);
      CountsGrow(s, run[n - 1], steps[n - 1], run[n], id);
      NoLossUnreserved(s, run, steps, n - 1, id);
    }
  }

  /** What a flow that has still to sign finds of its entry: all of it or too little, as nothing has confirmed it. */
  ghost predicate WholeOrLost(s: Setup, w: World, id: Id, whole: bool) {
    if whole then id in w.core.open && ExposureOf(w.core.open[id]) == s.cat(id).maxInput
    else id !in w.core.open || ExposureOf(w.core.open[id]) < s.cat(id).maxInput
  }

  lemma FlowBuildingFrom(s: Setup, w: World, step: Step, v: World, id: Id)
    requires IsFlow(step) && Next(s, w, step, v) && !s.cat(id).emergency && At(v, id) == Some(Building)
    ensures At(w, id) == Some(Building) || step == Step.Admit(id)
  {
    hide Emit;
    hide RecordOuts;
    hide Admitted;
    hide ExitsFor;
    hide Claimed;
  }

  lemma OtherBuildingFrom(s: Setup, w: World, step: Step, v: World, id: Id)
    requires !IsFlow(step) && Next(s, w, step, v) && At(v, id) == Some(Building)
    ensures At(w, id) == Some(Building)
  {
    hide RecoverOuts;
    hide TickOuts;
    hide AttemptOf;
    hide ExitsFor;
  }

  /** Only its admission sets an entry building. */
  lemma BuildingFrom(s: Setup, w: World, step: Step, v: World, id: Id)
    requires Next(s, w, step, v) && !s.cat(id).emergency && At(v, id) == Some(Building)
    ensures At(w, id) == Some(Building) || step == Step.Admit(id)
  {
    hide Next;
    if IsFlow(step) {
      FlowBuildingFrom(s, w, step, v, id);
    } else {
      OtherBuildingFrom(s, w, step, v, id);
    }
  }

  /** While it has still to sign, only exits reach its entry. */
  lemma BuildingEvents(s: Setup, w: World, step: Step, v: World, id: Id, whole: bool)
    requires Sound(s, w) && Next(s, w, step, v) && At(w, id) == Some(Building) && Reservations(w, id) > 0 && WholeOrLost(s, w, id, whole)
    ensures WholeOrLost(s, v, id, whole && !Uncounts(s, w, step, id))
  {
    hide Next;
    hide Sound;
    if step.Admit? {
      StepFramed(s, w, step, v);
      AdmitReserves(s, w, step.id, v);
    } else {
      OpenMoves(s, w, step, v);
    }
  }

  lemma BuildingReserved(s: Setup, w: World, id: Id)
    requires Sound(s, w) && !s.cat(id).emergency && At(w, id) == Some(Building)
    ensures Reservations(w, id) == 1
  {
    hide Clean;
    hide Txs;
    assert Sane(s.cat(id), id, LocalOf(s, w, id));
  }

  lemma {:induction false} BuildingWhole(s: Setup, run: seq<World>, steps: seq<Step>, n: nat, id: Id)
    requires Run(s, run, steps) && n <= |steps| && !s.cat(id).emergency && At(run[n], id) == Some(Building)
    ensures WholeOrLost(s, run[n], id, NoLoss(s, run, steps, n, id))
  {
    hide Next;
    hide Sound;
    hide Listed;
    hide Uncounts;
    hide WholeOrLost;
    if n > 0 {
      RunSound(s, run, steps, n - 1);
      RunSound(s, run, steps, n);
      BuildingReserved(s, run[n], id);
      BuildingFrom(s, run[n - 1], steps[n - 1], run[n], id);
      assert NoLoss(s, run, steps, n, id) <==> NoLoss(s, run, steps, n - 1, id) && !Uncounts(s, run[n - 1], steps[n - 1], id);
      if At(run[n - 1], id) == Some(Building) {
        BuildingWhole(s, run, steps, n - 1, id);
        BuildingReserved(s, run[n - 1], id);
        BuildingEvents(s, run[n - 1], steps[n - 1], run[n], id, NoLoss(s, run, steps, n - 1, id));
      } else {
        AdmittedWhole(s, run[n - 1], run[n], id);
        NoLossUnreserved(s, run, steps, n - 1, id);
      }
    }
  }

  lemma AdmittedWhole(s: Setup, w: World, v: World, id: Id)
    requires Sound(s, w) && Next(s, w, Step.Admit(id), v) && Reservations(v, id) > 0
    ensures WholeOrLost(s, v, id, true) && Reservations(w, id) == 0 && !Uncounts(s, w, Step.Admit(id), id)
  {
    hide Next;
    hide Sound;
    StepFramed(s, w, Step.Admit(id), v);
    AdmitReserves(s, w, id, v);
  }

  /** When an entry is signed the ledger counts it for exactly its authorised input if and only if no exit has taken
      it below that since it was reserved. */
  lemma SignedWhole(s: Setup, run: seq<World>, steps: seq<Step>, n: nat, id: Id)
    requires Run(s, run, steps) && n < |steps| && steps[n].Sign? && steps[n].id == id && !s.cat(id).emergency
    ensures id in run[n].core.open && ExposureOf(run[n].core.open[id]) == s.cat(id).maxInput <==> NoLoss(s, run, steps, n, id)
  {
    hide Sound;
    hide Uncounts;
    assert Next(s, run[n], steps[n], run[n + 1]);
    hide Next;
    BuildingWhole(s, run, steps, n, id);
  }
}
