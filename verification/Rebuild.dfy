/** What a restart finds: the ledger, the pause and a registry the live one is never behind. */
module Rebuild {
  import opened Sums
  import opened ExposureLedger
  import opened Records
  import opened Intents
  import opened Protocol
  import opened Caps
  import opened Runs
  import opened Invariants
  import opened Preservation
  import opened Steps
  import Recovery
  import Refinement

  /** At any point of any run, a pipeline built over the journal holds the live ledger and the live pause. */
  lemma RestartFindsLedgerAndPause(s: Setup, run: seq<World>, steps: seq<Step>, n: nat)
    requires Run(s, run, steps) && n < |run|
    ensures var c := run[n].core;
            Replay(ExposureEvents(c.journal)).Some? && Restart(c).open == c.open && Restart(c).pause == c.pause
  {
    RunSound(s, run, steps, n);
  }

  // ---------------------------------------------------------------- the registry

  /** Same keys, same intents, same terminal states, and nothing further along than the live registry. */
  ghost predicate Simulates(live: Registry, rebuilt: Registry) {
    && live.Keys == rebuilt.Keys
    && forall key: Key :: key in live ==>
                            && live[key].intentId == rebuilt[key].intentId
                            && (Terminal(live[key].state) || Terminal(rebuilt[key].state) ==> live[key].state == rebuilt[key].state)
                            && Progress(rebuilt[key].state) <= Progress(live[key].state)
  }

  /** The registry follows every result that is journaled or about to be. */
  ghost predicate Follows(l: Local) {
    && (l.att.results > 0 ==> l.live == l.rebuilt)
    && (l.phase.Some? && l.phase.value.Finishing? && l.live.Some? ==> FollowsAgenda(l.live.value, l.phase.value.outs))
  }

  predicate FollowsAgenda(live: IntentState, outs: seq<Out>) {
    outs != [] && outs[|outs| - 1].Line? && outs[|outs| - 1].rec.AttemptResult? ==> Moved(live, outs[|outs| - 1].move) != CREATED
  }

  ghost predicate AllFollow(s: Setup, w: World) {
    forall id: Id :: Follows(LocalOf(s, w, id))
  }

  /** The one step that leaves the live registry behind: the tracker declares dead an attempt the live
      registry still calls CREATED, as it does after a restart that found only the SIGNED line. */
  ghost predicate BuriesCreated(s: Setup, w: World, step: Step) {
    step.TickVisit? && w.task.Ticking? && w.task.todo != [] &&
    var l := LocalOf(s, w, w.task.todo[0]);
    l.live == Some(CREATED) && Buries(l.att, step.q)
  }

  lemma SettleFollows(it: Intent, id: Id, l: Local, open: Open, outcome: AttemptState, fill: Option<nat>, exits: seq<Id>)
    requires Sane(it, id, l) && l.att != NO_ATTEMPT && l.att.results == 0 && (forall i :: 0 <= i < |exits| ==> exits[i] in open)
    requires outcome == FINALIZED ==> l.att.submits > 0
    ensures Follows(l.(phase := PhaseFor(RecordOuts(open, id, it, outcome, fill, exits))))
  {
    var outs := RecordOuts(open, id, it, outcome, fill, exits);
    if outcome == FINALIZED {
      assert outs[|outs| - 1] == Result(id, it.key, FINALIZED, COMPLETED, Live, To(COMPLETED));
    }
  }

  lemma RecoverFollows(l: Local, open: Open, id: Id, now: int, v: Verdict)
    requires l.att.results == 0
    ensures Follows(l.(phase := PhaseFor(ExpireOuts(open, id, l.att))))
    ensures (v == Final ==> l.live == Some(EXECUTING)) ==> Follows(l.(phase := PhaseFor(ResolveOuts(open, id, l.att, v))))
  {
  }

  lemma VisitFollows(l: Local, open: Open, id: Id, sig: Sig, q: Quorum, exits: seq<Id>)
    requires l.att.results == 0 && (forall i :: 0 <= i < |exits| ==> exits[i] in open)
    requires q.QFinalized? ==> l.live == Some(EXECUTING)
    requires Buries(l.att, q) ==> l.live != Some(CREATED)
    ensures Follows(l.(phase := PhaseFor(TickOuts(open, id, l.att, sig, q, exits))))
  {
    var outs := TickOuts(open, id, l.att, sig, q, exits);
    if q.QFinalized? {
      assert outs[|outs| - 1] == Result(id, KeyOf(l.att), FINALIZED, COMPLETED, Tracked, IfExecuting(COMPLETED));
    }
  }

  lemma ProceedFollows(it: Intent, id: Id, l: Local, outs: seq<Out>)
    requires Sane(it, id, l) && l.att != NO_ATTEMPT && l.phase == Some(Finishing(outs)) && Follows(l)
    ensures outs != [] && Follows(LocalEmit(l, id, outs[0], PhaseFor(outs[1..])))
  {
    if |outs| > 1 {
      assert outs[1..][|outs[1..]| - 1] == outs[|outs| - 1];
      AgendaHead(it, id, l, outs);
    }
  }

  /** Only the last output of an agenda is a result. */
  lemma AgendaHead(it: Intent, id: Id, l: Local, outs: seq<Out>)
    requires l.live.Some? && l.rebuilt.Some? && |outs| > 1 && Agenda(it, id, l, outs)
    ensures outs[0].Line? ==> outs[0].rec.AttemptReorgPending? && outs[0].move == Stay
  {
  }

  lemma ActorFollows(s: Setup, w: World, step: Step, v: World)
    requires Sound(s, w) && Listed(w) && Next(s, w, step, v) && AllFollow(s, w) && !BuriesCreated(s, w, step) && Actor(w, step).Some?
    ensures Follows(Acted(s, w, step, v))
  {
    hide Sound;
    hide Next;
    var id := Actor(w, step).value;
    var l := LocalOf(s, w, id);
    FollowsAt(s, w, id);
    if step.Settle? {
      FollowSettle(s, w, step, v);
    } else if step.PassGate? {
      FollowGate(s, w, step, v);
    } else if step.Proceed? {
      FollowProceed(s, w, step, v);
    } else if step.RecoverOne? {
      FollowRecover(s, w, step, v);
    } else if step.TickVisit? {
      FollowVisit(s, w, step, v);
    } else if step.Admit? {
      FollowAdmit(s, w, step, v);
    } else {
      FollowOther(s, w, step, v);
    }
  }

  lemma FollowsAt(s: Setup, w: World, id: Id)
    requires Sound(s, w) && AllFollow(s, w)
    ensures Sane(s.cat(id), id, LocalOf(s, w, id)) && Follows(LocalOf(s, w, id))
  {
    assert Sane(s.cat(id), id, LocalOf(s, w, id));
  }

  lemma FollowSettle(s: Setup, w: World, step: Step, v: World)
    requires Next(s, w, step, v) && step.Settle? && Sane(s.cat(step.id), step.id, LocalOf(s, w, step.id))
    ensures Follows(Acted(s, w, step, v))
  {
    SettleFollows(s.cat(step.id), step.id, LocalOf(s, w, step.id), w.core.open, step.outcome, step.fill, step.exits);
  }

  lemma FollowGate(s: Setup, w: World, step: Step, v: World)
    requires Next(s, w, step, v) && step.PassGate? && Sane(s.cat(step.id), step.id, LocalOf(s, w, step.id))
    ensures Follows(Acted(s, w, step, v))
  {
    SettleFollows(s.cat(step.id), step.id, LocalOf(s, w, step.id), w.core.open, SIGNED_NOT_SUBMITTED, None, []);
  }

  lemma FollowProceed(s: Setup, w: World, step: Step, v: World)
    requires Next(s, w, step, v) && step.Proceed? && Sane(s.cat(step.id), step.id, LocalOf(s, w, step.id)) && Follows(LocalOf(s, w, step.id))
    ensures Follows(Acted(s, w, step, v))
  {
    ProceedFollows(s.cat(step.id), step.id, LocalOf(s, w, step.id), At(w, step.id).value.outs);
  }

  lemma FollowRecover(s: Setup, w: World, step: Step, v: World)
    requires Sound(s, w) && Next(s, w, step, v) && step.RecoverOne? && Sane(s.cat(step.id), step.id, LocalOf(s, w, step.id))
    ensures Follows(Acted(s, w, step, v))
  {
    hide Sound;
    var l := LocalOf(s, w, step.id);
    SeenWasSubmitted(s, w, step.id);
    RecoverFollows(l, w.core.open, step.id, step.now, VerdictOn(l.att, ViewOf(w.chain)));
  }

  lemma FollowVisit(s: Setup, w: World, step: Step, v: World)
    requires Sound(s, w) && Listed(w) && Next(s, w, step, v) && step.TickVisit? && !BuriesCreated(s, w, step)
    requires Sane(s.cat(w.task.todo[0]), w.task.todo[0], LocalOf(s, w, w.task.todo[0])) && Follows(LocalOf(s, w, w.task.todo[0]))
    ensures Follows(Acted(s, w, step, v))
  {
    hide Sound;
    var id := w.task.todo[0];
    var l := LocalOf(s, w, id);
    SeenWasSubmitted(s, w, id);
    if SignatureOf(l.att).Some? && l.att.signed.Some? {
      VisitFollows(l, w.core.open, id, SignatureOf(l.att).value, step.q, step.exits);
    }
  }

  lemma FollowAdmit(s: Setup, w: World, step: Step, v: World)
    requires Next(s, w, step, v) && step.Admit? && Sane(s.cat(step.id), step.id, LocalOf(s, w, step.id))
    ensures Follows(Acted(s, w, step, v))
  {
  }

  lemma FollowOther(s: Setup, w: World, step: Step, v: World)
    requires Next(s, w, step, v) && Actor(w, step).Some?
    requires !step.Admit? && !step.Settle? && !step.PassGate? && !step.Proceed? && !step.RecoverOne? && !step.TickVisit?
    requires Follows(LocalOf(s, w, Actor(w, step).value))
    ensures Follows(Acted(s, w, step, v))
  {
  }

  lemma StepFollows(s: Setup, w: World, step: Step, v: World)
    requires Sound(s, w) && Listed(w) && Next(s, w, step, v) && AllFollow(s, w) && !BuriesCreated(s, w, step)
    ensures AllFollow(s, v)
  {
    hide Next;
    hide Sound;
    if step.Crash? {
      CrashFollows(s, w, v);
    } else {
      StepFramed(s, w, step, v);
      if Actor(w, step).Some? {
        ActorFollows(s, w, step, v);
      }
      forall x: Id ensures Follows(LocalOf(s, v, x)) {
        assert Follows(LocalOf(s, w, x));
      }
    }
  }

  lemma CrashFollows(s: Setup, w: World, v: World)
    requires Next(s, w, Step.Crash, v)
    ensures AllFollow(s, v)
  {
    forall x: Id ensures Follows(LocalOf(s, v, x)) {
    }
  }

  ghost predicate NoneBuriesCreated(s: Setup, run: seq<World>, steps: seq<Step>)
    requires |run| == |steps| + 1
  {
    forall i :: 0 <= i < |steps| ==> !BuriesCreated(s, run[i], steps[i])
  }

  lemma StartFollows(s: Setup)
    ensures AllFollow(s, START)
  {
  }

  lemma {:induction false} RunFollows(s: Setup, run: seq<World>, steps: seq<Step>, n: nat)
    requires Run(s, run, steps) && n < |run| && NoneBuriesCreated(s, run, steps)
    ensures AllFollow(s, run[n])
  {
    hide Next;
    hide Sound;
    hide AllFollow;
    hide Listed;
    hide BuriesCreated;
    if n == 0 {
      StartFollows(s);
    } else {
      RunFollows(s, run, steps, n - 1);
      RunSound(s, run, steps, n - 1);
      StepFollows(s, run[n - 1], steps[n - 1], run[n]);
    }
  }

  lemma LocalSimulation(it: Intent, id: Id, l: Local)
    requires Sane(it, id, l) && Follows(l)
    ensures l.live.Some? <==> l.rebuilt.Some?
    ensures l.live.Some? ==>
              && (Terminal(l.live.value) || Terminal(l.rebuilt.value) ==> l.live == l.rebuilt)
              && Progress(l.rebuilt.value) <= Progress(l.live.value)
  {
  }

  /** In every world of a run without such a burial, the registry a restart would rebuild is simulated by the live one. */
  lemma RestartRegistrySimulated(s: Setup, run: seq<World>, steps: seq<Step>, n: nat)
    requires Run(s, run, steps) && n < |run| && NoneBuriesCreated(s, run, steps)
    ensures Simulates(run[n].core.registry, FromJournal(run[n].core.journal))
  {
    RunSound(s, run, steps, n);
    RunFollows(s, run, steps, n);
    SimulationHere(s, run[n]);
  }

  lemma SimulationHere(s: Setup, w: World)
    requires Sound(s, w) && AllFollow(s, w)
    ensures Simulates(w.core.registry, FromJournal(w.core.journal))
  {
    var live, rebuilt := w.core.registry, FromJournal(w.core.journal);
    forall key: Key | key in live || key in rebuilt
      ensures key in live && key in rebuilt && live[key].intentId == rebuilt[key].intentId
      ensures Terminal(live[key].state) || Terminal(rebuilt[key].state) ==> live[key].state == rebuilt[key].state
      ensures Progress(rebuilt[key].state) <= Progress(live[key].state)
    {
      var id := if key in live then live[key].intentId else rebuilt[key].intentId;
      FollowsAt(s, w, id);
      LocalSimulation(s.cat(id), id, LocalOf(s, w, id));
    }
  }

  // ---------------------------------------------------------------- the burial itself

  lemma {:induction false} FollowsAlong(s: Setup, w: World, steps: seq<Step>, v: World)
    requires Proper(s) && Sound(s, w) && Listed(w) && AllFollow(s, w) && Leads(s, w, steps, v)
    requires forall i :: 0 <= i < |steps| ==> steps[i].Proceed?
    ensures Sound(s, v) && AllFollow(s, v)
    decreases |steps|
  {
    hide Next;
    hide Sound;
    hide Listed;
    hide AllFollow;
    if steps != [] {
      var u: World :| LeadsBy(s, w, steps, u, v);
      StepSound(s, w, steps[0], u);
      StepFollows(s, w, steps[0], u);
      FollowsAlong(s, u, steps[1..], v);
    }
  }

  /** The lines such a visit writes: perhaps a release, then a NOT_LANDED that moves only an EXECUTING intent. */
  lemma BurialOuts(s: Setup, w: World, step: Step, v: World)
    requires Sound(s, w) && Listed(w) && Next(s, w, step, v) && BuriesCreated(s, w, step)
    ensures var id := w.task.todo[0]; var key := s.cat(id).key;
            && v.core == w.core && At(v, id).Some? && At(v, id).value.Finishing? && Burial(id, key, w.core.open, At(v, id).value.outs)
            && StatesAre(w.core, key, id, CREATED, CREATED)
  {
    hide Clean;
    hide Txs;
    var id := w.task.todo[0];
    assert Sane(s.cat(id), id, LocalOf(s, w, id));
    Refinement.OwnKeys(s, w, id);
  }

  predicate Burial(id: Id, key: Key, open: Open, outs: seq<Out>) {
    || outs == [Result(id, key, NOT_LANDED, FAILED, Tracked, IfExecuting(FAILED))]
    || (id in open && outs == [Ledger(EntryReleased(id)), Result(id, key, NOT_LANDED, FAILED, Tracked, IfExecuting(FAILED))])
  }

  /** The live and the rebuilt state of the intent under its key. */
  ghost predicate StatesAre(c: Core, key: Key, id: Id, live: IntentState, rebuilt: IntentState) {
    StateOf(c.registry, key, id) == Some(live) && StateOf(FromJournal(c.journal), key, id) == Some(rebuilt)
  }

  lemma ReleaseKeepsStates(c: Core, id: Id, key: Key)
    requires StatesAre(c, key, id, CREATED, CREATED)
    ensures StatesAre(Emit(c, key, Ledger(EntryReleased(id))), key, id, CREATED, CREATED)
  {
    FromJournalNext(c.journal, ExposureUpdated(EntryReleased(id)));
  }

  lemma ResultPartsStates(c: Core, id: Id, key: Key)
    requires StatesAre(c, key, id, CREATED, CREATED)
    ensures StatesAre(Emit(c, key, Result(id, key, NOT_LANDED, FAILED, Tracked, IfExecuting(FAILED))), key, id, CREATED, FAILED)
  {
    FromJournalNext(c.journal, AttemptResult(id, key, NOT_LANDED, FAILED, Tracked));
  }

  lemma BurialWritten(c: Core, id: Id, key: Key, outs: seq<Out>)
    requires Burial(id, key, c.open, outs) && StatesAre(c, key, id, CREATED, CREATED)
    ensures StatesAre(EmitAll(c, key, outs), key, id, CREATED, FAILED)
  {
    hide StatesAre;
    hide Emit;
    if |outs| == 1 {
      ResultPartsStates(c, id, key);
      Recovery.EmitOne(c, key, outs[0]);
    } else {
      var mid := Emit(c, key, outs[0]);
      ReleaseKeepsStates(c, id, key);
      ResultPartsStates(mid, id, key);
      assert outs[1..] == [outs[1]];
      Recovery.EmitOne(mid, key, outs[1]);
    }
  }

  lemma VisitsTask(s: Setup, w: World, step: Step, v: World)
    requires Next(s, w, step, v) && step.TickVisit?
    ensures w.task.Ticking? && w.task.todo != []
  {
  }

  lemma PartedStates(c: Core, key: Key, id: Id)
    requires StatesAre(c, key, id, CREATED, FAILED)
    ensures !Simulates(c.registry, FromJournal(c.journal))
  {
    assert key in c.registry;
  }

  /** Any visit of any run that writes something: once it is written, the rebuilt registry is simulated by
      the live one if and only if the visit was no such burial; after one, the journal says FAILED of a
      key the live registry calls CREATED. */
  lemma BurialBreaksSimulation(s: Setup, run: seq<World>, steps: seq<Step>, step: Step, v: World) returns (more: seq<Step>, u: World)
    requires Run(s, run, steps) && NoneBuriesCreated(s, run, steps) && Next(s, run[|steps|], step, v) && step.TickVisit?
    requires var id := run[|steps|].task.todo[0]; At(v, id).Some? && At(v, id).value.Finishing? && At(v, id).value.outs != []
    ensures Leads(s, v, more, u) && u.work == v.work - {run[|steps|].task.todo[0]}
    ensures Simulates(u.core.registry, FromJournal(u.core.journal)) <==> !BuriesCreated(s, run[|steps|], step)
    ensures BuriesCreated(s, run[|steps|], step) ==>
              var id := run[|steps|].task.todo[0]; StatesAre(u.core, s.cat(id).key, id, CREATED, FAILED)
  {
    hide Next;
    hide Sound;
    hide Listed;
    hide AllFollow;
    hide BuriesCreated;
    hide Simulates;
    hide Burial;
    var w := run[|steps|];
    VisitsTask(s, w, step, v);
    var id := w.task.todo[0];
    RunSound(s, run, steps, |steps|);
    StepSound(s, w, step, v);
    u, more := Refinement.AgendaWrites(s, v, id, At(v, id).value.outs);
    if BuriesCreated(s, w, step) {
      BurialOuts(s, w, step, v);
      BurialWritten(w.core, id, s.cat(id).key, At(v, id).value.outs);
      PartedStates(u.core, s.cat(id).key, id);
    } else {
      RunFollows(s, run, steps, |steps|);
      StepFollows(s, w, step, v);
      FollowsAlong(s, v, more, u);
      SimulationHere(s, u);
    }
  }
}
