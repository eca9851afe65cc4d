/** Building blocks of concrete runs: one step at a time, with what it does to the attempt concerned. */
module Scenarios {
  import opened Sums
  import opened ExposureLedger
  import opened Records
  import opened Intents
  import opened Protocol
  import opened Caps
  import opened Authority
  import opened Runs
  import opened Invariants
  import opened Preservation
  import opened Steps
  import Recovery

  /** The steps lead from the start to w. */
  ghost predicate Trail(s: Setup, steps: seq<Step>, w: World) {
    Proper(s) && Leads(s, START, steps, w) && Sound(s, w) && Listed(w)
  }

  lemma Begin(s: Setup)
    requires Proper(s)
    ensures Trail(s, [], START)
  {
    hide Sound;
    hide Listed;
    StartSound(s);
    LeadsNone(s, START);
  }

  lemma Extend(s: Setup, steps: seq<Step>, w: World, step: Step, v: World)
    requires Trail(s, steps, w) && Next(s, w, step, v)
    ensures Trail(s, steps + [step], v)
  {
    hide Sound;
    hide Listed;
    hide Next;
    StepSound(s, w, step, v);
    LeadsNext(s, START, steps, w, step, v);
  }

  lemma Finish(s: Setup, steps: seq<Step>, w: World) returns (run: seq<World>)
    requires Trail(s, steps, w)
    ensures Run(s, run, steps) && run[|steps|] == w
  {
    hide Next;
    hide Sound;
    hide Listed;
    run := RunTo(s, steps, w);
  }

  lemma Resume(s: Setup, steps: seq<Step>, w: World, more: seq<Step>, v: World)
    requires Trail(s, steps, w) && Leads(s, w, more, v)
    ensures Trail(s, steps + more, v)
  {
    hide Next;
    hide Sound;
    hide Listed;
    LeadsChain(s, START, steps, w, more, v);
    SoundAlong(s, w, more, v);
  }

  lemma TrailSound(s: Setup, steps: seq<Step>, w: World, id: Id)
    requires Trail(s, steps, w)
    ensures Proper(s) && Sound(s, w) && Listed(w) && Sane(s.cat(id), id, LocalOf(s, w, id))
  {
    hide Leads;
    hide Sane;
  }

  /** What a step of an attempt does to it. */
  lemma Frames(s: Setup, steps: seq<Step>, w: World, step: Step, v: World)
    requires Trail(s, steps, w) && Next(s, w, step, v) && !step.Crash? && Actor(w, step).Some?
    ensures Trail(s, steps + [step], v)
    ensures var id := Actor(w, step).value; OthersSame(s, w, v, id) && LocalOf(s, v, id) == Acted(s, w, step, v)
  {
    hide Sound;
    hide Listed;
    hide Next;
    hide Acted;
    StepFramed(s, w, step, v);
    Extend(s, steps, w, step, v);
  }

  // ---------------------------------------------------------------- a submission

  ghost predicate Fresh(s: Setup, w: World, id: Id) {
    !s.cat(id).emergency && s.cat(id).key !in w.core.registry && id !in w.core.open
  }

  lemma Delivers(s: Setup, steps: seq<Step>, w: World, id: Id) returns (v: World)
    requires Trail(s, steps, w) && Fresh(s, w, id)
    ensures Trail(s, steps + [Deliver(id)], v)
    ensures v == w.(core := Claimed(w.core, id, s.cat(id)), work := w.work[id := Checking])
    ensures LocalOf(s, v, id) == Claimant(s.cat(id), id, Checking, CREATED) && OthersSame(s, w, v, id)
  {
    hide Trail;
    v := w.(core := Claimed(w.core, id, s.cat(id)), work := w.work[id := Checking]);
    assert Next(s, w, Deliver(id), v);
    hide Next;
    Frames(s, steps, w, Deliver(id), v);
  }

  function NewEntry(it: Intent): OpenEntry {
    OpenEntry(TradedMint(it), it.maxInput, None, it.protection)
  }

  /** Delivered and admitted. */
  lemma Reserves(s: Setup, steps: seq<Step>, w: World, id: Id) returns (v: World)
    requires Trail(s, steps, w) && Fresh(s, w, id) && Admitted(s.g, w.core.open, s.cat(id), None)
    ensures Trail(s, steps + [Deliver(id)] + [Admit(id)], v)
    ensures v.core.open == w.core.open[id := NewEntry(s.cat(id))] && v.core.pause == w.core.pause
    ensures v.core.registry.Keys == w.core.registry.Keys + {s.cat(id).key}
    ensures v.work == w.work[id := Building] && v.task == w.task && v.chain == w.chain
    ensures AttemptOf(v.core.journal, id).first == Some(Prepared(id, s.cat(id))) && AttemptOf(v.core.journal, id).seen == Unseen
    ensures OthersSame(s, w, v, id)
  {
    hide Trail;
    hide Admitted;
    var u := Delivers(s, steps, w, id);
    v := AdmitsIt(s, steps + [Deliver(id)], u, id);
    OthersChain(s, w, u, v, id);
    assert u.work[id := Building] == w.work[id := Building];
  }

  ghost function AdmittedWorld(s: Setup, w: World, id: Id): World {
    w.(core := Admission(w.core, id, s.cat(id), true), work := w.work[id := Building])
  }

  lemma AdmitEnabled(s: Setup, w: World, id: Id)
    requires At(w, id) == Some(Checking) && id !in w.core.open && Admitted(s.g, w.core.open, s.cat(id), None)
    ensures Next(s, w, Admit(id), AdmittedWorld(s, w, id))
  {
    hide Admitted;
    hide Admission;
  }

  lemma AdmittedCore(c: Core, id: Id, it: Intent)
    requires id !in c.open
    ensures var d := Admission(c, id, it, true);
            d.open == c.open[id := NewEntry(it)] && d.pause == c.pause && d.registry.Keys == c.registry.Keys
  {
    Recovery.EmitOne(c, it.key, Ledger(Reservation(id, it)));
  }

  lemma AdmitActs(s: Setup, w: World, id: Id, v: World)
    requires Next(s, w, Admit(id), v)
    ensures var a, b := AttemptOf(w.core.journal, id), Acted(s, w, Admit(id), v).att;
            b.first == a.first && b.seen == a.seen
  {
    hide Next;
    hide Admitted;
  }

  lemma AdmitsIt(s: Setup, steps: seq<Step>, w: World, id: Id) returns (v: World)
    requires Trail(s, steps, w) && At(w, id) == Some(Checking) && id !in w.core.open && Admitted(s.g, w.core.open, s.cat(id), None)
    ensures Trail(s, steps + [Admit(id)], v)
    ensures v.core.open == w.core.open[id := NewEntry(s.cat(id))] && v.core.pause == w.core.pause
    ensures v.core.registry.Keys == w.core.registry.Keys
    ensures v.work == w.work[id := Building] && v.task == w.task && v.chain == w.chain
    ensures AttemptOf(v.core.journal, id).first == AttemptOf(w.core.journal, id).first && OthersSame(s, w, v, id)
    ensures AttemptOf(v.core.journal, id).seen == AttemptOf(w.core.journal, id).seen
  {
    hide Trail;
    hide Admitted;
    hide Admission;
    hide Next;
    hide Acted;
    v := AdmittedWorld(s, w, id);
    AdmitEnabled(s, w, id);
    AdmittedCore(w.core, id, s.cat(id));
    Frames(s, steps, w, Admit(id), v);
    AdmitActs(s, w, id, v);
  }

  ghost function ClosedWorld(s: Setup, w: World, id: Id): World {
    var claimed := Claimed(w.core, id, s.cat(id));
    w.(core := claimed.(registry := MovedKey(claimed.registry, s.cat(id).key, To(AUTHORIZED))), work := w.work[id := Building])
  }

  lemma CloseActs(s: Setup, w: World, id: Id, v: World)
    requires s.cat(id).key !in w.core.registry && Next(s, w, EmergencyClose(id), v)
    ensures Acted(s, w, EmergencyClose(id), v) == Claimant(s.cat(id), id, Building, AUTHORIZED)
  {
    hide Next;
  }

  /** An emergency close is claimed. */
  lemma Closes(s: Setup, steps: seq<Step>, w: World, id: Id) returns (v: World)
    requires Trail(s, steps, w) && s.cat(id).emergency && s.cat(id).key !in w.core.registry
    ensures Trail(s, steps + [EmergencyClose(id)], v)
    ensures v.core.open == w.core.open && v.core.pause == w.core.pause && v.core.registry.Keys == w.core.registry.Keys + {s.cat(id).key}
    ensures v.work == w.work[id := Building] && v.task == w.task && v.chain == w.chain
    ensures AttemptOf(v.core.journal, id).first == Some(Prepared(id, s.cat(id))) && OthersSame(s, w, v, id)
  {
    hide Trail;
    hide Acted;
    v := ClosedWorld(s, w, id);
    assert Next(s, w, EmergencyClose(id), v);
    hide Next;
    Frames(s, steps, w, EmergencyClose(id), v);
    CloseActs(s, w, id, v);
  }

  /** What the SIGNED line says. */
  function SignedLineOf(it: Intent, id: Id, sig: Sig, lastValid: Option<nat>): Record {
    AttemptSigned(id, it.key, it.nonce, Some(sig), lastValid)
  }

  ghost function SignedWorld(s: Setup, w: World, id: Id, sig: Sig, lastValid: Option<nat>): World {
    w.(core := Emit(w.core, s.cat(id).key, SignedOut(id, s.cat(id), sig, lastValid)), work := w.work[id := Phase.Signed(sig)],
       chain := w.chain.(txs := w.chain.txs[sig := Tx(id, lastValid, false, Absent)]))
  }

  lemma SignEnabled(s: Setup, w: World, id: Id, sig: Sig, lastValid: Option<nat>)
    requires At(w, id) == Some(Building) && sig !in w.chain.txs
    ensures Next(s, w, Sign(id, sig, lastValid), SignedWorld(s, w, id, sig, lastValid))
  {
  }

  lemma SignActs(s: Setup, w: World, id: Id, sig: Sig, lastValid: Option<nat>, v: World)
    requires Next(s, w, Sign(id, sig, lastValid), v)
    ensures Acted(s, w, Sign(id, sig, lastValid), v)
            == LocalEmit(LocalOf(s, w, id), id, SignedOut(id, s.cat(id), sig, lastValid), Some(Phase.Signed(sig)))
  {
    hide Next;
  }

  lemma Signs(s: Setup, steps: seq<Step>, w: World, id: Id, sig: Sig, lastValid: Option<nat>) returns (v: World)
    requires Trail(s, steps, w) && At(w, id) == Some(Building) && sig !in w.chain.txs
    ensures Trail(s, steps + [Sign(id, sig, lastValid)], v)
    ensures v.core.open == w.core.open && v.core.pause == w.core.pause && v.core.registry.Keys == w.core.registry.Keys && v.task == w.task
    ensures v.work == w.work[id := Phase.Signed(sig)]
    ensures v.chain == w.chain.(txs := w.chain.txs[sig := Tx(id, lastValid, false, Absent)])
    ensures AttemptOf(v.core.journal, id) == Observe(AttemptOf(w.core.journal, id), SignedLineOf(s.cat(id), id, sig, lastValid))
    ensures OthersSame(s, w, v, id)
  {
    hide Trail;
    hide Next;
    hide Acted;
    v := SignedWorld(s, w, id, sig, lastValid);
    SignEnabled(s, w, id, sig, lastValid);
    Frames(s, steps, w, Sign(id, sig, lastValid), v);
    SignActs(s, w, id, sig, lastValid, v);
  }

  const OPEN_GATE := ModeFacts(ActiveNow, LiveAuto, false, false, true)

  ghost function PassedWorld(s: Setup, w: World, id: Id, sig: Sig): World {
    w.(core := Emit(w.core, s.cat(id).key, SubmittedOut(id, s.cat(id), sig)), work := w.work[id := Sending(sig)])
  }

  lemma PassEnabled(s: Setup, w: World, id: Id, sig: Sig)
    requires At(w, id) == Some(Phase.Signed(sig)) && w.core.pause.Inactive?
    ensures Next(s, w, PassGate(id, OPEN_GATE), PassedWorld(s, w, id, sig))
  {
  }

  lemma PassActs(s: Setup, w: World, id: Id, sig: Sig, v: World)
    requires At(w, id) == Some(Phase.Signed(sig)) && w.core.pause.Inactive? && Next(s, w, PassGate(id, OPEN_GATE), v)
    ensures Acted(s, w, PassGate(id, OPEN_GATE), v)
            == LocalEmit(LocalOf(s, w, id), id, SubmittedOut(id, s.cat(id), sig), Some(Sending(sig)))
  {
    hide Next;
  }

  lemma LineCore(c: Core, key: Key, r: Record, m: Move)
    ensures var d := Emit(c, key, Line(r, m)); d.open == c.open && d.pause == c.pause && d.registry.Keys == c.registry.Keys
  {
  }

  lemma Passes(s: Setup, steps: seq<Step>, w: World, id: Id, sig: Sig) returns (v: World)
    requires Trail(s, steps, w) && At(w, id) == Some(Phase.Signed(sig)) && w.core.pause.Inactive?
    ensures Trail(s, steps + [PassGate(id, OPEN_GATE)], v)
    ensures v.core.open == w.core.open && v.core.pause == w.core.pause && v.core.registry.Keys == w.core.registry.Keys && v.task == w.task
    ensures v.work == w.work[id := Sending(sig)] && v.chain == w.chain
    ensures AttemptOf(v.core.journal, id)
            == Observe(AttemptOf(w.core.journal, id), AttemptSubmitted(id, s.cat(id).key, s.cat(id).nonce, Some(sig)))
    ensures OthersSame(s, w, v, id)
  {
    hide Trail;
    hide Next;
    hide Acted;
    hide Emit;
    hide FromJournal;
    v := PassedWorld(s, w, id, sig);
    LineCore(w.core, s.cat(id).key, AttemptSubmitted(id, s.cat(id).key, s.cat(id).nonce, Some(sig)), To(EXECUTING));
    PassEnabled(s, w, id, sig);
    Frames(s, steps, w, PassGate(id, OPEN_GATE), v);
    PassActs(s, w, id, sig, v);
  }

  lemma Sends(s: Setup, steps: seq<Step>, w: World, id: Id, sig: Sig) returns (v: World)
    requires Trail(s, steps, w) && At(w, id) == Some(Sending(sig)) && sig in w.chain.txs
    ensures Trail(s, steps + [Send(id)], v)
    ensures v.core == w.core && v.task == w.task && v.work == w.work[id := Phase.Sent(sig)]
    ensures v.chain == w.chain.(txs := w.chain.txs[sig := w.chain.txs[sig].(sent := true)])
  {
    hide Trail;
    v := w.(work := w.work[id := Phase.Sent(sig)], chain := w.chain.(txs := w.chain.txs[sig := w.chain.txs[sig].(sent := true)]));
    assert Next(s, w, Send(id), v);
    hide Next;
    Extend(s, steps, w, Send(id), v);
  }

  /** The adapter answers, and the agenda is computed. */
  lemma Settles(s: Setup, steps: seq<Step>, w: World, id: Id, outcome: AttemptState, fill: Option<nat>, exits: seq<Id>) returns (v: World)
    requires Trail(s, steps, w) && At(w, id).Some? && At(w, id).value.Sent? && outcome != PREPARED && Honest(w.chain, At(w, id).value.sig, outcome)
    requires ExitsFor(w.core.open, s.cat(id), outcome == FINALIZED, exits) && forall i :: 0 <= i < |exits| ==> exits[i] in w.core.open
    ensures Trail(s, steps + [Settle(id, outcome, fill, exits)], v)
    ensures v == w.(work := Busy(w.work, id, RecordOuts(w.core.open, id, s.cat(id), outcome, fill, exits)))
  {
    hide Trail;
    v := w.(work := Busy(w.work, id, RecordOuts(w.core.open, id, s.cat(id), outcome, fill, exits)));
    assert Next(s, w, Settle(id, outcome, fill, exits), v);
    hide Next;
    Extend(s, steps, w, Settle(id, outcome, fill, exits), v);
  }

  /** One output of an agenda. */
  lemma Proceeds(s: Setup, steps: seq<Step>, w: World, id: Id) returns (v: World)
    requires Trail(s, steps, w) && At(w, id).Some? && At(w, id).value.Finishing? && At(w, id).value.outs != []
    requires CanEmit(w.core, At(w, id).value.outs[0])
    ensures var outs := At(w, id).value.outs;
            && Trail(s, steps + [Proceed(id)], v) && v.task == w.task && v.chain == w.chain
            && v.core == Emit(w.core, s.cat(id).key, outs[0]) && v.work == Busy(w.work, id, outs[1..])
            && LocalOf(s, v, id) == LocalEmit(LocalOf(s, w, id), id, outs[0], PhaseFor(outs[1..])) && OthersSame(s, w, v, id)
  {
    hide Trail;
    var outs := At(w, id).value.outs;
    v := w.(core := Emit(w.core, s.cat(id).key, outs[0]), work := Busy(w.work, id, outs[1..]));
    assert Next(s, w, Proceed(id), v);
    hide Next;
    Frames(s, steps, w, Proceed(id), v);
  }

  // ---------------------------------------------------------------- a submission up to the wire

  function SentSteps(id: Id, sig: Sig, lastValid: Option<nat>): seq<Step> {
    [Sign(id, sig, lastValid)] + [PassGate(id, OPEN_GATE)] + [Send(id)]
  }

  /** Signed, submitted, no result. */
  predicate OnItsWay(a: Attempt, it: Intent, id: Id, sig: Sig, lastValid: Option<nat>) {
    && a.first == Some(Prepared(id, it)) && a.signed == Some(SignedLineOf(it, id, sig, lastValid)) && a.last == SubmittedLine(Some(sig))
  }

  lemma GoesOut(s: Setup, steps: seq<Step>, w: World, id: Id, sig: Sig, lastValid: Option<nat>) returns (v: World)
    requires Trail(s, steps, w) && At(w, id) == Some(Building) && sig !in w.chain.txs && w.core.pause.Inactive?
    requires AttemptOf(w.core.journal, id).first == Some(Prepared(id, s.cat(id)))
    ensures Trail(s, steps + SentSteps(id, sig, lastValid), v)
    ensures v.core.open == w.core.open && v.core.pause == w.core.pause && v.core.registry.Keys == w.core.registry.Keys && v.task == w.task
    ensures v.work == w.work[id := Phase.Sent(sig)]
    ensures v.chain == w.chain.(txs := w.chain.txs[sig := Tx(id, lastValid, true, Absent)])
    ensures OnItsWay(AttemptOf(v.core.journal, id), s.cat(id), id, sig, lastValid)
    ensures AttemptOf(v.core.journal, id).seen == AttemptOf(w.core.journal, id).seen
    ensures forall x: Id :: x != id ==> AttemptOf(v.core.journal, x) == AttemptOf(w.core.journal, x)
  {
    hide Trail;
    var a := Signs(s, steps, w, id, sig, lastValid);
    var b := Passes(s, steps + [Sign(id, sig, lastValid)], a, id, sig);
    v := Sends(s, steps + [Sign(id, sig, lastValid)] + [PassGate(id, OPEN_GATE)], b, id, sig);
    assert steps + [Sign(id, sig, lastValid)] + [PassGate(id, OPEN_GATE)] + [Send(id)] == steps + SentSteps(id, sig, lastValid);
    assert v.work == w.work[id := Phase.Sent(sig)] && v.chain.txs == w.chain.txs[sig := Tx(id, lastValid, true, Absent)];
    forall x: Id | x != id ensures AttemptOf(v.core.journal, x) == AttemptOf(w.core.journal, x) {
      SameBesides(s, w, a, id, x);
      SameBesides(s, a, b, id, x);
    }
  }

  // ---------------------------------------------------------------- an entry on its way, and nothing else

  /** Attempt `id` has been sent under `sig`, nobody works on it, and it is the only one at rest and unresolved. */
  ghost predicate Waiting(s: Setup, w: World, id: Id, sig: Sig, lastValid: Option<nat>) {
    && OnItsWay(AttemptOf(w.core.journal, id), s.cat(id), id, sig, lastValid) && AloneAtRest(w, id)
    && sig in w.chain.txs && w.chain.txs[sig].sent && w.task.Idle?
  }

  ghost predicate AloneAtRest(w: World, id: Id) {
    forall x: Id :: Unresolved(AttemptOf(w.core.journal, x)) && x !in w.work <==> x == id
  }

  function EntrySteps(id: Id, sig: Sig, lastValid: Option<nat>): seq<Step> {
    [Deliver(id)] + [Admit(id)] + SentSteps(id, sig, lastValid) + [Settle(id, SUBMITTED, None, [])]
  }

  /** The first entry of a run: delivered, admitted, signed, sent, and not heard of since. */
  lemma EntrySent(s: Setup, id: Id, sig: Sig, lastValid: Option<nat>) returns (v: World)
    requires Proper(s) && !s.cat(id).emergency && Admitted(s.g, map[], s.cat(id), None)
    ensures Trail(s, EntrySteps(id, sig, lastValid), v) && Waiting(s, v, id, sig, lastValid)
    ensures v.core.open == map[id := NewEntry(s.cat(id))] && v.core.pause.Inactive? && v.core.registry.Keys == {s.cat(id).key}
    ensures v.work == map[] && v.chain == Chain(0, map[sig := Tx(id, lastValid, true, Absent)])
    ensures AttemptOf(v.core.journal, id).seen == Unseen
    ensures forall x: Id :: x != id ==> AttemptOf(v.core.journal, x) == NO_ATTEMPT
  {
    hide Trail;
    hide Admitted;
    Begin(s);
    var a := Reserves(s, [], START, id);
    var b := GoesOut(s, [] + [Deliver(id)] + [Admit(id)], a, id, sig, lastValid);
    v := Settles(s, [] + [Deliver(id)] + [Admit(id)] + SentSteps(id, sig, lastValid), b, id, SUBMITTED, None, []);
    assert [] + [Deliver(id)] == [Deliver(id)];
    forall x: Id | x != id ensures AttemptOf(v.core.journal, x) == NO_ATTEMPT {
      SameBesides(s, START, a, id, x);
    }
    assert v.work == map[];
  }

  lemma Differ(ids: seq<Id>, i: nat, k: nat)
    requires Recovery.Distinct(ids) && i < k < |ids|
    ensures ids[i] != ids[k]
  {
  }

  lemma OnlyOneAtRest(w: World, id: Id)
    requires AloneAtRest(w, id)
    ensures AtRest(UnresolvedIds(w.core.journal), w.work) == [id]
  {
    var ids := AtRest(UnresolvedIds(w.core.journal), w.work);
    Recovery.TouchedIdsDistinct(w.core.journal);
    Recovery.OnlyUnresolvedDistinct(w.core.journal, TouchedIds(w.core.journal));
    AtRestDistinct(UnresolvedIds(w.core.journal), w.work);
    forall x: Id ensures x in ids <==> x == id {
      AtRestMembers(UnresolvedIds(w.core.journal), w.work, x);
      UnresolvedIdsMembers(w.core.journal, x);
    }
    assert id in ids;
    forall k | 0 <= k < |ids| ensures ids[k] == id {
      assert ids[k] in ids;
    }
    if |ids| > 1 {
      Differ(ids, 0, 1);
    }
  }

  /** A tick begins and visits the one attempt at rest. */
  lemma Ticks(s: Setup, steps: seq<Step>, w: World, id: Id, sig: Sig, q: Quorum) returns (v: World)
    requires Trail(s, steps, w) && w.task.Idle? && AloneAtRest(w, id) && !s.cat(id).emergency
    requires AttemptOf(w.core.journal, id).signed.Some? && SignatureOf(AttemptOf(w.core.journal, id)) == Some(sig)
    requires Truthful(w.chain, AttemptOf(w.core.journal, id), sig, q)
    ensures Trail(s, steps + [TickStart], w.(task := Ticking([id], None, false)))
    ensures Trail(s, steps + [TickStart] + [TickVisit(q, [])], v)
    ensures var a := AttemptOf(w.core.journal, id);
            v == w.(work := Busy(w.work, id, TickOuts(w.core.open, id, a, sig, q, [])), task := Ticking([], Some(id), LeavesUncertain(a, q)))
    ensures Next(s, w.(task := Ticking([id], None, false)), TickVisit(q, []), v)
  {
    hide Trail;
    hide TickOuts;
    hide Truthful;
    var a := AttemptOf(w.core.journal, id);
    OnlyOneAtRest(w, id);
    var u := w.(task := Ticking([id], None, false));
    assert Next(s, w, TickStart, u);
    v := w.(work := Busy(w.work, id, TickOuts(w.core.open, id, a, sig, q, [])), task := Ticking([], Some(id), LeavesUncertain(a, q)));
    assert [id][1..] == [];
    assert Next(s, u, TickVisit(q, []), v);
    hide Next;
    Extend(s, steps, w, TickStart, u);
    Extend(s, steps + [TickStart], u, TickVisit(q, []), v);
  }

  lemma TickFinishes(s: Setup, steps: seq<Step>, w: World) returns (v: World)
    requires Trail(s, steps, w) && w.task.Ticking? && w.task.todo == [] && Free(w, w.task.current)
    ensures Trail(s, steps + [TickEnd], v)
    ensures v == w.(task := if !w.task.uncertain && TrackerReason(w.core.pause) then Clearing(false) else Idle)
  {
    hide Trail;
    v := w.(task := if !w.task.uncertain && TrackerReason(w.core.pause) then Clearing(false) else Idle);
    assert Next(s, w, TickEnd, v);
    hide Next;
    Extend(s, steps, w, TickEnd, v);
  }

  lemma Crashes(s: Setup, steps: seq<Step>, w: World) returns (v: World)
    requires Trail(s, steps, w)
    ensures Trail(s, steps + [Crash], v) && Next(s, w, Crash, v)
    ensures v.core.journal == w.core.journal && v.core.open == w.core.open && v.core.pause == w.core.pause
    ensures v.core.registry == FromJournal(w.core.journal) && v.work == map[] && v.task.Idle? && v.chain == w.chain
  {
    hide Attempts;
    hide Txs;
    v := w.(core := Restart(w.core), work := map[], task := Idle);
    assert Next(s, w, Crash, v);
    hide Next;
    Extend(s, steps, w, Crash, v);
  }

  lemma Lands(s: Setup, steps: seq<Step>, w: World, sig: Sig, ok: bool) returns (v: World)
    requires Trail(s, steps, w) && sig in w.chain.txs && w.chain.txs[sig].sent && w.chain.txs[sig].status.Absent?
    requires !Expiry(w.chain.txs[sig], w.chain.height)
    ensures Trail(s, steps + [Land(sig, ok)], v)
    ensures v == w.(chain := w.chain.(txs := w.chain.txs[sig := w.chain.txs[sig].(status := Landed(Processed, ok))]))
  {
    hide Trail;
    v := w.(chain := w.chain.(txs := w.chain.txs[sig := w.chain.txs[sig].(status := Landed(Processed, ok))]));
    assert Next(s, w, Land(sig, ok), v);
    hide Next;
    Extend(s, steps, w, Land(sig, ok), v);
  }

  /** Promoted twice: final. */
  lemma Finalizes(s: Setup, steps: seq<Step>, w: World, sig: Sig) returns (v: World)
    requires Trail(s, steps, w) && sig in w.chain.txs && w.chain.txs[sig].status.Landed?
    ensures Trail(s, steps + [Promote(sig)] + [Promote(sig)], v)
    ensures v == w.(chain := w.chain.(txs := w.chain.txs[sig := w.chain.txs[sig].(status := Landed(Finalized, w.chain.txs[sig].status.ok))]))
  {
    hide Trail;
    var tx := w.chain.txs[sig];
    var u := w.(chain := w.chain.(txs := w.chain.txs[sig := tx.(status := Landed(Further(tx.status.commitment), tx.status.ok))]));
    v := u.(chain := u.chain.(txs := u.chain.txs[sig := tx.(status := Landed(Finalized, tx.status.ok))]));
    assert Next(s, w, Promote(sig), u) && Next(s, u, Promote(sig), v);
    assert v.chain.txs == w.chain.txs[sig := tx.(status := Landed(Finalized, tx.status.ok))];
    hide Next;
    Extend(s, steps, w, Promote(sig), u);
    Extend(s, steps + [Promote(sig)], u, Promote(sig), v);
  }

  /** A tick that finds nothing to write. */
  lemma IdleTick(s: Setup, steps: seq<Step>, w: World, id: Id, sig: Sig, lastValid: Option<nat>) returns (v: World)
    requires Trail(s, steps, w) && Waiting(s, w, id, sig, lastValid) && !s.cat(id).emergency && id !in w.work
    requires !AttemptOf(w.core.journal, id).seen.SeenReorg?
    ensures Trail(s, steps + [TickStart] + [TickVisit(QUnavailable, [])] + [TickEnd], v)
    ensures v == w.(task := if TrackerReason(w.core.pause) then Clearing(false) else Idle)
  {
    hide Trail;
    hide Next;
    var u := Ticks(s, steps, w, id, sig, QUnavailable);
    assert w.work - {id} == w.work;
    v := TickFinishes(s, steps + [TickStart] + [TickVisit(QUnavailable, [])], u);
  }

  function ConfirmSteps(id: Id): seq<Step> {
    [TickStart] + [TickVisit(QConfirmed, [])] + [Proceed(id)] + [Proceed(id)] + [TickEnd]
  }

  /** A tick that sees the entry confirmed for the first time. */
  lemma ConfirmingTick(s: Setup, steps: seq<Step>, w: World, id: Id, sig: Sig, lastValid: Option<nat>) returns (v: World)
    requires Trail(s, steps, w) && Waiting(s, w, id, sig, lastValid) && !s.cat(id).emergency && id !in w.work && id in w.core.open
    requires AttemptOf(w.core.journal, id).seen.Unseen? && w.core.pause.Inactive?
    ensures Trail(s, steps + ConfirmSteps(id), v)
    ensures v.core.open == w.core.open[id := w.core.open[id].(confirmed := Some(s.cat(id).maxInput))] && v.core.pause.Inactive?
    ensures v.core.registry.Keys == w.core.registry.Keys && v.work == w.work && v.chain == w.chain
    ensures Waiting(s, v, id, sig, lastValid) && AttemptOf(v.core.journal, id).seen.SeenConfirmed?
    ensures forall x: Id :: x != id ==> AttemptOf(v.core.journal, x) == AttemptOf(w.core.journal, x)
  {
    hide Trail;
    hide Next;
    var a := AttemptOf(w.core.journal, id);
    var t := Ticks(s, steps, w, id, sig, QConfirmed);
    var outs := [Ledger(EntryConfirmed(id, NotionalOf(a))), Line(AttemptObserved(id, KeyOf(a)), Executing)];
    assert TickOuts(w.core.open, id, a, sig, QConfirmed, []) == outs;
    var b := Proceeds(s, steps + [TickStart] + [TickVisit(QConfirmed, [])], t, id);
    assert outs[1..] == [outs[1]] && outs[1..][1..] == [];
    var c := Proceeds(s, steps + [TickStart] + [TickVisit(QConfirmed, [])] + [Proceed(id)], b, id);
    assert c.work == w.work;
    v := TickFinishes(s, steps + [TickStart] + [TickVisit(QConfirmed, [])] + [Proceed(id)] + [Proceed(id)], c);
    assert steps + [TickStart] + [TickVisit(QConfirmed, [])] + [Proceed(id)] + [Proceed(id)] + [TickEnd] == steps + ConfirmSteps(id);
    forall x: Id | x != id ensures AttemptOf(v.core.journal, x) == AttemptOf(w.core.journal, x) {
      SameBesides(s, t, b, id, x);
      SameBesides(s, b, c, id, x);
    }
  }
}
