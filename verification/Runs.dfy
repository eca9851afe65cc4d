/**
  Runs of the executor over an abstract chain.  A step is what happens between two awaits of a
  submit, an emergency close, a recovery or a tracker tick, or a crash with restart, an operator
  command, or a move of the chain.  Any number of submissions and closes run concurrently; a recovery
  or a tick leaves an attempt alone while its own submission is still in flight, and the two do not
  overlap.
*/
module Runs {
  import opened Sums
  import opened ExposureLedger
  import opened Records
  import opened Intents
  import opened Protocol
  import opened Caps
  import opened Authority

  /** The immutable intents behind the ids, and the deployment's guardrails. */
  datatype Setup = Setup(cat: Id -> Intent, g: Guardrails)

  /** Emergency closes are planned as risk reducing. */
  ghost predicate Proper(s: Setup) {
    forall id: Id :: s.cat(id).emergency ==> s.cat(id).effect == Reduce
  }

  /** Where a flow stands: caps next, adapter at work, signed, about to send, sent, or writing its last outputs. */
  datatype Phase = Checking | Building | Signed(sig: Sig) | Sending(sig: Sig) | Sent(sig: Sig) | Finishing(outs: seq<Out>)

  datatype Task = Idle | Recovering(id: Id) | Ticking(todo: seq<Id>, current: Option<Id>, uncertain: bool) | Clearing(custodyRead: bool)

  datatype Tx = Tx(owner: Id, lastValid: Option<nat>, sent: bool, status: Status)

  datatype Chain = Chain(height: nat, txs: map<Sig, Tx>)

  datatype World = World(core: Core, work: map<Id, Phase>, task: Task, chain: Chain)

  datatype Step =
    | Deliver(id: Id)
    | Admit(id: Id)
    | Sign(id: Id, sig: Sig, lastValid: Option<nat>)
    | PassGate(id: Id, facts: ModeFacts)
    | Send(id: Id)
    | Settle(id: Id, outcome: AttemptState, fill: Option<nat>, exits: seq<Id>)
    | EmergencyClose(id: Id)
    | Fallback(id: Id)
    | Throw(id: Id)
    | Proceed(id: Id)
    | Crash
    | RecoverOne(id: Id, now: int)
    | RecoverEnd
    | TickStart
    | TickVisit(q: Quorum, exits: seq<Id>)
    | TickEnd
    | TickCustody(ok: bool)
    | TickRelease
    | OperatorClear
    | EmergencyPause(reason: PauseReason)
    | Note(rec: Record)
    | SyncShadow(shadowSequence: nat)
    | Advance
    | Land(sig: Sig, ok: bool)
    | Promote(sig: Sig)
    | Reorg(sig: Sig)

  // ---------------------------------------------------------------- the chain

  function StatusOf(c: Chain, sig: Sig): Status {
    if sig in c.txs then c.txs[sig].status else Absent
  }

  function ViewOf(c: Chain): View {
    View(map sig | sig in c.txs :: c.txs[sig].status, c.height)
  }

  predicate Expiry(tx: Tx, height: nat) {
    tx.lastValid.Some? && height > tx.lastValid.value
  }

  /** What a quorum verdict says about the chain. */
  predicate Truthful(c: Chain, a: Attempt, sig: Sig, q: Quorum) {
    match q
    case QFinalized => StatusOf(c, sig) == Landed(Finalized, true)
    case QConfirmed => sig in c.txs && c.txs[sig].sent
    case QProcessed => sig in c.txs && c.txs[sig].sent
    case QFailed => StatusOf(c, sig).Landed? && !StatusOf(c, sig).ok
    case QMissing(dead) => dead ==> ProvenDead(StatusOf(c, sig), LastValidOf(a), c.height)
    case _ => true
  }

  /** What the adapter's answer says about the chain. */
  predicate Honest(c: Chain, sig: Sig, outcome: AttemptState) {
    match outcome
    case SUBMITTED => true
    case CONFIRMED_PROVISIONAL => true
    case FINALIZED => StatusOf(c, sig) == Landed(Finalized, true)
    case NOT_LANDED => sig in c.txs && ProvenDead(StatusOf(c, sig), c.txs[sig].lastValid, c.height)
    case _ => false
  }

  function Further(m: Commitment): Commitment {
    if m == Processed then Confirmed else Finalized
  }

  // ---------------------------------------------------------------- steps

  function Busy(work: map<Id, Phase>, id: Id, outs: seq<Out>): map<Id, Phase> {
    if outs == [] then work - {id} else work[id := Finishing(outs)]
  }

  /** The unresolved attempts nobody is working on. */
  function AtRest(ids: seq<Id>, work: map<Id, Phase>): seq<Id> {
    if ids == [] then [] else (if ids[0] in work then [] else [ids[0]]) + AtRest(ids[1..], work)
  }

  predicate Free(w: World, id: Option<Id>) {
    id.Some? ==> id.value !in w.work
  }

  function RecoverOuts(w: World, id: Id, now: int): seq<Out> {
    var a := AttemptOf(w.core.journal, id);
    if Expired(a, now) then ExpireOuts(w.core.open, id, a)
    else if Unresolved(a) then ResolveOuts(w.core.open, id, a, VerdictOn(a, ViewOf(w.chain)))
    else []
  }

  /** The attempt a recovery or a tick is writing for; an event that throws ends the whole task. */
  function Holder(t: Task): Option<Id> {
    match t
    case Recovering(id) => Some(id)
    case Ticking(_, current, _) => current
    case _ => None
  }

  predicate Noted(r: Record) {
    r.EmergencyReceived? || r.EmergencyRejected? || r.ReconciledIntoDb?
  }

  ghost predicate ExitsFor(open: Open, it: Intent, finished: bool, exits: seq<Id>) {
    if it.emergency && finished then ListsMint(open, it.inputMint, exits) else exits == []
  }

  function At(w: World, id: Id): Option<Phase> {
    if id in w.work then Some(w.work[id]) else None
  }

  /** The segments of a submission or an emergency close. */
  ghost predicate FlowNext(s: Setup, w: World, step: Step, v: World) {
    match step
    case Deliver(id) =>
      var it := s.cat(id);
      && !it.emergency
      && (if it.key in w.core.registry then v == w
          else v == w.(core := Claimed(w.core, id, it), work := w.work[id := Checking]))
    case Admit(id) =>
      var ok := Admitted(s.g, w.core.open, s.cat(id), None);
      && At(w, id) == Some(Checking)
      && v == w.(core := Admission(w.core, id, s.cat(id), ok),
                 work := if ok && id !in w.core.open then w.work[id := Building] else w.work - {id})
    case Sign(id, sig, lastValid) =>
      && At(w, id) == Some(Building) && sig !in w.chain.txs
      && v == w.(core := Emit(w.core, s.cat(id).key, SignedOut(id, s.cat(id), sig, lastValid)), work := w.work[id := Signed(sig)],
                 chain := w.chain.(txs := w.chain.txs[sig := Tx(id, lastValid, false, Absent)]))
    case PassGate(id, facts) =>
      && At(w, id).Some? && At(w, id).value.Signed?
      && var sig := At(w, id).value.sig;
         if ModeGate(facts.(localPause := facts.localPause || w.core.pause.Active?), s.cat(id).effect).Open?
         then v == w.(core := Emit(w.core, s.cat(id).key, SubmittedOut(id, s.cat(id), sig)), work := w.work[id := Sending(sig)])
         else v == w.(work := Busy(w.work, id, RecordOuts(w.core.open, id, s.cat(id), SIGNED_NOT_SUBMITTED, None, [])))
    case Send(id) =>
      && At(w, id).Some? && At(w, id).value.Sending? && At(w, id).value.sig in w.chain.txs
      && var sig := At(w, id).value.sig;
         v == w.(work := w.work[id := Sent(sig)], chain := w.chain.(txs := w.chain.txs[sig := w.chain.txs[sig].(sent := true)]))
    case Settle(id, outcome, fill, exits) =>
      && At(w, id).Some?
      && (if outcome == PREPARED then At(w, id) == Some(Building)
          else At(w, id).value.Sent? && Honest(w.chain, At(w, id).value.sig, outcome))
      && ExitsFor(w.core.open, s.cat(id), outcome == FINALIZED, exits)
      && (forall i :: 0 <= i < |exits| ==> exits[i] in w.core.open)
      && v == w.(work := Busy(w.work, id, RecordOuts(w.core.open, id, s.cat(id), outcome, fill, exits)))
    case EmergencyClose(id) =>
      var it := s.cat(id);
      && it.emergency
      && (if it.key in w.core.registry then v == w
          else
            var claimed := Claimed(w.core, id, it);
            v == w.(core := claimed.(registry := MovedKey(claimed.registry, it.key, To(AUTHORIZED))), work := w.work[id := Building]))
    case Fallback(id) =>
      && s.cat(id).emergency && (At(w, id) == Some(Building) || (At(w, id).Some? && At(w, id).value.Signed?))
      && v == w.(core := Emit(w.core, s.cat(id).key, Line(Prepared(id, s.cat(id)), Stay)), work := w.work[id := Building])
    case Throw(id) =>
      At(w, id).Some? && !At(w, id).value.Finishing? && v == w.(work := w.work - {id})
    case Proceed(id) =>
      && At(w, id).Some? && At(w, id).value.Finishing? && At(w, id).value.outs != []
      && var outs := At(w, id).value.outs;
         if CanEmit(w.core, outs[0])
         then v == w.(core := Emit(w.core, s.cat(id).key, outs[0]), work := Busy(w.work, id, outs[1..]))
         else v == w.(work := w.work - {id}, task := if Holder(w.task) == Some(id) then Idle else w.task)
    case _ => false
  }

  /** Recovery and the finality tracker. */
  ghost predicate TaskNext(s: Setup, w: World, step: Step, v: World) {
    match step
    case RecoverOne(id, now) =>
      && (w.task.Idle? || (w.task.Recovering? && w.task.id !in w.work)) && id !in w.work
      && RecoverOuts(w, id, now) != []
      && v == w.(work := w.work[id := Finishing(RecoverOuts(w, id, now))], task := Recovering(id))
    case RecoverEnd => w.task.Recovering? && w.task.id !in w.work && v == w.(task := Idle)
    case TickStart => w.task.Idle? && v == w.(task := Ticking(AtRest(UnresolvedIds(w.core.journal), w.work), None, false))
    case TickVisit(q, exits) =>
      && w.task.Ticking? && w.task.todo != [] && Free(w, w.task.current)
      && var id := w.task.todo[0]; var a := AttemptOf(w.core.journal, id);
         if SignatureOf(a).None? || a.signed.None? then v == w.(task := w.task.(todo := w.task.todo[1..]))
         else
           && Truthful(w.chain, a, SignatureOf(a).value, q) && id !in w.work
           && ExitsFor(w.core.open, s.cat(id), q.QFinalized?, exits)
           && (forall i :: 0 <= i < |exits| ==> exits[i] in w.core.open)
           && v == w.(work := Busy(w.work, id, TickOuts(w.core.open, id, a, SignatureOf(a).value, q, exits)),
                      task := Ticking(w.task.todo[1..], Some(id), w.task.uncertain || LeavesUncertain(a, q)))
    case TickEnd =>
      && w.task.Ticking? && w.task.todo == [] && Free(w, w.task.current)
      && v == w.(task := if !w.task.uncertain && TrackerReason(w.core.pause) then Clearing(false) else Idle)
    case TickCustody(ok) =>
      && w.task == Clearing(false)
      && v == if ok then w.(core := w.core.(journal := w.core.journal + [CustodyReconciled]), task := Clearing(true)) else w.(task := Idle)
    case TickRelease => w.task == Clearing(true) && v == w.(core := Cleared(w.core), task := Idle)
    case _ => false
  }

  /** Crashes, operators, notes and the chain. */
  ghost predicate OuterNext(w: World, step: Step, v: World) {
    match step
    case Crash =>
      Replay(ExposureEvents(w.core.journal)).Some? && v == w.(core := Restart(w.core), work := map[], task := Idle)
    case OperatorClear => v == w.(core := Cleared(w.core))
    case EmergencyPause(reason) =>
      (reason.EmergencyCommand? || reason.EmergencyAction?) && v == w.(core := Halted(w.core, reason))
    case Note(rec) => Noted(rec) && v == w.(core := w.core.(journal := w.core.journal + [rec]))
    case SyncShadow(n) =>
      var last := LastShadow(w.core.journal);
      v == if last.Some? && n <= last.value then w else w.(core := w.core.(journal := w.core.journal + [ShadowSynced(n)]))
    case Advance => v == w.(chain := w.chain.(height := w.chain.height + 1))
    case Land(sig, ok) =>
      && sig in w.chain.txs && w.chain.txs[sig].sent && w.chain.txs[sig].status.Absent?
      && !Expiry(w.chain.txs[sig], w.chain.height)
      && v == w.(chain := w.chain.(txs := w.chain.txs[sig := w.chain.txs[sig].(status := Landed(Processed, ok))]))
    case Promote(sig) =>
      && sig in w.chain.txs && w.chain.txs[sig].status.Landed?
      && var st := w.chain.txs[sig].status;
         v == w.(chain := w.chain.(txs := w.chain.txs[sig := w.chain.txs[sig].(status := Landed(Further(st.commitment), st.ok))]))
    case Reorg(sig) =>
      && sig in w.chain.txs && w.chain.txs[sig].status.Landed? && w.chain.txs[sig].status.commitment != Finalized
      && v == w.(chain := w.chain.(txs := w.chain.txs[sig := w.chain.txs[sig].(status := Absent)]))
    case _ => false
  }

  predicate IsFlow(step: Step) {
    step.Deliver? || step.Admit? || step.Sign? || step.PassGate? || step.Send? || step.Settle? || step.EmergencyClose?
    || step.Fallback? || step.Throw? || step.Proceed?
  }

  predicate IsTask(step: Step) {
    step.RecoverOne? || step.RecoverEnd? || step.TickStart? || step.TickVisit? || step.TickEnd? || step.TickCustody? || step.TickRelease?
  }

  ghost predicate Next(s: Setup, w: World, step: Step, v: World) {
    if IsFlow(step) then FlowNext(s, w, step, v)
    else if IsTask(step) then TaskNext(s, w, step, v)
    else OuterNext(w, step, v)
  }

  const START := World(Core([], map[], map[], Inactive), map[], Idle, Chain(0, map[]))

  ghost predicate Run(s: Setup, run: seq<World>, steps: seq<Step>) {
    && Proper(s) && |run| == |steps| + 1 && run[0] == START
    && forall i :: 0 <= i < |steps| ==> Next(s, run[i], steps[i], run[i + 1])
  }

  // ---------------------------------------------------------------- continuations

  /** The steps lead from w to v. */
  ghost predicate Leads(s: Setup, w: World, steps: seq<Step>, v: World)
    decreases |steps|, 1
  {
    if steps == [] then v == w else exists u: World :: LeadsBy(s, w, steps, u, v)
  }

  ghost predicate LeadsBy(s: Setup, w: World, steps: seq<Step>, u: World, v: World)
    requires steps != []
    decreases |steps|, 0
  {
    Next(s, w, steps[0], u) && Leads(s, u, steps[1..], v)
  }

  lemma LeadsNone(s: Setup, w: World)
    ensures Leads(s, w, [], w)
  {
  }

  lemma LeadsOne(s: Setup, w: World, step: Step, v: World)
    requires Next(s, w, step, v)
    ensures Leads(s, w, [step], v)
  {
    hide Next;
    assert [step][1..] == [];
    assert LeadsBy(s, w, [step], v, v);
  }

  lemma {:induction false} LeadsChain(s: Setup, w: World, steps: seq<Step>, u: World, more: seq<Step>, v: World)
    requires Leads(s, w, steps, u) && Leads(s, u, more, v)
    ensures Leads(s, w, steps + more, v)
    decreases |steps|
  {
    hide Next;
    if steps == [] {
      assert steps + more == more;
    } else {
      var x: World :| LeadsBy(s, w, steps, x, u);
      LeadsChain(s, x, steps[1..], u, more, v);
      assert (steps + more)[1..] == steps[1..] + more;
      assert LeadsBy(s, w, steps + more, x, v);
    }
  }

  lemma LeadsNext(s: Setup, w: World, steps: seq<Step>, u: World, step: Step, v: World)
    requires Leads(s, w, steps, u) && Next(s, u, step, v)
    ensures Leads(s, w, steps + [step], v)
  {
    hide Next;
    LeadsOne(s, u, step, v);
    LeadsChain(s, w, steps, u, [step], v);
  }

  /** The worlds in between. */
  lemma {:induction false} LeadsThrough(s: Setup, w: World, steps: seq<Step>, v: World) returns (run: seq<World>)
    requires Leads(s, w, steps, v)
    ensures |run| == |steps| + 1 && run[0] == w && run[|steps|] == v
    ensures forall i :: 0 <= i < |steps| ==> Next(s, run[i], steps[i], run[i + 1])
    decreases |steps|
  {
    hide Next;
    if steps == [] {
      run := [w];
    } else {
      var u: World :| LeadsBy(s, w, steps, u, v);
      var rest := LeadsThrough(s, u, steps[1..], v);
      run := [w] + rest;
      forall i | 0 <= i < |steps| ensures Next(s, run[i], steps[i], run[i + 1]) {
        if i > 0 {
          assert steps[1..][i - 1] == steps[i] && run[i] == rest[i - 1] && run[i + 1] == rest[i];
        }
      }
    }
  }

  /** What the start leads to is the end of a run. */
  lemma RunTo(s: Setup, steps: seq<Step>, v: World) returns (run: seq<World>)
    requires Proper(s) && Leads(s, START, steps, v)
    ensures Run(s, run, steps) && run[|steps|] == v
  {
    hide Next;
    run := LeadsThrough(s, START, steps, v);
  }
}
