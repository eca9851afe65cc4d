/** Every step acts on at most one attempt: what it does to it, and that the others do not notice. */
module Steps {
  import opened Sums
  import opened ExposureLedger
  import opened Records
  import opened Intents
  import opened Protocol
  import opened Caps
  import opened Authority
  import opened Runs
  import opened Invariants
  import opened Preservation
  import Recovery

  function Actor(w: World, step: Step): Option<Id> {
    match step
    case Deliver(id) => Some(id)
    case Admit(id) => Some(id)
    case Sign(id, _, _) => Some(id)
    case PassGate(id, _) => Some(id)
    case Send(id) => Some(id)
    case Settle(id, _, _, _) => Some(id)
    case EmergencyClose(id) => Some(id)
    case Fallback(id) => Some(id)
    case Throw(id) => Some(id)
    case Proceed(id) => Some(id)
    case RecoverOne(id, _) => Some(id)
    case TickVisit(_, _) => if w.task.Ticking? && w.task.todo != [] then Some(w.task.todo[0]) else None
    case _ => None
  }

  function PhaseFor(outs: seq<Out>): Option<Phase> {
    if outs == [] then None else Some(Finishing(outs))
  }

  function Claimant(it: Intent, id: Id, phase: Phase, state: IntentState): Local {
    Local(Observe(NO_ATTEMPT, Prepared(id, it)), Some(phase), Some(state), Some(CREATED))
  }

  /** What the acting attempt looks like after the step. */
  ghost function Acted(s: Setup, w: World, step: Step, v: World): Local
    requires Next(s, w, step, v) && Actor(w, step).Some?
  {
    var id := Actor(w, step).value;
    var it := s.cat(id);
    var l := LocalOf(s, w, id);
    match step
    case Deliver(_) => if it.key in w.core.registry then l else Claimant(it, id, Checking, CREATED)
    case Admit(_) =>
      if !Admitted(s.g, w.core.open, it, None) then LocalEmit(l, id, Result(id, it.key, PREPARED, FAILED, Live, To(FAILED)), None)
      else if id in w.core.open then l.(phase := None)
      else
        var m := LocalEmit(l, id, Ledger(Reservation(id, it)), Some(Building));
        if l.live.Some? then m.(live := Some(Moved(l.live.value, To(AUTHORIZED)))) else m
    case Sign(_, sig, lastValid) => LocalEmit(l, id, SignedOut(id, it, sig, lastValid), Some(Phase.Signed(sig)))
    case PassGate(_, facts) =>
      var sig := At(w, id).value.sig;
      if ModeGate(facts.(localPause := facts.localPause || w.core.pause.Active?), it.effect).Open?
      then LocalEmit(l, id, SubmittedOut(id, it, sig), Some(Sending(sig)))
      else l.(phase := PhaseFor(RecordOuts(w.core.open, id, it, SIGNED_NOT_SUBMITTED, None, [])))
    case Send(_) => l.(phase := Some(Phase.Sent(At(w, id).value.sig)))
    case Settle(_, outcome, fill, exits) => l.(phase := PhaseFor(RecordOuts(w.core.open, id, it, outcome, fill, exits)))
    case EmergencyClose(_) => if it.key in w.core.registry then l else Claimant(it, id, Building, AUTHORIZED)
    case Fallback(_) => l.(att := Observe(l.att, Prepared(id, it)), phase := Some(Building))
    case Throw(_) => l.(phase := None)
    case Proceed(_) =>
      var outs := At(w, id).value.outs;
      if CanEmit(w.core, outs[0]) then LocalEmit(l, id, outs[0], PhaseFor(outs[1..])) else l.(phase := None)
    case RecoverOne(_, now) => l.(phase := PhaseFor(RecoverOuts(w, id, now)))
    case TickVisit(q, exits) =>
      if SignatureOf(l.att).None? || l.att.signed.None? then l
      else l.(phase := PhaseFor(TickOuts(w.core.open, id, l.att, SignatureOf(l.att).value, q, exits)))
    case _ => l
  }

  /** The frame of a step, a crash aside. */
  ghost predicate Framed(s: Setup, w: World, step: Step, v: World)
    requires Next(s, w, step, v)
  {
    if Actor(w, step).Some? then
      var id := Actor(w, step).value; OthersSame(s, w, v, id) && LocalOf(s, v, id) == Acted(s, w, step, v)
    else forall x: Id :: LocalOf(s, v, x) == LocalOf(s, w, x)
  }

  lemma NothingActs(s: Setup, w: World, step: Step, v: World)
    requires Next(s, w, step, v) && v.core == w.core && v.work == w.work
    ensures forall x: Id :: LocalOf(s, v, x) == LocalOf(s, w, x)
  {
  }

  lemma AsideActs(s: Setup, w: World, r: Record, v: World)
    requires Aside(r) && v.core.journal == w.core.journal + [r] && v.core.registry == w.core.registry && v.work == w.work
    ensures forall x: Id :: LocalOf(s, v, x) == LocalOf(s, w, x)
  {
    FromJournalNext(w.core.journal, r);
    forall x: Id ensures LocalOf(s, v, x) == LocalOf(s, w, x) {
      AttemptNext(w.core.journal, r, x);
    }
  }

  lemma EmitFramed(s: Setup, w: World, id: Id, out: Out, phase: Option<Phase>, v: World)
    requires Attempts(s, w) && LocalOf(s, w, id).att != NO_ATTEMPT
    requires Emits(s, w, id, out, phase, v) && Own(id, out) && (out.Line? ==> KeyIn(out.rec) == Some(s.cat(id).key))
    ensures OthersSame(s, w, v, id) && LocalOf(s, v, id) == LocalEmit(LocalOf(s, w, id), id, out, phase)
  {
    EmitLocal(s, w, id, out, phase, v);
    EmitOthers(s, w, id, out, phase, v);
  }

  lemma Working(s: Setup, w: World, id: Id)
    requires Attempts(s, w) && id in w.work
    ensures Sane(s.cat(id), id, LocalOf(s, w, id)) && LocalOf(s, w, id).att != NO_ATTEMPT && LocalOf(s, w, id).live.Some?
  {
    assert Sane(s.cat(id), id, LocalOf(s, w, id));
  }

  lemma WorkingSound(s: Setup, w: World, id: Id)
    requires Sound(s, w) && id in w.work
    ensures Sane(s.cat(id), id, LocalOf(s, w, id)) && LocalOf(s, w, id).att != NO_ATTEMPT && LocalOf(s, w, id).live.Some?
  {
    Working(s, w, id);
  }

  lemma DeliverFramed(s: Setup, w: World, id: Id, v: World)
    requires Sound(s, w) && Next(s, w, Deliver(id), v)
    ensures Framed(s, w, Deliver(id), v)
  {
    hide Sound;
    if s.cat(id).key !in w.core.registry {
      ClaimLocals(s, w, id, CREATED, Checking, v);
    }
  }

  lemma CloseFramed(s: Setup, w: World, id: Id, v: World)
    requires Sound(s, w) && Next(s, w, EmergencyClose(id), v)
    ensures Framed(s, w, EmergencyClose(id), v)
  {
    hide Sound;
    if s.cat(id).key !in w.core.registry {
      ClaimLocals(s, w, id, AUTHORIZED, Building, v);
    }
  }

  lemma AdmitFramed(s: Setup, w: World, step: Step, v: World)
    requires Sound(s, w) && Next(s, w, step, v) && step.Admit?
    ensures Framed(s, w, step, v)
  {
    var id := step.id;
    var it := s.cat(id);
    Working(s, w, id);
    if !Admitted(s.g, w.core.open, it, None) {
      var out := Result(id, it.key, PREPARED, FAILED, Live, To(FAILED));
      Recovery.EmitOne(w.core, it.key, out);
      EmitFramed(s, w, id, out, None, v);
    } else if id in w.core.open {
      PhaseOthers(s, w, id, None, v);
    } else {
      ReserveFrame(s, w, id, v);
    }
  }

  lemma SignFramed(s: Setup, w: World, step: Step, v: World)
    requires Sound(s, w) && Next(s, w, step, v) && step.Sign?
    ensures Framed(s, w, step, v)
  {
    Working(s, w, step.id);
    EmitFramed(s, w, step.id, SignedOut(step.id, s.cat(step.id), step.sig, step.lastValid), Some(Phase.Signed(step.sig)), v);
  }

  lemma GateFramed(s: Setup, w: World, step: Step, v: World)
    requires Sound(s, w) && Next(s, w, step, v) && step.PassGate?
    ensures Framed(s, w, step, v)
  {
    hide Sane;
    hide RecordOuts;
    var id := step.id;
    var sig := At(w, id).value.sig;
    Working(s, w, id);
    if ModeGate(step.facts.(localPause := step.facts.localPause || w.core.pause.Active?), s.cat(id).effect).Open? {
      EmitFramed(s, w, id, SubmittedOut(id, s.cat(id), sig), Some(Sending(sig)), v);
    } else {
      PhaseOthers(s, w, id, PhaseFor(RecordOuts(w.core.open, id, s.cat(id), SIGNED_NOT_SUBMITTED, None, [])), v);
    }
  }

  lemma FallbackFramed(s: Setup, w: World, step: Step, v: World)
    requires Sound(s, w) && Next(s, w, step, v) && step.Fallback?
    ensures Framed(s, w, step, v)
  {
    Working(s, w, step.id);
    FallbackFrame(s, w, step.id, v);
  }

  lemma ProceedFramed(s: Setup, w: World, step: Step, v: World)
    requires Sound(s, w) && Next(s, w, step, v) && step.Proceed?
    ensures Framed(s, w, step, v)
  {
    var id := step.id;
    var outs := At(w, id).value.outs;
    Working(s, w, id);
    ProceedLocal(s.cat(id), id, LocalOf(s, w, id), outs);
    if CanEmit(w.core, outs[0]) {
      EmitFramed(s, w, id, outs[0], PhaseFor(outs[1..]), v);
    } else {
      PhaseOthers(s, w, id, None, v);
    }
  }

  lemma PhaseFramed(s: Setup, w: World, step: Step, v: World)
    requires Next(s, w, step, v) && (step.Send? || step.Settle? || step.Throw? || step.RecoverOne? || step.TickVisit?)
    ensures Framed(s, w, step, v)
  {
    var id := Actor(w, step).value;
    PhaseOthers(s, w, id, At(v, id), v);
  }

  /** A line about no attempt, or nothing. */
  lemma AsideFramed(s: Setup, w: World, step: Step, v: World)
    requires Next(s, w, step, v) && (step.TickCustody? || step.Note? || step.SyncShadow?)
    ensures forall x: Id :: LocalOf(s, v, x) == LocalOf(s, w, x)
  {
    if v.core == w.core {
      NothingActs(s, w, step, v);
    } else {
      AsideActs(s, w, v.core.journal[|w.core.journal|], v);
    }
  }

  lemma PauseFramed(s: Setup, w: World, step: Step, v: World)
    requires Next(s, w, step, v) && (step.TickRelease? || step.OperatorClear? || step.EmergencyPause?)
    ensures forall x: Id :: LocalOf(s, v, x) == LocalOf(s, w, x)
  {
    if v.core == w.core {
      NothingActs(s, w, step, v);
    } else {
      AsideActs(s, w, v.core.journal[|w.core.journal|], v);
    }
  }

  lemma SilentFramed(s: Setup, w: World, step: Step, v: World)
    requires Next(s, w, step, v)
    requires step.RecoverEnd? || step.TickStart? || step.TickEnd? || step.Advance? || step.Land? || step.Promote? || step.Reorg?
    ensures forall x: Id :: LocalOf(s, v, x) == LocalOf(s, w, x)
  {
    NothingActs(s, w, step, v);
  }

  lemma WriterFramed(s: Setup, w: World, step: Step, v: World)
    requires Sound(s, w) && Next(s, w, step, v)
    requires step.Admit? || step.Sign? || step.PassGate? || step.Fallback? || step.Proceed?
    ensures Framed(s, w, step, v)
  {
    hide *;
    if step.Admit? {
      AdmitFramed(s, w, step, v);
    } else if step.Sign? {
      SignFramed(s, w, step, v);
    } else if step.PassGate? {
      GateFramed(s, w, step, v);
    } else if step.Fallback? {
      FallbackFramed(s, w, step, v);
    } else {
      ProceedFramed(s, w, step, v);
    }
  }

  lemma QuietFramed(s: Setup, w: World, step: Step, v: World)
    requires Next(s, w, step, v) && Actor(w, step).None? && !step.Crash?
    ensures forall x: Id :: LocalOf(s, v, x) == LocalOf(s, w, x)
  {
    hide Next;
    hide LocalOf;
    NotAVisit(s, w, step, v);
    if step.TickCustody? || step.Note? || step.SyncShadow? {
      AsideFramed(s, w, step, v);
    } else if step.TickRelease? || step.OperatorClear? || step.EmergencyPause? {
      PauseFramed(s, w, step, v);
    } else {
      SilentFramed(s, w, step, v);
    }
  }

  /** A visit always has something to visit. */
  lemma NotAVisit(s: Setup, w: World, step: Step, v: World)
    requires Next(s, w, step, v) && Actor(w, step).None?
    ensures !step.TickVisit?
  {
  }

  lemma QuietIsFramed(s: Setup, w: World, step: Step, v: World)
    requires Next(s, w, step, v) && Actor(w, step).None? && forall x: Id :: LocalOf(s, v, x) == LocalOf(s, w, x)
    ensures Framed(s, w, step, v)
  {
    hide Next;
  }

  lemma StepFramed(s: Setup, w: World, step: Step, v: World)
    requires Sound(s, w) && Next(s, w, step, v) && !step.Crash?
    ensures Framed(s, w, step, v)
  {
    hide *;
    if step.Admit? || step.Sign? || step.PassGate? || step.Fallback? || step.Proceed? {
      WriterFramed(s, w, step, v);
    } else if step.Deliver? {
      DeliverFramed(s, w, step.id, v);
    } else if step.EmergencyClose? {
      CloseFramed(s, w, step.id, v);
    } else if step.Send? || step.Settle? || step.Throw? || step.RecoverOne? || step.TickVisit? {
      PhaseFramed(s, w, step, v);
    } else {
      NoActor(w, step);
      QuietFramed(s, w, step, v);
      QuietIsFramed(s, w, step, v);
    }
  }

  lemma SameChain(s: Setup, w: World, step: Step, v: World)
    requires Next(s, w, step, v) && !step.Sign? && !step.Send? && !step.Advance? && !step.Land? && !step.Promote? && !step.Reorg?
    ensures v.chain == w.chain
  {
  }

  lemma NoActor(w: World, step: Step)
    requires !step.Admit? && !step.Sign? && !step.PassGate? && !step.Fallback? && !step.Proceed? && !step.Deliver? && !step.EmergencyClose?
    requires !step.Send? && !step.Settle? && !step.Throw? && !step.RecoverOne? && !step.TickVisit?
    ensures Actor(w, step).None?
  {
  }

  // ---------------------------------------------------------------- the invariant over a step

  lemma ClaimantSane(it: Intent, id: Id)
    ensures it.emergency ==> Sane(it, id, Claimant(it, id, Building, AUTHORIZED))
    ensures !it.emergency ==> Sane(it, id, Claimant(it, id, Checking, CREATED))
  {
  }

  lemma DeliverSound(s: Setup, w: World, id: Id, v: World)
    requires Sound(s, w) && Next(s, w, Deliver(id), v)
    ensures Sound(s, v)
  {
    hide Sound;
    hide Sane;
    if s.cat(id).key in w.core.registry {
      SameWork(s, w, v);
    } else {
      ClaimantSane(s.cat(id), id);
      ClaimSound(s, w, id, CREATED, Checking, v);
    }
  }

  lemma CloseSound(s: Setup, w: World, id: Id, v: World)
    requires Sound(s, w) && Next(s, w, EmergencyClose(id), v)
    ensures Sound(s, v)
  {
    hide Sound;
    hide Sane;
    if s.cat(id).key in w.core.registry {
      SameWork(s, w, v);
    } else {
      ClaimantSane(s.cat(id), id);
      ClaimSound(s, w, id, AUTHORIZED, Building, v);
    }
  }

  lemma WriterSound(s: Setup, w: World, step: Step, v: World)
    requires Sound(s, w) && Next(s, w, step, v)
    requires step.Admit? || step.Sign? || step.PassGate? || step.Fallback? || step.Proceed?
    ensures Sound(s, v)
  {
    hide *;
    if step.Admit? {
      AdmitSound(s, w, step.id, v);
    } else if step.Sign? {
      SignSound(s, w, step.id, step.sig, step.lastValid, v);
    } else if step.PassGate? {
      PassGateSound(s, w, step.id, step.facts, v);
    } else if step.Fallback? {
      FallbackSound(s, w, step.id, v);
    } else {
      ProceedSound(s, w, step.id, v);
    }
  }

  lemma PhaseStepSound(s: Setup, w: World, step: Step, v: World)
    requires Sound(s, w) && Listed(w) && Next(s, w, step, v)
    requires step.Send? || step.Settle? || step.Throw? || step.RecoverOne? || step.TickVisit?
    ensures Sound(s, v)
  {
    hide *;
    if step.Send? {
      SendSound(s, w, step.id, v);
    } else if step.Settle? {
      SettleSound(s, w, step.id, step.outcome, step.fill, step.exits, v);
    } else if step.Throw? {
      ThrowSound(s, w, step.id, v);
    } else if step.RecoverOne? {
      RecoverSound(s, w, step.id, step.now, v);
    } else {
      ListedVisitSound(s, w, step.q, step.exits, v);
    }
  }

  lemma ThrowSound(s: Setup, w: World, id: Id, v: World)
    requires Sound(s, w) && Next(s, w, Throw(id), v)
    ensures Sound(s, v)
  {
    DropSound(s, w, id, v);
  }

  lemma ListedVisitSound(s: Setup, w: World, q: Quorum, exits: seq<Id>, v: World)
    requires Sound(s, w) && Listed(w) && Next(s, w, TickVisit(q, exits), v)
    ensures Sound(s, v)
  {
    VisitSound(s, w, q, exits, v);
  }

  lemma AsideStepSound(s: Setup, w: World, step: Step, v: World)
    requires Sound(s, w) && Next(s, w, step, v) && (step.TickCustody? || step.Note? || step.SyncShadow?)
    ensures Sound(s, v)
  {
    hide Next;
    hide Sound;
    AsideLine(s, w, step, v);
    if v.core == w.core {
      SameWork(s, w, v);
    } else {
      NotedSound(s, w, v.core.journal[|w.core.journal|], v);
    }
  }

  lemma AsideLine(s: Setup, w: World, step: Step, v: World)
    requires Next(s, w, step, v) && (step.TickCustody? || step.Note? || step.SyncShadow?)
    ensures v.work == w.work && v.chain == w.chain
    ensures v.core != w.core ==>
              && |v.core.journal| > |w.core.journal|
              && var r := v.core.journal[|w.core.journal|]; Aside(r) && Plain(r) && v.core == w.core.(journal := w.core.journal + [r])
  {
  }

  lemma LandedSent(w: World, sig: Sig)
    requires Txs(w) && sig in w.chain.txs && w.chain.txs[sig].status.Landed?
    ensures w.chain.txs[sig].sent
  {
    assert SentTx(w, sig);
  }

  lemma LandSound(s: Setup, w: World, sig: Sig, ok: bool, v: World)
    requires Sound(s, w) && Next(s, w, Step.Land(sig, ok), v)
    ensures Sound(s, v)
  {
    hide Attempts;
    hide Clean;
    LandedAllSent(w);
    ChainSound(s, w, v);
  }

  lemma PromoteSound(s: Setup, w: World, sig: Sig, v: World)
    requires Sound(s, w) && (Next(s, w, Step.Promote(sig), v) || Next(s, w, Step.Reorg(sig), v))
    ensures Sound(s, v)
  {
    hide Attempts;
    hide Clean;
    LandedAllSent(w);
    ChainSound(s, w, v);
  }

  lemma AdvanceSound(s: Setup, w: World, v: World)
    requires Sound(s, w) && Next(s, w, Step.Advance, v)
    ensures Sound(s, v)
  {
    hide Attempts;
    hide Clean;
    LandedAllSent(w);
    ChainSound(s, w, v);
  }

  lemma LandedAllSent(w: World)
    requires Txs(w)
    ensures forall sig: Sig :: sig in w.chain.txs && w.chain.txs[sig].status.Landed? ==> w.chain.txs[sig].sent
  {
    forall sig: Sig | sig in w.chain.txs && w.chain.txs[sig].status.Landed? ensures w.chain.txs[sig].sent {
      LandedSent(w, sig);
    }
  }

  lemma SilentSound(s: Setup, w: World, step: Step, v: World)
    requires Sound(s, w) && Next(s, w, step, v) && (step.RecoverEnd? || step.TickStart? || step.TickEnd?)
    ensures Sound(s, v)
  {
    SameWork(s, w, v);
  }

  lemma ReleaseSound(s: Setup, w: World, step: Step, v: World)
    requires Sound(s, w) && Next(s, w, step, v) && (step.OperatorClear? || step.TickRelease?)
    ensures Sound(s, v)
  {
    ClearedSound(s, w, v);
  }

  lemma PauseSound(s: Setup, w: World, reason: PauseReason, v: World)
    requires Sound(s, w) && Next(s, w, EmergencyPause(reason), v)
    ensures Sound(s, v)
  {
    HaltedSound(s, w, reason, v);
  }

  lemma QuietSound(s: Setup, w: World, step: Step, v: World)
    requires Sound(s, w) && Next(s, w, step, v)
    requires || step.Advance? || step.Land? || step.Promote? || step.Reorg? || step.Crash? || step.EmergencyPause? || step.TickCustody? || step.Note?
             || step.SyncShadow? || step.OperatorClear? || step.TickRelease? || step.RecoverEnd? || step.TickStart? || step.TickEnd?
    ensures Sound(s, v)
  {
    hide *;
    if step.Advance? {
      AdvanceSound(s, w, v);
    } else if step.Land? {
      LandSound(s, w, step.sig, step.ok, v);
    } else if step.Promote? || step.Reorg? {
      PromoteSound(s, w, step.sig, v);
    } else if step.Crash? {
      CrashSound(s, w, v);
    } else if step.EmergencyPause? {
      PauseSound(s, w, step.reason, v);
    } else if step.TickCustody? || step.Note? || step.SyncShadow? {
      AsideStepSound(s, w, step, v);
    } else if step.OperatorClear? || step.TickRelease? {
      ReleaseSound(s, w, step, v);
    } else {
      SilentSound(s, w, step, v);
    }
  }

  lemma StepListed(s: Setup, w: World, step: Step, v: World)
    requires Sound(s, w) && Listed(w) && Next(s, w, step, v)
    ensures Listed(v)
  {
    if step.TickStart? {
      StartListed(s, w, v);
    } else if v.task.Ticking? && v != w {
      KeepsTicking(s, w, step, v);
      StepFramed(s, w, step, v);
      if step.TickVisit? {
        VisitListed(s, w, step, v);
      } else if Actor(w, step).Some? {
        ActorUnlisted(s, w, step, v);
        ListedKept(s, w, v, Actor(w, step).value);
      } else {
        ListedQuiet(s, w, v);
      }
    }
  }

  lemma KeepsTicking(s: Setup, w: World, step: Step, v: World)
    requires Next(s, w, step, v) && v.task.Ticking? && !step.TickStart?
    ensures w.task.Ticking? && !step.Crash? && (step.TickVisit? || v.task == w.task)
  {
  }

  lemma ListedQuiet(s: Setup, w: World, v: World)
    requires Listed(w) && v.task == w.task && forall x: Id :: LocalOf(s, v, x) == LocalOf(s, w, x)
    ensures Listed(v)
  {
    if w.task.Ticking? {
      forall x: Id | x in w.task.todo ensures x !in v.work && Unresolved(AttemptOf(v.core.journal, x)) {
        assert LocalOf(s, v, x) == LocalOf(s, w, x);
      }
    }
  }

  lemma VisitListed(s: Setup, w: World, step: Step, v: World)
    requires Listed(w) && Next(s, w, step, v) && step.TickVisit? && Framed(s, w, step, v)
    ensures Listed(v)
  {
    var id := w.task.todo[0];
    forall x: Id | x in v.task.todo ensures x !in v.work && Unresolved(AttemptOf(v.core.journal, x)) {
      Recovery.RestMembers(w.task.todo, x);
      SameBesides(s, w, v, id, x);
    }
  }

  lemma ActorUnlisted(s: Setup, w: World, step: Step, v: World)
    requires Sound(s, w) && Next(s, w, step, v) && Actor(w, step).Some? && !step.TickVisit? && v != w && v.task == w.task && w.task.Ticking?
    ensures var id := Actor(w, step).value; (id in w.work || AttemptOf(w.core.journal, id) == NO_ATTEMPT)
  {
    hide Sound;
    hide Emit;
    hide RecordOuts;
    hide Claimed;
    hide Admission;
    if step.Deliver? || step.EmergencyClose? {
      Unclaimed(s, w, step.id);
    }
  }

  lemma StepSound(s: Setup, w: World, step: Step, v: World)
    requires Sound(s, w) && Listed(w) && Proper(s) && Next(s, w, step, v)
    ensures Sound(s, v) && Listed(v)
  {
    hide *;
    StepListed(s, w, step, v);
    if step.Admit? || step.Sign? || step.PassGate? || step.Fallback? || step.Proceed? {
      WriterSound(s, w, step, v);
    } else if step.Deliver? {
      DeliverSound(s, w, step.id, v);
    } else if step.EmergencyClose? {
      CloseSound(s, w, step.id, v);
    } else if step.Send? || step.Settle? || step.Throw? || step.RecoverOne? || step.TickVisit? {
      PhaseStepSound(s, w, step, v);
    } else {
      QuietSound(s, w, step, v);
    }
  }

  lemma StartSound(s: Setup)
    ensures Sound(s, START) && Listed(START)
  {
  }

  /** The invariant in every world of every run. */
  lemma {:induction false} RunSound(s: Setup, run: seq<World>, steps: seq<Step>, n: nat)
    requires Run(s, run, steps) && n < |run|
    ensures Sound(s, run[n]) && Listed(run[n])
  {
    if n == 0 {
      StartSound(s);
    } else {
      RunSound(s, run, steps, n - 1);
      StepSound(s, run[n - 1], steps[n - 1], run[n]);
    }
  }

  lemma {:induction false} SoundAlong(s: Setup, w: World, steps: seq<Step>, v: World)
    requires Proper(s) && Sound(s, w) && Listed(w) && Leads(s, w, steps, v)
    ensures Sound(s, v) && Listed(v)
    decreases |steps|
  {
    hide Next;
    hide Sound;
    hide Listed;
    if steps != [] {
      var u: World :| LeadsBy(s, w, steps, u, v);
      StepSound(s, w, steps[0], u);
      SoundAlong(s, u, steps[1..], v);
    }
  }
}
