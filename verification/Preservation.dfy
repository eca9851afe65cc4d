/** Every step keeps the invariant. */
module Preservation {
  import opened Sums
  import opened ExposureLedger
  import opened Records
  import opened Intents
  import opened Protocol
  import opened Caps
  import opened Authority
  import opened Runs
  import opened Invariants
  import Recovery

  // ---------------------------------------------------------------- claims

  lemma KnownLive(s: Setup, w: World, y: Id)
    requires Attempts(s, w) && LocalOf(s, w, y).rebuilt.Some?
    ensures LocalOf(s, w, y).live.Some?
  {
    assert Sane(s.cat(y), y, LocalOf(s, w, y));
  }

  lemma Unclaimed(s: Setup, w: World, id: Id)
    requires Sound(s, w) && s.cat(id).key !in w.core.registry
    ensures LocalOf(s, w, id) == Local(NO_ATTEMPT, None, None, None) && s.cat(id).key !in FromJournal(w.core.journal)
  {
    var key := s.cat(id).key;
    assert Sane(s.cat(id), id, LocalOf(s, w, id));
    if key in FromJournal(w.core.journal) {
      KnownLive(s, w, FromJournal(w.core.journal)[key].intentId);
    }
  }

  /** `state` is what the claim leaves in the live registry. */
  ghost predicate Claims(s: Setup, w: World, id: Id, state: IntentState, phase: Phase, v: World) {
    var it := s.cat(id);
    && it.key !in w.core.registry && v.chain == w.chain && v.work == w.work[id := phase]
    && v.core == w.core.(journal := w.core.journal + [Prepared(id, it)], registry := w.core.registry[it.key := IntentEntry(id, state)])
  }

  lemma ClaimSound(s: Setup, w: World, id: Id, state: IntentState, phase: Phase, v: World)
    requires Sound(s, w) && Claims(s, w, id, state, phase, v) && !phase.Sending?
    requires Sane(s.cat(id), id, Local(Observe(NO_ATTEMPT, Prepared(id, s.cat(id))), Some(phase), Some(state), Some(CREATED)))
    ensures Sound(s, v)
  {
    ClaimClean(s, w, id, state, phase, v);
    ClaimLocals(s, w, id, state, phase, v);
    AttemptsKept(s, w, v, id);
    ClaimTxs(s, w, id, v, phase);
  }

  lemma ClaimClean(s: Setup, w: World, id: Id, state: IntentState, phase: Phase, v: World)
    requires Clean(s, w.core) && Claims(s, w, id, state, phase, v)
    ensures Clean(s, v.core)
  {
    FaithfulAfter(w.core, Prepared(id, s.cat(id)), v.core);
    OwnedClaim(s, w.core.journal, id);
  }

  lemma OwnedClaim(s: Setup, j: seq<Record>, id: Id)
    requires Owned(s, FromJournal(j))
    ensures Owned(s, FromJournal(j + [Prepared(id, s.cat(id))]))
  {
    FromJournalNext(j, Prepared(id, s.cat(id)));
  }

  lemma ClaimOther(s: Setup, w: World, id: Id, state: IntentState, phase: Phase, v: World, x: Id)
    requires Claims(s, w, id, state, phase, v) && s.cat(id).key !in FromJournal(w.core.journal) && x != id
    ensures LocalOf(s, v, x) == LocalOf(s, w, x)
  {
    FromJournalNext(w.core.journal, Prepared(id, s.cat(id)));
    AttemptNext(w.core.journal, Prepared(id, s.cat(id)), x);
  }

  lemma ClaimLocals(s: Setup, w: World, id: Id, state: IntentState, phase: Phase, v: World)
    requires Sound(s, w) && Claims(s, w, id, state, phase, v)
    ensures OthersSame(s, w, v, id)
    ensures LocalOf(s, v, id) == Local(Observe(NO_ATTEMPT, Prepared(id, s.cat(id))), Some(phase), Some(state), Some(CREATED))
    ensures AttemptOf(w.core.journal, id) == NO_ATTEMPT
  {
    Unclaimed(s, w, id);
    forall x: Id | x != id ensures LocalOf(s, v, x) == LocalOf(s, w, x) {
      ClaimOther(s, w, id, state, phase, v, x);
    }
    ClaimOwn(s, w, id, state, phase, v);
  }

  lemma ClaimOwn(s: Setup, w: World, id: Id, state: IntentState, phase: Phase, v: World)
    requires Claims(s, w, id, state, phase, v) && s.cat(id).key !in FromJournal(w.core.journal)
    requires AttemptOf(w.core.journal, id) == NO_ATTEMPT
    ensures LocalOf(s, v, id) == Local(Observe(NO_ATTEMPT, Prepared(id, s.cat(id))), Some(phase), Some(state), Some(CREATED))
  {
    FromJournalNext(w.core.journal, Prepared(id, s.cat(id)));
    AttemptNext(w.core.journal, Prepared(id, s.cat(id)), id);
  }

  lemma ClaimTxs(s: Setup, w: World, id: Id, v: World, phase: Phase)
    requires Txs(w) && OthersSame(s, w, v, id) && v.chain == w.chain && At(v, id) == Some(phase) && !phase.Sending?
    requires AttemptOf(w.core.journal, id) == NO_ATTEMPT && AttemptOf(v.core.journal, id) == Observe(NO_ATTEMPT, Prepared(id, s.cat(id)))
    ensures Txs(v)
  {
    TxsKept(s, w, v, id);
  }

  lemma FallbackSound(s: Setup, w: World, id: Id, v: World)
    requires Sound(s, w) && Next(s, w, Step.Fallback(id), v)
    ensures Sound(s, v)
  {
    assert Sane(s.cat(id), id, LocalOf(s, w, id));
    FallbackClean(s, w, id, v);
    FallbackFrame(s, w, id, v);
    FallbackLocal(s.cat(id), id, LocalOf(s, w, id));
    AttemptsKept(s, w, v, id);
    TxsKept(s, w, v, id);
  }

  lemma FallbackClean(s: Setup, w: World, id: Id, v: World)
    requires Clean(s, w.core) && Next(s, w, Step.Fallback(id), v)
    ensures Clean(s, v.core)
  {
    FaithfulAfter(w.core, Prepared(id, s.cat(id)), v.core);
    OwnedClaim(s, w.core.journal, id);
  }

  lemma FallbackFrame(s: Setup, w: World, id: Id, v: World)
    requires Next(s, w, Step.Fallback(id), v) && LocalOf(s, w, id).rebuilt.Some?
    ensures OthersSame(s, w, v, id)
    ensures LocalOf(s, v, id) == LocalOf(s, w, id).(att := Observe(AttemptOf(w.core.journal, id), Prepared(id, s.cat(id))), phase := Some(Building))
  {
    var r := Prepared(id, s.cat(id));
    FromJournalNext(w.core.journal, r);
    assert FromJournal(v.core.journal) == FromJournal(w.core.journal);
    forall x: Id ensures x != id ==> LocalOf(s, v, x) == LocalOf(s, w, x) {
      AttemptNext(w.core.journal, r, x);
    }
    AttemptNext(w.core.journal, r, id);
  }

  lemma FallbackLocal(it: Intent, id: Id, l: Local)
    requires Sane(it, id, l) && it.emergency && l.phase.Some? && (l.phase.value.Building? || l.phase.value.Signed?)
    ensures Sane(it, id, Local(Observe(l.att, Prepared(id, it)), Some(Building), l.live, l.rebuilt))
  {
  }

  // ---------------------------------------------------------------- admission

  lemma RefuseSound(s: Setup, w: World, id: Id, v: World)
    requires Sound(s, w) && At(w, id) == Some(Checking)
    requires Emits(s, w, id, Result(id, s.cat(id).key, PREPARED, FAILED, Live, To(FAILED)), None, v) && v.chain == w.chain
    ensures Sound(s, v)
  {
    hide Txs;
    hide Clean;
    assert Sane(s.cat(id), id, LocalOf(s, w, id));
    EmitSound(s, w, id, Result(id, s.cat(id).key, PREPARED, FAILED, Live, To(FAILED)), None, v);
  }

  /** The reservation before its registry move. */
  function Reserved(s: Setup, w: World, id: Id): World
    requires id !in w.core.open
  {
    w.(core := Emit(w.core, s.cat(id).key, Ledger(Reservation(id, s.cat(id)))), work := w.work[id := Building])
  }

  lemma ReserveLocal(it: Intent, id: Id, l: Local)
    requires Sane(it, id, l) && l.phase == Some(Checking)
    ensures var m := LocalEmit(l, id, Ledger(Reservation(id, it)), Some(Building));
            m.live == Some(CREATED) && Sane(it, id, m.(live := Some(Moved(CREATED, To(AUTHORIZED)))))
    ensures l.rebuilt.Some? && SameSignatures(l.att, LocalEmit(l, id, Ledger(Reservation(id, it)), Some(Building)).att)
  {
  }

  lemma ReserveFrame(s: Setup, w: World, id: Id, v: World)
    requires Attempts(s, w) && LocalOf(s, w, id).att != NO_ATTEMPT && id !in w.core.open && LocalOf(s, w, id).live.Some?
    requires v == w.(core := Admission(w.core, id, s.cat(id), true), work := w.work[id := Building])
    ensures OthersSame(s, w, v, id)
    ensures LocalOf(s, v, id) ==
            var m := LocalEmit(LocalOf(s, w, id), id, Ledger(Reservation(id, s.cat(id))), Some(Building));
            m.(live := Some(Moved(LocalOf(s, w, id).live.value, To(AUTHORIZED))))
  {
    var out := Ledger(Reservation(id, s.cat(id)));
    var u := Reserved(s, w, id);
    Recovery.EmitOne(w.core, s.cat(id).key, out);
    EmitLocal(s, w, id, out, Some(Building), u);
    EmitOthers(s, w, id, out, Some(Building), u);
    MoveLocals(s, u, v, id, To(AUTHORIZED));
    OthersChain(s, w, u, v, id);
  }

  lemma ReserveClean(s: Setup, w: World, id: Id, v: World)
    requires Clean(s, w.core) && id !in w.core.open
    requires v == w.(core := Admission(w.core, id, s.cat(id), true), work := w.work[id := Building])
    ensures Clean(s, v.core)
  {
    var out := Ledger(Reservation(id, s.cat(id)));
    Recovery.EmitOne(w.core, s.cat(id).key, out);
    CleanAfter(s, w.core, s.cat(id).key, out);
  }

  lemma ReserveSound(s: Setup, w: World, id: Id, v: World)
    requires Sound(s, w) && At(w, id) == Some(Checking) && id !in w.core.open
    requires v == w.(core := Admission(w.core, id, s.cat(id), true), work := w.work[id := Building])
    ensures Sound(s, v)
  {
    assert Sane(s.cat(id), id, LocalOf(s, w, id));
    ReserveClean(s, w, id, v);
    ReserveLocal(s.cat(id), id, LocalOf(s, w, id));
    ReserveFrame(s, w, id, v);
    AttemptsKept(s, w, v, id);
    TxsKept(s, w, v, id);
  }

  lemma AdmitSound(s: Setup, w: World, id: Id, v: World)
    requires Sound(s, w) && Next(s, w, Admit(id), v)
    ensures Sound(s, v)
  {
    var it := s.cat(id);
    if !Admitted(s.g, w.core.open, it, None) {
      Recovery.EmitOne(w.core, it.key, Result(id, it.key, PREPARED, FAILED, Live, To(FAILED)));
      RefuseSound(s, w, id, v);
    } else if id in w.core.open {
      DropSound(s, w, id, v);
    } else {
      ReserveSound(s, w, id, v);
    }
  }

  // ---------------------------------------------------------------- signing and sending

  lemma SignSound(s: Setup, w: World, id: Id, sig: Sig, lastValid: Option<nat>, v: World)
    requires Sound(s, w) && Next(s, w, Sign(id, sig, lastValid), v)
    ensures Sound(s, v)
  {
    var out := SignedOut(id, s.cat(id), sig, lastValid);
    assert Sane(s.cat(id), id, LocalOf(s, w, id));
    CleanAfter(s, w.core, s.cat(id).key, out);
    EmitOthers(s, w, id, out, Some(Phase.Signed(sig)), v);
    SignLocal(s.cat(id), id, LocalOf(s, w, id), sig, lastValid);
    EmitAttempts(s, w, id, out, Some(Phase.Signed(sig)), v);
    SignTxs(s, w, id, sig, lastValid, v);
  }

  lemma SignTxs(s: Setup, w: World, id: Id, sig: Sig, lastValid: Option<nat>, v: World)
    requires Txs(w) && Sane(s.cat(id), id, LocalOf(s, w, id)) && Next(s, w, Sign(id, sig, lastValid), v) && OthersSame(s, w, v, id)
    ensures Txs(v)
  {
    hide Sane;
    AttemptAfter(w.core, s.cat(id).key, SignedOut(id, s.cat(id), sig, lastValid), id, id);
    forall x: Id ensures SignedTx(v, x) {
      SameBesides(s, w, v, id, x);
      assert SignedTx(w, x);
    }
    forall sg: Sig | sg in v.chain.txs ensures SentTx(v, sg) {
      if sg != sig {
        SignKeepsSent(s, w, id, sig, lastValid, v, sg);
      }
    }
  }

  lemma SignLocal(it: Intent, id: Id, l: Local, sig: Sig, lastValid: Option<nat>)
    requires Sane(it, id, l) && l.phase == Some(Building)
    ensures Sane(it, id, LocalEmit(l, id, SignedOut(id, it, sig, lastValid), Some(Phase.Signed(sig))))
  {
  }

  lemma SignKeepsSent(s: Setup, w: World, id: Id, sig: Sig, lastValid: Option<nat>, v: World, sg: Sig)
    requires Txs(w) && Sane(s.cat(id), id, LocalOf(s, w, id)) && Next(s, w, Sign(id, sig, lastValid), v)
    requires sg in w.chain.txs && OthersSame(s, w, v, id)
    requires AttemptOf(v.core.journal, id) == Observe(AttemptOf(w.core.journal, id), SignedOut(id, s.cat(id), sig, lastValid).rec)
    ensures SentTx(v, sg)
  {
    assert SentTx(w, sg);
    SameBesides(s, w, v, id, w.chain.txs[sg].owner);
  }

  lemma SubmitSound(s: Setup, w: World, id: Id, sig: Sig, v: World)
    requires Sound(s, w) && At(w, id) == Some(Phase.Signed(sig)) && v.chain == w.chain
    requires Emits(s, w, id, SubmittedOut(id, s.cat(id), sig), Some(Sending(sig)), v)
    ensures Sound(s, v)
  {
    assert Sane(s.cat(id), id, LocalOf(s, w, id));
    SubmitLocal(s.cat(id), id, LocalOf(s, w, id), sig);
    SignedUnsent(s, w, id, sig);
    EmitSound(s, w, id, SubmittedOut(id, s.cat(id), sig), Some(Sending(sig)), v);
  }

  lemma SubmitLocal(it: Intent, id: Id, l: Local, sig: Sig)
    requires Sane(it, id, l) && l.phase == Some(Phase.Signed(sig))
    ensures Sane(it, id, LocalEmit(l, id, SubmittedOut(id, it, sig), Some(Sending(sig))))
  {
  }

  /** A signature between its SIGNED line and its submission has not left the process. */
  lemma SignedUnsent(s: Setup, w: World, id: Id, sig: Sig)
    requires Sound(s, w) && At(w, id) == Some(Phase.Signed(sig))
    ensures sig in w.chain.txs && w.chain.txs[sig].owner == id && !w.chain.txs[sig].sent
  {
    assert Sane(s.cat(id), id, LocalOf(s, w, id));
    assert SignedTx(w, id);
    assert SentTx(w, sig);
  }

  lemma SendSound(s: Setup, w: World, id: Id, v: World)
    requires Sound(s, w) && Next(s, w, Step.Send(id), v)
    ensures Sound(s, v)
  {
    assert Sane(s.cat(id), id, LocalOf(s, w, id));
    PhaseOthers(s, w, id, At(v, id), v);
    SendLocal(s.cat(id), id, LocalOf(s, w, id), At(w, id).value.sig);
    AttemptsKept(s, w, v, id);
    SendTxs(s, w, id, v);
  }

  lemma SendLocal(it: Intent, id: Id, l: Local, sig: Sig)
    requires Sane(it, id, l) && l.phase == Some(Sending(sig))
    ensures Sane(it, id, l.(phase := Some(Phase.Sent(sig))))
  {
  }

  lemma SendTxs(s: Setup, w: World, id: Id, v: World)
    requires Sound(s, w) && Next(s, w, Step.Send(id), v)
    ensures Txs(v)
  {
    SendingOwner(s, w, id);
    forall x: Id ensures SignedTx(v, x) {
      assert SignedTx(w, x);
      SendingOwner(s, w, x);
    }
    forall sig: Sig | sig in v.chain.txs ensures SentTx(v, sig) {
      assert SentTx(w, sig);
    }
  }

  lemma SendingOwner(s: Setup, w: World, id: Id)
    requires Sound(s, w)
    ensures At(w, id).Some? && At(w, id).value.Sending? ==>
              var sig := At(w, id).value.sig; var a := AttemptOf(w.core.journal, id);
              && sig in w.chain.txs && w.chain.txs[sig].owner == id && a.submits > 0
              && a.signed.Some? && a.signed.value.AttemptSigned? && a.signed.value.sig == Some(sig)
  {
    assert Sane(s.cat(id), id, LocalOf(s, w, id));
    assert SignedTx(w, id);
  }

  // ---------------------------------------------------------------- agendas

  lemma {:induction false} ExitAgenda(it: Intent, id: Id, l: Local, open: Open, order: seq<Id>, sold: nat, held: nat, last: Out)
    requires l.live.Some? && l.rebuilt.Some? && it.emergency && Agenda(it, id, l, [last])
    requires forall i :: 0 <= i < |order| ==> order[i] in open
    ensures Agenda(it, id, l, ExitOuts(open, order, sold, held) + [last])
    decreases |order|
  {
    if order == [] {
      assert ExitOuts(open, order, sold, held) + [last] == [last];
    } else {
      var head := Ledger(ExitConfirmed(order[0], SaleReleased(ExposureOf(open[order[0]]), sold, held)));
      var tail := ExitOuts(open, order[1..], sold, held) + [last];
      ExitAgenda(it, id, l, open, order[1..], sold, held, last);
      assert ExitOuts(open, order, sold, held) + [last] == [head] + tail;
      assert ([head] + tail)[1..] == tail;
    }
  }

  lemma EventAgenda(it: Intent, id: Id, l: Local, event: Out, last: Out)
    requires l.live.Some? && l.rebuilt.Some? && Event(it, id, event) && Agenda(it, id, l, [last])
    ensures Agenda(it, id, l, [event] + [last])
  {
    assert ([event] + [last])[1..] == [last];
  }

  lemma RecordAgenda(it: Intent, id: Id, l: Local, open: Open, outcome: AttemptState, fill: Option<nat>, exits: seq<Id>)
    requires Lines(it, id, l.att) && States(l.att, l.live, l.rebuilt) && l.att.results == 0
    requires forall i :: 0 <= i < |exits| ==> exits[i] in open
    requires outcome == FINALIZED || outcome == CONFIRMED_PROVISIONAL ==> l.att.submits > 0
    requires outcome != SUBMITTED
    ensures Agenda(it, id, l, RecordOuts(open, id, it, outcome, fill, exits))
  {
    var amount := if fill.Some? then fill.value else it.maxInput;
    match outcome
    case FINALIZED =>
      var last := Result(id, it.key, FINALIZED, COMPLETED, Live, To(COMPLETED));
      if it.emergency {
        ExitAgenda(it, id, l, open, exits, amount, it.held, last);
      } else {
        EventAgenda(it, id, l, Ledger(EntryConfirmed(id, amount)), last);
      }
    case CONFIRMED_PROVISIONAL =>
      var last := Line(AttemptObserved(id, it.key), Stay);
      if it.emergency {
        assert [] + [last] == [last];
      } else {
        EventAgenda(it, id, l, Ledger(EntryConfirmed(id, amount)), last);
      }
    case SUBMITTED =>
    case _ =>
      var last := Result(id, it.key, outcome, FAILED, Live, To(FAILED));
      assert Concludes(it, id, l.att, l.live.value, l.rebuilt.value, last);
      if it.emergency {
        assert [] + [last] == [last];
      } else {
        EventAgenda(it, id, l, Ledger(EntryReleased(id)), last);
      }
  }

  lemma SettleSound(s: Setup, w: World, id: Id, outcome: AttemptState, fill: Option<nat>, exits: seq<Id>, v: World)
    requires Sound(s, w) && Next(s, w, Settle(id, outcome, fill, exits), v)
    ensures Sound(s, v)
  {
    hide Txs;
    hide Clean;
    assert Sane(s.cat(id), id, LocalOf(s, w, id));
    if outcome == SUBMITTED {
      PhaseSound(s, w, id, None, v);
    } else {
      var outs := RecordOuts(w.core.open, id, s.cat(id), outcome, fill, exits);
      RecordAgenda(s.cat(id), id, LocalOf(s, w, id), w.core.open, outcome, fill, exits);
      AgendaAnyPhase(s.cat(id), id, LocalOf(s, w, id), outs);
      PhaseSound(s, w, id, Some(Finishing(outs)), v);
    }
  }

  /** An agenda speaks of the attempt, not of the phase. */
  lemma {:induction false} AgendaAnyPhase(it: Intent, id: Id, l: Local, outs: seq<Out>)
    requires l.live.Some? && l.rebuilt.Some? && Agenda(it, id, l, outs)
    ensures Agenda(it, id, l.(phase := Some(Finishing(outs))), outs)
  {
    AgendaFrame(it, id, l, l.(phase := Some(Finishing(outs))), outs);
  }

  /** What an agenda depends on. */
  lemma {:induction false} AgendaFrame(it: Intent, id: Id, l: Local, m: Local, outs: seq<Out>)
    requires l.live.Some? && l.rebuilt.Some? && Agenda(it, id, l, outs)
    requires m.live == l.live && m.rebuilt == l.rebuilt && m.att.submits == l.att.submits && m.att.seen == l.att.seen
    ensures Agenda(it, id, m, outs)
    decreases |outs|
  {
    if |outs| > 1 && Event(it, id, outs[0]) {
      AgendaFrame(it, id, l, m, outs[1..]);
    }
  }

  lemma GateShutSound(s: Setup, w: World, id: Id, v: World)
    requires Sound(s, w) && At(w, id).Some? && At(w, id).value.Signed?
    requires v == w.(work := Busy(w.work, id, RecordOuts(w.core.open, id, s.cat(id), SIGNED_NOT_SUBMITTED, None, [])))
    ensures Sound(s, v)
  {
    assert Sane(s.cat(id), id, LocalOf(s, w, id));
    var outs := RecordOuts(w.core.open, id, s.cat(id), SIGNED_NOT_SUBMITTED, None, []);
    RecordAgenda(s.cat(id), id, LocalOf(s, w, id), w.core.open, SIGNED_NOT_SUBMITTED, None, []);
    AgendaAnyPhase(s.cat(id), id, LocalOf(s, w, id), outs);
    PhaseSound(s, w, id, Some(Finishing(outs)), v);
  }

  lemma PassGateSound(s: Setup, w: World, id: Id, facts: ModeFacts, v: World)
    requires Sound(s, w) && Next(s, w, PassGate(id, facts), v)
    ensures Sound(s, v)
  {
    if ModeGate(facts.(localPause := facts.localPause || w.core.pause.Active?), s.cat(id).effect).Open? {
      SubmitSound(s, w, id, At(w, id).value.sig, v);
    } else {
      GateShutSound(s, w, id, v);
    }
  }

  // ---------------------------------------------------------------- writing an agenda

  lemma ProceedLocal(it: Intent, id: Id, l: Local, outs: seq<Out>)
    requires Sane(it, id, l) && l.phase == Some(Finishing(outs)) && l.att != NO_ATTEMPT
    ensures outs != [] && Own(id, outs[0])
    ensures outs[0].Line? ==> Plain(outs[0].rec) && !outs[0].rec.AttemptSigned? && (KeyIn(outs[0].rec) == Some(it.key))
    ensures Sane(it, id, LocalEmit(l, id, outs[0], if outs[1..] == [] then None else Some(Finishing(outs[1..]))))
  {
    var out := outs[0];
    var m := LocalEmit(l, id, out, if outs[1..] == [] then None else Some(Finishing(outs[1..])));
    if |outs| > 1 && Event(it, id, out) {
      AgendaFrame(it, id, l, m, outs[1..]);
    } else if |outs| > 1 {
      assert outs[1..] == [outs[1]];
    }
  }

  lemma ProceedSound(s: Setup, w: World, id: Id, v: World)
    requires Sound(s, w) && Next(s, w, Proceed(id), v)
    ensures Sound(s, v)
  {
    hide Txs;
    hide Clean;
    assert Sane(s.cat(id), id, LocalOf(s, w, id));
    var outs := At(w, id).value.outs;
    ProceedLocal(s.cat(id), id, LocalOf(s, w, id), outs);
    if CanEmit(w.core, outs[0]) {
      EmitSound(s, w, id, outs[0], if outs[1..] == [] then None else Some(Finishing(outs[1..])), v);
    } else {
      DropSound(s, w, id, v);
    }
  }

  // ---------------------------------------------------------------- crash

  lemma RestartLocal(it: Intent, id: Id, l: Local)
    requires Sane(it, id, l)
    ensures Sane(it, id, l.(phase := None, live := l.rebuilt))
  {
  }

  lemma CrashSound(s: Setup, w: World, v: World)
    requires Sound(s, w) && Next(s, w, Step.Crash, v)
    ensures Sound(s, v)
  {
    forall x: Id ensures Sane(s.cat(x), x, LocalOf(s, v, x)) {
      assert Sane(s.cat(x), x, LocalOf(s, w, x));
      RestartLocal(s.cat(x), x, LocalOf(s, w, x));
      assert LocalOf(s, v, x) == LocalOf(s, w, x).(phase := None, live := LocalOf(s, w, x).rebuilt);
    }
    forall x: Id ensures SignedTx(v, x) {
      assert SignedTx(w, x);
    }
    forall sig: Sig | sig in v.chain.txs ensures SentTx(v, sig) {
      assert SentTx(w, sig);
    }
  }

  // ---------------------------------------------------------------- recovery and tracking

  /** What the chain shows under the signature of an attempt was submitted by it. */
  lemma SeenWasSubmitted(s: Setup, w: World, id: Id)
    requires Sound(s, w)
    ensures var a := AttemptOf(w.core.journal, id);
            SignatureOf(a).Some? && a.signed.Some? ==>
              var sig := SignatureOf(a).value;
              && sig in w.chain.txs && w.chain.txs[sig].owner == id && LastValidOf(a) == w.chain.txs[sig].lastValid
              && (w.chain.txs[sig].sent || w.chain.txs[sig].status.Landed? ==> a.submits > 0)
  {
    var a := AttemptOf(w.core.journal, id);
    assert Sane(s.cat(id), id, LocalOf(s, w, id));
    assert SignedTx(w, id);
    if SignatureOf(a).Some? && a.signed.Some? {
      assert SentTx(w, SignatureOf(a).value);
    }
  }

  lemma MaybeEvent(it: Intent, id: Id, l: Local, c: bool, event: Out, last: Out)
    requires l.live.Some? && l.rebuilt.Some? && Event(it, id, event) && Agenda(it, id, l, [last])
    ensures Agenda(it, id, l, (if c then [event] else []) + [last])
  {
    if c {
      EventAgenda(it, id, l, event, last);
    } else {
      assert [] + [last] == [last];
    }
  }

  lemma ExpireAgenda(it: Intent, id: Id, l: Local, open: Open, now: int)
    requires Lines(it, id, l.att) && States(l.att, l.live, l.rebuilt) && Expired(l.att, now)
    ensures l.att.results == 0 && Agenda(it, id, l, ExpireOuts(open, id, l.att))
  {
    MaybeEvent(it, id, l, id in open, Ledger(EntryReleased(id)), Result(id, ExpireKey(l.att), PREPARED, EXPIRED, Recovered, To(EXPIRED)));
  }

  lemma ResolveAgenda(it: Intent, id: Id, l: Local, open: Open, v: Verdict)
    requires Lines(it, id, l.att) && States(l.att, l.live, l.rebuilt) && Unresolved(l.att) && l.att.signed.Some? && v != Keep
    requires v == Final ==> l.att.submits > 0
    ensures l.att.results == 0 && Agenda(it, id, l, ResolveOuts(open, id, l.att, v))
  {
    if v == Final {
      var last := Result(id, it.key, FINALIZED, COMPLETED, Recovered, Via(COMPLETED));
      if id in open {
        EventAgenda(it, id, l, Ledger(EntryConfirmed(id, NotionalOf(l.att))), last);
      } else {
        assert [] + [last] == [last];
      }
    } else {
      var last := Result(id, it.key, NOT_LANDED, FAILED, Recovered, Via(FAILED));
      EventAgenda(it, id, l, Ledger(EntryReleased(id)), last);
      assert [Ledger(EntryReleased(id))] + [last] == [Ledger(EntryReleased(id)), last];
    }
  }

  lemma RecoverSound(s: Setup, w: World, id: Id, now: int, v: World)
    requires Sound(s, w) && Next(s, w, RecoverOne(id, now), v)
    ensures Sound(s, v)
  {
    hide Txs;
    hide Clean;
    var l := LocalOf(s, w, id);
    var outs := RecoverOuts(w, id, now);
    assert Sane(s.cat(id), id, l);
    SeenWasSubmitted(s, w, id);
    if Expired(l.att, now) {
      ExpireAgenda(s.cat(id), id, l, w.core.open, now);
    } else {
      ResolveAgenda(s.cat(id), id, l, w.core.open, VerdictOn(l.att, ViewOf(w.chain)));
    }
    AgendaAnyPhase(s.cat(id), id, l, outs);
    PhaseSound(s, w, id, Some(Finishing(outs)), v);
  }

  lemma TickAgenda(it: Intent, id: Id, l: Local, open: Open, sig: Sig, q: Quorum, exits: seq<Id>)
    requires Lines(it, id, l.att) && States(l.att, l.live, l.rebuilt) && Unresolved(l.att) && l.att.signed.Some?
    requires forall i :: 0 <= i < |exits| ==> exits[i] in open
    requires q.QFinalized? || q.QConfirmed? ==> l.att.submits > 0
    ensures l.att.results == 0
    ensures var outs := TickOuts(open, id, l.att, sig, q, exits); outs == [] || Agenda(it, id, l, outs)
  {
    var a := l.att;
    var confirm := Ledger(EntryConfirmed(id, NotionalOf(a)));
    if q.QFinalized? {
      var last := Result(id, it.key, FINALIZED, COMPLETED, Tracked, IfExecuting(COMPLETED));
      if it.emergency {
        ExitAgenda(it, id, l, open, exits, NotionalOf(a), HeldOf(a), last);
      } else {
        MaybeEvent(it, id, l, !IsEmergency(a) && id in open, confirm, last);
      }
    } else if q.QConfirmed? {
      if !a.seen.SeenConfirmed? {
        MaybeEvent(it, id, l, !IsEmergency(a) && id in open, confirm, Line(AttemptObserved(id, it.key), Executing));
      }
    } else if Contradicts(q) && a.seen.SeenConfirmed? {
      var outs := [Line(AttemptReorgPending(id, it.key, sig), Stay), Halt(ReorgPending(sig))];
      assert outs[1..] == [outs[1]];
    } else if Buries(a, q) && !q.QDivergent? {
      var last := Result(id, it.key, NOT_LANDED, FAILED, Tracked, IfExecuting(FAILED));
      MaybeEvent(it, id, l, !IsEmergency(a) && id in open, Ledger(EntryReleased(id)), last);
    }
  }

  lemma VisitSound(s: Setup, w: World, q: Quorum, exits: seq<Id>, v: World)
    requires Sound(s, w) && Next(s, w, TickVisit(q, exits), v)
    requires Unresolved(AttemptOf(w.core.journal, w.task.todo[0]))
    ensures Sound(s, v)
  {
    var id := w.task.todo[0];
    var a := AttemptOf(w.core.journal, id);
    if SignatureOf(a).None? || a.signed.None? {
      SameWork(s, w, v);
    } else if TickOuts(w.core.open, id, a, SignatureOf(a).value, q, exits) == [] {
      DropSound(s, w, id, v);
    } else {
      VisitWorks(s, w, q, exits, v);
    }
  }

  lemma VisitWorks(s: Setup, w: World, q: Quorum, exits: seq<Id>, v: World)
    requires Sound(s, w) && Next(s, w, TickVisit(q, exits), v)
    requires var id := w.task.todo[0]; var a := AttemptOf(w.core.journal, id);
             Unresolved(a) && SignatureOf(a).Some? && a.signed.Some? && TickOuts(w.core.open, id, a, SignatureOf(a).value, q, exits) != []
    ensures Sound(s, v)
  {
    hide Txs;
    hide Clean;
    var id := w.task.todo[0];
    var l := LocalOf(s, w, id);
    var sig := SignatureOf(l.att).value;
    var outs := TickOuts(w.core.open, id, l.att, sig, q, exits);
    assert Sane(s.cat(id), id, l);
    SeenWasSubmitted(s, w, id);
    TickAgenda(s.cat(id), id, l, w.core.open, sig, q, exits);
    AgendaAnyPhase(s.cat(id), id, l, outs);
    PhaseSound(s, w, id, Some(Finishing(outs)), v);
  }

  // ---------------------------------------------------------------- lines about no attempt

  lemma ClearedSound(s: Setup, w: World, v: World)
    requires Sound(s, w) && v.core == Cleared(w.core) && v.work == w.work && v.chain == w.chain
    ensures Sound(s, v)
  {
    FaithfulCleared(w.core);
    if w.core.pause.Active? {
      AsideSound(s, w, PauseCleared, v);
    } else {
      SameWork(s, w, v);
    }
  }

  lemma HaltedSound(s: Setup, w: World, reason: PauseReason, v: World)
    requires Sound(s, w) && v.core == Halted(w.core, reason) && v.work == w.work && v.chain == w.chain
    ensures Sound(s, v)
  {
    FaithfulEmit(w.core, 0, Halt(reason));
    if w.core.pause.Inactive? {
      AsideSound(s, w, PauseApplied(reason), v);
    } else {
      SameWork(s, w, v);
    }
  }

  lemma NotedSound(s: Setup, w: World, r: Record, v: World)
    requires Sound(s, w) && Aside(r) && Plain(r) && v.core == w.core.(journal := w.core.journal + [r]) && v.work == w.work && v.chain == w.chain
    ensures Sound(s, v)
  {
    FaithfulAfter(w.core, r, v.core);
    AsideSound(s, w, r, v);
  }

  lemma SameWork(s: Setup, w: World, v: World)
    requires Sound(s, w) && v.core == w.core && v.work == w.work && v.chain == w.chain
    ensures Sound(s, v)
  {
    ChainSound(s, w, v);
  }

  // ---------------------------------------------------------------- the tracker's list

  /** What the tracker still has to visit is unresolved and at rest. */
  ghost predicate Listed(w: World) {
    w.task.Ticking? ==>
      && Recovery.Distinct(w.task.todo)
      && forall id: Id :: id in w.task.todo ==> id !in w.work && Unresolved(AttemptOf(w.core.journal, id))
  }

  lemma {:induction false} AtRestMembers(ids: seq<Id>, work: map<Id, Phase>, id: Id)
    ensures id in AtRest(ids, work) <==> id in ids && id !in work
    decreases |ids|
  {
    if ids != [] {
      AtRestMembers(ids[1..], work, id);
    }
  }

  lemma {:induction false} AtRestDistinct(ids: seq<Id>, work: map<Id, Phase>)
    requires Recovery.Distinct(ids)
    ensures Recovery.Distinct(AtRest(ids, work))
    decreases |ids|
  {
    if ids != [] {
      AtRestDistinct(ids[1..], work);
      AtRestMembers(ids[1..], work, ids[0]);
    }
  }

  lemma StartListed(s: Setup, w: World, v: World)
    requires Next(s, w, Step.TickStart, v)
    ensures Listed(v)
  {
    Recovery.TouchedIdsDistinct(w.core.journal);
    Recovery.OnlyUnresolvedDistinct(w.core.journal, TouchedIds(w.core.journal));
    AtRestDistinct(UnresolvedIds(w.core.journal), w.work);
    forall id: Id ensures id in v.task.todo ==> id !in w.work && Unresolved(AttemptOf(w.core.journal, id)) {
      AtRestMembers(UnresolvedIds(w.core.journal), w.work, id);
      UnresolvedIdsMembers(w.core.journal, id);
    }
  }

  /** A step on one attempt that the list does not name. */
  lemma ListedKept(s: Setup, w: World, v: World, id: Id)
    requires Listed(w) && v.task == w.task && OthersSame(s, w, v, id)
    requires id in w.work || AttemptOf(w.core.journal, id) == NO_ATTEMPT
    ensures Listed(v)
  {
    if w.task.Ticking? {
      forall x: Id | x in w.task.todo ensures x !in v.work && Unresolved(AttemptOf(v.core.journal, x)) {
        SameBesides(s, w, v, id, x);
      }
    }
  }
}
