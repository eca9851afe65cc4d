/** When a transaction of an entry may still land: decided by its flow, its transactions and the block height. */
module Landing {
  import opened Sums
  import opened ExposureLedger
  import opened Records
  import opened Intents
  import opened Protocol
  import opened Caps
  import opened Authority
  import opened Runs
  import opened Invariants
  import opened Preservation
  import opened Steps
  import Releases

  /** Sent, or signed by a flow that has still to send it. */
  predicate OnTheWire(phase: Option<Phase>, t: Tx, sig: Sig) {
    t.sent || phase == Some(Phase.Signed(sig)) || phase == Some(Sending(sig))
  }

  predicate CouldLand(w: World, id: Id, sig: Sig)
    requires sig in w.chain.txs
  {
    var t := w.chain.txs[sig];
    t.owner == id && OnTheWire(At(w, id), t, sig) && !Expiry(t, w.chain.height) && !(t.status.Landed? && t.status.commitment == Finalized)
  }

  /** Its flow has still to sign, or a transaction of it that was sent or is about to be is neither final nor expired. */
  ghost predicate Alive(w: World, id: Id) {
    At(w, id) == Some(Building) || exists sig: Sig :: sig in w.chain.txs && CouldLand(w, id, sig)
  }

  /** Prepared, and past admission. */
  ghost predicate Underway(w: World, id: Id) {
    AttemptOf(w.core.journal, id).first.Some? && At(w, id) != Some(Checking)
  }

  /** In some continuation the chain lands a transaction of the attempt. */
  ghost predicate MayLand(s: Setup, w: World, id: Id) {
    exists steps: seq<Step>, u: World, sig: Sig, v: World :: Leads(s, w, steps, u) && Lands(s, u, id, sig, v)
  }

  ghost predicate Lands(s: Setup, w: World, id: Id, sig: Sig, v: World) {
    sig in w.chain.txs && w.chain.txs[sig].owner == id && Next(s, w, Land(sig, true), v)
  }

  // ---------------------------------------------------------------- what is dead stays dead

  /** The chain forgets no expiry, drops nothing final and lands only what was sent in time. */
  predicate TxMoves(t: Tx, height: nat, u: Tx, later: nat) {
    && u == t.(status := u.status) && later >= height
    && (t.status.Landed? && t.status.commitment == Finalized ==> u.status == t.status)
  }

  lemma ChainMoves(s: Setup, w: World, step: Step, v: World)
    requires Next(s, w, step, v) && (step.Advance? || step.Land? || step.Promote? || step.Reorg?)
    ensures v.work == w.work && v.chain.txs.Keys == w.chain.txs.Keys
    ensures forall sig: Sig :: sig in w.chain.txs ==> TxMoves(w.chain.txs[sig], w.chain.height, v.chain.txs[sig], v.chain.height)
  {
  }

  lemma ChainAlive(s: Setup, w: World, step: Step, v: World, id: Id)
    requires Next(s, w, step, v) && (step.Advance? || step.Land? || step.Promote? || step.Reorg?) && Alive(v, id)
    ensures Alive(w, id)
  {
    hide Next;
    ChainMoves(s, w, step, v);
    if At(v, id) != Some(Building) {
      var sig: Sig :| sig in v.chain.txs && CouldLand(v, id, sig);
      assert CouldLand(w, id, sig);
    }
  }

  lemma CrashAlive(s: Setup, w: World, v: World, id: Id)
    requires Next(s, w, Step.Crash, v) && Alive(v, id)
    ensures Alive(w, id)
  {
    var sig: Sig :| sig in v.chain.txs && CouldLand(v, id, sig);
    assert CouldLand(w, id, sig);
  }

  /** The steps of an attempt past admission: where each starts from. */
  lemma ActorStarts(s: Setup, w: World, step: Step, v: World, id: Id)
    requires Sound(s, w) && Underway(w, id) && !s.cat(id).emergency && Next(s, w, step, v) && Actor(w, step) == Some(id)
    ensures step.Deliver? ==> v == w
    ensures !step.Admit? && !step.EmergencyClose? && !step.Fallback?
  {
    hide Clean;
    hide Txs;
    hide Lines;
    hide Stage;
    hide Emit;
    hide Claimed;
    hide RecordOuts;
    hide TickOuts;
    assert Sane(s.cat(id), id, LocalOf(s, w, id));
  }

  /** A step of the attempt itself that leaves the chain alone takes it no nearer to the wire. */
  lemma ActorPhase(s: Setup, w: World, step: Step, v: World, id: Id)
    requires Underway(w, id) && Next(s, w, step, v) && Actor(w, step) == Some(id)
    requires (step.Deliver? ==> v == w) && !step.Admit? && !step.EmergencyClose? && !step.Fallback?
    ensures At(v, id) != Some(Building) || At(w, id) == Some(Building)
    ensures At(v, id) != Some(Checking)
    ensures step.Sign? ==> At(w, id) == Some(Building)
    ensures !step.Sign? && !step.Send? ==> forall sig: Sig, t: Tx :: OnTheWire(At(v, id), t, sig) ==> OnTheWire(At(w, id), t, sig)
  {
    hide Emit;
    hide RecordOuts;
    hide TickOuts;
    hide AttemptOf;
  }

  lemma SendAlive(s: Setup, w: World, step: Step, v: World, id: Id)
    requires step.Send? && step.id == id && Next(s, w, step, v) && Alive(v, id)
    ensures Alive(w, id)
  {
    var sig: Sig :| sig in v.chain.txs && CouldLand(v, id, sig);
    assert CouldLand(w, id, sig);
  }

  /** Another attempt signs or sends. */
  lemma OtherAlive(s: Setup, w: World, step: Step, v: World, id: Id)
    requires Sound(s, w) && Next(s, w, step, v) && (step.Sign? || step.Send?) && Actor(w, step) != Some(id) && At(v, id) == At(w, id)
    requires Alive(v, id)
    ensures Alive(w, id)
  {
    hide Attempts;
    hide Clean;
    if step.Send? {
      WorkingSound(s, w, step.id);
      SendingOwner(s, w, step.id);
    }
    if At(v, id) != Some(Building) {
      var sig: Sig :| sig in v.chain.txs && CouldLand(v, id, sig);
      assert CouldLand(w, id, sig);
    }
  }

  lemma SameChainAlive(w: World, v: World, id: Id)
    requires v.chain == w.chain && Alive(v, id) && (At(v, id) != Some(Building) || At(w, id) == Some(Building))
    requires forall sig: Sig, t: Tx :: OnTheWire(At(v, id), t, sig) ==> OnTheWire(At(w, id), t, sig)
    ensures Alive(w, id)
  {
    hide OnTheWire;
    if At(v, id) != Some(Building) {
      var sig: Sig :| sig in v.chain.txs && CouldLand(v, id, sig);
      assert CouldLand(w, id, sig);
    }
  }

  lemma SignerAlive(w: World, id: Id)
    requires At(w, id) == Some(Building)
    ensures Alive(w, id)
  {
  }

  lemma ChainPhases(s: Setup, w: World, step: Step, v: World, id: Id)
    requires Next(s, w, step, v) && (step.Advance? || step.Land? || step.Promote? || step.Reorg? || step.Crash?)
    ensures At(v, id) == At(w, id) || At(v, id).None?
  {
  }

  /** No step brings an attempt that is past admission back to life. */
  lemma StepAlive(s: Setup, w: World, step: Step, v: World, id: Id)
    requires Sound(s, w) && Next(s, w, step, v) && !s.cat(id).emergency && Underway(w, id)
    ensures Underway(v, id) && (Alive(v, id) ==> Alive(w, id))
  {
    hide Next;
    hide Sound;
    hide Alive;
    hide OnTheWire;
    Releases.FirstKept(s, w, step, v, id);
    if step.Advance? || step.Land? || step.Promote? || step.Reorg? {
      ChainPhases(s, w, step, v, id);
      if Alive(v, id) {
        ChainAlive(s, w, step, v, id);
      }
    } else if step.Crash? {
      ChainPhases(s, w, step, v, id);
      if Alive(v, id) {
        CrashAlive(s, w, v, id);
      }
    } else {
      StepFramed(s, w, step, v);
      if Actor(w, step) == Some(id) {
        ActorAlive(s, w, step, v, id);
      } else {
        Releases.SamePhase(s, w, step, v, id);
        if Alive(v, id) {
          if step.Sign? || step.Send? {
            OtherAlive(s, w, step, v, id);
          } else {
            SameChain(s, w, step, v);
            SameChainAlive(w, v, id);
          }
        }
      }
    }
  }

  lemma ActorAlive(s: Setup, w: World, step: Step, v: World, id: Id)
    requires Sound(s, w) && Underway(w, id) && !s.cat(id).emergency && Next(s, w, step, v) && Actor(w, step) == Some(id)
    requires !step.Advance? && !step.Land? && !step.Promote? && !step.Reorg?
    ensures At(v, id) != Some(Checking) && (Alive(v, id) ==> Alive(w, id))
  {
    hide Next;
    hide Sound;
    hide Alive;
    hide OnTheWire;
    ActorStarts(s, w, step, v, id);
    ActorPhase(s, w, step, v, id);
    if Alive(v, id) {
      if step.Sign? {
        SignerAlive(w, id);
      } else if step.Send? {
        ActsItself(w, step, id);
        SendAlive(s, w, step, v, id);
      } else {
        SameChain(s, w, step, v);
        SameChainAlive(w, v, id);
      }
    }
  }

  lemma ActsItself(w: World, step: Step, id: Id)
    requires step.Send? && Actor(w, step) == Some(id)
    ensures step.id == id
  {
  }

  lemma {:induction false} DeadForEver(s: Setup, w: World, steps: seq<Step>, v: World, id: Id)
    requires Proper(s) && Sound(s, w) && Listed(w) && !s.cat(id).emergency && Underway(w, id) && Leads(s, w, steps, v)
    ensures Alive(v, id) ==> Alive(w, id)
    decreases |steps|
  {
    hide Next;
    hide Sound;
    hide Listed;
    hide Alive;
    hide Underway;
    if steps != [] {
      var u: World :| LeadsBy(s, w, steps, u, v);
      StepSound(s, w, steps[0], u);
      StepAlive(s, w, steps[0], u, id);
      DeadForEver(s, u, steps[1..], v, id);
    }
  }

  /** What lands was alive. */
  lemma LandsAlive(s: Setup, w: World, id: Id, sig: Sig, v: World)
    requires Lands(s, w, id, sig, v)
    ensures Alive(w, id)
  {
    assert CouldLand(w, id, sig);
  }

  // ---------------------------------------------------------------- what is alive may land

  /** A sent transaction, neither final nor expired. */
  lemma SentLands(s: Setup, w: World, id: Id, sig: Sig) returns (steps: seq<Step>, u: World, v: World)
    requires sig in w.chain.txs && w.chain.txs[sig].sent && CouldLand(w, id, sig)
    ensures Leads(s, w, steps, u) && Lands(s, u, id, sig, v)
  {
    var t := w.chain.txs[sig];
    u := w;
    if t.status.Landed? {
      u := w.(chain := w.chain.(txs := w.chain.txs[sig := t.(status := Absent)]));
      assert Next(s, w, Reorg(sig), u);
      LeadsOne(s, w, Reorg(sig), u);
      steps := [Reorg(sig)];
    } else {
      LeadsNone(s, w);
      steps := [];
    }
    v := u.(chain := u.chain.(txs := u.chain.txs[sig := u.chain.txs[sig].(status := Landed(Processed, true))]));
    assert Next(s, u, Land(sig, true), v);
  }

  lemma SendingLands(s: Setup, w: World, id: Id, sig: Sig) returns (steps: seq<Step>, u: World, v: World)
    requires At(w, id) == Some(Sending(sig)) && sig in w.chain.txs && CouldLand(w, id, sig)
    ensures Leads(s, w, steps, u) && Lands(s, u, id, sig, v)
  {
    var x := w.(work := w.work[id := Phase.Sent(sig)], chain := w.chain.(txs := w.chain.txs[sig := w.chain.txs[sig].(sent := true)]));
    assert Next(s, w, Send(id), x);
    assert CouldLand(x, id, sig);
    hide Next;
    LeadsOne(s, w, Send(id), x);
    var more;
    more, u, v := SentLands(s, x, id, sig);
    LeadsChain(s, w, [Send(id)], x, more, u);
    steps := [Send(id)] + more;
  }

  const OPEN_GATE := ModeFacts(ActiveNow, LiveAuto, false, false, true)

  /** An operator clears what pause there may be, and the gate lets the flow pass. */
  lemma SignedLands(s: Setup, w: World, id: Id, sig: Sig) returns (steps: seq<Step>, u: World, v: World)
    requires At(w, id) == Some(Phase.Signed(sig)) && sig in w.chain.txs && CouldLand(w, id, sig)
    ensures Leads(s, w, steps, u) && Lands(s, u, id, sig, v)
  {
    var x := w.(core := Cleared(w.core));
    var y := x.(core := Emit(x.core, s.cat(id).key, SubmittedOut(id, s.cat(id), sig)), work := x.work[id := Sending(sig)]);
    assert Next(s, w, Step.OperatorClear, x);
    assert Next(s, x, PassGate(id, OPEN_GATE), y) by { assert x.core.pause.Inactive?; }
    assert CouldLand(y, id, sig);
    hide Next;
    LeadsOne(s, w, Step.OperatorClear, x);
    LeadsNext(s, w, [Step.OperatorClear], x, PassGate(id, OPEN_GATE), y);
    var more;
    more, u, v := SendingLands(s, y, id, sig);
    LeadsChain(s, w, [Step.OperatorClear] + [PassGate(id, OPEN_GATE)], y, more, u);
    steps := [Step.OperatorClear] + [PassGate(id, OPEN_GATE)] + more;
  }

  /** There is always another signature. */
  lemma {:induction false} UnusedSig(used: set<Sig>) returns (sig: Sig)
    ensures sig !in used && forall x: Sig :: x in used ==> x < sig
    decreases |used|
  {
    if used == {} {
      sig := 0;
    } else {
      var x :| x in used;
      var rest := UnusedSig(used - {x});
      sig := if rest > x then rest else x + 1;
      assert forall y: Sig :: y in used ==> y == x || y in used - {x};
    }
  }

  lemma BuildingLands(s: Setup, w: World, id: Id) returns (steps: seq<Step>, u: World, sig: Sig, v: World)
    requires At(w, id) == Some(Building)
    ensures Leads(s, w, steps, u) && Lands(s, u, id, sig, v)
  {
    sig := UnusedSig(w.chain.txs.Keys);
    var x := w.(core := Emit(w.core, s.cat(id).key, SignedOut(id, s.cat(id), sig, None)), work := w.work[id := Phase.Signed(sig)],
                chain := w.chain.(txs := w.chain.txs[sig := Tx(id, None, false, Absent)]));
    assert Next(s, w, Sign(id, sig, None), x);
    assert CouldLand(x, id, sig);
    hide Next;
    LeadsOne(s, w, Sign(id, sig, None), x);
    var more;
    more, u, v := SignedLands(s, x, id, sig);
    LeadsChain(s, w, [Sign(id, sig, None)], x, more, u);
    steps := [Sign(id, sig, None)] + more;
  }

  lemma AliveLands(s: Setup, w: World, id: Id)
    requires Alive(w, id)
    ensures MayLand(s, w, id)
  {
    hide Next;
    if At(w, id) == Some(Building) {
      var steps, u, sig, v := BuildingLands(s, w, id);
    } else {
      var sig: Sig :| sig in w.chain.txs && CouldLand(w, id, sig);
      if w.chain.txs[sig].sent {
        var steps, u, v := SentLands(s, w, id, sig);
      } else if At(w, id) == Some(Sending(sig)) {
        var steps, u, v := SendingLands(s, w, id, sig);
      } else {
        var steps, u, v := SignedLands(s, w, id, sig);
      }
    }
  }

  /** From a reachable world, an entry past admission may land in some continuation if and only if it is alive. */
  lemma MayLandExactly(s: Setup, w: World, id: Id)
    requires Proper(s) && Sound(s, w) && Listed(w) && !s.cat(id).emergency && Underway(w, id)
    ensures MayLand(s, w, id) <==> Alive(w, id)
  {
    hide Next;
    hide Sound;
    hide Listed;
    hide Alive;
    hide Underway;
    hide Lands;
    if Alive(w, id) {
      AliveLands(s, w, id);
    } else {
      forall steps: seq<Step>, u: World, sig: Sig, v: World | Leads(s, w, steps, u) ensures !Lands(s, u, id, sig, v) {
        DeadForEver(s, w, steps, u, id);
        if Lands(s, u, id, sig, v) {
          LandsAlive(s, u, id, sig, v);
        }
      }
    }
  }

  /** An entry whose release was decided on no early failure is dead. */
  lemma OverIsDead(s: Setup, w: World, id: Id)
    requires Sound(s, w) && Releases.Over(s, w, id)
    ensures !Alive(w, id)
  {
    hide Sound;
    forall sig: Sig | sig in w.chain.txs ensures !CouldLand(w, id, sig) {
      if w.chain.txs[sig].owner == id {
        assert Releases.Harmless(w.chain.txs[sig], w.chain.height);
      }
    }
  }
}
