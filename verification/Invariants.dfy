/** What holds of every attempt in every reachable world: its lines, its registry states, its transactions. */
module Invariants {
  import opened Sums
  import opened ExposureLedger
  import opened Records
  import opened Intents
  import opened Protocol
  import opened Caps
  import opened Authority
  import opened Runs

  // ---------------------------------------------------------------- one attempt seen by itself

  datatype Local = Local(att: Attempt, phase: Option<Phase>, live: Option<IntentState>, rebuilt: Option<IntentState>)

  /** The state a registry holds for an intent under its key, if the key is that intent's. */
  function StateOf(r: Registry, key: Key, id: Id): Option<IntentState> {
    if key in r && r[key].intentId == id then Some(r[key].state) else None
  }

  function LocalOf(s: Setup, w: World, id: Id): Local {
    Local(AttemptOf(w.core.journal, id), At(w, id), StateOf(w.core.registry, s.cat(id).key, id),
          StateOf(FromJournal(w.core.journal), s.cat(id).key, id))
  }

  /** The lines of an attempt. */
  ghost predicate Lines(it: Intent, id: Id, a: Attempt) {
    && a.first == a.latest == Some(Prepared(id, it))
    && a.submits <= 1 && a.submits <= a.signs && a.results <= 1
    && (if a.results > 0 then a.doneSince && a.last.ResultLine? else !a.doneSince && !a.last.ResultLine?)
    && (a.submits > 0 ==> a.signedSince)
    && (a.submits > 0 && a.results == 0 ==> a.last.SubmittedLine?)
    && (a.seen != Unseen ==> a.submits > 0)
    && (a.signed.Some? <==> a.signs > 0)
    && (a.signed.Some? ==> a.signed.value.AttemptSigned? && a.signed.value.key == it.key && a.signed.value.sig.Some?)
    && (a.signs == 0 ==> a.last.NoLine? || a.last.ResultLine?)
    && (a.last.SignedLine? || a.last.SubmittedLine? ==> a.signed.Some? && a.last.sig == a.signed.value.sig)
    && (if it.emergency then a.reservations == 0
        else a.signs <= 1 && a.reservations <= 1 && (a.signs > 0 ==> a.reservations == 1 && a.signedSince))
  }

  /** Its state in the live registry and in the one a restart would rebuild. */
  ghost predicate States(a: Attempt, live: Option<IntentState>, rebuilt: Option<IntentState>) {
    && live.Some? && rebuilt.Some?
    && (if a.results > 0 then Terminal(rebuilt.value) && (live == rebuilt || live.value == CREATED)
        else if a.submits > 0 then live.value == rebuilt.value == EXECUTING
        else rebuilt.value == CREATED && (live.value == CREATED || live.value == AUTHORIZED))
  }

  /** A result a rebuild follows to a terminal state, and the live registry too unless it stays behind at CREATED. */
  predicate Concludes(it: Intent, id: Id, a: Attempt, live: IntentState, rebuilt: IntentState, out: Out) {
    && out.Line? && out.rec.AttemptResult? && out.rec.id == id && out.rec.key == it.key
    && Terminal(RebuildState(rebuilt, out.rec))
    && (Moved(live, out.move) == RebuildState(rebuilt, out.rec) || Moved(live, out.move) == CREATED)
    && (out.rec.lifecycle == COMPLETED ==> a.submits > 0)
    && (out.rec.author == Tracked && out.rec.state == NOT_LANDED ==> !a.seen.SeenConfirmed?)
  }

  predicate Event(it: Intent, id: Id, out: Out) {
    && out.Ledger?
    && match out.event
       case EntryConfirmed(o, _) => o == id
       case EntryReleased(o) => o == id
       case ExitConfirmed(_, _) => it.emergency
       case _ => false
  }

  /** The outputs a flow still has to write: events, then what closes the segment. */
  ghost predicate Agenda(it: Intent, id: Id, l: Local, outs: seq<Out>)
    requires l.live.Some? && l.rebuilt.Some?
    decreases |outs|
  {
    && outs != []
    && if |outs| == 1 then
         || Concludes(it, id, l.att, l.live.value, l.rebuilt.value, outs[0])
         || (outs[0].Line? && outs[0].rec == AttemptObserved(id, it.key) && l.att.submits > 0 && Moved(EXECUTING, outs[0].move) == EXECUTING)
         || outs[0].Halt?
       else
         || (Event(it, id, outs[0]) && Agenda(it, id, l, outs[1..])
             && (if outs[0].event.ExitConfirmed? then outs[1].Ledger? ==> outs[1].event.ExitConfirmed? else |outs| == 2))
         || (|outs| == 2 && outs[0].Line? && outs[0].rec.AttemptReorgPending? && outs[0].rec.id == id && outs[0].rec.key == it.key && outs[0].move == Stay
             && l.att.submits > 0 && l.att.seen.SeenConfirmed? && outs[1].Halt? && outs[1].reason.ReorgPending?)
  }

  ghost predicate Stage(it: Intent, id: Id, l: Local)
    requires l.live.Some? && l.rebuilt.Some?
  {
    var a := l.att;
    match l.phase
    case None => true
    case Some(p) =>
      && a.results == 0
      && match p
         case Checking => !it.emergency && a == Observe(NO_ATTEMPT, Prepared(id, it)) && l.live.value == CREATED
         case Building =>
           && a.submits == 0 && l.live.value == AUTHORIZED && !a.signedSince
           && (!it.emergency ==> a.signs == 0 && a.reservations == 1 && a.releases == 0)
         case Signed(sig) =>
           && a.submits == 0 && l.live.value == AUTHORIZED && a.last == SignedLine(Some(sig)) && a.signedSince
           && (!it.emergency ==> a.releases == 0)
         case Sending(sig) => a.submits == 1 && a.last == SubmittedLine(Some(sig)) && a.seen == Unseen && (!it.emergency ==> a.releases == 0)
         case Sent(sig) => a.submits == 1 && a.last == SubmittedLine(Some(sig)) && a.seen == Unseen && (!it.emergency ==> a.releases == 0)
         case Finishing(outs) => Agenda(it, id, l, outs)
  }

  ghost predicate Sane(it: Intent, id: Id, l: Local) {
    if l.att == NO_ATTEMPT then l == Local(NO_ATTEMPT, None, None, None)
    else Lines(it, id, l.att) && States(l.att, l.live, l.rebuilt) && Stage(it, id, l)
  }

  // ---------------------------------------------------------------- its transactions

  ghost predicate SignedTx(w: World, id: Id) {
    var a := AttemptOf(w.core.journal, id);
    && (a.signed.Some? ==>
          && a.signed.value.AttemptSigned? && a.signed.value.sig.Some? && a.signed.value.sig.value in w.chain.txs
          && w.chain.txs[a.signed.value.sig.value].owner == id
          && w.chain.txs[a.signed.value.sig.value].lastValid == a.signed.value.lastValid)
    && (At(w, id).Some? && At(w, id).value.Sending? && At(w, id).value.sig in w.chain.txs ==> !w.chain.txs[At(w, id).value.sig].sent)
  }

  ghost predicate SentTx(w: World, sig: Sig)
    requires sig in w.chain.txs
  {
    var t := w.chain.txs[sig]; var a := AttemptOf(w.core.journal, t.owner);
    && (t.status.Landed? ==> t.sent)
    && a.signs > 0
    && (t.sent ==> a.submits > 0 && a.signed.Some? && a.signed.value.AttemptSigned? && a.signed.value.sig == Some(sig))
  }

  /** A key is held by an intent of that key. */
  ghost predicate Owned(s: Setup, r: Registry) {
    forall key: Key :: key in r ==> s.cat(r[key].intentId).key == key
  }

  ghost predicate Attempts(s: Setup, w: World) {
    forall id: Id :: Sane(s.cat(id), id, LocalOf(s, w, id))
  }

  ghost predicate Txs(w: World) {
    && (forall id: Id :: SignedTx(w, id))
    && (forall sig: Sig :: sig in w.chain.txs ==> SentTx(w, sig))
  }

  ghost predicate Clean(s: Setup, c: Core) {
    Faithful(c) && Owned(s, c.registry) && Owned(s, FromJournal(c.journal))
  }

  ghost predicate Sound(s: Setup, w: World) {
    Clean(s, w.core) && Attempts(s, w) && Txs(w)
  }

  // ---------------------------------------------------------------- one output

  /** An output of the flow of `id`: one of its own lines or events, an exit event, or a halt. */
  predicate Own(id: Id, out: Out) {
    match out
    case Ledger(e) => e.intentId == id || e.ExitConfirmed?
    case Line(r, _) => Subject(r) == Some(id) && !r.ExposureUpdated? && !r.AttemptPrepared? && KeyIn(r).Some?
    case Halt(_) => true
  }

  function KeyIn(r: Record): Option<Key> {
    match r
    case AttemptSigned(_, key, _, _, _) => Some(key)
    case AttemptSubmitted(_, key, _, _) => Some(key)
    case AttemptObserved(_, key) => Some(key)
    case AttemptReorgPending(_, key, _) => Some(key)
    case AttemptResult(_, key, _, _, _) => Some(key)
    case _ => None
  }

  function LocalEmit(l: Local, id: Id, out: Out, phase: Option<Phase>): Local {
    match out
    case Ledger(e) => Local(if e.intentId == id then Observe(l.att, ExposureUpdated(e)) else l.att, phase, l.live, l.rebuilt)
    case Line(r, m) =>
      Local(Observe(l.att, r), phase,
            if l.live.Some? then Some(Moved(l.live.value, m)) else None,
            if l.rebuilt.Some? then Some(RebuildState(l.rebuilt.value, r)) else None)
    case Halt(_) => l.(phase := phase)
  }

  function WithPhase(work: map<Id, Phase>, id: Id, phase: Option<Phase>): map<Id, Phase> {
    if phase.Some? then work[id := phase.value] else work - {id}
  }

  /** The world after the flow of `id` wrote `out`. */
  ghost predicate Emits(s: Setup, w: World, id: Id, out: Out, phase: Option<Phase>, v: World) {
    CanEmit(w.core, out) && v.core == Emit(w.core, s.cat(id).key, out) && v.work == WithPhase(w.work, id, phase)
  }

  lemma AttemptAfter(c: Core, key: Key, out: Out, id: Id, x: Id)
    requires CanEmit(c, out) && Own(id, out)
    ensures AttemptOf(Emit(c, key, out).journal, x) ==
            if x != id then AttemptOf(c.journal, x)
            else LocalEmit(Local(AttemptOf(c.journal, id), None, None, None), id, out, None).att
  {
    match out
    case Ledger(e) => AttemptNext(c.journal, ExposureUpdated(e), x);
    case Line(r, m) => AttemptNext(c.journal, r, x);
    case Halt(reason) => AttemptNext(c.journal, PauseApplied(reason), x);
  }

  lemma LiveAfter(c: Core, key: Key, out: Out, id: Id, x: Id, xKey: Key)
    requires CanEmit(c, out) && (x == id ==> xKey == key) && (x != id ==> StateOf(c.registry, key, id).Some?)
    ensures StateOf(Emit(c, key, out).registry, xKey, x) ==
            var before := StateOf(c.registry, xKey, x);
            if x == id && out.Line? && before.Some? then Some(Moved(before.value, out.move)) else before
  {
  }

  lemma RebuiltAfter(c: Core, key: Key, out: Out, id: Id, x: Id, xKey: Key)
    requires CanEmit(c, out) && Own(id, out) && (out.Line? ==> KeyIn(out.rec) == Some(key))
    requires (x == id ==> xKey == key) && (x != id ==> StateOf(FromJournal(c.journal), key, id).Some?)
    ensures StateOf(FromJournal(Emit(c, key, out).journal), xKey, x) ==
            var before := StateOf(FromJournal(c.journal), xKey, x);
            if x == id && out.Line? && before.Some? then Some(RebuildState(before.value, out.rec)) else before
  {
    match out
    case Ledger(e) => FromJournalNext(c.journal, ExposureUpdated(e));
    case Line(r, m) => FromJournalNext(c.journal, r);
    case Halt(reason) => FromJournalNext(c.journal, PauseApplied(reason));
  }

  lemma OwnedAfter(s: Setup, j: seq<Record>, r: Record)
    requires !r.AttemptPrepared? && Owned(s, FromJournal(j))
    ensures Owned(s, FromJournal(j + [r]))
  {
    FromJournalNext(j, r);
  }

  /** A line that carries neither exposure nor a pause, whatever happens to the registry. */
  lemma FaithfulAfter(c: Core, r: Record, d: Core)
    requires Faithful(c) && Plain(r)
    requires d.journal == c.journal + [r] && d.open == c.open && d.pause == c.pause
    ensures Faithful(d)
  {
    assert (c.journal + [r])[..|c.journal|] == c.journal;
  }

  lemma CleanAfter(s: Setup, c: Core, key: Key, out: Out)
    requires CanEmit(c, out) && (out.Line? ==> Plain(out.rec) && !out.rec.AttemptPrepared?) && Clean(s, c)
    ensures Clean(s, Emit(c, key, out))
  {
    FaithfulEmit(c, key, out);
    match out
    case Ledger(e) => OwnedAfter(s, c.journal, ExposureUpdated(e));
    case Line(r, m) => OwnedAfter(s, c.journal, r);
    case Halt(reason) => OwnedAfter(s, c.journal, PauseApplied(reason));
  }

  lemma EmitLocal(s: Setup, w: World, id: Id, out: Out, phase: Option<Phase>, v: World)
    requires Emits(s, w, id, out, phase, v) && Own(id, out) && (out.Line? ==> KeyIn(out.rec) == Some(s.cat(id).key))
    ensures LocalOf(s, v, id) == LocalEmit(LocalOf(s, w, id), id, out, phase)
  {
    AttemptAfter(w.core, s.cat(id).key, out, id, id);
    LiveAfter(w.core, s.cat(id).key, out, id, id, s.cat(id).key);
    RebuiltAfter(w.core, s.cat(id).key, out, id, id, s.cat(id).key);
  }

  lemma EmitElse(s: Setup, w: World, id: Id, out: Out, phase: Option<Phase>, v: World, other: Id)
    requires Emits(s, w, id, out, phase, v) && Own(id, out) && (out.Line? ==> KeyIn(out.rec) == Some(s.cat(id).key))
    requires other != id && LocalOf(s, w, id).live.Some? && LocalOf(s, w, id).rebuilt.Some?
    ensures LocalOf(s, v, other) == LocalOf(s, w, other)
  {
    AttemptAfter(w.core, s.cat(id).key, out, id, other);
    LiveAfter(w.core, s.cat(id).key, out, id, other, s.cat(other).key);
    RebuiltAfter(w.core, s.cat(id).key, out, id, other, s.cat(other).key);
  }

  // ---------------------------------------------------------------- lifting a local argument to the world

  ghost predicate OthersSame(s: Setup, w: World, v: World, id: Id) {
    forall x: Id :: x != id ==> LocalOf(s, v, x) == LocalOf(s, w, x)
  }

  lemma AttemptsKept(s: Setup, w: World, v: World, id: Id)
    requires Attempts(s, w) && OthersSame(s, w, v, id) && Sane(s.cat(id), id, LocalOf(s, v, id))
    ensures Attempts(s, v)
  {
    forall x: Id ensures Sane(s.cat(x), x, LocalOf(s, v, x)) {
      assert Sane(s.cat(x), x, LocalOf(s, w, x));
    }
  }

  /** Same signatures, no fewer submissions. */
  predicate SameSignatures(a: Attempt, b: Attempt) {
    b.signed == a.signed && b.signs == a.signs && b.submits >= a.submits
  }

  ghost predicate Unsent(w: World, phase: Option<Phase>) {
    phase.Some? && phase.value.Sending? && phase.value.sig in w.chain.txs ==> !w.chain.txs[phase.value.sig].sent
  }

  lemma TxsKept(s: Setup, w: World, v: World, id: Id)
    requires Txs(w) && OthersSame(s, w, v, id) && v.chain == w.chain
    requires SameSignatures(AttemptOf(w.core.journal, id), AttemptOf(v.core.journal, id)) && Unsent(w, At(v, id))
    ensures Txs(v)
  {
    forall x: Id ensures SignedTx(v, x) {
      SameBesides(s, w, v, id, x);
      assert SignedTx(w, x);
    }
    forall sig: Sig | sig in v.chain.txs ensures SentTx(v, sig) {
      SameBesides(s, w, v, id, v.chain.txs[sig].owner);
      assert SentTx(w, sig);
    }
  }

  lemma SameBesides(s: Setup, w: World, v: World, id: Id, x: Id)
    requires OthersSame(s, w, v, id)
    ensures x != id ==> AttemptOf(v.core.journal, x) == AttemptOf(w.core.journal, x) && At(v, x) == At(w, x)
  {
    if x != id {
      assert LocalOf(s, v, x) == LocalOf(s, w, x);
    }
  }

  /** The flow of `id` writes one output; the rest of the world is framed. */
  lemma EmitSound(s: Setup, w: World, id: Id, out: Out, phase: Option<Phase>, v: World)
    requires Sound(s, w) && Emits(s, w, id, out, phase, v) && v.chain == w.chain && Own(id, out)
    requires out.Line? ==> Plain(out.rec) && !out.rec.AttemptSigned? && KeyIn(out.rec) == Some(s.cat(id).key)
    requires LocalOf(s, w, id).att != NO_ATTEMPT
    requires Sane(s.cat(id), id, LocalEmit(LocalOf(s, w, id), id, out, phase))
    requires Unsent(w, phase)
    ensures Sound(s, v)
  {
    CleanAfter(s, w.core, s.cat(id).key, out);
    EmitOthers(s, w, id, out, phase, v);
    EmitAttempts(s, w, id, out, phase, v);
    EmitTxs(s, w, id, out, phase, v);
  }

  lemma EmitAttempts(s: Setup, w: World, id: Id, out: Out, phase: Option<Phase>, v: World)
    requires Attempts(s, w) && OthersSame(s, w, v, id) && Emits(s, w, id, out, phase, v) && Own(id, out)
    requires out.Line? ==> KeyIn(out.rec) == Some(s.cat(id).key)
    requires Sane(s.cat(id), id, LocalEmit(LocalOf(s, w, id), id, out, phase))
    ensures Attempts(s, v)
  {
    EmitLocal(s, w, id, out, phase, v);
    AttemptsKept(s, w, v, id);
  }

  lemma EmitTxs(s: Setup, w: World, id: Id, out: Out, phase: Option<Phase>, v: World)
    requires Txs(w) && OthersSame(s, w, v, id) && Emits(s, w, id, out, phase, v) && v.chain == w.chain && Own(id, out)
    requires (out.Line? ==> !out.rec.AttemptSigned?) && Unsent(w, phase)
    ensures Txs(v)
  {
    AttemptAfter(w.core, s.cat(id).key, out, id, id);
    TxsKept(s, w, v, id);
  }

  lemma EmitOthers(s: Setup, w: World, id: Id, out: Out, phase: Option<Phase>, v: World)
    requires Attempts(s, w) && LocalOf(s, w, id).att != NO_ATTEMPT
    requires Emits(s, w, id, out, phase, v) && Own(id, out) && (out.Line? ==> KeyIn(out.rec) == Some(s.cat(id).key))
    ensures OthersSame(s, w, v, id)
  {
    assert Sane(s.cat(id), id, LocalOf(s, w, id));
    forall x: Id | x != id ensures LocalOf(s, v, x) == LocalOf(s, w, x) {
      EmitElse(s, w, id, out, phase, v, x);
    }
  }

  lemma OthersChain(s: Setup, u: World, w: World, v: World, id: Id)
    requires OthersSame(s, u, w, id) && OthersSame(s, w, v, id)
    ensures OthersSame(s, u, v, id)
  {
    forall x: Id | x != id ensures LocalOf(s, v, x) == LocalOf(s, u, x) {
      assert LocalOf(s, w, x) == LocalOf(s, u, x);
    }
  }

  /** A move of the live registry alone. */
  lemma MoveLocals(s: Setup, w: World, v: World, id: Id, m: Move)
    requires v == w.(core := w.core.(registry := MovedKey(w.core.registry, s.cat(id).key, m))) && LocalOf(s, w, id).live.Some?
    ensures OthersSame(s, w, v, id)
    ensures LocalOf(s, v, id) == LocalOf(s, w, id).(live := Some(Moved(LocalOf(s, w, id).live.value, m)))
  {
  }

  /** Only the phase of `id` changes. */
  lemma PhaseSound(s: Setup, w: World, id: Id, phase: Option<Phase>, v: World)
    requires Sound(s, w) && v.core == w.core && v.chain == w.chain && v.work == WithPhase(w.work, id, phase)
    requires Sane(s.cat(id), id, LocalOf(s, w, id).(phase := phase))
    requires phase.Some? ==> !phase.value.Sending?
    ensures Sound(s, v)
  {
    PhaseOthers(s, w, id, phase, v);
    AttemptsKept(s, w, v, id);
    TxsKept(s, w, v, id);
  }

  lemma PhaseOthers(s: Setup, w: World, id: Id, phase: Option<Phase>, v: World)
    requires v.core == w.core && v.work == WithPhase(w.work, id, phase)
    ensures OthersSame(s, w, v, id) && LocalOf(s, v, id) == LocalOf(s, w, id).(phase := phase)
  {
  }

  /** A flow may always be dropped. */
  lemma DropSound(s: Setup, w: World, id: Id, v: World)
    requires Sound(s, w) && v.core == w.core && v.chain == w.chain && v.work == w.work - {id}
    ensures Sound(s, v)
  {
    assert Sane(s.cat(id), id, LocalOf(s, w, id));
    PhaseSound(s, w, id, None, v);
  }

  /** Lines about no attempt. */
  predicate Aside(r: Record) {
    Subject(r) == None && !r.ExposureUpdated?
  }

  lemma AsideSound(s: Setup, w: World, r: Record, v: World)
    requires Sound(s, w) && Aside(r)
    requires v.core == w.core.(journal := w.core.journal + [r], pause := v.core.pause) && Faithful(v.core)
    requires v.work == w.work && v.chain == w.chain
    ensures Sound(s, v)
  {
    FromJournalNext(w.core.journal, r);
    forall x: Id ensures LocalOf(s, v, x) == LocalOf(s, w, x) {
      AttemptNext(w.core.journal, r, x);
    }
    assert Sane(s.cat(0), 0, LocalOf(s, w, 0));
    assert SignedTx(w, 0);
    AttemptsKept(s, w, v, 0);
    TxsKept(s, w, v, 0);
  }

  /** The chain moved; nothing signed disappears, and what landed was sent. */
  lemma ChainSound(s: Setup, w: World, v: World)
    requires Sound(s, w) && v.core == w.core && v.work == w.work && v.chain.txs.Keys == w.chain.txs.Keys
    requires forall sig: Sig :: sig in w.chain.txs ==>
                                  && v.chain.txs[sig] == w.chain.txs[sig].(status := v.chain.txs[sig].status)
                                  && (v.chain.txs[sig].status.Landed? ==> w.chain.txs[sig].sent)
    ensures Sound(s, v)
  {
    forall x: Id ensures Sane(s.cat(x), x, LocalOf(s, v, x)) && SignedTx(v, x) {
      assert Sane(s.cat(x), x, LocalOf(s, w, x)) && SignedTx(w, x);
    }
    forall sig: Sig | sig in v.chain.txs ensures SentTx(v, sig) {
      assert SentTx(w, sig);
    }
  }
}
