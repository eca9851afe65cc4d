/**
  The pipeline object.  Each method is the code between two awaits, or a loop of such segments, and is
  proved against the functions of Protocol; what the adapter, the chain, the custody reader and the
  clock answer are parameters.  The object holds the journal's fence while it runs.
*/
module Pipeline {
  import opened Sums
  import opened ExposureLedger
  import opened Records
  import opened Intents
  import opened Journal
  import opened Protocol
  import opened Caps
  import opened Authority
  import Recovery
  import Outcomes

  // ---------------------------------------------------------------- registry moves as the code makes them

  lemma AdvanceIsMove(r: Registry, key: Key, to: IntentState)
    ensures Advance(r, key, to) == MovedKey(r, key, To(to))
  {
  }

  function Run(r: Registry, key: Key): Registry {
    if key in r && r[key].state == AUTHORIZED then Advance(r, key, EXECUTING) else r
  }

  lemma RunIsMove(r: Registry, key: Key, to: IntentState)
    ensures Run(r, key) == MovedKey(r, key, Executing)
    ensures Advance(Run(r, key), key, to) == MovedKey(r, key, Via(to))
    ensures (if key in r && Run(r, key)[key].state == EXECUTING then Advance(Run(r, key), key, to) else Run(r, key))
            == MovedKey(r, key, IfExecuting(to))
  {
  }

  datatype Delivery = Accepted(payload: Payload) | Repeated(intentId: Id, state: IntentState) | Refused(reasons: seq<AuthorityRejection>)

  /** The request as verified: nonces from the journal, the local pause added to the mode. */
  function Presented(request: Request, c: Core): Request {
    request.(usedNonces := UsedNonces(c.journal), mode := request.mode.(localPause := request.mode.localPause || c.pause.Active?))
  }

  /** Genuine but for its own nonce. */
  predicate OnlyNonceSpent(q: Request, p: Payload) {
    p.terms.nonce in q.usedNonces && Genuine(q.(usedNonces := q.usedNonces - {p.terms.nonce}), p) && GrantUnspent(q)
  }

  datatype Boot = Up(pipeline: ExecutorPipeline) | ReplayThrew

  class ExecutorPipeline {
    const journal: ExecutorJournal
    const registry: IdempotencyRegistry
    const ledger: ExecutorExposureLedger
    var localPause: Pause

    ghost predicate Valid()
      reads this, journal, journal.store, registry, ledger
    {
      ledger.Valid() && Fenced(DiskOf(journal.store), journal.token)
    }

    function View(): Core
      reads this, journal, registry, ledger
    {
      Core(journal.Journaled(), ledger.open, registry.registry, localPause)
    }

    constructor (journal: ExecutorJournal, registry: IdempotencyRegistry, ledger: ExecutorExposureLedger, pause: Pause)
      ensures this.journal == journal && this.registry == registry && this.ledger == ledger && localPause == pause
    {
      this.journal, this.registry, this.ledger, localPause := journal, registry, ledger, pause;
    }

    /** The rebuild from the journal alone. */
    static method Start(journal: ExecutorJournal) returns (b: Boot)
      requires Fenced(DiskOf(journal.store), journal.token)
      ensures b.Up? <==> Replay(ExposureEvents(journal.Journaled())).Some?
      ensures b.Up? ==> fresh(b.pipeline) && fresh(b.pipeline.registry) && fresh(b.pipeline.ledger) && b.pipeline.journal == journal
      ensures b.Up? ==> b.pipeline.Valid()
      ensures b.Up? ==>
                var j := journal.Journaled();
                b.pipeline.View() == Core(j, Replay(ExposureEvents(j)).value, FromJournal(j), LastPause(j))
    {
      var registry := IdempotencyRegistry.Rebuild(journal.Journaled());
      var ledger, ok := ExecutorExposureLedger.FromEvents(ExposureEvents(journal.Journaled()));
      if !ok {
        return ReplayThrew;
      }
      var p := new ExecutorPipeline(journal, registry, ledger, LastPause(journal.Journaled()));
      return Up(p);
    }

    method Append(rec: Record, at: int)
      requires Valid()
      modifies journal, journal.store`lines
      ensures Valid() && View() == old(View()).(journal := old(View()).journal + [rec])
    {
      RecordsOfNext(journal.entries, NextEntry(journal.entries, at, rec));
      var ok := journal.Append(at, rec);
    }

    method ApplyLocalPause(reason: PauseReason, at: int)
      requires Valid()
      modifies this, journal, journal.store`lines
      ensures Valid() && View() == Halted(old(View()), reason)
    {
      if localPause.Active? {
        return;
      }
      localPause := Active(reason);
      Append(PauseApplied(reason), at);
    }

    method ClearLocalPause(at: int)
      requires Valid()
      modifies this, journal, journal.store`lines
      ensures Valid() && View() == Cleared(old(View()))
    {
      if localPause.Inactive? {
        return;
      }
      localPause := Inactive;
      Append(PauseCleared, at);
    }

    /** False when applying the event throws: then nothing is journaled. */
    method LedgerEvent(e: ExposureEvent, at: int) returns (ok: bool)
      requires Valid()
      modifies ledger, journal, journal.store`lines
      ensures Valid() && ok == Admits(old(View()).open, e)
      ensures View() == if ok then Emit(old(View()), 0, Ledger(e)) else old(View())
    {
      hide After;
      hide Admits;
      ok := ledger.Apply(e);
      if ok {
        Append(ExposureUpdated(e), at);
      }
    }

    /** AUTHORIZED first becomes EXECUTING. */
    method AdvanceToExecuting(key: Key)
      requires Valid()
      modifies registry
      ensures Valid() && View() == old(View()).(registry := MovedKey(old(View()).registry, key, Executing))
    {
      RunIsMove(registry.registry, key, EXECUTING);
      if registry.StateOf(key) == Some(AUTHORIZED) {
        var moved := registry.AdvanceKey(key, EXECUTING);
      }
    }

    method AdvanceVia(key: Key, to: IntentState)
      requires Valid()
      modifies registry
      ensures Valid() && View() == old(View()).(registry := MovedKey(old(View()).registry, key, Via(to)))
    {
      RunIsMove(registry.registry, key, to);
      if registry.StateOf(key) == Some(AUTHORIZED) {
        var moved := registry.AdvanceKey(key, EXECUTING);
      }
      var moved := registry.AdvanceKey(key, to);
    }

    method AdvanceIfExecuting(key: Key, to: IntentState)
      requires Valid()
      modifies registry
      ensures Valid() && View() == old(View()).(registry := MovedKey(old(View()).registry, key, IfExecuting(to)))
    {
      RunIsMove(registry.registry, key, to);
      if registry.StateOf(key) == Some(AUTHORIZED) {
        var moved := registry.AdvanceKey(key, EXECUTING);
      }
      if registry.StateOf(key) == Some(EXECUTING) {
        var moved := registry.AdvanceKey(key, to);
      }
    }

    // ---------------------------------------------------------------- submit

    /** The claim, and the line that makes it permanent. */
    method ClaimKey(id: Id, it: Intent, at: int) returns (c: Claim)
      requires Valid()
      modifies registry, journal, journal.store`lines
      ensures Valid()
      ensures c.Created? <==> it.key !in old(View()).registry
      ensures View() == if c.Created? then Claimed(old(View()), id, it) else old(View())
      ensures c.Created? ==>
                && View().journal == old(View()).journal
                                     + [AttemptPrepared(id, it.key, it.nonce, it.emergency, if it.emergency then it.inputMint else it.outputMint,
                                                        it.maxInput, it.held, it.expiresAt)]
                && View().registry == old(View()).registry[it.key := IntentEntry(id, CREATED)]
      ensures c.Duplicate? ==> it.key in old(View()).registry && IntentEntry(c.intentId, c.state) == old(View()).registry[it.key]
    {
      c := registry.ClaimKey(id, it.key);
      if c.Created? {
        Append(Prepared(id, it), at);
      }
    }

    /** The start of a submission: authority against the journaled nonces and the pause, then the claim.  An
        envelope refused only for its own spent nonce is answered with the attempt it already has. */
    method Deliver(request: Request, id: Id, it: Intent, at: int) returns (d: Delivery)
      requires Valid()
      modifies registry, journal, journal.store`lines
      ensures Valid()
      ensures var c := old(View()); var q := Presented(request, c);
              && (d.Accepted? <==> q.payload.Some? && Genuine(q, q.payload.value) && it.key !in c.registry)
              && (d.Repeated? <==> q.payload.Some? && it.key in c.registry
                                   && (Genuine(q, q.payload.value) || (OnlyNonceSpent(q, q.payload.value) && c.registry[it.key].intentId == id)))
              && (d.Repeated? ==> IntentEntry(d.intentId, d.state) == c.registry[it.key])
              && View() == if d.Accepted? then Claimed(c, id, it) else c
      ensures d.Accepted? ==>
                var p := request.payload.value.terms; var f := request.mode;
                && request.payload.Some? && p.nonce !in UsedNonces(old(View()).journal) && request.now < p.expiresAt
                && request.stored.Some? && SameTerms(request.stored.value, p)
                && (p.effect == Reduce || (old(View()).pause.Inactive? && !f.localPause && !f.paused && f.liveEnabled))
    {
      var nonces := journal.NoncesUsed();
      var q := request.(usedNonces := nonces, mode := request.mode.(localPause := request.mode.localPause || localPause.Active?));
      ghost var c := View();
      assert q == Presented(request, c);
      var verdict := VerifyAuthority(q);
      if q.payload.Some? {
        GenuineExactly(q, q.payload.value);
      }
      if verdict.Denied? {
        if (forall i :: 0 <= i < |verdict.reasons| ==> verdict.reasons[i] == NONCE_REPLAYED)
           && it.key in registry.registry && registry.registry[it.key].intentId == id {
          return Repeated(id, registry.registry[it.key].state);
        }
        return Refused(verdict.reasons);
      }
      var claim := ClaimKey(id, it, at);
      return if claim.Created? then Accepted(verdict.payload) else Repeated(claim.intentId, claim.state);
    }

    /** Caps and reservation, with no await between them. */
    method Admit(id: Id, it: Intent, g: Guardrails, at: int) returns (v: CapVerdict, threw: bool)
      requires Valid()
      modifies registry, ledger, journal, journal.store`lines
      ensures Valid() && (v.Granted? <==> Admitted(g, old(View()).open, it, None))
      ensures threw <==> v.Granted? && id in old(View()).open
      ensures View() == Admission(old(View()), id, it, v.Granted?)
      ensures v.Granted? && !threw ==>
                View().open == old(View()).open[id := OpenEntry(if it.emergency then it.inputMint else it.outputMint, it.maxInput, None, it.protection)]
      ensures v.Granted? && !threw ==> Outcomes.MovesTo(old(View()).registry, it.key, AUTHORIZED, View().registry)
      ensures v.Rejected? ==> Outcomes.MovesTo(old(View()).registry, it.key, FAILED, View().registry)
      ensures v.Rejected? ==> View().open == old(View()).open
                              && View().journal == old(View()).journal + [AttemptResult(id, it.key, PREPARED, FAILED, Live)]
    {
      ghost var c := View();
      v := CheckCaps(g, ledger, it, None);
      threw := false;
      AdvanceIsMove(c.registry, it.key, FAILED);
      AdmissionIs(c, id, it, v.Granted?);
      if v.Rejected? {
        var moved := registry.AdvanceKey(it.key, FAILED);
        Append(AttemptResult(id, it.key, PREPARED, FAILED, Live), at);
      } else {
        var ok := LedgerEvent(EntryAuthorized(id, TradedMint(it), it.maxInput, it.protection), at);
        threw := !ok;
        if ok {
          AdvanceIsMove(registry.registry, it.key, AUTHORIZED);
          var moved := registry.AdvanceKey(it.key, AUTHORIZED);
        }
      }
    }

    method JournalSigned(id: Id, it: Intent, sig: Sig, lastValid: Option<nat>, at: int)
      requires Valid()
      modifies journal, journal.store`lines
      ensures Valid() && View() == Emit(old(View()), it.key, SignedOut(id, it, sig, lastValid))
      ensures View() == old(View()).(journal := old(View()).journal + [AttemptSigned(id, it.key, it.nonce, Some(sig), lastValid)])
    {
      Append(AttemptSigned(id, it.key, it.nonce, Some(sig), lastValid), at);
      NoMove(View().registry, it.key);
    }

    /** The gate re-read immediately before submission. */
    method BeforeSubmit(id: Id, it: Intent, sig: Sig, facts: ModeFacts, at: int) returns (allowed: bool)
      requires Valid()
      modifies registry, journal, journal.store`lines
      ensures Valid()
      ensures allowed <==> ModeGate(facts.(localPause := facts.localPause || old(View()).pause.Active?), it.effect).Open?
      ensures View() == if allowed then Emit(old(View()), it.key, SubmittedOut(id, it, sig)) else old(View())
      ensures allowed <==>
                || it.effect == Reduce
                || (!facts.localPause && old(View()).pause.Inactive? && !facts.paused
                    && (facts.activity == ActiveNow || facts.activity == EventWindow)
                    && (facts.authority == LiveApproval || facts.authority == LiveAuto) && facts.liveEnabled)
      ensures allowed ==> View().journal == old(View()).journal + [AttemptSubmitted(id, it.key, it.nonce, Some(sig))]
                          && View().open == old(View()).open && View().pause == old(View()).pause
    {
      var gate := ModeGate(facts.(localPause := facts.localPause || localPause.Active?), it.effect);
      if gate.Shut? {
        return false;
      }
      AdvanceIsMove(registry.registry, it.key, EXECUTING);
      Append(AttemptSubmitted(id, it.key, it.nonce, Some(sig)), at);
      var moved := registry.AdvanceKey(it.key, EXECUTING);
      return true;
    }

    /** A planned emergency close: claim, line, AUTHORIZED. */
    method PrepareClose(id: Id, it: Intent, at: int) returns (c: Claim)
      requires Valid()
      modifies registry, journal, journal.store`lines
      ensures Valid() && (c.Created? <==> it.key !in old(View()).registry)
      ensures var claimed := Claimed(old(View()), id, it);
              View() == if c.Created? then claimed.(registry := MovedKey(claimed.registry, it.key, To(AUTHORIZED))) else old(View())
      ensures c.Created? ==>
                && View().journal == old(View()).journal
                                     + [AttemptPrepared(id, it.key, it.nonce, it.emergency, if it.emergency then it.inputMint else it.outputMint,
                                                        it.maxInput, it.held, it.expiresAt)]
                && View().registry == old(View()).registry[it.key := IntentEntry(id, AUTHORIZED)]
    {
      c := ClaimKey(id, it, at);
      if c.Created? {
        AdvanceIsMove(registry.registry, it.key, AUTHORIZED);
        var moved := registry.AdvanceKey(it.key, AUTHORIZED);
      }
    }

    method SyncShadow(n: nat, at: int) returns (accepted: bool)
      requires Valid()
      modifies journal, journal.store`lines
      ensures Valid()
      ensures var last := LastShadow(old(View()).journal);
              && (accepted <==> last.None? || n >= last.value)
              && View() == if last.Some? && n <= last.value then old(View()) else old(View()).(journal := old(View()).journal + [ShadowSynced(n)])
    {
      var last := LastShadow(journal.Journaled());
      if last.Some? && n < last.value {
        return false;
      }
      if last.None? || n != last.value {
        Append(ShadowSynced(n), at);
      }
      return true;
    }

    // ---------------------------------------------------------------- record

    /** The exit loop: the shares are those of the exposures listed before it starts. */
    method ExitMint(mint: Mint, sold: nat, held: nat, at: int, ghost key: Key) returns (ghost order: seq<Id>)
      requires Valid()
      modifies ledger, journal, journal.store`lines
      ensures Valid() && ListsMint(old(View()).open, mint, order)
      ensures View() == EmitAll(old(View()), key, ExitOuts(old(View()).open, order, sold, held))
    {
      ghost var c := View();
      var list := ledger.OpenByMint(mint);
      order := FirstsOf(list);
      FirstsList(c.open, mint, list);
      assert order[0..] == order;
      for i := 0 to |list|
        invariant Valid() && registry.registry == c.registry && localPause == c.pause
        invariant EmitAll(View(), key, ExitOuts(c.open, order[i..], sold, held)) == EmitAll(c, key, ExitOuts(c.open, order, sold, held))
      {
        var (id, exposure) := list[i];
        var released := if held > 0 then Share(exposure, sold, held) else exposure;
        assert order[i..][0] == id && order[i..][1..] == order[i + 1..];
        ExitOutsHead(c.open, order[i..], sold, held);
        var ok := LedgerEvent(ExitConfirmed(id, released), at);
      }
    }

    method RecordFinalized(id: Id, it: Intent, amount: nat, at: int) returns (ghost exits: seq<Id>)
      requires Valid()
      modifies registry, ledger, journal, journal.store`lines
      ensures Valid()
      ensures if it.emergency then ListsMint(old(View()).open, it.inputMint, exits) else exits == []
      ensures View() == EmitAll(old(View()), it.key, EntryOrExit(old(View()).open, id, it, amount, exits)
                                                     + [Result(id, it.key, FINALIZED, COMPLETED, Live, To(COMPLETED))])
    {
      ghost var c := View();
      var ok := true;
      if it.emergency {
        exits := ExitMint(it.inputMint, amount, it.held, at, it.key);
        ExitsEmit(c, it.key, c.open, exits, amount, it.held);
      } else {
        exits := [];
        ok := LedgerEvent(EntryConfirmed(id, amount), at);
      }
      EmitLast(c, it.key, EntryOrExit(c.open, id, it, amount, exits), Result(id, it.key, FINALIZED, COMPLETED, Live, To(COMPLETED)));
      if ok {
        AdvanceIsMove(registry.registry, it.key, COMPLETED);
        var moved := registry.AdvanceKey(it.key, COMPLETED);
        Append(AttemptResult(id, it.key, FINALIZED, COMPLETED, Live), at);
      }
    }

    method RecordConfirmed(id: Id, it: Intent, amount: nat, at: int)
      requires Valid()
      modifies registry, ledger, journal, journal.store`lines
      ensures Valid()
      ensures View() == EmitAll(old(View()), it.key, (if it.emergency then [] else [Ledger(EntryConfirmed(id, amount))])
                                                     + [Line(AttemptObserved(id, it.key), Stay)])
    {
      ghost var c := View();
      var ok := true;
      if !it.emergency {
        ok := LedgerEvent(EntryConfirmed(id, amount), at);
      }
      EmitLast(c, it.key, if it.emergency then [] else [Ledger(EntryConfirmed(id, amount))], Line(AttemptObserved(id, it.key), Stay));
      NoMove(c.registry, it.key);
      if ok {
        Append(AttemptObserved(id, it.key), at);
      }
    }

    method RecordFailed(id: Id, it: Intent, outcome: AttemptState, at: int)
      requires Valid()
      modifies registry, ledger, journal, journal.store`lines
      ensures Valid()
      ensures View() == EmitAll(old(View()), it.key, (if it.emergency then [] else [Ledger(EntryReleased(id))])
                                                     + [Result(id, it.key, outcome, FAILED, Live, To(FAILED))])
    {
      ghost var c := View();
      if !it.emergency {
        var ok := LedgerEvent(EntryReleased(id), at);
      }
      EmitLast(c, it.key, if it.emergency then [] else [Ledger(EntryReleased(id))], Result(id, it.key, outcome, FAILED, Live, To(FAILED)));
      AdvanceIsMove(registry.registry, it.key, FAILED);
      var moved := registry.AdvanceKey(it.key, FAILED);
      Append(AttemptResult(id, it.key, outcome, FAILED, Live), at);
    }

    /** What the adapter's outcome writes; a ledger event that throws ends it. */
    method Record(id: Id, it: Intent, outcome: AttemptState, fill: Option<nat>, at: int) returns (ghost exits: seq<Id>)
      requires Valid()
      modifies registry, ledger, journal, journal.store`lines
      ensures Valid()
      ensures if it.emergency && outcome == FINALIZED then ListsMint(old(View()).open, it.inputMint, exits) else exits == []
      ensures View() == EmitAll(old(View()), it.key, RecordOuts(old(View()).open, id, it, outcome, fill, exits))
      ensures fill.Some? ==> Outcomes.Recorded(old(View()), id, it, outcome, fill.value, View())
      ensures fill.None? ==> Outcomes.Recorded(old(View()), id, it, outcome, it.maxInput, View())
    {
      hide Outcomes.Recorded;
      ghost var c := View();
      exits := [];
      var amount := if fill.Some? then fill.value else it.maxInput;
      match outcome {
        case FINALIZED => exits := RecordFinalized(id, it, amount, at);
        case CONFIRMED_PROVISIONAL => RecordConfirmed(id, it, amount, at);
        case SUBMITTED =>
        case _ => RecordFailed(id, it, outcome, at);
      }
      Outcomes.RecordMeaning(c, id, it, outcome, fill, exits);
    }

    // ---------------------------------------------------------------- recover

    /** One pass over the lines: which attempts were prepared, and what became of the latest preparation. */
    method SeenAttempts() returns (order: seq<Id>, seen: map<Id, Scan>)
      ensures Sees(journal.Journaled(), order, seen)
    {
      order, seen := [], map[];
      var entries := journal.entries;
      ghost var j := journal.Journaled();
      for i := 0 to |entries|
        invariant Sees(j[..i], order, seen)
      {
        var r := entries[i].rec;
        assert j[..i + 1] == j[..i] + [r];
        SeesNext(j[..i], r, order, seen);
        if r.AttemptPrepared? {
          order := Remember(order, r.id);
          seen := seen[r.id := Scan(false, false, r.expiresAt, r.key)];
        } else if (r.AttemptSigned? || r.AttemptSubmitted?) && r.id in seen {
          seen := seen[r.id := seen[r.id].(signed := true)];
        } else if r.AttemptResult? && r.id in seen {
          seen := seen[r.id := seen[r.id].(done := true)];
        }
      }
      assert j[..|entries|] == j;
    }

    method ExpireAttempt(id: Id, key: Key, at: int)
      requires Valid()
      modifies registry, ledger, journal, journal.store`lines
      ensures Valid()
      ensures var c := old(View());
              View() == EmitAll(c, key, (if id in c.open then [Ledger(EntryReleased(id))] else [])
                                        + [Result(id, key, PREPARED, EXPIRED, Recovered, To(EXPIRED))])
    {
      ghost var c := View();
      EmitLast(c, key, if id in c.open then [Ledger(EntryReleased(id))] else [], Result(id, key, PREPARED, EXPIRED, Recovered, To(EXPIRED)));
      if id in ledger.open {
        var ok := LedgerEvent(EntryReleased(id), at);
      }
      AdvanceIsMove(registry.registry, key, EXPIRED);
      var moved := registry.AdvanceKey(key, EXPIRED);
      Append(AttemptResult(id, key, PREPARED, EXPIRED, Recovered), at);
    }

    method ResolveAttempt(id: Id, view: View, at: int)
      requires Valid()
      modifies registry, ledger, journal, journal.store`lines
      ensures Valid() && View() == ResolveOne(old(View()), id, view)
      ensures forall p: Record, key: Key, sig: Sig :: Outcomes.Facts(AttemptOf(old(View()).journal, id), p, key, sig) ==>
                Outcomes.SettledBy(old(View()), id, p, key, AttemptOf(old(View()).journal, id).signed.value.lastValid,
                                   if sig in view.status then view.status[sig] else Absent, view.height, View())
    {
      hide Outcomes.SettledBy;
      ResolvesMeaning(View(), id, view);
      ghost var c := View();
      var a := AttemptOf(journal.Journaled(), id);
      if SignatureOf(a).None? || a.signed.None? {
        return;
      }
      var key, sig := KeyOf(a), SignatureOf(a).value;
      var verdict := RecoverVerdict(StatusIn(view, sig), LastValidOf(a), view.height);
      if verdict == Keep {
        return;
      }
      ResolveSplits(c.open, id, a, verdict);
      EmitLast(c, key, ResolveEvents(c.open, id, a, verdict), ResolveResult(id, a, verdict));
      if verdict == Final {
        if id in ledger.open {
          var ok := LedgerEvent(EntryConfirmed(id, NotionalOf(a)), at);
        }
      } else {
        var ok := LedgerEvent(EntryReleased(id), at);
      }
      var state, lifecycle := if verdict == Final then FINALIZED else NOT_LANDED, if verdict == Final then COMPLETED else FAILED;
      AdvanceVia(key, lifecycle);
      Append(AttemptResult(id, key, state, lifecycle, Recovered), at);
    }

    /** Restart: expire what was never signed, then settle every signed or submitted attempt from chain truth. */
    method RecoverAttempts(now: int, view: View, at: int)
      requires Valid()
      modifies registry, ledger, journal, journal.store`lines
      ensures Valid() && View() == Recover(old(View()), now, view)
    {
      ghost var c := View();
      var order, seen := SeenAttempts();
      assert order[0..] == order;
      for i := 0 to |order|
        invariant Valid()
        invariant ExpireAll(View(), c.journal, order[i..], now) == ExpireAll(c, c.journal, PreparedIds(c.journal), now)
      {
        var id := order[i];
        SeenAt(c.journal, order, seen, id);
        assert order[i..][1..] == order[i + 1..];
        if !seen[id].signed && !seen[id].done && now >= seen[id].expiresAt {
          ExpireAttempt(id, seen[id].key, at);
        }
      }
      ghost var expired := View();
      var ids := journal.UnresolvedAttempts();
      assert ids[0..] == ids;
      for i := 0 to |ids|
        invariant Valid()
        invariant ResolveAll(View(), ids[i..], view) == ResolveAll(expired, UnresolvedIds(expired.journal), view)
      {
        assert ids[i..][1..] == ids[i + 1..];
        ResolveAttempt(ids[i], view, at);
      }
    }

    // ---------------------------------------------------------------- trackFinality

    method TrackFinalized(id: Id, a: Attempt, at: int) returns (ghost exits: seq<Id>)
      requires Valid() && SignatureOf(a).Some?
      modifies registry, ledger, journal, journal.store`lines
      ensures Valid() && ExitsOf(old(View()).open, a, true, exits)
      ensures View() == EmitAll(old(View()), KeyOf(a), TickOuts(old(View()).open, id, a, SignatureOf(a).value, QFinalized, exits))
    {
      ghost var c := View();
      var key := KeyOf(a);
      if IsEmergency(a) {
        exits := ExitMint(a.first.value.mint, NotionalOf(a), HeldOf(a), at, key);
        ExitsEmit(c, key, c.open, exits, NotionalOf(a), HeldOf(a));
        EmitLast(c, key, ExitOuts(c.open, exits, NotionalOf(a), HeldOf(a)), Result(id, key, FINALIZED, COMPLETED, Tracked, IfExecuting(COMPLETED)));
      } else {
        exits := [];
        ghost var events := if id in c.open then [Ledger(EntryConfirmed(id, NotionalOf(a)))] else [];
        EmitLast(c, key, events, Result(id, key, FINALIZED, COMPLETED, Tracked, IfExecuting(COMPLETED)));
        if id in ledger.open {
          var ok := LedgerEvent(EntryConfirmed(id, NotionalOf(a)), at);
        }
      }
      AdvanceIfExecuting(key, COMPLETED);
      Append(AttemptResult(id, key, FINALIZED, COMPLETED, Tracked), at);
    }

    method TrackConfirmed(id: Id, a: Attempt, at: int)
      requires Valid() && SignatureOf(a).Some?
      modifies registry, ledger, journal, journal.store`lines
      ensures Valid()
      ensures View() == EmitAll(old(View()), KeyOf(a), TickOuts(old(View()).open, id, a, SignatureOf(a).value, QConfirmed, []))
    {
      if a.seen.SeenConfirmed? {
        return;
      }
      ghost var c := View();
      var key := KeyOf(a);
      ghost var events := if !IsEmergency(a) && id in c.open then [Ledger(EntryConfirmed(id, NotionalOf(a)))] else [];
      EmitLast(c, key, events, Line(AttemptObserved(id, key), Executing));
      if !IsEmergency(a) && id in ledger.open {
        var ok := LedgerEvent(EntryConfirmed(id, NotionalOf(a)), at);
      }
      AdvanceToExecuting(key);
      Append(AttemptObserved(id, key), at);
    }

    method TrackBuried(id: Id, a: Attempt, q: Quorum, at: int)
      requires Valid() && SignatureOf(a).Some? && Buries(a, q) && !q.QDivergent?
      modifies registry, ledger, journal, journal.store`lines
      ensures Valid()
      ensures View() == EmitAll(old(View()), KeyOf(a), TickOuts(old(View()).open, id, a, SignatureOf(a).value, q, []))
    {
      ghost var c := View();
      var key := KeyOf(a);
      ghost var events := if !IsEmergency(a) && id in c.open then [Ledger(EntryReleased(id))] else [];
      EmitLast(c, key, events, Result(id, key, NOT_LANDED, FAILED, Tracked, IfExecuting(FAILED)));
      if !IsEmergency(a) && id in ledger.open {
        var ok := LedgerEvent(EntryReleased(id), at);
      }
      AdvanceIfExecuting(key, FAILED);
      Append(AttemptResult(id, key, NOT_LANDED, FAILED, Tracked), at);
    }

    /** A contradicted confirmation: the doubt first, then the pause. */
    method TrackDoubt(id: Id, a: Attempt, q: Quorum, at: int)
      requires Valid() && SignatureOf(a).Some? && Contradicts(q) && a.seen.SeenConfirmed?
      modifies this, journal, journal.store`lines
      ensures Valid()
      ensures View() == EmitAll(old(View()), KeyOf(a), TickOuts(old(View()).open, id, a, SignatureOf(a).value, q, []))
    {
      ghost var c := View();
      var key, sig := KeyOf(a), SignatureOf(a).value;
      Recovery.EmitTwo(c, key, Line(AttemptReorgPending(id, key, sig), Stay), Halt(ReorgPending(sig)));
      NoMove(c.registry, key);
      Append(AttemptReorgPending(id, key, sig), at);
      ApplyLocalPause(ReorgPending(sig), at);
    }

    /** One visit: what the quorum says of one attempt, acted upon; true when the attempt stays uncertain. */
    method Visit(id: Id, q: Quorum, at: int) returns (uncertain: bool)
      requires Valid()
      modifies this, registry, ledger, journal, journal.store`lines
      ensures Valid() && Visited(old(View()), id, q, View()) && uncertain == Uncertain(old(View()), id, q)
      ensures forall p: Record, key: Key, sig: Sig :: Outcomes.Facts(AttemptOf(old(View()).journal, id), p, key, sig) ==>
                Outcomes.VisitLeaves(old(View()), id, p, key, sig, AttemptOf(old(View()).journal, id).seen, q, View())
    {
      hide Outcomes.VisitLeaves;
      ghost var c := View();
      var a := AttemptOf(journal.Journaled(), id);
      if SignatureOf(a).None? || a.signed.None? {
        return false;
      }
      uncertain := LeavesUncertain(a, q);
      ghost var exits: seq<Id> := [];
      if q.QFinalized? {
        exits := TrackFinalized(id, a, at);
      } else if q.QConfirmed? {
        TrackConfirmed(id, a, at);
      } else if Contradicts(q) && a.seen.SeenConfirmed? {
        TrackDoubt(id, a, q, at);
      } else if q.QDivergent? {
        Recovery.EmitOne(c, KeyOf(a), Halt(RpcDivergence(SignatureOf(a).value)));
        ApplyLocalPause(RpcDivergence(SignatureOf(a).value), at);
      } else if Buries(a, q) {
        TrackBuried(id, a, q, at);
      }
      assert VisitedWith(c, id, q, exits, View());
      VisitedMeans(c, id, q, exits, View());
    }

    /** One tick over every unresolved attempt; `views` is what the quorum answers for each. */
    method TrackFinality(views: Id -> Quorum, custodyReadable: bool, at: int) returns (ghost visited: Core, uncertain: nat)
      requires Valid()
      modifies this, registry, ledger, journal, journal.store`lines
      ensures Valid()
      ensures AllVisited(old(View()), UnresolvedIds(old(View()).journal), views, visited, uncertain)
      ensures View() == if uncertain == 0 && TrackerReason(visited.pause) && custodyReadable then Reconciled(visited) else visited
      ensures View() != visited ==> View() == visited.(journal := visited.journal + [CustodyReconciled] + [PauseCleared], pause := Inactive)
    {
      hide AllVisited;
      hide Visited;
      ghost var c := View();
      uncertain := 0;
      var ids := journal.UnresolvedAttempts();
      NoVisits(c, views);
      assert ids[..0] == [];
      for i := 0 to |ids|
        invariant Valid() && AllVisited(c, ids[..i], views, View(), uncertain)
      {
        ghost var mid := View();
        ghost var before := uncertain;
        var left := Visit(ids[i], views(ids[i]), at);
        if left {
          uncertain := uncertain + 1;
        }
        VisitsGrow(c, ids, i, views, mid, before, View(), uncertain);
      }
      assert ids[..|ids|] == ids;
      visited := View();
      if localPause.Active? && uncertain == 0 && (localPause.reason.ReorgPending? || localPause.reason.RpcDivergence?) {
        if custodyReadable {
          Append(CustodyReconciled, at);
          ClearLocalPause(at);
        }
      }
    }
  }

  // ---------------------------------------------------------------- a tick

  ghost predicate ExitsOf(open: Open, a: Attempt, finished: bool, exits: seq<Id>) {
    if finished && IsEmergency(a) then ListsMint(open, a.first.value.mint, exits) else exits == []
  }

  ghost predicate VisitedWith(c: Core, id: Id, q: Quorum, exits: seq<Id>, d: Core) {
    var a := AttemptOf(c.journal, id);
    && SignatureOf(a).Some? && ExitsOf(c.open, a, q.QFinalized?, exits)
    && (forall i :: 0 <= i < |exits| ==> exits[i] in c.open)
    && d == EmitAll(c, KeyOf(a), TickOuts(c.open, id, a, SignatureOf(a).value, q, exits))
  }

  ghost predicate Visited(c: Core, id: Id, q: Quorum, d: Core) {
    var a := AttemptOf(c.journal, id);
    if SignatureOf(a).None? || a.signed.None? then d == c
    else exists exits: seq<Id> :: VisitedWith(c, id, q, exits, d)
  }

  lemma ResolvesMeaning(c: Core, id: Id, view: View)
    ensures forall p: Record, key: Key, sig: Sig :: Outcomes.Facts(AttemptOf(c.journal, id), p, key, sig) ==>
              Outcomes.SettledBy(c, id, p, key, AttemptOf(c.journal, id).signed.value.lastValid,
                                 if sig in view.status then view.status[sig] else Absent, view.height, ResolveOne(c, id, view))
  {
    hide Outcomes.SettledBy;
    var a := AttemptOf(c.journal, id);
    forall p: Record, key: Key, sig: Sig | Outcomes.Facts(a, p, key, sig)
      ensures Outcomes.SettledBy(c, id, p, key, a.signed.value.lastValid, if sig in view.status then view.status[sig] else Absent,
                                 view.height, ResolveOne(c, id, view))
    {
      Outcomes.ResolveMeaning(c, id, a, p, key, sig, view);
    }
  }

  lemma VisitedMeans(c: Core, id: Id, q: Quorum, exits: seq<Id>, d: Core)
    requires VisitedWith(c, id, q, exits, d)
    ensures forall p: Record, key: Key, sig: Sig :: Outcomes.Facts(AttemptOf(c.journal, id), p, key, sig) ==>
              Outcomes.VisitLeaves(c, id, p, key, sig, AttemptOf(c.journal, id).seen, q, d)
  {
    hide Outcomes.VisitLeaves;
    var a := AttemptOf(c.journal, id);
    forall p: Record, key: Key, sig: Sig | Outcomes.Facts(a, p, key, sig) ensures Outcomes.VisitLeaves(c, id, p, key, sig, a.seen, q, d) {
      Outcomes.VisitMeaning(c, id, a, p, key, sig, q, exits);
    }
  }

  predicate Uncertain(c: Core, id: Id, q: Quorum) {
    var a := AttemptOf(c.journal, id);
    SignatureOf(a).Some? && a.signed.Some? && LeavesUncertain(a, q)
  }

  ghost predicate VisitStep(mid: Core, n: nat, id: Id, q: Quorum, d: Core, uncertain: nat) {
    Visited(mid, id, q, d) && uncertain == n + if Uncertain(mid, id, q) then 1 else 0
  }

  ghost predicate LastVisit(c: Core, ids: seq<Id>, id: Id, views: Id -> Quorum, d: Core, uncertain: nat)
    decreases |ids| + 1, 0
  {
    exists mid: Core, n: nat :: AllVisited(c, ids, views, mid, n) && VisitStep(mid, n, id, views(id), d, uncertain)
  }

  /** The visits in order, and how many left their attempt uncertain. */
  ghost predicate AllVisited(c: Core, ids: seq<Id>, views: Id -> Quorum, d: Core, uncertain: nat)
    decreases |ids|, 1
  {
    if ids == [] then d == c && uncertain == 0
    else LastVisit(c, ids[..|ids| - 1], ids[|ids| - 1], views, d, uncertain)
  }

  lemma NoVisits(c: Core, views: Id -> Quorum)
    ensures AllVisited(c, [], views, c, 0)
  {
  }

  lemma VisitsGrow(c: Core, ids: seq<Id>, i: nat, views: Id -> Quorum, mid: Core, n: nat, d: Core, uncertain: nat)
    requires i < |ids| && AllVisited(c, ids[..i], views, mid, n) && VisitStep(mid, n, ids[i], views(ids[i]), d, uncertain)
    ensures AllVisited(c, ids[..i + 1], views, d, uncertain)
  {
    assert ids[..i + 1][..i] == ids[..i];
  }

  datatype Scan = Scan(signed: bool, done: bool, expiresAt: int, key: Key)

  /** `seen` is the Map the first recovery loop fills. */
  ghost predicate Sees(j: seq<Record>, order: seq<Id>, seen: map<Id, Scan>) {
    && order == PreparedIds(j)
    && (forall id: Id :: id in order <==> id in seen)
    && (forall id: Id :: id in seen ==> SeenIs(AttemptOf(j, id), seen[id]))
    && (forall id: Id :: id !in seen ==> AttemptOf(j, id).latest.None?)
  }

  ghost predicate SeenIs(a: Attempt, s: Scan) {
    a.latest.Some? && a.latest.value.AttemptPrepared?
    && s == Scan(a.signedSince, a.doneSince, a.latest.value.expiresAt, a.latest.value.key)
  }

  lemma SeesNext(j: seq<Record>, r: Record, order: seq<Id>, seen: map<Id, Scan>)
    requires Sees(j, order, seen)
    ensures r.AttemptPrepared? ==> Sees(j + [r], Remember(order, r.id), seen[r.id := Scan(false, false, r.expiresAt, r.key)])
    ensures (r.AttemptSigned? || r.AttemptSubmitted?) && r.id in seen ==> Sees(j + [r], order, seen[r.id := seen[r.id].(signed := true)])
    ensures r.AttemptResult? && r.id in seen ==> Sees(j + [r], order, seen[r.id := seen[r.id].(done := true)])
    ensures !r.AttemptPrepared? && !((r.AttemptSigned? || r.AttemptSubmitted? || r.AttemptResult?) && r.id in seen) ==> Sees(j + [r], order, seen)
  {
    assert (j + [r])[..|j|] == j;
    forall id: Id ensures AttemptOf(j + [r], id) == if Subject(r) == Some(id) then Observe(AttemptOf(j, id), r) else AttemptOf(j, id) {
      AttemptNext(j, r, id);
    }
  }

  lemma SeenAt(j: seq<Record>, order: seq<Id>, seen: map<Id, Scan>, id: Id)
    requires Sees(j, order, seen) && id in order
    ensures id in seen
    ensures var a := AttemptOf(j, id);
            && (Expired(a, seen[id].expiresAt) <==> !seen[id].signed && !seen[id].done)
            && ExpireKey(a) == seen[id].key
            && (forall now: int :: Expired(a, now) <==> !seen[id].signed && !seen[id].done && now >= seen[id].expiresAt)
  {
  }

  // ---------------------------------------------------------------- segments output by output

  predicate AllEmit(c: Core, key: Key, outs: seq<Out>)
    decreases |outs|
  {
    outs == [] || (CanEmit(c, outs[0]) && AllEmit(Emit(c, key, outs[0]), key, outs[1..]))
  }

  /** The closing output comes after all the others, unless one of them threw. */
  lemma {:induction false} EmitLast(c: Core, key: Key, outs: seq<Out>, last: Out)
    requires !last.Ledger?
    ensures EmitAll(c, key, outs + [last]) ==
            if AllEmit(c, key, outs) then Emit(EmitAll(c, key, outs), key, last) else EmitAll(c, key, outs)
    ensures |outs| == 1 ==> (AllEmit(c, key, outs) <==> CanEmit(c, outs[0])) && (CanEmit(c, outs[0]) ==> EmitAll(c, key, outs) == Emit(c, key, outs[0]))
    ensures |outs| == 1 && !CanEmit(c, outs[0]) ==> EmitAll(c, key, outs) == c
    decreases |outs|
  {
    if outs == [] {
      assert outs + [last] == [last];
      Recovery.EmitOne(c, key, last);
    } else {
      assert (outs + [last])[1..] == outs[1..] + [last];
      if CanEmit(c, outs[0]) {
        EmitLast(Emit(c, key, outs[0]), key, outs[1..], last);
      }
    }
  }

  lemma {:induction false} ExitsEmit(c: Core, key: Key, open: Open, order: seq<Id>, sold: nat, held: nat)
    requires forall i :: 0 <= i < |order| ==> order[i] in open
    ensures AllEmit(c, key, ExitOuts(open, order, sold, held))
    decreases |order|
  {
    if order != [] {
      ExitOutsHead(open, order, sold, held);
      ExitsEmit(Emit(c, key, ExitOuts(open, order, sold, held)[0]), key, open, order[1..], sold, held);
    }
  }

  function ResolveEvents(open: Open, id: Id, a: Attempt, v: Verdict): seq<Out> {
    if v == Dead then [Ledger(EntryReleased(id))]
    else if id in open then [Ledger(EntryConfirmed(id, NotionalOf(a)))] else []
  }

  function ResolveResult(id: Id, a: Attempt, v: Verdict): Out {
    if v == Final then Result(id, KeyOf(a), FINALIZED, COMPLETED, Recovered, Via(COMPLETED))
    else Result(id, KeyOf(a), NOT_LANDED, FAILED, Recovered, Via(FAILED))
  }

  lemma ResolveSplits(open: Open, id: Id, a: Attempt, v: Verdict)
    requires v != Keep
    ensures ResolveOuts(open, id, a, v) == ResolveEvents(open, id, a, v) + [ResolveResult(id, a, v)]
  {
  }

  lemma NoMove(r: Registry, key: Key)
    ensures MovedKey(r, key, Stay) == r
  {
  }

  lemma AdmissionIs(c: Core, id: Id, it: Intent, ok: bool)
    ensures Admission(c, id, it, ok) ==
            if !ok then Emit(c, it.key, Result(id, it.key, PREPARED, FAILED, Live, To(FAILED)))
            else if id in c.open then c
            else
              var d := Emit(c, it.key, Ledger(EntryAuthorized(id, TradedMint(it), it.maxInput, it.protection)));
              d.(registry := MovedKey(d.registry, it.key, To(AUTHORIZED)))
  {
    var out := AdmissionOuts(id, it, ok)[0];
    if CanEmit(c, out) {
      Recovery.EmitOne(c, it.key, out);
    }
  }

  function FirstsOf(list: seq<(Id, nat)>): (order: seq<Id>)
    ensures |order| == |list| && forall i :: 0 <= i < |list| ==> order[i] == list[i].0
  {
    seq(|list|, i requires 0 <= i < |list| => list[i].0)
  }

  lemma FirstsList(open: Open, mint: Mint, list: seq<(Id, nat)>)
    requires forall i :: 0 <= i < |list| ==> list[i].0 in open && open[list[i].0].mint == mint
    requires forall i, k :: 0 <= i < k < |list| ==> list[i].0 != list[k].0
    requires forall id :: id in open && open[id].mint == mint ==> exists i :: 0 <= i < |list| && list[i].0 == id
    ensures ListsMint(open, mint, FirstsOf(list))
  {
    forall id: Id | id in open && open[id].mint == mint ensures id in FirstsOf(list) {
      var i :| 0 <= i < |list| && list[i].0 == id;
      assert FirstsOf(list)[i] == id;
    }
  }

  lemma ExitOutsHead(open: Open, order: seq<Id>, sold: nat, held: nat)
    requires order != [] && forall i :: 0 <= i < |order| ==> order[i] in open
    ensures var outs := ExitOuts(open, order, sold, held);
            && outs != [] && outs[0] == Ledger(ExitConfirmed(order[0], SaleReleased(ExposureOf(open[order[0]]), sold, held)))
            && outs[1..] == ExitOuts(open, order[1..], sold, held)
  {
  }
}
