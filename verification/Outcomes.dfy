/** What a recorded outcome and a tracker's visit leave, said without the outputs they write. */
module Outcomes {
  import opened Sums
  import opened ExposureLedger
  import opened Records
  import opened Intents
  import opened Protocol
  import opened Exits
  import Recovery

  /** The entry is confirmed at this amount, and nothing else changes. */
  predicate ConfirmedAt(open: Open, id: Id, amount: nat, after: Open) {
    id in open && after == open[id := open[id].(confirmed := Some(amount))]
  }

  /** Everything already journaled stays, and this is the last line. */
  predicate EndsWith(before: seq<Record>, after: seq<Record>, last: Record) {
    before <= after && |before| < |after| && after[|after| - 1] == last
  }

  /** The key's intent makes this transition if it is allowed, and no other key moves. */
  predicate MovesTo(r: Registry, key: Key, to: IntentState, after: Registry) {
    && after.Keys == r.Keys && (forall k :: k in r && k != key ==> after[k] == r[k])
    && (key in r ==> after[key] == r[key].(state := if Allowed(r[key].state, to) then to else r[key].state))
  }

  /** What recording the adapter's answer must leave, where `amount` is the fill or, without one, the authorised input. */
  ghost predicate Recorded(c: Core, id: Id, it: Intent, outcome: AttemptState, amount: nat, d: Core) {
    && d.pause == c.pause
    && match outcome
       case SUBMITTED => d == c
       case FINALIZED =>
         if !it.emergency && id !in c.open then d == c
         else
           && (if it.emergency then d.open == AfterSale(c.open, it.inputMint, amount, it.held) else ConfirmedAt(c.open, id, amount, d.open))
           && MovesTo(c.registry, it.key, COMPLETED, d.registry)
           && EndsWith(c.journal, d.journal, AttemptResult(id, it.key, FINALIZED, COMPLETED, Live))
       case CONFIRMED_PROVISIONAL =>
         if !it.emergency && id !in c.open then d == c
         else
           && (if it.emergency then d.open == c.open else ConfirmedAt(c.open, id, amount, d.open))
           && d.registry == c.registry && EndsWith(c.journal, d.journal, AttemptObserved(id, it.key))
       case _ =>
         && (if it.emergency then d.open == c.open else d.open == c.open - {id})
         && MovesTo(c.registry, it.key, FAILED, d.registry)
         && EndsWith(c.journal, d.journal, AttemptResult(id, it.key, outcome, FAILED, Live))
  }

  // ---------------------------------------------------------------- outputs written through

  lemma {:induction false} ExitsOnly(c: Core, key: Key, open: Open, order: seq<Id>, sold: nat, held: nat)
    requires forall i :: 0 <= i < |order| ==> order[i] in open
    ensures var d := EmitAll(c, key, ExitOuts(open, order, sold, held)); d.registry == c.registry && d.pause == c.pause && c.journal <= d.journal
    decreases |order|
  {
    if order != [] {
      var outs := ExitOuts(open, order, sold, held);
      assert outs[1..] == ExitOuts(open, order[1..], sold, held);
      ExitsOnly(Emit(c, key, outs[0]), key, open, order[1..], sold, held);
    }
  }

  /** A whole sale and the result line. */
  lemma SaleRecorded(c: Core, key: Key, mint: Mint, order: seq<Id>, sold: nat, held: nat, r: Record, m: Move)
    requires ListsMint(c.open, mint, order)
    ensures var d := EmitAll(c, key, ExitOuts(c.open, order, sold, held) + [Line(r, m)]);
            && d.open == AfterSale(c.open, mint, sold, held) && d.pause == c.pause
            && d.registry == MovedKey(c.registry, key, m) && EndsWith(c.journal, d.journal, r)
  {
    ExitsSellTheMint(c, key, mint, order, sold, held);
    ExitsOnly(c, key, c.open, order, sold, held);
    ExitsThen(c, key, c.open, order, sold, held, Line(r, m));
  }

  /** One event, if it does not throw, and a line. */
  lemma EventThenLine(c: Core, key: Key, e: ExposureEvent, r: Record, m: Move)
    ensures var d := EmitAll(c, key, [Ledger(e)] + [Line(r, m)]);
            if !Admits(c.open, e) then d == c
            else d == Core(c.journal + [ExposureUpdated(e)] + [r], After(c.open, e), MovedKey(c.registry, key, m), c.pause)
  {
    assert [Ledger(e)] + [Line(r, m)] == [Ledger(e), Line(r, m)];
    if Admits(c.open, e) {
      Recovery.EmitTwo(c, key, Ledger(e), Line(r, m));
    }
  }

  lemma LineOnly(c: Core, key: Key, r: Record, m: Move)
    ensures EmitAll(c, key, [] + [Line(r, m)]) == Core(c.journal + [r], c.open, MovedKey(c.registry, key, m), c.pause)
  {
    assert [] + [Line(r, m)] == [Line(r, m)];
    Recovery.EmitOne(c, key, Line(r, m));
  }

  lemma FinalRecorded(c: Core, id: Id, it: Intent, amount: nat, exits: seq<Id>)
    requires if it.emergency then ListsMint(c.open, it.inputMint, exits) else exits == []
    ensures Recorded(c, id, it, FINALIZED, amount, EmitAll(c, it.key, EntryOrExit(c.open, id, it, amount, exits)
                                                                    + [Result(id, it.key, FINALIZED, COMPLETED, Live, To(COMPLETED))]))
  {
    hide EmitAll;
    hide ListsMint;
    var done := AttemptResult(id, it.key, FINALIZED, COMPLETED, Live);
    if it.emergency {
      SaleRecorded(c, it.key, it.inputMint, exits, amount, it.held, done, To(COMPLETED));
    } else {
      EventThenLine(c, it.key, EntryConfirmed(id, amount), done, To(COMPLETED));
    }
  }

  lemma ConfirmedRecorded(c: Core, id: Id, it: Intent, amount: nat)
    ensures Recorded(c, id, it, CONFIRMED_PROVISIONAL, amount,
                     EmitAll(c, it.key, (if it.emergency then [] else [Ledger(EntryConfirmed(id, amount))]) + [Line(AttemptObserved(id, it.key), Stay)]))
  {
    hide EmitAll;
    EventThenLine(c, it.key, EntryConfirmed(id, amount), AttemptObserved(id, it.key), Stay);
    LineOnly(c, it.key, AttemptObserved(id, it.key), Stay);
  }

  lemma FailedRecorded(c: Core, id: Id, it: Intent, outcome: AttemptState, amount: nat)
    requires outcome != FINALIZED && outcome != CONFIRMED_PROVISIONAL && outcome != SUBMITTED
    ensures Recorded(c, id, it, outcome, amount,
                     EmitAll(c, it.key, (if it.emergency then [] else [Ledger(EntryReleased(id))]) + [Result(id, it.key, outcome, FAILED, Live, To(FAILED))]))
  {
    hide EmitAll;
    EventThenLine(c, it.key, EntryReleased(id), AttemptResult(id, it.key, outcome, FAILED, Live), To(FAILED));
    LineOnly(c, it.key, AttemptResult(id, it.key, outcome, FAILED, Live), To(FAILED));
  }

  /** Whatever the outcome: recorded at the fill, and at the authorised input when there is none. */
  lemma RecordMeaning(c: Core, id: Id, it: Intent, outcome: AttemptState, fill: Option<nat>, exits: seq<Id>)
    requires if it.emergency && outcome == FINALIZED then ListsMint(c.open, it.inputMint, exits) else exits == []
    ensures var d := EmitAll(c, it.key, RecordOuts(c.open, id, it, outcome, fill, exits));
            && (fill.Some? ==> Recorded(c, id, it, outcome, fill.value, d))
            && (fill.None? ==> Recorded(c, id, it, outcome, it.maxInput, d))
  {
    hide Recorded;
    hide ListsMint;
    var amount := match fill case Some(x) => x case None => it.maxInput;
    match outcome
    case FINALIZED => FinalRecorded(c, id, it, amount, exits);
    case CONFIRMED_PROVISIONAL => ConfirmedRecorded(c, id, it, amount);
    case SUBMITTED => NothingRecorded(c, id, it, amount);
    case _ => FailedRecorded(c, id, it, outcome, amount);
  }

  lemma NothingRecorded(c: Core, id: Id, it: Intent, amount: nat)
    ensures Recorded(c, id, it, SUBMITTED, amount, c) && EmitAll(c, it.key, []) == c
  {
  }

  // ---------------------------------------------------------------- a visit of the tracker

  /** The pause of a doubt or a divergence: with its own line unless one is in force. */
  predicate PausedWith(journal: seq<Record>, pause: Pause, reason: PauseReason, d: Core) {
    if pause.Active? then d.journal == journal && d.pause == pause
    else d.journal == journal + [PauseApplied(reason)] && d.pause == Active(reason)
  }

  /** The registry after a tracked conclusion: an intent not yet executing first becomes so. */
  predicate TrackedTo(r: Registry, key: Key, to: IntentState, after: Registry) {
    && after.Keys == r.Keys && (forall k :: k in r && k != key ==> after[k] == r[k])
    && (key in r ==> after[key] == r[key].(state := if r[key].state == AUTHORIZED || r[key].state == EXECUTING then to else r[key].state))
  }

  /** What one visit must leave, for an attempt prepared by the line `p` and signed under `key` and `sig`. */
  ghost predicate VisitLeaves(c: Core, id: Id, p: Record, key: Key, sig: Sig, seen: Records.Seen, q: Quorum, d: Core)
    requires p.AttemptPrepared?
  {
    var contradicted := q.QMissing? || q.QFailed? || q.QDivergent?;
    if q.QFinalized? then
      && (if p.emergency then d.open == AfterSale(c.open, p.mint, p.maxInput, p.held)
          else if id in c.open then ConfirmedAt(c.open, id, p.maxInput, d.open) else d.open == c.open)
      && d.pause == c.pause && TrackedTo(c.registry, key, COMPLETED, d.registry)
      && EndsWith(c.journal, d.journal, AttemptResult(id, key, FINALIZED, COMPLETED, Tracked))
    else if q.QConfirmed? && !seen.SeenConfirmed? then
      && (if !p.emergency && id in c.open then ConfirmedAt(c.open, id, p.maxInput, d.open) else d.open == c.open)
      && d.pause == c.pause && TrackedTo(c.registry, key, EXECUTING, d.registry)
      && EndsWith(c.journal, d.journal, AttemptObserved(id, key))
    else if contradicted && seen.SeenConfirmed? then
      d.open == c.open && d.registry == c.registry
      && PausedWith(c.journal + [AttemptReorgPending(id, key, sig)], c.pause, ReorgPending(sig), d)
    else if q.QDivergent? then
      d.open == c.open && d.registry == c.registry && PausedWith(c.journal, c.pause, RpcDivergence(sig), d)
    else if q.QFailed? || q == QMissing(true) then
      && (if p.emergency then d.open == c.open else d.open == c.open - {id})
      && d.pause == c.pause && TrackedTo(c.registry, key, FAILED, d.registry)
      && EndsWith(c.journal, d.journal, AttemptResult(id, key, NOT_LANDED, FAILED, Tracked))
    else d == c
  }

  /** The attempt's own facts, as its journal lines give them. */
  predicate Facts(a: Attempt, p: Record, key: Key, sig: Sig) {
    p.AttemptPrepared? && a.first == Some(p) && SignatureOf(a) == Some(sig) && a.signed.Some? && a.signed.value.AttemptSigned? && a.signed.value.key == key
  }

  lemma FinalVisit(c: Core, id: Id, a: Attempt, p: Record, key: Key, sig: Sig, exits: seq<Id>)
    requires Facts(a, p, key, sig) && if p.emergency then ListsMint(c.open, p.mint, exits) else exits == []
    ensures VisitLeaves(c, id, p, key, sig, a.seen, QFinalized, EmitAll(c, key, TickOuts(c.open, id, a, sig, QFinalized, exits)))
  {
    hide EmitAll;
    hide ListsMint;
    var done := AttemptResult(id, key, FINALIZED, COMPLETED, Tracked);
    if p.emergency {
      SaleRecorded(c, key, p.mint, exits, p.maxInput, p.held, done, IfExecuting(COMPLETED));
    } else {
      EventThenLine(c, key, EntryConfirmed(id, p.maxInput), done, IfExecuting(COMPLETED));
      LineOnly(c, key, done, IfExecuting(COMPLETED));
    }
  }

  lemma ConfirmedVisit(c: Core, id: Id, a: Attempt, p: Record, key: Key, sig: Sig)
    requires Facts(a, p, key, sig)
    ensures VisitLeaves(c, id, p, key, sig, a.seen, QConfirmed, EmitAll(c, key, TickOuts(c.open, id, a, sig, QConfirmed, [])))
  {
    hide EmitAll;
    EventThenLine(c, key, EntryConfirmed(id, p.maxInput), AttemptObserved(id, key), Executing);
    LineOnly(c, key, AttemptObserved(id, key), Executing);
    Recovery.EmitNone(c, key);
  }

  lemma DoubtfulVisit(c: Core, id: Id, a: Attempt, p: Record, key: Key, sig: Sig, q: Quorum)
    requires Facts(a, p, key, sig) && (q.QMissing? || q.QFailed? || q.QDivergent?) && (a.seen.SeenConfirmed? || q.QDivergent?)
    ensures VisitLeaves(c, id, p, key, sig, a.seen, q, EmitAll(c, key, TickOuts(c.open, id, a, sig, q, [])))
  {
    hide EmitAll;
    if a.seen.SeenConfirmed? {
      Recovery.EmitTwo(c, key, Line(AttemptReorgPending(id, key, sig), Stay), Halt(ReorgPending(sig)));
      assert MovedKey(c.registry, key, Stay) == c.registry;
    } else {
      Recovery.EmitOne(c, key, Halt(RpcDivergence(sig)));
    }
  }

  lemma DeadVisit(c: Core, id: Id, a: Attempt, p: Record, key: Key, sig: Sig, q: Quorum)
    requires Facts(a, p, key, sig) && (q.QFailed? || q == QMissing(true)) && !a.seen.SeenConfirmed?
    ensures VisitLeaves(c, id, p, key, sig, a.seen, q, EmitAll(c, key, TickOuts(c.open, id, a, sig, q, [])))
  {
    hide EmitAll;
    var lost := AttemptResult(id, key, NOT_LANDED, FAILED, Tracked);
    EventThenLine(c, key, EntryReleased(id), lost, IfExecuting(FAILED));
    LineOnly(c, key, lost, IfExecuting(FAILED));
  }

  lemma QuietVisit(c: Core, id: Id, a: Attempt, p: Record, key: Key, sig: Sig, q: Quorum)
    requires Facts(a, p, key, sig) && (q.QProcessed? || q.QUnavailable? || (q == QMissing(false) && !a.seen.SeenConfirmed?))
    ensures VisitLeaves(c, id, p, key, sig, a.seen, q, EmitAll(c, key, TickOuts(c.open, id, a, sig, q, [])))
  {
    Recovery.EmitNone(c, key);
  }

  /** Whatever the verdict. */
  lemma VisitMeaning(c: Core, id: Id, a: Attempt, p: Record, key: Key, sig: Sig, q: Quorum, exits: seq<Id>)
    requires Facts(a, p, key, sig) && if q.QFinalized? && p.emergency then ListsMint(c.open, p.mint, exits) else exits == []
    ensures forall i :: 0 <= i < |exits| ==> exits[i] in c.open
    ensures VisitLeaves(c, id, p, key, sig, a.seen, q, EmitAll(c, key, TickOuts(c.open, id, a, sig, q, exits)))
  {
    hide VisitLeaves;
    hide EmitAll;
    hide TickOuts;
    if q.QFinalized? {
      FinalVisit(c, id, a, p, key, sig, exits);
    } else if q.QConfirmed? {
      ConfirmedVisit(c, id, a, p, key, sig);
    } else if (q.QMissing? || q.QFailed? || q.QDivergent?) && (a.seen.SeenConfirmed? || q.QDivergent?) {
      DoubtfulVisit(c, id, a, p, key, sig, q);
    } else if q.QFailed? || q == QMissing(true) {
      DeadVisit(c, id, a, p, key, sig, q);
    } else {
      QuietVisit(c, id, a, p, key, sig, q);
    }
  }

  // ---------------------------------------------------------------- what recovery leaves of one attempt

  /** The registry after a recovered conclusion: an intent authorised or executing ends, and so does any that may. */
  predicate RecoveredTo(r: Registry, key: Key, to: IntentState, after: Registry) {
    && after.Keys == r.Keys && (forall k :: k in r && k != key ==> after[k] == r[k])
    && (key in r ==>
          after[key] == r[key].(state := if r[key].state == AUTHORIZED || r[key].state == EXECUTING || Allowed(r[key].state, to) then to else r[key].state))
  }

  /** What settling one unresolved attempt from the chain must leave, for an attempt prepared by `p` and signed under `key`,
      when the chain shows `status` at `height`. */
  ghost predicate SettledBy(c: Core, id: Id, p: Record, key: Key, lastValid: Option<nat>, status: Status, height: nat, d: Core)
    requires p.AttemptPrepared?
  {
    if status.Landed? && status.commitment == Finalized && status.ok then
      && (if id in c.open then ConfirmedAt(c.open, id, p.maxInput, d.open) else d.open == c.open)
      && d.pause == c.pause && RecoveredTo(c.registry, key, COMPLETED, d.registry)
      && EndsWith(c.journal, d.journal, AttemptResult(id, key, FINALIZED, COMPLETED, Recovered))
    else if (status.Landed? && !status.ok) || (status.Absent? && lastValid.Some? && lastValid.value < height) then
      && d.open == c.open - {id} && d.pause == c.pause && RecoveredTo(c.registry, key, FAILED, d.registry)
      && EndsWith(c.journal, d.journal, AttemptResult(id, key, NOT_LANDED, FAILED, Recovered))
    else d == c
  }

  lemma ResolveMeaning(c: Core, id: Id, a: Attempt, p: Record, key: Key, sig: Sig, view: View)
    requires a == AttemptOf(c.journal, id) && Facts(a, p, key, sig)
    ensures SettledBy(c, id, p, key, a.signed.value.lastValid, if sig in view.status then view.status[sig] else Absent, view.height,
                      ResolveOne(c, id, view))
  {
    hide EmitAll;
    var done := AttemptResult(id, key, FINALIZED, COMPLETED, Recovered);
    var lost := AttemptResult(id, key, NOT_LANDED, FAILED, Recovered);
    EventThenLine(c, key, EntryConfirmed(id, p.maxInput), done, Via(COMPLETED));
    LineOnly(c, key, done, Via(COMPLETED));
    EventThenLine(c, key, EntryReleased(id), lost, Via(FAILED));
    assert [Ledger(EntryReleased(id))] + [Line(lost, Via(FAILED))] == [Ledger(EntryReleased(id)), Line(lost, Via(FAILED))];
    Recovery.EmitNone(c, key);
  }
}
