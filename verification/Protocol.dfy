/**
  The executor's state between awaits, and what each segment of the pipeline does to it.  A segment
  is a list of outputs; an output appends at most one journal line and makes its in-memory change in
  the same step.  A crash may fall between any two outputs.
*/
module Protocol {
  import opened Numbers
  import opened Sums
  import opened ExposureLedger
  import opened Records
  import opened Intents

  datatype Core = Core(journal: seq<Record>, open: Open, registry: Registry, pause: Pause)

  /** How a line moves the state of its key in the live registry. */
  datatype Move = Stay | To(to: IntentState) | Executing | Via(to: IntentState) | IfExecuting(to: IntentState)

  function Moved(s: IntentState, m: Move): IntentState {
    var running := if s == AUTHORIZED then EXECUTING else s;
    match m
    case Stay => s
    case To(t) => Step(s, t)
    case Executing => running
    case Via(t) => Step(running, t)
    case IfExecuting(t) => if running == EXECUTING then Step(running, t) else running
  }

  function MovedKey(r: Registry, key: Key, m: Move): Registry {
    if key in r then r[key := r[key].(state := Moved(r[key].state, m))] else r
  }

  datatype Out = Ledger(event: ExposureEvent) | Line(rec: Record, move: Move) | Halt(reason: PauseReason)

  predicate CanEmit(c: Core, out: Out) {
    out.Ledger? ==> Admits(c.open, out.event)
  }

  function Emit(c: Core, key: Key, out: Out): Core
    requires CanEmit(c, out)
  {
    match out
    case Ledger(e) => c.(journal := c.journal + [ExposureUpdated(e)], open := After(c.open, e))
    case Line(r, m) => c.(journal := c.journal + [r], registry := MovedKey(c.registry, key, m))
    case Halt(reason) => Halted(c, reason)
  }

  /** `applyLocalPause`: an active pause keeps its first reason. */
  function Halted(c: Core, reason: PauseReason): Core {
    if c.pause.Active? then c else c.(journal := c.journal + [PauseApplied(reason)], pause := Active(reason))
  }

  function Cleared(c: Core): Core {
    if c.pause.Active? then c.(journal := c.journal + [PauseCleared], pause := Inactive) else c
  }

  /** All outputs of a segment; an event that throws ends it. */
  function EmitAll(c: Core, key: Key, outs: seq<Out>): Core
    decreases |outs|
  {
    if outs == [] || !CanEmit(c, outs[0]) then c else EmitAll(Emit(c, key, outs[0]), key, outs[1..])
  }

  // ---------------------------------------------------------------- a restart

  predicate Plain(r: Record) {
    !r.ExposureUpdated? && !r.PauseApplied? && !r.PauseCleared?
  }

  /** Ledger and pause are what the journal replays to. */
  ghost predicate Faithful(c: Core) {
    Replay(ExposureEvents(c.journal)) == Some(c.open) && LastPause(c.journal) == c.pause
  }

  /** A constructor over the journal alone; the replay of a faithful core never throws. */
  function Restart(c: Core): Core
    requires Replay(ExposureEvents(c.journal)).Some?
  {
    Core(c.journal, Replay(ExposureEvents(c.journal)).value, FromJournal(c.journal), LastPause(c.journal))
  }

  lemma FaithfulLine(c: Core, r: Record, m: Move, key: Key)
    requires Faithful(c) && Plain(r)
    ensures Faithful(Emit(c, key, Line(r, m)))
  {
    assert (c.journal + [r])[..|c.journal|] == c.journal;
  }

  lemma FaithfulEvent(c: Core, e: ExposureEvent, key: Key)
    requires Faithful(c) && Admits(c.open, e)
    ensures Faithful(Emit(c, key, Ledger(e)))
  {
    hide After;
    hide Admits;
    assert (c.journal + [ExposureUpdated(e)])[..|c.journal|] == c.journal;
    ReplayNext(ExposureEvents(c.journal), e);
  }

  lemma FaithfulHalt(c: Core, reason: PauseReason, key: Key)
    requires Faithful(c)
    ensures Faithful(Emit(c, key, Halt(reason)))
  {
    assert (c.journal + [PauseApplied(reason)])[..|c.journal|] == c.journal;
  }

  lemma FaithfulEmit(c: Core, key: Key, out: Out)
    requires Faithful(c) && CanEmit(c, out) && (out.Line? ==> Plain(out.rec))
    ensures Faithful(Emit(c, key, out))
  {
    hide Faithful;
    hide Emit;
    if out.Ledger? {
      FaithfulEvent(c, out.event, key);
    } else if out.Line? {
      FaithfulLine(c, out.rec, out.move, key);
    } else {
      FaithfulHalt(c, out.reason, key);
    }
  }

  lemma FaithfulCleared(c: Core)
    requires Faithful(c)
    ensures Faithful(Cleared(c))
  {
    assert (c.journal + [PauseCleared])[..|c.journal|] == c.journal;
  }

  // ---------------------------------------------------------------- lines of an attempt

  function Prepared(id: Id, it: Intent): Record {
    AttemptPrepared(id, it.key, it.nonce, it.emergency, TradedMint(it), it.maxInput, it.held, it.expiresAt)
  }

  function Claimed(c: Core, id: Id, it: Intent): Core {
    c.(journal := c.journal + [Prepared(id, it)], registry := Register(c.registry, id, it.key))
  }

  function Result(id: Id, key: Key, state: AttemptState, lifecycle: IntentState, author: Author, move: Move): Out {
    Line(AttemptResult(id, key, state, lifecycle, author), move)
  }

  /** What admission appends once the caps have spoken. */
  function AdmissionOuts(id: Id, it: Intent, ok: bool): seq<Out> {
    if ok then [Ledger(EntryAuthorized(id, TradedMint(it), it.maxInput, it.protection))]
    else [Result(id, it.key, PREPARED, FAILED, Live, To(FAILED))]
  }

  function Admission(c: Core, id: Id, it: Intent, ok: bool): Core {
    var after := EmitAll(c, it.key, AdmissionOuts(id, it, ok));
    if ok && id !in c.open then after.(registry := MovedKey(after.registry, it.key, To(AUTHORIZED))) else after
  }

  function SignedOut(id: Id, it: Intent, sig: Sig, lastValid: Option<nat>): Out {
    Line(AttemptSigned(id, it.key, it.nonce, Some(sig), lastValid), Stay)
  }

  function SubmittedOut(id: Id, it: Intent, sig: Sig): Out {
    Line(AttemptSubmitted(id, it.key, it.nonce, Some(sig)), To(EXECUTING))
  }

  // ---------------------------------------------------------------- the exit loop

  /** `order` lists the open entries of the mint, each once. */
  ghost predicate ListsMint(open: Open, mint: Mint, order: seq<Id>) {
    && (forall i :: 0 <= i < |order| ==> order[i] in open && open[order[i]].mint == mint)
    && (forall i, k :: 0 <= i < k < |order| ==> order[i] != order[k])
    && (forall id: Id :: id in open && open[id].mint == mint ==> id in order)
  }

  /** The shares are taken from the exposures at the start of the loop. */
  function ExitOuts(open: Open, order: seq<Id>, sold: nat, held: nat): seq<Out>
    requires forall i :: 0 <= i < |order| ==> order[i] in open
    decreases |order|
  {
    if order == [] then []
    else [Ledger(ExitConfirmed(order[0], SaleReleased(ExposureOf(open[order[0]]), sold, held)))]
         + ExitOuts(open, order[1..], sold, held)
  }

  // ---------------------------------------------------------------- record()

  function EntryOrExit(open: Open, id: Id, it: Intent, amount: nat, exits: seq<Id>): seq<Out>
    requires forall i :: 0 <= i < |exits| ==> exits[i] in open
  {
    if it.emergency then ExitOuts(open, exits, amount, it.held) else [Ledger(EntryConfirmed(id, amount))]
  }

  /** What the executor writes once the adapter has returned; `fill` is the filled input amount, if any. */
  function RecordOuts(open: Open, id: Id, it: Intent, outcome: AttemptState, fill: Option<nat>, exits: seq<Id>): seq<Out>
    requires forall i :: 0 <= i < |exits| ==> exits[i] in open
  {
    var amount := if fill.Some? then fill.value else it.maxInput;
    match outcome
    case FINALIZED => EntryOrExit(open, id, it, amount, exits) + [Result(id, it.key, FINALIZED, COMPLETED, Live, To(COMPLETED))]
    case CONFIRMED_PROVISIONAL =>
      (if it.emergency then [] else [Ledger(EntryConfirmed(id, amount))]) + [Line(AttemptObserved(id, it.key), Stay)]
    case SUBMITTED => []
    case _ =>
      (if it.emergency then [] else [Ledger(EntryReleased(id))]) + [Result(id, it.key, outcome, FAILED, Live, To(FAILED))]
  }

  // ---------------------------------------------------------------- recover()

  datatype Commitment = Processed | Confirmed | Finalized

  datatype Status = Absent | Landed(commitment: Commitment, ok: bool)

  datatype Verdict = Keep | Final | Dead

  /** `proveDead`: nothing under the signature and its last valid height passed. */
  predicate ProvenDead(status: Status, lastValid: Option<nat>, height: nat) {
    status.Absent? && lastValid.Some? && height > lastValid.value
  }

  function RecoverVerdict(status: Status, lastValid: Option<nat>, height: nat): Verdict {
    if status == Landed(Finalized, true) then Final
    else if status.Landed? && status.ok then Keep
    else if status.Landed? || ProvenDead(status, lastValid, height) then Dead
    else Keep
  }

  /** Prepared, not signed since, no result since, and the authorization has run out. */
  predicate Expired(a: Attempt, now: int) {
    a.latest.Some? && a.latest.value.AttemptPrepared? && !a.signedSince && !a.doneSince && now >= a.latest.value.expiresAt
  }

  function KeyOf(a: Attempt): Key {
    if a.signed.Some? && a.signed.value.AttemptSigned? then a.signed.value.key
    else if a.latest.Some? && a.latest.value.AttemptPrepared? then a.latest.value.key
    else 0
  }

  function ExpireKey(a: Attempt): Key {
    if a.latest.Some? && a.latest.value.AttemptPrepared? then a.latest.value.key else 0
  }

  function ExpireOuts(open: Open, id: Id, a: Attempt): seq<Out> {
    (if id in open then [Ledger(EntryReleased(id))] else [])
    + [Result(id, ExpireKey(a), PREPARED, EXPIRED, Recovered, To(EXPIRED))]
  }

  function ResolveOuts(open: Open, id: Id, a: Attempt, v: Verdict): seq<Out> {
    match v
    case Keep => []
    case Final =>
      (if id in open then [Ledger(EntryConfirmed(id, NotionalOf(a)))] else [])
      + [Result(id, KeyOf(a), FINALIZED, COMPLETED, Recovered, Via(COMPLETED))]
    case Dead => [Ledger(EntryReleased(id)), Result(id, KeyOf(a), NOT_LANDED, FAILED, Recovered, Via(FAILED))]
  }

  /** What the chain answers for a signature, and the block height. */
  datatype View = View(status: map<Sig, Status>, height: nat)

  function StatusIn(view: View, sig: Sig): Status {
    if sig in view.status then view.status[sig] else Absent
  }

  /** Keep as well when no signature was journaled. */
  function VerdictOn(a: Attempt, view: View): Verdict {
    if SignatureOf(a).None? || a.signed.None? then Keep
    else RecoverVerdict(StatusIn(view, SignatureOf(a).value), LastValidOf(a), view.height)
  }

  function ExpireOne(c: Core, before: seq<Record>, id: Id, now: int): Core {
    var a := AttemptOf(before, id);
    if Expired(a, now) then EmitAll(c, ExpireKey(a), ExpireOuts(c.open, id, a)) else c
  }

  function ExpireAll(c: Core, before: seq<Record>, ids: seq<Id>, now: int): Core
    decreases |ids|
  {
    if ids == [] then c else ExpireAll(ExpireOne(c, before, ids[0], now), before, ids[1..], now)
  }

  function ResolveOne(c: Core, id: Id, view: View): Core {
    var a := AttemptOf(c.journal, id);
    EmitAll(c, KeyOf(a), ResolveOuts(c.open, id, a, VerdictOn(a, view)))
  }

  function ResolveAll(c: Core, ids: seq<Id>, view: View): Core
    decreases |ids|
  {
    if ids == [] then c else ResolveAll(ResolveOne(c, ids[0], view), ids[1..], view)
  }

  function Recover(c: Core, now: int, view: View): Core {
    var expired := ExpireAll(c, c.journal, PreparedIds(c.journal), now);
    ResolveAll(expired, UnresolvedIds(expired.journal), view)
  }

  // ---------------------------------------------------------------- trackFinality()

  /** The quorum's verdict; a missing signature also says whether every view proves it dead. */
  datatype Quorum = QFinalized | QConfirmed | QProcessed | QFailed | QMissing(dead: bool) | QDivergent | QUnavailable

  predicate Contradicts(q: Quorum) {
    q.QMissing? || q.QFailed? || q.QDivergent?
  }

  predicate Buries(a: Attempt, q: Quorum) {
    !a.seen.SeenConfirmed? && (q.QFailed? || q == QMissing(true))
  }

  function TickOuts(open: Open, id: Id, a: Attempt, sig: Sig, q: Quorum, exits: seq<Id>): seq<Out>
    requires forall i :: 0 <= i < |exits| ==> exits[i] in open
  {
    var confirm := if !IsEmergency(a) && id in open then [Ledger(EntryConfirmed(id, NotionalOf(a)))] else [];
    var release := if !IsEmergency(a) && id in open then [Ledger(EntryReleased(id))] else [];
    if q.QFinalized? then
      (if IsEmergency(a) then ExitOuts(open, exits, NotionalOf(a), HeldOf(a)) else confirm)
      + [Result(id, KeyOf(a), FINALIZED, COMPLETED, Tracked, IfExecuting(COMPLETED))]
    else if q.QConfirmed? then
      if a.seen.SeenConfirmed? then [] else confirm + [Line(AttemptObserved(id, KeyOf(a)), Executing)]
    else if Contradicts(q) && a.seen.SeenConfirmed? then
      [Line(AttemptReorgPending(id, KeyOf(a), sig), Stay), Halt(ReorgPending(sig))]
    else if q.QDivergent? then [Halt(RpcDivergence(sig))]
    else if Buries(a, q) then release + [Result(id, KeyOf(a), NOT_LANDED, FAILED, Tracked, IfExecuting(FAILED))]
    else []
  }

  /** Whether the visit keeps the tracker from releasing its pause. */
  predicate LeavesUncertain(a: Attempt, q: Quorum) {
    if Contradicts(q) && a.seen.SeenConfirmed? then true
    else if q.QDivergent? then true
    else a.seen.SeenReorg? && (q.QProcessed? || q.QUnavailable? || q == QMissing(false))
  }

  predicate TrackerReason(p: Pause) {
    p.Active? && (p.reason.ReorgPending? || p.reason.RpcDivergence?)
  }

  /** The tracker's own pauses are all but the emergency ones. */
  lemma TrackerReasonExactly(p: Pause)
    ensures TrackerReason(p) <==> p != Inactive && !p.reason.EmergencyCommand? && !p.reason.EmergencyAction?
  {
  }

  /** A release by the finality tracker, once wallet custody was read. */
  function Reconciled(c: Core): Core {
    Cleared(c.(journal := c.journal + [CustodyReconciled]))
  }
}
