/**
  What the executor journals.  A record keeps the payload fields the executor reads back; the
  instants and database annotations it only writes are not modelled.  The correlation id of an
  attempt's lines is its intent id.
*/
module Records {
  import opened Sums
  import opened ExposureLedger

  type Key = nat
  type Nonce = nat
  type Sig = nat

  datatype Effect = Increase | Neutral | Reduce

  datatype Authority = ObserveOnly | Paper | LiveApproval | LiveAuto

  /** The immutable facts of an intent: an entry as its envelope binds it, or an emergency close as planned. */
  datatype Intent = Intent(
    key: Key, nonce: Nonce, emergency: bool, authority: Authority, cluster: nat, effect: Effect,
    inputMint: Mint, outputMint: Mint, maxInput: nat, slippageBps: nat, protection: ProtectionMode,
    expiresAt: int, held: nat)

  /** The mint whose exposure the intent opens or closes. */
  function TradedMint(it: Intent): Mint {
    if it.emergency then it.inputMint else it.outputMint
  }

  datatype IntentState = CREATED | AUTHORIZED | APPROVED | EXECUTING | COMPLETED | EXPIRED | CANCELLED | FAILED

  datatype AttemptState =
    | PREPARED | SIGNED_NOT_SUBMITTED | SUBMITTED | CONFIRMED_PROVISIONAL | FINALIZED | REORG_PENDING | NOT_LANDED

  datatype PauseReason = ReorgPending(sig: Sig) | RpcDivergence(sig: Sig) | EmergencyCommand(id: nat) | EmergencyAction(id: nat)

  /** Who wrote a result: the submission itself, a recovery or the finality tracker. */
  datatype Author = Live | Recovered | Tracked

  datatype Record =
    | AttemptPrepared(id: Id, key: Key, nonce: Nonce, emergency: bool, mint: Mint, maxInput: nat, held: nat, expiresAt: int)
    | AttemptSigned(id: Id, key: Key, nonce: Nonce, sig: Option<Sig>, lastValid: Option<nat>)
    | AttemptSubmitted(id: Id, key: Key, nonce: Nonce, sig: Option<Sig>)
    | AttemptObserved(id: Id, key: Key)
    | AttemptReorgPending(id: Id, key: Key, missing: Sig)
    | AttemptResult(id: Id, key: Key, state: AttemptState, lifecycle: IntentState, author: Author)
    | ExposureUpdated(event: ExposureEvent)
    | PauseApplied(reason: PauseReason)
    | PauseCleared
    | CustodyReconciled
    | ShadowSynced(shadowSequence: nat)
    | EmergencyReceived(command: nat)
    | EmergencyRejected(command: nat)
    | ReconciledIntoDb(id: Id)

  // ---------------------------------------------------------------- what the journal says of an attempt

  datatype LastLine = NoLine | SignedLine(sig: Option<Sig>) | SubmittedLine(sig: Option<Sig>) | ResultLine

  datatype Seen = Unseen | SeenConfirmed | SeenReorg

  /** Everything the recovery and finality code derives from the lines of one attempt, plus counts of them. */
  datatype Attempt = Attempt(
    first: Option<Record>,        // first PREPARED line
    latest: Option<Record>,       // latest PREPARED line
    signedSince: bool,            // SIGNED or SUBMITTED after the latest PREPARED
    doneSince: bool,              // RESULT after the latest PREPARED
    signed: Option<Record>,       // latest SIGNED line
    last: LastLine,               // latest of SIGNED, SUBMITTED, RESULT
    seen: Seen,                   // latest of OBSERVED, REORG_PENDING
    signs: nat, submits: nat, results: nat, reservations: nat, releases: nat)

  const NO_ATTEMPT := Attempt(None, None, false, false, None, NoLine, Unseen, 0, 0, 0, 0, 0)

  /** The attempt a line speaks of; exposure lines speak of the intent their event names. */
  function Subject(r: Record): Option<Id> {
    match r
    case AttemptPrepared(id, _, _, _, _, _, _, _) => Some(id)
    case AttemptSigned(id, _, _, _, _) => Some(id)
    case AttemptSubmitted(id, _, _, _) => Some(id)
    case AttemptObserved(id, _) => Some(id)
    case AttemptReorgPending(id, _, _) => Some(id)
    case AttemptResult(id, _, _, _, _) => Some(id)
    case ExposureUpdated(e) => Some(e.intentId)
    case _ => None
  }

  function Observe(a: Attempt, r: Record): Attempt {
    match r
    case AttemptPrepared(_, _, _, _, _, _, _, _) =>
      a.(first := if a.first.None? then Some(r) else a.first, latest := Some(r), signedSince := false, doneSince := false)
    case AttemptSigned(_, _, _, sig, _) =>
      a.(signed := Some(r), signedSince := true, last := SignedLine(sig), signs := a.signs + 1)
    case AttemptSubmitted(_, _, _, sig) => a.(signedSince := true, last := SubmittedLine(sig), submits := a.submits + 1)
    case AttemptObserved(_, _) => a.(seen := SeenConfirmed)
    case AttemptReorgPending(_, _, _) => a.(seen := SeenReorg)
    case AttemptResult(_, _, _, _, _) => a.(doneSince := true, last := ResultLine, results := a.results + 1)
    case ExposureUpdated(EntryAuthorized(_, _, _, _)) => a.(reservations := a.reservations + 1)
    case ExposureUpdated(EntryReleased(_)) => a.(releases := a.releases + 1)
    case _ => a
  }

  function AttemptOf(j: seq<Record>, id: Id): Attempt {
    if j == [] then NO_ATTEMPT
    else
      var before := AttemptOf(j[..|j| - 1], id);
      if Subject(j[|j| - 1]) == Some(id) then Observe(before, j[|j| - 1]) else before
  }

  lemma AttemptNext(j: seq<Record>, r: Record, id: Id)
    ensures AttemptOf(j + [r], id) == if Subject(r) == Some(id) then Observe(AttemptOf(j, id), r) else AttemptOf(j, id)
  {
    assert (j + [r])[..|j|] == j;
  }

  /** Signed or submitted with no result yet: what a restart must reconcile. */
  predicate Unresolved(a: Attempt) {
    a.last.SignedLine? || a.last.SubmittedLine?
  }

  /** The signature recovery looks for: the one on the last line, else the one on the latest SIGNED line. */
  function SignatureOf(a: Attempt): Option<Sig> {
    if (a.last.SignedLine? || a.last.SubmittedLine?) && a.last.sig.Some? then a.last.sig
    else if a.signed.Some? && a.signed.value.AttemptSigned? then a.signed.value.sig
    else None
  }

  function LastValidOf(a: Attempt): Option<nat> {
    if a.signed.Some? && a.signed.value.AttemptSigned? then a.signed.value.lastValid else None
  }

  /** Notional recovery assumes: the input bound of the first PREPARED line, zero without one. */
  function NotionalOf(a: Attempt): nat {
    if a.first.Some? && a.first.value.AttemptPrepared? then a.first.value.maxInput else 0
  }

  function HeldOf(a: Attempt): nat {
    if a.first.Some? && a.first.value.AttemptPrepared? then a.first.value.held else 0
  }

  predicate IsEmergency(a: Attempt) {
    a.first.Some? && a.first.value.AttemptPrepared? && a.first.value.emergency
  }

  /** Which lines an attempt can show, whatever was appended. */
  lemma {:induction false} AttemptShape(j: seq<Record>, id: Id)
    ensures var a := AttemptOf(j, id);
            && (a.first.Some? ==> a.first.value.AttemptPrepared? && a.first.value.id == id)
            && (a.first.Some? <==> a.latest.Some?) && (a.latest.Some? ==> a.latest.value.AttemptPrepared?)
            && (a.signed.Some? ==> a.signed.value.AttemptSigned?)
            && (a.signed.Some? <==> a.signs > 0) && (a.last.SignedLine? ==> a.signed.Some?)
            && (a.results == 0 ==> !a.last.ResultLine? && !a.doneSince)
  {
    if j != [] {
      AttemptShape(j[..|j| - 1], id);
    }
  }

  // ---------------------------------------------------------------- insertion order of the Maps the code builds

  function Remember(ids: seq<Id>, id: Id): seq<Id> {
    if id in ids then ids else ids + [id]
  }

  /** Ids in the order their first PREPARED line appears. */
  function PreparedIds(j: seq<Record>): seq<Id> {
    if j == [] then []
    else
      var before := PreparedIds(j[..|j| - 1]);
      if j[|j| - 1].AttemptPrepared? then Remember(before, j[|j| - 1].id) else before
  }

  predicate MovesLast(r: Record) {
    r.AttemptSigned? || r.AttemptSubmitted? || r.AttemptResult?
  }

  /** Ids in the order their first SIGNED, SUBMITTED or RESULT line appears. */
  function TouchedIds(j: seq<Record>): seq<Id> {
    if j == [] then []
    else
      var before := TouchedIds(j[..|j| - 1]);
      if MovesLast(j[|j| - 1]) then Remember(before, j[|j| - 1].id) else before
  }

  function OnlyUnresolved(j: seq<Record>, ids: seq<Id>): seq<Id> {
    if ids == [] then []
    else if Unresolved(AttemptOf(j, ids[0])) then [ids[0]] + OnlyUnresolved(j, ids[1..])
    else OnlyUnresolved(j, ids[1..])
  }

  function UnresolvedIds(j: seq<Record>): seq<Id> {
    OnlyUnresolved(j, TouchedIds(j))
  }

  lemma {:induction false} PreparedIdsMembers(j: seq<Record>, id: Id)
    ensures id in PreparedIds(j) <==> AttemptOf(j, id).latest.Some?
  {
    if j != [] {
      PreparedIdsMembers(j[..|j| - 1], id);
    }
  }

  lemma {:induction false} TouchedIdsMembers(j: seq<Record>, id: Id)
    ensures id in TouchedIds(j) <==> !AttemptOf(j, id).last.NoLine?
  {
    if j != [] {
      TouchedIdsMembers(j[..|j| - 1], id);
    }
  }

  lemma {:induction false} OnlyUnresolvedMembers(j: seq<Record>, ids: seq<Id>, id: Id)
    ensures id in OnlyUnresolved(j, ids) <==> id in ids && Unresolved(AttemptOf(j, id))
    decreases |ids|
  {
    if ids != [] {
      OnlyUnresolvedMembers(j, ids[1..], id);
    }
  }

  lemma UnresolvedIdsMembers(j: seq<Record>, id: Id)
    ensures id in UnresolvedIds(j) <==> Unresolved(AttemptOf(j, id))
  {
    TouchedIdsMembers(j, id);
    OnlyUnresolvedMembers(j, TouchedIds(j), id);
  }

  function UsedNonces(j: seq<Record>): set<Nonce> {
    set r | r in j && (r.AttemptSigned? || r.AttemptSubmitted?) :: r.nonce
  }

  // ---------------------------------------------------------------- other state rebuilt from the journal

  function ExposureEvents(j: seq<Record>): seq<ExposureEvent> {
    if j == [] then []
    else if j[|j| - 1].ExposureUpdated? then ExposureEvents(j[..|j| - 1]) + [j[|j| - 1].event]
    else ExposureEvents(j[..|j| - 1])
  }

  datatype Pause = Inactive | Active(reason: PauseReason)

  function LastPause(j: seq<Record>): Pause {
    if j == [] then Inactive
    else if j[|j| - 1].PauseApplied? then Active(j[|j| - 1].reason)
    else if j[|j| - 1].PauseCleared? then Inactive
    else LastPause(j[..|j| - 1])
  }

  function LastShadow(j: seq<Record>): Option<nat> {
    if j == [] then None
    else if j[|j| - 1].ShadowSynced? then Some(j[|j| - 1].shadowSequence)
    else LastShadow(j[..|j| - 1])
  }
}
