/**
  Authority verification and the mode gate.  Signature checks are abstract booleans, and a hash of
  terms is the terms themselves (an injective hash).
*/
module Authority {
  import opened Sums
  import opened ExposureLedger
  import opened Records

  // ---------------------------------------------------------------- mode gate

  datatype Activity = Off | Starting | Watch | ActiveNow | EventWindow | WindDown

  datatype ModeFacts = ModeFacts(activity: Activity, authority: Authority, paused: bool, localPause: bool, liveEnabled: bool)

  datatype Gate = Open | Shut(reason: GateReason)

  datatype GateReason = LOCAL_PAUSE | PAUSED | ACTIVITY_FORBIDS_ENTRIES | AUTHORITY_FORBIDS_LIVE | LIVE_CAPABILITY_DISABLED

  function ModeGate(f: ModeFacts, effect: Effect): Gate {
    if effect == Reduce then Open
    else if f.localPause then Shut(LOCAL_PAUSE)
    else if f.paused then Shut(PAUSED)
    else if f.activity != ActiveNow && f.activity != EventWindow then Shut(ACTIVITY_FORBIDS_ENTRIES)
    else if f.authority != LiveApproval && f.authority != LiveAuto then Shut(AUTHORITY_FORBIDS_LIVE)
    else if !f.liveEnabled then Shut(LIVE_CAPABILITY_DISABLED)
    else Open
  }

  /** When the gate is open, and which reason it gives otherwise: the first that applies. */
  lemma GateExactly(f: ModeFacts, effect: Effect)
    ensures ModeGate(f, effect).Open? <==>
              || effect == Reduce
              || (!f.localPause && !f.paused && (f.activity == ActiveNow || f.activity == EventWindow)
                  && (f.authority == LiveApproval || f.authority == LiveAuto) && f.liveEnabled)
    ensures effect != Reduce ==>
              && (ModeGate(f, effect) == Shut(LOCAL_PAUSE) <==> f.localPause)
              && (ModeGate(f, effect) == Shut(PAUSED) <==> !f.localPause && f.paused)
              && (ModeGate(f, effect) == Shut(ACTIVITY_FORBIDS_ENTRIES) <==>
                    !f.localPause && !f.paused && f.activity in {Off, Starting, Watch, WindDown})
              && (ModeGate(f, effect) == Shut(AUTHORITY_FORBIDS_LIVE) <==>
                    !f.localPause && !f.paused && f.activity in {ActiveNow, EventWindow} && f.authority in {ObserveOnly, Paper})
              && (ModeGate(f, effect) == Shut(LIVE_CAPABILITY_DISABLED) <==>
                    !f.localPause && !f.paused && f.activity in {ActiveNow, EventWindow} && f.authority in {LiveApproval, LiveAuto} && !f.liveEnabled)
  {
  }

  predicate Enters(a: Activity) {
    a == ActiveNow || a == EventWindow
  }

  function Rank(a: Authority): nat {
    match a
    case ObserveOnly => 0
    case Paper => 1
    case LiveApproval => 2
    case LiveAuto => 3
  }

  /** `g` lifts no restriction of `f`: no pause is gone, no capability is new, the activity is no looser and the authority no higher. */
  predicate NoLooser(g: ModeFacts, f: ModeFacts) {
    && (f.paused ==> g.paused) && (f.localPause ==> g.localPause) && (g.liveEnabled ==> f.liveEnabled)
    && (Enters(g.activity) ==> Enters(f.activity)) && Rank(g.authority) <= Rank(f.authority)
  }

  /** Fresher facts that lift no restriction never open a gate that was shut, and risk reduction is never refused. */
  lemma GateOnlyTightens(f: ModeFacts, g: ModeFacts, effect: Effect)
    requires NoLooser(g, f)
    ensures ModeGate(g, effect).Open? ==> ModeGate(f, effect).Open?
    ensures ModeGate(g, Reduce).Open?
    ensures g.localPause ==> (ModeGate(g, effect).Open? <==> effect == Reduce)
  {
  }

  // ---------------------------------------------------------------- the stored row and the signed terms

  datatype Constraints = Constraints(maxSlippageBps: int, maxPriceImpactBps: int, chaseToleranceBps: int, maxQuoteAgeMs: int)

  datatype Row = Row(
    id: Id, accountId: nat, assetId: nat, strategyVersionId: nat, sleeveId: Option<nat>, action: nat, side: nat, effect: Effect,
    inputMint: Mint, outputMint: Mint, maxInput: nat, actionCycleId: nat, cutoffVersion: nat, constraints: Constraints,
    targetLotIds: seq<nat>, approvalRequired: bool, expiresAt: int)

  datatype Terms = Terms(
    intentId: Id, accountId: nat, assetId: nat, strategyVersionId: nat, sleeveId: Option<nat>, action: nat, side: nat, effect: Effect,
    inputMint: Mint, outputMint: Mint, maxInput: nat, actionCycleId: nat, cutoffVersion: nat,
    maxSlippageBps: int, maxPriceImpactBps: int, chaseToleranceBps: int, maxQuoteAgeMs: int,
    targetLotIds: seq<nat>, approvalRequired: bool, issuedAt: int, expiresAt: int, authority: Authority, nonce: Nonce, rest: nat)

  /** The row an intent with these terms has. */
  function RowOf(p: Terms): Row {
    Row(p.intentId, p.accountId, p.assetId, p.strategyVersionId, p.sleeveId, p.action, p.side, p.effect,
        p.inputMint, p.outputMint, p.maxInput, p.actionCycleId, p.cutoffVersion,
        Constraints(p.maxSlippageBps, p.maxPriceImpactBps, p.chaseToleranceBps, p.maxQuoteAgeMs),
        p.targetLotIds, p.approvalRequired, p.expiresAt)
  }

  datatype Field =
    | FId | FAccountId | FAssetId | FStrategyVersionId | FSleeveId | FAction | FSide | FExposureEffect | FInputMint | FOutputMint
    | FMaxInputAmount | FActionCycleId | FClearedCutoffVersion | FMaxSlippageBps | FMaxPriceImpactBps | FChaseToleranceBps
    | FMaxQuoteAgeMs | FTargetLotIds | FApprovalRequired | FExpiresAt

  predicate Differs(s: Row, p: Terms, f: Field) {
    match f
    case FId => s.id != p.intentId
    case FAccountId => s.accountId != p.accountId
    case FAssetId => s.assetId != p.assetId
    case FStrategyVersionId => s.strategyVersionId != p.strategyVersionId
    case FSleeveId => s.sleeveId != p.sleeveId
    case FAction => s.action != p.action
    case FSide => s.side != p.side
    case FExposureEffect => s.effect != p.effect
    case FInputMint => s.inputMint != p.inputMint
    case FOutputMint => s.outputMint != p.outputMint
    case FMaxInputAmount => s.maxInput != p.maxInput
    case FActionCycleId => s.actionCycleId != p.actionCycleId
    case FClearedCutoffVersion => s.cutoffVersion != p.cutoffVersion
    case FMaxSlippageBps => s.constraints.maxSlippageBps != p.maxSlippageBps
    case FMaxPriceImpactBps => s.constraints.maxPriceImpactBps != p.maxPriceImpactBps
    case FChaseToleranceBps => s.constraints.chaseToleranceBps != p.chaseToleranceBps
    case FMaxQuoteAgeMs => s.constraints.maxQuoteAgeMs != p.maxQuoteAgeMs
    case FTargetLotIds => s.targetLotIds != p.targetLotIds
    case FApprovalRequired => s.approvalRequired != p.approvalRequired
    case FExpiresAt => s.expiresAt != p.expiresAt
  }

  const FIELDS: seq<Field> := [
    FId, FAccountId, FAssetId, FStrategyVersionId, FSleeveId, FAction, FSide, FExposureEffect, FInputMint, FOutputMint,
    FMaxInputAmount, FActionCycleId, FClearedCutoffVersion, FMaxSlippageBps, FMaxPriceImpactBps, FChaseToleranceBps,
    FMaxQuoteAgeMs, FTargetLotIds, FApprovalRequired, FExpiresAt]

  function Differing(s: Row, p: Terms, fields: seq<Field>): seq<Field> {
    if fields == [] then []
    else (if Differs(s, p, fields[0]) then [fields[0]] else []) + Differing(s, p, fields[1..])
  }

  function TamperedFields(s: Row, p: Terms): seq<Field> {
    Differing(s, p, FIELDS)
  }

  lemma {:induction false} NoneDiffers(s: Row, p: Terms, fields: seq<Field>)
    ensures Differing(s, p, fields) == [] <==> forall i :: 0 <= i < |fields| ==> !Differs(s, p, fields[i])
    decreases |fields|
  {
    if fields != [] {
      NoneDiffers(s, p, fields[1..]);
      assert forall i :: 0 <= i < |fields| - 1 ==> fields[1..][i] == fields[i + 1];
      assert forall i :: 0 < i < |fields| ==> fields[i] == fields[1..][i - 1];
    }
  }

  lemma FirstFieldsAgree(s: Row, p: Terms)
    requires forall i :: 0 <= i < |FIELDS| ==> !Differs(s, p, FIELDS[i])
    ensures s.id == p.intentId && s.accountId == p.accountId && s.assetId == p.assetId
    ensures s.strategyVersionId == p.strategyVersionId && s.sleeveId == p.sleeveId && s.action == p.action && s.side == p.side
    ensures s.effect == p.effect && s.inputMint == p.inputMint && s.outputMint == p.outputMint
  {
    assert !Differs(s, p, FIELDS[0]) && !Differs(s, p, FIELDS[1]) && !Differs(s, p, FIELDS[2]) && !Differs(s, p, FIELDS[3]);
    assert !Differs(s, p, FIELDS[4]) && !Differs(s, p, FIELDS[5]) && !Differs(s, p, FIELDS[6]);
    assert !Differs(s, p, FIELDS[7]) && !Differs(s, p, FIELDS[8]) && !Differs(s, p, FIELDS[9]);
  }

  lemma LastFieldsAgree(s: Row, p: Terms)
    requires forall i :: 0 <= i < |FIELDS| ==> !Differs(s, p, FIELDS[i])
    ensures s.maxInput == p.maxInput && s.actionCycleId == p.actionCycleId && s.cutoffVersion == p.cutoffVersion
    ensures s.constraints == Constraints(p.maxSlippageBps, p.maxPriceImpactBps, p.chaseToleranceBps, p.maxQuoteAgeMs)
    ensures s.targetLotIds == p.targetLotIds && s.approvalRequired == p.approvalRequired && s.expiresAt == p.expiresAt
  {
    assert !Differs(s, p, FIELDS[10]) && !Differs(s, p, FIELDS[11]) && !Differs(s, p, FIELDS[12]);
    assert !Differs(s, p, FIELDS[13]) && !Differs(s, p, FIELDS[14]) && !Differs(s, p, FIELDS[15]) && !Differs(s, p, FIELDS[16]);
    assert !Differs(s, p, FIELDS[17]) && !Differs(s, p, FIELDS[18]) && !Differs(s, p, FIELDS[19]);
  }

  /** No tampered field exactly when the stored row is the row of the signed terms. */
  lemma TamperingDetected(s: Row, p: Terms)
    ensures TamperedFields(s, p) == [] <==> s == RowOf(p)
  {
    NoneDiffers(s, p, FIELDS);
    if TamperedFields(s, p) == [] {
      FirstFieldsAgree(s, p);
      LastFieldsAgree(s, p);
    }
  }

  // ---------------------------------------------------------------- approval

  datatype Payload = Payload(terms: Terms, intentHash: Terms)

  datatype Grant = Grant(authorizationHash: Payload, intentId: Id, stepUp: bool, grantedAt: int, expiresAt: int, nonce: Nonce)

  datatype BindingFailure = AUTHORIZATION_HASH_MISMATCH | INTENT_MISMATCH | NOT_YET_VALID | EXPIRED_GRANT | GRANT_NONCE_REPLAYED | STEP_UP_REQUIRED

  function ApprovalBinding(g: Grant, hash: Payload, intentId: Id, now: int, usedNonces: set<Nonce>, requireStepUp: bool): Option<BindingFailure> {
    if g.authorizationHash != hash then Some(AUTHORIZATION_HASH_MISMATCH)
    else if g.intentId != intentId then Some(INTENT_MISMATCH)
    else if now < g.grantedAt then Some(NOT_YET_VALID)
    else if now >= g.expiresAt then Some(EXPIRED_GRANT)
    else if g.nonce in usedNonces then Some(GRANT_NONCE_REPLAYED)
    else if requireStepUp && !g.stepUp then Some(STEP_UP_REQUIRED)
    else None
  }

  /** A grant binds at most one authorization: changing any signed term unbinds it. */
  lemma GrantBindsOnePayload(g: Grant, a: Payload, b: Payload, now: int, usedNonces: set<Nonce>, stepUp: bool)
    requires ApprovalBinding(g, a, a.terms.intentId, now, usedNonces, stepUp) == None
    requires ApprovalBinding(g, b, b.terms.intentId, now, usedNonces, stepUp) == None
    ensures a == b
  {
  }

  // ---------------------------------------------------------------- verifyAuthority

  datatype Approval = Approval(grant: Grant, signatureValid: bool)

  /** `payload` is absent when it does not parse; `signatureValid` speaks of the accepted keys. */
  datatype Request = Request(
    keyId: nat, keys: set<nat>, acceptedKeyIds: set<nat>, signatureValid: bool, payload: Option<Payload>, stored: Option<Row>,
    approval: Option<Approval>, usedNonces: set<Nonce>, mode: ModeFacts, now: int, maxSkewMs: int)

  datatype AuthorityRejection =
    | AUTHORIZER_KEY_NOT_ACCEPTED | AUTHORIZATION_SIGNATURE_INVALID | AUTHORIZATION_MALFORMED | INTENT_HASH_MISMATCH
    | AUTHORIZATION_EXPIRED | AUTHORIZATION_NOT_YET_VALID | NONCE_REPLAYED | INTENT_RECORD_MISSING | DB_TAMPER_DETECTED
    | APPROVAL_REQUIRED | APPROVAL_SIGNATURE_INVALID | APPROVAL_BINDING_FAILED | MODE_GATE

  datatype AuthorityVerdict = Authorized(payload: Payload) | Denied(reasons: seq<AuthorityRejection>)

  predicate NeedsApproval(p: Terms) {
    p.approvalRequired || p.authority == LiveApproval
  }

  predicate KeyPinned(q: Request) {
    q.keyId in q.keys && q.keyId in q.acceptedKeyIds
  }

  /** The approval is there, signed, and bound to exactly this payload. */
  predicate Approved(q: Request, p: Payload) {
    && q.approval.Some? && q.approval.value.signatureValid
    && ApprovalBinding(q.approval.value.grant, p, p.terms.intentId, q.now, q.usedNonces, p.terms.effect == Increase) == None
  }

  /** What acceptance must mean. */
  predicate Genuine(q: Request, p: Payload) {
    && KeyPinned(q) && q.signatureValid && q.payload == Some(p) && p.intentHash == p.terms
    && p.terms.issuedAt - q.maxSkewMs <= q.now < p.terms.expiresAt
    && p.terms.nonce !in q.usedNonces
    && q.stored == Some(RowOf(p.terms))
    && (NeedsApproval(p.terms) ==> Approved(q, p))
    && ModeGate(q.mode, p.terms.effect).Open?
  }

  /** The defects collected once key, signature and shape are in order. */
  predicate Fails(q: Request, p: Payload, r: AuthorityRejection) {
    match r
    case INTENT_HASH_MISMATCH => p.intentHash != p.terms
    case AUTHORIZATION_EXPIRED => q.now >= p.terms.expiresAt
    case AUTHORIZATION_NOT_YET_VALID => p.terms.issuedAt > q.now + q.maxSkewMs
    case NONCE_REPLAYED => p.terms.nonce in q.usedNonces
    case INTENT_RECORD_MISSING => q.stored.None?
    case DB_TAMPER_DETECTED => q.stored.Some? && q.stored.value != RowOf(p.terms)
    case APPROVAL_REQUIRED => NeedsApproval(p.terms) && q.approval.None?
    case APPROVAL_SIGNATURE_INVALID => NeedsApproval(p.terms) && q.approval.Some? && !q.approval.value.signatureValid
    case APPROVAL_BINDING_FAILED =>
      NeedsApproval(p.terms) && q.approval.Some? && q.approval.value.signatureValid && !Approved(q, p)
    case MODE_GATE => ModeGate(q.mode, p.terms.effect).Shut?
    case _ => false
  }

  predicate OfTerms(r: AuthorityRejection) {
    r == INTENT_HASH_MISMATCH || r == AUTHORIZATION_EXPIRED || r == AUTHORIZATION_NOT_YET_VALID || r == NONCE_REPLAYED
  }

  /** The approval an authorization needs: granted by a valid signature for this very payload and intent, within its
      validity, with an unspent nonce, and with step-up where exposure increases. */
  predicate GrantedFor(g: Grant, p: Payload, now: int, usedNonces: set<Nonce>) {
    && g.authorizationHash == p && g.intentId == p.terms.intentId && g.grantedAt <= now < g.expiresAt && g.nonce !in usedNonces
    && (p.terms.effect == Increase ==> g.stepUp)
  }

  /** The binding fails with the first reason that applies, and not at all exactly when none does. */
  lemma BindingExactly(g: Grant, hash: Payload, intentId: Id, now: int, usedNonces: set<Nonce>, stepUp: bool)
    ensures var f := ApprovalBinding(g, hash, intentId, now, usedNonces, stepUp);
            && (f.None? <==> g.authorizationHash == hash && g.intentId == intentId && g.grantedAt <= now < g.expiresAt
                             && g.nonce !in usedNonces && (stepUp ==> g.stepUp))
            && (f == Some(EXPIRED_GRANT) <==> g.authorizationHash == hash && g.intentId == intentId && g.grantedAt <= now && g.expiresAt <= now)
            && (f == Some(NOT_YET_VALID) <==> g.authorizationHash == hash && g.intentId == intentId && now < g.grantedAt)
            && (f == Some(GRANT_NONCE_REPLAYED) <==>
                  g.authorizationHash == hash && g.intentId == intentId && g.grantedAt <= now < g.expiresAt && g.nonce in usedNonces)
            && (f == Some(AUTHORIZATION_HASH_MISMATCH) <==> g.authorizationHash != hash)
            && (f == Some(INTENT_MISMATCH) <==> g.authorizationHash == hash && g.intentId != intentId)
  {
  }

  /** The stored row says what was signed, field by field. */
  predicate SameTerms(r: Row, p: Terms) {
    && r.id == p.intentId && r.accountId == p.accountId && r.assetId == p.assetId && r.strategyVersionId == p.strategyVersionId
    && r.sleeveId == p.sleeveId && r.action == p.action && r.side == p.side && r.effect == p.effect
    && r.inputMint == p.inputMint && r.outputMint == p.outputMint && r.maxInput == p.maxInput
    && r.actionCycleId == p.actionCycleId && r.cutoffVersion == p.cutoffVersion
    && r.constraints.maxSlippageBps == p.maxSlippageBps && r.constraints.maxPriceImpactBps == p.maxPriceImpactBps
    && r.constraints.chaseToleranceBps == p.chaseToleranceBps && r.constraints.maxQuoteAgeMs == p.maxQuoteAgeMs
    && r.targetLotIds == p.targetLotIds && r.approvalRequired == p.approvalRequired && r.expiresAt == p.expiresAt
  }

  /** Acceptance spelled out down to the clock, the row, the grant and the mode. */
  lemma GenuineExactly(q: Request, p: Payload)
    ensures Genuine(q, p) <==>
              && q.keyId in q.keys && q.keyId in q.acceptedKeyIds && q.signatureValid && q.payload == Some(p) && p.intentHash == p.terms
              && q.now < p.terms.expiresAt && p.terms.issuedAt <= q.now + q.maxSkewMs && p.terms.nonce !in q.usedNonces
              && q.stored.Some? && SameTerms(q.stored.value, p.terms)
              && (p.terms.approvalRequired || p.terms.authority == LiveApproval ==>
                    q.approval.Some? && q.approval.value.signatureValid && GrantedFor(q.approval.value.grant, p, q.now, q.usedNonces))
              && (p.terms.effect == Reduce
                  || (!q.mode.localPause && !q.mode.paused && q.mode.activity in {ActiveNow, EventWindow}
                      && q.mode.authority in {LiveApproval, LiveAuto} && q.mode.liveEnabled))
  {
    GateExactly(q.mode, p.terms.effect);
    if q.approval.Some? {
      BindingExactly(q.approval.value.grant, p, p.terms.intentId, q.now, q.usedNonces, p.terms.effect == Increase);
    }
  }

  /** Which defects are reported, spelled out. */
  lemma FailsExactly(q: Request, p: Payload)
    ensures Fails(q, p, AUTHORIZATION_EXPIRED) <==> p.terms.expiresAt <= q.now
    ensures Fails(q, p, AUTHORIZATION_NOT_YET_VALID) <==> q.now + q.maxSkewMs < p.terms.issuedAt
    ensures Fails(q, p, INTENT_HASH_MISMATCH) <==> p.intentHash != p.terms
    ensures Fails(q, p, NONCE_REPLAYED) <==> p.terms.nonce in q.usedNonces
    ensures Fails(q, p, INTENT_RECORD_MISSING) <==> q.stored.None?
    ensures Fails(q, p, DB_TAMPER_DETECTED) <==> q.stored.Some? && !SameTerms(q.stored.value, p.terms)
    ensures var needed := p.terms.approvalRequired || p.terms.authority == LiveApproval;
            && (Fails(q, p, APPROVAL_REQUIRED) <==> needed && q.approval.None?)
            && (Fails(q, p, APPROVAL_SIGNATURE_INVALID) <==> needed && q.approval.Some? && !q.approval.value.signatureValid)
            && (Fails(q, p, APPROVAL_BINDING_FAILED) <==>
                  needed && q.approval.Some? && q.approval.value.signatureValid && !GrantedFor(q.approval.value.grant, p, q.now, q.usedNonces))
    ensures Fails(q, p, MODE_GATE) <==>
              p.terms.effect != Reduce
              && (q.mode.localPause || q.mode.paused || q.mode.activity in {Off, Starting, Watch, WindDown}
                  || q.mode.authority in {ObserveOnly, Paper} || !q.mode.liveEnabled)
  {
    GateExactly(q.mode, p.terms.effect);
    if q.approval.Some? {
      BindingExactly(q.approval.value.grant, p, p.terms.intentId, q.now, q.usedNonces, p.terms.effect == Increase);
    }
  }

  /** Accepted exactly when genuine; a stale nonce is the only reason exactly when it is the only defect. */
  method VerifyAuthority(q: Request) returns (v: AuthorityVerdict)
    ensures v.Authorized? <==> q.payload.Some? && Genuine(q, q.payload.value)
    ensures v.Authorized? ==> Some(v.payload) == q.payload
    ensures !KeyPinned(q) ==> v == Denied([AUTHORIZER_KEY_NOT_ACCEPTED])
    ensures KeyPinned(q) && !q.signatureValid ==> v == Denied([AUTHORIZATION_SIGNATURE_INVALID])
    ensures KeyPinned(q) && q.signatureValid && q.payload.None? ==> v == Denied([AUTHORIZATION_MALFORMED])
    ensures KeyPinned(q) && q.signatureValid && q.payload.Some? && v.Denied? ==>
              forall r: AuthorityRejection :: r in v.reasons <==> Fails(q, q.payload.value, r)
    ensures v.Denied? ==>
              ((forall i :: 0 <= i < |v.reasons| ==> v.reasons[i] == NONCE_REPLAYED) <==>
               q.payload.Some? && Genuine(q.(usedNonces := q.usedNonces - {q.payload.value.terms.nonce}), q.payload.value)
               && GrantUnspent(q))
  {
    if !KeyPinned(q) {
      v := Denied([AUTHORIZER_KEY_NOT_ACCEPTED]);
      assert v.reasons[0] != NONCE_REPLAYED;
      return;
    }
    if !q.signatureValid {
      v := Denied([AUTHORIZATION_SIGNATURE_INVALID]);
      assert v.reasons[0] != NONCE_REPLAYED;
      return;
    }
    if q.payload.None? {
      v := Denied([AUTHORIZATION_MALFORMED]);
      assert v.reasons[0] != NONCE_REPLAYED;
      return;
    }
    var p := q.payload.value;
    var early := TermReasons(q, p);
    var late := ContextReasons(q, p);
    TamperingDetectedIn(q, p);
    if early + late == [] {
      v := Authorized(p);
    } else {
      OnlyNonce(early, late);
      v := Denied(early + late);
    }
  }

  /** The grant's own nonce was not used before, whatever becomes of the authorization's. */
  predicate GrantUnspent(q: Request) {
    q.payload.Some? && NeedsApproval(q.payload.value.terms) && q.approval.Some? ==> q.approval.value.grant.nonce !in q.usedNonces
  }

  ghost predicate AllNonce(reasons: seq<AuthorityRejection>) {
    forall i :: 0 <= i < |reasons| ==> reasons[i] == NONCE_REPLAYED
  }

  lemma OnlyNonce(early: seq<AuthorityRejection>, late: seq<AuthorityRejection>)
    ensures AllNonce(early + late) <==> AllNonce(early) && AllNonce(late)
  {
    assert forall i :: 0 <= i < |early| ==> early[i] == (early + late)[i];
    assert forall i :: 0 <= i < |late| ==> late[i] == (early + late)[|early| + i];
  }

  lemma TamperingDetectedIn(q: Request, p: Payload)
    ensures q.stored.Some? ==> (TamperedFields(q.stored.value, p.terms) == [] <==> q.stored.value == RowOf(p.terms))
  {
    if q.stored.Some? {
      TamperingDetected(q.stored.value, p.terms);
    }
  }

  /** What the signed terms alone and the clock decide. */
  method TermReasons(q: Request, p: Payload) returns (reasons: seq<AuthorityRejection>)
    ensures reasons == [] <==> p.intentHash == p.terms && p.terms.issuedAt - q.maxSkewMs <= q.now < p.terms.expiresAt && p.terms.nonce !in q.usedNonces
    ensures forall r: AuthorityRejection :: r in reasons <==> OfTerms(r) && Fails(q, p, r)
    ensures AllNonce(reasons) <==> p.intentHash == p.terms && p.terms.issuedAt - q.maxSkewMs <= q.now < p.terms.expiresAt
  {
    reasons := [];
    if p.intentHash != p.terms {
      reasons := reasons + [INTENT_HASH_MISMATCH];
    }
    if q.now >= p.terms.expiresAt {
      reasons := reasons + [AUTHORIZATION_EXPIRED];
    }
    if p.terms.issuedAt > q.now + q.maxSkewMs {
      reasons := reasons + [AUTHORIZATION_NOT_YET_VALID];
    }
    ghost var others := reasons;
    if p.terms.nonce in q.usedNonces {
      reasons := reasons + [NONCE_REPLAYED];
    }
    assert others != [] ==> reasons[0] == others[0] != NONCE_REPLAYED;
  }

  predicate OfApproval(r: AuthorityRejection) {
    r == APPROVAL_REQUIRED || r == APPROVAL_SIGNATURE_INVALID || r == APPROVAL_BINDING_FAILED
  }

  method ApprovalReasons(q: Request, p: Payload) returns (reasons: seq<AuthorityRejection>)
    ensures reasons == [] <==> (NeedsApproval(p.terms) ==> Approved(q, p))
    ensures forall r: AuthorityRejection :: r in reasons <==> OfApproval(r) && Fails(q, p, r)
    ensures |reasons| <= 1
  {
    reasons := [];
    if NeedsApproval(p.terms) {
      if q.approval.None? {
        reasons := reasons + [APPROVAL_REQUIRED];
      } else if !q.approval.value.signatureValid {
        reasons := reasons + [APPROVAL_SIGNATURE_INVALID];
      } else if ApprovalBinding(q.approval.value.grant, p, p.terms.intentId, q.now, q.usedNonces, p.terms.effect == Increase).Some? {
        reasons := reasons + [APPROVAL_BINDING_FAILED];
      }
    }
  }

  /** What the stored row, the approval and the mode decide. */
  method ContextReasons(q: Request, p: Payload) returns (reasons: seq<AuthorityRejection>)
    ensures reasons == [] <==>
              && q.stored.Some? && TamperedFields(q.stored.value, p.terms) == []
              && (NeedsApproval(p.terms) ==> Approved(q, p)) && ModeGate(q.mode, p.terms.effect).Open?
    ensures forall r: AuthorityRejection :: r in reasons <==> !OfTerms(r) && Fails(q, p, r)
    ensures reasons != [] ==> !AllNonce(reasons)
  {
    TamperingDetectedIn(q, p);
    reasons := [];
    if q.stored.None? {
      reasons := [INTENT_RECORD_MISSING];
    } else if TamperedFields(q.stored.value, p.terms) != [] {
      reasons := [DB_TAMPER_DETECTED];
    }
    assert forall r: AuthorityRejection :: r in reasons <==> (r == INTENT_RECORD_MISSING || r == DB_TAMPER_DETECTED) && Fails(q, p, r);
    var approval := ApprovalReasons(q, p);
    reasons := reasons + approval;
    if ModeGate(q.mode, p.terms.effect).Shut? {
      reasons := reasons + [MODE_GATE];
    }
    assert reasons != [] ==> reasons[0] in reasons;
  }

  /** The same envelope delivered again after its nonce was spent, everything else still in order, is
      no longer genuine, and would be without the nonce: the case `submit` reports as a duplicate. */
  lemma RedeliveryDiffersByNonce(q: Request, p: Payload)
    requires Genuine(q, p)
    requires q.approval.Some? ==> q.approval.value.grant.nonce != p.terms.nonce
    ensures var again := q.(usedNonces := q.usedNonces + {p.terms.nonce});
            !Genuine(again, p) && Genuine(again.(usedNonces := again.usedNonces - {p.terms.nonce}), p)
            && (NeedsApproval(p.terms) ==> GrantUnspent(again))
  {
    assert q.usedNonces + {p.terms.nonce} - {p.terms.nonce} == q.usedNonces;
  }
}
