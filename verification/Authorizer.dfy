/**
  The risk-authorizer: its ledger of signed authorizations, the order in which an entry is decided,
  and the service that serialises decisions.  Release verification, the emergency-route verdict and
  the risk evaluation are parameters; hashes are compared as values.
*/
module Authorizer {
  import opened Sums
  import opened Projection

  type Nonce = nat
  type Cycle = nat
  type Sleeve = nat

  // ---------------------------------------------------------------- the ledger

  datatype Issued = Issued(
    nonce: Nonce, intentId: nat, cycle: Cycle, sleeve: Option<Sleeve>, increase: bool, maxInput: nat, issuedAt: int, expiresAt: int,
    consumedAt: Option<int>)

  datatype Book = Book(entries: map<Nonce, Issued>, byCycle: map<Cycle, Nonce>)

  predicate OpenAt(e: Issued, now: int) {
    e.consumedAt.None? && e.expiresAt > now
  }

  /** With no sleeve given, every entry counts. */
  predicate Counts(e: Issued, now: int, sleeve: Option<Sleeve>) {
    OpenAt(e, now) && e.increase && (sleeve.None? || e.sleeve == sleeve)
  }

  function Pendings(entries: map<Nonce, Issued>, now: int, sleeve: Option<Sleeve>): map<Nonce, nat> {
    map n | n in entries && Counts(entries[n], now, sleeve) :: entries[n].maxInput
  }

  ghost function Pending(entries: map<Nonce, Issued>, now: int, sleeve: Option<Sleeve>): nat {
    Sum(Pendings(entries, now, sleeve))
  }

  function AfterIssue(b: Book, e: Issued): Book {
    if e.nonce in b.entries then b else Book(b.entries[e.nonce := e], b.byCycle[e.cycle := e.nonce])
  }

  class AuthorizationLedger {
    var entries: map<Nonce, Issued>
    var byCycle: map<Cycle, Nonce>

    function View(): Book
      reads this
    {
      Book(entries, byCycle)
    }

    constructor ()
      ensures View() == Book(map[], map[])
    {
      entries, byCycle := map[], map[];
    }

    /** Returns false, and changes nothing, if the nonce was already issued; the source throws there. */
    method Issue(e: Issued) returns (ok: bool)
      modifies this
      ensures ok <==> e.nonce !in old(entries)
      ensures View() == AfterIssue(old(View()), e)
    {
      if e.nonce in entries {
        return false;
      }
      entries := entries[e.nonce := e];
      byCycle := byCycle[e.cycle := e.nonce];
      return true;
    }

    method Consume(nonce: Nonce, at: int) returns (ok: bool)
      modifies this
      ensures ok <==> nonce in old(entries) && old(entries)[nonce].consumedAt.None?
      ensures byCycle == old(byCycle)
      ensures entries == if ok then old(entries)[nonce := old(entries)[nonce].(consumedAt := Some(at))] else old(entries)
    {
      if nonce !in entries || entries[nonce].consumedAt.Some? {
        return false;
      }
      entries := entries[nonce := entries[nonce].(consumedAt := Some(at))];
      return true;
    }

    method PendingExposure(now: int, sleeve: Option<Sleeve>) returns (total: nat)
      ensures total == Pending(entries, now, sleeve)
    {
      total := 0;
      var todo := Pendings(entries, now, sleeve);
      while todo != map[]
        invariant total + Sum(todo) == Pending(entries, now, sleeve)
        decreases |todo|
      {
        var n :| n in todo;
        SumRemove(todo, n);
        total := total + todo[n];
        todo := todo - {n};
      }
    }

    method InFlightIncreasing(now: int) returns (count: nat)
      ensures count == |Pendings(entries, now, None)|
    {
      count := |Pendings(entries, now, None)|;
    }
  }

  /** Issuing adds exactly the amount to every total the entry counts in, and leaves the others alone. */
  lemma IssueAddsItsAmount(b: Book, e: Issued, now: int, sleeve: Option<Sleeve>)
    requires e.nonce !in b.entries
    ensures Pending(AfterIssue(b, e).entries, now, sleeve)
            == Pending(b.entries, now, sleeve) + if Counts(e, now, sleeve) then e.maxInput else 0
  {
    var before, after := Pendings(b.entries, now, sleeve), Pendings(AfterIssue(b, e).entries, now, sleeve);
    if Counts(e, now, sleeve) {
      assert after == before[e.nonce := e.maxInput];
      SumAdd(before, e.nonce, e.maxInput);
    } else {
      assert after == before;
    }
  }

  /** When an issued entry counts, spelled out: from its issue until it is consumed or expires, whichever is first, for
      its own sleeve and for the total, if it increases exposure. */
  lemma IssuedCountsExactly(b: Book, e: Issued, now: int, sleeve: Option<Sleeve>)
    requires e.nonce !in b.entries
    ensures Pending(AfterIssue(b, e).entries, now, sleeve) - Pending(b.entries, now, sleeve)
            == if e.increase && e.consumedAt.None? && now < e.expiresAt && (sleeve.None? || sleeve == e.sleeve) then e.maxInput else 0
    ensures AfterIssue(b, e).entries == b.entries[e.nonce := e] && AfterIssue(b, e).byCycle == b.byCycle[e.cycle := e.nonce]
  {
    IssueAddsItsAmount(b, e, now, sleeve);
  }

  /** Consuming an entry takes out exactly what it counted for. */
  lemma ConsumedCountsNoMore(entries: map<Nonce, Issued>, n: Nonce, at: int, now: int, sleeve: Option<Sleeve>)
    requires n in entries
    ensures var e := entries[n];
            Pending(entries[n := e.(consumedAt := Some(at))], now, sleeve)
            == Pending(entries, now, sleeve)
               - if e.increase && e.consumedAt.None? && now < e.expiresAt && (sleeve.None? || sleeve == e.sleeve) then e.maxInput else 0
  {
    var before, after := Pendings(entries, now, sleeve), Pendings(entries[n := entries[n].(consumedAt := Some(at))], now, sleeve);
    if n in before {
      assert after == before - {n};
      SumRemove(before, n);
    } else {
      assert after == before;
    }
  }

  /** Time alone never raises pending exposure. */
  lemma PendingOnlyExpires(entries: map<Nonce, Issued>, now: int, later: int, sleeve: Option<Sleeve>)
    requires now <= later
    ensures Pending(entries, later, sleeve) <= Pending(entries, now, sleeve)
  {
    SumPointwise(Pendings(entries, later, sleeve), Pendings(entries, now, sleeve));
  }

  /** Entries of no sleeve. */
  function Unassigned(entries: map<Nonce, Issued>, now: int): map<Nonce, nat> {
    map n | n in entries && Counts(entries[n], now, None) && entries[n].sleeve.None? :: entries[n].maxInput
  }

  ghost function PerSleeve(entries: map<Nonce, Issued>, now: int, sleeves: set<Sleeve>): map<Sleeve, nat> {
    map sl | sl in sleeves :: Pending(entries, now, Some(sl))
  }

  function Sleeves(entries: map<Nonce, Issued>): set<Sleeve> {
    set n | n in entries && entries[n].sleeve.Some? :: entries[n].sleeve.value
  }

  /** The total splits over the sleeves and the entries of none. */
  lemma PendingSplitsOverSleeves(entries: map<Nonce, Issued>, now: int)
    ensures Pending(entries, now, None) == Sum(Unassigned(entries, now)) + Sum(PerSleeve(entries, now, Sleeves(entries)))
  {
    var all := Pendings(entries, now, None);
    var sleeves := Sleeves(entries);
    SplitBySleeve(entries, now, sleeves, all);
  }

  ghost function Within(entries: map<Nonce, Issued>, m: map<Nonce, nat>, sl: Sleeve): map<Nonce, nat>
    requires m.Keys <= entries.Keys
  {
    map n | n in m && entries[n].sleeve == Some(sl) :: m[n]
  }

  ghost function Without(entries: map<Nonce, Issued>, m: map<Nonce, nat>, sl: Sleeve): map<Nonce, nat>
    requires m.Keys <= entries.Keys
  {
    map n | n in m && entries[n].sleeve != Some(sl) :: m[n]
  }

  /** `m` holds the counted entries of `sleeves` and of none. */
  lemma {:induction false} SplitBySleeve(entries: map<Nonce, Issued>, now: int, sleeves: set<Sleeve>, m: map<Nonce, nat>)
    requires m.Keys <= entries.Keys
    requires forall n :: n in m <==> n in Pendings(entries, now, None) && (entries[n].sleeve.None? || entries[n].sleeve.value in sleeves)
    requires forall n :: n in m ==> m[n] == entries[n].maxInput
    ensures Sum(m) == Sum(Unassigned(entries, now)) + Sum(PerSleeve(entries, now, sleeves))
    decreases |sleeves|
  {
    if sleeves == {} {
      assert m == Unassigned(entries, now);
      assert PerSleeve(entries, now, sleeves) == map[];
    } else {
      var sl :| sl in sleeves;
      SumUnion(m, Within(entries, m, sl), Without(entries, m, sl));
      assert Within(entries, m, sl) == Pendings(entries, now, Some(sl));
      SplitBySleeve(entries, now, sleeves - {sl}, Without(entries, m, sl));
      SumRemove(PerSleeve(entries, now, sleeves), sl);
      assert PerSleeve(entries, now, sleeves) - {sl} == PerSleeve(entries, now, sleeves - {sl});
    }
  }

  // ---------------------------------------------------------------- deciding an entry

  datatype Action = Enter | Add | OtherAction

  datatype AuditRef = AuditRef(sequence: nat, hash: nat)

  datatype CycleRow = CycleRow(
    id: Cycle, cleared: bool, confirmed: bool, cutoffs: seq<nat>, clearedCutoff: Option<nat>, action: Option<Action>,
    proposalId: Option<nat>, candidateId: Option<nat>, strategy: nat, verdict: Option<nat>, clearedAudit: Option<AuditRef>)

  datatype ProposalRow = ProposalRow(
    id: nat, cycle: Cycle, action: Action, strategy: nat, candidateId: Option<nat>, expiresAt: int, hash: nat)

  datatype Summary = Summary(
    cycle: Cycle, proposalId: nat, proposalHash: nat, cutoff: Option<nat>, verdict: Option<nat>, strategy: nat, releaseDigest: nat)

  datatype AuditEvent = AuditEvent(sequence: nat, hash: nat, clearance: bool, entity: Cycle, summary: Option<Summary>)

  datatype Holder = NoHolder | SomeHolder | UnknownHolder

  datatype MintState = MintState(initialized: bool, mintAuthority: Holder, freezeAuthority: Holder)

  datatype Evaluated = Evaluated(allowed: bool, amount: Option<nat>)

  datatype Query = Query(
    now: int, cycle: CycleRow, proposal: ProposalRow, releaseOk: bool, releaseBinds: bool, releaseDigest: nat, live: bool, liveAuto: bool,
    check: Check, event: Option<AuditEvent>, auditChainOk: bool, mint: Option<MintState>, route: Option<bool>, sleeve: Option<Sleeve>,
    evaluate: (nat, nat) -> Evaluated, intentExpiryMs: int, nonce: Nonce, intentId: nat)

  datatype Denial =
    | RELEASE_REJECTED | RELEASE_BINDING_MISMATCH | CHAIN_READS_REQUIRED | PROJECTION_REJECTED
    | CYCLE_NOT_CLEARED | CYCLE_CUTOFF_STALE | CYCLE_ACTION_NOT_ENTRY | PROPOSAL_CYCLE_MISMATCH | PROPOSAL_TARGET_MISMATCH | PROPOSAL_EXPIRED
    | CYCLE_ALREADY_AUTHORIZED
    | AUDIT_CLEARANCE_MISSING | AUDIT_EVENT_MISSING | AUDIT_EVENT_HASH_MISMATCH | AUDIT_EVENT_MISMATCH | AUDIT_CLEARANCE_TAMPERED
    | AUDIT_HEAD_BEHIND_CLEARANCE | AUDIT_CHAIN_BROKEN
    | ATTESTATION_FORBIDS | CHAIN_MINT_READ_REQUIRED | CHAIN_MINT_NOT_INITIALIZED | CHAIN_MINT_AUTHORITY | CHAIN_FREEZE_AUTHORITY
    | EMERGENCY_ROUTE_UNKNOWN | EMERGENCY_ROUTE_NOT_READY
    | SIZE_DENIED | NONCE_REUSED
    | ROWS_MISSING

  datatype Outcome = Authorized(entry: Issued, projectionSequence: nat) | Denied(code: Denial)

  /** The largest cutoff version, zero without one. */
  function LatestCutoff(cutoffs: seq<nat>): nat {
    if cutoffs == [] then 0
    else
      var before := LatestCutoff(cutoffs[..|cutoffs| - 1]);
      if cutoffs[|cutoffs| - 1] > before then cutoffs[|cutoffs| - 1] else before
  }

  lemma {:induction false} LatestCutoffIsLargest(cutoffs: seq<nat>)
    ensures forall i :: 0 <= i < |cutoffs| ==> cutoffs[i] <= LatestCutoff(cutoffs)
    ensures cutoffs != [] ==> LatestCutoff(cutoffs) in cutoffs || LatestCutoff(cutoffs) == 0
  {
    if cutoffs != [] {
      LatestCutoffIsLargest(cutoffs[..|cutoffs| - 1]);
    }
  }

  function CycleDenial(c: CycleRow, p: ProposalRow, now: int): Option<Denial> {
    if !c.cleared || !c.confirmed then Some(CYCLE_NOT_CLEARED)
    else if c.clearedCutoff.None? || c.clearedCutoff.value != LatestCutoff(c.cutoffs) then Some(CYCLE_CUTOFF_STALE)
    else if c.action.None? || c.action.value == OtherAction then Some(CYCLE_ACTION_NOT_ENTRY)
    else if c.proposalId != Some(p.id) || p.cycle != c.id || Some(p.action) != c.action || p.strategy != c.strategy then Some(PROPOSAL_CYCLE_MISMATCH)
    else if p.candidateId != c.candidateId then Some(PROPOSAL_TARGET_MISMATCH)
    else if p.expiresAt <= now then Some(PROPOSAL_EXPIRED)
    else None
  }

  /** The clearance as the audit ledger must record it. */
  function Clearance(q: Query): Summary {
    Summary(q.cycle.id, q.proposal.id, q.proposal.hash, q.cycle.clearedCutoff, q.cycle.verdict, q.cycle.strategy, q.releaseDigest)
  }

  function AuditDenial(q: Query): Option<Denial> {
    if q.cycle.clearedAudit.None? then Some(AUDIT_CLEARANCE_MISSING)
    else
      var ref := q.cycle.clearedAudit.value;
      if q.event.None? || q.event.value.sequence != ref.sequence then Some(AUDIT_EVENT_MISSING)
      else if q.event.value.hash != ref.hash then Some(AUDIT_EVENT_HASH_MISMATCH)
      else if !q.event.value.clearance || q.event.value.entity != q.cycle.id || q.event.value.summary.None? then Some(AUDIT_EVENT_MISMATCH)
      else if q.event.value.summary.value != Clearance(q) then Some(AUDIT_CLEARANCE_TAMPERED)
      else if q.check.projection.auditHead.None? || q.check.projection.auditHead.value < ref.sequence then Some(AUDIT_HEAD_BEHIND_CLEARANCE)
      else if !q.auditChainOk then Some(AUDIT_CHAIN_BROKEN)
      else None
  }

  function CapitalDenial(q: Query): Option<Denial> {
    if q.live && !q.check.projection.allowsNewExposure then Some(ATTESTATION_FORBIDS)
    else if q.live && q.mint.None? then Some(CHAIN_MINT_READ_REQUIRED)
    else if q.live && !q.mint.value.initialized then Some(CHAIN_MINT_NOT_INITIALIZED)
    else if q.live && !q.mint.value.mintAuthority.NoHolder? then Some(CHAIN_MINT_AUTHORITY)
    else if q.live && !q.mint.value.freezeAuthority.NoHolder? then Some(CHAIN_FREEZE_AUTHORITY)
    else if q.liveAuto && q.route.None? then Some(EMERGENCY_ROUTE_UNKNOWN)
    else if q.liveAuto && !q.route.value then Some(EMERGENCY_ROUTE_NOT_READY)
    else None
  }

  /** What signing an entry must mean, whatever the order of the checks. */
  predicate Provenance(q: Query) {
    var c, p := q.cycle, q.proposal;
    && c.cleared && c.confirmed && c.clearedCutoff == Some(LatestCutoff(c.cutoffs)) && (c.action == Some(Enter) || c.action == Some(Add))
    && c.proposalId == Some(p.id) && p.cycle == c.id && Some(p.action) == c.action && p.strategy == c.strategy
    && p.candidateId == c.candidateId && q.now < p.expiresAt
    && c.clearedAudit.Some? && q.event.Some?
    && q.event.value == AuditEvent(c.clearedAudit.value.sequence, c.clearedAudit.value.hash, true, c.id, Some(Clearance(q)))
    && q.check.projection.auditHead.Some? && q.check.projection.auditHead.value >= c.clearedAudit.value.sequence && q.auditChainOk
    && (q.live ==> q.check.projection.allowsNewExposure && q.mint == Some(MintState(true, NoHolder, NoHolder)))
    && (q.liveAuto ==> q.route == Some(true))
  }

  lemma NoDenialMeansProvenance(q: Query)
    ensures CycleDenial(q.cycle, q.proposal, q.now) == None && AuditDenial(q) == None && CapitalDenial(q) == None <==> Provenance(q)
  {
  }

  function EntryFor(q: Query, amount: nat): Issued {
    var expiry := if q.now + q.intentExpiryMs <= q.proposal.expiresAt then q.now + q.intentExpiryMs else q.proposal.expiresAt;
    Issued(q.nonce, q.intentId, q.cycle.id, q.sleeve, true, amount, q.now, expiry, None)
  }

  /** What a signed entry must be: the query's own, unconsumed, issued now, and valid until the earlier of the proposal's
      expiry and the intent's. */
  predicate Binds(e: Issued, q: Query) {
    && e.nonce == q.nonce && e.intentId == q.intentId && e.cycle == q.cycle.id && e.sleeve == q.sleeve && e.increase && e.consumedAt.None?
    && e.issuedAt == q.now
    && e.expiresAt <= q.proposal.expiresAt && e.expiresAt <= q.now + q.intentExpiryMs
    && (e.expiresAt == q.proposal.expiresAt || e.expiresAt == q.now + q.intentExpiryMs)
  }

  ghost function EvaluationOf(q: Query, b: Book): Evaluated {
    q.evaluate(Pending(b.entries, q.now, None), |Pendings(b.entries, q.now, None)|)
  }

  /** Exactly when an entry is signed, on the authorizer's own ledger and the last projection it accepted. */
  ghost predicate Signable(q: Query, b: Book, last: Option<nat>) {
    && q.releaseOk && q.releaseBinds && (q.live ==> q.check.chain.Some?)
    && Acceptable(q.check.(last := last, now := q.now))
    && q.cycle.id !in b.byCycle && Provenance(q)
    && EvaluationOf(q, b).allowed && EvaluationOf(q, b).amount.Some?
    && q.nonce !in b.entries
  }

  /** The first check that fails. */
  ghost function FirstDenial(q: Query, b: Book, last: Option<nat>): Option<Denial> {
    if !q.releaseOk then Some(RELEASE_REJECTED)
    else if !q.releaseBinds then Some(RELEASE_BINDING_MISMATCH)
    else if q.live && q.check.chain.None? then Some(CHAIN_READS_REQUIRED)
    else if !Acceptable(q.check.(last := last, now := q.now)) then Some(PROJECTION_REJECTED)
    else if CycleDenial(q.cycle, q.proposal, q.now).Some? then CycleDenial(q.cycle, q.proposal, q.now)
    else if q.cycle.id in b.byCycle then Some(CYCLE_ALREADY_AUTHORIZED)
    else if AuditDenial(q).Some? then AuditDenial(q)
    else if CapitalDenial(q).Some? then CapitalDenial(q)
    else if !EvaluationOf(q, b).allowed || EvaluationOf(q, b).amount.None? then Some(SIZE_DENIED)
    else if q.nonce in b.entries then Some(NONCE_REUSED)
    else None
  }

  /** The checks in order; every refusal stops before the ledger is touched. */
  method AuthorizeEntry(q: Query, ledger: AuthorizationLedger, last: Option<nat>) returns (o: Outcome)
    modifies ledger
    ensures o.Authorized? <==> Signable(q, old(ledger.View()), last)
    ensures o.Denied? ==> ledger.View() == old(ledger.View()) && Some(o.code) == FirstDenial(q, old(ledger.View()), last)
    ensures o.Authorized? ==>
              && o.entry == EntryFor(q, EvaluationOf(q, old(ledger.View())).amount.value)
              && o.projectionSequence == q.check.projection.sequence
              && ledger.View() == AfterIssue(old(ledger.View()), o.entry)
    ensures o.Authorized? ==>
              && Binds(o.entry, q) && q.evaluate(Pending(old(ledger.View()).entries, q.now, None), |Pendings(old(ledger.View()).entries, q.now, None)|)
                                      == Evaluated(true, Some(o.entry.maxInput))
  {
    NoDenialMeansProvenance(q);
    if !q.releaseOk {
      return Denied(RELEASE_REJECTED);
    }
    if !q.releaseBinds {
      return Denied(RELEASE_BINDING_MISMATCH);
    }
    if q.live && q.check.chain.None? {
      return Denied(CHAIN_READS_REQUIRED);
    }
    var objections := VerifyProjection(q.check.(last := last, now := q.now));
    if objections != [] {
      return Denied(PROJECTION_REJECTED);
    }
    if CycleDenial(q.cycle, q.proposal, q.now).Some? {
      return Denied(CycleDenial(q.cycle, q.proposal, q.now).value);
    }
    if q.cycle.id in ledger.byCycle {
      return Denied(CYCLE_ALREADY_AUTHORIZED);
    }
    if AuditDenial(q).Some? {
      return Denied(AuditDenial(q).value);
    }
    if CapitalDenial(q).Some? {
      return Denied(CapitalDenial(q).value);
    }
    var pending := ledger.PendingExposure(q.now, None);
    var inFlight := ledger.InFlightIncreasing(q.now);
    var evaluation := q.evaluate(pending, inFlight);
    if !evaluation.allowed || evaluation.amount.None? {
      return Denied(SIZE_DENIED);
    }
    if q.nonce in ledger.entries {
      return Denied(NONCE_REUSED);
    }
    var entry := EntryFor(q, evaluation.amount.value);
    var ok := ledger.Issue(entry);
    return Authorized(entry, q.check.projection.sequence);
  }

  // ---------------------------------------------------------------- the service

  datatype Created = Service(service: AuthorizerService) | DuplicateNonce

  function IssueAll(b: Book, open: seq<Issued>): Book {
    if open == [] then b else AfterIssue(IssueAll(b, open[..|open| - 1]), open[|open| - 1])
  }

  predicate DistinctNonces(open: seq<Issued>) {
    forall i, k :: 0 <= i < k < |open| ==> open[i].nonce != open[k].nonce
  }

  /** The book holds exactly these entries, and knows their cycles. */
  ghost predicate Restored(b: Book, open: seq<Issued>) {
    && (forall i :: 0 <= i < |open| ==> open[i].nonce in b.entries && b.entries[open[i].nonce] == open[i] && open[i].cycle in b.byCycle)
    && (forall n: Nonce :: n in b.entries ==> n in NoncesOf(open))
  }

  function NoncesOf(open: seq<Issued>): set<Nonce> {
    set e | e in open :: e.nonce
  }

  lemma RestoredNext(b: Book, before: seq<Issued>, e: Issued)
    requires Restored(b, before) && e.nonce !in NoncesOf(before)
    ensures Restored(AfterIssue(b, e), before + [e])
  {
    var open := before + [e];
    assert NoncesOf(open) == NoncesOf(before) + {e.nonce};
    forall i | 0 <= i < |before| ensures open[i].nonce != e.nonce && open[i] == before[i] {
      assert before[i] in before;
    }
  }

  /** The restored entries are the stored ones. */
  lemma {:induction false} IssueAllHolds(open: seq<Issued>)
    requires DistinctNonces(open)
    ensures Restored(IssueAll(Book(map[], map[]), open), open)
  {
    if open != [] {
      var before, e := open[..|open| - 1], open[|open| - 1];
      IssueAllHolds(before);
      assert e.nonce !in NoncesOf(before);
      RestoredNext(IssueAll(Book(map[], map[]), before), before, e);
      assert open == before + [e];
    }
  }

  lemma NothingIssued(open: seq<Issued>)
    ensures open[..0] == [] && IssueAll(Book(map[], map[]), open[..0]) == Book(map[], map[]) && DistinctNonces(open[..0])
  {
  }

  lemma IssueAllNext(open: seq<Issued>, i: nat)
    requires i < |open|
    ensures IssueAll(Book(map[], map[]), open[..i + 1]) == AfterIssue(IssueAll(Book(map[], map[]), open[..i]), open[i])
  {
    assert open[..i + 1][..i] == open[..i];
  }

  lemma SomeSameNonce(open: seq<Issued>, i: nat)
    requires i < |open| && open[i].nonce in NoncesOf(open[..i])
    ensures exists k, m :: 0 <= k < m < |open| && open[k].nonce == open[m].nonce
  {
    var e :| e in open[..i] && e.nonce == open[i].nonce;
    var k :| 0 <= k < i && open[..i][k] == e;
    assert open[k].nonce == open[i].nonce;
  }

  lemma StillDistinct(open: seq<Issued>, i: nat)
    requires i < |open| && DistinctNonces(open[..i]) && open[i].nonce !in IssueAll(Book(map[], map[]), open[..i]).entries
    ensures DistinctNonces(open[..i + 1])
  {
    IssueAllHolds(open[..i]);
    forall k | 0 <= k < i ensures open[k].nonce != open[i].nonce {
      assert open[..i][k] == open[k];
    }
    forall k, m | 0 <= k < m < i ensures open[k].nonce != open[m].nonce {
      assert open[..i][k] == open[k] && open[..i][m] == open[m];
    }
  }

  class AuthorizerService {
    const ledger: AuthorizationLedger
    var lastProjectionSequence: Option<nat>

    constructor (ledger: AuthorizationLedger)
      ensures this.ledger == ledger && lastProjectionSequence == None
    {
      this.ledger, lastProjectionSequence := ledger, None;
    }

    /** Restores the ledger from the stored open authorizations. */
    static method Create(open: seq<Issued>) returns (c: Created)
      ensures c.Service? ==> fresh(c.service) && fresh(c.service.ledger)
      ensures c.Service? ==> c.service.ledger.View() == IssueAll(Book(map[], map[]), open) && c.service.lastProjectionSequence == None
      ensures c.Service? ==> forall i :: 0 <= i < |open| ==> open[i].cycle in c.service.ledger.byCycle
      ensures c.Service? ==> forall i :: 0 <= i < |open| ==> open[i].nonce in c.service.ledger.entries && c.service.ledger.entries[open[i].nonce] == open[i]
      ensures c.DuplicateNonce? <==> exists i, k :: 0 <= i < k < |open| && open[i].nonce == open[k].nonce
    {
      hide IssueAll;
      hide AfterIssue;
      var ledger := new AuthorizationLedger();
      NothingIssued(open);
      for i := 0 to |open|
        invariant fresh(ledger) && ledger.View() == IssueAll(Book(map[], map[]), open[..i]) && DistinctNonces(open[..i])
      {
        IssueAllNext(open, i);
        IssueAllHolds(open[..i]);
        var ok := ledger.Issue(open[i]);
        if !ok {
          SomeSameNonce(open, i);
          return DuplicateNonce;
        }
        StillDistinct(open, i);
      }
      assert open[..|open|] == open;
      IssueAllHolds(open);
      var s := new AuthorizerService(ledger);
      return Service(s);
    }

    /** One request; `q` is absent when a row it needs is missing or refused. */
    method Authorize(q: Option<Query>) returns (o: Outcome)
      modifies this, ledger
      ensures o.Authorized? <==> q.Some? && Signable(q.value, old(ledger.View()), old(lastProjectionSequence))
      ensures o.Authorized? ==>
                && o.entry == EntryFor(q.value, EvaluationOf(q.value, old(ledger.View())).amount.value)
                && o.projectionSequence == q.value.check.projection.sequence
      ensures ledger.View() == if o.Authorized? then AfterIssue(old(ledger.View()), o.entry) else old(ledger.View())
      ensures lastProjectionSequence == if o.Authorized? then Some(o.projectionSequence) else old(lastProjectionSequence)
    {
      if q.None? {
        return Denied(ROWS_MISSING);
      }
      o := AuthorizeEntry(q.value, ledger, lastProjectionSequence);
      if o.Authorized? {
        lastProjectionSequence := Some(o.projectionSequence);
      }
    }
  }

  // ---------------------------------------------------------------- runs of one process

  datatype State = State(book: Book, last: Option<nat>)

  /** A serialised request, or the executor reporting a terminal outcome. */
  datatype Call = Request(q: Query) | Consumed(nonce: Nonce, at: int)

  ghost function Answer(st: State, c: Call): Option<Issued> {
    if c.Request? && Signable(c.q, st.book, st.last) then Some(EntryFor(c.q, EvaluationOf(c.q, st.book).amount.value)) else None
  }

  ghost function AfterCall(st: State, c: Call): State {
    match c
    case Request(q) =>
      if Answer(st, c).Some? then State(AfterIssue(st.book, Answer(st, c).value), Some(q.check.projection.sequence)) else st
    case Consumed(n, at) =>
      if n in st.book.entries && st.book.entries[n].consumedAt.None?
      then st.(book := st.book.(entries := st.book.entries[n := st.book.entries[n].(consumedAt := Some(at))]))
      else st
  }

  ghost function AfterCalls(st: State, calls: seq<Call>): State {
    if calls == [] then st else AfterCall(AfterCalls(st, calls[..|calls| - 1]), calls[|calls| - 1])
  }

  /** The envelope signed by call i, if any. */
  ghost function Signed(st: State, calls: seq<Call>, i: nat): Option<Issued>
    requires i < |calls|
  {
    Answer(AfterCalls(st, calls[..i]), calls[i])
  }

  lemma CallKeeps(st: State, c: Call)
    ensures forall cycle: Cycle :: cycle in st.book.byCycle ==> cycle in AfterCall(st, c).book.byCycle
    ensures st.last.Some? ==> AfterCall(st, c).last.Some? && st.last.value <= AfterCall(st, c).last.value
    ensures Answer(st, c).Some? ==>
              && Answer(st, c).value.cycle !in st.book.byCycle && Answer(st, c).value.cycle in AfterCall(st, c).book.byCycle
  {
    if c.Request? && Answer(st, c).Some? {
      assert !Objects(c.q.check.(last := st.last, now := c.q.now), PROJECTION_SEQUENCE_ROLLBACK);
    }
  }

  lemma {:induction false} CallsKeep(st: State, calls: seq<Call>, i: nat, n: nat)
    requires i <= n <= |calls|
    ensures forall cycle: Cycle :: cycle in AfterCalls(st, calls[..i]).book.byCycle ==> cycle in AfterCalls(st, calls[..n]).book.byCycle
    ensures var a, b := AfterCalls(st, calls[..i]).last, AfterCalls(st, calls[..n]).last; a.Some? ==> b.Some? && a.value <= b.value
    decreases n
  {
    if i < n {
      CallsKeep(st, calls, i, n - 1);
      assert calls[..n][..n - 1] == calls[..n - 1];
      CallKeeps(AfterCalls(st, calls[..n - 1]), calls[n - 1]);
    }
  }

  /** Each cycle gets at most one envelope, and none if it had one when the ledger was restored. */
  lemma OneEnvelopePerCycle(st: State, calls: seq<Call>, i: nat, k: nat)
    requires i < k < |calls| && Signed(st, calls, i).Some? && Signed(st, calls, k).Some?
    ensures Signed(st, calls, i).value.cycle != Signed(st, calls, k).value.cycle
    ensures Signed(st, calls, i).value.cycle !in st.book.byCycle
  {
    assert calls[..i + 1][..i] == calls[..i];
    CallKeeps(AfterCalls(st, calls[..i]), calls[i]);
    CallsKeep(st, calls, i + 1, k);
    CallKeeps(AfterCalls(st, calls[..k]), calls[k]);
    assert calls[..0] == [];
    CallsKeep(st, calls, 0, i);
  }

  /** Accepted projection sequences never decrease, and every accepted custody row is within tolerance. */
  lemma ProjectionsNeverRollBack(st: State, calls: seq<Call>, i: nat, k: nat)
    requires i < k < |calls| && Signed(st, calls, i).Some? && Signed(st, calls, k).Some?
    ensures calls[i].q.check.projection.sequence <= calls[k].q.check.projection.sequence
  {
    assert calls[..i + 1][..i] == calls[..i];
    CallsKeep(st, calls, i + 1, k);
    assert !Objects(calls[k].q.check.(last := AfterCalls(st, calls[..k]).last, now := calls[k].q.now), PROJECTION_SEQUENCE_ROLLBACK);
  }

  lemma SignedCustodyWithinTolerance(st: State, calls: seq<Call>, i: nat, h: nat)
    requires i < |calls| && Signed(st, calls, i).Some? && calls[i].q.check.chain.Some? && h < |calls[i].q.check.projection.custody|
    ensures var held := calls[i].q.check.projection.custody[h];
            var onChain := OnChain(calls[i].q.check.chain.value.custody, held.account, held.mint);
            onChain.Some? && held.amount * 10000 <= onChain.value * (10000 + calls[i].q.check.balanceBps)
  {
    AcceptedCustodyWithinTolerance(calls[i].q.check.(last := AfterCalls(st, calls[..i]).last, now := calls[i].q.now), h);
  }

  /** Signing raises pending exposure by exactly the signed amount while the envelope is valid. */
  lemma SigningRaisesPending(st: State, c: Call, now: int)
    requires Answer(st, c).Some? && now < Answer(st, c).value.expiresAt
    ensures Pending(AfterCall(st, c).book.entries, now, None) == Pending(st.book.entries, now, None) + Answer(st, c).value.maxInput
  {
    IssueAddsItsAmount(st.book, Answer(st, c).value, now, None);
  }

  // ---------------------------------------------------------------- what a signature means, spelled out

  /** The cycle is cleared at the largest of its cutoff versions, for an entry, and this is its live proposal. */
  predicate CycleInOrder(c: CycleRow, p: ProposalRow, now: int) {
    && c.cleared && c.confirmed
    && c.clearedCutoff.Some? && (forall i :: 0 <= i < |c.cutoffs| ==> c.cutoffs[i] <= c.clearedCutoff.value)
    && (c.clearedCutoff.value in c.cutoffs || c.clearedCutoff.value == 0)
    && c.action.Some? && c.action.value != OtherAction && p.action == c.action.value
    && c.proposalId == Some(p.id) && p.cycle == c.id && p.strategy == c.strategy && p.candidateId == c.candidateId && now < p.expiresAt
  }

  /** The audit ledger holds this very clearance where the cycle says, under an unbroken chain the projection has reached. */
  predicate AuditInOrder(q: Query) {
    && q.cycle.clearedAudit.Some? && q.event.Some? && q.event.value.summary.Some? && q.auditChainOk
    && var ref := q.cycle.clearedAudit.value; var e := q.event.value; var sum := q.event.value.summary.value;
    && e.sequence == ref.sequence && e.hash == ref.hash && e.clearance && e.entity == q.cycle.id
    && sum.cycle == q.cycle.id && sum.proposalId == q.proposal.id && sum.proposalHash == q.proposal.hash && sum.cutoff == q.cycle.clearedCutoff
    && sum.verdict == q.cycle.verdict && sum.strategy == q.cycle.strategy && sum.releaseDigest == q.releaseDigest
    && q.check.projection.auditHead.Some? && ref.sequence <= q.check.projection.auditHead.value
  }

  /** Live capital asks for an attestation and a mint nobody can inflate or freeze; LIVE_AUTO for an emergency route. */
  predicate CapitalInOrder(q: Query) {
    && (q.live ==>
          && q.check.projection.allowsNewExposure && q.mint.Some? && q.mint.value.initialized
          && q.mint.value.mintAuthority == NoHolder && q.mint.value.freezeAuthority == NoHolder)
    && (q.liveAuto ==> q.route.Some? && q.route.value)
  }

  lemma LargestCutoff(cutoffs: seq<nat>, x: nat)
    ensures x == LatestCutoff(cutoffs) <==>
              (forall i :: 0 <= i < |cutoffs| ==> cutoffs[i] <= x) && (x in cutoffs || x == 0)
  {
    LatestCutoffIsLargest(cutoffs);
    LatestInList(cutoffs);
  }

  lemma {:induction false} LatestInList(cutoffs: seq<nat>)
    ensures LatestCutoff(cutoffs) in cutoffs || LatestCutoff(cutoffs) == 0
  {
    if cutoffs != [] {
      LatestInList(cutoffs[..|cutoffs| - 1]);
    }
  }

  /** An entry is signed exactly when all of this holds, on the authorizer's own ledger and the last projection it accepted. */
  lemma SignableExactly(q: Query, b: Book, last: Option<nat>)
    ensures Signable(q, b, last) <==>
              && q.releaseOk && q.releaseBinds && (q.live ==> q.check.chain.Some?)
              && Acceptable(q.check.(last := last, now := q.now))
              && CycleInOrder(q.cycle, q.proposal, q.now) && AuditInOrder(q) && CapitalInOrder(q)
              && (forall c :: c in b.byCycle ==> c != q.cycle.id) && (forall n :: n in b.entries ==> n != q.nonce)
              && exists amount: nat :: q.evaluate(Pending(b.entries, q.now, None), |Pendings(b.entries, q.now, None)|) == Evaluated(true, Some(amount))
  {
    if q.cycle.clearedCutoff.Some? {
      LargestCutoff(q.cycle.cutoffs, q.cycle.clearedCutoff.value);
    }
    var e := EvaluationOf(q, b);
    if e.allowed && e.amount.Some? {
      assert e == Evaluated(true, Some(e.amount.value));
    }
  }

  /** What each refusal means, whatever else may be wrong. */
  ghost predicate Cause(q: Query, b: Book, last: Option<nat>, d: Denial) {
    var c, p := q.cycle, q.proposal;
    match d
    case RELEASE_REJECTED => !q.releaseOk
    case RELEASE_BINDING_MISMATCH => !q.releaseBinds
    case CHAIN_READS_REQUIRED => q.live && q.check.chain.None?
    case PROJECTION_REJECTED => !Acceptable(q.check.(last := last, now := q.now))
    case CYCLE_NOT_CLEARED => !(c.cleared && c.confirmed)
    case CYCLE_CUTOFF_STALE => c.clearedCutoff != Some(LatestCutoff(c.cutoffs))
    case CYCLE_ACTION_NOT_ENTRY => c.action != Some(Enter) && c.action != Some(Add)
    case PROPOSAL_CYCLE_MISMATCH => !(c.proposalId == Some(p.id) && p.cycle == c.id && c.action == Some(p.action) && p.strategy == c.strategy)
    case PROPOSAL_TARGET_MISMATCH => c.candidateId != p.candidateId
    case PROPOSAL_EXPIRED => q.now >= p.expiresAt
    case CYCLE_ALREADY_AUTHORIZED => c.id in b.byCycle
    case AUDIT_CLEARANCE_MISSING => c.clearedAudit.None?
    case AUDIT_EVENT_MISSING => c.clearedAudit.Some? && (q.event.None? || q.event.value.sequence != c.clearedAudit.value.sequence)
    case AUDIT_EVENT_HASH_MISMATCH => c.clearedAudit.Some? && q.event.Some? && q.event.value.hash != c.clearedAudit.value.hash
    case AUDIT_EVENT_MISMATCH => q.event.Some? && (!q.event.value.clearance || q.event.value.entity != c.id || q.event.value.summary.None?)
    case AUDIT_CLEARANCE_TAMPERED => q.event.Some? && q.event.value.summary.Some? && q.event.value.summary.value != Clearance(q)
    case AUDIT_HEAD_BEHIND_CLEARANCE =>
      c.clearedAudit.Some? && (q.check.projection.auditHead.None? || q.check.projection.auditHead.value < c.clearedAudit.value.sequence)
    case AUDIT_CHAIN_BROKEN => !q.auditChainOk
    case ATTESTATION_FORBIDS => q.live && !q.check.projection.allowsNewExposure
    case CHAIN_MINT_READ_REQUIRED => q.live && q.mint.None?
    case CHAIN_MINT_NOT_INITIALIZED => q.live && q.mint.Some? && !q.mint.value.initialized
    case CHAIN_MINT_AUTHORITY => q.live && q.mint.Some? && q.mint.value.mintAuthority != NoHolder
    case CHAIN_FREEZE_AUTHORITY => q.live && q.mint.Some? && q.mint.value.freezeAuthority != NoHolder
    case EMERGENCY_ROUTE_UNKNOWN => q.liveAuto && q.route.None?
    case EMERGENCY_ROUTE_NOT_READY => q.liveAuto && q.route == Some(false)
    case SIZE_DENIED => !EvaluationOf(q, b).allowed || EvaluationOf(q, b).amount.None?
    case NONCE_REUSED => q.nonce in b.entries
    case ROWS_MISSING => false
  }

  /** The order in which the checks are made. */
  function Rank(d: Denial): nat {
    match d
    case RELEASE_REJECTED => 0
    case RELEASE_BINDING_MISMATCH => 1
    case CHAIN_READS_REQUIRED => 2
    case PROJECTION_REJECTED => 3
    case CYCLE_NOT_CLEARED => 4
    case CYCLE_CUTOFF_STALE => 5
    case CYCLE_ACTION_NOT_ENTRY => 6
    case PROPOSAL_CYCLE_MISMATCH => 7
    case PROPOSAL_TARGET_MISMATCH => 8
    case PROPOSAL_EXPIRED => 9
    case CYCLE_ALREADY_AUTHORIZED => 10
    case AUDIT_CLEARANCE_MISSING => 11
    case AUDIT_EVENT_MISSING => 12
    case AUDIT_EVENT_HASH_MISMATCH => 13
    case AUDIT_EVENT_MISMATCH => 14
    case AUDIT_CLEARANCE_TAMPERED => 15
    case AUDIT_HEAD_BEHIND_CLEARANCE => 16
    case AUDIT_CHAIN_BROKEN => 17
    case ATTESTATION_FORBIDS => 18
    case CHAIN_MINT_READ_REQUIRED => 19
    case CHAIN_MINT_NOT_INITIALIZED => 20
    case CHAIN_MINT_AUTHORITY => 21
    case CHAIN_FREEZE_AUTHORITY => 22
    case EMERGENCY_ROUTE_UNKNOWN => 23
    case EMERGENCY_ROUTE_NOT_READY => 24
    case SIZE_DENIED => 25
    case NONCE_REUSED => 26
    case ROWS_MISSING => 27
  }

  lemma CycleFirstCause(q: Query, b: Book, last: Option<nat>, x: Denial)
    ensures var d := CycleDenial(q.cycle, q.proposal, q.now);
            if d.Some? then 4 <= Rank(d.value) <= 9 && Cause(q, b, last, d.value) && (4 <= Rank(x) < Rank(d.value) ==> !Cause(q, b, last, x))
            else 4 <= Rank(x) <= 9 ==> !Cause(q, b, last, x)
  {
    hide LatestCutoff;
    hide Acceptable;
    hide EvaluationOf;
  }

  lemma AuditFirstCause(q: Query, b: Book, last: Option<nat>, x: Denial)
    ensures var d := AuditDenial(q);
            if d.Some? then 11 <= Rank(d.value) <= 17 && Cause(q, b, last, d.value) && (11 <= Rank(x) < Rank(d.value) ==> !Cause(q, b, last, x))
            else 11 <= Rank(x) <= 17 ==> !Cause(q, b, last, x)
  {
    hide LatestCutoff;
    hide Acceptable;
    hide EvaluationOf;
  }

  lemma CapitalFirstCause(q: Query, b: Book, last: Option<nat>, x: Denial)
    ensures var d := CapitalDenial(q);
            if d.Some? then 18 <= Rank(d.value) <= 24 && Cause(q, b, last, d.value) && (18 <= Rank(x) < Rank(d.value) ==> !Cause(q, b, last, x))
            else 18 <= Rank(x) <= 24 ==> !Cause(q, b, last, x)
  {
    hide LatestCutoff;
    hide Acceptable;
    hide EvaluationOf;
  }

  lemma OtherCauses(q: Query, b: Book, last: Option<nat>, x: Denial)
    ensures Rank(x) == 0 ==> (Cause(q, b, last, x) <==> !q.releaseOk)
    ensures Rank(x) == 1 ==> (Cause(q, b, last, x) <==> !q.releaseBinds)
    ensures Rank(x) == 2 ==> (Cause(q, b, last, x) <==> q.live && q.check.chain.None?)
    ensures Rank(x) == 3 ==> (Cause(q, b, last, x) <==> !Acceptable(q.check.(last := last, now := q.now)))
    ensures Rank(x) == 10 ==> (Cause(q, b, last, x) <==> q.cycle.id in b.byCycle)
    ensures Rank(x) == 25 ==> (Cause(q, b, last, x) <==> !EvaluationOf(q, b).allowed || EvaluationOf(q, b).amount.None?)
    ensures Rank(x) == 26 ==> (Cause(q, b, last, x) <==> q.nonce in b.entries)
  {
    hide LatestCutoff;
    hide Acceptable;
    hide EvaluationOf;
  }

  /** A refusal names a check that fails, and every check made before it passes. */
  lemma DenialIsFirstCause(q: Query, b: Book, last: Option<nat>, d: Denial, x: Denial)
    requires FirstDenial(q, b, last) == Some(d)
    ensures Cause(q, b, last, d) && (Rank(x) < Rank(d) ==> !Cause(q, b, last, x))
  {
    hide Cause;
    hide CycleDenial;
    hide AuditDenial;
    hide CapitalDenial;
    hide Acceptable;
    hide EvaluationOf;
    CycleFirstCause(q, b, last, x);
    AuditFirstCause(q, b, last, x);
    CapitalFirstCause(q, b, last, x);
    OtherCauses(q, b, last, x);
    OtherCauses(q, b, last, d);
  }

  /** No envelope outlives its proposal: while one signed in a run is open, the proposal it was signed for has not run out. */
  lemma NoEnvelopeOutlivesItsProposal(st: State, calls: seq<Call>, i: nat, now: int)
    requires i < |calls| && Signed(st, calls, i).Some? && OpenAt(Signed(st, calls, i).value, now)
    ensures now < calls[i].q.proposal.expiresAt && now < calls[i].q.now + calls[i].q.intentExpiryMs
    ensures Binds(Signed(st, calls, i).value, calls[i].q)
  {
  }
}
