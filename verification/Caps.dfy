/** The deployment caps: which entries are admitted, and what an admission keeps. */
module Caps {
  import opened Sums
  import opened ExposureLedger
  import opened Records

  datatype Guardrails = Guardrails(
    liveEnabled: bool, cluster: nat, settlementMints: set<Mint>, hardMaxSlippageBps: nat,
    maxPerEntry: nat, maxAggregate: nat, maxSignerOutage: nat)

  datatype CapRejection =
    | LIVE_CAPABILITY_DISABLED | CLUSTER_MISMATCH | SETTLEMENT_MINT_NOT_ALLOWED | SLIPPAGE_ABOVE_HARD_MAX
    | PER_ENTRY_CAP | AGGREGATE_EXPOSURE_CAP | SIGNER_OUTAGE_CAP

  datatype CapVerdict = Granted(projected: nat) | Rejected(reasons: seq<CapRejection>)

  predicate IsLive(a: Authority) {
    a == LiveApproval || a == LiveAuto
  }

  /** The exposure the caps start from: the ledger's, or a larger mark. */
  ghost function Base(open: Open, mark: Option<nat>): nat {
    if mark.Some? && mark.value > Total(open) then mark.value else Total(open)
  }

  ghost predicate Violates(g: Guardrails, open: Open, it: Intent, mark: Option<nat>, r: CapRejection) {
    match r
    case LIVE_CAPABILITY_DISABLED => IsLive(it.authority) && !g.liveEnabled
    case CLUSTER_MISMATCH => it.cluster != g.cluster
    case SETTLEMENT_MINT_NOT_ALLOWED =>
      (if it.effect == Increase then it.inputMint else it.outputMint) !in g.settlementMints
    case SLIPPAGE_ABOVE_HARD_MAX => it.slippageBps > g.hardMaxSlippageBps
    case PER_ENTRY_CAP => it.effect == Increase && it.maxInput > g.maxPerEntry
    case AGGREGATE_EXPOSURE_CAP => it.effect == Increase && Base(open, mark) + it.maxInput > g.maxAggregate
    case SIGNER_OUTAGE_CAP =>
      it.effect == Increase && it.authority == LiveAuto && it.protection == MonitoredExit
      && Monitored(open) + it.maxInput > g.maxSignerOutage
  }

  ghost predicate Admitted(g: Guardrails, open: Open, it: Intent, mark: Option<nat>) {
    forall r: CapRejection :: !Violates(g, open, it, mark, r)
  }

  function Precedence(r: CapRejection): nat {
    match r
    case LIVE_CAPABILITY_DISABLED => 0
    case CLUSTER_MISMATCH => 1
    case SETTLEMENT_MINT_NOT_ALLOWED => 2
    case SLIPPAGE_ABOVE_HARD_MAX => 3
    case PER_ENTRY_CAP => 4
    case AGGREGATE_EXPOSURE_CAP => 5
    case SIGNER_OUTAGE_CAP => 6
  }

  /** `reasons` are exactly the violated rules before rank n, in order. */
  ghost predicate Complete(reasons: seq<CapRejection>, n: nat, g: Guardrails, open: Open, it: Intent, mark: Option<nat>) {
    && (forall r: CapRejection :: r in reasons <==> Precedence(r) < n && Violates(g, open, it, mark, r))
    && forall i, k :: 0 <= i < k < |reasons| ==> Precedence(reasons[i]) < Precedence(reasons[k])
  }

  function PushIf(reasons: seq<CapRejection>, c: bool, r: CapRejection): seq<CapRejection> {
    if c then reasons + [r] else reasons
  }

  ghost function Pushed(reasons: seq<CapRejection>, r: CapRejection, g: Guardrails, open: Open, it: Intent, mark: Option<nat>): seq<CapRejection> {
    PushIf(reasons, Violates(g, open, it, mark, r), r)
  }

  ghost function GeneralReasons(g: Guardrails, open: Open, it: Intent, mark: Option<nat>): seq<CapRejection> {
    var r0 := Pushed([], LIVE_CAPABILITY_DISABLED, g, open, it, mark);
    var r1 := Pushed(r0, CLUSTER_MISMATCH, g, open, it, mark);
    var r2 := Pushed(r1, SETTLEMENT_MINT_NOT_ALLOWED, g, open, it, mark);
    Pushed(r2, SLIPPAGE_ABOVE_HARD_MAX, g, open, it, mark)
  }

  ghost function ExposureReasons(before: seq<CapRejection>, g: Guardrails, open: Open, it: Intent, mark: Option<nat>): seq<CapRejection> {
    var r0 := Pushed(before, PER_ENTRY_CAP, g, open, it, mark);
    var r1 := Pushed(r0, AGGREGATE_EXPOSURE_CAP, g, open, it, mark);
    Pushed(r1, SIGNER_OUTAGE_CAP, g, open, it, mark)
  }

  lemma PushKeeps(reasons: seq<CapRejection>, r: CapRejection, n: nat, g: Guardrails, open: Open, it: Intent, mark: Option<nat>)
    requires n == Precedence(r) && Complete(reasons, n, g, open, it, mark)
    ensures Complete(Pushed(reasons, r, g, open, it, mark), n + 1, g, open, it, mark)
  {
    forall x: CapRejection ensures Precedence(x) == n <==> x == r {
    }
  }

  lemma GeneralReasonsComplete(g: Guardrails, open: Open, it: Intent, mark: Option<nat>)
    ensures Complete(GeneralReasons(g, open, it, mark), 4, g, open, it, mark)
  {
    var r0 := Pushed([], LIVE_CAPABILITY_DISABLED, g, open, it, mark);
    var r1 := Pushed(r0, CLUSTER_MISMATCH, g, open, it, mark);
    PushKeeps([], LIVE_CAPABILITY_DISABLED, 0, g, open, it, mark);
    PushKeeps(r0, CLUSTER_MISMATCH, 1, g, open, it, mark);
    PushKeeps(r1, SETTLEMENT_MINT_NOT_ALLOWED, 2, g, open, it, mark);
    PushKeeps(Pushed(r1, SETTLEMENT_MINT_NOT_ALLOWED, g, open, it, mark), SLIPPAGE_ABOVE_HARD_MAX, 3, g, open, it, mark);
  }

  lemma ExposureReasonsComplete(before: seq<CapRejection>, g: Guardrails, open: Open, it: Intent, mark: Option<nat>)
    requires Complete(before, 4, g, open, it, mark)
    ensures Complete(ExposureReasons(before, g, open, it, mark), 7, g, open, it, mark)
  {
    var r0 := Pushed(before, PER_ENTRY_CAP, g, open, it, mark);
    PushKeeps(before, PER_ENTRY_CAP, 4, g, open, it, mark);
    PushKeeps(r0, AGGREGATE_EXPOSURE_CAP, 5, g, open, it, mark);
    PushKeeps(Pushed(r0, AGGREGATE_EXPOSURE_CAP, g, open, it, mark), SIGNER_OUTAGE_CAP, 6, g, open, it, mark);
  }

  lemma NoExposureReasons(before: seq<CapRejection>, g: Guardrails, open: Open, it: Intent, mark: Option<nat>)
    requires it.effect != Increase
    ensures ExposureReasons(before, g, open, it, mark) == before
  {
  }

  lemma EmptyMeansAdmitted(reasons: seq<CapRejection>, g: Guardrails, open: Open, it: Intent, mark: Option<nat>)
    requires Complete(reasons, 7, g, open, it, mark)
    ensures reasons == [] <==> Admitted(g, open, it, mark)
  {
    if reasons != [] {
      assert reasons[0] in reasons;
    } else {
      forall r: CapRejection ensures !Violates(g, open, it, mark, r) {
        assert r !in reasons;
      }
    }
  }

  /** The limits that do not depend on what is open. */
  predicate WithinLimits(g: Guardrails, it: Intent) {
    && it.slippageBps <= g.hardMaxSlippageBps && it.cluster == g.cluster
    && (if it.effect == Increase then it.inputMint in g.settlementMints else it.outputMint in g.settlementMints)
    && (it.authority == LiveApproval || it.authority == LiveAuto ==> g.liveEnabled)
    && (it.effect == Increase ==> it.maxInput <= g.maxPerEntry)
  }

  /** And those that do: room under the aggregate cap, counted from the larger of ledger and mark, and under the
      signer-outage cap for a monitored LIVE_AUTO entry. */
  ghost predicate RoomLeft(g: Guardrails, open: Open, it: Intent, mark: Option<nat>) {
    it.effect == Increase ==>
      && Total(open) + it.maxInput <= g.maxAggregate && (mark.Some? ==> mark.value + it.maxInput <= g.maxAggregate)
      && (it.authority == LiveAuto && it.protection == MonitoredExit ==> Monitored(open) + it.maxInput <= g.maxSignerOutage)
  }

  lemma AdmittedExactly(g: Guardrails, open: Open, it: Intent, mark: Option<nat>)
    ensures Admitted(g, open, it, mark) <==> WithinLimits(g, it) && RoomLeft(g, open, it, mark)
  {
    if Admitted(g, open, it, mark) {
      assert !Violates(g, open, it, mark, LIVE_CAPABILITY_DISABLED) && !Violates(g, open, it, mark, CLUSTER_MISMATCH);
      assert !Violates(g, open, it, mark, SETTLEMENT_MINT_NOT_ALLOWED) && !Violates(g, open, it, mark, SLIPPAGE_ABOVE_HARD_MAX);
      assert !Violates(g, open, it, mark, PER_ENTRY_CAP) && !Violates(g, open, it, mark, AGGREGATE_EXPOSURE_CAP);
      assert !Violates(g, open, it, mark, SIGNER_OUTAGE_CAP);
    }
  }

  /** Which rule is violated when. */
  lemma ViolatesExactly(g: Guardrails, open: Open, it: Intent, mark: Option<nat>)
    ensures Violates(g, open, it, mark, SLIPPAGE_ABOVE_HARD_MAX) <==> g.hardMaxSlippageBps < it.slippageBps
    ensures Violates(g, open, it, mark, CLUSTER_MISMATCH) <==> g.cluster != it.cluster
    ensures Violates(g, open, it, mark, SETTLEMENT_MINT_NOT_ALLOWED) <==>
              (it.effect == Increase && it.inputMint !in g.settlementMints) || (it.effect != Increase && it.outputMint !in g.settlementMints)
    ensures Violates(g, open, it, mark, LIVE_CAPABILITY_DISABLED) <==> !g.liveEnabled && (it.authority == LiveApproval || it.authority == LiveAuto)
    ensures Violates(g, open, it, mark, PER_ENTRY_CAP) <==> it.effect == Increase && g.maxPerEntry < it.maxInput
    ensures Violates(g, open, it, mark, AGGREGATE_EXPOSURE_CAP) <==>
              it.effect == Increase && (g.maxAggregate < Total(open) + it.maxInput || (mark.Some? && g.maxAggregate < mark.value + it.maxInput))
    ensures Violates(g, open, it, mark, SIGNER_OUTAGE_CAP) <==>
              it.effect == Increase && it.authority == LiveAuto && it.protection == MonitoredExit && g.maxSignerOutage < Monitored(open) + it.maxInput
  {
  }

  /** All violated rules are reported, in order; granted exactly when there is none. */
  method CheckCaps(g: Guardrails, ledger: ExecutorExposureLedger, it: Intent, mark: Option<nat>) returns (v: CapVerdict)
    ensures v.Granted? <==> Admitted(g, ledger.open, it, mark)
    ensures v.Granted? ==> v.projected == Base(ledger.open, mark) + (if it.effect == Increase then it.maxInput else 0)
    ensures v.Granted? <==> WithinLimits(g, it) && RoomLeft(g, ledger.open, it, mark)
    ensures v.Rejected? ==> Complete(v.reasons, 7, g, ledger.open, it, mark)
  {
    var reasons := GeneralPushes(g, ledger, it, mark);
    var current := ledger.AggregateNonSettlementExposure();
    var base := if mark.Some? && mark.value > current then mark.value else current;
    var projected := if it.effect == Increase then base + it.maxInput else base;
    if it.effect == Increase {
      reasons := ExposurePushes(reasons, projected, g, ledger, it, mark);
    } else {
      NoExposureReasons(reasons, g, ledger.open, it, mark);
    }
    GeneralReasonsComplete(g, ledger.open, it, mark);
    ExposureReasonsComplete(GeneralReasons(g, ledger.open, it, mark), g, ledger.open, it, mark);
    EmptyMeansAdmitted(reasons, g, ledger.open, it, mark);
    AdmittedExactly(g, ledger.open, it, mark);
    v := if reasons == [] then Granted(projected) else Rejected(reasons);
  }

  /** The pushes, one after the other. */
  method GeneralPushes(g: Guardrails, ledger: ExecutorExposureLedger, it: Intent, mark: Option<nat>) returns (reasons: seq<CapRejection>)
    ensures reasons == GeneralReasons(g, ledger.open, it, mark)
  {
    var live := it.authority == LiveApproval || it.authority == LiveAuto;
    reasons := if live && !g.liveEnabled then [LIVE_CAPABILITY_DISABLED] else [];
    ghost var r0 := Pushed([], LIVE_CAPABILITY_DISABLED, g, ledger.open, it, mark);
    assert reasons == r0;
    if it.cluster != g.cluster { reasons := reasons + [CLUSTER_MISMATCH]; }
    ghost var r1 := Pushed(r0, CLUSTER_MISMATCH, g, ledger.open, it, mark);
    assert reasons == r1;
    var settlement := if it.effect == Increase then it.inputMint else it.outputMint;
    if settlement !in g.settlementMints { reasons := reasons + [SETTLEMENT_MINT_NOT_ALLOWED]; }
    assert reasons == Pushed(r1, SETTLEMENT_MINT_NOT_ALLOWED, g, ledger.open, it, mark);
    if it.slippageBps > g.hardMaxSlippageBps { reasons := reasons + [SLIPPAGE_ABOVE_HARD_MAX]; }
  }

  method ExposurePushes(before: seq<CapRejection>, projected: nat, g: Guardrails, ledger: ExecutorExposureLedger, it: Intent, mark: Option<nat>)
    returns (reasons: seq<CapRejection>)
    requires it.effect == Increase && projected == Base(ledger.open, mark) + it.maxInput
    ensures reasons == ExposureReasons(before, g, ledger.open, it, mark)
  {
    reasons := before;
    if it.maxInput > g.maxPerEntry { reasons := reasons + [PER_ENTRY_CAP]; }
    ghost var r0 := Pushed(before, PER_ENTRY_CAP, g, ledger.open, it, mark);
    assert reasons == r0;
    if projected > g.maxAggregate { reasons := reasons + [AGGREGATE_EXPOSURE_CAP]; }
    assert reasons == Pushed(r0, AGGREGATE_EXPOSURE_CAP, g, ledger.open, it, mark);
    if it.authority == LiveAuto && it.protection == MonitoredExit {
      var monitored := ledger.SignerDependentExposure();
      if monitored + it.maxInput > g.maxSignerOutage { reasons := reasons + [SIGNER_OUTAGE_CAP]; }
    }
  }

  // ---------------------------------------------------------------- what an admission keeps

  function Reservation(id: Id, it: Intent): ExposureEvent {
    EntryAuthorized(id, TradedMint(it), it.maxInput, it.protection)
  }

  /** Check and reservation in one step: an admitted exposure-increasing entry leaves every cap kept. */
  lemma AdmissionKeepsCaps(g: Guardrails, open: Open, id: Id, it: Intent, mark: Option<nat>)
    requires it.effect == Increase && Admitted(g, open, it, mark) && id !in open
    ensures Total(After(open, Reservation(id, it))) <= g.maxAggregate
    ensures it.maxInput <= g.maxPerEntry && (IsLive(it.authority) ==> g.liveEnabled)
    ensures it.authority == LiveAuto && it.protection == MonitoredExit ==> Monitored(After(open, Reservation(id, it))) <= g.maxSignerOutage
  {
    assert !Violates(g, open, it, mark, AGGREGATE_EXPOSURE_CAP) && !Violates(g, open, it, mark, PER_ENTRY_CAP);
    assert !Violates(g, open, it, mark, SIGNER_OUTAGE_CAP) && !Violates(g, open, it, mark, LIVE_CAPABILITY_DISABLED);
    TotalAfter(open, Reservation(id, it));
    MonitoredAfterReservation(open, id, it);
  }

  lemma MonitoredAfterReservation(open: Open, id: Id, it: Intent)
    requires id !in open
    ensures Monitored(After(open, Reservation(id, it))) == Monitored(open) + if it.protection == MonitoredExit then it.maxInput else 0
  {
    var after := After(open, Reservation(id, it));
    if it.protection == MonitoredExit {
      assert MonitoredExposures(after) == MonitoredExposures(open)[id := it.maxInput];
      SumAdd(MonitoredExposures(open), id, it.maxInput);
    } else {
      assert MonitoredExposures(after) == MonitoredExposures(open);
    }
  }

  /** A secondary mark can only turn a grant into a refusal. */
  lemma MarkOnlyTightens(g: Guardrails, open: Open, it: Intent, mark: Option<nat>)
    requires Admitted(g, open, it, mark)
    ensures Admitted(g, open, it, None)
  {
    forall r: CapRejection ensures !Violates(g, open, it, None, r) {
      assert !Violates(g, open, it, mark, r);
    }
  }

  /** An intent that does not increase exposure is admitted whatever is open, and yet it reserves: it
      leaves the aggregate cap kept exactly when there happened to be room. */
  lemma OtherEffectsBypassTheCap(g: Guardrails, open: Open, other: Open, id: Id, it: Intent)
    requires it.effect != Increase && id !in open
    ensures Admitted(g, open, it, None) <==> Admitted(g, other, it, None)
    ensures Total(After(open, Reservation(id, it))) <= g.maxAggregate <==> Total(open) + it.maxInput <= g.maxAggregate
  {
    TotalAfter(open, Reservation(id, it));
    forall r: CapRejection ensures Violates(g, open, it, None, r) <==> Violates(g, other, it, None, r) {
    }
  }

  /** The signer-outage rule speaks of LIVE_AUTO alone: under any other authority a monitored entry is
      admitted whatever that cap is, and leaves it kept exactly when there happened to be room. */
  lemma OutageCapIgnoresApproval(g: Guardrails, open: Open, id: Id, it: Intent, cap: nat)
    requires it.authority != LiveAuto && it.protection == MonitoredExit && id !in open
    ensures Admitted(g, open, it, None) <==> Admitted(g.(maxSignerOutage := cap), open, it, None)
    ensures Monitored(After(open, Reservation(id, it))) <= g.maxSignerOutage <==> Monitored(open) + it.maxInput <= g.maxSignerOutage
  {
    MonitoredAfterReservation(open, id, it);
    forall r: CapRejection ensures Violates(g, open, it, None, r) <==> Violates(g.(maxSignerOutage := cap), open, it, None, r) {
    }
  }
}
