/** Acceptance of a signed risk-state projection: fresh, never rolled back, never claiming more than the chain. */
module Projection {
  import opened Numbers
  import opened Sums

  datatype Holding = Holding(account: nat, mint: nat, amount: nat)

  datatype Projection = Projection(
    sequence: nat, asOf: int, releaseId: nat, releaseDigest: nat, policyVersion: nat, settlement: nat, gas: nat,
    custody: seq<Holding>, chainSlot: int, auditHead: Option<nat>, allowsNewExposure: bool)

  datatype ChainReads = ChainReads(slot: int, settlement: nat, gas: nat, custody: seq<Holding>)

  datatype Check = Check(
    projection: Projection, signatureValid: bool, last: Option<nat>, now: int, maxAgeMs: int, releaseId: nat, releaseDigest: nat,
    policyVersion: nat, chain: Option<ChainReads>, balanceBps: nat, maxSlotLag: int)

  datatype ProjectionRejection =
    | PROJECTION_SIGNATURE_INVALID | PROJECTION_SEQUENCE_ROLLBACK | PROJECTION_STALE | PROJECTION_FUTURE_DATED
    | PROJECTION_RELEASE_MISMATCH | PROJECTION_POLICY_MISMATCH | CHAIN_SETTLEMENT_DISAGREES | CHAIN_GAS_DISAGREES
    | CHAIN_CUSTODY_DISAGREES | CHAIN_SLOT_BEHIND

  function WithinAbove(projected: nat, chain: nat, bps: nat): bool {
    projected <= chain + chain * bps / 10000
  }

  /** The integer test is the exact one: at most bps ten-thousandths above the chain. */
  lemma WithinAboveIsExact(projected: nat, chain: nat, bps: nat)
    ensures WithinAbove(projected, chain, bps) <==> projected * 10000 <= chain * (10000 + bps)
  {
    var x := chain * bps;
    DivMod(x, 10000);
    assert chain * (10000 + bps) == chain * 10000 + x;
  }

  /** What the chain shows for an account and mint: the last of its readings wins. */
  function OnChain(custody: seq<Holding>, account: nat, mint: nat): Option<nat> {
    if custody == [] then None
    else
      var h := custody[|custody| - 1];
      if h.account == account && h.mint == mint then Some(h.amount) else OnChain(custody[..|custody| - 1], account, mint)
  }

  /** This reading shows so much of the account and mint, and no later one speaks of them. */
  predicate LastReading(custody: seq<Holding>, i: int, account: nat, mint: nat) {
    && 0 <= i < |custody| && custody[i].account == account && custody[i].mint == mint
    && forall k :: i < k < |custody| ==> !(custody[k].account == account && custody[k].mint == mint)
  }

  lemma {:induction false} OnChainIsLastReading(custody: seq<Holding>, account: nat, mint: nat)
    ensures OnChain(custody, account, mint).None? <==> forall i :: 0 <= i < |custody| ==> !(custody[i].account == account && custody[i].mint == mint)
    ensures OnChain(custody, account, mint).Some? ==>
              exists i :: LastReading(custody, i, account, mint) && OnChain(custody, account, mint) == Some(custody[i].amount)
    decreases |custody|
  {
    if custody != [] {
      var n := |custody| - 1;
      var before := custody[..n];
      OnChainIsLastReading(before, account, mint);
      if custody[n].account == account && custody[n].mint == mint {
        assert LastReading(custody, n, account, mint);
      } else if OnChain(before, account, mint).Some? {
        var i :| LastReading(before, i, account, mint) && OnChain(before, account, mint) == Some(before[i].amount);
        assert LastReading(custody, i, account, mint);
      }
    }
  }

  predicate Backed(h: Holding, chain: ChainReads, bps: nat) {
    var onChain := OnChain(chain.custody, h.account, h.mint);
    onChain.Some? && WithinAbove(h.amount, onChain.value, bps)
  }

  predicate CustodyBacked(p: Projection, chain: ChainReads, bps: nat) {
    forall i :: 0 <= i < |p.custody| ==> Backed(p.custody[i], chain, bps)
  }

  /** Each reason and its cause, once the signature holds. */
  predicate Objects(c: Check, r: ProjectionRejection) {
    var p := c.projection;
    match r
    case PROJECTION_SIGNATURE_INVALID => false
    case PROJECTION_SEQUENCE_ROLLBACK => c.last.Some? && p.sequence < c.last.value
    case PROJECTION_STALE => c.now - p.asOf > c.maxAgeMs
    case PROJECTION_FUTURE_DATED => p.asOf - c.now > c.maxSlotLag * 400
    case PROJECTION_RELEASE_MISMATCH => p.releaseId != c.releaseId || p.releaseDigest != c.releaseDigest
    case PROJECTION_POLICY_MISMATCH => p.policyVersion != c.policyVersion
    case CHAIN_SETTLEMENT_DISAGREES => c.chain.Some? && !WithinAbove(p.settlement, c.chain.value.settlement, c.balanceBps)
    case CHAIN_GAS_DISAGREES => c.chain.Some? && !WithinAbove(p.gas, c.chain.value.gas, c.balanceBps)
    case CHAIN_CUSTODY_DISAGREES => c.chain.Some? && !CustodyBacked(p, c.chain.value, c.balanceBps)
    case CHAIN_SLOT_BEHIND => c.chain.Some? && c.chain.value.slot - p.chainSlot > c.maxSlotLag
  }

  predicate Acceptable(c: Check) {
    c.signatureValid && forall r: ProjectionRejection :: !Objects(c, r)
  }

  /** At most the tolerance above what the chain shows, as exact proportions. */
  predicate Tolerated(projected: nat, chain: nat, bps: nat) {
    projected * 10000 <= chain * (10000 + bps)
  }

  predicate CustodyShown(p: Projection, chain: ChainReads, bps: nat) {
    forall i :: 0 <= i < |p.custody| ==>
                  var h := p.custody[i]; var read := OnChain(chain.custody, h.account, h.mint);
                  read.Some? && Tolerated(h.amount, read.value, bps)
  }

  /** Acceptance spelled out: signed, no older than the last accepted, no older and no further ahead than the clocks
      allow, for this release and policy, and nowhere above the chain where it was read. */
  lemma AcceptableExactly(c: Check)
    ensures Acceptable(c) <==>
              && c.signatureValid && (c.last.Some? ==> c.last.value <= c.projection.sequence)
              && c.now <= c.projection.asOf + c.maxAgeMs && c.projection.asOf <= c.now + c.maxSlotLag * 400
              && c.projection.releaseId == c.releaseId && c.projection.releaseDigest == c.releaseDigest
              && c.projection.policyVersion == c.policyVersion
              && (c.chain.Some? ==>
                    && Tolerated(c.projection.settlement, c.chain.value.settlement, c.balanceBps)
                    && Tolerated(c.projection.gas, c.chain.value.gas, c.balanceBps)
                    && CustodyShown(c.projection, c.chain.value, c.balanceBps)
                    && c.chain.value.slot <= c.projection.chainSlot + c.maxSlotLag)
  {
    if c.chain.Some? {
      ToleranceExactly(c, c.chain.value);
    }
    if Acceptable(c) {
      assert !Objects(c, PROJECTION_SEQUENCE_ROLLBACK) && !Objects(c, PROJECTION_STALE) && !Objects(c, PROJECTION_FUTURE_DATED);
      assert !Objects(c, PROJECTION_RELEASE_MISMATCH) && !Objects(c, PROJECTION_POLICY_MISMATCH) && !Objects(c, CHAIN_SLOT_BEHIND);
      assert !Objects(c, CHAIN_SETTLEMENT_DISAGREES) && !Objects(c, CHAIN_GAS_DISAGREES) && !Objects(c, CHAIN_CUSTODY_DISAGREES);
    }
  }

  lemma ToleranceExactly(c: Check, chain: ChainReads)
    ensures WithinAbove(c.projection.settlement, chain.settlement, c.balanceBps) <==> Tolerated(c.projection.settlement, chain.settlement, c.balanceBps)
    ensures WithinAbove(c.projection.gas, chain.gas, c.balanceBps) <==> Tolerated(c.projection.gas, chain.gas, c.balanceBps)
    ensures CustodyBacked(c.projection, chain, c.balanceBps) <==> CustodyShown(c.projection, chain, c.balanceBps)
  {
    hide WithinAbove;
    hide Tolerated;
    Tolerable(c.projection.settlement, chain.settlement, c.balanceBps);
    Tolerable(c.projection.gas, chain.gas, c.balanceBps);
    forall h: Holding ensures Backed(h, chain, c.balanceBps) <==>
        var read := OnChain(chain.custody, h.account, h.mint); read.Some? && Tolerated(h.amount, read.value, c.balanceBps) {
      var read := OnChain(chain.custody, h.account, h.mint);
      if read.Some? {
        Tolerable(h.amount, read.value, c.balanceBps);
      }
    }
  }

  lemma Tolerable(projected: nat, chain: nat, bps: nat)
    ensures WithinAbove(projected, chain, bps) <==> Tolerated(projected, chain, bps)
  {
    WithinAboveIsExact(projected, chain, bps);
  }

  /** Which objection is raised when. */
  lemma ObjectsExactly(c: Check)
    ensures Objects(c, PROJECTION_SEQUENCE_ROLLBACK) <==> c.last.Some? && c.last.value > c.projection.sequence
    ensures Objects(c, PROJECTION_STALE) <==> c.projection.asOf + c.maxAgeMs < c.now
    ensures Objects(c, PROJECTION_FUTURE_DATED) <==> c.now + c.maxSlotLag * 400 < c.projection.asOf
    ensures Objects(c, PROJECTION_RELEASE_MISMATCH) <==> !(c.releaseId == c.projection.releaseId && c.releaseDigest == c.projection.releaseDigest)
    ensures Objects(c, PROJECTION_POLICY_MISMATCH) <==> c.policyVersion != c.projection.policyVersion
    ensures c.chain.None? ==> forall r: ProjectionRejection :: OfChain(r) ==> !Objects(c, r)
    ensures c.chain.Some? ==>
              && (Objects(c, CHAIN_SETTLEMENT_DISAGREES) <==> !Tolerated(c.projection.settlement, c.chain.value.settlement, c.balanceBps))
              && (Objects(c, CHAIN_GAS_DISAGREES) <==> !Tolerated(c.projection.gas, c.chain.value.gas, c.balanceBps))
              && (Objects(c, CHAIN_CUSTODY_DISAGREES) <==> !CustodyShown(c.projection, c.chain.value, c.balanceBps))
              && (Objects(c, CHAIN_SLOT_BEHIND) <==> c.projection.chainSlot + c.maxSlotLag < c.chain.value.slot)
  {
    if c.chain.Some? {
      ToleranceExactly(c, c.chain.value);
    }
  }

  /** A Map from account and mint to amount, filled in order. */
  method ReadCustody(custody: seq<Holding>) returns (m: map<(nat, nat), nat>)
    ensures forall a: nat, k: nat :: Holds(m, custody, a, k)
  {
    m := map[];
    for i := 0 to |custody|
      invariant forall a: nat, k: nat :: Holds(m, custody[..i], a, k)
    {
      ghost var before, seen := m, custody[..i + 1];
      assert seen[..i] == custody[..i];
      m := m[(custody[i].account, custody[i].mint) := custody[i].amount];
      forall a: nat, k: nat ensures Holds(m, seen, a, k) {
        assert Holds(before, custody[..i], a, k);
      }
    }
    assert custody[..|custody|] == custody;
  }

  ghost predicate Holds(m: map<(nat, nat), nat>, custody: seq<Holding>, account: nat, mint: nat) {
    OnChain(custody, account, mint) == if (account, mint) in m then Some(m[(account, mint)]) else None
  }

  /** The custody loop: it stops at the first holding the chain does not back. */
  method CustodyHolds(p: Projection, chain: ChainReads, bps: nat) returns (ok: bool)
    ensures ok <==> CustodyBacked(p, chain, bps)
  {
    var onChain := ReadCustody(chain.custody);
    for i := 0 to |p.custody|
      invariant forall k :: 0 <= k < i ==> Backed(p.custody[k], chain, bps)
    {
      var h := p.custody[i];
      assert Holds(onChain, chain.custody, h.account, h.mint);
      if (h.account, h.mint) !in onChain || !WithinAbove(h.amount, onChain[(h.account, h.mint)], bps) {
        return false;
      }
    }
    return true;
  }

  predicate OfChain(r: ProjectionRejection) {
    r == CHAIN_SETTLEMENT_DISAGREES || r == CHAIN_GAS_DISAGREES || r == CHAIN_CUSTODY_DISAGREES || r == CHAIN_SLOT_BEHIND
  }

  method RecordReasons(c: Check) returns (reasons: seq<ProjectionRejection>)
    ensures forall r: ProjectionRejection :: r in reasons <==> !OfChain(r) && Objects(c, r)
  {
    var p := c.projection;
    reasons := [];
    if c.last.Some? && p.sequence < c.last.value { reasons := reasons + [PROJECTION_SEQUENCE_ROLLBACK]; }
    var age := c.now - p.asOf;
    if age > c.maxAgeMs { reasons := reasons + [PROJECTION_STALE]; }
    if age < -(c.maxSlotLag * 400) { reasons := reasons + [PROJECTION_FUTURE_DATED]; }
    if p.releaseId != c.releaseId || p.releaseDigest != c.releaseDigest { reasons := reasons + [PROJECTION_RELEASE_MISMATCH]; }
    if p.policyVersion != c.policyVersion { reasons := reasons + [PROJECTION_POLICY_MISMATCH]; }
  }

  method ChainReasons(c: Check, chain: ChainReads) returns (reasons: seq<ProjectionRejection>)
    requires c.chain == Some(chain)
    ensures forall r: ProjectionRejection :: r in reasons <==> OfChain(r) && Objects(c, r)
  {
    var p := c.projection;
    reasons := [];
    if !WithinAbove(p.settlement, chain.settlement, c.balanceBps) { reasons := reasons + [CHAIN_SETTLEMENT_DISAGREES]; }
    if !WithinAbove(p.gas, chain.gas, c.balanceBps) { reasons := reasons + [CHAIN_GAS_DISAGREES]; }
    var custody := CustodyHolds(p, chain, c.balanceBps);
    if !custody { reasons := reasons + [CHAIN_CUSTODY_DISAGREES]; }
    if chain.slot - p.chainSlot > c.maxSlotLag { reasons := reasons + [CHAIN_SLOT_BEHIND]; }
  }

  /** Every objection is reported; accepted exactly when there is none. */
  method VerifyProjection(c: Check) returns (reasons: seq<ProjectionRejection>)
    ensures reasons == [] <==> Acceptable(c)
    ensures !c.signatureValid ==> reasons == [PROJECTION_SIGNATURE_INVALID]
    ensures c.signatureValid ==> forall r: ProjectionRejection :: r in reasons <==> Objects(c, r)
  {
    if !c.signatureValid {
      return [PROJECTION_SIGNATURE_INVALID];
    }
    reasons := RecordReasons(c);
    if c.chain.Some? {
      var more := ChainReasons(c, c.chain.value);
      reasons := reasons + more;
    }
    if reasons != [] {
      assert reasons[0] in reasons;
    }
  }

  /** An accepted projection claims no custody the chain does not show, up to the tolerance. */
  lemma AcceptedCustodyWithinTolerance(c: Check, i: nat)
    requires Acceptable(c) && c.chain.Some? && i < |c.projection.custody|
    ensures var h := c.projection.custody[i]; var onChain := OnChain(c.chain.value.custody, h.account, h.mint);
            onChain.Some? && h.amount * 10000 <= onChain.value * (10000 + c.balanceBps)
  {
    assert !Objects(c, CHAIN_CUSTODY_DISAGREES);
    var h := c.projection.custody[i];
    assert Backed(h, c.chain.value, c.balanceBps);
    WithinAboveIsExact(h.amount, OnChain(c.chain.value.custody, h.account, h.mint).value, c.balanceBps);
  }
}
