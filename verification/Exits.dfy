/** The exit loop of a finished emergency close, and what it leaves in the ledger. */
module Exits {
  import opened Sums
  import opened ExposureLedger
  import opened Records
  import opened Intents
  import opened Protocol
  import opened Recovery

  /** The entry a sale leaves, if any. */
  function SoldEntry(o: OpenEntry, sold: nat, held: nat): Option<OpenEntry> {
    var left := LeftAfterSale(o, sold, held);
    if left == 0 then None else Some(o.(authorized := left, confirmed := Some(left)))
  }

  function AfterSale(open: Open, mint: Mint, sold: nat, held: nat): Open {
    map id | id in open && (open[id].mint != mint || SoldEntry(open[id], sold, held).Some?)
      :: if open[id].mint == mint then SoldEntry(open[id], sold, held).value else open[id]
  }

  /** One exit event does to its entry what selling does. */
  lemma ExitIsSale(open: Open, id: Id, sold: nat, held: nat)
    requires id in open
    ensures EntryOf(After(open, ExitConfirmed(id, SaleReleased(ExposureOf(open[id]), sold, held))), id)
            == SoldEntry(open[id], sold, held)
  {
  }

  lemma {:induction false} ExitLoop(c: Core, key: Key, open: Open, rest: seq<Id>, sold: nat, held: nat, id: Id)
    requires Distinct(rest) && forall i :: 0 <= i < |rest| ==> rest[i] in open && rest[i] in c.open && c.open[rest[i]] == open[rest[i]]
    ensures var d := EmitAll(c, key, ExitOuts(open, rest, sold, held));
            EntryOf(d.open, id) == if id in rest then SoldEntry(open[id], sold, held) else EntryOf(c.open, id)
    decreases |rest|
  {
    if rest != [] {
      var out := Ledger(ExitConfirmed(rest[0], SaleReleased(ExposureOf(open[rest[0]]), sold, held)));
      assert ExitOuts(open, rest, sold, held) == [out] + ExitOuts(open, rest[1..], sold, held);
      assert ExitOuts(open, rest, sold, held)[1..] == ExitOuts(open, rest[1..], sold, held);
      var d := Emit(c, key, out);
      ExitIsSale(c.open, rest[0], sold, held);
      forall i | 0 <= i < |rest[1..]| ensures rest[1..][i] in d.open && d.open[rest[1..][i]] == open[rest[1..][i]] {
        assert rest[1..][i] == rest[i + 1];
      }
      ExitLoop(d, key, open, rest[1..], sold, held, id);
      RestMembers(rest, id);
    }
  }

  /** Whatever order the loop visits them in, every entry of the mint is sold in proportion to its
      exposure at the start, and nothing else changes. */
  lemma ExitsSellTheMint(c: Core, key: Key, mint: Mint, order: seq<Id>, sold: nat, held: nat)
    requires ListsMint(c.open, mint, order)
    ensures EmitAll(c, key, ExitOuts(c.open, order, sold, held)).open == AfterSale(c.open, mint, sold, held)
  {
    var d := EmitAll(c, key, ExitOuts(c.open, order, sold, held));
    forall id: Id ensures EntryOf(d.open, id) == EntryOf(AfterSale(c.open, mint, sold, held), id) {
      ExitLoop(c, key, c.open, order, sold, held, id);
    }
    SameEntries(d.open, AfterSale(c.open, mint, sold, held));
  }

  /** The mint's exposure afterwards: the exact proportion kept, plus less than one base unit an entry. */
  lemma MintExposureAfterSale(c: Core, key: Key, mint: Mint, order: seq<Id>, sold: nat, held: nat)
    requires ListsMint(c.open, mint, order) && held > 0 && sold <= held
    requires forall id :: id in c.open && c.open[id].mint == mint ==> FullyCounted(c.open[id])
    ensures var d := EmitAll(c, key, ExitOuts(c.open, order, sold, held));
            RoundedUpTotal(Sum(OfMint(c.open, mint)), Sum(OfMint(d.open, mint)), |OfMint(c.open, mint)|, held - sold, held)
  {
    ExitsSellTheMint(c, key, mint, order, sold, held);
    SaleOfMint(c.open, mint, sold, held);
    SumDropZeros(OfMintAfter(c.open, mint, sold, held), OfMint(AfterSale(c.open, mint, sold, held), mint));
  }

  /** Selling all that is held, or more, leaves no entry of the mint. */
  lemma FullSaleClearsMint(c: Core, key: Key, mint: Mint, order: seq<Id>, sold: nat, held: nat)
    requires ListsMint(c.open, mint, order) && sold >= held
    ensures forall id :: id in EmitAll(c, key, ExitOuts(c.open, order, sold, held)).open ==>
                           id in c.open && c.open[id].mint != mint
  {
    ExitsSellTheMint(c, key, mint, order, sold, held);
    forall id | id in c.open && c.open[id].mint == mint ensures SoldEntry(c.open[id], sold, held) == None {
      FullSaleClears(c.open[id], sold, held);
    }
  }

  // ---------------------------------------------------------------- a sale that is not recorded

  /** The total falls by the mint's share alone. */
  lemma SaleTotals(open: Open, mint: Mint, sold: nat, held: nat)
    ensures Total(open) + Sum(OfMintAfter(open, mint, sold, held)) == Total(AfterSale(open, mint, sold, held)) + Sum(OfMint(open, mint))
  {
    var after := AfterSale(open, mint, sold, held);
    var others := map id | id in open && open[id].mint != mint :: ExposureOf(open[id]);
    assert Parts(Exposures(open), OfMint(open, mint), others);
    SumUnion(Exposures(open), OfMint(open, mint), others);
    assert Parts(Exposures(after), OfMint(after, mint), others);
    SumUnion(Exposures(after), OfMint(after, mint), others);
    SumDropZeros(OfMintAfter(open, mint, sold, held), OfMint(after, mint));
  }

  /** How far the ledger of a recovery that found an emergency exit final over-counts against the tracker's, had the
      tracker recorded it: by all that the sale takes out of the mint, and nothing else differs. */
  lemma RecoveryOverCounts(c: Core, id: Id, a: Attempt, sig: Sig, order: seq<Id>, mint: Mint)
    requires IsEmergency(a) && id !in c.open && ListsMint(c.open, mint, order)
    ensures var recovered := EmitAll(c, KeyOf(a), ResolveOuts(c.open, id, a, Final));
            var tracked := EmitAll(c, KeyOf(a), TickOuts(c.open, id, a, sig, QFinalized, order));
            && recovered.open == c.open && tracked.open == AfterSale(c.open, mint, NotionalOf(a), HeldOf(a))
            && Total(recovered.open) + Sum(OfMint(tracked.open, mint)) == Total(tracked.open) + Sum(OfMint(recovered.open, mint))
  {
    var last := Result(id, KeyOf(a), FINALIZED, COMPLETED, Tracked, IfExecuting(COMPLETED));
    EmitOne(c, KeyOf(a), Result(id, KeyOf(a), FINALIZED, COMPLETED, Recovered, Via(COMPLETED)));
    ExitsSellTheMint(c, KeyOf(a), mint, order, NotionalOf(a), HeldOf(a));
    ExitsThen(c, KeyOf(a), c.open, order, NotionalOf(a), HeldOf(a), last);
    SaleTotals(c.open, mint, NotionalOf(a), HeldOf(a));
    SumDropZeros(OfMintAfter(c.open, mint, NotionalOf(a), HeldOf(a)), OfMint(AfterSale(c.open, mint, NotionalOf(a), HeldOf(a)), mint));
  }

  /** The exits, then a line. */
  lemma {:induction false} ExitsThen(c: Core, key: Key, open: Open, order: seq<Id>, sold: nat, held: nat, last: Out)
    requires last.Line? && forall i :: 0 <= i < |order| ==> order[i] in open
    ensures EmitAll(c, key, ExitOuts(open, order, sold, held) + [last])
            == Emit(EmitAll(c, key, ExitOuts(open, order, sold, held)), key, last)
    decreases |order|
  {
    var outs := ExitOuts(open, order, sold, held);
    if order == [] {
      assert outs + [last] == [last];
      EmitOne(c, key, last);
    } else {
      assert (outs + [last])[0] == outs[0] && (outs + [last])[1..] == outs[1..] + [last];
      assert outs[1..] == ExitOuts(open, order[1..], sold, held);
      ExitsThen(Emit(c, key, outs[0]), key, open, order[1..], sold, held, last);
    }
  }

  /** In figures: the over-count is the sold proportion of the mint's exposure, less than one base unit an entry short of it. */
  lemma OverCountBounds(c: Core, id: Id, a: Attempt, sig: Sig, order: seq<Id>, mint: Mint)
    requires IsEmergency(a) && id !in c.open && ListsMint(c.open, mint, order) && HeldOf(a) > 0 && NotionalOf(a) <= HeldOf(a)
    requires forall x :: x in c.open && c.open[x].mint == mint ==> FullyCounted(c.open[x])
    ensures var over := Total(EmitAll(c, KeyOf(a), ResolveOuts(c.open, id, a, Final)).open)
                        - Total(EmitAll(c, KeyOf(a), TickOuts(c.open, id, a, sig, QFinalized, order)).open);
            var sold := Sum(OfMint(c.open, mint)) * NotionalOf(a);
            sold - |OfMint(c.open, mint)| * (HeldOf(a) - 1) <= over * HeldOf(a) <= sold
  {
    RecoveryOverCounts(c, id, a, sig, order, mint);
    MintExposureAfterSale(c, KeyOf(a), mint, order, NotionalOf(a), HeldOf(a));
    ExitsSellTheMint(c, KeyOf(a), mint, order, NotionalOf(a), HeldOf(a));
    var before, after := Sum(OfMint(c.open, mint)), Sum(OfMint(AfterSale(c.open, mint, NotionalOf(a), HeldOf(a)), mint));
    OverCountArithmetic(before, after, |OfMint(c.open, mint)|, NotionalOf(a), HeldOf(a));
  }

  lemma OverCountArithmetic(before: nat, after: nat, count: nat, sold: nat, held: nat)
    requires sold <= held && RoundedUpTotal(before, after, count, held - sold, held)
    ensures before * sold - count * (held - 1) <= (before - after) * held <= before * sold
  {
    assert before * (held - sold) == before * held - before * sold;
    assert (before - after) * held == before * held - after * held;
  }
}
