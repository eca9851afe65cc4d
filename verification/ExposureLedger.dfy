/** The executor's exposure ledger, and what a proportional exit leaves in it. */
module ExposureLedger {
  import opened Numbers
  import opened Sums

  type Id = nat
  type Mint = nat

  datatype ProtectionMode = MonitoredExit | JupiterTrigger

  datatype ExposureEvent =
    | EntryAuthorized(intentId: Id, mint: Mint, notional: nat, protection: ProtectionMode)
    | EntryConfirmed(intentId: Id, costBasis: nat)
    | EntryReleased(intentId: Id)
    | ExitConfirmed(intentId: Id, costReleased: nat)
    | ProtectionChanged(intentId: Id, protection: ProtectionMode)

  datatype OpenEntry = OpenEntry(mint: Mint, authorized: nat, confirmed: Option<nat>, protection: ProtectionMode)

  type Open = map<Id, OpenEntry>

  function ExposureOf(o: OpenEntry): nat {
    if o.confirmed.Some? && o.confirmed.value > o.authorized then o.confirmed.value else o.authorized
  }

  function BasisOf(o: OpenEntry): nat {
    if o.confirmed.Some? then o.confirmed.value else o.authorized
  }

  /** The two cases in which applying an event throws. */
  predicate Admits(open: Open, e: ExposureEvent) {
    match e
    case EntryAuthorized(id, _, _, _) => id !in open
    case EntryConfirmed(id, _) => id in open
    case _ => true
  }

  function After(open: Open, e: ExposureEvent): Open
    requires Admits(open, e)
  {
    match e
    case EntryAuthorized(id, mint, notional, protection) => open[id := OpenEntry(mint, notional, None, protection)]
    case EntryConfirmed(id, basis) => open[id := open[id].(confirmed := Some(basis))]
    case EntryReleased(id) => open - {id}
    case ExitConfirmed(id, released) =>
      if id !in open then open
      else
        var remaining := if BasisOf(open[id]) > released then BasisOf(open[id]) - released else 0;
        if remaining == 0 then open - {id}
        else open[id := open[id].(confirmed := Some(remaining), authorized := remaining)]
    case ProtectionChanged(id, protection) =>
      if id in open then open[id := open[id].(protection := protection)] else open
  }

  /** What each event does, entry by entry: only its own entry changes, and in exactly this way. */
  lemma AfterExactly(open: Open, e: ExposureEvent)
    requires Admits(open, e)
    ensures forall id: Id :: id != e.intentId ==> (id in After(open, e) <==> id in open) && (id in open ==> After(open, e)[id] == open[id])
    ensures e.EntryAuthorized? ==>
              e.intentId !in open && After(open, e)[e.intentId] == OpenEntry(e.mint, e.notional, None, e.protection)
    ensures e.EntryConfirmed? ==>
              && e.intentId in open && After(open, e)[e.intentId].confirmed == Some(e.costBasis)
              && After(open, e)[e.intentId] == open[e.intentId].(confirmed := Some(e.costBasis))
    ensures e.EntryReleased? ==> e.intentId !in After(open, e)
    ensures e.ProtectionChanged? && e.intentId in open ==> After(open, e)[e.intentId] == open[e.intentId].(protection := e.protection)
    ensures e.ExitConfirmed? && e.intentId in open ==>
              var o := open[e.intentId];
              var basis := match o.confirmed case Some(x) => x case None => o.authorized;
              && (e.intentId !in After(open, e) <==> basis <= e.costReleased)
              && (basis > e.costReleased ==>
                    After(open, e)[e.intentId] == OpenEntry(o.mint, basis - e.costReleased, Some(basis - e.costReleased), o.protection))
    ensures e.ExitConfirmed? || e.ProtectionChanged? ==> (e.intentId !in open ==> After(open, e) == open)
  {
  }

  /** And when it throws: a second authorization of an open entry, a confirmation of one that is not. */
  lemma AdmitsExactly(open: Open, e: ExposureEvent)
    ensures !Admits(open, e) <==> (e.EntryAuthorized? && e.intentId in open) || (e.EntryConfirmed? && e.intentId !in open)
  {
  }

  /** The open entries after replaying a list of events; nothing when some event throws. */
  function Replay(events: seq<ExposureEvent>): Option<Open> {
    if events == [] then Some(map[])
    else
      var before := Replay(events[..|events| - 1]);
      if before.Some? && Admits(before.value, events[|events| - 1])
      then Some(After(before.value, events[|events| - 1]))
      else None
  }

  lemma ReplayNext(events: seq<ExposureEvent>, e: ExposureEvent)
    ensures Replay(events + [e]) ==
            if Replay(events).Some? && Admits(Replay(events).value, e) then Some(After(Replay(events).value, e)) else None
  {
    assert (events + [e])[..|events|] == events;
  }

  function Exposures(open: Open): map<Id, nat> {
    map id | id in open :: ExposureOf(open[id])
  }

  function MonitoredExposures(open: Open): map<Id, nat> {
    map id | id in open && open[id].protection == MonitoredExit :: ExposureOf(open[id])
  }

  ghost function Total(open: Open): nat {
    Sum(Exposures(open))
  }

  ghost function Monitored(open: Open): nat {
    Sum(MonitoredExposures(open))
  }

  /** How each event moves the total: only a reservation, or a fill above the reservation, can raise it. */
  lemma TotalAfter(open: Open, e: ExposureEvent)
    requires Admits(open, e)
    ensures e.EntryAuthorized? ==> Total(After(open, e)) == Total(open) + e.notional
    ensures e.EntryReleased? && e.intentId in open ==> Total(After(open, e)) + ExposureOf(open[e.intentId]) == Total(open)
    ensures e.EntryConfirmed? ==>
              Total(After(open, e)) + ExposureOf(open[e.intentId])
              == Total(open) + (if e.costBasis > open[e.intentId].authorized then e.costBasis else open[e.intentId].authorized)
    ensures e.ExitConfirmed? ==> Total(After(open, e)) <= Total(open)
    ensures e.ProtectionChanged? || (e.EntryReleased? && e.intentId !in open) ==> Total(After(open, e)) == Total(open)
  {
    var id := e.intentId;
    var m, n := Exposures(open), Exposures(After(open, e));
    if id in After(open, e) {
      assert n == m[id := ExposureOf(After(open, e)[id])];
      if id in open {
        SumReplace(m, id, n[id]);
      } else {
        SumAdd(m, id, n[id]);
      }
    } else if id in open {
      assert n == m - {id};
      SumRemove(m, id);
    } else {
      assert n == m;
    }
  }

  // ---------------------------------------------------------------- the class

  class ExecutorExposureLedger {
    var events: seq<ExposureEvent>
    var open: Open

    ghost predicate Valid()
      reads this
    {
      Replay(events) == Some(open)
    }

    constructor ()
      ensures Valid() && events == [] && open == map[]
    {
      events, open := [], map[];
    }

    method Apply(e: ExposureEvent) returns (ok: bool)
      requires Valid()
      modifies this
      ensures Valid() && ok == Admits(old(open), e)
      ensures ok ==> open == After(old(open), e) && events == old(events) + [e]
      ensures !ok ==> open == old(open) && events == old(events)
    {
      ReplayNext(events, e);
      match e {
        case EntryAuthorized(id, mint, notional, protection) =>
          if id in open {
            return false;
          }
          open := open[id := OpenEntry(mint, notional, None, protection)];
        case EntryConfirmed(id, basis) =>
          if id !in open {
            return false;
          }
          open := open[id := open[id].(confirmed := Some(basis))];
        case EntryReleased(id) =>
          open := open - {id};
        case ExitConfirmed(id, released) =>
          if id in open {
            var o := open[id];
            var basis := if o.confirmed.Some? then o.confirmed.value else o.authorized;
            var remaining := if basis > released then basis - released else 0;
            if remaining == 0 {
              open := open - {id};
            } else {
              open := open[id := o.(confirmed := Some(remaining), authorized := remaining)];
            }
          }
        case ProtectionChanged(id, protection) =>
          if id in open {
            open := open[id := open[id].(protection := protection)];
          }
      }
      events := events + [e];
      ok := true;
    }

    /** Rebuilds a ledger from journaled events; fails on the first event that throws. */
    static method FromEvents(history: seq<ExposureEvent>) returns (l: ExecutorExposureLedger, ok: bool)
      ensures fresh(l) && l.Valid()
      ensures ok == Replay(history).Some?
      ensures ok ==> l.events == history && Some(l.open) == Replay(history)
    {
      l := new ExecutorExposureLedger();
      ok := true;
      for i := 0 to |history|
        invariant fresh(l) && l.Valid() && l.events == history[..i]
      {
        assert history[..i + 1] == history[..i] + [history[i]];
        ReplayNext(history[..i], history[i]);
        ok := l.Apply(history[i]);
        if !ok {
          ReplayStuck(history, i + 1);
          return;
        }
      }
      assert history[..|history|] == history;
    }

    method AggregateNonSettlementExposure() returns (total: nat)
      ensures total == Total(open)
    {
      total := SumUp(Exposures(open));
    }

    method SignerDependentExposure() returns (total: nat)
      ensures total == Monitored(open)
    {
      total := SumUp(MonitoredExposures(open));
    }

    /** The open entries holding `mint`, each once, with the exposure each currently counts for. */
    method OpenByMint(mint: Mint) returns (list: seq<(Id, nat)>)
      ensures forall i :: 0 <= i < |list| ==> list[i].0 in open && open[list[i].0].mint == mint && list[i].1 == ExposureOf(open[list[i].0])
      ensures forall i, k :: 0 <= i < k < |list| ==> list[i].0 != list[k].0
      ensures forall id :: id in open && open[id].mint == mint ==> exists i :: 0 <= i < |list| && list[i].0 == id
    {
      list := [];
      var todo := open.Keys;
      while todo != {}
        invariant todo <= open.Keys
        invariant forall i :: 0 <= i < |list| ==> list[i].0 in open && list[i].0 !in todo && open[list[i].0].mint == mint && list[i].1 == ExposureOf(open[list[i].0])
        invariant forall i, k :: 0 <= i < k < |list| ==> list[i].0 != list[k].0
        invariant forall id :: id in open && id !in todo && open[id].mint == mint ==> exists i :: 0 <= i < |list| && list[i].0 == id
        decreases todo
      {
        var id :| id in todo;
        todo := todo - {id};
        if open[id].mint == mint {
          ghost var before := list;
          list := list + [(id, ExposureOf(open[id]))];
          assert list[|before|].0 == id;
          assert forall i :: 0 <= i < |before| ==> list[i] == before[i];
        }
      }
    }
  }

  lemma {:induction false} ReplayStuck(events: seq<ExposureEvent>, n: nat)
    requires n <= |events| && Replay(events[..n]) == None
    ensures Replay(events) == None
    decreases |events|
  {
    if n == |events| {
      assert events[..n] == events;
    } else {
      assert events[..|events| - 1][..n] == events[..n];
      ReplayStuck(events[..|events| - 1], n);
    }
  }

  /** The accumulator loop over the map's values. */
  method SumUp(m: map<Id, nat>) returns (total: nat)
    ensures total == Sum(m)
  {
    total := 0;
    var todo := m;
    while todo != map[]
      invariant todo.Keys <= m.Keys && (forall k :: k in todo ==> todo[k] == m[k]) && total + Sum(todo) == Sum(m)
      decreases |todo|
    {
      var k :| k in todo;
      SumRemove(todo, k);
      total := total + todo[k];
      todo := todo - {k};
    }
  }

  // ---------------------------------------------------------------- proportional exits

  /** What the executor releases for an entry when `sold` of a chain-held `held` quantity was sold. */
  function SaleReleased(exposure: nat, sold: nat, held: nat): nat {
    if held > 0 then Share(exposure, sold, held) else exposure
  }

  /** `mulDiv` with FLOOR. */
  function Share(a: nat, num: nat, den: nat): (q: nat)
    requires den > 0
    ensures q * den <= a * num < q * den + den
  {
    DivMod(a * num, den);
    a * num / den
  }

  /** The exact proportion of `a`, rounded up. */
  function ShareUp(a: nat, num: nat, den: nat): (q: nat)
    requires den > 0
    ensures a * num <= q * den < a * num + den
  {
    DivMod(a * num, den);
    if a * num % den == 0 then a * num / den else a * num / den + 1
  }

  lemma ShareComplement(a: nat, sold: nat, held: nat)
    requires held > 0 && sold <= held
    ensures Share(a, sold, held) <= a && a - Share(a, sold, held) == ShareUp(a, held - sold, held)
    ensures Share(a, sold, held) == a <==> a == 0 || sold == held
  {
    var q := Share(a, sold, held);
    assert a * held == a * sold + a * (held - sold);
    assert (a - q) * held == a * held - q * held;
    QuotientUnique(a - q, ShareUp(a, held - sold, held), held, a * (held - sold));
    if a > 0 && sold < held {
      MulMonotone(1, held - sold, a);
    } else if sold == held {
      assert ShareUp(a, 0, held) == 0;
    }
  }

  ghost predicate FullyCounted(o: OpenEntry) {
    o.confirmed.None? || o.confirmed.value >= o.authorized
  }

  /** Exposure an entry counts for once the exit event of a sale has been applied; zero when it is gone. */
  function LeftAfterSale(o: OpenEntry, sold: nat, held: nat): nat {
    var after := After(map[0 := o], ExitConfirmed(0, SaleReleased(ExposureOf(o), sold, held)));
    if 0 in after then ExposureOf(after[0]) else 0
  }

  /** A sale leaves exactly the rounded-up proportion, unless the confirmed basis undercuts the
      authorized notional and something was kept: then it leaves less. */
  lemma SaleLeavesExactShare(o: OpenEntry, sold: nat, held: nat)
    requires held > 0 && sold <= held
    ensures LeftAfterSale(o, sold, held) == ShareUp(ExposureOf(o), held - sold, held) <==> FullyCounted(o) || sold == held
    ensures LeftAfterSale(o, sold, held) <= ShareUp(ExposureOf(o), held - sold, held)
  {
    ShareComplement(ExposureOf(o), sold, held);
  }

  /** Selling everything, selling more than the chain reading, or a zero reading clears the entry. */
  lemma FullSaleClears(o: OpenEntry, sold: nat, held: nat)
    requires sold >= held
    ensures LeftAfterSale(o, sold, held) == 0
  {
    if held > 0 {
      var a := ExposureOf(o);
      var q := Share(a, sold, held);
      if q < a {
        MulMonotone(q + 1, a, held);
        if a > 0 {
          MulMonotone(held, sold, a);
        }
      }
    }
  }

  /** What each open entry of the mint counts for before and after the sale. */
  function OfMint(open: Open, mint: Mint): map<Id, nat> {
    map id | id in open && open[id].mint == mint :: ExposureOf(open[id])
  }

  function OfMintAfter(open: Open, mint: Mint, sold: nat, held: nat): map<Id, nat> {
    map id | id in open && open[id].mint == mint :: LeftAfterSale(open[id], sold, held)
  }

  /** Over n entries the rounding over-counts by less than n base units and never under-counts. */
  lemma SaleOfMint(open: Open, mint: Mint, sold: nat, held: nat)
    requires held > 0 && sold <= held
    requires forall id :: id in open && open[id].mint == mint ==> FullyCounted(open[id])
    ensures var n := OfMint(open, mint); var m := OfMintAfter(open, mint, sold, held);
            RoundedUpTotal(Sum(n), Sum(m), |n|, held - sold, held)
  {
    var n, m := OfMint(open, mint), OfMintAfter(open, mint, sold, held);
    forall id | id in n ensures RoundedUp(n[id], m[id], held - sold, held) {
      SaleLeavesExactShare(open[id], sold, held);
    }
    RoundingAddsUp(n, m, held - sold, held);
  }

  /** y is x * num / den rounded up. */
  ghost predicate RoundedUp(x: nat, y: nat, num: nat, den: nat) {
    x * num <= y * den < x * num + den
  }

  /** ys exceeds xs * num / den by less than one unit for each of `count` roundings. */
  ghost predicate RoundedUpTotal(xs: nat, ys: nat, count: nat, num: nat, den: nat) {
    xs * num <= ys * den <= xs * num + count * (den - 1)
  }

  lemma {:induction false} RoundingAddsUp(n: map<Id, nat>, m: map<Id, nat>, num: nat, den: nat)
    requires den > 0 && n.Keys == m.Keys
    requires forall id :: id in n ==> RoundedUp(n[id], m[id], num, den)
    ensures RoundedUpTotal(Sum(n), Sum(m), |n|, num, den)
    decreases |n|
  {
    if n == map[] {
      assert m == map[];
    } else {
      var id :| id in n;
      SumRemove(n, id);
      SumRemove(m, id);
      assert |(n - {id}).Keys| == |n.Keys| - 1;
      RoundingAddsUp(n - {id}, m - {id}, num, den);
      RoundingStep(n[id], Sum(n - {id}), m[id], Sum(m - {id}), |n| - 1, num, den);
    }
  }

  lemma RoundingStep(x: nat, xs: nat, y: nat, ys: nat, count: nat, num: nat, den: nat)
    requires den > 0 && RoundedUp(x, y, num, den) && RoundedUpTotal(xs, ys, count, num, den)
    ensures RoundedUpTotal(x + xs, y + ys, count + 1, num, den)
  {
    Distribute(x, xs, num);
    Distribute(y, ys, den);
    Distribute(1, count, den - 1);
  }

  // ---------------------------------------------------------------- a sequence of partial exits

  predicate Affordable(held: nat, sales: seq<nat>) {
    sales == [] || (sales[0] <= held && Affordable(held - sales[0], sales[1..]))
  }

  function HeldAfter(held: nat, sales: seq<nat>): nat
    requires Affordable(held, sales)
  {
    if sales == [] then held else HeldAfter(held - sales[0], sales[1..])
  }

  /** The exposure left by successive sales, each measured against what the chain then holds. */
  function LeftAfterSales(o: OpenEntry, held: nat, sales: seq<nat>): nat
    requires Affordable(held, sales)
    decreases |sales|
  {
    if sales == [] then ExposureOf(o)
    else
      var left := LeftAfterSale(o, sales[0], held);
      if left == 0 then 0
      else LeftAfterSales(o.(authorized := left, confirmed := Some(left)), held - sales[0], sales[1..])
  }

  /** However many partial exits, exposure never falls below the exact proportion of what is still
      held, and exceeds it by less than one base unit per exit. */
  lemma {:induction false} RepeatedExits(o: OpenEntry, held: nat, sales: seq<nat>)
    requires held > 0 && FullyCounted(o) && Affordable(held, sales)
    ensures var left := LeftAfterSales(o, held, sales); var rest := HeldAfter(held, sales);
            ExposureOf(o) * rest <= left * held <= ExposureOf(o) * rest + |sales| * held
    decreases |sales|
  {
    if sales != [] {
      var s := sales[0];
      var left := LeftAfterSale(o, s, held);
      SaleLeavesExactShare(o, s, held);
      HeldOnlyFalls(held - s, sales[1..]);
      var rest := HeldAfter(held, sales);
      if left == 0 {
        NothingLeft(ExposureOf(o), held, s, rest);
      } else {
        if held == s {
          FullSaleClears(o, s, held);
        }
        var o1 := o.(authorized := left, confirmed := Some(left));
        RepeatedExits(o1, held - s, sales[1..]);
        ChainLower(ExposureOf(o), left, LeftAfterSales(o, held, sales), held, held - s, rest);
        ChainUpper(ExposureOf(o), left, LeftAfterSales(o, held, sales), held, held - s, rest, |sales| - 1);
      }
    }
  }

  lemma NothingLeft(a: nat, held: nat, sold: nat, rest: nat)
    requires held > 0 && sold <= held && ShareUp(a, held - sold, held) == 0 && rest <= held - sold
    ensures a * rest == 0
  {
    if a > 0 && held > sold {
      MulMonotone(1, held - sold, a);
    }
  }

  lemma {:induction false} HeldOnlyFalls(held: nat, sales: seq<nat>)
    requires Affordable(held, sales)
    ensures HeldAfter(held, sales) <= held
    decreases |sales|
  {
    if sales != [] {
      HeldOnlyFalls(held - sales[0], sales[1..]);
    }
  }

  /** From a to b as h0 falls to h1, then from b to c as h1 falls to h2. */
  lemma ChainLower(a: nat, b: nat, c: nat, h0: nat, h1: nat, h2: nat)
    requires 0 < h1 && a * h1 <= b * h0 && b * h2 <= c * h1
    ensures a * h2 <= c * h0
  {
    MulMonotone(a * h1, b * h0, h2);
    MulMonotone(b * h2, c * h1, h0);
    assert a * h1 * h2 == (a * h2) * h1;
    assert b * h0 * h2 == b * h2 * h0;
    assert c * h1 * h0 == (c * h0) * h1;
    MulCancel(a * h2, c * h0, h1);
  }

  lemma ChainUpper(a: nat, b: nat, c: nat, h0: nat, h1: nat, h2: nat, k: nat)
    requires 0 < h1 && h2 <= h1 && b * h0 <= a * h1 + h0 && c * h1 <= b * h2 + k * h1
    ensures c * h0 <= a * h2 + (k + 1) * h0
  {
    MulMonotone(c * h1, b * h2 + k * h1, h0);
    MulMonotone(b * h0, a * h1 + h0, h2);
    MulMonotone(h2, h1, h0);
    Distribute(b * h2, k * h1, h0);
    Distribute(a * h1, h0, h2);
    assert c * h1 * h0 == (c * h0) * h1;
    assert b * h2 * h0 == b * h0 * h2;
    assert k * h1 * h0 == (k * h0) * h1;
    assert a * h1 * h2 == (a * h2) * h1;
    assert (k + 1) * h0 == k * h0 + h0;
    Distribute(a * h2, (k + 1) * h0, h1);
    Distribute(k * h0, h0, h1);
    assert h0 * h2 <= h0 * h1;
    MulCancel(c * h0, a * h2 + (k + 1) * h0, h1);
  }
}
