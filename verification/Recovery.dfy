/** What a recovery leaves behind: attempt by attempt, when repeated, and when a crash cuts it short. */
module Recovery {
  import opened Sums
  import opened ExposureLedger
  import opened Records
  import opened Intents
  import opened Protocol

  /** What chain and clock decide about an attempt. */
  datatype Fate = Leave | ToExpire | ToFinal | ToDead

  function FateOf(a: Attempt, now: int, view: View): Fate {
    if Expired(a, now) then ToExpire
    else if !Unresolved(a) then Leave
    else match VerdictOn(a, view)
         case Keep => Leave
         case Final => ToFinal
         case Dead => ToDead
  }

  function EntryOf(open: Open, id: Id): Option<OpenEntry> {
    if id in open then Some(open[id]) else None
  }

  /** The ledger entry an attempt should end with. */
  function FatedEntry(e: Option<OpenEntry>, a: Attempt, fate: Fate): Option<OpenEntry> {
    match fate
    case Leave => e
    case ToFinal => if e.Some? then Some(e.value.(confirmed := Some(NotionalOf(a)))) else None
    case _ => None
  }

  predicate Closed(a: Attempt) {
    a.doneSince && a.last.ResultLine?
  }

  ghost predicate Untouched(c0: Core, c: Core, id: Id) {
    AttemptOf(c.journal, id) == AttemptOf(c0.journal, id) && EntryOf(c.open, id) == EntryOf(c0.open, id)
  }

  ghost predicate Settled(c0: Core, c: Core, id: Id, now: int, view: View) {
    var a := AttemptOf(c0.journal, id);
    && FateOf(a, now, view) != Leave && Closed(AttemptOf(c.journal, id))
    && EntryOf(c.open, id) == FatedEntry(EntryOf(c0.open, id), a, FateOf(a, now, view))
  }

  /** Between an attempt's ledger event and its result line. */
  ghost predicate Halfway(c0: Core, c: Core, id: Id, now: int, view: View) {
    var a0, a := AttemptOf(c0.journal, id), AttemptOf(c.journal, id);
    && FateOf(a0, now, view) != Leave && a == a0.(releases := a.releases)
    && EntryOf(c.open, id) == FatedEntry(EntryOf(c0.open, id), a0, FateOf(a0, now, view))
  }

  // ---------------------------------------------------------------- one segment

  lemma EmitNone(c: Core, key: Key)
    ensures EmitAll(c, key, []) == c
  {
  }

  lemma EmitOne(c: Core, key: Key, x: Out)
    requires CanEmit(c, x)
    ensures EmitAll(c, key, [x]) == Emit(c, key, x)
  {
    assert [x][1..] == [];
  }

  lemma EmitTwo(c: Core, key: Key, x: Out, y: Out)
    requires CanEmit(c, x) && CanEmit(Emit(c, key, x), y)
    ensures EmitAll(c, key, [x, y]) == Emit(Emit(c, key, x), key, y)
  {
    assert [x, y][1..] == [y];
    EmitOne(Emit(c, key, x), key, y);
  }

  predicate About(out: Out, id: Id) {
    match out
    case Ledger(e) => e.intentId == id
    case Line(r, _) => Plain(r) && Subject(r) == Some(id)
    case Halt(_) => false
  }

  lemma EmitElsewhere(c: Core, key: Key, out: Out, id: Id, other: Id)
    requires CanEmit(c, out) && About(out, id) && other != id
    ensures Untouched(c, Emit(c, key, out), other)
  {
    match out
    case Ledger(e) => AttemptNext(c.journal, ExposureUpdated(e), other);
    case Line(r, _) => AttemptNext(c.journal, r, other);
  }

  /** The segment of an attempt whose fate is not to be left: its event first, unless nothing is open, then its result. */
  predicate Settling(outs: seq<Out>, open: Open, id: Id, a: Attempt, fate: Fate) {
    && 1 <= |outs| <= 2 && About(outs[|outs| - 1], id)
    && outs[|outs| - 1].Line? && outs[|outs| - 1].rec.AttemptResult?
    && (|outs| == 1 ==> fate != ToDead && id !in open)
    && (|outs| == 2 ==> outs[0] == Ledger(if fate == ToFinal then EntryConfirmed(id, NotionalOf(a)) else EntryReleased(id)))
    && (|outs| == 2 && fate == ToFinal ==> id in open)
    && fate != Leave
  }

  ghost predicate Elsewhere(c: Core, d: Core, id: Id) {
    forall other: Id :: other != id ==> Untouched(c, d, other)
  }

  lemma EmitOnly(c: Core, key: Key, out: Out, id: Id)
    requires Faithful(c) && CanEmit(c, out) && About(out, id)
    ensures Faithful(Emit(c, key, out)) && Elsewhere(c, Emit(c, key, out), id)
  {
    FaithfulEmit(c, key, out);
    forall other: Id | other != id ensures Untouched(c, Emit(c, key, out), other) {
      EmitElsewhere(c, key, out, id, other);
    }
  }

  ghost predicate SettledOnly(c: Core, d: Core, id: Id, now: int, view: View) {
    Faithful(d) && Settled(c, d, id, now, view) && Elsewhere(c, d, id)
  }

  ghost predicate HalfwayOnly(c: Core, d: Core, id: Id, now: int, view: View) {
    Faithful(d) && Halfway(c, d, id, now, view) && Elsewhere(c, d, id)
  }

  lemma EventOut(c: Core, key: Key, outs: seq<Out>, id: Id, now: int, view: View)
    requires Faithful(c) && |outs| == 2
    requires Settling(outs, c.open, id, AttemptOf(c.journal, id), FateOf(AttemptOf(c.journal, id), now, view))
    ensures CanEmit(c, outs[0]) && HalfwayOnly(c, Emit(c, key, outs[0]), id, now, view)
  {
    EmitOnly(c, key, outs[0], id);
    AttemptNext(c.journal, ExposureUpdated(outs[0].event), id);
  }

  lemma ElsewhereChains(c: Core, h: Core, d: Core, id: Id)
    requires Elsewhere(c, h, id) && Elsewhere(h, d, id)
    ensures Elsewhere(c, d, id)
  {
    forall other: Id | other != id ensures Untouched(c, d, other) {
      assert Untouched(c, h, other) && Untouched(h, d, other);
    }
  }

  lemma ResultCloses(h: Core, key: Key, last: Out, id: Id)
    requires About(last, id) && last.Line? && last.rec.AttemptResult?
    ensures Closed(AttemptOf(Emit(h, key, last).journal, id)) && Emit(h, key, last).open == h.open
  {
    AttemptNext(h.journal, last.rec, id);
  }

  lemma ResultOut(c: Core, h: Core, key: Key, last: Out, id: Id, now: int, view: View)
    requires Faithful(h) && Elsewhere(c, h, id)
    requires About(last, id) && last.Line? && last.rec.AttemptResult?
    requires FateOf(AttemptOf(c.journal, id), now, view) != Leave
    requires EntryOf(h.open, id) == FatedEntry(EntryOf(c.open, id), AttemptOf(c.journal, id), FateOf(AttemptOf(c.journal, id), now, view))
    ensures SettledOnly(c, Emit(h, key, last), id, now, view)
  {
    EmitOnly(h, key, last, id);
    ResultCloses(h, key, last, id);
    ElsewhereChains(c, h, Emit(h, key, last), id);
  }

  lemma SegmentSettles(c: Core, key: Key, outs: seq<Out>, id: Id, now: int, view: View)
    requires Faithful(c)
    requires Settling(outs, c.open, id, AttemptOf(c.journal, id), FateOf(AttemptOf(c.journal, id), now, view))
    ensures SettledOnly(c, EmitAll(c, key, outs), id, now, view)
    ensures |EmitAll(c, key, outs).journal| == |c.journal| + |outs| && c.journal <= EmitAll(c, key, outs).journal
    ensures |outs| == 2 ==>
              CanEmit(c, outs[0]) && HalfwayOnly(c, Emit(c, key, outs[0]), id, now, view)
              && Emit(c, key, outs[0]).journal == EmitAll(c, key, outs).journal[..|c.journal| + 1]
  {
    if |outs| == 2 {
      EventOut(c, key, outs, id, now, view);
      assert outs == [outs[0], outs[1]];
      EmitTwo(c, key, outs[0], outs[1]);
      ResultOut(c, Emit(c, key, outs[0]), key, outs[1], id, now, view);
    } else {
      assert outs == [outs[0]];
      EmitOne(c, key, outs[0]);
      ResultOut(c, c, key, outs[0], id, now, view);
    }
  }

  lemma ExpiryIsSettling(c: Core, id: Id, now: int, view: View)
    requires Expired(AttemptOf(c.journal, id), now)
    ensures var a := AttemptOf(c.journal, id); Settling(ExpireOuts(c.open, id, a), c.open, id, a, FateOf(a, now, view))
  {
  }

  lemma VerdictIsSettling(c: Core, id: Id, now: int, view: View)
    requires var a := AttemptOf(c.journal, id); Unresolved(a) && !Expired(a, now) && VerdictOn(a, view) != Keep
    ensures var a := AttemptOf(c.journal, id);
            Settling(ResolveOuts(c.open, id, a, VerdictOn(a, view)), c.open, id, a, FateOf(a, now, view))
  {
  }

  // ---------------------------------------------------------------- distinct ids

  ghost predicate Distinct(ids: seq<Id>) {
    forall i, k :: 0 <= i < k < |ids| ==> ids[i] != ids[k]
  }

  lemma {:induction false} PreparedIdsDistinct(j: seq<Record>)
    ensures Distinct(PreparedIds(j))
  {
    if j != [] {
      PreparedIdsDistinct(j[..|j| - 1]);
    }
  }

  lemma {:induction false} TouchedIdsDistinct(j: seq<Record>)
    ensures Distinct(TouchedIds(j))
  {
    if j != [] {
      TouchedIdsDistinct(j[..|j| - 1]);
    }
  }

  lemma {:induction false} OnlyUnresolvedDistinct(j: seq<Record>, ids: seq<Id>)
    requires Distinct(ids)
    ensures Distinct(OnlyUnresolved(j, ids))
    decreases |ids|
  {
    if ids != [] {
      OnlyUnresolvedDistinct(j, ids[1..]);
      OnlyUnresolvedMembers(j, ids[1..], ids[0]);
    }
  }

  // ---------------------------------------------------------------- the two loops

  ghost predicate Ready(c0: Core, c: Core, id: Id, settled: bool, now: int, view: View) {
    if settled then Settled(c0, c, id, now, view) else Untouched(c0, c, id)
  }

  /** During the first loop: expired attempts no longer listed are settled, everything else is untouched. */
  ghost predicate Expiring(c0: Core, c: Core, rest: seq<Id>, now: int, view: View) {
    && Faithful(c) && Distinct(rest)
    && forall id: Id :: Ready(c0, c, id, Expired(AttemptOf(c0.journal, id), now) && id !in rest, now, view)
  }

  /** During the second loop. */
  ghost predicate Resolving(c0: Core, c: Core, rest: seq<Id>, now: int, view: View) {
    && Faithful(c) && Distinct(rest)
    && (forall id: Id :: id in rest ==> Unresolved(AttemptOf(c0.journal, id)) && !Expired(AttemptOf(c0.journal, id), now))
    && forall id: Id :: Ready(c0, c, id, FateOf(AttemptOf(c0.journal, id), now, view) != Leave && id !in rest, now, view)
  }

  lemma RestMembers(rest: seq<Id>, id: Id)
    requires rest != []
    ensures id in rest <==> id == rest[0] || id in rest[1..]
  {
  }

  lemma SettledCarries(c0: Core, c: Core, d: Core, id: Id, now: int, view: View)
    requires Untouched(c0, c, id)
    ensures Settled(c, d, id, now, view) ==> Settled(c0, d, id, now, view)
    ensures Halfway(c, d, id, now, view) ==> Halfway(c0, d, id, now, view)
  {
  }

  /** One attempt settled, the others as they were. */
  lemma ReadyElsewhere(c0: Core, c: Core, d: Core, id: Id, settled: bool, now: int, view: View)
    requires Untouched(c, d, id) && Ready(c0, c, id, settled, now, view)
    ensures Ready(c0, d, id, settled, now, view)
  {
  }

  lemma ExpireOneStep(c0: Core, c: Core, rest: seq<Id>, now: int, view: View)
    requires Expiring(c0, c, rest, now, view) && rest != []
    ensures Expiring(c0, ExpireOne(c, c0.journal, rest[0], now), rest[1..], now, view)
    ensures c.journal <= ExpireOne(c, c0.journal, rest[0], now).journal
    ensures Untouched(c0, c, rest[0])
  {
    var id := rest[0];
    var d := ExpireOne(c, c0.journal, id, now);
    ExpireOneOnly(c0, c, rest, now, view);
    forall other: Id ensures Ready(c0, d, other, Expired(AttemptOf(c0.journal, other), now) && other !in rest[1..], now, view) {
      assert Ready(c0, c, other, Expired(AttemptOf(c0.journal, other), now) && other !in rest, now, view);
      RestMembers(rest, other);
      if other != id {
        ReadyElsewhere(c0, c, d, other, Expired(AttemptOf(c0.journal, other), now) && other !in rest, now, view);
      }
    }
  }

  lemma ExpireOneOnly(c0: Core, c: Core, rest: seq<Id>, now: int, view: View)
    requires Expiring(c0, c, rest, now, view) && rest != []
    ensures var id := rest[0]; var d := ExpireOne(c, c0.journal, id, now);
            Faithful(d) && Elsewhere(c, d, id) && c.journal <= d.journal && Untouched(c0, c, id)
            && Ready(c0, d, id, Expired(AttemptOf(c0.journal, id), now), now, view)
  {
    var id := rest[0];
    var a := AttemptOf(c0.journal, id);
    assert Ready(c0, c, id, Expired(a, now) && id !in rest, now, view);
    if Expired(a, now) {
      ExpiryIsSettling(c, id, now, view);
      SegmentSettles(c, ExpireKey(a), ExpireOuts(c.open, id, a), id, now, view);
      SettledCarries(c0, c, EmitAll(c, ExpireKey(a), ExpireOuts(c.open, id, a)), id, now, view);
    }
  }

  lemma ResolveOneOnly(c0: Core, c: Core, rest: seq<Id>, now: int, view: View)
    requires Resolving(c0, c, rest, now, view) && rest != []
    ensures var id := rest[0]; var d := ResolveOne(c, id, view);
            Faithful(d) && Elsewhere(c, d, id) && c.journal <= d.journal && Untouched(c0, c, id)
            && Ready(c0, d, id, FateOf(AttemptOf(c0.journal, id), now, view) != Leave, now, view)
  {
    var id := rest[0];
    var a := AttemptOf(c0.journal, id);
    assert Ready(c0, c, id, FateOf(a, now, view) != Leave && id !in rest, now, view);
    if VerdictOn(a, view) == Keep {
      EmitNone(c, KeyOf(a));
    } else {
      var outs := ResolveOuts(c.open, id, a, VerdictOn(a, view));
      VerdictIsSettling(c, id, now, view);
      SegmentSettles(c, KeyOf(a), outs, id, now, view);
      SettledCarries(c0, c, EmitAll(c, KeyOf(a), outs), id, now, view);
    }
  }

  lemma ResolveOneStep(c0: Core, c: Core, rest: seq<Id>, now: int, view: View)
    requires Resolving(c0, c, rest, now, view) && rest != []
    ensures Resolving(c0, ResolveOne(c, rest[0], view), rest[1..], now, view)
    ensures c.journal <= ResolveOne(c, rest[0], view).journal
    ensures Untouched(c0, c, rest[0])
  {
    var id := rest[0];
    var d := ResolveOne(c, id, view);
    ResolveOneOnly(c0, c, rest, now, view);
    forall other: Id
      ensures Ready(c0, d, other, FateOf(AttemptOf(c0.journal, other), now, view) != Leave && other !in rest[1..], now, view)
    {
      assert Ready(c0, c, other, FateOf(AttemptOf(c0.journal, other), now, view) != Leave && other !in rest, now, view);
      RestMembers(rest, other);
      if other != id {
        ReadyElsewhere(c0, c, d, other, FateOf(AttemptOf(c0.journal, other), now, view) != Leave && other !in rest, now, view);
      }
    }
  }

  lemma {:induction false} ExpireAllSettles(c0: Core, c: Core, rest: seq<Id>, now: int, view: View)
    requires Expiring(c0, c, rest, now, view)
    ensures Expiring(c0, ExpireAll(c, c0.journal, rest, now), [], now, view)
    decreases |rest|
  {
    if rest != [] {
      ExpireOneStep(c0, c, rest, now, view);
      ExpireAllSettles(c0, ExpireOne(c, c0.journal, rest[0], now), rest[1..], now, view);
    }
  }

  lemma {:induction false} ResolveAllSettles(c0: Core, c: Core, rest: seq<Id>, now: int, view: View)
    requires Resolving(c0, c, rest, now, view)
    ensures Resolving(c0, ResolveAll(c, rest, view), [], now, view)
    decreases |rest|
  {
    if rest != [] {
      ResolveOneStep(c0, c, rest, now, view);
      ResolveAllSettles(c0, ResolveOne(c, rest[0], view), rest[1..], now, view);
    }
  }

  lemma ExpiringStarts(c0: Core, now: int, view: View)
    requires Faithful(c0)
    ensures Expiring(c0, c0, PreparedIds(c0.journal), now, view)
  {
    PreparedIdsDistinct(c0.journal);
    forall id: Id ensures Expired(AttemptOf(c0.journal, id), now) ==> id in PreparedIds(c0.journal) {
      PreparedIdsMembers(c0.journal, id);
    }
  }

  lemma ResolvingStarts(c0: Core, c: Core, now: int, view: View)
    requires Expiring(c0, c, [], now, view)
    ensures Resolving(c0, c, UnresolvedIds(c.journal), now, view)
  {
    TouchedIdsDistinct(c.journal);
    OnlyUnresolvedDistinct(c.journal, TouchedIds(c.journal));
    forall id: Id
      ensures id in UnresolvedIds(c.journal) <==> Unresolved(AttemptOf(c0.journal, id)) && !Expired(AttemptOf(c0.journal, id), now)
    {
      assert Ready(c0, c, id, Expired(AttemptOf(c0.journal, id), now) && id !in [], now, view);
      UnresolvedIdsMembers(c.journal, id);
    }
    forall id: Id
      ensures Ready(c0, c, id, FateOf(AttemptOf(c0.journal, id), now, view) != Leave && id !in UnresolvedIds(c.journal), now, view)
    {
      assert Ready(c0, c, id, Expired(AttemptOf(c0.journal, id), now) && id !in [], now, view);
    }
  }

  // ---------------------------------------------------------------- what recovery does

  /** Attempt by attempt: each ends with the ledger entry its fate asks for, and an attempt is
      unresolved afterwards exactly when it was and it is neither expired, nor final, nor failed, nor
      proven dead. */
  lemma RecoverMeaning(c: Core, now: int, view: View, id: Id)
    requires Faithful(c)
    ensures var r := Recover(c, now, view); var a := AttemptOf(c.journal, id); var fate := FateOf(a, now, view);
            && Faithful(r)
            && EntryOf(r.open, id) == FatedEntry(EntryOf(c.open, id), a, fate)
            && (Unresolved(AttemptOf(r.journal, id)) <==> Unresolved(a) && fate == Leave)
            && (if fate == Leave then AttemptOf(r.journal, id) == a else Closed(AttemptOf(r.journal, id)))
  {
    RecoverStages(c, now, view);
    assert Ready(c, Recover(c, now, view), id, FateOf(AttemptOf(c.journal, id), now, view) != Leave && id !in [], now, view);
  }

  /** What becomes of an attempt, spelled out on its lines, the clock and what the chain shows of its signature. */
  lemma FateExactly(a: Attempt, now: int, view: View)
    requires a.latest.Some? && a.latest.value.AttemptPrepared?
    ensures FateOf(a, now, view) == ToExpire <==> !a.signedSince && !a.doneSince && a.latest.value.expiresAt <= now
    ensures FateOf(a, now, view) != ToExpire && FateOf(a, now, view) != Leave ==> !a.last.NoLine? && !a.last.ResultLine? && a.signed.Some?
    ensures FateOf(a, now, view) != ToExpire && (a.last.SignedLine? || a.last.SubmittedLine?) && a.signed.Some? && SignatureOf(a).Some? ==>
              var sig := SignatureOf(a).value;
              var status := if sig in view.status then view.status[sig] else Absent;
              && (FateOf(a, now, view) == ToFinal <==> status == Landed(Finalized, true))
              && (FateOf(a, now, view) == ToDead <==>
                    || (status.Landed? && !status.ok)
                    || (status.Absent? && LastValidOf(a).Some? && LastValidOf(a).value < view.height))
  {
  }

  /** The ledger entry each fate leaves, spelled out. */
  lemma RecoveredEntry(c: Core, now: int, view: View, id: Id)
    requires Faithful(c)
    ensures var r := Recover(c, now, view); var a := AttemptOf(c.journal, id); var fate := FateOf(a, now, view);
            && (fate == Leave ==> (id in r.open <==> id in c.open) && (id in c.open ==> r.open[id] == c.open[id]))
            && (fate == ToExpire || fate == ToDead ==> id !in r.open)
            && (fate == ToFinal ==> (id in r.open <==> id in c.open)
                                    && (id in c.open && a.first.Some? && a.first.value.AttemptPrepared? ==>
                                          r.open[id] == c.open[id].(confirmed := Some(a.first.value.maxInput))))
  {
    RecoverMeaning(c, now, view, id);
  }

  /** Prepared, and neither signed nor concluded since. */
  predicate NeverSigned(a: Attempt) {
    a.latest.Some? && a.latest.value.AttemptPrepared? && !a.signedSince && !a.doneSince
  }

  /** The unresolved list afterwards, spelled out on what was journaled and what the chain says. */
  lemma UnresolvedAfterRecovery(c: Core, now: int, view: View, id: Id)
    requires Faithful(c)
    ensures var a := AttemptOf(c.journal, id);
            id in UnresolvedIds(Recover(c, now, view).journal) <==>
            && (a.last.SignedLine? || a.last.SubmittedLine?) && !(NeverSigned(a) && a.latest.value.expiresAt <= now)
            && (SignatureOf(a).Some? && a.signed.Some? ==>
                  var status := StatusIn(view, SignatureOf(a).value);
                  && status != Landed(Finalized, true)
                  && (status.Landed? ==> status.ok)
                  && (status.Absent? && LastValidOf(a).Some? ==> view.height <= LastValidOf(a).value))
  {
    RecoverMeaning(c, now, view, id);
    UnresolvedIdsMembers(Recover(c, now, view).journal, id);
  }

  lemma RecoverStages(c: Core, now: int, view: View)
    requires Faithful(c)
    ensures Resolving(c, Recover(c, now, view), [], now, view)
  {
    var ids := PreparedIds(c.journal);
    ExpiringStarts(c, now, view);
    ExpireAllSettles(c, c, ids, now, view);
    var expired := ExpireAll(c, c.journal, ids, now);
    ResolvingStarts(c, expired, now, view);
    ResolveAllSettles(c, expired, UnresolvedIds(expired.journal), now, view);
  }

  lemma {:induction false} NothingExpires(c: Core, ids: seq<Id>, now: int)
    requires forall id: Id :: id in ids ==> !Expired(AttemptOf(c.journal, id), now)
    ensures ExpireAll(c, c.journal, ids, now) == c
    decreases |ids|
  {
    if ids != [] {
      NothingExpires(c, ids[1..], now);
    }
  }

  lemma {:induction false} NothingResolves(c: Core, ids: seq<Id>, view: View)
    requires forall id: Id :: id in ids ==> VerdictOn(AttemptOf(c.journal, id), view) == Keep
    ensures ResolveAll(c, ids, view) == c
    decreases |ids|
  {
    if ids != [] {
      EmitNone(c, KeyOf(AttemptOf(c.journal, ids[0])));
      NothingResolves(c, ids[1..], view);
    }
  }

  /** With the same chain and clock a second recovery changes nothing at all. */
  lemma RecoverIdempotent(c: Core, now: int, view: View)
    requires Faithful(c)
    ensures Recover(Recover(c, now, view), now, view) == Recover(c, now, view)
  {
    var r := Recover(c, now, view);
    forall id: Id ensures FateOf(AttemptOf(r.journal, id), now, view) == Leave {
      RecoverMeaning(c, now, view, id);
    }
    forall id: Id | id in PreparedIds(r.journal) ensures !Expired(AttemptOf(r.journal, id), now) {
      assert FateOf(AttemptOf(r.journal, id), now, view) == Leave;
    }
    NothingExpires(r, PreparedIds(r.journal), now);
    forall id: Id | id in UnresolvedIds(r.journal) ensures VerdictOn(AttemptOf(r.journal, id), view) == Keep {
      UnresolvedIdsMembers(r.journal, id);
      assert FateOf(AttemptOf(r.journal, id), now, view) == Leave;
    }
    NothingResolves(r, UnresolvedIds(r.journal), view);
  }

  // ---------------------------------------------------------------- a crash during recovery

  /** Every attempt is untouched, halfway or settled. */
  ghost predicate Interrupted(c0: Core, d: Core, now: int, view: View) {
    && Faithful(d)
    && forall id: Id :: InterruptedAt(c0, d, id, now, view)
  }

  ghost predicate InterruptedAt(c0: Core, d: Core, id: Id, now: int, view: View) {
    Untouched(c0, d, id) || Halfway(c0, d, id, now, view) || Settled(c0, d, id, now, view)
  }

  lemma ReadyIsInterrupted(c0: Core, c: Core, id: Id, settled: bool, now: int, view: View)
    requires Ready(c0, c, id, settled, now, view)
    ensures InterruptedAt(c0, c, id, now, view)
  {
  }

  lemma InterruptedElsewhere(c0: Core, c: Core, d: Core, id: Id, now: int, view: View)
    requires Untouched(c, d, id) && InterruptedAt(c0, c, id, now, view)
    ensures InterruptedAt(c0, d, id, now, view)
  {
  }

  /** The core at a journal prefix inside one segment. */
  lemma InsideSegment(c0: Core, c: Core, key: Key, outs: seq<Out>, id: Id, n: nat, now: int, view: View) returns (d: Core)
    requires Interrupted(c0, c, now, view) && Untouched(c0, c, id)
    requires Settling(outs, c.open, id, AttemptOf(c.journal, id), FateOf(AttemptOf(c.journal, id), now, view))
    requires |c.journal| <= n <= |EmitAll(c, key, outs).journal|
    ensures d.journal == EmitAll(c, key, outs).journal[..n] && Interrupted(c0, d, now, view)
  {
    SegmentSettles(c, key, outs, id, now, view);
    var full := EmitAll(c, key, outs);
    if n == |c.journal| {
      d := c;
    } else {
      d := if n == |full.journal| then full else Emit(c, key, outs[0]);
      SettledCarries(c0, c, d, id, now, view);
      forall other: Id ensures InterruptedAt(c0, d, other, now, view) {
        if other != id {
          assert Untouched(c, d, other);
          InterruptedElsewhere(c0, c, d, other, now, view);
        }
      }
    }
  }

  lemma ExpiringIsInterrupted(c0: Core, c: Core, rest: seq<Id>, now: int, view: View)
    requires Expiring(c0, c, rest, now, view)
    ensures Interrupted(c0, c, now, view)
  {
    forall id: Id ensures InterruptedAt(c0, c, id, now, view) {
      ReadyIsInterrupted(c0, c, id, Expired(AttemptOf(c0.journal, id), now) && id !in rest, now, view);
    }
  }

  lemma ResolvingIsInterrupted(c0: Core, c: Core, rest: seq<Id>, now: int, view: View)
    requires Resolving(c0, c, rest, now, view)
    ensures Interrupted(c0, c, now, view)
  {
    forall id: Id ensures InterruptedAt(c0, c, id, now, view) {
      ReadyIsInterrupted(c0, c, id, FateOf(AttemptOf(c0.journal, id), now, view) != Leave && id !in rest, now, view);
    }
  }

  lemma {:induction false} ExpireAllGrows(c0: Core, c: Core, rest: seq<Id>, now: int, view: View)
    requires Expiring(c0, c, rest, now, view)
    ensures c.journal <= ExpireAll(c, c0.journal, rest, now).journal
    decreases |rest|
  {
    if rest != [] {
      ExpireOneStep(c0, c, rest, now, view);
      ExpireAllGrows(c0, ExpireOne(c, c0.journal, rest[0], now), rest[1..], now, view);
    }
  }

  lemma {:induction false} ResolveAllGrows(c0: Core, c: Core, rest: seq<Id>, now: int, view: View)
    requires Resolving(c0, c, rest, now, view)
    ensures c.journal <= ResolveAll(c, rest, view).journal
    decreases |rest|
  {
    if rest != [] {
      ResolveOneStep(c0, c, rest, now, view);
      ResolveAllGrows(c0, ResolveOne(c, rest[0], view), rest[1..], now, view);
    }
  }

  lemma {:induction false} InsideExpiry(c0: Core, c: Core, rest: seq<Id>, n: nat, now: int, view: View) returns (d: Core)
    requires Expiring(c0, c, rest, now, view)
    requires |c.journal| <= n <= |ExpireAll(c, c0.journal, rest, now).journal|
    ensures d.journal == ExpireAll(c, c0.journal, rest, now).journal[..n] && Interrupted(c0, d, now, view)
    decreases |rest|
  {
    ExpiringIsInterrupted(c0, c, rest, now, view);
    if rest == [] {
      d := c;
    } else {
      var a := AttemptOf(c0.journal, rest[0]);
      var c1 := ExpireOne(c, c0.journal, rest[0], now);
      ExpireOneStep(c0, c, rest, now, view);
      ExpireAllGrows(c0, c1, rest[1..], now, view);
      if n < |c1.journal| {
        ExpiryIsSettling(c, rest[0], now, view);
        d := InsideSegment(c0, c, ExpireKey(a), ExpireOuts(c.open, rest[0], a), rest[0], n, now, view);
      } else {
        d := InsideExpiry(c0, c1, rest[1..], n, now, view);
      }
    }
  }

  lemma {:induction false} InsideResolution(c0: Core, c: Core, rest: seq<Id>, n: nat, now: int, view: View) returns (d: Core)
    requires Resolving(c0, c, rest, now, view)
    requires |c.journal| <= n <= |ResolveAll(c, rest, view).journal|
    ensures d.journal == ResolveAll(c, rest, view).journal[..n] && Interrupted(c0, d, now, view)
    decreases |rest|
  {
    ResolvingIsInterrupted(c0, c, rest, now, view);
    if rest == [] {
      d := c;
    } else {
      var a := AttemptOf(c0.journal, rest[0]);
      var c1 := ResolveOne(c, rest[0], view);
      ResolveOneStep(c0, c, rest, now, view);
      ResolveAllGrows(c0, c1, rest[1..], now, view);
      if n < |c1.journal| {
        EmitNone(c, KeyOf(a));
        VerdictIsSettling(c, rest[0], now, view);
        d := InsideSegment(c0, c, KeyOf(a), ResolveOuts(c.open, rest[0], a, VerdictOn(a, view)), rest[0], n, now, view);
      } else {
        d := InsideResolution(c0, c1, rest[1..], n, now, view);
      }
    }
  }

  lemma HalfwayHasSameFate(c0: Core, d: Core, id: Id, now: int, view: View)
    requires InterruptedAt(c0, d, id, now, view)
    ensures var a0, a := AttemptOf(c0.journal, id), AttemptOf(d.journal, id);
            FatedEntry(EntryOf(d.open, id), a, FateOf(a, now, view)) == FatedEntry(EntryOf(c0.open, id), a0, FateOf(a0, now, view))
            && (Unresolved(a) && FateOf(a, now, view) == Leave <==> Unresolved(a0) && FateOf(a0, now, view) == Leave)
  {
  }

  lemma SameEntries(a: Open, b: Open)
    requires forall id: Id :: EntryOf(a, id) == EntryOf(b, id)
    ensures a == b
  {
    forall id: Id ensures id in a <==> id in b {
      assert EntryOf(a, id) == EntryOf(b, id);
    }
    forall id: Id | id in a ensures a[id] == b[id] {
      assert EntryOf(a, id) == EntryOf(b, id);
    }
  }

  /** However far a recovery got before the process died, restarting from the journal it left and
      recovering again ends with the ledger the uninterrupted recovery would have left, and with the
      same attempts unresolved. */
  lemma RecoverAfterCrash(c: Core, n: nat, now: int, view: View)
    requires Faithful(c)
    requires |c.journal| <= n <= |Recover(c, now, view).journal|
    ensures var left := Recover(c, now, view).journal[..n];
            && Replay(ExposureEvents(left)).Some?
            && var restarted := Core(left, Replay(ExposureEvents(left)).value, FromJournal(left), LastPause(left));
            && Recover(restarted, now, view).open == Recover(c, now, view).open
            && forall id: Id ::
              Unresolved(AttemptOf(Recover(restarted, now, view).journal, id))
              <==> Unresolved(AttemptOf(Recover(c, now, view).journal, id))
  {
    var ids := PreparedIds(c.journal);
    var expired := ExpireAll(c, c.journal, ids, now);
    ExpiringStarts(c, now, view);
    ExpireAllSettles(c, c, ids, now, view);
    ResolvingStarts(c, expired, now, view);
    ResolveAllGrows(c, expired, UnresolvedIds(expired.journal), now, view);
    var d;
    if n <= |expired.journal| {
      d := InsideExpiry(c, c, ids, n, now, view);
    } else {
      d := InsideResolution(c, expired, UnresolvedIds(expired.journal), n, now, view);
    }
    var left := Recover(c, now, view).journal[..n];
    assert d.journal == left;
    RestartedRecovers(c, d, now, view);
  }

  lemma RestartedRecovers(c: Core, d: Core, now: int, view: View)
    requires Faithful(c) && Interrupted(c, d, now, view)
    ensures var r := Recover(Restart(d), now, view); var s := Recover(c, now, view);
            r.open == s.open && forall id: Id :: Unresolved(AttemptOf(r.journal, id)) <==> Unresolved(AttemptOf(s.journal, id))
  {
    var r, s := Recover(Restart(d), now, view), Recover(c, now, view);
    forall id: Id
      ensures EntryOf(r.open, id) == EntryOf(s.open, id)
      ensures Unresolved(AttemptOf(r.journal, id)) <==> Unresolved(AttemptOf(s.journal, id))
    {
      RecoverMeaning(Restart(d), now, view, id);
      RecoverMeaning(c, now, view, id);
      assert InterruptedAt(c, d, id, now, view);
      HalfwayHasSameFate(c, d, id, now, view);
    }
    SameEntries(r.open, s.open);
  }
}
