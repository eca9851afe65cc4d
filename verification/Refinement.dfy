/** The whole-call functions the pipeline's methods are proved against are runs of the step system with nothing in between. */
module Refinement {
  import opened Sums
  import opened ExposureLedger
  import opened Records
  import opened Intents
  import opened Protocol
  import opened Runs
  import opened Invariants
  import opened Preservation
  import opened Steps
  import Recovery

  /** An agenda written through: the flow is gone, and the core is what the segment's function says. */
  lemma {:induction false} AgendaWrites(s: Setup, w: World, id: Id, outs: seq<Out>) returns (v: World, steps: seq<Step>)
    requires At(w, id) == Some(Finishing(outs)) && outs != []
    ensures Leads(s, w, steps, v) && v.core == EmitAll(w.core, s.cat(id).key, outs) && v.work == w.work - {id} && v.chain == w.chain
    ensures v.task == w.task || (v.task.Idle? && Holder(w.task) == Some(id))
    ensures forall i :: 0 <= i < |steps| ==> steps[i] == Proceed(id)
    decreases |outs|
  {
    if !CanEmit(w.core, outs[0]) {
      v := w.(work := w.work - {id}, task := if Holder(w.task) == Some(id) then Idle else w.task);
      assert Next(s, w, Proceed(id), v);
      LeadsOne(s, w, Proceed(id), v);
      steps := [Proceed(id)];
    } else {
      var u := w.(core := Emit(w.core, s.cat(id).key, outs[0]), work := Busy(w.work, id, outs[1..]));
      assert Next(s, w, Proceed(id), u);
      if outs[1..] == [] {
        v := u;
        LeadsOne(s, w, Proceed(id), v);
        steps := [Proceed(id)];
      } else {
        assert u.work - {id} == w.work - {id};
        var more;
        v, more := AgendaWrites(s, u, id, outs[1..]);
        LeadsOne(s, w, Proceed(id), u);
        LeadsChain(s, w, [Proceed(id)], u, more, v);
        steps := [Proceed(id)] + more;
      }
    }
  }

  /** `record`: from the adapter's answer to the last line. */
  lemma RecordIsARun(s: Setup, w: World, id: Id, outcome: AttemptState, fill: Option<nat>, exits: seq<Id>, u: World) returns (v: World, steps: seq<Step>)
    requires Next(s, w, Settle(id, outcome, fill, exits), u) && RecordOuts(w.core.open, id, s.cat(id), outcome, fill, exits) != []
    ensures Leads(s, w, steps, v) && v.core == EmitAll(w.core, s.cat(id).key, RecordOuts(w.core.open, id, s.cat(id), outcome, fill, exits))
    ensures v.work == w.work - {id} && v.chain == w.chain
  {
    var more;
    v, more := AgendaWrites(s, u, id, RecordOuts(w.core.open, id, s.cat(id), outcome, fill, exits));
    LeadsOne(s, w, Settle(id, outcome, fill, exits), u);
    LeadsChain(s, w, [Settle(id, outcome, fill, exits)], u, more, v);
    steps := [Settle(id, outcome, fill, exits)] + more;
  }

  // ---------------------------------------------------------------- recover

  /** Nothing in flight, and no tick under way. */
  predicate Quiet(w: World) {
    w.work == map[] && (w.task.Idle? || w.task.Recovering?)
  }

  /** Journal keys are the intents' own. */
  lemma OwnKeys(s: Setup, w: World, id: Id)
    requires Sound(s, w)
    ensures var a := AttemptOf(w.core.journal, id);
            (a.latest.Some? ==> ExpireKey(a) == s.cat(id).key) && (a.signed.Some? ==> KeyOf(a) == s.cat(id).key)
  {
    hide Txs;
    hide Clean;
    assert Sane(s.cat(id), id, LocalOf(s, w, id));
  }

  /** One attempt recovered, with its outputs. */
  lemma RecoverOneRuns(s: Setup, w: World, id: Id, now: int) returns (v: World, steps: seq<Step>)
    requires Quiet(w) && RecoverOuts(w, id, now) != []
    ensures Leads(s, w, steps, v) && Quiet(v) && v.chain == w.chain
    ensures v.core == EmitAll(w.core, s.cat(id).key, RecoverOuts(w, id, now))
  {
    var outs := RecoverOuts(w, id, now);
    var u := w.(work := w.work[id := Finishing(outs)], task := Recovering(id));
    assert Next(s, w, RecoverOne(id, now), u);
    var more;
    v, more := AgendaWrites(s, u, id, outs);
    LeadsOne(s, w, RecoverOne(id, now), u);
    LeadsChain(s, w, [RecoverOne(id, now)], u, more, v);
    steps := [RecoverOne(id, now)] + more;
  }

  lemma {:induction false} ExpireLoopRuns(s: Setup, c0: Core, w: World, rest: seq<Id>, now: int) returns (v: World, steps: seq<Step>)
    requires Proper(s) && Sound(s, w) && Listed(w) && Quiet(w) && Recovery.Expiring(c0, w.core, rest, now, ViewOf(w.chain))
    ensures Leads(s, w, steps, v) && Quiet(v) && v.chain == w.chain && v.core == ExpireAll(w.core, c0.journal, rest, now)
    decreases |rest|
  {
    hide Next;
    hide Sound;
    hide Listed;
    hide Leads;
    v, steps := w, [];
    LeadsNone(s, w);
    if rest != [] {
      var id := rest[0];
      var a := AttemptOf(c0.journal, id);
      Recovery.ExpireOneStep(c0, w.core, rest, now, ViewOf(w.chain));
      var u, taken := w, [];
      if Expired(a, now) {
        OwnKeys(s, w, id);
        ExpireOutsNonEmpty(w, id, now);
        u, taken := RecoverOneRuns(s, w, id, now);
        SoundAlong(s, w, taken, u);
      }
      var more;
      v, more := ExpireLoopRuns(s, c0, u, rest[1..], now);
      LeadsChain(s, w, taken, u, more, v);
      steps := taken + more;
    }
  }

  lemma ExpireOutsNonEmpty(w: World, id: Id, now: int)
    requires Expired(AttemptOf(w.core.journal, id), now)
    ensures RecoverOuts(w, id, now) == ExpireOuts(w.core.open, id, AttemptOf(w.core.journal, id)) != []
  {
  }

  lemma ResolveOutsNonEmpty(w: World, id: Id, now: int)
    requires var a := AttemptOf(w.core.journal, id); Unresolved(a) && !Expired(a, now) && VerdictOn(a, ViewOf(w.chain)) != Keep
    ensures var a := AttemptOf(w.core.journal, id);
            RecoverOuts(w, id, now) == ResolveOuts(w.core.open, id, a, VerdictOn(a, ViewOf(w.chain))) != [] && a.signed.Some?
  {
  }

  lemma {:induction false} ResolveLoopRuns(s: Setup, c0: Core, w: World, rest: seq<Id>, now: int) returns (v: World, steps: seq<Step>)
    requires Proper(s) && Sound(s, w) && Listed(w) && Quiet(w) && Recovery.Resolving(c0, w.core, rest, now, ViewOf(w.chain))
    ensures Leads(s, w, steps, v) && Quiet(v) && v.chain == w.chain && v.core == ResolveAll(w.core, rest, ViewOf(w.chain))
    decreases |rest|
  {
    hide Next;
    hide Sound;
    hide Listed;
    hide Leads;
    v, steps := w, [];
    LeadsNone(s, w);
    if rest != [] {
      var id := rest[0];
      var a := AttemptOf(w.core.journal, id);
      Recovery.ResolveOneStep(c0, w.core, rest, now, ViewOf(w.chain));
      var u, taken := w, [];
      if VerdictOn(a, ViewOf(w.chain)) != Keep {
        OwnKeys(s, w, id);
        ResolveOutsNonEmpty(w, id, now);
        u, taken := RecoverOneRuns(s, w, id, now);
        SoundAlong(s, w, taken, u);
      } else {
        Recovery.EmitNone(w.core, KeyOf(a));
      }
      var more;
      v, more := ResolveLoopRuns(s, c0, u, rest[1..], now);
      LeadsChain(s, w, taken, u, more, v);
      steps := taken + more;
    }
  }

  /** A whole recovery, from any reachable quiet world: the step system reaches exactly its result. */
  lemma RecoverIsARun(s: Setup, w: World, now: int) returns (v: World, steps: seq<Step>)
    requires Proper(s) && Sound(s, w) && Listed(w) && Quiet(w)
    ensures Leads(s, w, steps, v) && Quiet(v) && v.chain == w.chain && v.core == Recover(w.core, now, ViewOf(w.chain))
  {
    hide Next;
    hide Listed;
    hide Leads;
    hide Attempts;
    hide Txs;
    var c := w.core;
    var view := ViewOf(w.chain);
    Recovery.ExpiringStarts(c, now, view);
    Recovery.ExpireAllSettles(c, c, PreparedIds(c.journal), now, view);
    var u, taken := ExpireLoopRuns(s, c, w, PreparedIds(c.journal), now);
    SoundAlong(s, w, taken, u);
    Recovery.ResolvingStarts(c, u.core, now, view);
    var more;
    v, more := ResolveLoopRuns(s, c, u, UnresolvedIds(u.core.journal), now);
    LeadsChain(s, w, taken, u, more, v);
    steps := taken + more;
  }
}
