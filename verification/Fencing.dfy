/**
  Any number of processes sharing one journal and its lock.  A holder is an open journal object,
  named by its token: tokens are distinct and an operation is one step.  The moves are those of
  Journal.ExecutorJournal's three methods.  A holder may release as often as it likes.
*/
module Fencing {
  import opened Records
  import opened Journal
  import opened Sums

  datatype Holder = Holder(entries: seq<Entry>, released: bool)

  datatype Fleet = Fleet(disk: Disk, holders: map<nat, Holder>)

  datatype Move =
    | Opening(token: nat, loaded: seq<Entry>)
    | Appending(token: nat, at: int, rec: Record)
    | Releasing(token: nat)

  ghost predicate Next(f: Fleet, m: Move, g: Fleet) {
    match m
    case Opening(token, loaded) =>
      && token !in f.holders
      && if OpenRefused(f.disk, token) then g == f
         else if !Accepted(f.disk.lines) then g == f.(disk := f.disk.(lock := Some(Lock(token, false))))
         else
           && Chained(loaded) && f.disk.lines == Lines(loaded)
           && g == Fleet(f.disk.(lock := Some(Lock(token, false))), f.holders[token := Holder(loaded, false)])
    case Appending(token, at, rec) =>
      && token in f.holders
      && if !Fenced(f.disk, token) then g == f
         else
           var h := f.holders[token];
           var e := NextEntry(h.entries, at, rec);
           g == Fleet(f.disk.(lines := f.disk.lines + [Parsed(e)]), f.holders[token := h.(entries := h.entries + [e])])
    case Releasing(token) =>
      && token in f.holders
      && g == Fleet(f.disk.(lock := Some(Lock(token, true))), f.holders[token := f.holders[token].(released := true)])
  }

  /** The move is no second release. */
  predicate Once(f: Fleet, m: Move) {
    m.Releasing? && m.token in f.holders ==> !f.holders[m.token].released
  }

  predicate Superseded(f: Fleet, token: nat) {
    token in f.holders && !Fenced(f.disk, token)
  }

  ghost predicate Sound(f: Fleet) {
    && Accepted(f.disk.lines)
    && (forall t: nat :: Superseded(f, t) ==> f.holders[t].released)
    && (f.disk.lock.Some? && f.disk.lock.value.token in f.holders ==>
          var h := f.holders[f.disk.lock.value.token];
          Chained(h.entries) && f.disk.lines == Lines(h.entries) && (f.disk.lock.value.released ==> h.released))
  }

  lemma MoveKeepsSound(f: Fleet, m: Move, g: Fleet)
    requires Sound(f) && Next(f, m, g) && Once(f, m)
    ensures Sound(g)
    ensures forall t: nat :: Superseded(f, t) ==> Superseded(g, t)
  {
    if m.Appending? && g != f {
      var h := f.holders[m.token];
      var e := NextEntry(h.entries, m.at, m.rec);
      ChainedNext(h.entries, e);
      assert Lines(h.entries + [e]) == Lines(h.entries) + [Parsed(e)];
    }
  }

  ghost predicate Run(run: seq<Fleet>, moves: seq<Move>) {
    && |run| == |moves| + 1
    && run[0].holders == map[] && Accepted(run[0].disk.lines)
    && forall i :: 0 <= i < |moves| ==> Next(run[i], moves[i], run[i + 1])
  }

  /** Before the n-th fleet nobody releases twice. */
  ghost predicate ReleasesOnce(run: seq<Fleet>, moves: seq<Move>, n: nat)
    requires n <= |moves| < |run|
  {
    forall i :: 0 <= i < n ==> Once(run[i], moves[i])
  }

  /** Whatever the interleaving, from any valid file and any lock, the file still loads, and the
      lines only grow. */
  lemma {:induction false} EveryRunLoads(run: seq<Fleet>, moves: seq<Move>, n: nat)
    requires Run(run, moves) && n <= |moves| && ReleasesOnce(run, moves, n)
    ensures Sound(run[n]) && Accepted(run[n].disk.lines)
    ensures run[0].disk.lines <= run[n].disk.lines
  {
    if n > 0 {
      EveryRunLoads(run, moves, n - 1);
      MoveKeepsSound(run[n - 1], moves[n - 1], run[n]);
    }
  }

  /** A holder whose token the lock no longer names stays superseded for ever, and none of its later
      appends changes anything. */
  lemma {:induction false} SupersededNeverWrites(run: seq<Fleet>, moves: seq<Move>, k: nat, n: nat, token: nat)
    requires Run(run, moves) && k <= n <= |moves| && ReleasesOnce(run, moves, n) && Superseded(run[k], token)
    ensures Superseded(run[n], token)
    ensures n < |moves| && moves[n].Appending? && moves[n].token == token ==> run[n + 1] == run[n]
    decreases n - k
  {
    hide Sound;
    hide Accepted;
    hide Chained;
    if k < n {
      SupersededNeverWrites(run, moves, k, n - 1, token);
      EveryRunLoads(run, moves, n - 1);
      MoveKeepsSound(run[n - 1], moves[n - 1], run[n]);
    }
  }

  // ---------------------------------------------------------------- when holders release again

  /** Every holder holds a chain, though perhaps no longer the file's. */
  ghost predicate HoldChains(f: Fleet) {
    forall t: nat :: t in f.holders ==> Chained(f.holders[t].entries)
  }

  /** A holder whose append the lock lets through has missed no line. */
  predicate CaughtUp(f: Fleet, m: Move) {
    m.Appending? && m.token in f.holders && Fenced(f.disk, m.token) ==> f.disk.lines == Lines(f.holders[m.token].entries)
  }

  lemma MoveKeepsChains(f: Fleet, m: Move, g: Fleet)
    requires HoldChains(f) && Next(f, m, g)
    ensures HoldChains(g) && f.disk.lines <= g.disk.lines
  {
    if m.Appending? && g != f {
      var h := f.holders[m.token];
      ChainedNext(h.entries, NextEntry(h.entries, m.at, m.rec));
    }
  }

  lemma LinesInjective(a: seq<Entry>, b: seq<Entry>)
    requires Lines(a) == Lines(b)
    ensures a == b
  {
    forall i | 0 <= i < |a| ensures a[i] == b[i] {
      assert Parsed(a[i]) == Parsed(b[i]);
    }
  }

  /** The file accepts the line a holder of the chain `mine` writes exactly when `mine` is the file's. */
  lemma AppendAccepted(file: seq<Entry>, mine: seq<Entry>, at: int, rec: Record)
    requires Chained(file) && Chained(mine)
    ensures Accepted(Lines(file) + [Parsed(NextEntry(mine, at, rec))]) <==> mine == file
  {
    var e := NextEntry(mine, at, rec);
    ChainedNext(file, e);
    assert Lines(file + [e]) == Lines(file) + [Parsed(e)];
    if Accepted(Lines(file + [e])) {
      var es :| Chained(es) && Lines(file + [e]) == Lines(es);
      LinesInjective(es, file + [e]);
      LastHashDetermines(mine, file);
    }
  }

  lemma MoveAccepted(f: Fleet, m: Move, g: Fleet)
    requires HoldChains(f) && Next(f, m, g) && Accepted(f.disk.lines)
    ensures Accepted(g.disk.lines) <==> CaughtUp(f, m)
  {
    if m.Appending? && Fenced(f.disk, m.token) {
      var es :| Chained(es) && f.disk.lines == Lines(es);
      var mine := f.holders[m.token].entries;
      AppendAccepted(es, mine, m.at, m.rec);
      if f.disk.lines == Lines(mine) {
        LinesInjective(es, mine);
      }
    }
  }

  /** What does not load never loads again. */
  lemma CorruptStays(lines: seq<Line>, more: seq<Line>)
    requires lines <= more && Accepted(more)
    ensures Accepted(lines)
  {
    var es :| Chained(es) && more == Lines(es);
    TruncationAccepted(es, |lines|);
  }

  lemma {:induction false} RunHoldsChains(run: seq<Fleet>, moves: seq<Move>, n: nat)
    requires Run(run, moves) && n < |run|
    ensures HoldChains(run[n])
  {
    if n > 0 {
      RunHoldsChains(run, moves, n - 1);
      MoveKeepsChains(run[n - 1], moves[n - 1], run[n]);
    }
  }

  ghost predicate AllCaughtUp(run: seq<Fleet>, moves: seq<Move>, n: nat)
    requires n <= |moves| < |run|
  {
    forall i :: 0 <= i < n ==> CaughtUp(run[i], moves[i])
  }

  /** However often anyone releases: the file loads if and only if every holder the lock let through had missed no line. */
  lemma {:induction false} LoadsExactly(run: seq<Fleet>, moves: seq<Move>, n: nat)
    requires Run(run, moves) && n <= |moves|
    ensures Accepted(run[n].disk.lines) <==> AllCaughtUp(run, moves, n)
  {
    hide Next;
    hide CaughtUp;
    hide Accepted;
    if n > 0 {
      LoadsExactly(run, moves, n - 1);
      RunHoldsChains(run, moves, n - 1);
      MoveKeepsChains(run[n - 1], moves[n - 1], run[n]);
      assert AllCaughtUp(run, moves, n) <==> AllCaughtUp(run, moves, n - 1) && CaughtUp(run[n - 1], moves[n - 1]);
      if Accepted(run[n - 1].disk.lines) {
        MoveAccepted(run[n - 1], moves[n - 1], run[n]);
      } else if Accepted(run[n].disk.lines) {
        CorruptStays(run[n - 1].disk.lines, run[n].disk.lines);
      }
    }
  }

  /** Why a holder may release only once.  From any fleet whose file loads, any holder at all may release and then
      append: the lock lets it through, and the file still loads if and only if it had missed no line. */
  lemma StaleReleaseCorrupts(run: seq<Fleet>, moves: seq<Move>, token: nat, at: int, rec: Record) returns (freed: Fleet, after: Fleet)
    requires Run(run, moves) && token in run[|moves|].holders && Accepted(run[|moves|].disk.lines)
    ensures Next(run[|moves|], Releasing(token), freed) && Next(freed, Appending(token, at, rec), after)
    ensures Accepted(after.disk.lines) <==> run[|moves|].disk.lines == Lines(run[|moves|].holders[token].entries)
  {
    var f := run[|moves|];
    freed := Fleet(f.disk.(lock := Some(Lock(token, true))), f.holders[token := f.holders[token].(released := true)]);
    var h := freed.holders[token];
    var e := NextEntry(h.entries, at, rec);
    after := Fleet(freed.disk.(lines := freed.disk.lines + [Parsed(e)]), freed.holders[token := h.(entries := h.entries + [e])]);
    RunHoldsChains(run, moves, |moves|);
    MoveKeepsChains(f, Releasing(token), freed);
    MoveAccepted(freed, Appending(token, at, rec), after);
  }

  /** The shortest such history: 1 opens and releases, 2 takes over and appends, 1 releases again and appends. */
  lemma SecondReleaseRun(at: int, rec: Record) returns (run: seq<Fleet>, moves: seq<Move>)
    ensures Run(run, moves) && run[0].disk == Disk([], None)
    ensures moves == [Opening(1, []), Releasing(1), Opening(2, []), Appending(2, at, rec), Releasing(1), Appending(1, at, rec)]
    ensures Accepted(run[5].disk.lines) && !Accepted(run[6].disk.lines)
  {
    var e := NextEntry([], at, rec);
    var f0 := Fleet(Disk([], None), map[]);
    var f1 := Fleet(Disk([], Some(Lock(1, false))), map[1 := Holder([], false)]);
    var f2 := Fleet(Disk([], Some(Lock(1, true))), map[1 := Holder([], true)]);
    var f3 := Fleet(Disk([], Some(Lock(2, false))), map[1 := Holder([], true), 2 := Holder([], false)]);
    var f4 := Fleet(Disk([Parsed(e)], Some(Lock(2, false))), map[1 := Holder([], true), 2 := Holder([e], false)]);
    assert Lines([]) == [] && Accepted([]);
    moves := [Opening(1, []), Releasing(1), Opening(2, []), Appending(2, at, rec), Releasing(1), Appending(1, at, rec)];
    assert Next(f0, Opening(1, []), f1) && Next(f1, Releasing(1), f2);
    assert Next(f2, Opening(2, []), f3);
    assert [] + [e] == [e] && f3.disk.lines + [Parsed(e)] == f4.disk.lines;
    assert f4.holders == f3.holders[2 := Holder([e], false)] && Next(f3, Appending(2, at, rec), f4);
    run := [f0, f1, f2, f3, f4];
    assert forall i :: 0 <= i < 4 ==> Next(run[i], moves[..4][i], run[i + 1]);
    assert Run(run, moves[..4]);
    LoadsExactly(run, moves[..4], 4);
    var f5, f6 := StaleReleaseCorrupts(run, moves[..4], 1, at, rec);
    run := [f0, f1, f2, f3, f4, f5, f6];
    assert Run(run, moves);
  }
}
