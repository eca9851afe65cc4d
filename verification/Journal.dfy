/**
  The durable journal: a hash-chained file of lines, a fencing lock beside it, and the holders that
  write it.  `canonicalHash` is the injective constructor Digest, and a file holds entries or lines
  that do not parse.  Reading the lock, reading the head and appending the line are one step.
*/
module Journal {
  import opened Sums
  import opened ExposureLedger
  import opened Records

  datatype Hash = Genesis | Digest(body: Body)
  datatype Body = Body(sequence: nat, at: int, rec: Record, previousHash: Hash)
  datatype Entry = Entry(sequence: nat, at: int, rec: Record, previousHash: Hash, hash: Hash)
  datatype Line = Parsed(entry: Entry) | Garbled

  datatype Loaded = Entries(entries: seq<Entry>) | Corrupt

  function BodyOf(e: Entry): Body {
    Body(e.sequence, e.at, e.rec, e.previousHash)
  }

  function HeadHash(es: seq<Entry>): Hash {
    if es == [] then Genesis else es[|es| - 1].hash
  }

  /** The entry an append writes after `es`. */
  function NextEntry(es: seq<Entry>, at: int, rec: Record): Entry {
    var body := Body(|es|, at, rec, HeadHash(es));
    Entry(body.sequence, body.at, body.rec, body.previousHash, Digest(body))
  }

  function Lines(es: seq<Entry>): (lines: seq<Line>)
    ensures |lines| == |es| && forall i :: 0 <= i < |es| ==> lines[i] == Parsed(es[i])
  {
    seq(|es|, i requires 0 <= i < |es| => Parsed(es[i]))
  }

  /** A list of entries whose hashes re-derive: exactly what successive appends produce. */
  ghost predicate Chained(es: seq<Entry>) {
    es == [] || (Chained(es[..|es| - 1]) && es[|es| - 1] == NextEntry(es[..|es| - 1], es[|es| - 1].at, es[|es| - 1].rec))
  }

  ghost predicate Accepted(lines: seq<Line>) {
    exists es :: Chained(es) && lines == Lines(es)
  }

  lemma ChainedNext(es: seq<Entry>, e: Entry)
    requires Chained(es)
    ensures Chained(es + [e]) <==> e.sequence == |es| && e.previousHash == HeadHash(es) && e.hash == Digest(BodyOf(e))
  {
    assert (es + [e])[..|es|] == es;
  }

  lemma {:induction false} ChainedPrefix(es: seq<Entry>, n: nat)
    requires Chained(es) && n <= |es|
    ensures Chained(es[..n])
    decreases |es|
  {
    if n == |es| {
      assert es[..n] == es;
    } else {
      ChainedPrefix(es[..|es| - 1], n);
      assert es[..|es| - 1][..n] == es[..n];
    }
  }

  /** Replays the file, re-deriving sequence numbers, links and hashes line by line. */
  method Load(lines: seq<Line>) returns (r: Loaded)
    ensures r.Entries? <==> Accepted(lines)
    ensures r.Entries? ==> Chained(r.entries) && lines == Lines(r.entries)
  {
    var out: seq<Entry> := [];
    var previous := Genesis;
    var expectedSeq := 0;
    for i := 0 to |lines|
      invariant |out| == i == expectedSeq && previous == HeadHash(out)
      invariant Chained(out) && lines[..i] == Lines(out)
    {
      if lines[i].Garbled? {
        return Corrupt;
      }
      var e := lines[i].entry;
      ChainedNext(out, e);
      if e.sequence != expectedSeq || e.previousHash != previous || e.hash != Digest(BodyOf(e)) {
        BadLine(lines, out, e);
        return Corrupt;
      }
      out := out + [e];
      previous := e.hash;
      expectedSeq := expectedSeq + 1;
      assert lines[..i + 1] == lines[..i] + [lines[i]];
      assert Lines(out) == lines[..i] + [Parsed(e)];
    }
    assert lines[..|lines|] == lines;
    return Entries(out);
  }

  lemma PrefixAgrees(lines: seq<Line>, out: seq<Entry>, e: Entry, es: seq<Entry>)
    requires |out| < |lines| && lines[..|out|] == Lines(out) && lines[|out|] == Parsed(e) && lines == Lines(es)
    ensures es[..|out| + 1] == out + [e]
  {
    forall k | 0 <= k < |out| ensures es[k] == out[k] {
      assert lines[..|out|][k] == Parsed(out[k]);
    }
  }

  lemma BadLine(lines: seq<Line>, out: seq<Entry>, e: Entry)
    requires |out| < |lines| && lines[..|out|] == Lines(out) && lines[|out|] == Parsed(e)
    requires !Chained(out + [e])
    ensures !Accepted(lines)
  {
    forall es | Chained(es) ensures lines != Lines(es) {
      if lines == Lines(es) {
        PrefixAgrees(lines, out, e, es);
        ChainedPrefix(es, |out| + 1);
      }
    }
  }

  /** A chain is determined by its last hash. */
  lemma {:induction false} LastHashDetermines(a: seq<Entry>, b: seq<Entry>)
    requires Chained(a) && Chained(b) && HeadHash(a) == HeadHash(b)
    ensures a == b
    decreases |a|
  {
    if a != [] && b != [] {
      LastHashDetermines(a[..|a| - 1], b[..|b| - 1]);
      assert a == a[..|a| - 1] + [a[|a| - 1]] && b == b[..|b| - 1] + [b[|b| - 1]];
    }
  }

  /** Any other file ending in the same line is refused: an edited, swapped or dropped earlier line never loads. */
  lemma TamperingRejected(good: seq<Line>, other: seq<Line>)
    requires Accepted(good) && good != [] && other != []
    requires other[|other| - 1] == good[|good| - 1] && other != good
    ensures !Accepted(other)
  {
    var a :| Chained(a) && good == Lines(a);
    forall b | Chained(b) ensures other != Lines(b) {
      if other == Lines(b) {
        assert Parsed(a[|a| - 1]) == Parsed(b[|b| - 1]);
        LastHashDetermines(a, b);
      }
    }
  }

  /** Dropping lines off the end is the one edit the chain alone accepts. */
  lemma TruncationAccepted(es: seq<Entry>, n: nat)
    requires Chained(es) && n <= |es|
    ensures Accepted(Lines(es)[..n])
  {
    ChainedPrefix(es, n);
    assert Lines(es)[..n] == Lines(es[..n]);
  }

  // ---------------------------------------------------------------- the files and the holders

  datatype Lock = Lock(token: nat, released: bool)

  /** The two files on disk. */
  class JournalStore {
    var lines: seq<Line>
    var lock: Option<Lock>

    constructor ()
      ensures lines == [] && lock == None
    {
      lines, lock := [], None;
    }
  }

  datatype Disk = Disk(lines: seq<Line>, lock: Option<Lock>)

  function DiskOf(store: JournalStore): Disk
    reads store
  {
    Disk(store.lines, store.lock)
  }

  predicate OpenRefused(d: Disk, token: nat) {
    d.lock.Some? && !d.lock.value.released && d.lock.value.token != token
  }

  predicate Fenced(d: Disk, token: nat) {
    d.lock.Some? && d.lock.value.token == token
  }

  datatype Opened = Open(journal: ExecutorJournal) | FencingRefused | JournalCorrupt

  class ExecutorJournal {
    const store: JournalStore
    const token: nat
    var entries: seq<Entry>

    constructor (store: JournalStore, token: nat, entries: seq<Entry>)
      ensures this.store == store && this.token == token && this.entries == entries
    {
      this.store, this.token, this.entries := store, token, entries;
    }

    /** Acquires the fence first, then validates the chain. */
    static method OpenJournal(store: JournalStore, token: nat) returns (r: Opened)
      modifies store
      ensures store.lines == old(store.lines)
      ensures r.FencingRefused? <==> OpenRefused(old(DiskOf(store)), token)
      ensures r.FencingRefused? <==> old(store.lock).Some? && old(store.lock).value == Lock(old(store.lock).value.token, false) && old(store.lock).value.token != token
      ensures store.lock == if r.FencingRefused? then old(store.lock) else Some(Lock(token, false))
      ensures r.Open? <==> !OpenRefused(old(DiskOf(store)), token) && Accepted(store.lines)
      ensures r.Open? ==> fresh(r.journal) && r.journal.store == store && r.journal.token == token
      ensures r.Open? ==> Chained(r.journal.entries) && store.lines == Lines(r.journal.entries)
    {
      if store.lock.Some? {
        var lock := store.lock.value;
        if !lock.released && lock.token != token {
          return FencingRefused;
        }
      }
      store.lock := Some(Lock(token, false));
      var loaded := Load(store.lines);
      if loaded.Corrupt? {
        return JournalCorrupt;
      }
      var j := new ExecutorJournal(store, token, loaded.entries);
      return Open(j);
    }

    /** Refused, changing nothing, unless the lock names this holder; otherwise one line in memory and on disk. */
    method Append(at: int, rec: Record) returns (ok: bool)
      modifies this, store`lines
      ensures ok <==> Fenced(DiskOf(store), token)
      ensures ok <==> store.lock == Some(Lock(token, false)) || store.lock == Some(Lock(token, true))
      ensures entries == if ok then old(entries) + [NextEntry(old(entries), at, rec)] else old(entries)
      ensures store.lines == if ok then old(store.lines) + [Parsed(NextEntry(old(entries), at, rec))] else old(store.lines)
    {
      ok := store.lock.Some? && store.lock.value.token == token;
      if ok {
        var previousHash := if entries == [] then Genesis else entries[|entries| - 1].hash;
        var body := Body(|entries|, at, rec, previousHash);
        var entry := Entry(body.sequence, body.at, body.rec, body.previousHash, Digest(body));
        store.lines := store.lines + [Parsed(entry)];
        entries := entries + [entry];
      }
    }

    /** Rewrites the lock whoever holds it. */
    method Release()
      modifies store`lock
      ensures store.lock == Some(Lock(token, true))
    {
      store.lock := Some(Lock(token, true));
    }

    function Journaled(): seq<Record>
      reads this
    {
      RecordsOf(entries)
    }

    method NoncesUsed() returns (out: set<Nonce>)
      ensures out == UsedNonces(Journaled())
    {
      out := {};
      for i := 0 to |entries|
        invariant out == UsedNonces(RecordsOf(entries)[..i])
      {
        var r := entries[i].rec;
        assert RecordsOf(entries)[..i + 1] == RecordsOf(entries)[..i] + [r];
        if r.AttemptSigned? || r.AttemptSubmitted? {
          out := out + {r.nonce};
        }
      }
      assert RecordsOf(entries)[..|entries|] == RecordsOf(entries);
    }

    /** One pass keeping the latest line of each attempt, then the attempts whose latest line is not a result. */
    method UnresolvedAttempts() returns (ids: seq<Id>)
      ensures ids == UnresolvedIds(Journaled())
    {
      ghost var j := Journaled();
      var last: map<Id, Record> := map[];
      var order: seq<Id> := [];
      for i := 0 to |entries|
        invariant Tracks(j[..i], order, last)
      {
        var r := entries[i].rec;
        assert j[..i + 1] == j[..i] + [r];
        TracksNext(j[..i], r, order, last);
        if MovesLast(r) {
          order := Remember(order, r.id);
          last := last[r.id := r];
        }
      }
      assert j[..|entries|] == j;
      ids := [];
      for i := 0 to |order|
        invariant ids + OnlyUnresolved(j, order[i..]) == UnresolvedIds(j)
      {
        assert order[i..][1..] == order[i + 1..];
        if !last[order[i]].AttemptResult? {
          ids := ids + [order[i]];
        }
      }
    }
  }

  function RecordsOf(es: seq<Entry>): (j: seq<Record>)
    ensures |j| == |es| && forall i :: 0 <= i < |es| ==> j[i] == es[i].rec
  {
    seq(|es|, i requires 0 <= i < |es| => es[i].rec)
  }

  lemma RecordsOfNext(es: seq<Entry>, e: Entry)
    ensures RecordsOf(es + [e]) == RecordsOf(es) + [e.rec]
  {
  }

  function LineKind(r: Record): LastLine
    requires MovesLast(r)
  {
    match r
    case AttemptSigned(_, _, _, sig, _) => SignedLine(sig)
    case AttemptSubmitted(_, _, _, sig) => SubmittedLine(sig)
    case _ => ResultLine
  }

  /** `order` and `last` are the Map of the latest line of each attempt after reading `j`. */
  ghost predicate Tracks(j: seq<Record>, order: seq<Id>, last: map<Id, Record>) {
    && order == TouchedIds(j)
    && (forall id: Id :: id in order <==> id in last)
    && (forall id: Id :: id in last ==> MovesLast(last[id]) && LineKind(last[id]) == AttemptOf(j, id).last)
  }

  lemma TracksNext(j: seq<Record>, r: Record, order: seq<Id>, last: map<Id, Record>)
    requires Tracks(j, order, last)
    ensures MovesLast(r) ==> Tracks(j + [r], Remember(order, r.id), last[r.id := r])
    ensures !MovesLast(r) ==> Tracks(j + [r], order, last)
  {
    assert (j + [r])[..|j|] == j;
    forall id: Id | id in last || (MovesLast(r) && id == r.id)
      ensures AttemptOf(j + [r], id).last == if MovesLast(r) && id == r.id then LineKind(r) else AttemptOf(j, id).last
    {
      AttemptNext(j, r, id);
    }
  }
}
