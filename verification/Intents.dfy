/** The permanent idempotency registry, and its reconstruction from the journal. */
module Intents {
  import opened Sums
  import opened ExposureLedger
  import opened Records

  datatype IntentEntry = IntentEntry(intentId: Id, state: IntentState)

  type Registry = map<Key, IntentEntry>

  predicate Terminal(s: IntentState) {
    s == COMPLETED || s == EXPIRED || s == CANCELLED || s == FAILED
  }

  predicate Allowed(from: IntentState, to: IntentState) {
    match from
    case CREATED => to == AUTHORIZED || to == EXPIRED || to == CANCELLED || to == FAILED
    case AUTHORIZED => to == APPROVED || to == EXECUTING || to == EXPIRED || to == CANCELLED || to == FAILED
    case APPROVED => to == EXECUTING || to == EXPIRED || to == CANCELLED || to == FAILED
    case EXECUTING => to == COMPLETED || to == FAILED
    case _ => false
  }

  function Step(from: IntentState, to: IntentState): IntentState {
    if Allowed(from, to) then to else from
  }

  function Register(r: Registry, id: Id, key: Key): Registry {
    if key in r then r else r[key := IntentEntry(id, CREATED)]
  }

  function Advance(r: Registry, key: Key, to: IntentState): Registry {
    if key in r then r[key := r[key].(state := Step(r[key].state, to))] else r
  }

  /** How one journal line moves the state of the key it names during a rebuild. */
  function RebuildState(s: IntentState, r: Record): IntentState {
    match r
    case AttemptSubmitted(_, _, _, _) => Step(if s == CREATED then AUTHORIZED else s, EXECUTING)
    case AttemptResult(_, _, _, lifecycle, _) =>
      if lifecycle == COMPLETED then
        var s1 := if s == CREATED then AUTHORIZED else s;
        var s2 := if s1 == AUTHORIZED || s1 == APPROVED then EXECUTING else s1;
        Step(s2, COMPLETED)
      else if Terminal(lifecycle) then Step(s, lifecycle)
      else s
    case _ => s
  }

  function RebuildLine(r: Registry, line: Record): Registry {
    match line
    case AttemptPrepared(id, key, _, _, _, _, _, _) => Register(r, id, key)
    case AttemptSubmitted(_, key, _, _) => if key in r then r[key := r[key].(state := RebuildState(r[key].state, line))] else r
    case AttemptResult(_, key, _, _, _) => if key in r then r[key := r[key].(state := RebuildState(r[key].state, line))] else r
    case _ => r
  }

  function FromJournal(j: seq<Record>): Registry {
    if j == [] then map[] else RebuildLine(FromJournal(j[..|j| - 1]), j[|j| - 1])
  }

  lemma FromJournalNext(j: seq<Record>, r: Record)
    ensures FromJournal(j + [r]) == RebuildLine(FromJournal(j), r)
  {
    assert (j + [r])[..|j|] == j;
  }

  /** A claimed key keeps its intent, and a terminal state never moves, whatever lines follow. */
  lemma {:induction false} ClaimsArePermanent(j: seq<Record>, more: seq<Record>, key: Key)
    requires key in FromJournal(j)
    ensures key in FromJournal(j + more) && FromJournal(j + more)[key].intentId == FromJournal(j)[key].intentId
    ensures Terminal(FromJournal(j)[key].state) ==> FromJournal(j + more)[key] == FromJournal(j)[key]
    decreases |more|
  {
    if more == [] {
      assert j + more == j;
    } else {
      ClaimsArePermanent(j, more[..|more| - 1], key);
      assert (j + more)[..|j + more| - 1] == j + more[..|more| - 1];
    }
  }

  datatype Claim = Created | Duplicate(intentId: Id, state: IntentState)

  class IdempotencyRegistry {
    var registry: Registry

    constructor ()
      ensures registry == map[]
    {
      registry := map[];
    }

    /** CREATED for a fresh key; otherwise the entry the key already holds, untouched. */
    method ClaimKey(id: Id, key: Key) returns (c: Claim)
      modifies this
      ensures key in registry && registry == Register(old(registry), id, key)
      ensures c.Created? <==> key !in old(registry)
      ensures c.Duplicate? ==> registry == old(registry) && c == Duplicate(registry[key].intentId, registry[key].state)
    {
      if key in registry {
        c := Duplicate(registry[key].intentId, registry[key].state);
      } else {
        registry := registry[key := IntentEntry(id, CREATED)];
        c := Created;
      }
    }

    method AdvanceKey(key: Key, to: IntentState) returns (ok: bool)
      modifies this
      ensures registry == Advance(old(registry), key, to)
      ensures ok <==> key in old(registry) && Allowed(old(registry)[key].state, to)
    {
      ok := key in registry && Allowed(registry[key].state, to);
      if ok {
        registry := registry[key := registry[key].(state := to)];
      }
    }

    function StateOf(key: Key): Option<IntentState>
      reads this
    {
      if key in registry then Some(registry[key].state) else None
    }

    /** One journal line of a rebuild: the cases of the loop. */
    method Absorb(line: Record)
      modifies this
      ensures registry == RebuildLine(old(registry), line)
    {
      match line {
        case AttemptPrepared(id, key, _, _, _, _, _, _) =>
          var claim := ClaimKey(id, key);
        case AttemptSubmitted(_, key, _, _) =>
          if StateOf(key) == Some(CREATED) {
            var ok := AdvanceKey(key, AUTHORIZED);
          }
          var ok := AdvanceKey(key, EXECUTING);
        case AttemptResult(_, key, _, lifecycle, _) =>
          if Terminal(lifecycle) {
            if lifecycle == COMPLETED {
              if StateOf(key) == Some(CREATED) {
                var ok := AdvanceKey(key, AUTHORIZED);
              }
              if StateOf(key) == Some(AUTHORIZED) || StateOf(key) == Some(APPROVED) {
                var ok := AdvanceKey(key, EXECUTING);
              }
            }
            var ok := AdvanceKey(key, lifecycle);
          }
        case _ =>
      }
    }

    static method Rebuild(j: seq<Record>) returns (r: IdempotencyRegistry)
      ensures fresh(r) && r.registry == FromJournal(j)
    {
      r := new IdempotencyRegistry();
      for i := 0 to |j|
        invariant fresh(r) && r.registry == FromJournal(j[..i])
      {
        assert j[..i + 1] == j[..i] + [j[i]];
        FromJournalNext(j[..i], j[i]);
        r.Absorb(j[i]);
      }
      assert j[..|j|] == j;
    }
  }

  /** How far along an intent is. */
  function Progress(s: IntentState): nat {
    match s
    case CREATED => 0
    case AUTHORIZED => 1
    case APPROVED => 2
    case EXECUTING => 3
    case _ => 4
  }

  /** The transitions, spelled out: never back, never out of a terminal state; COMPLETED from EXECUTING alone, EXPIRED and
      CANCELLED before it alone, FAILED from anywhere; and forward one stage at a time, approval aside. */
  lemma AllowedExactly(from: IntentState, to: IntentState)
    ensures Allowed(from, to) ==> Progress(from) < Progress(to) && !Terminal(from)
    ensures Allowed(from, COMPLETED) <==> from == EXECUTING
    ensures Allowed(from, FAILED) <==> Progress(from) < 4
    ensures (Allowed(from, EXPIRED) <==> Progress(from) < 3) && (Allowed(from, CANCELLED) <==> Progress(from) < 3)
    ensures (Allowed(from, AUTHORIZED) <==> from == CREATED) && (Allowed(from, APPROVED) <==> from == AUTHORIZED) && !Allowed(from, CREATED)
    ensures Allowed(from, EXECUTING) <==> from == AUTHORIZED || from == APPROVED
    ensures Terminal(from) <==> Progress(from) == 4
  {
  }
}
