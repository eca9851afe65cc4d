/**
  News clustering.  A title is its list of normalised tokens, a shingle the list of tokens it joins,
  and a similarity an exact quotient.
*/
module Dedupe {
  import opened Sums

  type Shingle = seq<string>

  // ---------------------------------------------------------------- shingles

  /** The first n windows of `size` tokens. */
  function Windows(tokens: seq<string>, size: nat, n: nat): set<Shingle>
    requires n == 0 || n - 1 + size <= |tokens|
  {
    if n == 0 then {} else Windows(tokens, size, n - 1) + {tokens[n - 1..n - 1 + size]}
  }

  function ShingleSet(tokens: seq<string>, size: nat): set<Shingle> {
    if tokens == [] then {}
    else if |tokens| < size then {tokens}
    else Windows(tokens, size, |tokens| - size + 1)
  }

  /** The shingles are the runs of `size` consecutive tokens. */
  lemma {:induction false} WindowsAreRuns(tokens: seq<string>, size: nat, n: nat, x: Shingle)
    requires n == 0 || n - 1 + size <= |tokens|
    ensures x in Windows(tokens, size, n) <==> exists i :: 0 <= i < n && IsRun(tokens, size, i, x)
  {
    if n > 0 {
      WindowsAreRuns(tokens, size, n - 1, x);
      assert IsRun(tokens, size, n - 1, x) <==> x == tokens[n - 1..n - 1 + size];
    }
  }

  predicate IsRun(tokens: seq<string>, size: nat, i: int, x: Shingle) {
    0 <= i && i + size <= |tokens| && x == tokens[i..i + size]
  }

  method Shingles(tokens: seq<string>, size: nat) returns (out: set<Shingle>)
    ensures out == ShingleSet(tokens, size)
  {
    out := {};
    if |tokens| == 0 {
      return;
    }
    if |tokens| < size {
      out := out + {tokens};
      return;
    }
    var i := 0;
    while i + size <= |tokens|
      invariant 0 <= i <= |tokens| - size + 1
      invariant out == Windows(tokens, size, i)
    {
      out := out + {tokens[i..i + size]};
      i := i + 1;
    }
  }

  // ---------------------------------------------------------------- Jaccard similarity

  /** Shared over total. */
  function Similarity(a: set<Shingle>, b: set<Shingle>): real {
    if a == {} || b == {} then 0.0 else |a * b| as real / Union(a, b) as real
  }

  function Union(a: set<Shingle>, b: set<Shingle>): (n: nat)
    ensures a != {} ==> n > 0
  {
    assert a != {} ==> a <= a + b && |a| > 0;
    SubsetSize(a, a + b);
    |a + b|
  }

  lemma {:induction false} SubsetSize(a: set<Shingle>, b: set<Shingle>)
    requires a <= b
    ensures |a| <= |b| && (|a| == |b| ==> a == b)
    decreases a
  {
    if a != {} {
      var x :| x in a;
      SubsetSize(a - {x}, b - {x});
      if |a| == |b| {
        assert a == (a - {x}) + {x} && b == (b - {x}) + {x};
      }
    }
  }

  lemma InclusionExclusion(a: set<Shingle>, b: set<Shingle>)
    ensures |a + b| == |a| + |b| - |a * b|
  {
  }

  method Jaccard(a: set<Shingle>, b: set<Shingle>) returns (r: real)
    ensures r == Similarity(a, b)
  {
    if |a| == 0 || |b| == 0 {
      return 0.0;
    }
    var inter := 0;
    var todo := a;
    while todo != {}
      invariant todo <= a && inter == |(a - todo) * b|
      decreases |todo|
    {
      var x :| x in todo;
      if x in b {
        assert (a - (todo - {x})) * b == (a - todo) * b + {x};
        inter := inter + 1;
      } else {
        assert (a - (todo - {x})) * b == (a - todo) * b;
      }
      todo := todo - {x};
    }
    assert a - {} == a;
    InclusionExclusion(a, b);
    return inter as real / (|a| + |b| - inter) as real;
  }

  lemma Quotient(n: nat, d: nat)
    requires 0 < d && n <= d
    ensures 0.0 <= n as real / d as real <= 1.0
    ensures n as real / d as real == 1.0 <==> n == d
    ensures n as real / d as real == 0.0 <==> n == 0
  {
  }

  /** In [0,1], symmetric; one exactly for equal titles, zero exactly for titles sharing nothing. */
  lemma SimilarityMeaning(a: set<Shingle>, b: set<Shingle>)
    ensures 0.0 <= Similarity(a, b) <= 1.0 && Similarity(a, b) == Similarity(b, a)
    ensures Similarity(a, b) == 1.0 <==> a == b && a != {}
    ensures Similarity(a, b) == 0.0 <==> a * b == {}
  {
    SubsetSize(a * b, a + b);
    assert a * b == b * a && a + b == b + a;
    if a != {} && b != {} {
      Quotient(|a * b|, Union(a, b));
      if |a * b| == |a + b| {
        assert forall x :: x in a ==> x in a + b;
        assert forall x :: x in b ==> x in a + b;
        assert a == b;
      }
    } else {
      assert a * b == {};
    }
  }

  // ---------------------------------------------------------------- candidates

  datatype Candidate = Candidate(id: nat, clusterId: Option<nat>, url: Option<nat>, tokens: seq<string>, assets: set<nat>, at: int)

  datatype Draft = Draft(url: Option<nat>, tokens: seq<string>, assets: set<nat>, at: int)

  datatype Policy = Policy(windowMs: int, shingleSize: nat, titleThreshold: real, entityThreshold: real)

  datatype Relation = DUPLICATE | CORROBORATION

  datatype Assignment = New | Joins(relation: Relation, cluster: nat, event: nat, novelty: real, similarity: real)

  predicate SameUrl(d: Draft, c: Candidate) {
    d.url.Some? && c.url == d.url
  }

  function Phrase(d: Draft, p: Policy, c: Candidate): real {
    if SameUrl(d, c) then 1.0 else Similarity(ShingleSet(d.tokens, p.shingleSize), ShingleSet(c.tokens, p.shingleSize))
  }

  function Words(d: Draft, c: Candidate): real {
    if SameUrl(d, c) then 1.0 else Similarity(ShingleSet(d.tokens, 1), ShingleSet(c.tokens, 1))
  }

  function Closeness(d: Draft, p: Policy, c: Candidate): real {
    if Phrase(d, p, c) >= Words(d, c) then Phrase(d, p, c) else Words(d, c)
  }

  predicate SharesAsset(d: Draft, c: Candidate) {
    exists a :: a in c.assets && a in d.assets
  }

  function RelationOf(d: Draft, p: Policy, c: Candidate): Option<Relation> {
    if SameUrl(d, c) || Phrase(d, p, c) >= p.titleThreshold then Some(DUPLICATE)
    else if SharesAsset(d, c) && Words(d, c) >= p.entityThreshold then Some(CORROBORATION)
    else None
  }

  predicate InWindow(d: Draft, p: Policy, c: Candidate) {
    d.at - p.windowMs <= c.at <= d.at
  }

  predicate Qualifies(d: Draft, p: Policy, c: Candidate) {
    InWindow(d, p, c) && RelationOf(d, p, c).Some?
  }

  /** Oldest first, then by id. */
  predicate Before(x: Candidate, y: Candidate) {
    x.at < y.at || (x.at == y.at && x.id < y.id)
  }

  /** The event joined: a qualifying one of greatest similarity, the oldest among equals. */
  ghost predicate Chosen(d: Draft, p: Policy, recent: multiset<Candidate>, c: Candidate) {
    && c in recent && Qualifies(d, p, c)
    && forall x :: x in recent && Qualifies(d, p, x) && x != c ==>
         Closeness(d, p, x) < Closeness(d, p, c) || (Closeness(d, p, x) == Closeness(d, p, c) && Before(c, x))
  }

  function Joining(d: Draft, p: Policy, c: Candidate): Assignment
    requires Qualifies(d, p, c)
  {
    var s := Closeness(d, p, c);
    Joins(RelationOf(d, p, c).value, if c.clusterId.Some? then c.clusterId.value else c.id, c.id, if 1.0 - s > 0.0 then 1.0 - s else 0.0, s)
  }

  ghost predicate Answers(d: Draft, p: Policy, recent: multiset<Candidate>, r: Assignment) {
    if r.New? then forall x :: x in recent ==> !Qualifies(d, p, x)
    else exists c :: Chosen(d, p, recent, c) && r == Joining(d, p, c)
  }

  predicate DistinctIds(recent: seq<Candidate>) {
    forall i, k :: 0 <= i < k < |recent| ==> recent[i].id != recent[k].id
  }

  // ---------------------------------------------------------------- sorting

  ghost predicate Sorted(s: seq<Candidate>) {
    forall i, k :: 0 <= i < k < |s| ==> Before(s[i], s[k])
  }

  /** Where a candidate goes in a sorted list. */
  method Insert(s: seq<Candidate>, c: Candidate) returns (out: seq<Candidate>)
    requires Sorted(s) && forall i :: 0 <= i < |s| ==> s[i].id != c.id
    ensures Sorted(out) && multiset(out) == multiset(s) + multiset{c}
  {
    var i := 0;
    while i < |s| && Before(s[i], c)
      invariant 0 <= i <= |s| && forall k :: 0 <= k < i ==> Before(s[k], c)
    {
      i := i + 1;
    }
    out := s[..i] + [c] + s[i..];
    assert s == s[..i] + s[i..];
  }

  /** The events inside the window, oldest first. */
  method Ordered(d: Draft, p: Policy, recent: seq<Candidate>) returns (out: seq<Candidate>)
    requires DistinctIds(recent)
    ensures Sorted(out) && forall c :: c in out <==> c in recent && InWindow(d, p, c)
  {
    out := [];
    for i := 0 to |recent|
      invariant Sorted(out) && forall c :: c in out <==> c in recent[..i] && InWindow(d, p, c)
    {
      var c := recent[i];
      assert recent[..i + 1] == recent[..i] + [c];
      if d.at - p.windowMs <= c.at && c.at <= d.at {
        forall k | 0 <= k < |out| ensures out[k].id != c.id {
          assert out[k] in recent[..i];
        }
        var next := Insert(out, c);
        forall x ensures x in next <==> x in out || x == c {
          assert x in next <==> x in multiset(next);
          assert x in out <==> x in multiset(out);
        }
        out := next;
      }
    }
    assert recent[..|recent|] == recent;
  }

  // ---------------------------------------------------------------- assignment

  /** `best` is what the first n of the ordered events leave: the earliest of the closest. */
  ghost predicate BestOf(d: Draft, p: Policy, s: seq<Candidate>, n: nat, best: Option<Candidate>)
    requires n <= |s|
  {
    if best.None? then forall k :: 0 <= k < n ==> RelationOf(d, p, s[k]).None?
    else
      exists b :: 0 <= b < n && BestAt(d, p, s, n, b) && best == Some(s[b])
  }

  ghost predicate BestAt(d: Draft, p: Policy, s: seq<Candidate>, n: nat, b: nat)
    requires b < n <= |s|
  {
    && RelationOf(d, p, s[b]).Some?
    && (forall k :: 0 <= k < n && RelationOf(d, p, s[k]).Some? ==> Closeness(d, p, s[k]) <= Closeness(d, p, s[b]))
    && (forall k :: 0 <= k < b && RelationOf(d, p, s[k]).Some? ==> Closeness(d, p, s[k]) < Closeness(d, p, s[b]))
  }

  lemma BestNext(d: Draft, p: Policy, s: seq<Candidate>, n: nat, best: Option<Candidate>)
    requires n < |s| && BestOf(d, p, s, n, best)
    ensures var better := RelationOf(d, p, s[n]).Some? && (best.None? || Closeness(d, p, s[n]) > Closeness(d, p, best.value));
            BestOf(d, p, s, n + 1, if better then Some(s[n]) else best)
  {
    hide RelationOf;
    hide Closeness;
    if RelationOf(d, p, s[n]).Some? && (best.None? || Closeness(d, p, s[n]) > Closeness(d, p, best.value)) {
      assert BestAt(d, p, s, n + 1, n);
    } else if best.Some? {
      var b :| 0 <= b < n && BestAt(d, p, s, n, b) && best == Some(s[b]);
      assert BestAt(d, p, s, n + 1, b);
    }
  }

  /** What one candidate scores against the draft. */
  method Score(d: Draft, p: Policy, mine: set<Shingle>, myWords: set<Shingle>, c: Candidate) returns (similarity: real, relation: Option<Relation>)
    requires mine == ShingleSet(d.tokens, p.shingleSize) && myWords == ShingleSet(d.tokens, 1)
    ensures similarity == Closeness(d, p, c) && relation == RelationOf(d, p, c)
  {
    var sameUrl := d.url.Some? && c.url == d.url;
    var phrase, words := 1.0, 1.0;
    if !sameUrl {
      var theirs := Shingles(c.tokens, p.shingleSize);
      phrase := Jaccard(mine, theirs);
      var theirWords := Shingles(c.tokens, 1);
      words := Jaccard(myWords, theirWords);
    }
    similarity := if phrase >= words then phrase else words;
    var sharesAsset := exists a :: a in c.assets && a in d.assets;
    relation := None;
    if sameUrl || phrase >= p.titleThreshold {
      relation := Some(DUPLICATE);
    } else if sharesAsset && words >= p.entityThreshold {
      relation := Some(CORROBORATION);
    }
  }

  method AssignCluster(d: Draft, recent: seq<Candidate>, p: Policy) returns (r: Assignment)
    requires DistinctIds(recent)
    ensures Answers(d, p, multiset(recent), r)
    ensures r.New? ==> forall c :: c in recent ==> !Alike(d, p, c)
    ensures r.Joins? ==> exists c :: c in recent && c.id == r.event && JoinedTo(d, p, recent, c, r)
  {
    var mine := Shingles(d.tokens, p.shingleSize);
    var myWords := Shingles(d.tokens, 1);
    var ordered := Ordered(d, p, recent);
    var best: Option<Candidate> := None;
    for n := 0 to |ordered|
      invariant BestOf(d, p, ordered, n, best)
    {
      BestNext(d, p, ordered, n, best);
      var similarity, relation := Score(d, p, mine, myWords, ordered[n]);
      if relation.Some? && (best.None? || similarity > Closeness(d, p, best.value)) {
        best := Some(ordered[n]);
      }
    }
    BestAnswers(d, p, recent, ordered, best);
    r := if best.None? then New else Joining(d, p, best.value);
    AnswersMean(d, p, recent, r);
  }

  // ---------------------------------------------------------------- the answer, spelled out

  /** Inside the window, and the same story: the same URL, titles close enough, or a shared asset and enough shared words. */
  predicate Alike(d: Draft, p: Policy, c: Candidate) {
    && d.at - p.windowMs <= c.at && c.at <= d.at
    && ((d.url.Some? && d.url == c.url)
        || Similarity(ShingleSet(c.tokens, p.shingleSize), ShingleSet(d.tokens, p.shingleSize)) >= p.titleThreshold
        || (c.assets * d.assets != {} && Similarity(ShingleSet(c.tokens, 1), ShingleSet(d.tokens, 1)) >= p.entityThreshold))
  }

  /** The larger of the two similarities; one for the same URL. */
  function Nearness(d: Draft, p: Policy, c: Candidate): real {
    var titles := Similarity(ShingleSet(c.tokens, p.shingleSize), ShingleSet(d.tokens, p.shingleSize));
    var words := Similarity(ShingleSet(c.tokens, 1), ShingleSet(d.tokens, 1));
    if d.url.Some? && d.url == c.url then 1.0 else if words > titles then words else titles
  }

  /** What joining `c` must mean. */
  ghost predicate JoinedTo(d: Draft, p: Policy, recent: seq<Candidate>, c: Candidate, r: Assignment)
    requires r.Joins?
  {
    && Alike(d, p, c) && r.event == c.id && r.cluster == (match c.clusterId case Some(k) => k case None => c.id)
    && r.similarity == Nearness(d, p, c) && r.novelty == 1.0 - r.similarity
    && (r.relation == DUPLICATE <==>
          || (d.url.Some? && d.url == c.url)
          || Similarity(ShingleSet(c.tokens, p.shingleSize), ShingleSet(d.tokens, p.shingleSize)) >= p.titleThreshold)
    && forall x :: x in recent && Alike(d, p, x) && x != c ==>
         Nearness(d, p, x) <= r.similarity && (Nearness(d, p, x) == r.similarity ==> c.at < x.at || (c.at == x.at && c.id < x.id))
  }

  lemma AlikeExactly(d: Draft, p: Policy, c: Candidate)
    ensures Qualifies(d, p, c) <==> Alike(d, p, c)
    ensures Closeness(d, p, c) == Nearness(d, p, c)
  {
    SimilarityMeaning(ShingleSet(d.tokens, p.shingleSize), ShingleSet(c.tokens, p.shingleSize));
    SimilarityMeaning(ShingleSet(d.tokens, 1), ShingleSet(c.tokens, 1));
    if c.assets * d.assets != {} {
      var a :| a in c.assets * d.assets;
      assert a in c.assets && a in d.assets;
    }
    if SharesAsset(d, c) {
      var a :| a in c.assets && a in d.assets;
      assert a in c.assets * d.assets;
    }
  }

  lemma AnswersMean(d: Draft, p: Policy, recent: seq<Candidate>, r: Assignment)
    requires Answers(d, p, multiset(recent), r)
    ensures r.New? ==> forall c :: c in recent ==> !Alike(d, p, c)
    ensures r.Joins? ==> exists c :: c in recent && c.id == r.event && JoinedTo(d, p, recent, c, r)
  {
    hide Alike;
    hide Qualifies;
    hide Nearness;
    hide Closeness;
    hide Similarity;
    if r.New? {
      forall c | c in recent ensures !Alike(d, p, c) {
        assert c in multiset(recent);
        AlikeExactly(d, p, c);
      }
    } else {
      var c :| Chosen(d, p, multiset(recent), c) && r == Joining(d, p, c);
      AlikeExactly(d, p, c);
      NoveltyIsComplement(d, p, c);
      RelationExactly(d, p, c);
      forall x | x in recent && Alike(d, p, x) && x != c
        ensures Nearness(d, p, x) <= r.similarity && (Nearness(d, p, x) == r.similarity ==> c.at < x.at || (c.at == x.at && c.id < x.id))
      {
        assert x in multiset(recent);
        AlikeExactly(d, p, x);
      }
      assert c in recent && JoinedTo(d, p, recent, c, r);
    }
  }

  lemma RelationExactly(d: Draft, p: Policy, c: Candidate)
    requires Qualifies(d, p, c)
    ensures RelationOf(d, p, c).value == DUPLICATE <==>
              || (d.url.Some? && d.url == c.url)
              || Similarity(ShingleSet(c.tokens, p.shingleSize), ShingleSet(d.tokens, p.shingleSize)) >= p.titleThreshold
  {
    SimilarityMeaning(ShingleSet(d.tokens, p.shingleSize), ShingleSet(c.tokens, p.shingleSize));
  }

  lemma BestAnswers(d: Draft, p: Policy, recent: seq<Candidate>, ordered: seq<Candidate>, best: Option<Candidate>)
    requires Sorted(ordered) && (forall c :: c in ordered <==> c in recent && InWindow(d, p, c))
    requires BestOf(d, p, ordered, |ordered|, best)
    ensures best.Some? ==> Qualifies(d, p, best.value)
    ensures Answers(d, p, multiset(recent), if best.None? then New else Joining(d, p, best.value))
  {
    if best.None? {
      forall x | x in multiset(recent) ensures !Qualifies(d, p, x) {
        if x in ordered {
          var k :| 0 <= k < |ordered| && ordered[k] == x;
        }
      }
    } else {
      var b :| 0 <= b < |ordered| && BestAt(d, p, ordered, |ordered|, b) && best == Some(ordered[b]);
      assert ordered[b] in ordered;
      forall x | x in multiset(recent) && Qualifies(d, p, x) && x != best.value
        ensures Closeness(d, p, x) < Closeness(d, p, best.value) || (Closeness(d, p, x) == Closeness(d, p, best.value) && Before(best.value, x))
      {
        assert x in ordered;
        var k :| 0 <= k < |ordered| && ordered[k] == x;
      }
      assert Chosen(d, p, multiset(recent), best.value);
    }
  }

  /** The answer does not depend on the order in which the recent events are given. */
  lemma OrderDoesNotMatter(d: Draft, p: Policy, a: seq<Candidate>, b: seq<Candidate>, ra: Assignment, rb: Assignment)
    requires multiset(a) == multiset(b) && Answers(d, p, multiset(a), ra) && Answers(d, p, multiset(b), rb)
    ensures ra == rb
  {
    if ra.Joins? && rb.Joins? {
      var x :| Chosen(d, p, multiset(a), x) && ra == Joining(d, p, x);
      var y :| Chosen(d, p, multiset(b), y) && rb == Joining(d, p, y);
    }
  }

  /** Similarity stays in [0,1], and the novelty of a match is its complement. */
  lemma NoveltyIsComplement(d: Draft, p: Policy, c: Candidate)
    requires Qualifies(d, p, c)
    ensures 0.0 <= Joining(d, p, c).similarity <= 1.0
    ensures Joining(d, p, c).novelty == 1.0 - Joining(d, p, c).similarity
  {
    SimilarityMeaning(ShingleSet(d.tokens, p.shingleSize), ShingleSet(c.tokens, p.shingleSize));
    SimilarityMeaning(ShingleSet(d.tokens, 1), ShingleSet(c.tokens, 1));
  }
}
