/**
 Reciprocal rank fusion of the keyword and the vector results. Scores are exact reals: the rounding
 of the program's floating point is not modelled.
 */
module Fusion {

  /** One entry of a channel: a candidate, of which only the ID of its chunk is looked at. */
  datatype Hit = Hit(chunk: string, content: string)

  // ---------------------------------------------------------------------------
  // The order of the results
  // ---------------------------------------------------------------------------

  /** Python's order on strings: by code point, a prefix first. */
  predicate Less(a: string, b: string) {
    b != [] && (a == [] || a[0] < b[0] || (a[0] == b[0] && Less(a[1..], b[1..])))
  }

  lemma {:induction false} LessIsTotal(a: string, b: string)
    ensures !(Less(a, b) && Less(b, a))
    ensures Less(a, b) || a == b || Less(b, a)
    ensures !Less(a, a)
  {
    if a != [] && b != [] {
      LessIsTotal(a[1..], b[1..]);
      assert a == [a[0]] + a[1..] && b == [b[0]] + b[1..];
    }
    if a != [] { LessIsTotal(a[1..], a[1..]); }
  }

  lemma {:induction false} LessIsTransitive(a: string, b: string, c: string)
    requires Less(a, b) && Less(b, c)
    ensures Less(a, c)
  {
    if a != [] && a[0] == b[0] && b[0] == c[0] {
      LessIsTransitive(a[1..], b[1..], c[1..]);
    }
  }

  /** `key=lambda item: (-scores[item], item)`: the higher score first, then the smaller ID. */
  predicate Before(scores: map<string, real>, a: string, b: string)
    requires a in scores && b in scores
  {
    scores[a] > scores[b] || (scores[a] == scores[b] && Less(a, b))
  }

  ghost predicate Sorted(scores: map<string, real>, ids: seq<string>) {
    && (forall i :: 0 <= i < |ids| ==> ids[i] in scores)
    && (forall i, j :: 0 <= i < j < |ids| ==> Before(scores, ids[i], ids[j]))
  }

  lemma BeforeIsAnOrder(scores: map<string, real>, a: string, b: string, c: string)
    requires a in scores && b in scores && c in scores
    ensures Before(scores, a, b) && Before(scores, b, c) ==> Before(scores, a, c)
    ensures a != b ==> Before(scores, a, b) || Before(scores, b, a)
    ensures !Before(scores, a, a)
  {
    LessIsTotal(a, b);
    LessIsTotal(a, a);
    if Less(a, b) && Less(b, c) { LessIsTransitive(a, b, c); }
  }

  // ---------------------------------------------------------------------------
  // Scores
  // ---------------------------------------------------------------------------

  /** `scores.get(id, 0.0)` */
  function Get(scores: map<string, real>, id: string): real {
    if id in scores then scores[id] else 0.0
  }

  function Share(k: nat, rank: nat): (r: real)
    requires 0 < rank
    ensures r > 0.0
  {
    1.0 / (k + rank) as real
  }

  /** What the first `n` entries of a channel give to `id`: 1 / (k + rank) for each of its ranks, from 1 on. */
  function Score(channel: seq<Hit>, n: nat, k: nat, id: string): (r: real)
    requires n <= |channel|
    ensures r >= 0.0
  {
    if n == 0 then 0.0
    else Score(channel, n - 1, k, id) + if channel[n - 1].chunk == id then Share(k, n) else 0.0
  }

  ghost predicate Occurs(channel: seq<Hit>, n: nat, id: string)
    requires n <= |channel|
  {
    exists i :: 0 <= i < n && channel[i].chunk == id
  }

  ghost predicate IsFirstAt(all: seq<Hit>, i: nat, c: Hit) {
    i < |all| && all[i] == c && forall j :: 0 <= j < i ==> all[j].chunk != c.chunk
  }

  /** The candidate that is kept for an ID: its first one, in the keyword channel and then the vector channel. */
  ghost predicate IsFirst(all: seq<Hit>, c: Hit) {
    exists i: nat :: IsFirstAt(all, i, c)
  }

  // ---------------------------------------------------------------------------
  // _rrf
  // ---------------------------------------------------------------------------

  /** `sorted(scores, key=...)`, by insertion. */
  method SortedIds(scores: map<string, real>) returns (ids: seq<string>)
    ensures Sorted(scores, ids)
    ensures forall id :: id in ids <==> id in scores
    ensures |ids| == |scores|
  {
    ids := [];
    var rest := scores.Keys;
    while rest != {}
      invariant rest <= scores.Keys && Sorted(scores, ids)
      invariant forall id :: id in ids <==> id in scores && id !in rest
      invariant |ids| + |rest| == |scores.Keys|
      decreases rest
    {
      var id :| id in rest;
      rest := rest - {id};
      ids := Insert(scores, ids, id);
    }
    assert |scores.Keys| == |scores|;
  }

  method Insert(scores: map<string, real>, ids: seq<string>, id: string) returns (r: seq<string>)
    requires Sorted(scores, ids) && id in scores && id !in ids
    ensures Sorted(scores, r) && |r| == |ids| + 1
    ensures forall x :: x in r <==> x in ids || x == id
  {
    var i := 0;
    while i < |ids| && Before(scores, ids[i], id)
      invariant i <= |ids|
      invariant forall j :: 0 <= j < i ==> Before(scores, ids[j], id)
    {
      i := i + 1;
    }
    r := ids[..i] + [id] + ids[i..];
    forall j | i <= j < |ids| ensures Before(scores, id, ids[j]) {
      BeforeIsAnOrder(scores, ids[i], id, id);
      BeforeIsAnOrder(scores, id, ids[i], ids[j]);
    }
    assert forall x :: x in ids <==> x in ids[..i] || x in ids[i..] by { assert ids == ids[..i] + ids[i..]; }
  }

  /** The IDs of the first `n` entries of `all`, each with its first candidate. */
  ghost predicate Collected(all: seq<Hit>, n: nat, candidates: map<string, Hit>)
    requires n <= |all|
  {
    && (forall id :: id in candidates <==> Occurs(all, n, id))
    && (forall id :: id in candidates ==> candidates[id].chunk == id && IsFirst(all, candidates[id]))
  }

  /** `scores` is `before` and what the first `n` entries of the channel add to it. */
  ghost predicate Summed(before: map<string, real>, channel: seq<Hit>, n: nat, k: nat, scores: map<string, real>)
    requires n <= |channel|
  {
    forall id :: Get(scores, id) == Get(before, id) + Score(channel, n, k, id)
  }

  /** `candidates.setdefault(c.chunk_id, c)` */
  function SetDefault(candidates: map<string, Hit>, c: Hit): map<string, Hit> {
    if c.chunk in candidates then candidates else candidates[c.chunk := c]
  }

  lemma CollectOne(all: seq<Hit>, n: nat, candidates: map<string, Hit>)
    requires n < |all| && Collected(all, n, candidates)
    ensures Collected(all, n + 1, SetDefault(candidates, all[n]))
  {
    var c := all[n];
    if c.chunk !in candidates {
      assert !Occurs(all, n, c.chunk);
      assert IsFirstAt(all, n, c);
    }
    forall id ensures Occurs(all, n + 1, id) <==> Occurs(all, n, id) || id == c.chunk {
      if id == c.chunk { assert all[n].chunk == id; }
      if Occurs(all, n, id) {
        var i :| 0 <= i < n && all[i].chunk == id;
        assert all[i].chunk == id && 0 <= i < n + 1;
      }
    }
  }

  lemma SumOne(before: map<string, real>, channel: seq<Hit>, n: nat, k: nat, scores: map<string, real>)
    requires n < |channel| && Summed(before, channel, n, k, scores)
    ensures var id := channel[n].chunk;
            Summed(before, channel, n + 1, k, scores[id := Get(scores, id) + Share(k, n + 1)])
  {
    var id := channel[n].chunk;
    var scores' := scores[id := Get(scores, id) + Share(k, n + 1)];
    forall x ensures Get(scores', x) == Get(before, x) + Score(channel, n + 1, k, x) {
      assert Get(scores, x) == Get(before, x) + Score(channel, n, k, x);
    }
  }

  /** What `candidates` and `scores` hold after `i` entries of a channel that is the part of `all` from `from` on. */
  ghost predicate ReadTo(all: seq<Hit>, from: nat, channel: seq<Hit>, i: nat, k: nat, before: map<string, real>,
                         candidates: map<string, Hit>, scores: map<string, real>)
  {
    && i <= |channel| && from + |channel| <= |all|
    && forall table :: TableOk(table, all, from, channel, i, k, before, candidates, scores)
  }

  datatype Table = CandidatesTable | ScoresTable

  ghost predicate TableOk(table: Table, all: seq<Hit>, from: nat, channel: seq<Hit>, i: nat, k: nat,
                          before: map<string, real>, candidates: map<string, Hit>, scores: map<string, real>)
    requires i <= |channel| && from + |channel| <= |all|
  {
    match table
    case CandidatesTable => Collected(all, from + i, candidates) && scores.Keys == candidates.Keys
    case ScoresTable => Summed(before, channel, i, k, scores)
  }

  lemma ReadToMeans(all: seq<Hit>, from: nat, channel: seq<Hit>, i: nat, k: nat, before: map<string, real>,
                    candidates: map<string, Hit>, scores: map<string, real>)
    requires ReadTo(all, from, channel, i, k, before, candidates, scores)
    ensures Collected(all, from + i, candidates) && scores.Keys == candidates.Keys
    ensures Summed(before, channel, i, k, scores)
  {
    assert TableOk(CandidatesTable, all, from, channel, i, k, before, candidates, scores);
    assert TableOk(ScoresTable, all, from, channel, i, k, before, candidates, scores);
  }

  /** Nothing is read yet. */
  lemma ReadNone(all: seq<Hit>, from: nat, channel: seq<Hit>, k: nat, candidates: map<string, Hit>,
                 scores: map<string, real>)
    requires from + |channel| <= |all| && Collected(all, from, candidates) && scores.Keys == candidates.Keys
    ensures ReadTo(all, from, channel, 0, k, scores, candidates, scores)
  {
  }

  lemma ReadOne(all: seq<Hit>, from: nat, channel: seq<Hit>, i: nat, k: nat, before: map<string, real>,
                candidates: map<string, Hit>, scores: map<string, real>)
    requires ReadTo(all, from, channel, i, k, before, candidates, scores)
    requires i < |channel| && channel[i] == all[from + i]
    ensures ReadTo(all, from, channel, i + 1, k, before, SetDefault(candidates, channel[i]),
                   scores[channel[i].chunk := Get(scores, channel[i].chunk) + Share(k, i + 1)])
  {
    ReadToMeans(all, from, channel, i, k, before, candidates, scores);
    CollectOne(all, from + i, candidates);
    SumOne(before, channel, i, k, scores);
  }

  /** One channel, read in the order of its ranks. */
  method AddChannel(channel: seq<Hit>, k: nat, candidates: map<string, Hit>, scores: map<string, real>,
                    ghost all: seq<Hit>, ghost from: nat)
    returns (candidates': map<string, Hit>, scores': map<string, real>)
    requires ReadTo(all, from, channel, 0, k, scores, candidates, scores)
    requires forall i :: 0 <= i < |channel| ==> channel[i] == all[from + i]
    ensures ReadTo(all, from, channel, |channel|, k, scores, candidates', scores')
  {
    candidates', scores' := candidates, scores;
    for i := 0 to |channel|
      invariant ReadTo(all, from, channel, i, k, scores, candidates', scores')
    {
      ReadOne(all, from, channel, i, k, scores, candidates', scores');
      var c := channel[i];
      candidates' := SetDefault(candidates', c);
      scores' := scores'[c.chunk := Get(scores', c.chunk) + Share(k, i + 1)];
    }
  }

  ghost predicate IsFused(keyword: seq<Hit>, vector: seq<Hit>, limit: nat, scores: map<string, real>,
                          r: seq<Hit>)
  {
    && |r| == (if limit < |scores| then limit else |scores|)
    && (forall i :: 0 <= i < |r| ==> r[i].chunk in scores && IsFirst(keyword + vector, r[i]))
    && (forall i, j :: 0 <= i < j < |r| ==> Before(scores, r[i].chunk, r[j].chunk))
    && (forall i, id :: 0 <= i < |r| && id in scores && (forall j :: 0 <= j < |r| ==> r[j].chunk != id) ==>
          Before(scores, r[i].chunk, id))
  }

  /** `scores` has exactly the IDs of the two channels, each with the sum of its shares. */
  ghost predicate AreScores(keyword: seq<Hit>, vector: seq<Hit>, k: nat, scores: map<string, real>) {
    && (forall id :: id in scores <==> Occurs(keyword, |keyword|, id) || Occurs(vector, |vector|, id))
    && (forall id :: id in scores ==>
          scores[id] == Score(keyword, |keyword|, k, id) + Score(vector, |vector|, k, id))
  }

  /** The IDs of the two channels with their scores. */
  ghost function Scores(keyword: seq<Hit>, vector: seq<Hit>, k: nat): (scores: map<string, real>)
    ensures AreScores(keyword, vector, k, scores)
  {
    map id | id in (set i | 0 <= i < |keyword| :: keyword[i].chunk) + (set i | 0 <= i < |vector| :: vector[i].chunk)
           :: Score(keyword, |keyword|, k, id) + Score(vector, |vector|, k, id)
  }

  method Rrf(keyword: seq<Hit>, vector: seq<Hit>, limit: nat, k: nat) returns (r: seq<Hit>)
    ensures IsFused(keyword, vector, limit, Scores(keyword, vector, k), r)
  {
    ghost var all := keyword + vector;
    ReadNone(all, 0, keyword, k, map[], map[]);
    var candidates, sums := AddChannel(keyword, k, map[], map[], all, 0);
    ghost var found, first := candidates, sums;
    ReadNext(keyword, vector, k, candidates, sums);
    candidates, sums := AddChannel(vector, k, candidates, sums, all, |keyword|);
    BothRead(keyword, vector, k, found, first, candidates, sums);
    r := FirstOf(keyword, vector, limit, candidates, sums);
  }

  /** The second channel is read on top of the first. */
  lemma ReadNext(keyword: seq<Hit>, vector: seq<Hit>, k: nat, candidates: map<string, Hit>, scores: map<string, real>)
    requires ReadTo(keyword + vector, 0, keyword, |keyword|, k, map[], candidates, scores)
    ensures ReadTo(keyword + vector, |keyword|, vector, 0, k, scores, candidates, scores)
  {
    ReadToMeans(keyword + vector, 0, keyword, |keyword|, k, map[], candidates, scores);
    ReadNone(keyword + vector, |keyword|, vector, k, candidates, scores);
  }

  lemma BothRead(keyword: seq<Hit>, vector: seq<Hit>, k: nat, found: map<string, Hit>, first: map<string, real>,
                 candidates: map<string, Hit>, scores: map<string, real>)
    requires ReadTo(keyword + vector, 0, keyword, |keyword|, k, map[], found, first)
    requires ReadTo(keyword + vector, |keyword|, vector, |vector|, k, first, candidates, scores)
    ensures Collected(keyword + vector, |keyword| + |vector|, candidates) && scores.Keys == candidates.Keys
    ensures scores == Scores(keyword, vector, k)
  {
    ReadToMeans(keyword + vector, 0, keyword, |keyword|, k, map[], found, first);
    ReadToMeans(keyword + vector, |keyword|, vector, |vector|, k, first, candidates, scores);
    ScoresOfBoth(keyword, vector, k, candidates, first, scores);
  }

  /** `[candidates[item] for item in sorted(scores, ...)[:limit]]` */
  method FirstOf(ghost keyword: seq<Hit>, ghost vector: seq<Hit>, limit: nat,
                 candidates: map<string, Hit>, sums: map<string, real>) returns (r: seq<Hit>)
    requires Collected(keyword + vector, |keyword| + |vector|, candidates) && sums.Keys == candidates.Keys
    ensures IsFused(keyword, vector, limit, sums, r)
  {
    var ids := SortedIds(sums);
    var kept := if limit < |ids| then ids[..limit] else ids;
    r := seq(|kept|, i requires 0 <= i < |kept| && kept[i] in candidates => candidates[kept[i]]);
    Keep(keyword, vector, limit, candidates, sums, ids, r);
  }

  lemma ScoresOfBoth(keyword: seq<Hit>, vector: seq<Hit>, k: nat,
                     candidates: map<string, Hit>, first: map<string, real>, scores: map<string, real>)
    requires Collected(keyword + vector, |keyword| + |vector|, candidates) && scores.Keys == candidates.Keys
    requires Summed(map[], keyword, |keyword|, k, first) && Summed(first, vector, |vector|, k, scores)
    ensures scores == Scores(keyword, vector, k)
  {
    BothAreScores(keyword, vector, k, candidates, first, scores);
    SameScores(keyword, vector, k, scores, Scores(keyword, vector, k));
  }

  lemma SameScores(keyword: seq<Hit>, vector: seq<Hit>, k: nat, a: map<string, real>, b: map<string, real>)
    requires AreScores(keyword, vector, k, a) && AreScores(keyword, vector, k, b)
    ensures a == b
  {
    assert forall id :: id in a <==> id in b;
  }

  lemma BothAreScores(keyword: seq<Hit>, vector: seq<Hit>, k: nat,
                      candidates: map<string, Hit>, first: map<string, real>, scores: map<string, real>)
    requires Collected(keyword + vector, |keyword| + |vector|, candidates) && scores.Keys == candidates.Keys
    requires Summed(map[], keyword, |keyword|, k, first) && Summed(first, vector, |vector|, k, scores)
    ensures AreScores(keyword, vector, k, scores)
  {
    var all := keyword + vector;
    forall id ensures id in scores <==> Occurs(keyword, |keyword|, id) || Occurs(vector, |vector|, id) {
      if i :| 0 <= i < |keyword| && keyword[i].chunk == id { assert all[i].chunk == id; }
      if i :| 0 <= i < |vector| && vector[i].chunk == id { assert all[|keyword| + i].chunk == id; }
    }
    forall id | id in scores ensures scores[id] == Score(keyword, |keyword|, k, id) + Score(vector, |vector|, k, id) {
      assert Get(scores, id) == Get(first, id) + Score(vector, |vector|, k, id);
      assert Get(first, id) == Get(map[], id) + Score(keyword, |keyword|, k, id);
    }
  }

  lemma Keep(keyword: seq<Hit>, vector: seq<Hit>, limit: nat, candidates: map<string, Hit>,
             scores: map<string, real>, ids: seq<string>, r: seq<Hit>)
    requires Collected(keyword + vector, |keyword| + |vector|, candidates) && scores.Keys == candidates.Keys
    requires Sorted(scores, ids) && |ids| == |scores| && forall id :: id in ids <==> id in scores
    requires |r| == if limit < |ids| then limit else |ids|
    requires forall i :: 0 <= i < |r| ==> r[i] == candidates[ids[i]]
    ensures IsFused(keyword, vector, limit, scores, r)
  {
    assert forall m :: 0 <= m < |r| ==> r[m].chunk == ids[m];
    forall i, id | 0 <= i < |r| && id in scores && (forall j :: 0 <= j < |r| ==> r[j].chunk != id)
      ensures Before(scores, r[i].chunk, id)
    {
      var j :| 0 <= j < |ids| && ids[j] == id;
    }
  }

  // ---------------------------------------------------------------------------
  // Found by both channels
  // ---------------------------------------------------------------------------

  ghost predicate DistinctIds(channel: seq<Hit>) {
    forall i, j :: 0 <= i < j < |channel| ==> channel[i].chunk != channel[j].chunk
  }

  lemma {:induction false} NoShare(channel: seq<Hit>, n: nat, k: nat, id: string)
    requires n <= |channel| && !Occurs(channel, n, id)
    ensures Score(channel, n, k, id) == 0.0
  {
    if n > 0 {
      assert channel[n - 1].chunk != id;
      assert !Occurs(channel, n - 1, id);
      NoShare(channel, n - 1, k, id);
    }
  }

  /** A channel that lists an ID once gives it one share: that of its rank. */
  lemma {:induction false} ScoreIsShare(channel: seq<Hit>, n: nat, k: nat, i: nat)
    requires DistinctIds(channel) && i < n <= |channel|
    ensures Score(channel, n, k, channel[i].chunk) == Share(k, i + 1)
  {
    if i == n - 1 {
      assert !Occurs(channel, n - 1, channel[i].chunk);
      NoShare(channel, n - 1, k, channel[i].chunk);
    } else {
      ScoreIsShare(channel, n - 1, k, i);
    }
  }

  lemma SharesFall(k: nat, i: nat, j: nat)
    requires 0 < i <= j
    ensures Share(k, j) <= Share(k, i)
  {
    var x, y := (k + i) as real, (k + j) as real;
    var p, q := 1.0 / x, 1.0 / y;
    assert p * x == 1.0 && q * y == 1.0;
    assert p * (y - x) >= 0.0;
    assert (p - q) * y >= 0.0;
  }

  /** An ID that a channel of `n` lists has at least the last share of it, and none more than the first. */
  lemma ShareBounds(channel: seq<Hit>, k: nat, id: string)
    requires DistinctIds(channel)
    ensures Score(channel, |channel|, k, id) <= Share(k, 1)
    ensures Occurs(channel, |channel|, id) ==> Score(channel, |channel|, k, id) >= Share(k, |channel|)
  {
    if i :| 0 <= i < |channel| && channel[i].chunk == id {
      ScoreIsShare(channel, |channel|, k, i);
      SharesFall(k, 1, i + 1);
      SharesFall(k, i + 1, |channel|);
    } else {
      NoShare(channel, |channel|, k, id);
    }
  }

  /** Two last ranks, of channels of `m` and `n`, together outweigh a first one. */
  predicate Outweighs(m: nat, n: nat, k: nat) {
    (k + 1) * (2 * k + m + n) > (k + m) * (k + n)
  }

  lemma ReciprocalSum(a: real, b: real, c: real)
    requires a > 0.0 && b > 0.0 && c > 0.0
    ensures 1.0 / a + 1.0 / b > 1.0 / c <==> c * (a + b) > a * b
  {
    var p, q, r := 1.0 / a, 1.0 / b, 1.0 / c;
    assert p * a == 1.0 && q * b == 1.0 && r * c == 1.0;
    var d := p + q - r;
    SumTimesProduct(a, b, c, p, q, r);
    PositiveFactor(d, a * b * c);
  }

  lemma SumTimesProduct(a: real, b: real, c: real, p: real, q: real, r: real)
    requires p * a == 1.0 && q * b == 1.0 && r * c == 1.0
    ensures (p + q - r) * (a * b * c) == c * (a + b) - a * b
  {
    assert p * (a * b * c) == (p * a) * (b * c);
    assert q * (a * b * c) == (q * b) * (a * c);
    assert r * (a * b * c) == (r * c) * (a * b);
  }

  lemma PositiveFactor(d: real, e: real)
    requires e > 0.0
    ensures d > 0.0 <==> d * e > 0.0
  {
  }

  lemma OutweighsInShares(m: nat, n: nat, k: nat)
    requires m > 0 && n > 0
    ensures Outweighs(m, n, k) <==> Share(k, m) + Share(k, n) > Share(k, 1)
  {
    var a, b, c := k + m, k + n, k + 1;
    ReciprocalSum(a as real, b as real, c as real);
    assert (a * b) as real == a as real * b as real;
    assert (c * (a + b)) as real == c as real * (a as real + b as real);
    assert a + b == 2 * k + m + n;
  }

  /**
   If two last ranks together outweigh a first one, a chunk that both channels found precedes every chunk
   that only one of them found.
   */
  lemma BothBeatsOne(keyword: seq<Hit>, vector: seq<Hit>, k: nat, scores: map<string, real>, both: string, one: string)
    requires DistinctIds(keyword) && DistinctIds(vector) && Outweighs(|keyword|, |vector|, k)
    requires AreScores(keyword, vector, k, scores)
    requires Occurs(keyword, |keyword|, both) && Occurs(vector, |vector|, both)
    requires Occurs(keyword, |keyword|, one) != Occurs(vector, |vector|, one)
    ensures Before(scores, both, one)
  {
    OutweighsInShares(|keyword|, |vector|, k);
    ShareBounds(keyword, k, both);
    ShareBounds(vector, k, both);
    ShareBounds(keyword, k, one);
    ShareBounds(vector, k, one);
    if Occurs(keyword, |keyword|, one) {
      NoShare(vector, |vector|, k, one);
    } else {
      NoShare(keyword, |keyword|, k, one);
    }
  }

  /** So in the fused list no chunk of one channel stands before a chunk of both. */
  lemma BothComeFirst(keyword: seq<Hit>, vector: seq<Hit>, k: nat, limit: nat, scores: map<string, real>,
                      r: seq<Hit>, i: nat, j: nat)
    requires DistinctIds(keyword) && DistinctIds(vector) && Outweighs(|keyword|, |vector|, k)
    requires AreScores(keyword, vector, k, scores) && IsFused(keyword, vector, limit, scores, r)
    requires i < |r| && j < |r|
    requires Occurs(keyword, |keyword|, r[i].chunk) && Occurs(vector, |vector|, r[i].chunk)
    requires !(Occurs(keyword, |keyword|, r[j].chunk) && Occurs(vector, |vector|, r[j].chunk))
    ensures i < j
  {
    var both, one := r[i].chunk, r[j].chunk;
    BothBeatsOne(keyword, vector, k, scores, both, one);
    BeforeIsAnOrder(scores, both, one, both);
  }

  // ---------------------------------------------------------------------------
  // ... and the lengths for which it is so
  // ---------------------------------------------------------------------------

  /** Channels of these lengths, without repetitions, and two IDs: one that both have and one that only one has. */
  ghost predicate IsContest(keyword: seq<Hit>, vector: seq<Hit>, m: nat, n: nat, both: string, one: string) {
    && |keyword| == m && |vector| == n && DistinctIds(keyword) && DistinctIds(vector)
    && Occurs(keyword, m, both) && Occurs(vector, n, both)
    && Occurs(keyword, m, one) != Occurs(vector, n, one)
  }

  /** Whatever the channels of these lengths hold, what both found precedes what only one found. */
  ghost predicate BothAlwaysWins(m: nat, n: nat, k: nat) {
    forall keyword, vector, both, one :: IsContest(keyword, vector, m, n, both, one) ==>
      && both in Scores(keyword, vector, k) && one in Scores(keyword, vector, k)
      && Before(Scores(keyword, vector, k), both, one)
  }

  /** `n` candidates whose IDs are `c`, `cc`, `ccc`, ... */
  function Row(c: char, n: nat): seq<Hit> {
    seq(n, i requires 0 <= i < n => Hit(seq(i + 1, _ => c), ""))
  }

  /** Channels of `n + 1` entries that both list `z` last and have nothing else in common. */
  function Tail(c: char, n: nat): seq<Hit> {
    Row(c, n) + [Hit("z", "")]
  }

  /** What the first of the two channels alone lists first beats what both list last, unless the lengths outweigh it. */
  lemma FirstBeatsLast(m: nat, n: nat, k: nat)
    requires m >= 2 && n >= 2 && !Outweighs(m, n, k)
    ensures !BothAlwaysWins(m, n, k)
  {
    var keyword, vector := Tail('x', m - 1), Tail('y', n - 1);
    TailsShareOne('x', 'y', m - 1, n - 1);
    assert keyword[0].chunk == "x" && keyword[m - 1].chunk == "z" && vector[n - 1].chunk == "z";
    assert IsContest(keyword, vector, m, n, "z", "x");
    TailScores(keyword, vector, k, Scores(keyword, vector, k));
    BeforeIsAnOrder(Scores(keyword, vector, k), "z", "x", "z");
  }

  /** Short channels always outweigh. */
  lemma ShortOutweighs(m: nat, n: nat, k: nat)
    requires k > 0 && (m < 2 || n < 2)
    ensures Outweighs(m, n, k)
  {
    var a, b := k + m, k + n;
    if m < 2 {
      assert a * b <= (k + 1) * b && (k + 1) * a > 0;
    } else {
      assert a * b <= a * (k + 1) && (k + 1) * b > 0;
    }
    assert (k + 1) * (a + b) == (k + 1) * a + (k + 1) * b && 2 * k + m + n == a + b;
  }

  /**
   Found by both precedes found by one, for all contents of channels of `m` and `n` entries, exactly if
   the two last ranks together outweigh the first one: (k + 1) (2k + m + n) > (k + m) (k + n).
   */
  lemma BothWinsExactly(m: nat, n: nat, k: nat)
    requires k > 0
    ensures BothAlwaysWins(m, n, k) <==> Outweighs(m, n, k)
  {
    if Outweighs(m, n, k) {
      forall keyword, vector, both, one | IsContest(keyword, vector, m, n, both, one)
        ensures both in Scores(keyword, vector, k) && one in Scores(keyword, vector, k)
        ensures Before(Scores(keyword, vector, k), both, one)
      {
        BothBeatsOne(keyword, vector, k, Scores(keyword, vector, k), both, one);
      }
    } else {
      if m < 2 || n < 2 { ShortOutweighs(m, n, k); }
      FirstBeatsLast(m, n, k);
    }
  }

  lemma SixtyOneOutweighs(m: nat, n: nat)
    requires m <= 61 && n <= 61
    ensures Outweighs(m, n, 60)
  {
    var u, v := 61 - m, 61 - n;
    TimesAtMost(u, 61, v);
    assert (60 + m) * (60 + n) == 14641 - 121 * u - 121 * v + u * v by {
      assert (121 - u) * (121 - v) == 14641 - 121 * u - 121 * v + u * v;
    }
  }

  lemma TimesAtMost(u: nat, w: nat, v: nat)
    requires u <= w
    ensures u * v <= w * v
  {
  }

  /** With the constant of the program, 61 entries in each channel are the most. */
  lemma SixtyOneIsTheMost(m: nat, n: nat)
    ensures m <= 61 && n <= 61 ==> BothAlwaysWins(m, n, 60)
    ensures !BothAlwaysWins(62, 62, 60)
  {
    BothWinsExactly(62, 62, 60);
    if m <= 61 && n <= 61 {
      SixtyOneOutweighs(m, n);
      BothWinsExactly(m, n, 60);
    }
  }

  /** Such channels over different letters are distinct in themselves and have only their last entry in common. */
  lemma TailsShareOne(c: char, d: char, m: nat, n: nat)
    requires c != 'z' && d != 'z' && c != d && m > 0
    ensures DistinctIds(Tail(c, m)) && |Tail(c, m)| == m + 1 && Tail(c, m)[0].chunk == [c] && Tail(c, m)[m].chunk == "z"
    ensures DistinctIds(Tail(d, n)) && |Tail(d, n)| == n + 1 && Tail(d, n)[n].chunk == "z"
    ensures !Occurs(Tail(d, n), n + 1, [c])
  {
    TailIsDistinct(c, m);
    TailIsDistinct(d, n);
    var row := Tail(d, n);
    assert forall i :: 0 <= i < |row| ==> row[i].chunk[0] != c;
  }

  lemma TailScores(keyword: seq<Hit>, vector: seq<Hit>, k: nat, scores: map<string, real>)
    requires AreScores(keyword, vector, k, scores) && |keyword| > 0 && |vector| > 0
    requires !Outweighs(|keyword|, |vector|, k)
    requires DistinctIds(keyword) && DistinctIds(vector)
    requires keyword[0].chunk == "x" && !Occurs(vector, |vector|, "x")
    requires keyword[|keyword| - 1].chunk == "z" && vector[|vector| - 1].chunk == "z"
    ensures "x" in scores && "z" in scores && Before(scores, "x", "z")
  {
    var m, n := |keyword|, |vector|;
    ScoreIsShare(keyword, m, k, 0);
    ScoreIsShare(keyword, m, k, m - 1);
    ScoreIsShare(vector, n, k, n - 1);
    NoShare(vector, n, k, "x");
    OutweighsInShares(m, n, k);
    assert Occurs(keyword, m, "x") && Occurs(keyword, m, "z");
    assert Less("x", "z");
  }

  lemma TailIsDistinct(c: char, n: nat)
    requires c != 'z'
    ensures DistinctIds(Tail(c, n))
  {
    var row := Tail(c, n);
    forall i, j | 0 <= i < j < |row| ensures row[i].chunk != row[j].chunk {
      if j < n {
        assert |row[i].chunk| == i + 1 && |row[j].chunk| == j + 1;
      } else {
        assert row[i].chunk[0] == c && row[j].chunk[0] == 'z';
      }
    }
  }
}
