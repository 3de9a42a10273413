/** Reciprocal rank fusion and hybrid memory search (application/memories/retrieval.py), with scores as exact reals. */
module RankFusion {

  // A memory id. The order of ids is the order of their canonical strings.
  type Id = nat

  datatype Memory = Memory(id: Id, payload: nat)

  function Gain(k: nat, rank: nat): real
    requires rank > 0
  {
    1.0 / (k + rank) as real
  }

  /** What one ranked list, whose first entry has the given rank, adds to the score of an id. */
  function ListScore(ranked: seq<Id>, rank: nat, k: nat, id: Id): real
    requires rank > 0
  {
    if ranked == [] then 0.0
    else (if ranked[0] == id then Gain(k, rank) else 0.0) + ListScore(ranked[1..], rank + 1, k, id)
  }

  function Score(lists: seq<seq<Id>>, k: nat, id: Id): real {
    if lists == [] then 0.0 else ListScore(lists[0], 1, k, id) + Score(lists[1..], k, id)
  }

  ghost predicate Ranked(lists: seq<seq<Id>>, id: Id) {
    exists n | 0 <= n < |lists| :: id in lists[n]
  }

  ghost predicate NoDuplicates(s: seq<Id>) {
    forall i, j | 0 <= i < j < |s| :: s[i] != s[j]
  }

  /** The sort key (-score, str(id)). */
  predicate Before(a: Id, scoreA: real, b: Id, scoreB: real) {
    scoreA > scoreB || (scoreA == scoreB && a < b)
  }

  ghost predicate Ordered(s: seq<Id>, lists: seq<seq<Id>>, k: nat) {
    forall i, j | 0 <= i < j < |s| :: Before(s[i], Score(lists, k, s[i]), s[j], Score(lists, k, s[j]))
  }

  /** The fusion of the lists: exactly their ids, in the order of the sort key. */
  ghost predicate IsFusion(out: seq<Id>, lists: seq<seq<Id>>, k: nat) {
    && Ordered(out, lists, k)
    && (forall id :: id in out <==> Ranked(lists, id))
  }

  /** An id that a list holds at one place gains 1 / (k + rank) from it, where the first entry has rank 1; other lists give it nothing. */
  lemma {:induction false} GainExactly(ranked: seq<Id>, first: nat, k: nat, p: nat)
    requires first > 0 && p < |ranked| && NoDuplicates(ranked)
    ensures ListScore(ranked, first, k, ranked[p]) == 1.0 / (k + first + p) as real
    ensures forall id | id !in ranked :: ListScore(ranked, first, k, id) == 0.0
  {
    var rest := ranked[1..];
    assert forall i | 0 <= i < |rest| :: rest[i] == ranked[i + 1];
    forall id | id !in rest ensures ListScore(rest, first + 1, k, id) == 0.0 {
      NoGain(rest, first + 1, k, id);
    }
    assert forall id | id !in ranked :: id !in rest;
    if p > 0 {
      GainExactly(rest, first + 1, k, p - 1);
      assert rest[p - 1] == ranked[p] != ranked[0];
      assert (first + 1) + (p - 1) == first + p;
    } else {
      assert ranked[0] !in rest;
    }
  }

  lemma {:induction false} NoGain(ranked: seq<Id>, first: nat, k: nat, id: Id)
    requires first > 0 && id !in ranked
    ensures ListScore(ranked, first, k, id) == 0.0
  {
    if ranked != [] {
      assert forall i | 0 <= i < |ranked[1..]| :: ranked[1..][i] == ranked[i + 1];
      NoGain(ranked[1..], first + 1, k, id);
    }
  }

  /** In hybrid search the entry at place p of one list scores 1 / (61 + p) from it, and the gains of both lists add up. */
  lemma HybridScoreExactly(lexical: seq<Id>, vector: seq<Id>, p: nat, q: nat)
    requires NoDuplicates(lexical) && NoDuplicates(vector) && p < |lexical| && q < |vector|
    ensures lexical[p] == vector[q] ==>
              Score([lexical, vector], DEFAULT_RRF_K, lexical[p]) == 1.0 / (61 + p) as real + 1.0 / (61 + q) as real
    ensures lexical[p] !in vector ==> Score([lexical, vector], DEFAULT_RRF_K, lexical[p]) == 1.0 / (61 + p) as real
    ensures vector[q] !in lexical ==> Score([lexical, vector], DEFAULT_RRF_K, vector[q]) == 1.0 / (61 + q) as real
  {
    GainExactly(lexical, 1, DEFAULT_RRF_K, p);
    GainExactly(vector, 1, DEFAULT_RRF_K, q);
    forall id ensures Score([lexical, vector], DEFAULT_RRF_K, id) == ListScore(lexical, 1, DEFAULT_RRF_K, id) + ListScore(vector, 1, DEFAULT_RRF_K, id) {
      assert [lexical, vector][1..] == [vector] && [vector][1..] == [];
      assert Score([vector], DEFAULT_RRF_K, id) == ListScore(vector, 1, DEFAULT_RRF_K, id) + Score([], DEFAULT_RRF_K, id);
    }
  }

  // ----- accumulating the scores

  ghost predicate Scored(scores: map<Id, real>, lists: seq<seq<Id>>, k: nat) {
    && (forall id :: id in scores <==> Ranked(lists, id))
    && (forall id | id in scores :: scores[id] == Score(lists, k, id))
  }

  lemma {:induction false} ListScoreSnoc(ranked: seq<Id>, last: Id, rank: nat, k: nat, id: Id)
    requires rank > 0
    ensures ListScore(ranked + [last], rank, k, id)
         == ListScore(ranked, rank, k, id) + if last == id then Gain(k, rank + |ranked|) else 0.0
  {
    var all := ranked + [last];
    if ranked == [] {
      assert all[1..] == [];
    } else {
      assert all[1..] == ranked[1..] + [last];
      ListScoreSnoc(ranked[1..], last, rank + 1, k, id);
    }
  }

  lemma {:induction false} ScoreSnoc(lists: seq<seq<Id>>, last: seq<Id>, k: nat, id: Id)
    ensures Score(lists + [last], k, id) == Score(lists, k, id) + ListScore(last, 1, k, id)
  {
    var all := lists + [last];
    if lists == [] {
      assert all[1..] == [];
    } else {
      assert all[1..] == lists[1..] + [last];
      ScoreSnoc(lists[1..], last, k, id);
    }
  }

  lemma {:induction false} UnrankedScore(lists: seq<seq<Id>>, k: nat, id: Id)
    requires !Ranked(lists, id)
    ensures Score(lists, k, id) == 0.0
  {
    if lists != [] {
      AbsentScore(lists[0], 1, k, id);
      forall n | 0 <= n < |lists[1..]| ensures id !in lists[1..][n] {
        assert lists[1..][n] == lists[n + 1];
      }
      UnrankedScore(lists[1..], k, id);
    }
  }

  lemma {:induction false} AbsentScore(ranked: seq<Id>, rank: nat, k: nat, id: Id)
    requires rank > 0 && id !in ranked
    ensures ListScore(ranked, rank, k, id) == 0.0
  {
    if ranked != [] {
      AbsentScore(ranked[1..], rank + 1, k, id);
    }
  }

  /** Adding one entry of a list to the scores is adding that entry to the lists. */
  lemma ScoredEntry(scores: map<Id, real>, done: seq<seq<Id>>, part: seq<Id>, item: Id, k: nat)
    requires Scored(scores, done + [part], k)
    ensures var rank := |part| + 1;
            Scored(scores[item := (if item in scores then scores[item] else 0.0) + Gain(k, rank)], done + [part + [item]], k)
  {
    var before, after := done + [part], done + [part + [item]];
    if item !in scores {
      UnrankedScore(before, k, item);
    }
    forall id ensures Score(after, k, id) == Score(before, k, id) + if id == item then Gain(k, |part| + 1) else 0.0 {
      ScoreSnoc(done, part, k, id);
      ScoreSnoc(done, part + [item], k, id);
      ListScoreSnoc(part, item, 1, k, id);
    }
    forall id ensures Ranked(after, id) <==> Ranked(before, id) || id == item {
      RankedSnoc(done, part, id);
      RankedSnoc(done, part + [item], id);
    }
  }

  lemma RankedSnoc(lists: seq<seq<Id>>, last: seq<Id>, id: Id)
    ensures Ranked(lists + [last], id) <==> Ranked(lists, id) || id in last
  {
    var all := lists + [last];
    if Ranked(lists, id) {
      var n :| 0 <= n < |lists| && id in lists[n];
      assert id in all[n];
    }
    if id in last {
      assert id in all[|lists|];
    }
  }

  /** An empty list changes nothing. */
  lemma ScoredEmpty(scores: map<Id, real>, lists: seq<seq<Id>>, k: nat)
    requires Scored(scores, lists, k)
    ensures Scored(scores, lists + [[]], k)
  {
    forall id ensures Score(lists + [[]], k, id) == Score(lists, k, id) && (Ranked(lists + [[]], id) <==> Ranked(lists, id)) {
      ScoreSnoc(lists, [], k, id);
      RankedSnoc(lists, [], id);
    }
  }

  method ReciprocalRankFusion(lists: seq<seq<Id>>, k: nat) returns (out: seq<Id>)
    ensures IsFusion(out, lists, k)
  {
    var scores: map<Id, real> := map[];
    for n := 0 to |lists|
      invariant Scored(scores, lists[..n], k)
    {
      var ranked := lists[n];
      ScoredEmpty(scores, lists[..n], k);
      for i := 0 to |ranked|
        invariant Scored(scores, lists[..n] + [ranked[..i]], k)
      {
        var item, rank := ranked[i], i + 1;
        ScoredEntry(scores, lists[..n], ranked[..i], item, k);
        assert ranked[..i + 1] == ranked[..i] + [item];
        scores := scores[item := (if item in scores then scores[item] else 0.0) + Gain(k, rank)];
      }
      assert ranked[..|ranked|] == ranked;
      assert lists[..n + 1] == lists[..n] + [ranked];
    }
    assert lists[..|lists|] == lists;
    out := SortByKey(scores);
  }

  ghost predicate SortedKeys(s: seq<Id>, scores: map<Id, real>) {
    && (forall i | 0 <= i < |s| :: s[i] in scores)
    && (forall i, j | 0 <= i < j < |s| :: Before(s[i], scores[s[i]], s[j], scores[s[j]]))
  }

  /** sorted(scores, key=...): the keys of the dictionary, each once, in the order of the sort key. */
  method SortByKey(scores: map<Id, real>) returns (out: seq<Id>)
    ensures SortedKeys(out, scores)
    ensures forall id :: id in out <==> id in scores
  {
    out := [];
    var todo := scores.Keys;
    while todo != {}
      invariant SortedKeys(out, scores)
      invariant forall id :: id in out <==> id in scores && id !in todo
      decreases todo
    {
      var id :| id in todo;
      out := InsertByKey(out, id, scores);
      todo := todo - {id};
    }
  }

  method InsertByKey(s: seq<Id>, id: Id, scores: map<Id, real>) returns (r: seq<Id>)
    requires id in scores && id !in s && SortedKeys(s, scores)
    ensures SortedKeys(r, scores)
    ensures forall x :: x in r <==> x in s || x == id
  {
    var p := 0;
    while p < |s| && Before(s[p], scores[s[p]], id, scores[id])
      invariant 0 <= p <= |s|
      invariant forall i | 0 <= i < p :: Before(s[i], scores[s[i]], id, scores[id])
    {
      p := p + 1;
    }
    r := s[..p] + [id] + s[p..];
    InsertedKeepsOrder(s, p, id, scores);
    InsertedMembers(s, p, id);
  }

  lemma InsertedMembers(s: seq<Id>, p: nat, id: Id)
    requires p <= |s|
    ensures forall x :: x in s[..p] + [id] + s[p..] <==> x in s || x == id
  {
    var r := s[..p] + [id] + s[p..];
    forall x ensures x in r <==> x in s || x == id {
      if x in s {
        var i :| 0 <= i < |s| && s[i] == x;
        assert r[if i < p then i else i + 1] == x;
      }
      if x in r {
        var i :| 0 <= i < |r| && r[i] == x;
        assert i < p ==> s[i] == x;
        assert i > p ==> s[i - 1] == x;
      }
      assert r[p] == id;
    }
  }

  lemma InsertedKeepsOrder(s: seq<Id>, p: nat, id: Id, scores: map<Id, real>)
    requires id in scores && id !in s && SortedKeys(s, scores) && p <= |s|
    requires forall i | 0 <= i < p :: Before(s[i], scores[s[i]], id, scores[id])
    requires p < |s| ==> !Before(s[p], scores[s[p]], id, scores[id])
    ensures SortedKeys(s[..p] + [id] + s[p..], scores)
  {
    var r := s[..p] + [id] + s[p..];
    assert |r| == |s| + 1 && r[p] == id;
    assert forall i | 0 <= i < p :: r[i] == s[i];
    assert forall i | p < i < |r| :: r[i] == s[i - 1];
    forall i | 0 <= i < |r| ensures r[i] in scores {
    }
    forall i, j | 0 <= i < j < |r| ensures Before(r[i], scores[r[i]], r[j], scores[r[j]]) {
      if i == p {
        assert Before(id, scores[id], s[p], scores[s[p]]);
        assert p < j - 1 ==> Before(s[p], scores[s[p]], s[j - 1], scores[s[j - 1]]);
      } else if j != p {
        assert Before(s[if i < p then i else i - 1], scores[r[i]], s[if j < p then j else j - 1], scores[r[j]]);
      }
    }
  }

  // ----- what fusion means

  lemma FusionHasNoDuplicates(out: seq<Id>, lists: seq<seq<Id>>, k: nat)
    requires IsFusion(out, lists, k)
    ensures NoDuplicates(out)
  {
    forall i, j | 0 <= i < j < |out| ensures out[i] != out[j] {
      assert Before(out[i], Score(lists, k, out[i]), out[j], Score(lists, k, out[j]));
    }
  }

  /** The sort key leaves no choice: two fusions whose lists give the same ids the same scores are equal. */
  lemma {:induction false} FusionIsUnique(a: seq<Id>, b: seq<Id>, la: seq<seq<Id>>, lb: seq<seq<Id>>, k: nat)
    requires Ordered(a, la, k) && Ordered(b, lb, k)
    requires forall id :: id in a <==> id in b
    requires forall id | id in a :: Score(la, k, id) == Score(lb, k, id)
    ensures a == b
    decreases |a|
  {
    assert b == [] <==> forall id :: id !in b by { SomeMember(b); }
    assert a == [] <==> forall id :: id !in a by { SomeMember(a); }
    if a != [] {
      assert a[0] in a;
      assert b[0] in b;
      assert a[0] in b && b[0] in a;
      var i :| 0 <= i < |b| && b[i] == a[0];
      var j :| 0 <= j < |a| && a[j] == b[0];
      assert a[0] == b[0];
      forall id ensures id in a[1..] <==> id in b[1..] {
        InTail(a, la, k, id);
        InTail(b, lb, k, id);
      }
      FusionIsUnique(a[1..], b[1..], la, lb, k);
      assert a == [a[0]] + a[1..] && b == [b[0]] + b[1..];
    }
  }

  lemma SomeMember(s: seq<Id>)
    ensures s != [] ==> s[0] in s
  {
  }

  lemma InTail(s: seq<Id>, lists: seq<seq<Id>>, k: nat, id: Id)
    requires s != [] && Ordered(s, lists, k)
    ensures id in s[1..] <==> id in s && id != s[0]
  {
    if id in s[1..] {
      var j :| 1 <= j < |s| && s[j] == id;
      assert Before(s[0], Score(lists, k, s[0]), s[j], Score(lists, k, s[j]));
    }
    assert s == [s[0]] + s[1..];
  }

  function RemoveAt(lists: seq<seq<Id>>, n: nat): seq<seq<Id>>
    requires n < |lists|
  {
    lists[..n] + lists[n + 1..]
  }

  lemma {:induction false} ScoreWithout(lists: seq<seq<Id>>, n: nat, k: nat, id: Id)
    requires n < |lists|
    ensures Score(lists, k, id) == ListScore(lists[n], 1, k, id) + Score(RemoveAt(lists, n), k, id)
  {
    var rest := RemoveAt(lists, n);
    if n == 0 {
      assert rest == lists[1..];
    } else {
      assert rest[0] == lists[0] && rest[1..] == RemoveAt(lists[1..], n - 1);
      ScoreWithout(lists[1..], n - 1, k, id);
    }
  }

  lemma RemovedMultiset(lists: seq<seq<Id>>, n: nat)
    requires n < |lists|
    ensures multiset(RemoveAt(lists, n)) == multiset(lists) - multiset{lists[n]}
  {
    assert lists == lists[..n] + [lists[n]] + lists[n + 1..];
  }

  lemma {:induction false} ScoreOfPermutation(la: seq<seq<Id>>, lb: seq<seq<Id>>, k: nat, id: Id)
    requires multiset(la) == multiset(lb)
    ensures Score(la, k, id) == Score(lb, k, id)
    decreases |la|
  {
    if la == [] {
      assert |multiset(lb)| == |lb|;
    } else {
      assert la[0] in multiset(lb);
      var n :| 0 <= n < |lb| && lb[n] == la[0];
      RemovedMultiset(la, 0);
      RemovedMultiset(lb, n);
      assert RemoveAt(la, 0) == la[1..];
      ScoreOfPermutation(la[1..], RemoveAt(lb, n), k, id);
      ScoreWithout(lb, n, k, id);
    }
  }

  /** The result does not depend on the order in which the lists are given. */
  lemma FusionIgnoresListOrder(a: seq<Id>, b: seq<Id>, la: seq<seq<Id>>, lb: seq<seq<Id>>, k: nat)
    requires multiset(la) == multiset(lb) && IsFusion(a, la, k) && IsFusion(b, lb, k)
    ensures a == b
  {
    forall id ensures Score(la, k, id) == Score(lb, k, id) && (Ranked(la, id) ==> Ranked(lb, id)) && (Ranked(lb, id) ==> Ranked(la, id)) {
      ScoreOfPermutation(la, lb, k, id);
      RankedInPermutation(la, lb, id);
      RankedInPermutation(lb, la, id);
    }
    FusionIsUnique(a, b, la, lb, k);
  }

  lemma RankedInPermutation(la: seq<seq<Id>>, lb: seq<seq<Id>>, id: Id)
    requires multiset(la) == multiset(lb)
    ensures Ranked(la, id) ==> Ranked(lb, id)
  {
    if Ranked(la, id) {
      var n :| 0 <= n < |la| && id in la[n];
      assert la[n] in multiset(lb);
      var m :| 0 <= m < |lb| && lb[m] == la[n];
    }
  }

  /** In every list that ranks b, a is ranked above b. */
  ghost predicate AboveIn(ranked: seq<Id>, a: Id, b: Id) {
    b in ranked ==> exists i, j :: 0 <= i < j < |ranked| && ranked[i] == a && ranked[j] == b
  }

  lemma {:induction false} ListScoreAt(ranked: seq<Id>, rank: nat, k: nat, i: nat)
    requires rank > 0 && i < |ranked| && NoDuplicates(ranked)
    ensures ListScore(ranked, rank, k, ranked[i]) == Gain(k, rank + i)
  {
    if i == 0 {
      forall j | 0 <= j < |ranked[1..]| ensures ranked[1..][j] != ranked[0] {
        assert ranked[j + 1] != ranked[0];
      }
      AbsentScore(ranked[1..], rank + 1, k, ranked[0]);
    } else {
      assert ranked[0] != ranked[i];
      ListScoreAt(ranked[1..], rank + 1, k, i - 1);
    }
  }

  lemma GainFalls(k: nat, i: nat, j: nat)
    requires 0 < i < j
    ensures 0.0 < Gain(k, j) < Gain(k, i)
  {
    var x, y := (k + i) as real, (k + j) as real;
    assert 0.0 < x < y;
    assert 1.0 / x - 1.0 / y == (y - x) / (x * y);
  }

  lemma {:induction false} ListScoreNonNegative(ranked: seq<Id>, rank: nat, k: nat, id: Id)
    requires rank > 0
    ensures ListScore(ranked, rank, k, id) >= 0.0
  {
    if ranked != [] {
      ListScoreNonNegative(ranked[1..], rank + 1, k, id);
    }
  }

  lemma ConsensusInList(ranked: seq<Id>, k: nat, a: Id, b: Id)
    requires NoDuplicates(ranked) && AboveIn(ranked, a, b)
    ensures ListScore(ranked, 1, k, a) >= ListScore(ranked, 1, k, b)
    ensures b in ranked ==> ListScore(ranked, 1, k, a) > ListScore(ranked, 1, k, b)
  {
    if b in ranked {
      var i, j :| 0 <= i < j < |ranked| && ranked[i] == a && ranked[j] == b;
      ListScoreAt(ranked, 1, k, i);
      ListScoreAt(ranked, 1, k, j);
      GainFalls(k, 1 + i, 1 + j);
    } else {
      AbsentScore(ranked, 1, k, b);
      ListScoreNonNegative(ranked, 1, k, a);
    }
  }

  lemma {:induction false} ConsensusScore(lists: seq<seq<Id>>, k: nat, a: Id, b: Id)
    requires forall n | 0 <= n < |lists| :: NoDuplicates(lists[n]) && AboveIn(lists[n], a, b)
    ensures Score(lists, k, a) >= Score(lists, k, b)
    ensures Ranked(lists, b) ==> Score(lists, k, a) > Score(lists, k, b)
  {
    if lists != [] {
      ConsensusInList(lists[0], k, a, b);
      forall n | 0 <= n < |lists[1..]| ensures NoDuplicates(lists[1..][n]) && AboveIn(lists[1..][n], a, b) {
        assert lists[1..][n] == lists[n + 1];
      }
      ConsensusScore(lists[1..], k, a, b);
      if Ranked(lists, b) && b !in lists[0] {
        var n :| 0 <= n < |lists| && b in lists[n];
        assert b in lists[1..][n - 1];
      }
    }
  }

  /** Consensus: if a is above b in every list that ranks b, the fusion has a above b. */
  lemma FusionRespectsConsensus(out: seq<Id>, lists: seq<seq<Id>>, k: nat, a: Id, b: Id)
    requires IsFusion(out, lists, k) && Ranked(lists, b)
    requires forall n | 0 <= n < |lists| :: NoDuplicates(lists[n]) && AboveIn(lists[n], a, b)
    ensures exists i, j :: 0 <= i < j < |out| && out[i] == a && out[j] == b
  {
    ConsensusScore(lists, k, a, b);
    var n :| 0 <= n < |lists| && b in lists[n];
    assert AboveIn(lists[n], a, b);
    assert a in lists[n];
    assert Ranked(lists, a);
    assert a in out && b in out;
    var i :| 0 <= i < |out| && out[i] == a;
    var j :| 0 <= j < |out| && out[j] == b;
    assert i != j;
    assert i < j;
  }

  // ----- hybrid search

  const DEFAULT_RRF_K: nat := 60

  function Ids(memories: seq<Memory>): (ids: seq<Id>)
    ensures |ids| == |memories|
    ensures forall i | 0 <= i < |ids| :: ids[i] == memories[i].id
  {
    seq(|memories|, i requires 0 <= i < |memories| => memories[i].id)
  }

  function Limited<T>(s: seq<T>, limit: nat): seq<T> {
    if limit < |s| then s[..limit] else s
  }

  /** The memories that a search with both kinds of candidates may return: the best fused ids, taken from the vector list first. */
  ghost predicate IsHybrid(out: seq<Memory>, fused: seq<Id>, lexical: seq<Memory>, vector: seq<Memory>, limit: nat) {
    && IsFusion(fused, [Ids(lexical), Ids(vector)], DEFAULT_RRF_K)
    && Ids(out) == Limited(fused, limit)
    && (forall m | m in out :: if m.id in Ids(vector) then m in vector else m in lexical)
  }

  /** The dictionary of the memories by id; a later memory replaces an earlier one. */
  method ById(memories: seq<Memory>) returns (byId: map<Id, Memory>)
    ensures forall id :: id in byId <==> id in Ids(memories)
    ensures forall id | id in byId :: exists i | 0 <= i < |memories| ::
              byId[id] == memories[i] && memories[i].id == id && id !in Ids(memories[i + 1..])
  {
    byId := map[];
    for n := 0 to |memories|
      invariant forall id :: id in byId <==> exists i :: 0 <= i < n && memories[i].id == id
      invariant forall id | id in byId :: exists i | 0 <= i < n ::
                  byId[id] == memories[i] && memories[i].id == id && forall j | i < j < n :: memories[j].id != id
    {
      byId := byId[memories[n].id := memories[n]];
    }
    forall id | id in byId
      ensures exists i | 0 <= i < |memories| :: byId[id] == memories[i] && memories[i].id == id && id !in Ids(memories[i + 1..])
    {
      var i :| 0 <= i < |memories| && byId[id] == memories[i] && memories[i].id == id && forall j | i < j < |memories| :: memories[j].id != id;
      var later := Ids(memories[i + 1..]);
      forall k | 0 <= k < |later| ensures later[k] != id {
        assert later[k] == memories[i + 1 + k].id;
      }
    }
  }

  /** The dictionary of both candidate lists knows every fused id, and takes it from the vector list first. */
  lemma FusedMemory(byId: map<Id, Memory>, fused: seq<Id>, lexical: seq<Memory>, vector: seq<Memory>, id: Id)
    requires IsFusion(fused, [Ids(lexical), Ids(vector)], DEFAULT_RRF_K) && id in fused
    requires id in Ids(lexical + vector) ==> id in byId
    requires id in byId ==> exists i | 0 <= i < |lexical + vector| ::
               byId[id] == (lexical + vector)[i] && (lexical + vector)[i].id == id && id !in Ids((lexical + vector)[i + 1..])
    ensures id in byId && byId[id].id == id
    ensures if id in Ids(vector) then byId[id] in vector else byId[id] in lexical
  {
    FusedIsKnown(fused, lexical, vector, id);
    var i :| 0 <= i < |lexical + vector| && byId[id] == (lexical + vector)[i] && (lexical + vector)[i].id == id
             && id !in Ids((lexical + vector)[i + 1..]);
    LaterWins(lexical, vector, i);
  }

  /** The memories of the ids, as far as the dictionary has them. */
  method Pick(byId: map<Id, Memory>, best: seq<Id>) returns (out: seq<Memory>)
    requires forall id | id in best :: id in byId && byId[id].id == id
    ensures Ids(out) == best
    ensures forall m | m in out :: m.id in best && m == byId[m.id]
  {
    out := [];
    for n := 0 to |best|
      invariant |out| == n && forall i | 0 <= i < n :: out[i] == byId[best[i]]
    {
      assert best[n] in best;
      if best[n] in byId {
        out := out + [byId[best[n]]];
      }
    }
    forall i | 0 <= i < |best| ensures best[i] in best && Ids(out)[i] == best[i] {
    }
  }

  method HybridSearch(lexical: seq<Memory>, vector: seq<Memory>, fallback: seq<Memory>, limit: nat) returns (out: seq<Memory>)
    ensures lexical != [] && vector != [] ==> exists fused :: IsHybrid(out, fused, lexical, vector, limit)
    ensures lexical == [] && vector != [] ==> out == Limited(vector, limit)
    ensures lexical != [] && vector == [] ==> out == Limited(lexical, limit)
    ensures lexical == [] && vector == [] ==> out == fallback
  {
    hide IsFusion, Ids;
    if lexical != [] && vector != [] {
      var byId := ById(lexical + vector);
      var fused := ReciprocalRankFusion([Ids(lexical), Ids(vector)], DEFAULT_RRF_K);
      forall id | id in fused
        ensures id in byId && byId[id].id == id
        ensures if id in Ids(vector) then byId[id] in vector else byId[id] in lexical
      {
        FusedMemory(byId, fused, lexical, vector, id);
      }
      var best := Limited(fused, limit);
      forall id | id in best ensures id in fused {
      }
      out := Pick(byId, best);
      assert IsHybrid(out, fused, lexical, vector, limit);
    } else if vector != [] {
      out := Limited(vector, limit);
    } else if lexical != [] {
      out := Limited(lexical, limit);
    } else {
      out := fallback;
    }
  }

  lemma FusedIsKnown(fused: seq<Id>, lexical: seq<Memory>, vector: seq<Memory>, id: Id)
    requires IsFusion(fused, [Ids(lexical), Ids(vector)], DEFAULT_RRF_K) && id in fused
    ensures id in Ids(lexical + vector)
  {
    var lists, all := [Ids(lexical), Ids(vector)], Ids(lexical + vector);
    assert Ranked(lists, id);
    var n :| 0 <= n < |lists| && id in lists[n];
    var i :| 0 <= i < |lists[n]| && lists[n][i] == id;
    assert all[if n == 0 then i else |lexical| + i] == id;
  }

  lemma LaterWins(lexical: seq<Memory>, vector: seq<Memory>, i: nat)
    requires i < |lexical + vector|
    requires (lexical + vector)[i].id !in Ids((lexical + vector)[i + 1..])
    ensures var m := (lexical + vector)[i]; if m.id in Ids(vector) then m in vector else m in lexical
  {
    var all := lexical + vector;
    forall j | 0 <= j < |vector| ensures i < |lexical| ==> Ids(vector)[j] != all[i].id {
      if i < |lexical| {
        assert Ids(all[i + 1..])[|lexical| + j - i - 1] == Ids(vector)[j];
      }
    }
  }

  /** Hybrid search keeps the consensus of its two candidate lists inside its limit. */
  lemma HybridRespectsConsensus(out: seq<Memory>, fused: seq<Id>, lexical: seq<Memory>, vector: seq<Memory>, limit: nat, a: Id, b: Id)
    requires IsHybrid(out, fused, lexical, vector, limit) && b in Ids(out)
    requires NoDuplicates(Ids(lexical)) && NoDuplicates(Ids(vector))
    requires AboveIn(Ids(lexical), a, b) && AboveIn(Ids(vector), a, b)
    ensures exists i, j :: 0 <= i < j < |out| && out[i].id == a && out[j].id == b
  {
    var lists := [Ids(lexical), Ids(vector)];
    var j :| 0 <= j < |out| && Ids(out)[j] == b;
    assert fused[j] == b;
    assert b in fused;
    FusionRespectsConsensus(fused, lists, DEFAULT_RRF_K, a, b);
    FusionHasNoDuplicates(fused, lists, DEFAULT_RRF_K);
    var p, q :| 0 <= p < q < |fused| && fused[p] == a && fused[q] == b;
    assert q == j;
    assert Ids(out)[p] == a;
  }
}
