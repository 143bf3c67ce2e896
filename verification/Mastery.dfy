/**
  The mastery projection: `apply_evidence` folds one evidence row at a time into abilities,
  schedules and item ratings, and `recompute` rebuilds all of it from the evidence table.

  The Elo expectation and the FSRS step are parameters of the model (`Env`); the projection
  is the one of a single user, as both of the source's paths write it.
*/
module Mastery {
  import opened Base
  import opened Sorting

  datatype Source = SessionGrading | InterviewerObservation | PracticeLog

  datatype Rating = Again | Hard | Good | Easy

  // The scheduler's serialised state, which the projection stores and never looks into.
  datatype Card = Card(token: int)

  // `id` and `ts` order the table; ids are ULIDs, unique and sortable.
  datatype Evidence = Evidence(
    id: nat, ts: int, concept: Id, source: Source, item: Option<Id>, session: Option<Id>,
    score: real, confidence: real)

  datatype Item = Item(primary: Id, prior: real)

  datatype Env = Env(
    expected: (real, real) -> real,
    newCard: int -> Card,
    review: (Card, Rating, int) -> Card,
    stability: Card -> real,
    due: Card -> int,
    items: map<Id, Item>)

  datatype Row = Row(
    ability: real, observations: nat, card: Option<Card>,
    stability: Option<real>, dueAt: Option<int>, lastSeen: Option<int>)

  datatype Projection = Projection(mastery: map<Id, Row>, elo: map<Id, real>)

  const DEFAULT_ABILITY := 1550.0
  const K_MAX := 48.0
  const K_MIN := 10.0
  const K_HALFLIFE := 8.0
  const K_ITEM := 4.0

  // ---------------------------------------------------------------- one evidence row

  function KFactor(observations: nat): real {
    Max(K_MIN, K_MAX / (1.0 + observations as real / K_HALFLIFE))
  }

  function RatingFor(score: real): Rating {
    if score < 0.5 then Again else if score < 0.75 then Hard else if score < 0.95 then Good else Easy
  }

  predicate Before(a: Evidence, b: Evidence) {
    a.ts < b.ts || (a.ts == b.ts && a.id < b.id)
  }

  // The `where` of the first-row query; compared with None, a column is asked to be NULL.
  predicate SameAttempt(r: Evidence, e: Evidence) {
    && r.session == e.session
    && r.item == e.item
    && r.concept == e.concept
    && r.source == SessionGrading
  }

  // The least matching row of the table, whatever order its rows are stored in.
  function FirstOfAttempt(table: seq<Evidence>, e: Evidence): Option<Evidence> {
    if table == [] then None
    else
      var rest := FirstOfAttempt(table[1..], e);
      if SameAttempt(table[0], e) && (rest.None? || !Before(rest.value, table[0])) then Some(table[0]) else rest
  }

  // Whether this row moves its item's rating, asked of the table as it stands.
  predicate MovesItem(env: Env, table: seq<Evidence>, e: Evidence) {
    && e.item.Some? && e.item.value in env.items
    && e.source == SessionGrading
    && e.concept == env.items[e.item.value].primary
    && var first := FirstOfAttempt(table, e);
       first.None? || first.value.id == e.id
  }

  predicate Rated(env: Env, p: Projection) {
    p.elo.Keys == env.items.Keys
  }

  function RowFor(p: Projection, concept: Id): Row {
    if concept in p.mastery then p.mastery[concept]
    else Row(DEFAULT_ABILITY, 0, None, None, None, None)
  }

  // The item's rating, or the candidate's own ability for a row that has no item.
  function Opponent(p: Projection, e: Evidence): real {
    if e.item.Some? && e.item.value in p.elo then p.elo[e.item.value] else RowFor(p, e.concept).ability
  }

  function Delta(env: Env, p: Projection, e: Evidence): real {
    e.score - env.expected(RowFor(p, e.concept).ability, Opponent(p, e))
  }

  function NextRow(env: Env, p: Projection, e: Evidence): Row {
    var row := RowFor(p, e.concept);
    var card := env.review(if row.card.Some? then row.card.value else env.newCard(e.ts), RatingFor(e.score), e.ts);
    Row(row.ability + KFactor(row.observations) * e.confidence * Delta(env, p, e),
        row.observations + 1, Some(card), Some(env.stability(card)), Some(env.due(card)), Some(e.ts))
  }

  function ItemMove(delta: real, confidence: real): real {
    K_ITEM * delta * confidence
  }

  function NextElo(env: Env, p: Projection, e: Evidence, moves: bool): map<Id, real>
    requires Rated(env, p) && (moves ==> e.item.Some? && e.item.value in env.items)
  {
    if moves then
      p.elo[e.item.value := p.elo[e.item.value] - ItemMove(Delta(env, p, e), e.confidence)]
    else p.elo
  }

  function Apply(env: Env, table: seq<Evidence>, p: Projection, e: Evidence): (q: Projection)
    requires Rated(env, p)
    ensures Rated(env, q)
  {
    Projection(p.mastery[e.concept := NextRow(env, p, e)], NextElo(env, p, e, MovesItem(env, table, e)))
  }

  // ---------------------------------------------------------------- folding and replaying

  function Fold(env: Env, table: seq<Evidence>, p: Projection, rows: seq<Evidence>): (q: Projection)
    requires Rated(env, p)
    ensures Rated(env, q)
    decreases |rows|
  {
    if rows == [] then p
    else
      var last := |rows| - 1;
      Apply(env, table, Fold(env, table, p, rows[..last]), rows[last])
  }

  function Initial(env: Env): (p: Projection)
    ensures Rated(env, p)
  {
    Projection(map[], map i | i in env.items :: env.items[i].prior)
  }

  // Timestamps rise, and where two are equal the ids do.
  predicate Sorted(rows: seq<Evidence>) {
    forall i, j :: 0 <= i < j < |rows| ==>
      rows[i].ts < rows[j].ts || (rows[i].ts == rows[j].ts && rows[i].id < rows[j].id)
  }

  // The rows as `order by (ts, id)` returns them, from any storage order.
  function SortByKey(table: seq<Evidence>): seq<Evidence> {
    SortBy(Before, table)
  }

  function Replay(env: Env, table: seq<Evidence>): (p: Projection)
    ensures Rated(env, p)
  {
    Fold(env, table, Initial(env), SortByKey(table))
  }

  // ---------------------------------------------------------------- sorting

  lemma SameHead(a: seq<Evidence>, b: seq<Evidence>)
    requires SortedBy(Before, a) && Sorted(b) && multiset(a) == multiset(b) && a != []
    ensures b != [] && a[0] == b[0]
  {
    assert a[0] in multiset(b);
    var i :| 0 <= i < |b| && b[i] == a[0];
    assert b[0] in multiset(a);
    var j :| 0 <= j < |a| && a[j] == b[0];
  }

  lemma {:induction false} SortedIsUnique(a: seq<Evidence>, b: seq<Evidence>)
    requires SortedBy(Before, a) && Sorted(b) && multiset(a) == multiset(b)
    ensures a == b
  {
    if a == [] {
      assert |multiset(b)| == |b| == 0;
    } else {
      SameHead(a, b);
      assert a == [a[0]] + a[1..] && b == [b[0]] + b[1..];
      TailsPermute(a, b);
      SortedIsUnique(a[1..], b[1..]);
    }
  }

  lemma TailsPermute(a: seq<Evidence>, b: seq<Evidence>)
    requires a != [] && b != [] && a[0] == b[0] && multiset(a) == multiset(b)
    ensures multiset(a[1..]) == multiset(b[1..])
  {
    assert a == [a[0]] + a[1..] && b == [b[0]] + b[1..];
    assert multiset(a[1..]) == multiset(a) - multiset{a[0]};
    assert multiset(b[1..]) == multiset(b) - multiset{b[0]};
  }

  // However the table is stored, the replay reads the rows in the order they were appended.
  lemma SortRecoversLog(table: seq<Evidence>, log: seq<Evidence>)
    requires Sorted(log) && multiset(table) == multiset(log)
    ensures SortByKey(table) == log
  {
    SortSorts(Before, table);
    SortPermutes(Before, table);
    SortedIsUnique(SortByKey(table), log);
  }

  // ---------------------------------------------------------------- the first-row query

  lemma {:induction false} FirstMatches(table: seq<Evidence>, e: Evidence)
    ensures var first := FirstOfAttempt(table, e);
            && (first.Some? ==> first.value in table && SameAttempt(first.value, e))
            && (first.None? <==> forall r :: r in table ==> !SameAttempt(r, e))
            && (first.Some? ==> forall r :: r in table && SameAttempt(r, e) ==> !Before(r, first.value))
  {
    if table != [] {
      FirstMatches(table[1..], e);
      assert forall r :: r in table <==> r == table[0] || r in table[1..];
    }
  }

  // Rows that come later in the order never change the answer, as long as there was one.
  lemma {:induction false} LaterRowsDoNotMatter(prefix: seq<Evidence>, later: seq<Evidence>, e: Evidence)
    requires Sorted(prefix + later)
    requires exists r :: r in prefix && SameAttempt(r, e)
    ensures FirstOfAttempt(prefix + later, e) == FirstOfAttempt(prefix, e)
  {
    var whole := prefix + later;
    assert whole[0] == prefix[0] && whole[1..] == prefix[1..] + later;
    FirstMatches(whole[1..], e);
    FirstMatches(prefix[1..], e);
    if SameAttempt(prefix[0], e) {
      forall r | r in whole[1..] ensures Before(whole[0], r) {}
      forall r | r in prefix[1..] ensures Before(prefix[0], r) {
        var i :| 0 <= i < |prefix[1..]| && prefix[1..][i] == r;
        assert whole[i + 1] == r;
      }
    } else {
      var r :| r in prefix && SameAttempt(r, e);
      assert r in prefix[1..];
      assert Sorted(prefix[1..] + later) by {
        assert prefix[1..] + later == whole[1..];
      }
      LaterRowsDoNotMatter(prefix[1..], later, e);
    }
  }

  // The answer does not depend on the order the rows are stored in.
  lemma StorageOrderDoesNotMatter(table: seq<Evidence>, log: seq<Evidence>, e: Evidence)
    requires Sorted(log) && multiset(table) == multiset(log)
    ensures FirstOfAttempt(table, e) == FirstOfAttempt(log, e)
  {
    FirstMatches(table, e);
    FirstMatches(log, e);
    assert forall r :: r in table <==> r in multiset(table);
    assert forall r :: r in log <==> r in multiset(log);
    var a, b := FirstOfAttempt(table, e), FirstOfAttempt(log, e);
    if a.Some? && b.Some? {
      var i :| 0 <= i < |log| && log[i] == a.value;
      var j :| 0 <= j < |log| && log[j] == b.value;
      assert !Before(log[i], log[j]) && !Before(log[j], log[i]);
    }
  }

  // The live query, which sees the log up to and including the row's own batch, and the
  // replay's query, which sees the whole log, give the row the same verdict.
  lemma LiveQueryAgreesWithReplay(env: Env, prefix: seq<Evidence>, later: seq<Evidence>, e: Evidence)
    requires Sorted(prefix + later) && e in prefix
    ensures MovesItem(env, prefix, e) == MovesItem(env, prefix + later, e)
  {
    if e.source == SessionGrading {
      assert SameAttempt(e, e);
      LaterRowsDoNotMatter(prefix, later, e);
    }
  }

  predicate UniqueIds(table: seq<Evidence>) {
    forall i, j :: 0 <= i < j < |table| ==> table[i].id != table[j].id
  }

  lemma {:induction false} FirstIsLeast(table: seq<Evidence>, e: Evidence, k: nat)
    requires Sorted(table) && k < |table| && SameAttempt(table[k], e)
    requires forall j :: 0 <= j < k ==> !SameAttempt(table[j], e)
    ensures FirstOfAttempt(table, e) == Some(table[k])
  {
    FirstMatches(table[1..], e);
    if k == 0 {
      forall r | r in table[1..] ensures Before(table[0], r) {}
    } else {
      FirstIsLeast(table[1..], e, k - 1);
    }
  }

  // The first graded row of its attempt at an item, on the item's primary concept.
  ghost predicate FirstGraded(env: Env, log: seq<Evidence>, n: nat) {
    && n < |log| && log[n].item.Some? && log[n].item.value in env.items
    && log[n].source == SessionGrading && log[n].concept == env.items[log[n].item.value].primary
    && forall j :: 0 <= j < n ==>
         !(log[j].source == SessionGrading && log[j].session == log[n].session
           && log[j].item == log[n].item && log[j].concept == log[n].concept)
  }

  // A row moves its item exactly when no earlier row of the table is from the same attempt.
  lemma MovesIffFirst(env: Env, table: seq<Evidence>, i: nat)
    requires Sorted(table) && UniqueIds(table) && i < |table|
    ensures MovesItem(env, table, table[i]) <==> FirstGraded(env, table, i)
  {
    var e := table[i];
    if e.source == SessionGrading {
      var k := LeastAttempt(table, e, i);
      FirstIsLeast(table, e, k);
    }
  }

  lemma {:induction false} LeastAttempt(table: seq<Evidence>, e: Evidence, i: nat) returns (k: nat)
    requires i < |table| && SameAttempt(table[i], e)
    ensures k <= i && SameAttempt(table[k], e) && forall j :: 0 <= j < k ==> !SameAttempt(table[j], e)
  {
    if j :| 0 <= j < i && SameAttempt(table[j], e) {
      k := LeastAttempt(table, e, j);
    } else {
      k := i;
    }
  }

  // ---------------------------------------------------------------- live equals replay

  lemma {:induction false} FoldConcat(env: Env, table: seq<Evidence>, p: Projection, a: seq<Evidence>, b: seq<Evidence>)
    requires Rated(env, p)
    ensures Fold(env, table, p, a + b) == Fold(env, table, Fold(env, table, p, a), b)
    decreases |b|
  {
    if b == [] {
      assert a + b == a;
    } else {
      var last := |b| - 1;
      assert (a + b)[..|a + b| - 1] == a + b[..last];
      FoldConcat(env, table, p, a, b[..last]);
    }
  }

  // Only the verdicts of the first-row query enter a fold, not the table they come from.
  lemma {:induction false} FoldAgrees(env: Env, t: seq<Evidence>, u: seq<Evidence>, p: Projection, rows: seq<Evidence>)
    requires Rated(env, p)
    requires forall e :: e in rows ==> MovesItem(env, t, e) == MovesItem(env, u, e)
    ensures Fold(env, t, p, rows) == Fold(env, u, p, rows)
    decreases |rows|
  {
    if rows != [] {
      FoldAgrees(env, t, u, p, rows[..|rows| - 1]);
    }
  }

  // Appending one batch to a log whose projection is its replay gives the replay of the
  // longer log: the heart of "live equals rebuilt".
  lemma BatchExtendsReplay(env: Env, log: seq<Evidence>, batch: seq<Evidence>)
    requires Sorted(log + batch)
    ensures Fold(env, log + batch, Replay(env, log), batch) == Replay(env, log + batch)
  {
    var whole := log + batch;
    assert Sorted(log) by {
      assert log == whole[..|log|];
    }
    SortRecoversLog(log, log);
    SortRecoversLog(whole, whole);
    forall e | e in log ensures MovesItem(env, log, e) == MovesItem(env, whole, e) {
      LiveQueryAgreesWithReplay(env, log, batch, e);
    }
    FoldAgrees(env, log, whole, Initial(env), log);
    FoldConcat(env, whole, Initial(env), log, batch);
  }

  function Flatten(batches: seq<seq<Evidence>>): seq<Evidence>
    decreases |batches|
  {
    if batches == [] then []
    else Flatten(batches[..|batches| - 1]) + batches[|batches| - 1]
  }

  // A whole run of the live path: each batch is inserted, then applied row by row against
  // the table that already holds it.
  function LiveRun(env: Env, batches: seq<seq<Evidence>>): (p: Projection)
    ensures Rated(env, p)
    decreases |batches|
  {
    if batches == [] then Initial(env)
    else
      var last := |batches| - 1;
      Fold(env, Flatten(batches), LiveRun(env, batches[..last]), batches[last])
  }

  lemma {:induction false} LiveEqualsReplay(env: Env, batches: seq<seq<Evidence>>)
    requires Sorted(Flatten(batches))
    ensures LiveRun(env, batches) == Replay(env, Flatten(batches))
    decreases |batches|
  {
    if batches != [] {
      var last := |batches| - 1;
      var before, log := Flatten(batches[..last]), Flatten(batches);
      assert log == before + batches[last];
      assert Sorted(before) by {
        assert before == log[..|before|];
      }
      LiveEqualsReplay(env, batches[..last]);
      BatchExtendsReplay(env, before, batches[last]);
    }
  }

  lemma ReplayOfPermutation(env: Env, table: seq<Evidence>, log: seq<Evidence>)
    requires Sorted(log) && multiset(table) == multiset(log)
    ensures Replay(env, table) == Replay(env, log)
  {
    SortRecoversLog(table, log);
    SortRecoversLog(log, log);
    forall e | e in log ensures MovesItem(env, table, e) == MovesItem(env, log, e) {
      StorageOrderDoesNotMatter(table, log, e);
    }
    FoldAgrees(env, table, log, Initial(env), log);
  }

  lemma IdsStayUnique(table: seq<Evidence>, other: seq<Evidence>)
    requires UniqueIds(table) && multiset(table) == multiset(other)
    ensures UniqueIds(other)
  {
    forall i, j | 0 <= i < j < |other| ensures other[i].id != other[j].id {
      if other[i].id == other[j].id {
        assert other[i] in multiset(table) && other[j] in multiset(table);
        assert other[i] == other[j];
        assert other == other[..j] + [other[j]] + other[j + 1..];
        assert other[i] in other[..j];
        assert multiset(other)[other[i]] >= 2;
        OnceEach(table, other[i]);
      }
    }
  }

  lemma OnceEach(table: seq<Evidence>, e: Evidence)
    requires UniqueIds(table)
    ensures multiset(table)[e] <= 1
  {
    if e in multiset(table) {
      var i :| 0 <= i < |table| && table[i] == e;
      assert table == table[..i] + [table[i]] + table[i + 1..];
      assert e !in table[..i] && e !in table[i + 1..];
      assert e !in multiset(table[..i]) && e !in multiset(table[i + 1..]);
    }
  }

  // The key is total: any two ways of storing rows with ids of their own are replayed alike.
  lemma ReplayIgnoresStorageOrder(env: Env, table: seq<Evidence>, other: seq<Evidence>)
    requires UniqueIds(table) && multiset(table) == multiset(other)
    ensures Replay(env, table) == Replay(env, other)
    ensures Sorted(SortByKey(table))
  {
    var log := SortByKey(table);
    SortSorts(Before, table);
    SortPermutes(Before, table);
    IdsStayUnique(table, log);
    assert Sorted(log);
    ReplayOfPermutation(env, table, log);
    ReplayOfPermutation(env, other, log);
  }

  // For every run whose rows were appended in key order, the live projection is what
  // `recompute` rebuilds, from any storage order of the table.
  lemma LiveEqualsRebuilt(env: Env, batches: seq<seq<Evidence>>, table: seq<Evidence>)
    requires Sorted(Flatten(batches)) && multiset(table) == multiset(Flatten(batches))
    ensures LiveRun(env, batches) == Replay(env, table)
  {
    LiveEqualsReplay(env, batches);
    ReplayOfPermutation(env, table, Flatten(batches));
  }

  // The lock is what makes the order hold, and without it the two tables do part: two rows
  // on one concept applied against their key order leave another ability than the rebuild.
  lemma OutOfOrderDiverges(env: Env)
    requires ProperExpectation(env)
    ensures var won := Evidence(2, 2, Id("c"), PracticeLog, None, None, 1.0, 1.0);
            var lost := Evidence(1, 1, Id("c"), PracticeLog, None, None, 0.0, 1.0);
            LiveRun(env, [[won], [lost]]) != Replay(env, [won, lost])
  {
    var won := Evidence(2, 2, Id("c"), PracticeLog, None, None, 1.0, 1.0);
    var lost := Evidence(1, 1, Id("c"), PracticeLog, None, None, 0.0, 1.0);
    var t := [won, lost];
    assert SortByKey(t) == [lost, won] by {
      assert t[..1] == [won] && [won][..0] == [];
      assert SortBy(Before, [won]) == [won];
      assert InsertBy(Before, [won], lost) == InsertBy(Before, [], lost) + [won];
    }
    var p0 := Initial(env);
    TwoRows(env, t, p0, won, lost);
    TwoRows(env, t, p0, lost, won);
    assert [[won], [lost]][..1] == [[won]];
    assert Flatten([[won]]) == [won] && Flatten([[won], [lost]]) == t;
    assert LiveRun(env, [[won]]) == Fold(env, [won], p0, [won]);
    FoldAgrees(env, [won], t, p0, [won]);
    FoldConcat(env, t, p0, [won], [lost]);
    assert [won] + [lost] == t;
  }

  // Two item-less rows on a concept never seen before, graded at even odds.
  lemma TwoRows(env: Env, t: seq<Evidence>, p: Projection, a: Evidence, b: Evidence)
    requires Rated(env, p) && p.mastery == map[]
    requires ProperExpectation(env)
    requires a.item == b.item == None && a.concept == b.concept && a.confidence == b.confidence == 1.0
    ensures a.concept in Fold(env, t, p, [a, b]).mastery
    ensures Fold(env, t, p, [a, b]).mastery[a.concept].ability ==
            DEFAULT_ABILITY + KFactor(0) * (a.score - 0.5) + KFactor(1) * (b.score - 0.5)
  {
    assert [a, b][..1] == [a] && [a][..0] == [];
    var q := Apply(env, t, p, a);
    assert Fold(env, t, p, [a]) == q;
    assert env.expected(DEFAULT_ABILITY, DEFAULT_ABILITY) == 0.5;
    var ability := q.mastery[a.concept].ability;
    assert env.expected(ability, ability) == 0.5;
    assert Fold(env, t, p, [a, b]) == Apply(env, t, q, b);
  }

  // ---------------------------------------------------------------- how far a row can move things

  // What is known of the logistic expectation.
  ghost predicate ProperExpectation(env: Env) {
    forall a, b :: 0.0 < env.expected(a, b) < 1.0 && env.expected(a, a) == 0.5
  }

  predicate InUnitRange(e: Evidence) {
    0.0 <= e.score <= 1.0 && 0.0 <= e.confidence <= 1.0
  }

  lemma ScaledIsSmaller(k: real, c: real, d: real)
    requires 0.0 <= k && 0.0 <= c <= 1.0 && -1.0 <= d <= 1.0
    ensures Abs(k * c * d) <= k
  {
    assert 0.0 <= k * c <= k;
    assert k * c * d <= k * c && k * c * d >= -(k * c);
  }

  // The n-th row on a concept moves its ability by at most the K factor of n; at even
  // odds, as for a row without an item, by at most half of it.
  lemma AbilityMovesAtMostK(env: Env, table: seq<Evidence>, p: Projection, e: Evidence)
    requires Rated(env, p) && ProperExpectation(env) && InUnitRange(e)
    ensures var before := RowFor(p, e.concept);
            var after := Apply(env, table, p, e).mastery[e.concept];
            && after.observations == before.observations + 1
            && Abs(after.ability - before.ability) <= KFactor(before.observations)
            && (e.item.None? ==> 2.0 * Abs(after.ability - before.ability) <= KFactor(before.observations))
  {
    var row := RowFor(p, e.concept);
    var k := KFactor(row.observations);
    var d := Delta(env, p, e);
    ScaledIsSmaller(k, e.confidence, d);
    var moved := k * e.confidence * d;
    assert Apply(env, table, p, e).mastery[e.concept].ability == row.ability + moved;
    if e.item.None? {
      assert env.expected(row.ability, row.ability) == 0.5;
      ScaledIsSmaller(k, e.confidence, 2.0 * d);
      assert k * e.confidence * (2.0 * d) == 2.0 * moved;
    }
  }

  // ---------------------------------------------------------------- which way a row moves things

  // What is known of a concept before a row; nothing, and it starts at 1550.
  ghost predicate Stands(p: Projection, concept: Id, ability: real, seen: nat) {
    if concept in p.mastery then p.mastery[concept].ability == ability && p.mastery[concept].observations == seen
    else ability == 1550.0 && seen == 0
  }

  // The opponent is the item at its current rating; where there is none, an equal.
  ghost predicate Opposes(env: Env, p: Projection, e: Evidence, ability: real, rating: real)
    requires Rated(env, p)
  {
    if e.item.Some? && e.item.value in env.items then rating == p.elo[e.item.value] else rating == ability
  }

  // By how much a result beats what was expected of it.
  ghost function Surprise(env: Env, e: Evidence, ability: real, rating: real): real {
    e.score - env.expected(ability, rating)
  }

  // A result counts 48 at first, half of that after eight rows, and never less than 10.
  lemma KFactorMeans(seen: nat)
    ensures seen <= 30 ==> KFactor(seen) * (8 + seen) as real == 384.0
    ensures seen > 30 ==> KFactor(seen) == 10.0
    ensures KFactor(seen) >= 10.0
  {
    var x := 1.0 + seen as real / 8.0;
    var q := 48.0 / x;
    assert q * x == 48.0 && x * 8.0 == (8 + seen) as real;
    assert q * (8 + seen) as real == q * x * 8.0 == 384.0;
    if seen <= 30 {
      assert q < 10.0 ==> q * x < 10.0 * x;
    } else {
      assert q >= 10.0 ==> q * x >= 10.0 * x;
    }
  }

  lemma SameSign(k: real, x: real)
    requires k > 0.0
    ensures k * x > 0.0 <==> x > 0.0
    ensures k * x < 0.0 <==> x < 0.0
  {
  }

  // A row moves its concept by its surprise, weighed by confidence and less with every row
  // seen, and leaves every other concept alone.
  lemma AbilityFollowsSurprise(env: Env, table: seq<Evidence>, p: Projection, e: Evidence,
                               ability: real, seen: nat, rating: real)
    requires Rated(env, p) && Stands(p, e.concept, ability, seen) && Opposes(env, p, e, ability, rating)
    ensures var q := Apply(env, table, p, e); var weighed := e.confidence * Surprise(env, e, ability, rating);
            && q.mastery.Keys == p.mastery.Keys + {e.concept} && q.mastery[e.concept].observations == seen + 1
            && (seen <= 30 ==> (q.mastery[e.concept].ability - ability) * (8 + seen) as real == 384.0 * weighed)
            && (seen > 30 ==> q.mastery[e.concept].ability - ability == 10.0 * weighed)
            && forall c :: c in p.mastery && c != e.concept ==> q.mastery[c] == p.mastery[c]
    ensures var after := Apply(env, table, p, e).mastery[e.concept].ability;
            var surprise := Surprise(env, e, ability, rating);
            e.confidence > 0.0 ==> (after > ability <==> surprise > 0.0) && (after < ability <==> surprise < 0.0)
  {
    var surprise := Surprise(env, e, ability, rating);
    var after := Apply(env, table, p, e).mastery[e.concept].ability;
    KFactorMeans(seen);
    var k, n := KFactor(seen), (8 + seen) as real;
    assert after - ability == k * e.confidence * surprise;
    assert k * e.confidence * surprise == k * (e.confidence * surprise);
    assert k * (e.confidence * surprise) * n == (k * n) * (e.confidence * surprise);
    if e.confidence > 0.0 {
      SameSign(e.confidence, surprise);
      SameSign(k, e.confidence * surprise);
    }
  }

  // The item moves the other way, by 4 times the weighed surprise, on the first graded row of
  // an attempt at it; no other item ever moves, and no other row moves one.
  lemma ItemMovesAgainst(env: Env, log: seq<Evidence>, n: nat, p: Projection, ability: real, seen: nat, rating: real)
    requires Sorted(log) && UniqueIds(log) && n < |log| && Rated(env, p)
    requires Stands(p, log[n].concept, ability, seen) && Opposes(env, p, log[n], ability, rating)
    ensures var e := log[n]; var q := Apply(env, log, p, e); var surprise := Surprise(env, e, ability, rating);
            if FirstGraded(env, log, n) then
              && p.elo[e.item.value] - q.elo[e.item.value] == 4.0 * (e.confidence * surprise)
              && forall i :: i in env.items && i != e.item.value ==> q.elo[i] == p.elo[i]
            else
              q.elo == p.elo
    ensures var e := log[n]; var q := Apply(env, log, p, e);
            FirstGraded(env, log, n) && e.confidence > 0.0 ==>
              var expected := env.expected(ability, rating);
              && (e.score > expected <==> q.mastery[e.concept].ability > ability)
              && (e.score > expected <==> q.elo[e.item.value] < rating)
              && (e.score < expected <==> q.mastery[e.concept].ability < ability)
              && (e.score < expected <==> q.elo[e.item.value] > rating)
  {
    var e := log[n];
    MovesIffFirst(env, log, n);
    AbilityFollowsSurprise(env, log, p, e, ability, seen, rating);
    var surprise := Surprise(env, e, ability, rating);
    if FirstGraded(env, log, n) {
      assert Delta(env, p, e) == surprise;
      assert K_ITEM * surprise * e.confidence == 4.0 * (e.confidence * surprise);
      if e.confidence > 0.0 {
        SameSign(e.confidence, surprise);
      }
    }
  }

  // ---------------------------------------------------------------- the schedule of a concept

  // Under half is a lapse, and only a near-perfect score is easy.
  ghost predicate Grades(score: real, rating: Rating) {
    match rating
    case Again => score < 0.5
    case Hard => 0.5 <= score < 0.75
    case Good => 0.75 <= score < 0.95
    case Easy => 0.95 <= score
  }

  // What a row makes of a concept's card; the first one makes the card itself.
  ghost predicate Reviewed(env: Env, e: Evidence, before: Option<Card>, after: Option<Card>) {
    var card := if before.Some? then before.value else env.newCard(e.ts);
    forall rating :: Grades(e.score, rating) ==> after == Some(env.review(card, rating, e.ts))
  }

  ghost predicate ReviewedAt(env: Env, log: seq<Evidence>, concept: Id, cards: seq<Option<Card>>, k: int) {
    0 <= k < |log| < |cards| ==>
      if log[k].concept == concept then Reviewed(env, log[k], cards[k], cards[k + 1])
      else cards[k + 1] == cards[k]
  }

  // The concept's card before each row and after the last.
  ghost predicate Reviews(env: Env, log: seq<Evidence>, concept: Id, cards: seq<Option<Card>>) {
    |cards| == |log| + 1 && cards[0] == None && forall k :: ReviewedAt(env, log, concept, cards, k)
  }

  // The last row of a concept in a log.
  ghost predicate LastOf(log: seq<Evidence>, concept: Id, k: int) {
    0 <= k < |log| && log[k].concept == concept && forall j :: k < j < |log| ==> log[j].concept != concept
  }

  ghost function CardOf(p: Projection, concept: Id): Option<Card> {
    if concept in p.mastery then p.mastery[concept].card else None
  }

  lemma {:induction false} FoldReviews(env: Env, table: seq<Evidence>, log: seq<Evidence>, concept: Id,
                                       cards: seq<Option<Card>>)
    requires Reviews(env, log, concept, cards)
    ensures CardOf(Fold(env, table, Initial(env), log), concept) == cards[|log|]
    decreases |log|
  {
    if log != [] {
      var last := |log| - 1;
      var front := log[..last];
      forall k ensures ReviewedAt(env, front, concept, cards[..|log|], k) {
        assert ReviewedAt(env, log, concept, cards, k);
      }
      FoldReviews(env, table, front, concept, cards[..|log|]);
      assert ReviewedAt(env, log, concept, cards, last);
      if log[last].concept == concept {
        assert Grades(log[last].score, RatingFor(log[last].score));
      }
    }
  }

  lemma {:induction false} LastRowIsStored(env: Env, table: seq<Evidence>, log: seq<Evidence>, concept: Id, k: nat)
    requires LastOf(log, concept, k)
    ensures var q := Fold(env, table, Initial(env), log);
            && concept in q.mastery && q.mastery[concept].lastSeen == Some(log[k].ts)
            && q.mastery[concept].card.Some?
            && q.mastery[concept].stability == Some(env.stability(q.mastery[concept].card.value))
            && q.mastery[concept].dueAt == Some(env.due(q.mastery[concept].card.value))
    decreases |log|
  {
    var last := |log| - 1;
    if k < last {
      LastRowIsStored(env, table, log[..last], concept, k);
    }
  }

  // After any live run a concept's card is the one its rows review in the order of their
  // times, its due date and stability are that card's, and it was last seen at the latest.
  lemma ScheduleIsReviewHistory(env: Env, batches: seq<seq<Evidence>>, concept: Id, k: nat,
                                cards: seq<Option<Card>>)
    requires var log := Flatten(batches);
             Sorted(log) && LastOf(log, concept, k) && Reviews(env, log, concept, cards)
    ensures var log, live := Flatten(batches), LiveRun(env, batches);
            && concept in live.mastery && cards[|log|].Some?
            && var card := cards[|log|].value;
               && live.mastery[concept].card == Some(card)
               && live.mastery[concept].stability == Some(env.stability(card))
               && live.mastery[concept].dueAt == Some(env.due(card))
               && live.mastery[concept].lastSeen == Some(log[k].ts)
    ensures forall e :: e in Flatten(batches) && e.concept == concept ==> e.ts <= Flatten(batches)[k].ts
  {
    var log := Flatten(batches);
    LiveEqualsReplay(env, batches);
    SortRecoversLog(log, log);
    FoldReviews(env, log, log, concept, cards);
    LastRowIsStored(env, log, log, concept, k);
  }

  function CountOf(rows: seq<Evidence>, concept: Id): nat {
    if rows == [] then 0
    else CountOf(rows[..|rows| - 1], concept) + if rows[|rows| - 1].concept == concept then 1 else 0
  }

  lemma {:induction false} ObservationsCountRows(env: Env, table: seq<Evidence>, p: Projection,
      rows: seq<Evidence>, concept: Id)
    requires Rated(env, p)
    ensures RowFor(Fold(env, table, p, rows), concept).observations ==
            RowFor(p, concept).observations + CountOf(rows, concept)
    decreases |rows|
  {
    if rows != [] {
      ObservationsCountRows(env, table, p, rows[..|rows| - 1], concept);
    }
  }

  lemma OwnRowDecides(env: Env, p: Projection, q: Projection, e: Evidence)
    requires e.item.None? && RowFor(p, e.concept) == RowFor(q, e.concept)
    ensures NextRow(env, p, e) == NextRow(env, q, e)
  {
  }

  lemma MapUpdatesCommute(m: map<Id, Row>, k: Id, x: Row, l: Id, y: Row)
    requires k != l
    ensures m[k := x][l := y] == m[l := y][k := x]
  {
  }

  // Rows without an item, on different concepts, may be applied in either order.
  lemma ItemlessRowsCommute(env: Env, table: seq<Evidence>, p: Projection, a: Evidence, b: Evidence)
    requires Rated(env, p)
    requires a.item.None? && b.item.None? && a.concept != b.concept
    ensures Apply(env, table, Apply(env, table, p, a), b) == Apply(env, table, Apply(env, table, p, b), a)
  {
    OwnRowDecides(env, p, Apply(env, table, p, a), b);
    OwnRowDecides(env, p, Apply(env, table, p, b), a);
    MapUpdatesCommute(p.mastery, a.concept, NextRow(env, p, a), b.concept, NextRow(env, p, b));
  }

  // The sessions with graded evidence on item `i`'s primary concept.
  predicate IsAttemptAt(env: Env, e: Evidence, i: Id) {
    && i in env.items && e.item == Some(i) && e.session.Some?
    && e.source == SessionGrading && e.concept == env.items[i].primary
  }

  function AttemptSessions(env: Env, rows: seq<Evidence>, i: Id): set<Id> {
    set e | e in rows && IsAttemptAt(env, e, i) :: e.session.value
  }

  // Every grading is made in a session.
  predicate GradingsHaveSessions(rows: seq<Evidence>) {
    forall e :: e in rows && e.source == SessionGrading ==> e.session.Some?
  }

  lemma AttemptSessionsGrow(env: Env, rows: seq<Evidence>, e: Evidence, i: Id)
    ensures AttemptSessions(env, rows + [e], i) ==
            AttemptSessions(env, rows, i) + if IsAttemptAt(env, e, i) then {e.session.value} else {}
  {
    var both := rows + [e];
    forall s ensures s in AttemptSessions(env, both, i) <==>
        s in AttemptSessions(env, rows, i) || (IsAttemptAt(env, e, i) && s == e.session.value)
    {
      if r :| r in rows && IsAttemptAt(env, r, i) && r.session.value == s {
        assert r in both;
      }
      if r :| r in both && IsAttemptAt(env, r, i) && r.session.value == s {
        assert r in rows || r == e;
      }
      assert e in both;
    }
  }

  // The row at `n` moves item `i` only as the first attempt of a session not seen before it.
  lemma MoveIsNewSession(env: Env, log: seq<Evidence>, n: nat, i: Id)
    requires Sorted(log) && UniqueIds(log) && GradingsHaveSessions(log)
    requires n < |log| && MovesItem(env, log, log[n]) && log[n].item == Some(i)
    ensures IsAttemptAt(env, log[n], i)
    ensures log[n].session.value !in AttemptSessions(env, log[..n], i)
  {
    var e := log[n];
    MovesIffFirst(env, log, n);
    forall r | r in log[..n] && IsAttemptAt(env, r, i) ensures r.session.value != e.session.value {
      var j :| 0 <= j < n && log[j] == r;
      assert !SameAttempt(log[j], e);
    }
  }

  // One row of a replay: the drift grows by K_ITEM at most, and only with a new session.
  lemma DriftStep(env: Env, log: seq<Evidence>, n: nat, p: Projection, i: Id)
    requires ProperExpectation(env) && i in env.items && Rated(env, p)
    requires Sorted(log) && UniqueIds(log) && GradingsHaveSessions(log)
    requires n < |log| && InUnitRange(log[n])
    ensures Abs(Apply(env, log, p, log[n]).elo[i] - p.elo[i])
            <= K_ITEM * (|AttemptSessions(env, log[..n + 1], i)| - |AttemptSessions(env, log[..n], i)|) as real
  {
    var e, before := log[n], log[..n];
    assert log[..n + 1] == before + [e];
    AttemptSessionsGrow(env, before, e, i);
    if MovesItem(env, log, e) && e.item == Some(i) {
      MoveIsNewSession(env, log, n, i);
      assert |AttemptSessions(env, log[..n + 1], i)| == |AttemptSessions(env, before, i)| + 1;
      ItemMovesAtMostK(env, log, p, e, i);
    } else {
      SubsetIsSmaller(AttemptSessions(env, before, i), AttemptSessions(env, log[..n + 1], i));
    }
  }

  // What the drift bound takes for granted of the rows the producers write.
  ghost predicate WellFormed(log: seq<Evidence>) {
    Sorted(log) && UniqueIds(log) && GradingsHaveSessions(log) && forall e :: e in log ==> InUnitRange(e)
  }

  function EloAfter(env: Env, log: seq<Evidence>, n: nat, i: Id): real
    requires n <= |log| && i in env.items
  {
    Fold(env, log, Initial(env), log[..n]).elo[i]
  }

  function SessionsAfter(env: Env, log: seq<Evidence>, n: nat, i: Id): nat
    requires n <= |log|
  {
    |AttemptSessions(env, log[..n], i)|
  }

  lemma EloAfterStep(env: Env, log: seq<Evidence>, n: nat, i: Id)
    requires ProperExpectation(env) && i in env.items && WellFormed(log) && n < |log|
    ensures Abs(EloAfter(env, log, n + 1, i) - EloAfter(env, log, n, i))
            <= K_ITEM * (SessionsAfter(env, log, n + 1, i) - SessionsAfter(env, log, n, i)) as real
  {
    var p := Fold(env, log, Initial(env), log[..n]);
    assert log[..n + 1][..n] == log[..n];
    assert log[n] in log;
    DriftStep(env, log, n, p, i);
  }

  lemma NoDriftYet(env: Env, log: seq<Evidence>, i: Id)
    requires i in env.items
    ensures EloAfter(env, log, 0, i) == env.items[i].prior && SessionsAfter(env, log, 0, i) == 0
  {
    assert log[..0] == [];
  }

  lemma {:induction false} DriftAfter(env: Env, log: seq<Evidence>, n: nat, i: Id)
    requires ProperExpectation(env) && i in env.items && WellFormed(log) && n <= |log|
    ensures Abs(EloAfter(env, log, n, i) - env.items[i].prior) <= K_ITEM * SessionsAfter(env, log, n, i) as real
  {
    hide EloAfter, SessionsAfter, ProperExpectation, WellFormed;
    if n == 0 {
      NoDriftYet(env, log, i);
    } else {
      DriftAfter(env, log, n - 1, i);
      EloAfterStep(env, log, n - 1, i);
      Triangle(EloAfter(env, log, n, i), EloAfter(env, log, n - 1, i), env.items[i].prior);
    }
  }

  lemma Triangle(x: real, y: real, z: real)
    ensures Abs(x - z) <= Abs(x - y) + Abs(y - z)
  {
  }

  lemma SubsetIsSmaller(a: set<Id>, b: set<Id>)
    requires a <= b
    ensures |a| <= |b|
  {
    assert b == a + (b - a);
  }

  lemma ItemMovesAtMostK(env: Env, table: seq<Evidence>, p: Projection, e: Evidence, i: Id)
    requires Rated(env, p) && ProperExpectation(env) && InUnitRange(e)
    requires i in env.items && e.item == Some(i)
    ensures Abs(Apply(env, table, p, e).elo[i] - p.elo[i]) <= K_ITEM
  {
    var d := Delta(env, p, e);
    ScaledIsSmaller(K_ITEM, e.confidence, d);
    var x := ItemMove(d, e.confidence);
    assert x == K_ITEM * e.confidence * d;
    assert Apply(env, table, p, e).elo[i] == p.elo[i] - x || Apply(env, table, p, e).elo[i] == p.elo[i];
  }

  // An item's live rating stays within K_ITEM of its prior for each session that holds a
  // graded row on its primary concept, however many rows those sessions wrote.
  lemma RatingDriftIsBounded(env: Env, batches: seq<seq<Evidence>>, i: Id)
    requires ProperExpectation(env) && i in env.items
    requires WellFormed(Flatten(batches))
    ensures Abs(LiveRun(env, batches).elo[i] - env.items[i].prior)
            <= K_ITEM * |AttemptSessions(env, Flatten(batches), i)| as real
  {
    hide Fold, LiveRun, SortByKey, AttemptSessions, ProperExpectation;
    var log := Flatten(batches);
    LiveEqualsReplay(env, batches);
    SortRecoversLog(log, log);
    assert log[..|log|] == log;
    DriftAfter(env, log, |log|, i);
  }

  // ---------------------------------------------------------------- the stored tables

  class Store {
    const env: Env
    var evidence: seq<Evidence>
    var mastery: map<Id, Row>
    var elo: map<Id, real>

    function State(): Projection
      reads this
    {
      Projection(mastery, elo)
    }

    // What the docstring claims of the table: it is the replay of the evidence.
    ghost predicate Valid()
      reads this
    {
      Sorted(evidence) && State() == Replay(env, evidence)
    }

    constructor (e: Env)
      ensures Valid() && env == e && evidence == [] && fresh(this)
    {
      env, evidence, mastery := e, [], map[];
      elo := map i | i in e.items :: e.items[i].prior;
    }

    // `apply_evidence`: one read-modify-write, asking the table as it stands.
    method ApplyEvidence(e: Evidence)
      requires Rated(env, State())
      modifies this`mastery, this`elo
      ensures State() == Apply(env, evidence, old(State()), e)
    {
      ghost var p := State();
      var row := RowFor(State(), e.concept);
      var hasItem := e.item.Some? && e.item.value in elo;
      var itemElo := if hasItem then elo[e.item.value] else row.ability;
      var expected := env.expected(row.ability, itemElo);
      var delta := e.score - expected;
      assert delta == Delta(env, p, e);
      var k := KFactor(row.observations) * e.confidence;
      row := row.(ability := row.ability + k * delta, observations := row.observations + 1);
      ghost var moves := MovesItem(env, evidence, e);
      if hasItem && e.source == SessionGrading && e.concept == env.items[e.item.value].primary {
        var first := FirstOfAttempt(evidence, e);
        if first.None? || first.value.id == e.id {
          assert moves;
          elo := elo[e.item.value := elo[e.item.value] - ItemMove(delta, e.confidence)];
        }
      }
      var card := if row.card.Some? then row.card.value else env.newCard(e.ts);
      card := env.review(card, RatingFor(e.score), e.ts);
      row := row.(card := Some(card), stability := Some(env.stability(card)),
                  dueAt := Some(env.due(card)), lastSeen := Some(e.ts));
      assert row == NextRow(env, p, e);
      assert elo == NextElo(env, p, e, moves);
      mastery := mastery[e.concept := row];
    }

    // One grading, observation or solve, under the lock: its rows are inserted together and
    // then folded in. The table it leaves is again the replay of all the evidence.
    method RecordBatch(batch: seq<Evidence>)
      requires Valid() && Sorted(evidence + batch)
      modifies this
      ensures Valid() && evidence == old(evidence) + batch
    {
      ghost var log, before := evidence, State();
      evidence := evidence + batch;
      BatchExtendsReplay(env, log, batch);
      for i := 0 to |batch|
        invariant evidence == log + batch
        invariant Rated(env, State()) && State() == Fold(env, evidence, before, batch[..i])
      {
        assert batch[..i + 1][..i] == batch[..i];
        ApplyEvidence(batch[i]);
      }
      assert batch[..|batch|] == batch;
    }

    // `recompute`: whatever the tables held, they hold the replay afterwards; and tables
    // that only `RecordBatch` wrote are left exactly as they were.
    method Recompute()
      modifies this`mastery, this`elo
      ensures State() == Replay(env, evidence)
      ensures old(Valid()) ==> State() == old(State())
    {
      mastery := map[];
      elo := map i | i in env.items :: env.items[i].prior;
      var rows := SortByKey(evidence);
      for i := 0 to |rows|
        invariant Rated(env, State()) && State() == Fold(env, evidence, Initial(env), rows[..i])
      {
        assert rows[..i + 1][..i] == rows[..i];
        ApplyEvidence(rows[i]);
      }
      assert rows[..|rows|] == rows;
    }
  }
}
