/**
  The session planner: one item a concept, concepts by priority unless a weaker prerequisite
  gates them, and a greedy fill of what the budget leaves beside one reserved review item.
*/
module Planner {
  import opened Base
  import opened Sorting

  const ASSUMED_MINUTES := 20

  // `priority` is rounded to six places, as the sort reads it.
  datatype Entry = Entry(concept: Id, priority: real, ability: real)

  // Of an item's id only the order matters. `declared` is 0 where no duration is given, and
  // `expected` is the score the candidate's ability and the item's rating make likely.
  datatype Item = Item(id: nat, primary: Id, declared: nat, expected: real)

  datatype Band = Band(low: real, high: real)

  datatype Note = Itself | Unserveable(prereq: Id) | SubstitutedFor(concept: Id)

  datatype Row = Row(priority: real, distance: real, target: Id, item: Item, asked: Entry, note: Note)

  datatype Corpus = Corpus(ranked: seq<Entry>, prereqs: map<Id, seq<Id>>, items: seq<Item>, band: Band)

  function Minutes(item: Item): nat {
    if item.declared == 0 then ASSUMED_MINUTES else item.declared
  }

  function BandDistance(expected: real, band: Band): real {
    if expected < band.low then band.low - expected
    else if expected > band.high then expected - band.high
    else 0.0
  }

  function Distance(item: Item, band: Band): real {
    BandDistance(item.expected, band)
  }

  predicate Inside(x: real, band: Band) {
    band.low <= x <= band.high
  }

  // How far an expected score is from the nearest one in the band.
  lemma BandDistanceIsLeast(expected: real, band: Band)
    requires band.low <= band.high
    ensures forall inside :: Inside(inside, band) ==>
              BandDistance(expected, band) <= Abs(expected - inside)
    ensures exists inside :: Inside(inside, band) && BandDistance(expected, band) == Abs(expected - inside)
    ensures BandDistance(expected, band) == 0.0 <==> band.low <= expected <= band.high
  {
    var inside := if expected < band.low then band.low else if expected > band.high then band.high else expected;
    assert Inside(inside, band) && BandDistance(expected, band) == Abs(expected - inside);
  }

  function Pool(items: seq<Item>, concept: Id): seq<Item> {
    if items == [] then []
    else
      var last := items[|items| - 1];
      Pool(items[..|items| - 1], concept) + if last.primary == concept then [last] else []
  }

  lemma {:induction false} PoolMembers(items: seq<Item>, concept: Id)
    ensures forall i :: i in Pool(items, concept) <==> i in items && i.primary == concept
  {
    if items != [] {
      PoolMembers(items[..|items| - 1], concept);
      assert items == items[..|items| - 1] + [items[|items| - 1]];
    }
  }

  ghost predicate FirstOn(items: seq<Item>, concept: Id, j: int) {
    0 <= j < |items| && items[j].primary == concept && forall i :: 0 <= i < j ==> items[i].primary != concept
  }

  lemma {:induction false} PoolStarts(items: seq<Item>, concept: Id)
    ensures Pool(items, concept) == [] <==> forall i :: i in items ==> i.primary != concept
    ensures forall j :: FirstOn(items, concept, j) ==> Pool(items, concept) != [] && Pool(items, concept)[0] == items[j]
  {
    PoolMembers(items, concept);
    if items != [] {
      var front := items[..|items| - 1];
      PoolStarts(front, concept);
      forall j | FirstOn(items, concept, j)
        ensures Pool(items, concept) != [] && Pool(items, concept)[0] == items[j]
      {
        if j < |front| {
          assert FirstOn(front, concept, j);
        } else {
          assert forall i :: i in front ==> i.primary != concept;
        }
      }
    }
  }

  // ---------------------------------------------------------------- the prerequisite gate

  function Find(ranked: seq<Entry>, concept: Id): Option<Entry> {
    if ranked == [] then None
    else if ranked[|ranked| - 1].concept == concept then Some(ranked[|ranked| - 1])
    else Find(ranked[..|ranked| - 1], concept)
  }

  lemma {:induction false} FindFinds(ranked: seq<Entry>, concept: Id)
    ensures Find(ranked, concept).Some? ==>
              Find(ranked, concept).value in ranked && Find(ranked, concept).value.concept == concept
    ensures Find(ranked, concept).None? ==> forall e :: e in ranked ==> e.concept != concept
  {
    if ranked != [] {
      FindFinds(ranked[..|ranked| - 1], concept);
      assert ranked == ranked[..|ranked| - 1] + [ranked[|ranked| - 1]];
    }
  }

  predicate Gates(ranked: seq<Entry>, prereq: Id, e: Entry) {
    Find(ranked, prereq).Some? && Find(ranked, prereq).value.ability < e.ability
  }

  ghost predicate DistinctConcepts(ranked: seq<Entry>) {
    forall i, j :: 0 <= i < j < |ranked| ==> ranked[i].concept != ranked[j].concept
  }

  lemma {:induction false} FindsTheOne(ranked: seq<Entry>, e: Entry)
    requires DistinctConcepts(ranked) && e in ranked
    ensures Find(ranked, e.concept) == Some(e)
  {
    var last := |ranked| - 1;
    var i :| 0 <= i < |ranked| && ranked[i] == e;
    if i < last {
      assert ranked[..last][i] == e;
      FindsTheOne(ranked[..last], e);
    }
  }

  // A prerequisite gates a concept when it is ranked and the candidate is weaker on it.
  lemma GatesMeans(ranked: seq<Entry>, prereq: Id, e: Entry)
    requires DistinctConcepts(ranked)
    ensures Gates(ranked, prereq, e) <==> exists w :: w in ranked && w.concept == prereq && w.ability < e.ability
  {
    FindFinds(ranked, prereq);
    forall w | w in ranked && w.concept == prereq ensures Find(ranked, prereq) == Some(w) {
      FindsTheOne(ranked, w);
    }
  }

  // The weakest of the prerequisites that are weaker than the entry, the first one of a tie.
  function Weakest(ranked: seq<Entry>, prereqs: seq<Id>, e: Entry): Option<Entry> {
    if prereqs == [] then None
    else
      var before, last := Weakest(ranked, prereqs[..|prereqs| - 1], e), prereqs[|prereqs| - 1];
      if Gates(ranked, last, e) && (before.None? || Find(ranked, last).value.ability < before.value.ability) then
        Find(ranked, last)
      else
        before
  }

  lemma {:induction false} WeakestIsWeakest(ranked: seq<Entry>, prereqs: seq<Id>, e: Entry)
    ensures Weakest(ranked, prereqs, e).None? <==> forall p :: p in prereqs ==> !Gates(ranked, p, e)
    ensures var w := Weakest(ranked, prereqs, e);
            w.Some? ==> w.value in ranked && w.value.concept in prereqs && w.value.ability < e.ability
                        && forall p :: p in prereqs && Gates(ranked, p, e) ==>
                                  w.value.ability <= Find(ranked, p).value.ability
  {
    if prereqs != [] {
      var front, last := prereqs[..|prereqs| - 1], prereqs[|prereqs| - 1];
      WeakestIsWeakest(ranked, front, e);
      FindFinds(ranked, last);
      assert prereqs == front + [last];
    }
  }

  // Of equally weak ones it is the first.
  lemma {:induction false} WeakestIsFirst(ranked: seq<Entry>, prereqs: seq<Id>, e: Entry)
    ensures var w := Weakest(ranked, prereqs, e);
            w.Some? ==> exists k :: 0 <= k < |prereqs| && prereqs[k] == w.value.concept
                          && forall j :: 0 <= j < k && Gates(ranked, prereqs[j], e) ==>
                               w.value.ability < Find(ranked, prereqs[j]).value.ability
  {
    if prereqs != [] {
      var front, last := prereqs[..|prereqs| - 1], |prereqs| - 1;
      WeakestIsFirst(ranked, front, e);
      WeakestIsWeakest(ranked, front, e);
      FindFinds(ranked, prereqs[last]);
      var before, w := Weakest(ranked, front, e), Weakest(ranked, prereqs, e);
      if w.Some? && w == before {
        var k :| 0 <= k < |front| && front[k] == w.value.concept
          && forall j :: 0 <= j < k && Gates(ranked, front[j], e) ==>
               w.value.ability < Find(ranked, front[j]).value.ability;
        assert prereqs[k] == front[k] && forall j :: 0 <= j < k ==> prereqs[j] == front[j];
      } else if w.Some? {
        assert prereqs[last] == w.value.concept;
        forall j | 0 <= j < last && Gates(ranked, prereqs[j], e)
          ensures w.value.ability < Find(ranked, prereqs[j]).value.ability
        {
          assert front[j] == prereqs[j] && front[j] in front;
        }
      }
    }
  }

  function PrereqsOf(corpus: Corpus, concept: Id): seq<Id> {
    if concept in corpus.prereqs then corpus.prereqs[concept] else []
  }

  predicate Serveable(corpus: Corpus, concept: Id) {
    Pool(corpus.items, concept) != []
  }

  function Substitution(corpus: Corpus, e: Entry): (Id, Note) {
    var weakest := Weakest(corpus.ranked, PrereqsOf(corpus, e.concept), e);
    if weakest.None? then (e.concept, Itself)
    else if !Serveable(corpus, weakest.value.concept) then (e.concept, Unserveable(weakest.value.concept))
    else (weakest.value.concept, SubstitutedFor(e.concept))
  }

  ghost predicate IsWeakestGate(corpus: Corpus, gate: Id, e: Entry) {
    && gate in PrereqsOf(corpus, e.concept)
    && exists w :: w in corpus.ranked && w.concept == gate && w.ability < e.ability
         && forall p :: p in PrereqsOf(corpus, e.concept) && Gates(corpus.ranked, p, e) ==>
                   w.ability <= Find(corpus.ranked, p).value.ability
  }

  // What a row's target is, in words a candidate could be given.
  ghost predicate Explained(corpus: Corpus, row: Row) {
    match row.note
    case Itself => row.target == row.asked.concept
      && forall p :: p in PrereqsOf(corpus, row.asked.concept) ==> !Gates(corpus.ranked, p, row.asked)
    case Unserveable(gate) => row.target == row.asked.concept
      && IsWeakestGate(corpus, gate, row.asked) && forall i :: i in corpus.items ==> i.primary != gate
    case SubstitutedFor(concept) => concept == row.asked.concept && IsWeakestGate(corpus, row.target, row.asked)
  }

  lemma SubstitutionExplained(corpus: Corpus, row: Row)
    requires (row.target, row.note) == Substitution(corpus, row.asked)
    ensures Explained(corpus, row)
  {
    var prereqs := PrereqsOf(corpus, row.asked.concept);
    WeakestIsWeakest(corpus.ranked, prereqs, row.asked);
    var weakest := Weakest(corpus.ranked, prereqs, row.asked);
    if weakest.Some? {
      assert IsWeakestGate(corpus, weakest.value.concept, row.asked);
      PoolMembers(corpus.items, weakest.value.concept);
      if !Serveable(corpus, weakest.value.concept) {
        forall i | i in corpus.items ensures i.primary != weakest.value.concept {
          assert i !in Pool(corpus.items, weakest.value.concept);
        }
      }
    }
  }

  // ---------------------------------------------------------------- the shortlist

  predicate Closer(a: Item, b: Item, band: Band) {
    Distance(a, band) < Distance(b, band) || (Distance(a, band) == Distance(b, band) && a.id < b.id)
  }

  function Best(pool: seq<Item>, band: Band): Item
    requires pool != []
  {
    if |pool| == 1 then pool[0]
    else
      var before, last := Best(pool[..|pool| - 1], band), pool[|pool| - 1];
      if Closer(last, before, band) then last else before
  }

  // At most as far from the band, and of two as far the one with the smaller id.
  ghost predicate NoFarther(a: Item, b: Item, band: Band) {
    var x, y := BandDistance(a.expected, band), BandDistance(b.expected, band);
    x < y || (x == y && a.id <= b.id)
  }

  lemma {:induction false} BestIsClosest(pool: seq<Item>, band: Band)
    requires pool != []
    ensures Best(pool, band) in pool && forall i :: i in pool ==> NoFarther(Best(pool, band), i, band)
  {
    if |pool| > 1 {
      BestIsClosest(pool[..|pool| - 1], band);
      assert pool == pool[..|pool| - 1] + [pool[|pool| - 1]];
    }
  }

  function Targets(rows: seq<Row>): set<Id> {
    set row | row in rows :: row.target
  }

  function RowFor(corpus: Corpus, e: Entry): Row
    requires Serveable(corpus, Substitution(corpus, e).0)
  {
    var (target, note) := Substitution(corpus, e);
    var item := Best(Pool(corpus.items, target), corpus.band);
    var ranked := Find(corpus.ranked, target);
    Row(if ranked.Some? then ranked.value.priority else e.priority, Distance(item, corpus.band), target, item, e, note)
  }

  function WithEntry(corpus: Corpus, rows: seq<Row>, e: Entry): seq<Row> {
    var target := Substitution(corpus, e).0;
    if target in Targets(rows) || !Serveable(corpus, target) then rows else rows + [RowFor(corpus, e)]
  }

  function Shortlist(corpus: Corpus, entries: seq<Entry>): seq<Row> {
    if entries == [] then []
    else WithEntry(corpus, Shortlist(corpus, entries[..|entries| - 1]), entries[|entries| - 1])
  }

  method MakeShortlist(corpus: Corpus) returns (rows: seq<Row>)
    ensures rows == Shortlist(corpus, corpus.ranked)
  {
    hide Substitution, Weakest, Pool, Best, Find;
    rows := [];
    var seen: set<Id>, i := {}, 0;
    while i < |corpus.ranked|
      invariant 0 <= i <= |corpus.ranked|
      invariant rows == Shortlist(corpus, corpus.ranked[..i]) && seen == Targets(rows)
    {
      var e := corpus.ranked[i];
      assert corpus.ranked[..i + 1][..i] == corpus.ranked[..i];
      i := i + 1;
      var target := Substitution(corpus, e).0;
      if target in seen || !Serveable(corpus, target) {
        continue;
      }
      seen := seen + {target};
      rows := rows + [RowFor(corpus, e)];
    }
    assert corpus.ranked[..i] == corpus.ranked;
  }

  // A row's item measures its target as a primary concept, and none that does is closer to
  // the band.
  ghost predicate Served(corpus: Corpus, row: Row) {
    && row.item in corpus.items && row.item.primary == row.target
    && row.distance == BandDistance(row.item.expected, corpus.band)
    && forall i :: i in corpus.items && i.primary == row.target ==> NoFarther(row.item, i, corpus.band)
  }

  // A row is as urgent as its target is, not as the concept it was asked for.
  ghost predicate RanksAs(corpus: Corpus, row: Row) {
    exists w :: w in corpus.ranked && w.concept == row.target && row.priority == w.priority
  }

  lemma RowForIsSound(corpus: Corpus, e: Entry)
    requires Serveable(corpus, Substitution(corpus, e).0) && e in corpus.ranked
    ensures SoundRow(corpus, RowFor(corpus, e))
  {
    var target := Substitution(corpus, e).0;
    FindFinds(corpus.ranked, target);
    WeakestIsWeakest(corpus.ranked, PrereqsOf(corpus, e.concept), e);
    assert RanksAs(corpus, RowFor(corpus, e)) by {
      assert Find(corpus.ranked, target).Some?;
      var w := Find(corpus.ranked, target).value;
      assert w in corpus.ranked && w.concept == target;
    }
    PoolMembers(corpus.items, target);
    BestIsClosest(Pool(corpus.items, target), corpus.band);
    SubstitutionExplained(corpus, RowFor(corpus, e));
  }

  ghost predicate DistinctTargets(rows: seq<Row>) {
    forall j, k :: 0 <= j < k < |rows| ==> rows[j].target != rows[k].target
  }

  ghost predicate SoundRow(corpus: Corpus, row: Row) {
    row.asked in corpus.ranked && Served(corpus, row) && Explained(corpus, row) && RanksAs(corpus, row)
  }

  ghost predicate SoundRows(corpus: Corpus, rows: seq<Row>) {
    forall row :: row in rows ==> SoundRow(corpus, row)
  }

  lemma WithEntryKeeps(corpus: Corpus, rows: seq<Row>, e: Entry)
    requires DistinctTargets(rows) && SoundRows(corpus, rows) && e in corpus.ranked
    ensures DistinctTargets(WithEntry(corpus, rows, e)) && SoundRows(corpus, WithEntry(corpus, rows, e))
  {
    if WithEntry(corpus, rows, e) != rows {
      RowForIsSound(corpus, e);
      assert SoundRow(corpus, RowFor(corpus, e));
      assert forall k :: 0 <= k < |rows| ==> rows[k].target in Targets(rows);
    }
  }

  lemma {:induction false} ShortlistIsSound(corpus: Corpus, entries: seq<Entry>)
    requires forall e :: e in entries ==> e in corpus.ranked
    ensures DistinctTargets(Shortlist(corpus, entries)) && SoundRows(corpus, Shortlist(corpus, entries))
  {
    if entries != [] {
      ShortlistIsSound(corpus, entries[..|entries| - 1]);
      WithEntryKeeps(corpus, Shortlist(corpus, entries[..|entries| - 1]), entries[|entries| - 1]);
    }
  }

  ghost predicate Measures(items: seq<Item>, concept: Id) {
    exists i :: i in items && i.primary == concept
  }

  ghost predicate Targeted(rows: seq<Row>, concept: Id) {
    exists row :: row in rows && row.target == concept
  }

  // A ranked concept is on the list: itself where nothing gates it, else through its weakest
  // gate, or itself again where no item measures that.
  ghost predicate IsCovered(corpus: Corpus, rows: seq<Row>, e: Entry) {
    if forall p :: p in PrereqsOf(corpus, e.concept) ==> !Gates(corpus.ranked, p, e) then
      Measures(corpus.items, e.concept) ==> Targeted(rows, e.concept)
    else
      exists gate :: IsWeakestGate(corpus, gate, e) &&
        if Measures(corpus.items, gate) then Targeted(rows, gate)
        else Measures(corpus.items, e.concept) ==> Targeted(rows, e.concept)
  }

  lemma MeasuresMeans(corpus: Corpus, concept: Id)
    ensures Serveable(corpus, concept) <==> Measures(corpus.items, concept)
  {
    PoolMembers(corpus.items, concept);
    if Serveable(corpus, concept) {
      assert Pool(corpus.items, concept)[0] in Pool(corpus.items, concept);
    }
  }

  lemma WithEntryCovers(corpus: Corpus, rows: seq<Row>, e: Entry)
    requires e in corpus.ranked
    ensures rows <= WithEntry(corpus, rows, e) && IsCovered(corpus, WithEntry(corpus, rows, e), e)
  {
    var after, target := WithEntry(corpus, rows, e), Substitution(corpus, e).0;
    if Serveable(corpus, target) {
      assert Targeted(after, target) by {
        if after != rows {
          assert RowFor(corpus, e) in after && RowFor(corpus, e).target == target;
        } else {
          var row :| row in rows && row.target == target;
        }
      }
    }
    MeasuresMeans(corpus, e.concept);
    var weakest := Weakest(corpus.ranked, PrereqsOf(corpus, e.concept), e);
    WeakestIsWeakest(corpus.ranked, PrereqsOf(corpus, e.concept), e);
    if weakest.Some? {
      MeasuresMeans(corpus, weakest.value.concept);
      assert IsWeakestGate(corpus, weakest.value.concept, e);
    }
  }

  // Rows are only ever added: a target stays with the first entry that asked for it.
  lemma {:induction false} ShortlistGrows(corpus: Corpus, entries: seq<Entry>, k: nat)
    requires k <= |entries|
    ensures Shortlist(corpus, entries[..k]) <= Shortlist(corpus, entries)
  {
    if k == |entries| {
      assert entries[..k] == entries;
    } else {
      assert entries[..|entries| - 1][..k] == entries[..k];
      ShortlistGrows(corpus, entries[..|entries| - 1], k);
    }
  }

  lemma CoverStays(corpus: Corpus, rows: seq<Row>, more: seq<Row>, e: Entry)
    requires IsCovered(corpus, rows, e) && rows <= more
    ensures IsCovered(corpus, more, e)
  {
    forall concept | Targeted(rows, concept) ensures Targeted(more, concept) {
      var row :| row in rows && row.target == concept;
      assert row in more;
    }
  }

  // No ranked concept is forgotten.
  lemma ShortlistCovers(corpus: Corpus, k: nat)
    requires k < |corpus.ranked|
    ensures IsCovered(corpus, Shortlist(corpus, corpus.ranked), corpus.ranked[k])
  {
    var upTo := corpus.ranked[..k + 1];
    assert upTo[..k] == corpus.ranked[..k] && upTo[k] == corpus.ranked[k];
    WithEntryCovers(corpus, Shortlist(corpus, corpus.ranked[..k]), corpus.ranked[k]);
    ShortlistGrows(corpus, corpus.ranked, k + 1);
    CoverStays(corpus, Shortlist(corpus, upTo), Shortlist(corpus, corpus.ranked), corpus.ranked[k]);
  }

  // ---------------------------------------------------------------- the order

  predicate Before(a: Row, b: Row) {
    || a.priority > b.priority
    || (a.priority == b.priority && (a.distance < b.distance || (a.distance == b.distance && a.item.id < b.item.id)))
  }

  function SortRows(rows: seq<Row>): seq<Row> {
    SortBy(Before, rows)
  }

  // The most urgent first; of equally urgent ones the closest to the band, then by id.
  ghost predicate InOrder(rows: seq<Row>) {
    forall i, j :: 0 <= i < j < |rows| ==>
      || rows[i].priority > rows[j].priority
      || (rows[i].priority == rows[j].priority
          && (rows[i].distance < rows[j].distance
              || (rows[i].distance == rows[j].distance && rows[i].item.id <= rows[j].item.id)))
  }

  // ---------------------------------------------------------------- the fill

  function Total(rows: seq<Row>): nat {
    if rows == [] then 0 else Total(rows[..|rows| - 1]) + Minutes(rows[|rows| - 1].item)
  }

  // A plan's length: what each item declares, or 20 minutes where it declares nothing.
  lemma TotalMeans(rows: seq<Row>, row: Row)
    ensures Total([]) == 0
    ensures Total(rows + [row]) == Total(rows) + if row.item.declared > 0 then row.item.declared else 20
  {
    assert (rows + [row])[..|rows|] == rows;
  }

  predicate IsReview(review: Option<Item>, row: Row) {
    review.Some? && row.item.id == review.value.id
  }

  predicate Takes(chosen: seq<Row>, row: Row, review: Option<Item>, budget: nat) {
    !IsReview(review, row) && (chosen == [] || Total(chosen) + Minutes(row.item) <= budget)
  }

  // Every row that still fits when its turn comes, and the first one in any case.
  function Greedy(rows: seq<Row>, review: Option<Item>, budget: nat): seq<Row> {
    if rows == [] then []
    else
      var chosen := Greedy(rows[..|rows| - 1], review, budget);
      if Takes(chosen, rows[|rows| - 1], review, budget) then chosen + [rows[|rows| - 1]] else chosen
  }

  // Once the budget is spent nothing more fits, so the loop may stop.
  lemma {:induction false} SpentTakesNothing(rows: seq<Row>, i: nat, review: Option<Item>, budget: nat)
    requires i <= |rows|
    requires var chosen := Greedy(rows[..i], review, budget); chosen != [] && Total(chosen) >= budget
    ensures Greedy(rows, review, budget) == Greedy(rows[..i], review, budget)
  {
    if i < |rows| {
      var front := rows[..|rows| - 1];
      assert front[..i] == rows[..i];
      SpentTakesNothing(front, i, review, budget);
    } else {
      assert rows[..i] == rows;
    }
  }

  method Fill(rows: seq<Row>, review: Option<Item>, budget: nat) returns (chosen: seq<Row>, spent: nat)
    ensures chosen == Greedy(rows, review, budget) && spent == Total(chosen)
  {
    chosen, spent := [], 0;
    var i := 0;
    while i < |rows|
      invariant 0 <= i <= |rows|
      invariant chosen == Greedy(rows[..i], review, budget) && spent == Total(chosen)
    {
      var row := rows[i];
      assert rows[..i + 1][..i] == rows[..i];
      if IsReview(review, row) {
        i := i + 1;
        continue;
      }
      if spent >= budget && chosen != [] {
        SpentTakesNothing(rows, i, review, budget);
        return;
      }
      i := i + 1;
      if chosen != [] && spent + Minutes(row.item) > budget {
        continue;
      }
      assert (chosen + [row])[..|chosen|] == chosen;
      spent := spent + Minutes(row.item);
      chosen := chosen + [row];
    }
    assert rows[..i] == rows;
  }

  ghost predicate Subsequence(chosen: seq<Row>, rows: seq<Row>) {
    if chosen == [] then true
    else if rows == [] then false
    else
      var front := rows[..|rows| - 1];
      || (chosen[|chosen| - 1] == rows[|rows| - 1] && Subsequence(chosen[..|chosen| - 1], front))
      || Subsequence(chosen, front)
  }

  lemma {:induction false} GreedyIsSubsequence(rows: seq<Row>, review: Option<Item>, budget: nat)
    ensures Subsequence(Greedy(rows, review, budget), rows)
  {
    if rows != [] {
      GreedyIsSubsequence(rows[..|rows| - 1], review, budget);
      var before := Greedy(rows[..|rows| - 1], review, budget);
      if Takes(before, rows[|rows| - 1], review, budget) {
        assert (before + [rows[|rows| - 1]])[..|before|] == before;
      }
    }
  }

  // The first item may be over the budget, whatever it is; nothing else makes it so.
  lemma {:induction false} GreedyWithinBudget(rows: seq<Row>, review: Option<Item>, budget: nat)
    ensures var chosen := Greedy(rows, review, budget);
            Total(chosen) <= budget || (|chosen| == 1 && Total(chosen) == Minutes(chosen[0].item))
  {
    if rows != [] {
      GreedyWithinBudget(rows[..|rows| - 1], review, budget);
      var before := Greedy(rows[..|rows| - 1], review, budget);
      assert (before + [rows[|rows| - 1]])[..|before|] == before;
    }
  }

  lemma {:induction false} GreedyGrows(rows: seq<Row>, i: nat, review: Option<Item>, budget: nat)
    requires i <= |rows|
    ensures Greedy(rows[..i], review, budget) <= Greedy(rows, review, budget)
    ensures Total(Greedy(rows[..i], review, budget)) <= Total(Greedy(rows, review, budget))
  {
    if i < |rows| {
      var front := rows[..|rows| - 1];
      assert front[..i] == rows[..i];
      GreedyGrows(front, i, review, budget);
      var before := Greedy(front, review, budget);
      assert (before + [rows[|rows| - 1]])[..|before|] == before;
    } else {
      assert rows[..i] == rows;
    }
  }

  // A row that was passed over would not fit in what is left.
  lemma GreedyIsMaximal(rows: seq<Row>, review: Option<Item>, budget: nat, row: Row)
    requires row in rows && row !in Greedy(rows, review, budget) && !IsReview(review, row)
    ensures Total(Greedy(rows, review, budget)) + Minutes(row.item) > budget
  {
    var i :| 0 <= i < |rows| && rows[i] == row;
    assert rows[..i + 1][..i] == rows[..i];
    GreedyGrows(rows, i + 1, review, budget);
    GreedyGrows(rows, i, review, budget);
  }

  lemma {:induction false} GreedyMembers(rows: seq<Row>, review: Option<Item>, budget: nat)
    ensures forall row :: row in Greedy(rows, review, budget) ==> row in rows && !IsReview(review, row)
  {
    if rows != [] {
      GreedyMembers(rows[..|rows| - 1], review, budget);
      assert rows == rows[..|rows| - 1] + [rows[|rows| - 1]];
    }
  }

  ghost predicate DistinctItems(rows: seq<Row>) {
    forall j, k :: 0 <= j < k < |rows| ==> rows[j].item.id != rows[k].item.id
  }

  lemma {:induction false} GreedyIsDistinct(rows: seq<Row>, review: Option<Item>, budget: nat)
    requires DistinctItems(rows)
    ensures DistinctItems(Greedy(rows, review, budget))
  {
    if rows != [] {
      var front, last := rows[..|rows| - 1], rows[|rows| - 1];
      GreedyIsDistinct(front, review, budget);
      GreedyMembers(front, review, budget);
      forall row | row in front ensures row.item.id != last.item.id {
      }
    }
  }

  // ---------------------------------------------------------------- the plan

  // The first item of the first concept that is due and that an item measures.
  function ReviewItem(items: seq<Item>, due: seq<Id>): Option<Item> {
    if due == [] then None
    else if Pool(items, due[0]) != [] then Some(Pool(items, due[0])[0])
    else ReviewItem(items, due[1..])
  }

  datatype Plan = Plan(weaknesses: seq<Row>, review: Option<Item>, minutes: nat)

  function Reserved(review: Option<Item>): nat {
    if review.Some? then Minutes(review.value) else 0
  }

  function WeaknessBudget(review: Option<Item>, budget: nat): nat {
    if Reserved(review) > budget then 0 else budget - Reserved(review)
  }

  function BuildPlan(corpus: Corpus, due: seq<Id>, budget: nat): Plan {
    var review := ReviewItem(corpus.items, due);
    var chosen := Greedy(SortRows(Shortlist(corpus, corpus.ranked)), review, WeaknessBudget(review, budget));
    if review.Some? && Total(chosen) + Reserved(review) <= budget then
      Plan(chosen, review, Total(chosen) + Reserved(review))
    else
      Plan(chosen, None, Total(chosen))
  }

  method MakePlan(corpus: Corpus, due: seq<Id>, budget: nat) returns (plan: Plan)
    ensures plan == BuildPlan(corpus, due, budget)
  {
    var rows := MakeShortlist(corpus);
    var review := ReviewItem(corpus.items, due);
    var chosen, spent := Fill(SortRows(rows), review, WeaknessBudget(review, budget));
    if review.Some? && spent + Reserved(review) <= budget {
      plan := Plan(chosen, review, spent + Reserved(review));
    } else {
      plan := Plan(chosen, None, spent);
    }
  }

  ghost predicate FirstServeable(items: seq<Item>, due: seq<Id>, k: nat) {
    k < |due| && Pool(items, due[k]) != [] && forall j :: 0 <= j < k ==> Pool(items, due[j]) == []
  }

  // There is a review item whenever an item measures a due concept: the first item of the
  // first such concept.
  lemma {:induction false} ReviewIsDue(items: seq<Item>, due: seq<Id>)
    ensures ReviewItem(items, due).None? <==> forall c :: c in due ==> Pool(items, c) == []
    ensures forall k :: 0 <= k < |due| && FirstServeable(items, due, k) ==>
              ReviewItem(items, due) == Some(Pool(items, due[k])[0])
    ensures ReviewItem(items, due).Some? ==> exists k :: 0 <= k < |due| && FirstServeable(items, due, k)
  {
    hide Pool;
    if due != [] {
      if Pool(items, due[0]) == [] {
        var rest := due[1..];
        ReviewIsDue(items, rest);
        assert due == [due[0]] + rest;
        forall k | 0 <= k < |due| && FirstServeable(items, due, k) ensures k > 0 && FirstServeable(items, rest, k - 1) {
          assert forall j :: 0 <= j < k - 1 ==> rest[j] == due[j + 1];
        }
        if k :| 0 <= k < |rest| && FirstServeable(items, rest, k) {
          assert FirstServeable(items, due, k + 1) by {
            assert forall j :: 0 < j <= k ==> due[j] == rest[j - 1];
          }
        }
      } else {
        assert due[0] in due && FirstServeable(items, due, 0);
      }
    }
  }

  // The item reviewed: the first of those on the first due concept that any item measures.
  ghost predicate IsFirstDue(items: seq<Item>, due: seq<Id>, k: int, j: int) {
    && 0 <= k < |due| && FirstOn(items, due[k], j)
    && forall c, i :: 0 <= c < k && i in items ==> i.primary != due[c]
  }

  lemma FirstDueIsReviewed(items: seq<Item>, due: seq<Id>)
    ensures forall k, j :: IsFirstDue(items, due, k, j) ==> ReviewItem(items, due) == Some(items[j])
    ensures ReviewItem(items, due).None? <==> forall i, c :: i in items && c in due ==> i.primary != c
  {
    ReviewIsDue(items, due);
    forall c ensures Pool(items, c) == [] <==> forall i :: i in items ==> i.primary != c {
      PoolStarts(items, c);
    }
    hide Pool, ReviewItem;
    forall k, j | IsFirstDue(items, due, k, j) ensures ReviewItem(items, due) == Some(items[j]) {
      PoolStarts(items, due[k]);
      assert forall c :: 0 <= c < k ==> Pool(items, due[c]) == [];
      assert FirstServeable(items, due, k);
    }
  }

  // A plan's minutes are those of its items, and are over the budget only when its one item
  // is longer than the budget.
  lemma PlanWithinBudget(corpus: Corpus, due: seq<Id>, budget: nat)
    ensures var plan := BuildPlan(corpus, due, budget);
            plan.minutes == Total(plan.weaknesses) + Reserved(plan.review)
    ensures var plan := BuildPlan(corpus, due, budget);
            plan.minutes <= budget
            || (|plan.weaknesses| == 1 && plan.review.None? && plan.minutes == Minutes(plan.weaknesses[0].item))
  {
    var review := ReviewItem(corpus.items, due);
    GreedyWithinBudget(SortRows(Shortlist(corpus, corpus.ranked)), review, WeaknessBudget(review, budget));
  }

  ghost predicate IdsTellItemsApart(items: seq<Item>) {
    forall j, k :: 0 <= j < k < |items| ==> items[j].id != items[k].id
  }

  lemma SortedShortlist(corpus: Corpus)
    ensures var rows := SortRows(Shortlist(corpus, corpus.ranked));
            DistinctTargets(rows) && InOrder(rows) && SoundRows(corpus, rows)
  {
    var shortlist := Shortlist(corpus, corpus.ranked);
    ShortlistIsSound(corpus, corpus.ranked);
    SortSorts(Before, shortlist);
    SortPermutes(Before, shortlist);
    SortMembers(Before, shortlist);
    SameRowsSameTargets(shortlist, SortRows(shortlist));
  }

  lemma TargetTwice(rows: seq<Row>, j: nat, k: nat)
    requires j < k < |rows| && rows[j].target == rows[k].target
    ensures rows[j] == rows[k] ==> multiset(rows)[rows[j]] >= 2
  {
    assert rows == rows[..k] + [rows[k]] + rows[k + 1..];
    assert rows[j] in rows[..k];
    assert rows[j] in multiset(rows[..k]);
  }

  lemma OnceEach(rows: seq<Row>, row: Row)
    requires DistinctTargets(rows)
    ensures multiset(rows)[row] <= 1
  {
    if row in multiset(rows) {
      var i :| 0 <= i < |rows| && rows[i] == row;
      assert rows == rows[..i] + [rows[i]] + rows[i + 1..];
      assert row !in rows[..i] && row !in rows[i + 1..];
      assert row !in multiset(rows[..i]) && row !in multiset(rows[i + 1..]);
    }
  }

  lemma TargetNamesRow(rows: seq<Row>, a: Row, b: Row)
    requires DistinctTargets(rows) && a in rows && b in rows && a.target == b.target
    ensures a == b
  {
  }

  lemma SameRowsSameTargets(rows: seq<Row>, sorted: seq<Row>)
    requires DistinctTargets(rows) && multiset(rows) == multiset(sorted)
    ensures DistinctTargets(sorted)
  {
    forall j, k | 0 <= j < k < |sorted| ensures sorted[j].target != sorted[k].target {
      if sorted[j].target == sorted[k].target {
        assert sorted[j] in multiset(rows) && sorted[k] in multiset(rows);
        TargetNamesRow(rows, sorted[j], sorted[k]);
        TargetTwice(sorted, j, k);
        OnceEach(rows, sorted[j]);
      }
    }
  }

  // No item is in a plan twice, and none is both drilled and reviewed.
  lemma PlanIsDistinct(corpus: Corpus, due: seq<Id>, budget: nat)
    requires IdsTellItemsApart(corpus.items)
    ensures var plan := BuildPlan(corpus, due, budget);
            && DistinctItems(plan.weaknesses)
            && (plan.review.Some? ==> forall row :: row in plan.weaknesses ==> row.item.id != plan.review.value.id)
  {
    var rows := SortRows(Shortlist(corpus, corpus.ranked));
    var review := ReviewItem(corpus.items, due);
    SortedShortlist(corpus);
    forall j, k | 0 <= j < k < |rows| ensures rows[j].item.id != rows[k].item.id {
      assert SoundRow(corpus, rows[j]) && SoundRow(corpus, rows[k]) && rows[j].target != rows[k].target;
      assert rows[j].item in corpus.items && rows[k].item in corpus.items && rows[j].item != rows[k].item;
    }
    GreedyIsDistinct(rows, review, WeaknessBudget(review, budget));
    GreedyMembers(rows, review, WeaknessBudget(review, budget));
  }

  // The weaknesses are served in the order of the shortlist, each for a reason that holds.
  lemma PlanFollowsShortlist(corpus: Corpus, due: seq<Id>, budget: nat)
    ensures var plan, rows := BuildPlan(corpus, due, budget), SortRows(Shortlist(corpus, corpus.ranked));
            InOrder(rows) && Subsequence(plan.weaknesses, rows) && SoundRows(corpus, plan.weaknesses)
  {
    var review := ReviewItem(corpus.items, due);
    SortedShortlist(corpus);
    GreedyIsSubsequence(SortRows(Shortlist(corpus, corpus.ranked)), review, WeaknessBudget(review, budget));
    GreedyMembers(SortRows(Shortlist(corpus, corpus.ranked)), review, WeaknessBudget(review, budget));
  }

  // What was left out would not have fitted beside what was taken and the reserved review.
  lemma PlanIsMaximal(corpus: Corpus, due: seq<Id>, budget: nat, row: Row)
    requires var review := ReviewItem(corpus.items, due);
             && row in Shortlist(corpus, corpus.ranked) && !IsReview(review, row)
             && row !in BuildPlan(corpus, due, budget).weaknesses
    ensures var review := ReviewItem(corpus.items, due);
            Total(BuildPlan(corpus, due, budget).weaknesses) + Minutes(row.item) > WeaknessBudget(review, budget)
  {
    var review := ReviewItem(corpus.items, due);
    var shortlist := Shortlist(corpus, corpus.ranked);
    SortMembers(Before, shortlist);
    GreedyIsMaximal(SortRows(shortlist), review, WeaknessBudget(review, budget), row);
  }

  ghost predicate UsesBudget(corpus: Corpus, plan: Plan, review: Option<Item>, budget: nat) {
    forall row :: row in Shortlist(corpus, corpus.ranked) && !IsReview(review, row) && row !in plan.weaknesses ==>
      plan.minutes + Minutes(row.item) > budget
  }

  // With its review, or with none to find, a plan leaves nothing out that the whole budget
  // has room for.
  lemma PlanUsesBudget(corpus: Corpus, due: seq<Id>, budget: nat)
    requires BuildPlan(corpus, due, budget).review == ReviewItem(corpus.items, due)
    ensures UsesBudget(corpus, BuildPlan(corpus, due, budget), ReviewItem(corpus.items, due), budget)
  {
    hide Shortlist, ReviewItem, Greedy, SortRows;
    var plan, review := BuildPlan(corpus, due, budget), ReviewItem(corpus.items, due);
    forall row | row in Shortlist(corpus, corpus.ranked) && !IsReview(review, row) && row !in plan.weaknesses
      ensures plan.minutes + Minutes(row.item) > budget
    {
      PlanIsMaximal(corpus, due, budget, row);
    }
  }

  // The first row the fill may take is taken.
  lemma {:induction false} GreedyStarts(rows: seq<Row>, review: Option<Item>, budget: nat)
    ensures var chosen := Greedy(rows, review, budget);
            if chosen == [] then forall row :: row in rows ==> IsReview(review, row)
            else exists i :: 0 <= i < |rows| && StartsAt(rows, review, i) && chosen[0] == rows[i]
  {
    if rows != [] {
      var front, last := rows[..|rows| - 1], |rows| - 1;
      GreedyStarts(front, review, budget);
      var before := Greedy(front, review, budget);
      if before == [] {
        assert rows == front + [rows[last]];
        if !IsReview(review, rows[last]) {
          assert forall j :: 0 <= j < last ==> rows[j] == front[j];
          assert StartsAt(rows, review, last);
        }
      } else {
        var i :| 0 <= i < |front| && StartsAt(front, review, i) && before[0] == front[i];
        assert StartsAt(rows, review, i) by {
          assert forall j :: 0 <= j <= i ==> rows[j] == front[j];
        }
      }
    }
  }

  ghost predicate StartsAt(rows: seq<Row>, review: Option<Item>, i: nat) {
    i < |rows| && !IsReview(review, rows[i]) && forall j :: 0 <= j < i ==> IsReview(review, rows[j])
  }

  // The review is dropped exactly when it is longer than the budget or the first item is
  // longer than what it leaves, and then that item is all there is.
  lemma ReviewIsDroppedIff(corpus: Corpus, due: seq<Id>, budget: nat)
    requires ReviewItem(corpus.items, due).Some?
    ensures var plan, review := BuildPlan(corpus, due, budget), ReviewItem(corpus.items, due);
            var rows := SortRows(Shortlist(corpus, corpus.ranked));
            && (plan.review.None? <==>
                  || Minutes(review.value) > budget
                  || exists i :: 0 <= i < |rows| && StartsAt(rows, review, i)
                       && Minutes(rows[i].item) > budget - Minutes(review.value))
            && (plan.review.None? ==>
                  || (plan.weaknesses == [] && forall row :: row in rows ==> IsReview(review, row))
                  || exists i :: 0 <= i < |rows| && StartsAt(rows, review, i) && plan.weaknesses == [rows[i]])
  {
    hide Shortlist, ReviewItem, Greedy, SortRows;
    var plan, review := BuildPlan(corpus, due, budget), ReviewItem(corpus.items, due);
    var rows := SortRows(Shortlist(corpus, corpus.ranked));
    var beside := WeaknessBudget(review, budget);
    var chosen := Greedy(rows, review, beside);
    GreedyStarts(rows, review, beside);
    GreedyWithinBudget(rows, review, beside);
    TotalAtLeastFirst(chosen);
    forall i, j | StartsAt(rows, review, i) && StartsAt(rows, review, j) ensures i == j {
    }
    if chosen != [] {
      var i :| 0 <= i < |rows| && StartsAt(rows, review, i) && chosen[0] == rows[i];
      if |chosen| == 1 {
        assert chosen == [rows[i]];
      }
    } else {
      assert forall i :: 0 <= i < |rows| ==> rows[i] in rows;
    }
  }

  lemma {:induction false} TotalAtLeastFirst(rows: seq<Row>)
    ensures rows != [] ==> Total(rows) >= Minutes(rows[0].item) && Total(rows) >= |rows|
  {
    if |rows| > 1 {
      TotalAtLeastFirst(rows[..|rows| - 1]);
    }
  }

  // A dropped review can cost minutes: in a budget of 30, beside a review of 40 minutes, an
  // item of 20 is planned alone and one of 10 is left out.
  lemma DroppedReviewWastesMinutes(a: Id, b: Id, c: Id, low: real, high: real)
    requires a != b && b != c && c != a
    ensures var items := [Item(1, a, 20, low), Item(2, b, 10, low), Item(3, c, 40, low)];
            var corpus := Corpus([Entry(a, 2.0, 0.0), Entry(b, 1.0, 0.0)], map[], items, Band(low, high));
            var plan := BuildPlan(corpus, [c], 30);
            && ReviewItem(items, [c]) == Some(items[2]) && plan.review.None? && plan.minutes == 20
            && !UsesBudget(corpus, plan, Some(items[2]), 30)
  {
    var items := [Item(1, a, 20, low), Item(2, b, 10, low), Item(3, c, 40, low)];
    var corpus := Corpus([Entry(a, 2.0, 0.0), Entry(b, 1.0, 0.0)], map[], items, Band(low, high));
    ThreePools(items);
    var first := Row(2.0, Distance(items[0], corpus.band), a, items[0], corpus.ranked[0], Itself);
    var second := Row(1.0, Distance(items[1], corpus.band), b, items[1], corpus.ranked[1], Itself);
    assert Shortlist(corpus, corpus.ranked) == [first, second] by {
      TwoRows(corpus, first, second);
    }
    SortedAlready(first, second);
    TakesFirstAlone(first, second, Some(items[2]));
    assert second in Shortlist(corpus, corpus.ranked);
  }

  lemma ThreePools(items: seq<Item>)
    requires |items| == 3
    requires items[0].primary != items[1].primary && items[1].primary != items[2].primary
    requires items[2].primary != items[0].primary
    ensures forall k :: 0 <= k < 3 ==> Pool(items, items[k].primary) == [items[k]]
  {
    assert items[..2][..1] == items[..1] && items[..1][..0] == [];
    forall k | 0 <= k < 3 ensures Pool(items, items[k].primary) == [items[k]] {
      assert Pool(items[..1], items[k].primary) == if k == 0 then [items[0]] else [];
      assert Pool(items[..2], items[k].primary) == if k <= 1 then [items[k]] else [];
    }
  }

  lemma TwoRows(corpus: Corpus, first: Row, second: Row)
    requires corpus.prereqs == map[] && |corpus.ranked| == 2 && first.target != second.target
    requires corpus.ranked == [first.asked, second.asked]
    requires forall row :: row in [first, second] ==>
               && row.target == row.asked.concept && row.priority == row.asked.priority && row.note == Itself
               && row.distance == Distance(row.item, corpus.band) && Pool(corpus.items, row.target) == [row.item]
    ensures Shortlist(corpus, corpus.ranked) == [first, second]
  {
    var entries := corpus.ranked;
    assert first in [first, second] && second in [first, second];
    assert entries[..1] == [first.asked] && entries[..1][..0] == [];
    assert Find(entries[..1], second.target).None?;
    assert Find(entries, first.target) == Find(entries[..1], first.target) == Some(first.asked);
    assert Find(entries, second.target) == Some(second.asked);
    assert RowFor(corpus, first.asked) == first && RowFor(corpus, second.asked) == second;
    assert Shortlist(corpus, entries[..1]) == [first];
    assert second.target !in Targets([first]);
  }

  lemma SortedAlready(first: Row, second: Row)
    requires !Before(second, first)
    ensures SortRows([first, second]) == [first, second]
  {
    assert [first, second][..1] == [first] && [first][..0] == [];
    assert SortBy(Before, [first]) == [first];
  }

  lemma TakesFirstAlone(first: Row, second: Row, review: Option<Item>)
    requires !IsReview(review, first)
    ensures Greedy([first, second], review, 0) == [first] && Total([first]) == Minutes(first.item)
  {
    assert [first, second][..1] == [first] && [first][..0] == [];
    assert Greedy([first], review, 0) == [first];
    assert Total([]) == 0;
  }
}
