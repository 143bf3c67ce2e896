/**
  The practice log's list: newest first, a page at a time, from a cursor that is the last id
  of the page before. Ids sort by creation, so later rows have larger ones.
*/
module Paging {
  import opened Base

  datatype Row = Row(id: nat, status: Id, primary: Option<Id>, secondaries: seq<Id>)

  datatype Query = Query(concept: Option<Id>, status: Option<Id>)

  datatype Page = Page(rows: seq<Row>, next: Option<nat>)

  // ---------------------------------------------------------------- one page

  predicate HasStatus(row: Row, q: Query) {
    q.status.None? || row.status == q.status.value
  }

  predicate HasConcept(row: Row, q: Query) {
    q.concept.None? || row.primary == q.concept || q.concept.value in row.secondaries
  }

  predicate Below(row: Row, cursor: Option<nat>) {
    cursor.None? || row.id < cursor.value
  }

  // The rows the database is asked for; `table` is in descending order of id.
  function Selected(table: seq<Row>, q: Query, cursor: Option<nat>): seq<Row> {
    if table == [] then []
    else
      (if HasStatus(table[0], q) && Below(table[0], cursor) then [table[0]] else [])
      + Selected(table[1..], q, cursor)
  }

  function OfConcept(rows: seq<Row>, q: Query): seq<Row> {
    if rows == [] then [] else (if HasConcept(rows[0], q) then [rows[0]] else []) + OfConcept(rows[1..], q)
  }

  function Take(rows: seq<Row>, n: nat): seq<Row> {
    if |rows| <= n then rows else rows[..n]
  }

  // Whether there is a next page depends on what was fetched, not on what of it is shown.
  function Cut(fetched: seq<Row>, q: Query, limit: nat): Page {
    var page := Take(fetched, limit);
    Page(OfConcept(page, q), if |fetched| > limit && page != [] then Some(page[|page| - 1].id) else None)
  }

  function ListProblems(table: seq<Row>, q: Query, limit: nat, cursor: Option<nat>): Page {
    Cut(Take(Selected(table, q, cursor), limit + 1), q, limit)
  }

  // ---------------------------------------------------------------- the order of the table

  ghost predicate Descending(rows: seq<Row>) {
    forall i, j :: 0 <= i < j < |rows| ==> rows[i].id > rows[j].id
  }

  lemma {:induction false} SelectedMembers(table: seq<Row>, q: Query, cursor: Option<nat>)
    ensures forall row :: row in Selected(table, q, cursor) <==>
              && row in table && (q.status.None? || q.status == Some(row.status))
              && (cursor.None? || row.id < cursor.value)
  {
    if table != [] {
      SelectedMembers(table[1..], q, cursor);
      assert table == [table[0]] + table[1..];
    }
  }

  lemma DescendingCons(row: Row, rest: seq<Row>)
    requires Descending(rest) && forall r :: r in rest ==> row.id > r.id
    ensures Descending([row] + rest)
  {
    assert forall k :: 0 <= k < |rest| ==> rest[k] in rest;
  }

  lemma DescendingTail(rows: seq<Row>)
    requires Descending(rows) && rows != []
    ensures Descending(rows[1..]) && forall r :: r in rows[1..] ==> rows[0].id > r.id
  {
  }

  lemma {:induction false} SelectedDescends(table: seq<Row>, q: Query, cursor: Option<nat>)
    requires Descending(table)
    ensures Descending(Selected(table, q, cursor))
  {
    if table != [] {
      DescendingTail(table);
      SelectedDescends(table[1..], q, cursor);
      SelectedMembers(table[1..], q, cursor);
      DescendingCons(table[0], Selected(table[1..], q, cursor));
    }
  }

  lemma HeadAbove(table: seq<Row>, q: Query, id: nat)
    requires table != [] && table[0].id >= id
    ensures Selected(table, q, Some(id)) == Selected(table[1..], q, Some(id))
  {
  }

  lemma SelectedIsBelowHead(table: seq<Row>, q: Query, cursor: Option<nat>, k: nat)
    requires Descending(table) && table != [] && k < |Selected(table[1..], q, cursor)|
    ensures Selected(table[1..], q, cursor)[k].id < table[0].id
  {
    DescendingTail(table);
    SelectedMembers(table[1..], q, cursor);
    var row := Selected(table[1..], q, cursor)[k];
    assert row in Selected(table[1..], q, cursor);
  }

  lemma SelectedCons(table: seq<Row>, q: Query, cursor: Option<nat>)
    requires Selected(table, q, cursor) != []
    ensures table != []
    ensures var rest := Selected(table[1..], q, cursor);
            Selected(table, q, cursor) ==
                if HasStatus(table[0], q) && Below(table[0], cursor) then [table[0]] + rest else rest
  {
  }

  lemma AfterHead(head: Row, rest: seq<Row>, k: nat)
    requires 0 < k <= |rest|
    ensures ([head] + rest)[k] == rest[k - 1] && ([head] + rest)[k + 1..] == rest[k..]
  {
  }

  // Asking again from inside a selection gives what is left of it.
  lemma {:induction false} SelectedFrom(table: seq<Row>, q: Query, cursor: Option<nat>, k: nat)
    requires Descending(table) && k < |Selected(table, q, cursor)|
    ensures Selected(table, q, Some(Selected(table, q, cursor)[k].id)) == Selected(table, q, cursor)[k + 1..]
  {
    hide Selected, HasStatus, Descending;
    SelectedCons(table, q, cursor);
    DescendingTail(table);
    var head, rest := table[0], Selected(table[1..], q, cursor);
    if HasStatus(head, q) && Below(head, cursor) {
      if k == 0 {
        HeadAbove(table, q, head.id);
        AllBelow(table[1..], q, cursor, head.id);
      } else {
        AfterHead(head, rest, k);
        SelectedIsBelowHead(table, q, cursor, k - 1);
        HeadAbove(table, q, rest[k - 1].id);
        SelectedFrom(table[1..], q, cursor, k - 1);
      }
    } else {
      SelectedIsBelowHead(table, q, cursor, k);
      HeadAbove(table, q, rest[k].id);
      SelectedFrom(table[1..], q, cursor, k);
    }
  }

  lemma {:induction false} AllBelow(table: seq<Row>, q: Query, cursor: Option<nat>, id: nat)
    requires forall row :: row in table ==> row.id < id
    requires cursor.None? || id < cursor.value
    ensures Selected(table, q, Some(id)) == Selected(table, q, cursor)
  {
    if table != [] {
      assert forall row :: row in table[1..] ==> row in table;
      AllBelow(table[1..], q, cursor, id);
      assert table[0] in table;
    }
  }

  // Rows created since do not come back below an older cursor.
  lemma {:induction false} NewerRowsStayOut(newer: seq<Row>, table: seq<Row>, q: Query, cursor: nat)
    requires forall row :: row in newer ==> row.id >= cursor
    ensures Selected(newer + table, q, Some(cursor)) == Selected(table, q, Some(cursor))
  {
    if newer == [] {
      assert newer + table == table;
    } else {
      assert (newer + table)[1..] == newer[1..] + table;
      assert newer[0] in newer;
      NewerRowsStayOut(newer[1..], table, q, cursor);
    }
  }

  // ---------------------------------------------------------------- following the cursor

  ghost predicate Newer(rows: seq<Row>, table: seq<Row>) {
    forall row, older :: row in rows && older in table ==> row.id > older.id
  }

  // `newer(k)` are the rows created between the first request and request `k`.
  ghost predicate AllNewer(newer: nat -> seq<Row>, table: seq<Row>) {
    newer(0) == [] && forall k: nat :: Newer(newer(k), table)
  }

  ghost predicate Names(cursor: Option<nat>, table: seq<Row>) {
    cursor.Some? ==> exists row :: row in table && row.id == cursor.value
  }

  // What a client gathers that asks for the page after each cursor it is given.
  ghost function Follow(table: seq<Row>, newer: nat -> seq<Row>, q: Query, limit: nat, k: nat,
      cursor: Option<nat>): seq<Row>
    requires Descending(table) && AllNewer(newer, table) && limit > 0
    requires Names(cursor, table) && (cursor.None? ==> k == 0)
    decreases |Selected(table, q, cursor)|
  {
    var page := ListProblems(newer(k) + table, q, limit, cursor);
    PageIsPrefix(table, newer(k), q, limit, cursor);
    if page.next.None? then page.rows else page.rows + Follow(table, newer, q, limit, k + 1, page.next)
  }

  lemma CutIsPrefix(all: seq<Row>, q: Query, limit: nat)
    requires limit > 0
    ensures Cut(Take(all, limit + 1), q, limit) ==
            Page(OfConcept(Take(all, limit), q), if |all| > limit then Some(all[limit - 1].id) else None)
  {
    assert Take(Take(all, limit + 1), limit) == Take(all, limit);
  }

  lemma SelectedAlike(table: seq<Row>, newer: seq<Row>, q: Query, cursor: Option<nat>)
    requires Newer(newer, table) && Names(cursor, table) && (cursor.None? ==> newer == [])
    ensures Selected(newer + table, q, cursor) == Selected(table, q, cursor)
  {
    if cursor.None? {
      assert newer + table == table;
    } else {
      var row :| row in table && row.id == cursor.value;
      NewerRowsStayOut(newer, table, q, cursor.value);
    }
  }

  // A page depends on the old rows alone, and its cursor leaves fewer of them.
  lemma PageIsPrefix(table: seq<Row>, newer: seq<Row>, q: Query, limit: nat, cursor: Option<nat>)
    requires Descending(table) && Newer(newer, table) && limit > 0
    requires Names(cursor, table) && (cursor.None? ==> newer == [])
    ensures var page, all := ListProblems(newer + table, q, limit, cursor), Selected(table, q, cursor);
            && page.rows == OfConcept(Take(all, limit), q)
            && (page.next.None? <==> |all| <= limit)
            && (page.next.Some? ==> Names(page.next, table) && Selected(table, q, page.next) == all[limit..])
  {
    hide Selected, OfConcept, Descending, Newer, Cut, Take;
    var all := Selected(table, q, cursor);
    SelectedAlike(table, newer, q, cursor);
    CutIsPrefix(all, q, limit);
    if |all| > limit {
      SelectedFrom(table, q, cursor, limit - 1);
      SelectedMembers(table, q, cursor);
      assert all[limit - 1] in all;
    }
  }

  lemma {:induction false} OfConceptConcat(a: seq<Row>, b: seq<Row>, q: Query)
    ensures OfConcept(a + b, q) == OfConcept(a, q) + OfConcept(b, q)
  {
    if a == [] {
      assert a + b == b;
    } else {
      assert (a + b)[1..] == a[1..] + b;
      OfConceptConcat(a[1..], b, q);
    }
  }

  lemma {:induction false} FollowGathersRest(table: seq<Row>, newer: nat -> seq<Row>, q: Query, limit: nat,
      k: nat, cursor: Option<nat>)
    requires Descending(table) && AllNewer(newer, table) && limit > 0
    requires Names(cursor, table) && (cursor.None? ==> k == 0)
    ensures Follow(table, newer, q, limit, k, cursor) == OfConcept(Selected(table, q, cursor), q)
    decreases |Selected(table, q, cursor)|
  {
    hide Selected, ListProblems, OfConcept;
    var all := Selected(table, q, cursor);
    var page := ListProblems(newer(k) + table, q, limit, cursor);
    PageIsPrefix(table, newer(k), q, limit, cursor);
    if page.next.Some? {
      FollowGathersRest(table, newer, q, limit, k + 1, page.next);
      assert all == all[..limit] + all[limit..];
      OfConceptConcat(all[..limit], all[limit..], q);
    }
  }

  lemma {:induction false} OfConceptMembers(rows: seq<Row>, q: Query)
    ensures forall row :: row in OfConcept(rows, q) <==> row in rows && HasConcept(row, q)
  {
    if rows != [] {
      OfConceptMembers(rows[1..], q);
      assert rows == [rows[0]] + rows[1..];
    }
  }

  lemma {:induction false} OfConceptDescends(rows: seq<Row>, q: Query)
    requires Descending(rows)
    ensures Descending(OfConcept(rows, q))
  {
    if rows != [] {
      DescendingTail(rows);
      OfConceptDescends(rows[1..], q);
      OfConceptMembers(rows[1..], q);
      DescendingCons(rows[0], OfConcept(rows[1..], q));
    }
  }

  // From the first page on, whatever the page size and whatever is created meanwhile, the
  // pages together hold each row that matched at the start once, newest first, and no other.
  lemma EveryMatchIsListedOnce(table: seq<Row>, newer: nat -> seq<Row>, q: Query, limit: nat)
    requires Descending(table) && AllNewer(newer, table) && limit > 0
    ensures var listed := Follow(table, newer, q, limit, 0, None);
            && Descending(listed)
            && forall row :: row in listed <==>
                 && row in table && (q.status.None? || q.status == Some(row.status))
                 && (q.concept.None? || q.concept == row.primary || q.concept.value in row.secondaries)
  {
    FollowGathersRest(table, newer, q, limit, 0, None);
    SelectedMembers(table, q, None);
    SelectedDescends(table, q, None);
    OfConceptMembers(Selected(table, q, None), q);
    OfConceptDescends(Selected(table, q, None), q);
  }
}
