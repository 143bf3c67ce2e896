/**
  How applications get onto the board: a pasted list, completed by a research pass that may
  fail at any point and deduplicated against the board and itself, or one at a time by hand.
*/
module Import {
  import opened Base
  import opened Jobs

  const MAX_RESEARCH_ROUNDS := 6

  // ---------------------------------------------------------------- names

  predicate IsSpace(c: char) {
    c == ' ' || c == '\t' || c == '\n' || c == '\r'
  }

  function TrimLeft(s: string): string {
    if s != [] && IsSpace(s[0]) then TrimLeft(s[1..]) else s
  }

  function TrimRight(s: string): string {
    if s != [] && IsSpace(s[|s| - 1]) then TrimRight(s[..|s| - 1]) else s
  }

  function Trim(s: string): string {
    TrimRight(TrimLeft(s))
  }

  function LowerChar(c: char): char {
    if 'A' <= c <= 'Z' then c - 'A' + 'a' else c
  }

  function Lower(s: string): (t: string)
    ensures |t| == |s| && forall i :: 0 <= i < |s| ==> t[i] == LowerChar(s[i])
  {
    seq(|s|, i requires 0 <= i < |s| => LowerChar(s[i]))
  }

  lemma {:induction false} TrimLeftLower(s: string)
    ensures TrimLeft(Lower(s)) == Lower(TrimLeft(s))
  {
    if s != [] && IsSpace(s[0]) {
      TrimLeftLower(s[1..]);
      assert Lower(s)[1..] == Lower(s[1..]);
    }
  }

  lemma {:induction false} TrimRightLower(s: string)
    ensures TrimRight(Lower(s)) == Lower(TrimRight(s))
  {
    if s != [] && IsSpace(s[|s| - 1]) {
      TrimRightLower(s[..|s| - 1]);
      assert Lower(s)[..|s| - 1] == Lower(s[..|s| - 1]);
    }
  }

  lemma TrimLower(s: string)
    ensures Trim(Lower(s)) == Lower(Trim(s))
  {
    TrimLeftLower(s);
    TrimRightLower(TrimLeft(s));
  }

  predicate Bare(s: string) {
    s == [] || (!IsSpace(s[0]) && !IsSpace(s[|s| - 1]))
  }

  lemma {:induction false} TrimLeftBares(s: string)
    ensures TrimLeft(s) == [] || !IsSpace(TrimLeft(s)[0])
  {
    if s != [] && IsSpace(s[0]) {
      TrimLeftBares(s[1..]);
    }
  }

  lemma {:induction false} TrimRightBares(s: string)
    requires s == [] || !IsSpace(s[0])
    ensures Bare(TrimRight(s))
  {
    if s != [] && IsSpace(s[|s| - 1]) {
      TrimRightBares(s[..|s| - 1]);
    }
  }

  lemma TrimTwice(s: string)
    ensures Trim(Trim(s)) == Trim(s)
  {
    TrimLeftBares(s);
    TrimRightBares(TrimLeft(s));
  }

  ghost predicate Blank(s: string) {
    forall c :: c in s ==> c in {' ', '\t', '\n', '\r'}
  }

  // The text is what is left of `s` without the blanks around it.
  ghost predicate Strips(s: string, text: string) {
    && (exists i, j :: 0 <= i <= j <= |s| && s[i..j] == text && Blank(s[..i]) && Blank(s[j..]))
    && (text != [] ==> !Blank(text[..1]) && !Blank(text[|text| - 1..]))
  }

  lemma {:induction false} TrimLeftStrips(s: string)
    ensures exists i :: 0 <= i <= |s| && s[i..] == TrimLeft(s) && Blank(s[..i])
  {
    if s != [] && IsSpace(s[0]) {
      TrimLeftStrips(s[1..]);
      var i :| 0 <= i <= |s[1..]| && s[1..][i..] == TrimLeft(s[1..]) && Blank(s[1..][..i]);
      assert s[i + 1..] == s[1..][i..] && s[..i + 1] == [s[0]] + s[1..][..i];
      assert Blank(s[..i + 1]);
    } else {
      assert s[0..] == s && Blank(s[..0]);
    }
  }

  lemma {:induction false} TrimRightStrips(s: string)
    ensures exists j :: 0 <= j <= |s| && s[..j] == TrimRight(s) && Blank(s[j..])
  {
    if s != [] && IsSpace(s[|s| - 1]) {
      var front := s[..|s| - 1];
      TrimRightStrips(front);
      var j :| 0 <= j <= |front| && front[..j] == TrimRight(front) && Blank(front[j..]);
      assert s[..j] == front[..j] && s[j..] == front[j..] + [s[|s| - 1]];
      assert Blank(s[j..]);
    } else {
      assert s[..|s|] == s && Blank(s[|s|..]);
    }
  }

  lemma SliceOfSlice(s: string, i: nat, j: nat)
    requires i + j <= |s|
    ensures s[i..][..j] == s[i..i + j] && s[i..][j..] == s[i + j..]
  {
  }

  lemma TrimIsInside(s: string)
    ensures exists i, j :: 0 <= i <= j <= |s| && s[i..j] == Trim(s) && Blank(s[..i]) && Blank(s[j..])
  {
    TrimLeftStrips(s);
    var i :| 0 <= i <= |s| && s[i..] == TrimLeft(s) && Blank(s[..i]);
    var left := TrimLeft(s);
    TrimRightStrips(left);
    var j :| 0 <= j <= |left| && left[..j] == TrimRight(left) && Blank(left[j..]);
    SliceOfSlice(s, i, j);
    hide TrimLeft, TrimRight, Blank;
    assert s[i..i + j] == Trim(s);
  }

  // Trimming takes the blanks off both ends, all of them and nothing else.
  lemma TrimStrips(s: string)
    ensures Strips(s, Trim(s))
  {
    TrimIsInside(s);
    TrimLeftBares(s);
    TrimRightBares(TrimLeft(s));
    var text := Trim(s);
    hide Trim, TrimLeft, TrimRight, Blank;
    if text != [] {
      NotBlank(text[0]);
      NotBlank(text[|text| - 1]);
      assert text[..1] == [text[0]] && text[|text| - 1..] == [text[|text| - 1]];
    }
  }

  lemma NotBlank(c: char)
    ensures Blank([c]) <==> IsSpace(c)
  {
    assert c in [c];
  }

  // The same letters, but for the case of those of the alphabet.
  ghost predicate SameLetters(a: string, b: string) {
    |a| == |b| && forall i :: 0 <= i < |a| ==> SameLetter(a[i], b[i])
  }

  ghost predicate SameLetter(a: char, b: char) {
    || a == b
    || ('A' <= a <= 'Z' && b as int == a as int + 32)
    || ('A' <= b <= 'Z' && a as int == b as int + 32)
  }

  lemma LowerMeans(a: string, b: string)
    ensures Lower(a) == Lower(b) <==> SameLetters(a, b)
  {
    forall c, d ensures LowerChar(c) == LowerChar(d) <==> SameLetter(c, d) {
    }
    hide LowerChar, SameLetter;
    if SameLetters(a, b) {
      assert forall i :: 0 <= i < |a| ==> Lower(a)[i] == Lower(b)[i];
    }
    if Lower(a) == Lower(b) {
      forall i | 0 <= i < |a| ensures SameLetter(a[i], b[i]) {
        assert Lower(a)[i] == Lower(b)[i];
      }
    }
  }

  datatype Key = Key(company: string, role: string)

  // What the import and the lookups compare.
  function KeyOf(company: string, role: string): Key {
    Key(Lower(Trim(company)), Lower(Trim(role)))
  }

  // What the unique index and the lookup's stored side compare: folded, but not trimmed.
  function Folded(company: string, role: string): Key {
    Key(Lower(company), Lower(role))
  }

  // Two names are one job when they have the same letters, and the blanks around them do not
  // count; to the unique index, and where it is stored, they do.
  lemma KeysAgreeIff(company: string, role: string, company': string, role': string)
    ensures KeyOf(company, role) == KeyOf(company', role')
            <==> SameLetters(Trim(company), Trim(company')) && SameLetters(Trim(role), Trim(role'))
    ensures Folded(company, role) == Folded(company', role')
            <==> SameLetters(company, company') && SameLetters(role, role')
    ensures Folded(company, role) == KeyOf(company', role')
            <==> SameLetters(company, Trim(company')) && SameLetters(role, Trim(role'))
  {
    LowerMeans(Trim(company), Trim(company'));
    LowerMeans(Trim(role), Trim(role'));
    LowerMeans(company, company');
    LowerMeans(role, role');
    LowerMeans(company, Trim(company'));
    LowerMeans(role, Trim(role'));
    hide Lower, Trim, SameLetters;
  }

  lemma FoldedGivesKey(company: string, role: string)
    ensures KeyOf(company, role) == Key(Trim(Folded(company, role).company), Trim(Folded(company, role).role))
  {
    TrimLower(company);
    TrimLower(role);
  }

  lemma KeyIsTrimmed(company: string, role: string)
    ensures var key := KeyOf(company, role); Key(Trim(key.company), Trim(key.role)) == key
  {
    TrimLower(Trim(company));
    TrimLower(Trim(role));
    TrimTwice(company);
    TrimTwice(role);
  }

  function KeyAt(b: Board, id: nat): Key
    requires id in b.applications
  {
    KeyOf(b.applications[id].company, b.applications[id].role)
  }

  function FoldedAt(b: Board, id: nat): Key
    requires id in b.applications
  {
    Folded(b.applications[id].company, b.applications[id].role)
  }

  ghost predicate Tracked(b: Board, key: Key) {
    exists id :: id in b.applications && KeyAt(b, id) == key
  }

  ghost predicate DistinctKeys(b: Board) {
    forall i, j :: i in b.applications && j in b.applications && KeyAt(b, i) == KeyAt(b, j) ==> i == j
  }

  // ---------------------------------------------------------------- research

  // `tagged` says the sub-category is known and confident enough.
  datatype Row = Row(company: string, role: string, hasUrl: bool, hasLocation: bool, tagged: bool,
      stage: Stage, appliedOn: Option<int>)

  datatype Reply = Raised | Recorded(rows: seq<Row>) | Unrecorded

  predicate Missing(row: Row) {
    !row.hasUrl || !row.hasLocation || !row.tagged
  }

  function Enriched(answer: Row, original: Row): Row {
    answer.(stage := original.stage,
        appliedOn := if original.appliedOn.Some? then original.appliedOn else answer.appliedOn)
  }

  function Merged(enriched: seq<Row>, rows: seq<Row>): (merged: seq<Row>)
    requires |enriched| == |rows|
    ensures |merged| == |rows| && forall i :: 0 <= i < |rows| ==> merged[i] == Enriched(enriched[i], rows[i])
  {
    seq(|rows|, i requires 0 <= i < |rows| => Enriched(enriched[i], rows[i]))
  }

  // What the person who pasted the list said of a row is still said of it.
  predicate Upheld(row: Row, original: Row) {
    row.stage == original.stage && (original.appliedOn.Some? ==> row.appliedOn == original.appliedOn)
  }

  // A completed row: what was answered of it, but its stage as pasted, and its date if one was.
  ghost predicate Combines(row: Row, answer: Row, original: Row) {
    && row.company == answer.company && row.role == answer.role
    && row.hasUrl == answer.hasUrl && row.hasLocation == answer.hasLocation && row.tagged == answer.tagged
    && row.stage == original.stage
    && row.appliedOn == if original.appliedOn != None then original.appliedOn else answer.appliedOn
  }

  // The first reply that records a list, within six rounds, has one row for each asked about.
  ghost predicate Records(replies: seq<Reply>, k: int, asked: nat) {
    && 0 <= k < 6 && k < |replies| && replies[k].Recorded? && |replies[k].rows| == asked
    && forall j :: 0 <= j < k ==> replies[j] == Unrecorded
  }

  ghost predicate RecordedAt(replies: seq<Reply>, k: int, rows: seq<Row>, result: seq<Row>) {
    && Records(replies, k, |rows|) && |result| == |rows|
    && forall i :: 0 <= i < |rows| ==> Combines(result[i], replies[k].rows[i], rows[i])
  }

  // On every path, as many rows as were given, in their order, with their stages: the answered
  // ones exactly if the pass did what it was asked, and else the given ones.
  method ResearchJobs(rows: seq<Row>, available: bool, replies: seq<Reply>) returns (result: seq<Row>, skipped: bool)
    ensures |result| == |rows| && forall i :: 0 <= i < |rows| ==> Upheld(result[i], rows[i])
    ensures skipped ==> result == rows
    ensures !skipped ==> exists k :: RecordedAt(replies, k, rows, result)
    ensures skipped <==> rows == [] || !available || forall k :: !Records(replies, k, |rows|)
  {
    if rows == [] || !available {
      return rows, true;
    }
    var round := 0;
    while round < MAX_RESEARCH_ROUNDS && round < |replies|
      invariant 0 <= round <= MAX_RESEARCH_ROUNDS && round <= |replies|
      invariant forall j :: 0 <= j < round ==> replies[j] == Unrecorded
    {
      match replies[round]
      case Raised => return rows, true;
      case Recorded(enriched) =>
        if |enriched| != |rows| {
          return rows, true;
        }
        assert Records(replies, round, |rows|);
        assert RecordedAt(replies, round, rows, Merged(enriched, rows));
        return Merged(enriched, rows), false;
      case Unrecorded =>
        round := round + 1;
    }
    return rows, true;
  }

  // ---------------------------------------------------------------- the import

  ghost function AddRow(b: Board, row: Row): Board {
    if Tracked(b, KeyOf(row.company, row.role)) then b else InsertApplication(b, row.company, row.role, row.stage)
  }

  // Row by row, those that are not tracked yet, whether from before or from earlier in the list.
  ghost function AddRows(b: Board, rows: seq<Row>): Board {
    if rows == [] then b else AddRow(AddRows(b, rows[..|rows| - 1]), rows[|rows| - 1])
  }

  ghost predicate Extends(b: Board, b': Board) {
    && b.next <= b'.next
    && (forall id :: id in b.applications ==> id in b'.applications && b'.applications[id] == b.applications[id])
    && (forall id :: id in b'.applications ==> id in b.applications || b.next <= id < b'.next)
    && (forall id :: b.next <= id < b'.next ==> id in b'.applications)
  }

  lemma AddRowKeeps(b: Board, row: Row)
    requires Kept(b)
    ensures Kept(AddRow(b, row)) && Extends(b, AddRow(b, row)) && Tracked(AddRow(b, row), KeyOf(row.company, row.role))
    ensures DistinctKeys(b) ==> DistinctKeys(AddRow(b, row))
  {
    hide KeyOf, Project, FirstEvents, Faithful;
    if !Tracked(b, KeyOf(row.company, row.role)) {
      StepKeeps(b, Add(row.company, row.role, row.stage));
      var b' := AddRow(b, row);
      assert KeyAt(b', b.next) == KeyOf(row.company, row.role);
      assert forall id :: id in b.applications ==> KeyAt(b', id) == KeyAt(b, id);
    }
  }

  lemma TrackedStays(b: Board, b': Board, key: Key)
    requires Extends(b, b') && Tracked(b, key)
    ensures Tracked(b', key)
  {
    var id :| id in b.applications && KeyAt(b, id) == key;
    assert KeyAt(b', id) == key;
  }

  // An import leaves what is there as it is, tracks every row it was given, and makes no two
  // applications of one job where there were none.
  lemma {:induction false} AddRowsKeeps(b: Board, rows: seq<Row>)
    requires Kept(b)
    ensures var b' := AddRows(b, rows);
            && Kept(b') && Extends(b, b') && (DistinctKeys(b) ==> DistinctKeys(b'))
            && forall row :: row in rows ==> Tracked(b', KeyOf(row.company, row.role))
  {
    hide KeyOf, Kept, DistinctKeys, Tracked, AddRow;
    if rows != [] {
      var front, last := rows[..|rows| - 1], rows[|rows| - 1];
      AddRowsKeeps(b, front);
      AddRowKeeps(AddRows(b, front), last);
      forall row | row in front ensures Tracked(AddRows(b, rows), KeyOf(row.company, row.role)) {
        TrackedStays(AddRows(b, front), AddRows(b, rows), KeyOf(row.company, row.role));
      }
      assert rows == front + [last];
    }
  }

  // Some row of the list has this key.
  ghost predicate Carried(rows: seq<Row>, key: Key) {
    exists row :: row in rows && KeyOf(row.company, row.role) == key
  }

  lemma CarriedSnoc(rows: seq<Row>, row: Row, key: Key)
    ensures Carried(rows + [row], key) <==> Carried(rows, key) || KeyOf(row.company, row.role) == key
  {
    hide KeyOf;
    assert forall r :: r in rows + [row] <==> r in rows || r == row;
  }

  lemma AddRowTracks(b: Board, row: Row, key: Key)
    requires Kept(b)
    ensures Tracked(AddRow(b, row), key) <==> Tracked(b, key) || KeyOf(row.company, row.role) == key
  {
    hide KeyOf, Project, FirstEvents, Faithful;
    AddRowKeeps(b, row);
    var b' := AddRow(b, row);
    if Tracked(b, key) {
      TrackedStays(b, b', key);
    }
    if b' != b {
      assert KeyAt(b', b.next) == KeyOf(row.company, row.role);
      assert forall id :: id in b.applications ==> KeyAt(b', id) == KeyAt(b, id);
    }
  }

  // What is tracked after an import was tracked before or is the key of a row it was given.
  lemma {:induction false} AddRowsTrack(b: Board, rows: seq<Row>, key: Key)
    requires Kept(b)
    ensures Tracked(AddRows(b, rows), key) <==> Tracked(b, key) || Carried(rows, key)
  {
    hide KeyOf, Kept, Tracked, AddRow, Carried;
    if rows == [] {
      NoneCarried(key);
    } else {
      var front, last := rows[..|rows| - 1], rows[|rows| - 1];
      AddRowsKeeps(b, front);
      AddRowsTrack(b, front, key);
      AddRowTracks(AddRows(b, front), last, key);
      CarriedSnoc(front, last, key);
      assert rows == front + [last];
    }
  }

  lemma NoneCarried(key: Key)
    ensures !Carried([], key)
  {
  }

  ghost predicate Indexes(seen: map<Key, nat>, b: Board) {
    && (forall key :: key in seen ==> seen[key] in b.applications && KeyAt(b, seen[key]) == key)
    && (forall id :: id in b.applications ==> KeyAt(b, id) in seen)
  }

  lemma IndexTells(seen: map<Key, nat>, b: Board, key: Key)
    requires Indexes(seen, b)
    ensures key in seen <==> Tracked(b, key)
  {
  }

  lemma IndexGrows(seen: map<Key, nat>, b: Board, row: Row)
    requires Indexes(seen, b) && Kept(b) && !Tracked(b, KeyOf(row.company, row.role))
    ensures Indexes(seen[KeyOf(row.company, row.role) := b.next], AddRow(b, row))
  {
    hide KeyOf, Project, FirstEvents, Faithful;
    var b' := AddRow(b, row);
    assert KeyAt(b', b.next) == KeyOf(row.company, row.role);
    assert forall id :: id in b.applications ==> KeyAt(b', id) == KeyAt(b, id);
  }

  method ExistingIndex(tracker: Tracker) returns (seen: map<Key, nat>)
    ensures Indexes(seen, tracker.Stored())
  {
    hide KeyOf;
    seen := map[];
    var ids := tracker.applications.Keys;
    while ids != {}
      invariant ids <= tracker.applications.Keys
      invariant forall key :: key in seen ==>
                seen[key] in tracker.applications && KeyAt(tracker.Stored(), seen[key]) == key
      invariant forall id :: id in tracker.applications && id !in ids ==> KeyAt(tracker.Stored(), id) in seen
      decreases |ids|
    {
      var id :| id in ids;
      ids := ids - {id};
      seen := seen[KeyOf(tracker.applications[id].company, tracker.applications[id].role) := id];
    }
  }

  // New, the first of its key in the list, and lacking something research could fill in.
  ghost predicate IsCandidate(b: Board, rows: seq<Row>, i: nat)
    requires i < |rows|
  {
    && !Tracked(b, KeyOf(rows[i].company, rows[i].role))
    && (forall j :: 0 <= j < i ==> KeyOf(rows[j].company, rows[j].role) != KeyOf(rows[i].company, rows[i].role))
    && (!rows[i].hasUrl || !rows[i].hasLocation || !rows[i].tagged)
  }

  ghost predicate Ascending(indices: seq<nat>, size: nat) {
    && (forall k :: 0 <= k < |indices| ==> indices[k] < size)
    && (forall j, k :: 0 <= j < k < |indices| ==> indices[j] < indices[k])
  }

  method Candidates(rows: seq<Row>, seen: map<Key, nat>, ghost b: Board) returns (candidates: seq<nat>)
    requires Indexes(seen, b)
    ensures AreCandidates(b, rows, candidates)
  {
    hide KeyOf;
    candidates := [];
    var keys: set<Key>, i := {}, 0;
    while i < |rows|
      invariant 0 <= i <= |rows|
      invariant forall j :: 0 <= j < i ==>
                KeyOf(rows[j].company, rows[j].role) in seen || KeyOf(rows[j].company, rows[j].role) in keys
      invariant forall key :: key in keys ==> exists j :: 0 <= j < i && KeyOf(rows[j].company, rows[j].role) == key
      invariant Ascending(candidates, i)
      invariant forall j :: 0 <= j < i ==> (j in candidates <==> IsCandidate(b, rows, j))
    {
      var key := KeyOf(rows[i].company, rows[i].role);
      IndexTells(seen, b, key);
      if key !in seen && key !in keys {
        keys := keys + {key};
        if Missing(rows[i]) {
          candidates := candidates + [i];
        }
      }
      i := i + 1;
    }
  }

  method Scatter(rows: seq<Row>, candidates: seq<nat>, enriched: seq<Row>) returns (merged: seq<Row>)
    requires |enriched| == |candidates| && Ascending(candidates, |rows|)
    ensures |merged| == |rows|
    ensures forall k :: 0 <= k < |candidates| ==> merged[candidates[k]] == enriched[k]
    ensures forall i :: 0 <= i < |rows| && i !in candidates ==> merged[i] == rows[i]
  {
    merged := rows;
    var k := 0;
    while k < |candidates|
      invariant 0 <= k <= |candidates| && |merged| == |rows|
      invariant forall j :: 0 <= j < k ==> merged[candidates[j]] == enriched[j]
      invariant forall i :: 0 <= i < |rows| && i !in candidates ==> merged[i] == rows[i]
    {
      merged := merged[candidates[k] := enriched[k]];
      k := k + 1;
    }
  }

  ghost predicate AreCandidates(b: Board, rows: seq<Row>, candidates: seq<nat>) {
    Ascending(candidates, |rows|) && forall i :: 0 <= i < |rows| ==> (i in candidates <==> IsCandidate(b, rows, i))
  }

  // The rows at these places were answered, and no other row was touched.
  ghost predicate AnsweredAt(replies: seq<Reply>, k: int, rows: seq<Row>, places: seq<nat>, completed: seq<Row>)
    requires forall m :: 0 <= m < |places| ==> places[m] < |rows|
  {
    && Records(replies, k, |places|) && |completed| == |rows|
    && (forall m :: 0 <= m < |places| ==>
          Combines(completed[places[m]], replies[k].rows[m], rows[places[m]]))
    && forall i :: 0 <= i < |rows| && i !in places ==> completed[i] == rows[i]
  }

  // There is something to ask, somebody to ask it of, and an answer to all of it.
  ghost predicate Researches(b: Board, rows: seq<Row>, available: bool, replies: seq<Reply>) {
    available && exists candidates, k ::
      AreCandidates(b, rows, candidates) && candidates != [] && Records(replies, k, |candidates|)
  }

  // The rows as they are written. Research is asked about the candidates, if there are any;
  // what it records of them is taken, and of no other row.
  method Completed(rows: seq<Row>, seen: map<Key, nat>, available: bool, replies: seq<Reply>, ghost b: Board)
    returns (completed: seq<Row>, researched: seq<nat>)
    requires Indexes(seen, b)
    ensures |completed| == |rows| && forall i :: 0 <= i < |rows| ==> Upheld(completed[i], rows[i])
    ensures researched == [] ==> completed == rows
    ensures researched != [] ==> AreCandidates(b, rows, researched) && available
                                 && exists k :: AnsweredAt(replies, k, rows, researched, completed)
    ensures Researches(b, rows, available, replies) ==> researched != []
  {
    hide KeyOf, IsCandidate, Indexes;
    var candidates := Candidates(rows, seen, b);
    forall others | AreCandidates(b, rows, others) ensures others == candidates {
      SamePlaces(b, rows, others, candidates);
    }
    if candidates == [] {
      return rows, [];
    }
    var asked := seq(|candidates|, k requires 0 <= k < |candidates| => rows[candidates[k]]);
    var enriched, skipped := ResearchJobs(asked, available, replies);
    if skipped {
      return rows, [];
    }
    completed := Scatter(rows, candidates, enriched);
    researched := candidates;
    ghost var k :| RecordedAt(replies, k, asked, enriched);
    assert AnsweredAt(replies, k, rows, candidates, completed);
    forall i | 0 <= i < |rows| ensures Upheld(completed[i], rows[i]) {
      if i in candidates {
        var m :| 0 <= m < |candidates| && candidates[m] == i;
        assert Upheld(enriched[m], asked[m]);
      }
    }
  }

  lemma SamePlaces(b: Board, rows: seq<Row>, x: seq<nat>, y: seq<nat>)
    requires AreCandidates(b, rows, x) && AreCandidates(b, rows, y)
    ensures x == y
  {
    hide IsCandidate;
    forall i ensures i in x <==> i in y {
    }
    AscendingIsUnique(x, y, |rows|);
  }

  lemma {:induction false} AscendingIsUnique(x: seq<nat>, y: seq<nat>, size: nat)
    requires Ascending(x, size) && Ascending(y, size) && forall i :: i in x <==> i in y
    ensures x == y
  {
    assert x != [] ==> x[|x| - 1] in x;
    assert y != [] ==> y[|y| - 1] in y;
    if x != [] && y != [] {
      var last := x[|x| - 1];
      assert last == y[|y| - 1];
      var x', y' := x[..|x| - 1], y[..|y| - 1];
      assert x == x' + [last] && y == y' + [last];
      forall i ensures i in x' <==> i in y' {
        assert i in x' ==> i in x && i < last;
        assert i in y' ==> i in y && i < last;
      }
      AscendingIsUnique(x', y', size);
    }
  }

  predicate KeptName(completed: Row, pasted: Row) {
    KeyOf(completed.company, completed.role) == KeyOf(pasted.company, pasted.role)
  }

  // Every parsed row ends up created or counted as a duplicate of something tracked. But it is
  // the completed row that does: a pasted job is on the board afterwards if it was before, or
  // if some completed row still has its name. Research may rename a row, and then it need not be.
  method Ingest(tracker: Tracker, rows: seq<Row>, available: bool, replies: seq<Reply>)
    returns (completed: seq<Row>, created: seq<nat>, duplicates: seq<nat>, researched: seq<nat>)
    requires Kept(tracker.Stored())
    modifies tracker
    ensures |completed| == |rows| && forall i :: 0 <= i < |rows| ==> Upheld(completed[i], rows[i])
    ensures researched == [] ==> completed == rows
    ensures researched != [] ==> AreCandidates(old(tracker.Stored()), rows, researched) && available
                                 && exists k :: AnsweredAt(replies, k, rows, researched, completed)
    ensures Researches(old(tracker.Stored()), rows, available, replies) ==> researched != []
    ensures tracker.Stored() == AddRows(old(tracker.Stored()), completed)
    ensures |created| + |duplicates| == |rows| && |created| == tracker.next - old(tracker.next)
    ensures forall k :: 0 <= k < |created| ==> created[k] == old(tracker.next) + k
    ensures AreDuplicates(duplicates, tracker.Stored(), KnownKeys(old(tracker.Stored()), completed))
    ensures forall i :: 0 <= i < |rows| ==> var key := KeyOf(rows[i].company, rows[i].role);
              (Tracked(tracker.Stored(), key) <==> Tracked(old(tracker.Stored()), key) || Carried(completed, key))
    ensures forall i :: 0 <= i < |rows| && KeptName(completed[i], rows[i]) ==>
              Tracked(tracker.Stored(), KeyOf(rows[i].company, rows[i].role))
  {
    hide KeyOf, IsCandidate, Indexes, Kept, Tracked, FirstEvents, Project, AddRow, DistinctKeys, Extends, Upheld,
         AreCandidates, AnsweredAt, Records;
    ghost var before := tracker.Stored();
    var seen := ExistingIndex(tracker);
    completed, researched := Completed(rows, seen, available, replies, before);
    created, duplicates := [], [];
    var i := 0;
    while i < |completed|
      invariant 0 <= i <= |completed|
      invariant tracker.Stored() == AddRows(before, completed[..i])
      invariant Kept(tracker.Stored()) && Indexes(seen, tracker.Stored())
      invariant |created| + |duplicates| == i && |created| == tracker.next - before.next
      invariant forall k :: 0 <= k < |created| ==> created[k] == before.next + k
      invariant AreDuplicates(duplicates, tracker.Stored(), KnownKeys(before, completed[..i]))
    {
      var row := completed[i];
      assert completed[..i + 1][..i] == completed[..i] && row == completed[..i + 1][i];
      ghost var known := KnownKeys(before, completed[..i]);
      created, duplicates, seen := IngestRow(tracker, row, created, duplicates, seen, known);
      AddRowsKeeps(before, completed[..i + 1]);
      i := i + 1;
    }
    assert completed[..i] == completed;
    forall key ensures Tracked(tracker.Stored(), key) <==> Tracked(before, key) || Carried(completed, key) {
      AddRowsTrack(before, completed, key);
    }
    assert forall i :: 0 <= i < |completed| ==> completed[i] in completed;
  }

  // Two jobs that research answers under one name become one application, and the other is
  // tracked no more than it was.
  lemma RenamedJobIsLost(b: Board, first: Row, second: Row)
    requires Kept(b) && Missing(first) && Missing(second)
    requires var k, l := KeyOf(first.company, first.role), KeyOf(second.company, second.role);
             k != l && !Tracked(b, k) && !Tracked(b, l)
    ensures var rows, replies := [first, second], [Recorded([first, first])];
            var completed := Merged([first, first], rows);
            && AreCandidates(b, rows, [0, 1]) && RecordedAt(replies, 0, rows, completed)
            && !Tracked(AddRows(b, completed), KeyOf(second.company, second.role))
  {
    hide KeyOf, Kept, Tracked, AddRows;
    var completed := Merged([first, first], [first, second]);
    AddRowsTrack(b, completed, KeyOf(second.company, second.role));
    assert forall row :: row in completed ==> row.company == first.company && row.role == first.role;
  }

  // The keys of the rows that were tracked when their turn came, from before or from this list.
  ghost function KnownKeys(b: Board, rows: seq<Row>): seq<Key> {
    if rows == [] then []
    else
      var front, last := rows[..|rows| - 1], rows[|rows| - 1];
      var key := KeyOf(last.company, last.role);
      KnownKeys(b, front) + if Tracked(AddRows(b, front), key) then [key] else []
  }

  // Each names the stored application of its key.
  ghost predicate AreDuplicates(ids: seq<nat>, b: Board, keys: seq<Key>) {
    |ids| == |keys| && forall k :: 0 <= k < |ids| ==> ids[k] in b.applications && KeyAt(b, ids[k]) == keys[k]
  }

  lemma DuplicatesStay(ids: seq<nat>, b: Board, b': Board, keys: seq<Key>)
    requires AreDuplicates(ids, b, keys) && Extends(b, b')
    ensures AreDuplicates(ids, b', keys)
  {
    hide KeyOf;
  }

  method IngestRow(tracker: Tracker, row: Row, created: seq<nat>, duplicates: seq<nat>, seen: map<Key, nat>,
      ghost keys: seq<Key>)
    returns (created': seq<nat>, duplicates': seq<nat>, seen': map<Key, nat>)
    requires Kept(tracker.Stored()) && Indexes(seen, tracker.Stored())
    requires AreDuplicates(duplicates, tracker.Stored(), keys)
    modifies tracker
    ensures tracker.Stored() == AddRow(old(tracker.Stored()), row) && Indexes(seen', tracker.Stored())
    ensures created' == created + if tracker.next == old(tracker.next) then [] else [old(tracker.next)]
    ensures tracker.next == old(tracker.next) + |created'| - |created|
    ensures |created'| + |duplicates'| == |created| + |duplicates| + 1
    ensures AreDuplicates(duplicates', tracker.Stored(),
              keys + if Tracked(old(tracker.Stored()), KeyOf(row.company, row.role))
                     then [KeyOf(row.company, row.role)] else [])
  {
    hide KeyOf, Kept, FirstEvents, Project;
    AddRowKeeps(tracker.Stored(), row);
    DuplicatesStay(duplicates, tracker.Stored(), AddRow(tracker.Stored(), row), keys);
    created', duplicates', seen' := created, duplicates, seen;
    var key := KeyOf(row.company, row.role);
    IndexTells(seen, tracker.Stored(), key);
    if key in seen {
      duplicates' := duplicates + [seen[key]];
      return;
    }
    assert keys + [] == keys;
    IndexGrows(seen, tracker.Stored(), row);
    var id := tracker.Insert(row.company, row.role, row.stage);
    seen' := seen[key := id];
    created' := created + [id];
  }

  // ---------------------------------------------------------------- one at a time, by hand

  // The lookup folds and trims what is asked for, but only folds what is stored.
  ghost predicate Found(b: Board, company: string, role: string) {
    exists id :: id in b.applications && FoldedAt(b, id) == KeyOf(company, role)
  }

  // The unique index refuses the row.
  ghost predicate Clashes(b: Board, company: string, role: string) {
    exists id :: id in b.applications && FoldedAt(b, id) == Folded(company, role)
  }

  ghost function Create(b: Board, company: string, role: string, stage: Stage): Board {
    if Found(b, company, role) || Clashes(b, company, role) then b else InsertApplication(b, company, role, stage)
  }

  lemma SameFoldSameKey(b: Board, id: nat, company: string, role: string)
    requires id in b.applications
    ensures FoldedAt(b, id) == KeyOf(company, role) || FoldedAt(b, id) == Folded(company, role) ==>
              KeyAt(b, id) == KeyOf(company, role)
  {
    hide Trim, Lower;
    FoldedGivesKey(b.applications[id].company, b.applications[id].role);
    FoldedGivesKey(company, role);
    KeyIsTrimmed(company, role);
  }

  // A job that is already tracked is stored a second time exactly when it was stored with
  // blanks around its name and is now given with other ones.
  lemma StoredTwiceIff(b: Board, id: nat, company: string, role: string, stage: Stage)
    requires DistinctKeys(b) && id in b.applications && id < b.next && KeyAt(b, id) == KeyOf(company, role)
    ensures Create(b, company, role, stage) != b
            <==> FoldedAt(b, id) != KeyAt(b, id) && FoldedAt(b, id) != Folded(company, role)
  {
    hide KeyOf, Folded, Project, FirstEvents;
    forall j | j in b.applications && FoldedAt(b, j) in {KeyOf(company, role), Folded(company, role)}
      ensures j == id
    {
      SameFoldSameKey(b, j, company, role);
    }
  }

  lemma PaddedKeys()
    ensures KeyOf("Aurora ", "Engineer") == KeyOf("Aurora", "Engineer") == Folded("Aurora", "Engineer")
    ensures Folded("Aurora ", "Engineer") != Folded("Aurora", "Engineer")
  {
    assert "Aurora "[..6] == "Aurora";
    assert Trim("Aurora ") == "Aurora" == Trim("Aurora") && Trim("Engineer") == "Engineer";
    assert |Folded("Aurora ", "Engineer").company| == 7 && |Folded("Aurora", "Engineer").company| == 6;
  }

  // Two spellings that differ in a blank at the end alone.
  lemma PaddedNameIsStoredTwice()
    ensures var b := Create(Board(map[], 0), "Aurora ", "Engineer", Applied);
            !DistinctKeys(Create(b, "Aurora", "Engineer", Applied))
  {
    hide KeyOf, Folded, Project, FirstEvents;
    var b := Create(Board(map[], 0), "Aurora ", "Engineer", Applied);
    var b' := Create(b, "Aurora", "Engineer", Applied);
    PaddedKeys();
    assert FoldedAt(b, 0) == Folded("Aurora ", "Engineer");
    assert KeyAt(b', 0) == KeyAt(b', 1);
  }

  // As long as every stored name is trimmed, no job is stored twice, however it is spelt.
  lemma TrimmedBoardStaysDistinct(b: Board, company: string, role: string, stage: Stage)
    requires Kept(b) && DistinctKeys(b) && forall id :: id in b.applications ==> FoldedAt(b, id) == KeyAt(b, id)
    ensures DistinctKeys(Create(b, company, role, stage))
  {
    hide KeyOf, Folded, Project, FirstEvents, Faithful;
    var b' := Create(b, company, role, stage);
    if b' != b {
      assert KeyAt(b', b.next) == KeyOf(company, role);
      assert forall id :: id in b.applications ==> KeyAt(b', id) == KeyAt(b, id) == FoldedAt(b, id);
    }
  }

  // Adding a new job again finds it when its name was given trimmed; otherwise the lookup
  // misses it and the unique index refuses the row.
  lemma AddedAgainIsFoundIff(b: Board, company: string, role: string, stage: Stage)
    requires Kept(b) && !Tracked(b, KeyOf(company, role))
    ensures var b' := Create(b, company, role, stage);
            && Clashes(b', company, role)
            && (Found(b', company, role) <==> Folded(company, role) == KeyOf(company, role))
  {
    hide KeyOf, Folded, Project, FirstEvents, Faithful;
    forall j | j in b.applications
      ensures FoldedAt(b, j) != KeyOf(company, role) && FoldedAt(b, j) != Folded(company, role)
    {
      SameFoldSameKey(b, j, company, role);
    }
    var b' := Create(b, company, role, stage);
    assert FoldedAt(b', b.next) == Folded(company, role);
    assert forall j :: j in b.applications ==> FoldedAt(b', j) == FoldedAt(b, j);
  }
}
