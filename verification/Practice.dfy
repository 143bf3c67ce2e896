/**
  The practice log: a problem you solved elsewhere, the evidence its solves write, and the
  review schedule it is kept on until it graduates.
*/
module Practice {
  import opened Base

  const INITIAL_INTERVAL_DAYS := 3.0
  const GROWTH_FACTOR := 2.5
  const LAPSE_SHRINK := 0.5
  const MIN_INTERVAL_DAYS := 1.0
  const GRADUATION_SOLVES := 3

  const SOLVE_SCORE := 1.0
  const SOLVE_CONFIDENCE := 0.7
  const LAPSE_SCORE := 0.2
  const LAPSE_CONFIDENCE := 0.5
  const AUTO_ACCEPT_CONFIDENCE := 0.75

  datatype Status = Pending | Active | Graduated

  datatype Solve = Solve(number: nat, success: bool, at: real)

  datatype Evidence = Evidence(concept: Id, score: real, confidence: real)

  datatype Schedule = Schedule(status: Status, solveCount: nat, stability: Option<real>, due: Option<real>,
      graduatedAt: Option<real>)

  datatype Tag = Tag(primary: Option<Id>, secondaries: seq<Id>)

  // One problem with its append-only solves and what they wrote.
  datatype Entry = Entry(tag: Tag, schedule: Schedule, solves: seq<Solve>, evidence: seq<Evidence>)

  datatype Proposal = Proposal(tag: Tag, confidence: real)

  // The fraction of a solve's confidence that a secondary concept gets, already rounded.
  datatype Shares = Shares(onSolve: real, onLapse: real)

  // ---------------------------------------------------------------- one solve

  function NextInterval(stability: real, success: bool): real {
    if success then stability * GROWTH_FACTOR else Max(MIN_INTERVAL_DAYS, stability * LAPSE_SHRINK)
  }

  function Secondaries(concepts: seq<Id>, score: real, share: real): (rows: seq<Evidence>)
    ensures |rows| == |concepts|
  {
    seq(|concepts|, i requires 0 <= i < |concepts| => Evidence(concepts[i], score, share))
  }

  function EvidenceRows(tag: Tag, success: bool, shares: Shares): seq<Evidence> {
    if tag.primary.None? then []
    else
      var score := if success then SOLVE_SCORE else LAPSE_SCORE;
      [Evidence(tag.primary.value, score, if success then SOLVE_CONFIDENCE else LAPSE_CONFIDENCE)]
        + Secondaries(tag.secondaries, score, if success then shares.onSolve else shares.onLapse)
  }

  function First(solvedAt: real): Schedule {
    Schedule(Active, 1, Some(INITIAL_INTERVAL_DAYS), Some(solvedAt + INITIAL_INTERVAL_DAYS), None)
  }

  function Scheduled(s: Schedule, solvedAt: real): Schedule {
    s.(status := Active, stability := Some(INITIAL_INTERVAL_DAYS), due := Some(solvedAt + INITIAL_INTERVAL_DAYS))
  }

  function AfterReview(s: Schedule, success: bool, at: real): Schedule {
    var stability := if s.stability.None? || s.stability.value == 0.0 then INITIAL_INTERVAL_DAYS else s.stability.value;
    var interval := NextInterval(stability, success);
    if !success then
      s.(stability := Some(interval), due := Some(at + interval))
    else if s.solveCount + 1 >= GRADUATION_SOLVES then
      s.(solveCount := s.solveCount + 1, status := Graduated, due := None, graduatedAt := Some(at))
    else
      s.(solveCount := s.solveCount + 1, stability := Some(interval), due := Some(at + interval))
  }

  // ---------------------------------------------------------------- the flows

  predicate Accepted(p: Proposal, hold: bool) {
    p.tag.primary.Some? && p.confidence >= AUTO_ACCEPT_CONFIDENCE && !hold
  }

  function Log(p: Proposal, hold: bool, at: real, shares: Shares): Entry {
    if Accepted(p, hold) then
      Entry(p.tag, First(at), [Solve(0, true, at)], EvidenceRows(p.tag, true, shares))
    else
      Entry(p.tag, Schedule(Pending, 1, None, None, None), [Solve(0, true, at)], [])
  }

  function Others(concepts: seq<Id>, primary: Id): seq<Id> {
    if concepts == [] then []
    else (if concepts[0] == primary then [] else [concepts[0]]) + Others(concepts[1..], primary)
  }

  // `known` says that every concept named is in the taxonomy.
  datatype Step =
    | Resolve(primary: Id, secondaries: seq<Id>, known: bool)
    | Review(success: bool, at: real)

  predicate Refused(e: Entry, step: Step) {
    match step
    case Resolve(_, _, known) => e.schedule.status != Pending || !known || e.solves == []
    case Review(_, _) => e.schedule.status != Active
  }

  function Next(e: Entry, step: Step, shares: Shares): Entry {
    if Refused(e, step) then e
    else
      match step
      case Resolve(primary, secondaries, _) =>
        var tag := Tag(Some(primary), Others(secondaries, primary));
        e.(tag := tag, schedule := Scheduled(e.schedule, e.solves[0].at),
            evidence := e.evidence + EvidenceRows(tag, true, shares))
      case Review(success, at) =>
        e.(schedule := AfterReview(e.schedule, success, at), solves := e.solves + [Solve(|e.solves|, success, at)],
           evidence := e.evidence + EvidenceRows(e.tag, success, shares))
  }

  function Run(e: Entry, steps: seq<Step>, shares: Shares): Entry {
    if steps == [] then e else Next(Run(e, steps[..|steps| - 1], shares), steps[|steps| - 1], shares)
  }

  // ---------------------------------------------------------------- the solve log is the truth

  // The schedule the solves alone determine, replayed from the first.
  function Replayed(solves: seq<Solve>): Schedule
    requires solves != []
  {
    if |solves| == 1 then First(solves[0].at)
    else
      var last := solves[|solves| - 1];
      AfterReview(Replayed(solves[..|solves| - 1]), last.success, last.at)
  }

  function Written(tag: Tag, solves: seq<Solve>, shares: Shares): seq<Evidence> {
    if solves == [] then []
    else Written(tag, solves[..|solves| - 1], shares) + EvidenceRows(tag, solves[|solves| - 1].success, shares)
  }

  function Successes(solves: seq<Solve>): nat {
    if solves == [] then 0 else Successes(solves[..|solves| - 1]) + if solves[|solves| - 1].success then 1 else 0
  }

  ghost predicate Consistent(e: Entry, shares: Shares) {
    && e.solves != [] && e.solves[0].success
    && (forall k :: 0 <= k < |e.solves| ==> e.solves[k].number == k)
    && if e.schedule.status == Pending then
         |e.solves| == 1 && e.evidence == [] && e.schedule == Schedule(Pending, 1, None, None, None)
       else
         e.tag.primary.Some? && e.schedule == Replayed(e.solves) && e.evidence == Written(e.tag, e.solves, shares)
  }

  lemma ReplayedSnoc(solves: seq<Solve>, solve: Solve)
    requires solves != []
    ensures Replayed(solves + [solve]) == AfterReview(Replayed(solves), solve.success, solve.at)
  {
    assert (solves + [solve])[..|solves|] == solves;
  }

  lemma WrittenSnoc(tag: Tag, solves: seq<Solve>, solve: Solve, shares: Shares)
    ensures Written(tag, solves + [solve], shares) ==
              Written(tag, solves, shares) + EvidenceRows(tag, solve.success, shares)
  {
    assert (solves + [solve])[..|solves|] == solves;
  }

  lemma {:induction false} ReplayedIsResolved(solves: seq<Solve>)
    requires solves != []
    ensures Replayed(solves).status != Pending
  {
    if |solves| > 1 {
      ReplayedIsResolved(solves[..|solves| - 1]);
    }
  }

  lemma LogIsConsistent(p: Proposal, hold: bool, at: real, shares: Shares)
    ensures Consistent(Log(p, hold, at, shares), shares)
  {
    var e := Log(p, hold, at, shares);
    assert e.solves[..0] == [];
    assert Written(e.tag, e.solves, shares) == [] + EvidenceRows(e.tag, true, shares);
  }

  lemma StepIsConsistent(e: Entry, step: Step, shares: Shares)
    requires Consistent(e, shares)
    ensures Consistent(Next(e, step, shares), shares)
  {
    if !Refused(e, step) {
      match step
      case Resolve(primary, secondaries, _) =>
        var tag := Tag(Some(primary), Others(secondaries, primary));
        assert e.solves[..0] == [];
        assert Written(tag, e.solves, shares) == [] + EvidenceRows(tag, true, shares);
      case Review(success, at) =>
        var solve := Solve(|e.solves|, success, at);
        ReplayedSnoc(e.solves, solve);
        WrittenSnoc(e.tag, e.solves, solve, shares);
        ReplayedIsResolved(e.solves + [solve]);
    }
  }

  // After any run of the flows, what is stored of a problem is what its solve log says.
  lemma {:induction false} StoredIsReplayed(p: Proposal, hold: bool, at: real, steps: seq<Step>, shares: Shares)
    ensures Consistent(Run(Log(p, hold, at, shares), steps, shares), shares)
  {
    if steps == [] {
      LogIsConsistent(p, hold, at, shares);
    } else {
      StoredIsReplayed(p, hold, at, steps[..|steps| - 1], shares);
      StepIsConsistent(Run(Log(p, hold, at, shares), steps[..|steps| - 1], shares), steps[|steps| - 1], shares);
    }
  }

  // ---------------------------------------------------------------- what a schedule keeps

  ghost predicate Sane(s: Schedule, successes: nat) {
    && s.solveCount == successes <= GRADUATION_SOLVES
    && (s.status == Graduated <==> s.solveCount == GRADUATION_SOLVES)
    && (s.due.None? <==> s.status == Graduated) && (s.graduatedAt.Some? <==> s.status == Graduated)
    && s.stability.Some? && MIN_INTERVAL_DAYS <= s.stability.value
    && s.stability.value <= (if s.solveCount <= 1 then INITIAL_INTERVAL_DAYS else INITIAL_INTERVAL_DAYS * GROWTH_FACTOR)
  }

  lemma ReviewKeepsSane(s: Schedule, successes: nat, success: bool, at: real)
    requires Sane(s, successes) && s.status == Active && successes >= 1
    ensures Sane(AfterReview(s, success, at), successes + if success then 1 else 0)
  {
  }

  // No review is recorded once the problem has graduated.
  ghost predicate NoneAfterGraduation(solves: seq<Solve>) {
    forall k :: 0 < k < |solves| ==> Successes(solves[..k]) < GRADUATION_SOLVES
  }

  lemma {:induction false} ReplayedIsSane(solves: seq<Solve>)
    requires solves != [] && solves[0].success && NoneAfterGraduation(solves)
    ensures Sane(Replayed(solves), Successes(solves)) && Successes(solves) >= 1 && Replayed(solves).status != Pending
  {
    if |solves| == 1 {
      assert solves[..0] == [];
    } else {
      var front, last := solves[..|solves| - 1], solves[|solves| - 1];
      forall k | 0 < k < |front| ensures Successes(front[..k]) < GRADUATION_SOLVES {
        assert front[..k] == solves[..k];
      }
      ReplayedIsSane(front);
      assert Successes(solves[..|front|]) < GRADUATION_SOLVES;
      ReviewKeepsSane(Replayed(front), Successes(front), last.success, last.at);
    }
  }

  lemma ReviewKeepsNoneAfter(solves: seq<Solve>, solve: Solve)
    requires NoneAfterGraduation(solves) && Successes(solves) < GRADUATION_SOLVES
    ensures NoneAfterGraduation(solves + [solve])
  {
    var all := solves + [solve];
    forall k | 0 < k < |all| ensures Successes(all[..k]) < GRADUATION_SOLVES {
      assert all[..k] == solves[..k];
      assert solves[..|solves|] == solves;
    }
  }

  lemma StepKeepsNoneAfter(e: Entry, step: Step, shares: Shares)
    requires Consistent(e, shares) && NoneAfterGraduation(e.solves)
    ensures NoneAfterGraduation(Next(e, step, shares).solves)
  {
    if step.Review? && !Refused(e, step) {
      ReplayedIsSane(e.solves);
      ReviewKeepsNoneAfter(e.solves, Solve(|e.solves|, step.success, step.at));
    }
  }

  lemma {:induction false} RunKeepsNoneAfter(p: Proposal, hold: bool, at: real, steps: seq<Step>, shares: Shares)
    ensures NoneAfterGraduation(Run(Log(p, hold, at, shares), steps, shares).solves)
  {
    if steps != [] {
      var front := steps[..|steps| - 1];
      RunKeepsNoneAfter(p, hold, at, front, shares);
      StoredIsReplayed(p, hold, at, front, shares);
      StepKeepsNoneAfter(Run(Log(p, hold, at, shares), front, shares), steps[|steps| - 1], shares);
    }
  }

  // A problem graduates with its second successful review and is on no schedule before it is
  // classified or after that; while it is on one, the interval is between 1 and 7.5 days.
  lemma ScheduleIsSound(p: Proposal, hold: bool, at: real, steps: seq<Step>, shares: Shares)
    ensures var e := Run(Log(p, hold, at, shares), steps, shares);
            var s := e.schedule;
            && s.solveCount == Successes(e.solves)
            && (s.status == Graduated <==> Successes(e.solves) == 3)
            && (s.due.None? <==> s.status == Pending || s.status == Graduated)
            && (s.status != Pending ==> s.stability.Some? && 1.0 <= s.stability.value <= 7.5)
            && (s.status == Pending ==> s.stability.None?)
  {
    StoredIsReplayed(p, hold, at, steps, shares);
    RunKeepsNoneAfter(p, hold, at, steps, shares);
    var e := Run(Log(p, hold, at, shares), steps, shares);
    if e.schedule.status == Pending {
      assert e.solves[..0] == [];
    } else {
      ReplayedIsSane(e.solves);
    }
  }

  lemma OneMore(n: nat, m: nat)
    requires n > 0
    ensures (n - 1) * m + m == n * m
  {
  }

  lemma {:induction false} WrittenCount(tag: Tag, solves: seq<Solve>, shares: Shares)
    requires tag.primary.Some?
    ensures |Written(tag, solves, shares)| == |solves| * (1 + |tag.secondaries|)
  {
    if solves != [] {
      WrittenCount(tag, solves[..|solves| - 1], shares);
      OneMore(|solves|, 1 + |tag.secondaries|);
      assert |EvidenceRows(tag, solves[|solves| - 1].success, shares)| == 1 + |tag.secondaries|;
    }
  }

  // Every solve of a classified problem writes one row a concept, and a pending one none.
  lemma EvidenceIsCounted(p: Proposal, hold: bool, at: real, steps: seq<Step>, shares: Shares)
    ensures var e := Run(Log(p, hold, at, shares), steps, shares);
            && |e.evidence| == (if e.schedule.status == Pending then 0 else |e.solves| * (1 + |e.tag.secondaries|))
            && forall k :: 0 <= k < |e.solves| ==> e.solves[k].number == k
  {
    StoredIsReplayed(p, hold, at, steps, shares);
    var e := Run(Log(p, hold, at, shares), steps, shares);
    if e.schedule.status != Pending {
      WrittenCount(e.tag, e.solves, shares);
    }
  }

  // ---------------------------------------------------------------- what each row says

  // The claim a solve makes: the full one on the primary concept, a share on each other.
  ghost predicate Claims(row: Evidence, tag: Tag, i: nat, success: bool, shares: Shares)
    requires tag.primary.Some? && i <= |tag.secondaries|
  {
    && row.concept == (if i == 0 then tag.primary.value else tag.secondaries[i - 1])
    && row.score == (if success then 1.0 else 0.2)
    && row.confidence == if i == 0 then if success then 0.7 else 0.5
                         else if success then shares.onSolve else shares.onLapse
  }

  lemma RowsClaim(tag: Tag, success: bool, shares: Shares, i: nat)
    requires tag.primary.Some? && i <= |tag.secondaries|
    ensures |EvidenceRows(tag, success, shares)| == 1 + |tag.secondaries|
    ensures Claims(EvidenceRows(tag, success, shares)[i], tag, i, success, shares)
  {
  }

  // Where row `i` of solve `j` stands.
  function RowAt(tag: Tag, j: nat, i: nat): nat {
    j * (1 + |tag.secondaries|) + i
  }

  lemma RowAtGrows(tag: Tag, n: nat, j: nat, i: nat)
    requires j < n && i <= |tag.secondaries|
    ensures RowAt(tag, j, i) == RowAt(tag, j, 0) + i
    ensures RowAt(tag, j, i) < RowAt(tag, n, 0)
    ensures j < n - 1 ==> RowAt(tag, j, i) < RowAt(tag, n - 1, 0)
  {
    var m := 1 + |tag.secondaries|;
    assert (j + 1) * m == j * m + m;
    MoreRows(j + 1, n, m);
    if j < n - 1 {
      MoreRows(j + 1, n - 1, m);
    }
  }

  lemma MoreRows(a: nat, b: nat, m: nat)
    requires a <= b
    ensures a * m <= b * m
  {
  }

  lemma WrittenLength(tag: Tag, solves: seq<Solve>, shares: Shares)
    requires tag.primary.Some?
    ensures |Written(tag, solves, shares)| == RowAt(tag, |solves|, 0)
  {
    WrittenCount(tag, solves, shares);
  }

  lemma {:induction false} WrittenClaims(tag: Tag, solves: seq<Solve>, shares: Shares, j: nat, i: nat)
    requires tag.primary.Some? && j < |solves| && i <= |tag.secondaries|
    ensures RowAt(tag, j, i) < |Written(tag, solves, shares)|
    ensures Claims(Written(tag, solves, shares)[RowAt(tag, j, i)], tag, i, solves[j].success, shares)
  {
    hide RowAt, EvidenceRows, Claims;
    var last := |solves| - 1;
    var before := Written(tag, solves[..last], shares);
    WrittenLength(tag, solves, shares);
    WrittenLength(tag, solves[..last], shares);
    RowAtGrows(tag, |solves|, j, i);
    RowsClaim(tag, solves[last].success, shares, i);
    if j < last {
      WrittenClaims(tag, solves[..last], shares, j, i);
      assert Written(tag, solves, shares)[RowAt(tag, j, i)] == before[RowAt(tag, j, i)];
    } else {
      assert Written(tag, solves, shares)[RowAt(tag, j, i)] == EvidenceRows(tag, solves[last].success, shares)[i];
    }
  }

  // Once classified, row `i` of solve `j` is what that solve claims of concept `i`: a success
  // is worth 1.0 at 0.7 and a lapse 0.2 at 0.5, whichever came first.
  lemma EvidenceIsClaimed(p: Proposal, hold: bool, at: real, steps: seq<Step>, shares: Shares, j: nat, i: nat)
    requires var e := Run(Log(p, hold, at, shares), steps, shares);
             e.schedule.status != Pending && j < |e.solves| && i <= |e.tag.secondaries|
    ensures var e := Run(Log(p, hold, at, shares), steps, shares);
            && e.tag.primary.Some? && RowAt(e.tag, j, i) < |e.evidence|
            && Claims(e.evidence[RowAt(e.tag, j, i)], e.tag, i, e.solves[j].success, shares)
  {
    StoredIsReplayed(p, hold, at, steps, shares);
    hide Run, Log, RowAt, Claims, Written, Replayed;
    var e := Run(Log(p, hold, at, shares), steps, shares);
    WrittenClaims(e.tag, e.solves, shares, j, i);
  }

  // ---------------------------------------------------------------- what each flow does

  // A problem is counted at once exactly when its tag is sure enough and nobody holds it; its
  // first solve is on record either way.
  lemma LogIs(p: Proposal, hold: bool, at: real, shares: Shares)
    ensures var e := Log(p, hold, at, shares);
            && e.tag == p.tag && e.solves == [Solve(0, true, at)] && e.schedule.solveCount == 1
            && e.schedule.graduatedAt == None
            && if p.tag.primary.Some? && p.confidence >= 0.75 && !hold
               then e.schedule.status == Active && e.schedule.stability == Some(3.0) && e.schedule.due == Some(at + 3.0)
               else e.schedule.status == Pending && e.schedule.stability == None && e.schedule.due == None
  {
  }

  lemma {:induction false} OthersMeans(concepts: seq<Id>, primary: Id)
    ensures forall c :: multiset(Others(concepts, primary))[c] == if c == primary then 0 else multiset(concepts)[c]
    ensures primary !in concepts ==> Others(concepts, primary) == concepts
  {
    if concepts != [] {
      OthersMeans(concepts[1..], primary);
      assert concepts == [concepts[0]] + concepts[1..];
    }
  }

  // Only a pending problem is resolved, and only to known concepts. It is then on the schedule
  // it would have had from its first solve, with that solve's evidence and no other.
  lemma ResolveIs(p: Proposal, hold: bool, at: real, steps: seq<Step>, shares: Shares,
                  primary: Id, secondaries: seq<Id>, known: bool)
    ensures var e := Run(Log(p, hold, at, shares), steps, shares);
            var t := Next(e, Resolve(primary, secondaries, known), shares);
            if e.schedule.status == Pending && known then
              && t.tag.primary == Some(primary) && primary !in t.tag.secondaries
              && (forall c :: c != primary ==> multiset(t.tag.secondaries)[c] == multiset(secondaries)[c])
              && t.schedule == Schedule(Active, 1, Some(3.0), Some(at + 3.0), None)
              && t.solves == e.solves == [Solve(0, true, at)] && |t.evidence| == 1 + |t.tag.secondaries|
            else
              t == e
  {
    StoredIsReplayed(p, hold, at, steps, shares);
    FirstIsLogged(p, hold, at, steps, shares);
    OthersMeans(secondaries, primary);
    assert primary in Others(secondaries, primary) <==> multiset(Others(secondaries, primary))[primary] > 0;
  }

  lemma {:induction false} FirstIsLogged(p: Proposal, hold: bool, at: real, steps: seq<Step>, shares: Shares)
    ensures var e := Run(Log(p, hold, at, shares), steps, shares);
            e.solves != [] && e.solves[0] == Solve(0, true, at)
  {
    if steps != [] {
      FirstIsLogged(p, hold, at, steps[..|steps| - 1], shares);
    }
  }

  lemma ReviewSchedules(s: Schedule, successes: nat, success: bool, when: real)
    requires Sane(s, successes) && s.status == Active && successes >= 1
    ensures s.solveCount in {1, 2} && s.stability.Some? && s.graduatedAt == None
    ensures var days := s.stability.value;
            var shorter := if days < 2.0 then 1.0 else days / 2.0;
            AfterReview(s, success, when) ==
              if !success then Schedule(Active, s.solveCount, Some(shorter), Some(when + shorter), None)
              else if s.solveCount == 1 then Schedule(Active, 2, Some(2.5 * days), Some(when + 2.5 * days), None)
              else Schedule(Graduated, 3, Some(days), None, Some(when))
  {
  }

  // Only an active problem is reviewed. A lapse halves its interval, to no less than a day; a
  // second solve makes it two and a half times as long, and a third one ends it.
  lemma ReviewIs(p: Proposal, hold: bool, at: real, steps: seq<Step>, shares: Shares, success: bool, when: real)
    ensures var e := Run(Log(p, hold, at, shares), steps, shares);
            var s, t := e.schedule, Next(e, Review(success, when), shares);
            if s.status != Active then t == e
            else
              && s.stability.Some? && s.solveCount in {1, 2}
              && t.tag == e.tag && t.solves == e.solves + [Solve(|e.solves|, success, when)]
              && var days := s.stability.value; var shorter := if days < 2.0 then 1.0 else days / 2.0;
                 t.schedule ==
                   if !success then Schedule(Active, s.solveCount, Some(shorter), Some(when + shorter), None)
                   else if s.solveCount == 1 then Schedule(Active, 2, Some(2.5 * days), Some(when + 2.5 * days), None)
                   else Schedule(Graduated, 3, Some(days), None, Some(when))
  {
    hide *;
    var e := Run(Log(p, hold, at, shares), steps, shares);
    NextReview(e, success, when, shares);
    if e.schedule.status == Active {
      ActiveIsSane(p, hold, at, steps, shares);
      ReviewSchedules(e.schedule, Successes(e.solves), success, when);
    }
  }

  lemma ActiveIsSane(p: Proposal, hold: bool, at: real, steps: seq<Step>, shares: Shares)
    requires Run(Log(p, hold, at, shares), steps, shares).schedule.status == Active
    ensures var e := Run(Log(p, hold, at, shares), steps, shares);
            Sane(e.schedule, Successes(e.solves)) && Successes(e.solves) >= 1
  {
    StoredIsReplayed(p, hold, at, steps, shares);
    RunKeepsNoneAfter(p, hold, at, steps, shares);
    hide Run, Log, NoneAfterGraduation, Replayed, Sane, Written;
    ReplayedIsSane(Run(Log(p, hold, at, shares), steps, shares).solves);
  }

  lemma NextReview(e: Entry, success: bool, when: real, shares: Shares)
    ensures var t := Next(e, Review(success, when), shares);
            if e.schedule.status != Active then t == e
            else
              && t.tag == e.tag && t.schedule == AfterReview(e.schedule, success, when)
              && t.solves == e.solves + [Solve(|e.solves|, success, when)]
  {
    hide AfterReview, EvidenceRows;
  }

  // ---------------------------------------------------------------- the stored problem

  class Problem {
    var status: Status
    var primary: Option<Id>
    var secondaries: seq<Id>
    var solveCount: nat
    var stability: Option<real>
    var due: Option<real>
    var graduatedAt: Option<real>
    var solves: seq<Solve>
    var evidence: seq<Evidence>

    ghost function Stored(): Entry
      reads this
    {
      Entry(Tag(primary, secondaries), Schedule(status, solveCount, stability, due, graduatedAt), solves, evidence)
    }

    constructor (p: Proposal, hold: bool, at: real, shares: Shares)
      ensures Stored() == Log(p, hold, at, shares)
    {
      var accepted := p.tag.primary.Some? && p.confidence >= AUTO_ACCEPT_CONFIDENCE && !hold;
      primary, secondaries := p.tag.primary, p.tag.secondaries;
      status := if accepted then Active else Pending;
      solveCount := 1;
      stability := if accepted then Some(INITIAL_INTERVAL_DAYS) else None;
      due := if accepted then Some(at + INITIAL_INTERVAL_DAYS) else None;
      graduatedAt := None;
      solves := [Solve(0, true, at)];
      evidence := if accepted then EvidenceRows(p.tag, true, shares) else [];
    }

    method WriteEvidence(success: bool, shares: Shares)
      modifies this`evidence
      ensures evidence == old(evidence) + EvidenceRows(Tag(primary, secondaries), success, shares)
    {
      evidence := evidence + EvidenceRows(Tag(primary, secondaries), success, shares);
    }

    method ResolveClassification(concept: Id, others: seq<Id>, known: bool, shares: Shares) returns (ok: bool)
      modifies this
      ensures Stored() == Next(old(Stored()), Resolve(concept, others, known), shares)
      ensures ok == !Refused(old(Stored()), Resolve(concept, others, known))
    {
      if status != Pending || !known || solves == [] {
        return false;
      }
      primary, secondaries := Some(concept), Others(others, concept);
      status := Active;
      stability, due := Some(INITIAL_INTERVAL_DAYS), Some(solves[0].at + INITIAL_INTERVAL_DAYS);
      WriteEvidence(true, shares);
      return true;
    }

    method RecordReview(success: bool, at: real, shares: Shares) returns (ok: bool)
      modifies this
      ensures Stored() == Next(old(Stored()), Review(success, at), shares)
      ensures ok == !Refused(old(Stored()), Review(success, at))
    {
      if status != Active {
        return false;
      }
      solves := solves + [Solve(|solves|, success, at)];
      var days := if stability.None? || stability.value == 0.0 then INITIAL_INTERVAL_DAYS else stability.value;
      if success {
        solveCount := solveCount + 1;
        if solveCount >= GRADUATION_SOLVES {
          status, due, graduatedAt := Graduated, None, Some(at);
        } else {
          stability := Some(NextInterval(days, true));
          due := Some(at + stability.value);
        }
      } else {
        stability := Some(NextInterval(days, false));
        due := Some(at + stability.value);
      }
      WriteEvidence(success, shares);
      return true;
    }
  }
}
