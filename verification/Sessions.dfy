/**
  The session lifecycle: turns, submissions, asynchronous gradings and ending, interleaved.

  A turn and a completion check are single steps. A submission and an ending read the
  session's status first and write later, so anything can happen in between.
*/
module Sessions {
  import opened Base

  datatype Status = Briefing | Interviewing | Wrapping | Complete | Abandoned

  datatype Grade = Graded | Failed

  // `committedIn` is the status the session had when the row was inserted. No step reads it:
  // the source stores no such column.
  datatype Artifact = Artifact(item: Id, grading: Option<Grade>, committedIn: Status)

  datatype Outcome = NotAttempted | Grading | Terminal

  // A submission, or an ending, between its check and its write.
  datatype Pending = Submission(item: Id, sawBriefing: bool) | Ending

  datatype State = State(
    now: int, status: Status, endedAt: Option<int>, plan: seq<Id>, ended: set<Id>,
    artifacts: seq<Artifact>, pending: seq<Pending>)

  datatype Step =
    | Tick(elapsed: nat)
    | TakeTurn(ends: bool)
    | BeginSubmission(item: Id)
    | BeginEnding
    | Write(p: nat)
    | RecordGrading(a: nat, grade: Grade)

  // ---------------------------------------------------------------- the predicates of the source

  predicate Open(status: Status) {
    status == Briefing || status == Interviewing
  }

  predicate Completable(status: Status) {
    Open(status) || status == Wrapping
  }

  predicate Reportable(status: Status) {
    status == Complete || status == Abandoned
  }

  predicate Submitted(artifacts: seq<Artifact>, item: Id) {
    exists a :: 0 <= a < |artifacts| && artifacts[a].item == item
  }

  // The first planned item that is neither submitted nor ended, of those the corpus knows.
  function CurrentItem(s: State, corpus: set<Id>, plan: seq<Id>): Option<Id> {
    if plan == [] then None
    else if !Submitted(s.artifacts, plan[0]) && plan[0] !in s.ended && plan[0] in corpus then Some(plan[0])
    else CurrentItem(s, corpus, plan[1..])
  }

  function OutcomeOf(artifacts: seq<Artifact>, item: Id): Outcome {
    if artifacts == [] then NotAttempted
    else if artifacts[0].item == item then if artifacts[0].grading.Some? then Terminal else Grading
    else OutcomeOf(artifacts[1..], item)
  }

  // Whether nothing is left to wait for. `not_attempted` is final only while wrapping.
  predicate AllDone(s: State) {
    forall i :: 0 <= i < |s.plan| ==>
      OutcomeOf(s.artifacts, s.plan[i]) == Terminal
      || (s.status == Wrapping && OutcomeOf(s.artifacts, s.plan[i]) == NotAttempted)
  }

  // ---------------------------------------------------------------- the steps

  function MaybeComplete(s: State): State {
    if Completable(s.status) && AllDone(s) then s.(status := Complete, endedAt := Some(s.now)) else s
  }

  function AfterTurn(s: State, corpus: set<Id>, item: Id, ends: bool): State {
    var spoken := s.(status := Interviewing);
    var over := if ends then spoken.(ended := s.ended + {item}) else spoken;
    if ends && CurrentItem(over, corpus, over.plan).None? then MaybeComplete(over.(status := Wrapping)) else over
  }

  function Insert(s: State, item: Id, sawBriefing: bool): State {
    if Submitted(s.artifacts, item) then s  // refused by the unique constraint
    else
      var stored := s.(artifacts := s.artifacts + [Artifact(item, None, s.status)]);
      if sawBriefing && s.status == Briefing then stored.(status := Interviewing) else stored
  }

  function Abandon(s: State): State {
    if Reportable(s.status) then s else s.(status := Abandoned, endedAt := Some(s.now))
  }

  function Next(corpus: set<Id>, s: State, step: Step): State {
    match step
    case Tick(elapsed) => s.(now := s.now + elapsed)
    case TakeTurn(ends) =>
      var item := CurrentItem(s, corpus, s.plan);
      if Open(s.status) && item.Some? then AfterTurn(s, corpus, item.value, ends) else s
    case BeginSubmission(item) =>
      if Open(s.status) && item in s.plan && item in corpus && !Submitted(s.artifacts, item)
      then s.(pending := s.pending + [Submission(item, s.status == Briefing)]) else s
    case BeginEnding => if Reportable(s.status) then s else s.(pending := s.pending + [Ending])
    case Write(p) =>
      if p >= |s.pending| then s
      else
        var rest := s.(pending := s.pending[..p] + s.pending[p + 1..]);
        (match s.pending[p]
         case Submission(item, sawBriefing) => Insert(rest, item, sawBriefing)
         case Ending => Abandon(rest))
    case RecordGrading(a, grade) =>
      if a >= |s.artifacts| then s
      else MaybeComplete(s.(artifacts := s.artifacts[a := s.artifacts[a].(grading := Some(grade))]))
  }

  function Initial(start: int, plan: seq<Id>): State {
    State(start, Briefing, None, plan, {}, [], [])
  }

  function Run(corpus: set<Id>, start: int, plan: seq<Id>, steps: seq<Step>): State {
    if steps == [] then Initial(start, plan)
    else Next(corpus, Run(corpus, start, plan, steps[..|steps| - 1]), steps[|steps| - 1])
  }

  // ---------------------------------------------------------------- the invariant

  predicate Ungraded(s: State, a: int) {
    0 <= a < |s.artifacts| && s.artifacts[a].grading.None?
  }

  // What holds even between a write and the completion check that follows it.
  ghost predicate Consistent(s: State) {
    && (s.endedAt.Some? <==> Reportable(s.status))
    && (forall a, b :: 0 <= a < b < |s.artifacts| ==> s.artifacts[a].item != s.artifacts[b].item)
    && (forall a :: 0 <= a < |s.artifacts| ==> s.artifacts[a].item in s.plan)
    && (forall p :: 0 <= p < |s.pending| && s.pending[p].Submission? ==> s.pending[p].item in s.plan)
    && (s.status == Complete ==> forall a :: Ungraded(s, a) ==> s.artifacts[a].committedIn == Complete)
  }

  ghost predicate Unfinished(s: State, i: int) {
    0 <= i < |s.plan| && OutcomeOf(s.artifacts, s.plan[i]) != Terminal
  }

  ghost predicate Invariant(s: State) {
    && Consistent(s)
    && (s.status == Wrapping ==> exists a :: Ungraded(s, a))
    && (Open(s.status) ==> exists i :: Unfinished(s, i))
  }

  lemma {:induction false} OutcomeMeans(artifacts: seq<Artifact>, item: Id)
    ensures OutcomeOf(artifacts, item) == NotAttempted <==> !Submitted(artifacts, item)
    ensures OutcomeOf(artifacts, item) != NotAttempted ==>
              exists a :: 0 <= a < |artifacts| && artifacts[a].item == item
                          && (OutcomeOf(artifacts, item) == Terminal <==> artifacts[a].grading.Some?)
  {
    if artifacts != [] {
      OutcomeMeans(artifacts[1..], item);
      if artifacts[0].item != item {
        if a :| 0 <= a < |artifacts[1..]| && artifacts[1..][a].item == item
                && (OutcomeOf(artifacts[1..], item) == Terminal <==> artifacts[1..][a].grading.Some?) {
          assert artifacts[a + 1].item == item;
        }
        if a :| 0 <= a < |artifacts| && artifacts[a].item == item {
          assert artifacts[1..][a - 1].item == item;
        }
      }
    }
  }

  // With one artifact an item, an item's outcome is its artifact's.
  lemma OutcomeOfArtifact(artifacts: seq<Artifact>, a: nat)
    requires forall x, y :: 0 <= x < y < |artifacts| ==> artifacts[x].item != artifacts[y].item
    requires a < |artifacts|
    ensures OutcomeOf(artifacts, artifacts[a].item) == if artifacts[a].grading.Some? then Terminal else Grading
  {
    OutcomeMeans(artifacts, artifacts[a].item);
  }

  // ---------------------------------------------------------------- what every step keeps

  // The check completes a session exactly when nothing is left to wait for, and leaves no
  // session waiting for what cannot come.
  lemma CheckEstablishes(s: State)
    requires Consistent(s)
    ensures Invariant(MaybeComplete(s))
    ensures MaybeComplete(s).status == Complete && s.status != Complete ==> forall a :: !Ungraded(s, a)
  {
    forall a | Ungraded(s, a) && Completable(s.status) ensures !AllDone(s) {
      OutcomeOfArtifact(s.artifacts, a);
      var i :| 0 <= i < |s.plan| && s.plan[i] == s.artifacts[a].item;
      assert OutcomeOf(s.artifacts, s.plan[i]) == Grading;
    }
    if Completable(s.status) && !AllDone(s) {
      var i :| 0 <= i < |s.plan| && OutcomeOf(s.artifacts, s.plan[i]) != Terminal
                && !(s.status == Wrapping && OutcomeOf(s.artifacts, s.plan[i]) == NotAttempted);
      assert Unfinished(s, i);
      OutcomeMeans(s.artifacts, s.plan[i]);
      assert MaybeComplete(s) == s;
      if s.status == Wrapping {
        var a :| 0 <= a < |s.artifacts| && s.artifacts[a].item == s.plan[i]
                  && (OutcomeOf(s.artifacts, s.plan[i]) == Terminal <==> s.artifacts[a].grading.Some?);
        assert Ungraded(s, a);
      }
    } else {
      forall a | Ungraded(MaybeComplete(s), a) ensures Ungraded(s, a) {}
    }
  }

  lemma TurnKeeps(s: State, corpus: set<Id>, item: Id, ends: bool)
    requires Invariant(s) && Open(s.status)
    ensures Invariant(AfterTurn(s, corpus, item, ends))
  {
    var i :| Unfinished(s, i);
    var spoken := s.(status := Interviewing);
    var over := if ends then spoken.(ended := s.ended + {item}) else spoken;
    assert Unfinished(over, i);
    assert forall a :: Ungraded(over, a) ==> Ungraded(s, a);
    if ends && CurrentItem(over, corpus, over.plan).None? {
      CheckEstablishes(over.(status := Wrapping));
    }
  }

  lemma {:induction false} OutcomeAfterInsert(artifacts: seq<Artifact>, added: Artifact, item: Id)
    requires added.grading.None?
    ensures OutcomeOf(artifacts, item) != Terminal ==> OutcomeOf(artifacts + [added], item) != Terminal
  {
    if artifacts != [] {
      assert (artifacts + [added])[1..] == artifacts[1..] + [added];
      OutcomeAfterInsert(artifacts[1..], added, item);
    }
  }

  lemma InsertKeeps(s: State, item: Id, sawBriefing: bool)
    requires Invariant(s) && item in s.plan
    ensures Invariant(Insert(s, item, sawBriefing))
  {
    if !Submitted(s.artifacts, item) {
      var t := Insert(s, item, sawBriefing);
      var row := Artifact(item, None, s.status);
      assert t.artifacts == s.artifacts + [row];
      assert Ungraded(t, |s.artifacts|);
      forall a | Ungraded(t, a) && a < |s.artifacts| ensures Ungraded(s, a) {}
      if Open(s.status) {
        var i :| Unfinished(s, i);
        OutcomeAfterInsert(s.artifacts, row, s.plan[i]);
        assert Unfinished(t, i);
      }
    }
  }

  lemma GradingKeeps(s: State, a: nat, grade: Grade)
    requires Invariant(s) && a < |s.artifacts|
    ensures Consistent(s.(artifacts := s.artifacts[a := s.artifacts[a].(grading := Some(grade))]))
  {
    var t := s.(artifacts := s.artifacts[a := s.artifacts[a].(grading := Some(grade))]);
    forall b | Ungraded(t, b) ensures Ungraded(s, b) && t.artifacts[b] == s.artifacts[b] {}
  }

  lemma SameSessionKeeps(s: State, t: State)
    requires Invariant(s)
    requires t.status == s.status && t.plan == s.plan && t.artifacts == s.artifacts && t.endedAt == s.endedAt
    requires forall p :: 0 <= p < |t.pending| && t.pending[p].Submission? ==> t.pending[p].item in t.plan
    ensures Invariant(t)
  {
    forall a | Ungraded(s, a) ensures Ungraded(t, a) {}
    forall a | Ungraded(t, a) ensures Ungraded(s, a) {}
    forall i | Unfinished(s, i) ensures Unfinished(t, i) {}
  }

  lemma StepKeeps(corpus: set<Id>, s: State, step: Step)
    requires Invariant(s)
    ensures Invariant(Next(corpus, s, step))
  {
    match step {
      case Tick(elapsed) => SameSessionKeeps(s, Next(corpus, s, step));
      case TakeTurn(ends) =>
        var item := CurrentItem(s, corpus, s.plan);
        if Open(s.status) && item.Some? { TurnKeeps(s, corpus, item.value, ends); }
      case BeginSubmission(item) => SameSessionKeeps(s, Next(corpus, s, step));
      case BeginEnding => SameSessionKeeps(s, Next(corpus, s, step));
      case Write(p) =>
        if p < |s.pending| {
          var rest := s.(pending := s.pending[..p] + s.pending[p + 1..]);
          SameSessionKeeps(s, rest);
          match s.pending[p] {
            case Submission(item, sawBriefing) => InsertKeeps(rest, item, sawBriefing);
            case Ending =>
              forall a | Ungraded(Abandon(rest), a) ensures Ungraded(rest, a) {}
          }
        }
      case RecordGrading(a, grade) =>
        if a < |s.artifacts| {
          GradingKeeps(s, a, grade);
          CheckEstablishes(s.(artifacts := s.artifacts[a := s.artifacts[a].(grading := Some(grade))]));
        }
    }
  }

  // In every reachable state of a session with a plan.
  lemma {:induction false} InvariantHolds(corpus: set<Id>, start: int, plan: seq<Id>, steps: seq<Step>)
    requires plan != []
    ensures Invariant(Run(corpus, start, plan, steps))
  {
    if steps == [] {
      assert Unfinished(Initial(start, plan), 0);
    } else {
      InvariantHolds(corpus, start, plan, steps[..|steps| - 1]);
      StepKeeps(corpus, Run(corpus, start, plan, steps[..|steps| - 1]), steps[|steps| - 1]);
    }
  }

  // ---------------------------------------------------------------- the promises

  // Ended exactly when complete or abandoned; one artifact an item; a wrapping session waits
  // for a grading that is still to come, and an open one for an item that is still undecided.
  lemma ReachableSessions(corpus: set<Id>, start: int, plan: seq<Id>, steps: seq<Step>)
    requires plan != []
    ensures var s := Run(corpus, start, plan, steps);
            && (s.endedAt.Some? <==> s.status == Complete || s.status == Abandoned)
            && (forall a, b :: 0 <= a < b < |s.artifacts| ==> s.artifacts[a].item != s.artifacts[b].item)
            && (s.status == Wrapping ==> exists a :: Ungraded(s, a))
            && (Open(s.status) ==> exists i :: Unfinished(s, i))
  {
    InvariantHolds(corpus, start, plan, steps);
  }

  // Both ends are absorbing: no interleaving leaves them or moves the time they carry.
  lemma {:induction false} EndsAreAbsorbing(corpus: set<Id>, start: int, plan: seq<Id>, steps: seq<Step>,
      more: seq<Step>)
    requires Reportable(Run(corpus, start, plan, steps).status)
    ensures var s, t := Run(corpus, start, plan, steps), Run(corpus, start, plan, steps + more);
            t.status == s.status && t.endedAt == s.endedAt
  {
    if more == [] {
      assert steps + more == steps;
    } else {
      var last := |more| - 1;
      EndsAreAbsorbing(corpus, start, plan, steps, more[..last]);
      assert (steps + more)[..|steps + more| - 1] == steps + more[..last];
    }
  }

  // From any state that is not an end, an ending whose check passed abandons the session.
  lemma EndingEnds(corpus: set<Id>, s: State)
    requires !Reportable(s.status)
    ensures var t := Next(corpus, Next(corpus, s, BeginEnding), Write(|s.pending|));
            t.status == Abandoned && t.endedAt == Some(s.now)
  {
    assert Next(corpus, s, BeginEnding).pending[|s.pending|] == Ending;
  }

  // The grading of the last ungraded artifact of a wrapping session completes it, always.
  lemma LastGradingCompletes(corpus: set<Id>, start: int, plan: seq<Id>, steps: seq<Step>, a: nat, grade: Grade)
    requires plan != []
    requires var s := Run(corpus, start, plan, steps);
             s.status == Wrapping && a < |s.artifacts| && forall b :: Ungraded(s, b) ==> b == a
    ensures var t := Next(corpus, Run(corpus, start, plan, steps), RecordGrading(a, grade));
            t.status == Complete && t.endedAt == Some(t.now)
  {
    InvariantHolds(corpus, start, plan, steps);
    var s := Run(corpus, start, plan, steps);
    var t := s.(artifacts := s.artifacts[a := s.artifacts[a].(grading := Some(grade))]);
    GradingKeeps(s, a, grade);
    CheckEstablishes(t);
    if MaybeComplete(t) == t {
      var b :| Ungraded(t, b);
      assert Ungraded(s, b);
    }
  }

  // "A complete session has no ungraded artifact" is false of the code: a submission that
  // checked the session while it was open may be stored after it completed.
  lemma LateSubmissionIsUngraded(item: Id)
    ensures var steps := [BeginSubmission(item), TakeTurn(true), Write(0)];
            var s := Run({item}, 0, [item], steps);
            s.status == Complete && Ungraded(s, 0)
  {
    var s0 := Initial(0, [item]);
    var steps := [BeginSubmission(item), TakeTurn(true), Write(0)];
    assert steps[..2] == [BeginSubmission(item), TakeTurn(true)]
           && steps[..2][..1] == [BeginSubmission(item)] && steps[..2][..1][..0] == [];
    var s1 := Next({item}, s0, steps[0]);
    assert s1.pending == [Submission(item, true)];
    assert CurrentItem(s1, {item}, [item]) == Some(item);
    var over := s1.(status := Interviewing, ended := s1.ended + {item});
    assert [item][1..] == [] && CurrentItem(over, {item}, [item]) == CurrentItem(over, {item}, []) == None;
    var wrapped := over.(status := Wrapping);
    assert AllDone(wrapped);
    var s2 := wrapped.(status := Complete, endedAt := Some(0));
    assert Next({item}, s1, steps[1]) == s2;
    assert Run({item}, 0, [item], [BeginSubmission(item)]) == s1;
    assert Run({item}, 0, [item], steps[..2]) == s2;
    assert Next({item}, s2, steps[2]).artifacts == [Artifact(item, None, Complete)];
  }

  // Which is the only way: an ungraded artifact of a complete session was stored in one, and
  // storing one there is exactly what a submission held back until then does.
  lemma UngradedInCompleteIsLate(corpus: set<Id>, start: int, plan: seq<Id>, steps: seq<Step>)
    requires plan != []
    ensures var s := Run(corpus, start, plan, steps);
            s.status == Complete ==> forall a :: Ungraded(s, a) ==> s.artifacts[a].committedIn == Complete
  {
    InvariantHolds(corpus, start, plan, steps);
  }

  // No submission is stored in a session that is already over.
  ghost predicate NoLateWrites(corpus: set<Id>, start: int, plan: seq<Id>, steps: seq<Step>) {
    forall n :: 0 <= n < |steps| && steps[n].Write? ==>
      var s := Run(corpus, start, plan, steps[..n]);
      steps[n].p < |s.pending| && s.pending[steps[n].p].Submission? ==> s.status != Complete
  }

  lemma {:induction false} CommittedInTime(corpus: set<Id>, start: int, plan: seq<Id>, steps: seq<Step>)
    requires NoLateWrites(corpus, start, plan, steps)
    ensures forall a :: 0 <= a < |Run(corpus, start, plan, steps).artifacts| ==>
              Run(corpus, start, plan, steps).artifacts[a].committedIn != Complete
  {
    if steps != [] {
      var last := |steps| - 1;
      var before := steps[..last];
      forall n | 0 <= n < |before| && before[n].Write?
        ensures var s := Run(corpus, start, plan, before[..n]);
                before[n].p < |s.pending| && s.pending[before[n].p].Submission? ==> s.status != Complete
      {
        assert before[..n] == steps[..n] && before[n] == steps[n];
      }
      CommittedInTime(corpus, start, plan, before);
    }
  }

  // With every submission stored before the end, a complete session is fully graded.
  lemma CompleteIsGraded(corpus: set<Id>, start: int, plan: seq<Id>, steps: seq<Step>)
    requires plan != [] && NoLateWrites(corpus, start, plan, steps)
    ensures var s := Run(corpus, start, plan, steps);
            s.status == Complete ==> forall a :: !Ungraded(s, a)
  {
    UngradedInCompleteIsLate(corpus, start, plan, steps);
    CommittedInTime(corpus, start, plan, steps);
  }

  // And exactly then: of a complete session that is fully graded, a held-back write leaves an
  // ungraded artifact if and only if it is a submission of an item that has none.
  lemma LateWriteIsUngradedIff(corpus: set<Id>, s: State, p: nat)
    requires s.status == Complete && p < |s.pending| && forall a :: !Ungraded(s, a)
    ensures var t := Next(corpus, s, Write(p));
            (exists a :: Ungraded(t, a)) <==> s.pending[p].Submission? && !Submitted(s.artifacts, s.pending[p].item)
  {
    var t := Next(corpus, s, Write(p));
    if s.pending[p].Submission? && !Submitted(s.artifacts, s.pending[p].item) {
      assert Ungraded(t, |s.artifacts|);
    } else {
      forall a ensures !Ungraded(t, a) {
        assert !Ungraded(s, a);
      }
    }
  }

  // ---------------------------------------------------------------- what is let in, and when

  // The session takes turns and submissions while this holds, and never after.
  ghost predicate Takes(status: Status) {
    status in {Briefing, Interviewing}
  }

  // Step `n` began this submission, in an open session that had none of the item.
  ghost predicate Began(corpus: set<Id>, start: int, plan: seq<Id>, steps: seq<Step>, n: nat, item: Id, saw: bool) {
    && n < |steps| && steps[n] == BeginSubmission(item) && item in plan && item in corpus
    && var s := Run(corpus, start, plan, steps[..n]);
       && Takes(s.status) && (saw <==> s.status == Briefing)
       && forall a :: 0 <= a < |s.artifacts| ==> s.artifacts[a].item != item
  }

  ghost predicate HasBegun(corpus: set<Id>, start: int, plan: seq<Id>, steps: seq<Step>, item: Id) {
    exists n: nat, saw :: Began(corpus, start, plan, steps, n, item, saw)
  }

  lemma BeganStays(corpus: set<Id>, start: int, plan: seq<Id>, steps: seq<Step>, n: nat, item: Id, saw: bool)
    requires steps != [] && Began(corpus, start, plan, steps[..|steps| - 1], n, item, saw)
    ensures Began(corpus, start, plan, steps, n, item, saw)
  {
    assert steps[..|steps| - 1][..n] == steps[..n];
  }

  // What a step may bring: a submission it began, or an artifact that was waiting.
  lemma WhereFrom(corpus: set<Id>, s: State, step: Step)
    ensures var t := Next(corpus, s, step);
            && t.plan == s.plan
            && (forall p :: 0 <= p < |t.pending| && t.pending[p].Submission? ==>
                  t.pending[p] in s.pending
                  || (step == BeginSubmission(t.pending[p].item) && Takes(s.status)
                      && t.pending[p].item in s.plan && t.pending[p].item in corpus
                      && !Submitted(s.artifacts, t.pending[p].item)
                      && t.pending[p].sawBriefing == (s.status == Briefing)))
            && (forall a :: 0 <= a < |t.artifacts| ==>
                  || (a < |s.artifacts| && t.artifacts[a].item == s.artifacts[a].item)
                  || exists saw :: Submission(t.artifacts[a].item, saw) in s.pending)
  {
    var t := Next(corpus, s, step);
    forall p | 0 <= p < |t.pending| && t.pending[p].Submission?
      ensures t.pending[p] in s.pending
              || (step == BeginSubmission(t.pending[p].item) && Takes(s.status)
                  && t.pending[p].item in s.plan && t.pending[p].item in corpus
                  && !Submitted(s.artifacts, t.pending[p].item)
                  && t.pending[p].sawBriefing == (s.status == Briefing))
    {
      if p < |s.pending| && t.pending[p] == s.pending[p] {
        assert t.pending[p] in s.pending;
      }
    }
    forall a | 0 <= a < |t.artifacts|
      ensures (a < |s.artifacts| && t.artifacts[a].item == s.artifacts[a].item)
              || exists saw :: Submission(t.artifacts[a].item, saw) in s.pending
    {
      if step.Write? && step.p < |s.pending| && s.pending[step.p].Submission? && a == |s.artifacts| {
        assert t.artifacts[a].item == s.pending[step.p].item;
        assert Submission(s.pending[step.p].item, s.pending[step.p].sawBriefing) in s.pending;
      }
    }
  }

  lemma {:induction false} AllBegan(corpus: set<Id>, start: int, plan: seq<Id>, steps: seq<Step>)
    ensures Run(corpus, start, plan, steps).plan == plan
    ensures forall item, saw :: Submission(item, saw) in Run(corpus, start, plan, steps).pending ==>
              exists n: nat :: Began(corpus, start, plan, steps, n, item, saw)
    ensures forall a :: 0 <= a < |Run(corpus, start, plan, steps).artifacts| ==>
              HasBegun(corpus, start, plan, steps, Run(corpus, start, plan, steps).artifacts[a].item)
  {
    if steps != [] {
      var last := |steps| - 1;
      var before, step := steps[..last], steps[last];
      var s, t := Run(corpus, start, plan, before), Run(corpus, start, plan, steps);
      AllBegan(corpus, start, plan, before);
      WhereFrom(corpus, s, step);
      hide Next, Run, Submitted;
      forall item, saw | Submission(item, saw) in t.pending
        ensures exists n: nat :: Began(corpus, start, plan, steps, n, item, saw)
      {
        if Submission(item, saw) in s.pending {
          var n: nat :| Began(corpus, start, plan, before, n, item, saw);
          BeganStays(corpus, start, plan, steps, n, item, saw);
        } else {
          NotSubmitted(s.artifacts, item);
          assert Began(corpus, start, plan, steps, last, item, saw);
        }
      }
      forall a | 0 <= a < |t.artifacts|
        ensures HasBegun(corpus, start, plan, steps, t.artifacts[a].item)
      {
        var item := t.artifacts[a].item;
        if a < |s.artifacts| && item == s.artifacts[a].item {
          var n: nat, saw :| Began(corpus, start, plan, before, n, item, saw);
          BeganStays(corpus, start, plan, steps, n, item, saw);
        } else {
          var saw :| Submission(item, saw) in s.pending;
          var n: nat :| Began(corpus, start, plan, before, n, item, saw);
          BeganStays(corpus, start, plan, steps, n, item, saw);
        }
      }
    }
  }

  lemma NotSubmitted(artifacts: seq<Artifact>, item: Id)
    requires !Submitted(artifacts, item)
    ensures forall a :: 0 <= a < |artifacts| ==> artifacts[a].item != item
  {
  }

  // Whatever is stored, and whenever, was submitted while the session was briefing or
  // interviewing, for a planned item that had no submission then.
  lemma SubmittedWhileOpen(corpus: set<Id>, start: int, plan: seq<Id>, steps: seq<Step>, a: nat)
    requires a < |Run(corpus, start, plan, steps).artifacts|
    ensures var item := Run(corpus, start, plan, steps).artifacts[a].item;
            item in plan
            && exists n: nat ::
                 && n < |steps| && steps[n] == BeginSubmission(item)
                 && Run(corpus, start, plan, steps[..n]).status in {Briefing, Interviewing}
                 && forall b :: 0 <= b < |Run(corpus, start, plan, steps[..n]).artifacts| ==>
                      Run(corpus, start, plan, steps[..n]).artifacts[b].item != item
  {
    AllBegan(corpus, start, plan, steps);
    var item := Run(corpus, start, plan, steps).artifacts[a].item;
    var n: nat, saw :| Began(corpus, start, plan, steps, n, item, saw);
    assert n < |steps| && steps[n] == BeginSubmission(item);
  }

  // A session past its interview takes no turn and no submission; one that is over is not
  // ended again.
  lemma ClosedTakesNothing(corpus: set<Id>, s: State, item: Id, ends: bool)
    requires s.status in {Wrapping, Complete, Abandoned}
    ensures Next(corpus, s, BeginSubmission(item)) == s && Next(corpus, s, Step.TakeTurn(ends)) == s
    ensures Next(corpus, s, BeginEnding) == s <==> s.status != Wrapping
  {
  }

  // While it is open, a submission is let in exactly when the item is planned, known and has
  // none; it is then held until it is written, with what it saw.
  lemma OpenLetsInIff(corpus: set<Id>, s: State, item: Id)
    requires s.status in {Briefing, Interviewing}
    ensures var t := Next(corpus, s, BeginSubmission(item));
            if item in s.plan && item in corpus && forall a :: 0 <= a < |s.artifacts| ==> s.artifacts[a].item != item
            then t == s.(pending := s.pending + [Submission(item, s.status == Briefing)]) else t == s
    ensures Next(corpus, s, BeginEnding) == s.(pending := s.pending + [Ending])
  {
  }

  // ---------------------------------------------------------------- what moves the status

  // The interview is still to come as long as nobody spoke and nothing is stored.
  ghost predicate Untouched(s: State) {
    && (s.status == Briefing ==> s.artifacts == [] && s.ended == {} && s.endedAt == None)
    && forall p :: 0 <= p < |s.pending| && s.pending[p].Submission? && !s.pending[p].sawBriefing ==>
         s.status != Briefing
  }

  lemma StepKeepsUntouched(corpus: set<Id>, s: State, step: Step)
    requires Untouched(s)
    ensures Untouched(Next(corpus, s, step))
    ensures s.status != Briefing ==> Next(corpus, s, step).status != Briefing
  {
    var t := Next(corpus, s, step);
    forall p | 0 <= p < |t.pending| && t.pending[p].Submission? && !t.pending[p].sawBriefing
      ensures t.status != Briefing
    {
      WhereFrom(corpus, s, step);
    }
  }

  // A session with anything stored or any item ended has left its briefing, and none returns.
  lemma {:induction false} BriefingIsUntouched(corpus: set<Id>, start: int, plan: seq<Id>, steps: seq<Step>)
    ensures Untouched(Run(corpus, start, plan, steps))
    ensures var s := Run(corpus, start, plan, steps);
            s.status == Briefing ==> s.artifacts == [] && s.ended == {} && s.endedAt == None
                                     && forall n :: 0 <= n <= |steps| ==>
                                          Run(corpus, start, plan, steps[..n]).status == Briefing
  {
    if steps != [] {
      var before := steps[..|steps| - 1];
      BriefingIsUntouched(corpus, start, plan, before);
      StepKeepsUntouched(corpus, Run(corpus, start, plan, before), steps[|steps| - 1]);
      if Run(corpus, start, plan, steps).status == Briefing {
        forall n | 0 <= n <= |steps| ensures Run(corpus, start, plan, steps[..n]).status == Briefing {
          assert n < |steps| ==> before[..n] == steps[..n];
          assert n == |steps| ==> steps[..n] == steps;
        }
      }
    } else {
      assert forall n :: 0 <= n <= |steps| ==> steps[..n] == [];
    }
  }

  // The item at `i` is still to be talked about.
  ghost predicate Undecided(s: State, corpus: set<Id>, i: int) {
    && 0 <= i < |s.plan| && s.plan[i] in corpus && s.plan[i] !in s.ended
    && forall a :: 0 <= a < |s.artifacts| ==> s.artifacts[a].item != s.plan[i]
  }

  ghost predicate IsNext(s: State, corpus: set<Id>, i: int) {
    Undecided(s, corpus, i) && forall j :: 0 <= j < i ==> !Undecided(s, corpus, j)
  }

  lemma {:induction false} CurrentIsNext(s: State, corpus: set<Id>, from: nat)
    requires from <= |s.plan| && forall j :: 0 <= j < from ==> !Undecided(s, corpus, j)
    ensures var item := CurrentItem(s, corpus, s.plan[from..]);
            if item.None? then forall i :: !Undecided(s, corpus, i)
            else exists i :: IsNext(s, corpus, i) && s.plan[i] == item.value
    decreases |s.plan| - from
  {
    if from < |s.plan| {
      var rest := s.plan[from..];
      assert rest[0] == s.plan[from] && rest[1..] == s.plan[from + 1..];
      assert Undecided(s, corpus, from) <==>
               !Submitted(s.artifacts, rest[0]) && rest[0] !in s.ended && rest[0] in corpus;
      if Undecided(s, corpus, from) {
        assert IsNext(s, corpus, from);
      } else {
        CurrentIsNext(s, corpus, from + 1);
      }
    }
  }

  // A wrapping session is complete as soon as no artifact waits for its grade.
  lemma WrappingCompletesIff(s: State)
    requires Consistent(s) && s.status == Wrapping
    ensures MaybeComplete(s) ==
              if exists a :: Ungraded(s, a) then s else s.(status := Complete, endedAt := Some(s.now))
  {
    if a :| Ungraded(s, a) {
      OutcomeOfArtifact(s.artifacts, a);
      var i :| 0 <= i < |s.plan| && s.plan[i] == s.artifacts[a].item;
      assert OutcomeOf(s.artifacts, s.plan[i]) == Grading;
    } else {
      forall i | 0 <= i < |s.plan| ensures OutcomeOf(s.artifacts, s.plan[i]) != Grading {
        OutcomeMeans(s.artifacts, s.plan[i]);
        if OutcomeOf(s.artifacts, s.plan[i]) == Grading {
          var a :| 0 <= a < |s.artifacts| && s.artifacts[a].item == s.plan[i] && s.artifacts[a].grading.None?;
          assert Ungraded(s, a);
        }
      }
    }
  }

  // A turn is about the first item that is undecided, and there is none without one. When it
  // ends that item and no other is left, the session wraps up, and is complete at once if no
  // grading is under way.
  lemma TurnMeans(corpus: set<Id>, s: State, i: nat, ends: bool)
    requires Invariant(s) && Open(s.status) && IsNext(s, corpus, i)
    ensures var t := Next(corpus, s, Step.TakeTurn(ends));
            var left := !ends || exists j :: Undecided(s, corpus, j) && s.plan[j] != s.plan[i];
            var waits := exists a :: Ungraded(s, a);
            && t.now == s.now && t.plan == s.plan && t.artifacts == s.artifacts && t.pending == s.pending
            && t.ended == (if ends then s.ended + {s.plan[i]} else s.ended)
            && t.status == (if left then Interviewing else if waits then Wrapping else Complete)
            && t.endedAt == (if left || waits then s.endedAt else Some(s.now))
  {
    CurrentIsNext(s, corpus, 0);
    assert s.plan[0..] == s.plan;
    var k :| IsNext(s, corpus, k) && CurrentItem(s, corpus, s.plan) == Some(s.plan[k]);
    assert k == i;
    if ends {
      var over := s.(status := Interviewing, ended := s.ended + {s.plan[i]});
      CurrentIsNext(over, corpus, 0);
      assert over.plan[0..] == over.plan;
      assert forall j :: Undecided(over, corpus, j) <==> Undecided(s, corpus, j) && s.plan[j] != s.plan[i];
      var wrapped := over.(status := Wrapping);
      assert forall a :: Ungraded(wrapped, a) <==> Ungraded(s, a);
      assert Consistent(wrapped);
      WrappingCompletesIff(wrapped);
    }
  }

  lemma NoTurnWithoutItem(corpus: set<Id>, s: State, ends: bool)
    requires forall i :: !Undecided(s, corpus, i)
    ensures Next(corpus, s, Step.TakeTurn(ends)) == s
  {
    CurrentIsNext(s, corpus, 0);
    assert s.plan[0..] == s.plan;
  }

  ghost predicate GradedAfter(s: State, a: nat, i: int)
    requires 0 <= i < |s.plan|
  {
    exists b :: 0 <= b < |s.artifacts| && s.artifacts[b].item == s.plan[i] && (b == a || s.artifacts[b].grading.Some?)
  }

  // A grade is put on its artifact alone. It completes a wrapping session when no other
  // artifact waits, an open one when every planned item then has its grade, and no other.
  lemma GradingMeans(corpus: set<Id>, s: State, a: nat, grade: Grade)
    requires Invariant(s) && a < |s.artifacts|
    ensures var t := Next(corpus, s, RecordGrading(a, grade));
            var completes := if s.status == Wrapping then forall b :: Ungraded(s, b) ==> b == a
                             else s.status in {Briefing, Interviewing}
                                  && forall i :: 0 <= i < |s.plan| ==> GradedAfter(s, a, i);
            && t.now == s.now && t.plan == s.plan && t.ended == s.ended && t.pending == s.pending
            && |t.artifacts| == |s.artifacts| && t.artifacts[a] == s.artifacts[a].(grading := Some(grade))
            && (forall b :: 0 <= b < |s.artifacts| && b != a ==> t.artifacts[b] == s.artifacts[b])
            && t.status == (if completes then Complete else s.status)
            && t.endedAt == (if completes then Some(s.now) else s.endedAt)
  {
    var graded := s.(artifacts := s.artifacts[a := s.artifacts[a].(grading := Some(grade))]);
    GradingKeeps(s, a, grade);
    if s.status == Wrapping {
      WrappingCompletesIff(graded);
      assert forall b :: Ungraded(graded, b) <==> Ungraded(s, b) && b != a;
    } else if Open(s.status) {
      forall i | 0 <= i < |s.plan|
        ensures OutcomeOf(graded.artifacts, s.plan[i]) == Terminal <==> GradedAfter(s, a, i)
      {
        GradedIff(s, graded.artifacts, a, i);
      }
    }
  }

  lemma GradedIff(s: State, graded: seq<Artifact>, a: nat, i: nat)
    requires Consistent(s) && a < |s.artifacts| && i < |s.plan|
    requires |graded| == |s.artifacts| && graded[a].item == s.artifacts[a].item && graded[a].grading.Some?
    requires forall b :: 0 <= b < |graded| && b != a ==> graded[b] == s.artifacts[b]
    ensures OutcomeOf(graded, s.plan[i]) == Terminal <==> GradedAfter(s, a, i)
  {
    OutcomeMeans(graded, s.plan[i]);
    if b :| 0 <= b < |graded| && graded[b].item == s.plan[i] {
      OutcomeOfArtifact(graded, b);
    }
  }

  // A held-back write takes itself out of what is held back, and no other. A submission is
  // stored ungraded unless its item has one, and starts an interview that it saw unstarted;
  // an ending ends what is not over.
  lemma WriteMeans(corpus: set<Id>, s: State, p: nat)
    requires p < |s.pending|
    ensures var t := Next(corpus, s, Write(p));
            && t.now == s.now && t.plan == s.plan && t.ended == s.ended
            && t.pending == s.pending[..p] + s.pending[p + 1..]
            && match s.pending[p]
               case Submission(item, saw) =>
                 var stored := forall a :: 0 <= a < |s.artifacts| ==> s.artifacts[a].item != item;
                 && t.artifacts == (if stored then s.artifacts + [Artifact(item, None, s.status)] else s.artifacts)
                 && t.endedAt == s.endedAt
                 && t.status == if stored && saw && s.status == Briefing then Interviewing else s.status
               case Ending =>
                 var over := s.status in {Complete, Abandoned};
                 && t.artifacts == s.artifacts && t.status == (if over then s.status else Abandoned)
                 && t.endedAt == if over then s.endedAt else Some(s.now)
  {
  }

  ghost function Elapsed(steps: seq<Step>): nat {
    if steps == [] then 0
    else Elapsed(steps[..|steps| - 1]) + if steps[|steps| - 1].Tick? then steps[|steps| - 1].elapsed else 0
  }

  // Only time itself passes time.
  lemma {:induction false} TimePasses(corpus: set<Id>, start: int, plan: seq<Id>, steps: seq<Step>)
    ensures Run(corpus, start, plan, steps).now == start + Elapsed(steps)
  {
    if steps != [] {
      TimePasses(corpus, start, plan, steps[..|steps| - 1]);
    }
  }

  // ---------------------------------------------------------------- the row and its writers

  class InterviewSession {
    const corpus: set<Id>
    const plan: seq<Id>
    var now: int
    var status: Status
    var endedAt: Option<int>
    var ended: set<Id>
    var artifacts: seq<Artifact>
    var pending: seq<Pending>

    function Abstract(): State
      reads this
    {
      State(now, status, endedAt, plan, ended, artifacts, pending)
    }

    constructor (known: set<Id>, items: seq<Id>, start: int)
      requires items != []
      ensures corpus == known && plan == items && Abstract() == Initial(start, items) && Invariant(Abstract())
    {
      corpus, plan, now, status, endedAt := known, items, start, Briefing, None;
      ended, artifacts, pending := {}, [], [];
      new;
      InvariantHolds(corpus, start, items, []);
    }

    // Every planned item's outcome, then the verdict.
    method CheckComplete()
      requires Consistent(Abstract())
      modifies this`status, this`endedAt
      ensures Abstract() == MaybeComplete(old(Abstract())) && Invariant(Abstract())
    {
      CheckEstablishes(Abstract());
      if status != Briefing && status != Interviewing && status != Wrapping {
        return;
      }
      var done := true;
      for i := 0 to |plan|
        invariant done <==> forall k :: 0 <= k < i ==>
                              OutcomeOf(artifacts, plan[k]) == Terminal
                              || (status == Wrapping && OutcomeOf(artifacts, plan[k]) == NotAttempted)
      {
        var outcome := OutcomeOf(artifacts, plan[i]);
        if outcome != Terminal && !(status == Wrapping && outcome == NotAttempted) {
          done := false;
        }
      }
      if done {
        status, endedAt := Complete, Some(now);
      }
    }

    method TakeTurn(ends: bool) returns (taken: bool)
      requires Invariant(Abstract())
      modifies this`status, this`endedAt, this`ended
      ensures Abstract() == Next(corpus, old(Abstract()), Step.TakeTurn(ends)) && Invariant(Abstract())
      ensures !taken ==> Abstract() == old(Abstract())
    {
      StepKeeps(corpus, Abstract(), Step.TakeTurn(ends));
      var item := CurrentItem(Abstract(), corpus, plan);
      if !(status == Briefing || status == Interviewing) || item.None? {
        return false;
      }
      taken := true;
      if status == Briefing {
        status := Interviewing;
      }
      if ends {
        ended := ended + {item.value};
        if CurrentItem(Abstract(), corpus, plan).None? {
          status := Wrapping;
          CheckComplete();
        }
      }
    }

    // The check half of a submission: refused once the session is closed, for an item that is
    // not planned or not known, and for one that has a submission.
    method BeginSubmission(item: Id) returns (accepted: bool)
      modifies this`pending
      ensures accepted <==> status in {Briefing, Interviewing} && item in plan && item in corpus
                            && forall a :: 0 <= a < |artifacts| ==> artifacts[a].item != item
      ensures Abstract() == Next(corpus, old(Abstract()), Step.BeginSubmission(item))
      ensures pending == old(pending) + if accepted then [Submission(item, status == Briefing)] else []
    {
      if status != Briefing && status != Interviewing {
        return false;
      }
      if item !in plan || item !in corpus || Submitted(artifacts, item) {
        return false;
      }
      pending := pending + [Submission(item, status == Briefing)];
      return true;
    }

    method BeginEnding() returns (accepted: bool)
      modifies this`pending
      ensures accepted <==> status !in {Complete, Abandoned}
      ensures Abstract() == Next(corpus, old(Abstract()), Step.BeginEnding)
      ensures pending == old(pending) + if accepted then [Ending] else []
    {
      if Reportable(status) {
        return false;
      }
      pending := pending + [Ending];
      return true;
    }

    // The write half of a submission or an ending, as the database then finds the session.
    method WritePending(p: nat) returns (written: bool)
      requires Invariant(Abstract()) && p < |pending|
      modifies this
      ensures Abstract() == Next(corpus, old(Abstract()), Write(p)) && Invariant(Abstract())
      ensures !written ==> status == old(status) && artifacts == old(artifacts)
    {
      StepKeeps(corpus, Abstract(), Write(p));
      var mine := pending[p];
      pending := pending[..p] + pending[p + 1..];
      written := false;
      match mine {
        case Submission(item, sawBriefing) =>
          if !Submitted(artifacts, item) {
            written := true;
            artifacts := artifacts + [Artifact(item, None, status)];
            if sawBriefing && status == Briefing {
              status := Interviewing;
            }
          }
        case Ending =>
          if status != Complete && status != Abandoned {
            written := true;
            status, endedAt := Abandoned, Some(now);
          }
      }
    }

    method Grade(a: nat, grade: Grade)
      requires Invariant(Abstract()) && a < |artifacts|
      modifies this`status, this`endedAt, this`artifacts
      ensures Abstract() == Next(corpus, old(Abstract()), RecordGrading(a, grade)) && Invariant(Abstract())
    {
      GradingKeeps(Abstract(), a, grade);
      artifacts := artifacts[a := artifacts[a].(grading := Some(grade))];
      CheckComplete();
    }
  }
}
