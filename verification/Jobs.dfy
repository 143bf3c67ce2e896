/**
  The job tracker: applications whose stages are a projection of an append-only history, the
  replay that rebuilds them, and the funnel over them.
*/
module Jobs {
  import opened Base
  import opened Sorting

  datatype Stage =
    | Applied | OnlineAssessment | VideoAssessment | PhoneScreen | Round1 | Round2 | Final | Offer
    | Rejected | Withdrawn | Ghosted

  datatype Outcome = Open | Offered | TurnedDown | PulledOut | Silent

  const RUNGS := 8

  predicate OnLadder(stage: Stage) {
    !stage.Rejected? && !stage.Withdrawn? && !stage.Ghosted?
  }

  // A stage off the ladder counts as the first rung where a rank is asked of it.
  function Rank(stage: Stage): (rank: nat)
    ensures rank < RUNGS
  {
    match stage
    case Applied => 0
    case OnlineAssessment => 1
    case VideoAssessment => 2
    case PhoneScreen => 3
    case Round1 => 4
    case Round2 => 5
    case Final => 6
    case Offer => 7
    case Rejected => 0
    case Withdrawn => 0
    case Ghosted => 0
  }

  function OutcomeOf(stage: Stage): Outcome {
    match stage
    case Offer => Offered
    case Rejected => TurnedDown
    case Withdrawn => PulledOut
    case Ghosted => Silent
    case _ => Open
  }

  // Where a stage stands: nothing but a rung of the ladder is ahead of the first one.
  ghost predicate StandsAt(stage: Stage, rank: nat) {
    match rank
    case 0 => stage.Applied? || stage.Rejected? || stage.Withdrawn? || stage.Ghosted?
    case 1 => stage.OnlineAssessment?
    case 2 => stage.VideoAssessment?
    case 3 => stage.PhoneScreen?
    case 4 => stage.Round1?
    case 5 => stage.Round2?
    case 6 => stage.Final?
    case 7 => stage.Offer?
    case _ => false
  }

  lemma RankIsPlace(stage: Stage)
    ensures StandsAt(stage, Rank(stage))
    ensures forall rank: nat :: StandsAt(stage, rank) ==> rank == Rank(stage)
  {
  }

  // How an application ends: as its latest stage says, and not at all on a rung below an offer.
  ghost predicate EndsAs(stage: Stage, outcome: Outcome) {
    match outcome
    case Open => OnLadder(stage) && !stage.Offer?
    case Offered => stage.Offer?
    case TurnedDown => stage.Rejected?
    case PulledOut => stage.Withdrawn?
    case Silent => stage.Ghosted?
  }

  // ---------------------------------------------------------------- the projection

  datatype Event = Event(sequence: nat, stage: Stage)

  datatype Projection = Projection(current: Stage, furthest: Stage, outcome: Outcome)

  predicate Precedes(a: Event, b: Event) {
    a.sequence < b.sequence
  }

  function InSequence(events: seq<Event>): seq<Event> {
    SortBy(Precedes, events)
  }

  function Furthest(events: seq<Event>): Stage {
    if events == [] then Applied
    else
      var before, stage := Furthest(events[..|events| - 1]), events[|events| - 1].stage;
      if OnLadder(stage) && Rank(stage) > Rank(before) then stage else before
  }

  function Project(events: seq<Event>): Projection {
    var ordered := InSequence(events);
    if ordered == [] then Projection(Applied, Applied, Open)
    else
      var current := ordered[|ordered| - 1].stage;
      Projection(current, Furthest(ordered), OutcomeOf(current))
  }

  lemma {:induction false} FurthestIsFurthest(events: seq<Event>)
    ensures OnLadder(Furthest(events))
    ensures forall e :: e in events && OnLadder(e.stage) ==> Rank(e.stage) <= Rank(Furthest(events))
    ensures Furthest(events) == Applied || exists e :: e in events && e.stage == Furthest(events)
  {
    if events != [] {
      var front, last := events[..|events| - 1], events[|events| - 1];
      FurthestIsFurthest(front);
      assert events == front + [last];
    }
  }

  lemma LatestIsLast(events: seq<Event>, last: Event)
    requires last in events && forall e :: e in events && e != last ==> e.sequence < last.sequence
    ensures var ordered := InSequence(events); ordered != [] && ordered[|ordered| - 1] == last
    ensures forall e :: e in InSequence(events) <==> e in events
  {
    var ordered := InSequence(events);
    SortSorts(Precedes, events);
    SortMembers(Precedes, events);
    hide InSequence;
    var k :| 0 <= k < |ordered| && ordered[k] == last;
    var top := ordered[|ordered| - 1];
    assert top in ordered;
    assert k < |ordered| - 1 ==> !Precedes(top, last);
  }

  lemma OutcomeIsEnd(stage: Stage)
    ensures EndsAs(stage, OutcomeOf(stage))
  {
  }

  // In whatever order the events come, what is projected is the latest stage and the highest
  // rung any of them names.
  lemma ProjectMeans(events: seq<Event>, last: Event)
    requires last in events && forall e :: e in events && e != last ==> e.sequence < last.sequence
    ensures var p := Project(events);
            && p.current == last.stage && EndsAs(last.stage, p.outcome) && OnLadder(p.furthest)
            && (forall e :: e in events && OnLadder(e.stage) ==> Rank(e.stage) <= Rank(p.furthest))
            && (p.furthest == Applied || exists e :: e in events && e.stage == p.furthest)
  {
    LatestIsLast(events, last);
    FurthestIsFurthest(InSequence(events));
    OutcomeIsEnd(last.stage);
    hide InSequence, EndsAs, OutcomeOf, Rank, Furthest, OnLadder;
  }

  // ---------------------------------------------------------------- the board

  datatype Application = Application(company: string, role: string, projection: Projection, events: seq<Event>)

  datatype Board = Board(applications: map<nat, Application>, next: nat)

  ghost predicate History(events: seq<Event>) {
    && events != [] && events[0].stage == Applied
    && (forall k :: 0 <= k < |events| ==> events[k].sequence == k)
    && (forall k :: 0 < k < |events| ==> events[k - 1].stage != events[k].stage)
  }

  ghost predicate Faithful(a: Application) {
    History(a.events) && a.projection == Project(a.events)
  }

  ghost predicate Kept(b: Board) {
    && (forall id :: id in b.applications ==> id < b.next)
    && (forall id :: id in b.applications ==> Faithful(b.applications[id]))
  }

  // Always an `applied` event first, whatever stage the row arrives at.
  function FirstEvents(stage: Stage): seq<Event> {
    [Event(0, Applied)] + if stage == Applied then [] else [Event(1, stage)]
  }

  function InsertApplication(b: Board, company: string, role: string, stage: Stage): Board {
    var events := FirstEvents(stage);
    Board(b.applications[b.next := Application(company, role, Project(events), events)], b.next + 1)
  }

  function Advanced(a: Application, stage: Stage): Application {
    if a.events != [] && a.events[|a.events| - 1].stage == stage then a
    else
      var sequence := if a.events == [] then 0 else a.events[|a.events| - 1].sequence + 1;
      var events := a.events + [Event(sequence, stage)];
      a.(events := events, projection := Project(events))
  }

  datatype Step = Add(company: string, role: string, stage: Stage) | Advance(id: nat, stage: Stage)

  function Next(b: Board, step: Step): Board {
    match step
    case Add(company, role, stage) => InsertApplication(b, company, role, stage)
    case Advance(id, stage) =>
      if id in b.applications then b.(applications := b.applications[id := Advanced(b.applications[id], stage)]) else b
  }

  function Run(b: Board, steps: seq<Step>): Board {
    if steps == [] then b else Next(Run(b, steps[..|steps| - 1]), steps[|steps| - 1])
  }

  lemma AddIsFaithful(company: string, role: string, stage: Stage)
    ensures Faithful(Application(company, role, Project(FirstEvents(stage)), FirstEvents(stage)))
  {
    hide Project;
  }

  lemma AdvanceIsFaithful(a: Application, stage: Stage)
    requires Faithful(a)
    ensures Faithful(Advanced(a, stage))
  {
    hide Project;
  }

  lemma StepKeeps(b: Board, step: Step)
    requires Kept(b)
    ensures Kept(Next(b, step))
  {
    hide Faithful, Advanced, FirstEvents, Project;
    match step
    case Add(company, role, stage) => AddIsFaithful(company, role, stage);
    case Advance(id, stage) => if id in b.applications { AdvanceIsFaithful(b.applications[id], stage); }
  }

  // Every stored stage is what its history says, numbered from 0 without a repeat.
  lemma {:induction false} RunKeeps(b: Board, steps: seq<Step>)
    requires Kept(b)
    ensures Kept(Run(b, steps))
  {
    if steps != [] {
      RunKeeps(b, steps[..|steps| - 1]);
      StepKeeps(Run(b, steps[..|steps| - 1]), steps[|steps| - 1]);
    }
  }

  lemma FurthestGrows(a: Application, stage: Stage)
    requires Faithful(a)
    ensures Rank(Advanced(a, stage).projection.furthest) >= Rank(a.projection.furthest)
    ensures OnLadder(stage) ==> Rank(Advanced(a, stage).projection.furthest) >= Rank(stage)
    ensures Advanced(a, stage).projection.current == stage
  {
    var a' := Advanced(a, stage);
    AdvanceIsFaithful(a, stage);
    ProjectMeans(a.events, a.events[|a.events| - 1]);
    ProjectMeans(a'.events, a'.events[|a'.events| - 1]);
    if a.projection.furthest != Applied {
      var e :| e in a.events && e.stage == a.projection.furthest;
      assert e in a'.events;
    }
    assert a'.events[|a'.events| - 1] in a'.events;
  }

  lemma StepKeepsFurthest(b: Board, step: Step, id: nat)
    requires Kept(b) && id in b.applications
    ensures id in Next(b, step).applications
    ensures Rank(Next(b, step).applications[id].projection.furthest) >= Rank(b.applications[id].projection.furthest)
  {
    hide Project, Advanced, FirstEvents, Rank;
    if step.Advance? && step.id == id {
      FurthestGrows(b.applications[id], step.stage);
    }
  }

  // However a pipeline ends or moves about, it keeps the rungs it reached.
  lemma {:induction false} FurthestNeverFalls(b: Board, steps: seq<Step>, id: nat)
    requires Kept(b) && id in b.applications
    ensures id in Run(b, steps).applications
    ensures Rank(Run(b, steps).applications[id].projection.furthest) >= Rank(b.applications[id].projection.furthest)
  {
    hide Next, Kept, Rank;
    if steps != [] {
      FurthestNeverFalls(b, steps[..|steps| - 1], id);
      RunKeeps(b, steps[..|steps| - 1]);
      StepKeepsFurthest(Run(b, steps[..|steps| - 1]), steps[|steps| - 1], id);
    }
  }

  // ---------------------------------------------------------------- where an application is

  // The stage that was last given for application `id`, by adding it or moving it.
  ghost function LastNamed(b: Board, steps: seq<Step>, id: nat): Option<Stage> {
    if steps == [] then
      if id in b.applications then Some(b.applications[id].projection.current) else None
    else
      var front, step := steps[..|steps| - 1], steps[|steps| - 1];
      if step.Add? && Run(b, front).next == id then Some(step.stage)
      else if step.Advance? && step.id == id && id in Run(b, front).applications then Some(step.stage)
      else LastNamed(b, front, id)
  }

  lemma FirstProject(stage: Stage)
    ensures var p := Project(FirstEvents(stage));
            p.current == stage && p.furthest == if OnLadder(stage) then stage else Applied
  {
    var events := FirstEvents(stage);
    var last := events[|events| - 1];
    assert last == Event(|events| - 1, stage);
    ProjectMeans(events, last);
    hide Project, Rank;
    assert last in events;
    if OnLadder(stage) {
      if Project(events).furthest != Applied {
        var e :| e in events && e.stage == Project(events).furthest;
      } else {
        AppliedIsFirst(stage);
      }
    }
  }

  lemma AppliedIsFirst(stage: Stage)
    requires OnLadder(stage) && Rank(stage) <= Rank(Applied)
    ensures stage == Applied
  {
  }

  // A new application was applied for, and is where it was added at.
  lemma AddedIsAt(b: Board, company: string, role: string, stage: Stage)
    requires Kept(b)
    ensures var b' := InsertApplication(b, company, role, stage);
            && b.next !in b.applications && b'.next == b.next + 1
            && b'.applications.Keys == b.applications.Keys + {b.next}
            && (forall id :: id in b.applications ==> b'.applications[id] == b.applications[id])
            && var a := b'.applications[b.next];
               && a.company == company && a.role == role && a.projection.current == stage
               && (a.projection.furthest == if OnLadder(stage) then stage else Applied)
               && a.events == [Event(0, Applied)] + if stage == Applied then [] else [Event(1, stage)]
  {
    FirstProject(stage);
    hide Project, OnLadder, Faithful;
  }

  lemma AdvancedIsAt(a: Application, stage: Stage)
    requires Faithful(a)
    ensures var a' := Advanced(a, stage);
            && a'.projection.current == stage && a'.company == a.company && a'.role == a.role
            && a'.events == if a.projection.current == stage then a.events
                            else a.events + [Event(|a.events|, stage)]
  {
    FurthestGrows(a, stage);
    ProjectMeans(a.events, a.events[|a.events| - 1]);
    hide Project;
  }

  lemma StepNames(b: Board, step: Step, id: nat)
    requires Kept(b)
    ensures var t := Next(b, step);
            && (id in t.applications <==> id in b.applications || (step.Add? && b.next == id))
            && (id in t.applications ==>
                  t.applications[id].projection.current ==
                    if step.Add? && b.next == id then step.stage
                    else if step.Advance? && step.id == id then step.stage
                    else b.applications[id].projection.current)
  {
    hide Project, FirstEvents, Advanced, Faithful;
    match step
    case Add(company, role, stage) => AddedIsAt(b, company, role, stage);
    case Advance(other, stage) => if other in b.applications { AdvancedIsAt(b.applications[other], stage); }
  }

  // An application stands where it was last said to stand, and an unknown one nowhere.
  lemma {:induction false} StandsWhereLastNamed(b: Board, steps: seq<Step>, id: nat)
    requires Kept(b)
    ensures var t := Run(b, steps);
            LastNamed(b, steps, id) ==
              if id in t.applications then Some(t.applications[id].projection.current) else None
  {
    hide Next, Kept;
    if steps != [] {
      var front := steps[..|steps| - 1];
      StandsWhereLastNamed(b, front, id);
      RunKeeps(b, front);
      StepNames(Run(b, front), steps[|steps| - 1], id);
    }
  }

  // ---------------------------------------------------------------- the replay

  function Rebuilt(a: Application): Application {
    a.(projection := Project(a.events))
  }

  lemma KeptIsRebuilt(b: Board)
    requires Kept(b)
    ensures forall id :: id in b.applications ==> Rebuilt(b.applications[id]) == b.applications[id]
  {
    hide Project, History;
  }

  class Tracker {
    var applications: map<nat, Application>
    var next: nat

    ghost function Stored(): Board
      reads this
    {
      Board(applications, next)
    }

    constructor ()
      ensures Stored() == Board(map[], 0) && Kept(Stored())
    {
      applications, next := map[], 0;
    }

    method Insert(company: string, role: string, stage: Stage) returns (id: nat)
      modifies this
      ensures Stored() == InsertApplication(old(Stored()), company, role, stage) && id == old(next)
    {
      hide Project, Kept;
      id := next;
      var events := [Event(0, Applied)];
      if stage != Applied {
        events := events + [Event(1, stage)];
      }
      assert events == FirstEvents(stage);
      applications := applications[id := Application(company, role, Project(events), events)];
      next := next + 1;
    }

    method Advance(id: nat, stage: Stage) returns (found: bool)
      modifies this`applications
      ensures Stored() == Next(old(Stored()), Step.Advance(id, stage)) && found == (id in old(applications))
    {
      hide Project, Kept;
      if id !in applications {
        return false;
      }
      var a := applications[id];
      if a.events != [] && a.events[|a.events| - 1].stage == stage {
        assert applications[id := a] == applications;
        return true;
      }
      var sequence := if a.events == [] then 0 else a.events[|a.events| - 1].sequence + 1;
      var events := a.events + [Event(sequence, stage)];
      applications := applications[id := a.(events := events, projection := Project(events))];
      return true;
    }

    // Rebuilds every projection from its events, and writes back those that disagree: none,
    // if the operations above stored them.
    method RecomputeAll() returns (replayed: nat, corrected: nat)
      modifies this`applications
      ensures applications.Keys == old(applications).Keys
      ensures forall id :: id in applications ==>
                applications[id] == old(applications)[id].(projection := Project(old(applications)[id].events))
      ensures replayed == |old(applications)|
      ensures corrected == 0 <==> applications == old(applications)
      ensures Kept(old(Stored())) ==> corrected == 0
    {
      hide Project, Kept;
      ghost var before := applications;
      replayed, corrected := |applications|, 0;
      var ids := applications.Keys;
      while ids != {}
        invariant ids <= applications.Keys == before.Keys
        invariant forall id :: id in before ==>
                  applications[id] == if id in ids then before[id] else Rebuilt(before[id])
        invariant corrected == 0 <==> forall id :: id in before && id !in ids ==> Rebuilt(before[id]) == before[id]
        decreases |ids|
      {
        var id :| id in ids;
        ids := ids - {id};
        var rebuilt := Rebuilt(applications[id]);
        if applications[id] != rebuilt {
          applications := applications[id := rebuilt];
          corrected := corrected + 1;
        }
      }
      if Kept(old(Stored())) {
        KeptIsRebuilt(old(Stored()));
      }
    }
  }

  // ---------------------------------------------------------------- the funnel

  // How many applications got to a rung or beyond.
  function ReachedAtLeast(furthest: seq<Stage>, rung: nat): nat {
    if furthest == [] then 0
    else ReachedAtLeast(furthest[..|furthest| - 1], rung) + if Rank(furthest[|furthest| - 1]) >= rung then 1 else 0
  }

  function AtRung(furthest: seq<Stage>, rung: nat): nat {
    if furthest == [] then 0
    else AtRung(furthest[..|furthest| - 1], rung) + if Rank(furthest[|furthest| - 1]) == rung then 1 else 0
  }

  lemma {:induction false} RungsAddUp(furthest: seq<Stage>, rung: nat)
    ensures ReachedAtLeast(furthest, rung) == AtRung(furthest, rung) + ReachedAtLeast(furthest, rung + 1)
    ensures rung >= RUNGS ==> ReachedAtLeast(furthest, rung) == 0
    ensures ReachedAtLeast(furthest, 0) == |furthest|
  {
    if furthest != [] {
      RungsAddUp(furthest[..|furthest| - 1], rung);
    }
  }

  // One pass for the histogram and one for the suffix sums.
  method Funnel(furthest: seq<Stage>) returns (reached: seq<nat>)
    ensures |reached| == RUNGS && forall i :: 0 <= i < RUNGS ==> reached[i] == ReachedAtLeast(furthest, i)
  {
    var atRung := new nat[RUNGS](_ => 0);
    var k := 0;
    while k < |furthest|
      invariant 0 <= k <= |furthest|
      invariant forall i :: 0 <= i < RUNGS ==> atRung[i] == AtRung(furthest[..k], i)
    {
      assert furthest[..k + 1][..k] == furthest[..k];
      var rung := Rank(furthest[k]);
      atRung[rung] := atRung[rung] + 1;
      k := k + 1;
    }
    assert furthest[..k] == furthest;
    var sums := new nat[RUNGS](_ => 0);
    var running: nat, index := 0, RUNGS;
    RungsAddUp(furthest, RUNGS);
    while index > 0
      invariant 0 <= index <= RUNGS && running == ReachedAtLeast(furthest, index)
      invariant forall i :: 0 <= i < RUNGS ==> atRung[i] == AtRung(furthest, i)
      invariant forall i :: index <= i < RUNGS ==> sums[i] == ReachedAtLeast(furthest, i)
    {
      index := index - 1;
      RungsAddUp(furthest, index);
      running := running + atRung[index];
      sums[index] := running;
    }
    reached := sums[..];
  }

  function Ratio(a: nat, b: nat): real {
    if b == 0 then 0.0 else a as real / b as real
  }

  function Share(furthest: seq<Stage>, rung: nat): real {
    Ratio(ReachedAtLeast(furthest, rung), |furthest|)
  }

  // Of those that reached the rung before, or of all of them at the first.
  function Conversion(furthest: seq<Stage>, rung: nat): real {
    Ratio(ReachedAtLeast(furthest, rung), if rung == 0 then |furthest| else ReachedAtLeast(furthest, rung - 1))
  }

  function Converted(furthest: seq<Stage>, rung: nat): real {
    if rung == 0 then Conversion(furthest, 0) else Converted(furthest, rung - 1) * Conversion(furthest, rung)
  }

  ghost function Getting(furthest: seq<Stage>, rung: nat): set<nat> {
    set k: nat | k < |furthest| && exists rank :: rung <= rank < 8 && StandsAt(furthest[k], rank)
  }

  // Those counted at a rung are the applications that stand there or beyond.
  lemma {:induction false} ReachedCounts(furthest: seq<Stage>, rung: nat)
    ensures ReachedAtLeast(furthest, rung) == |Getting(furthest, rung)|
  {
    if furthest == [] {
      assert Getting(furthest, rung) == {};
    } else {
      var last := |furthest| - 1;
      var front := furthest[..last];
      ReachedCounts(front, rung);
      RankIsPlace(furthest[last]);
      forall k: nat ensures k in Getting(furthest, rung) <==>
          k in Getting(front, rung) || (k == last && Rank(furthest[last]) >= rung)
      {
        if k < last {
          assert front[k] == furthest[k];
        }
      }
      if Rank(furthest[last]) >= rung {
        assert Getting(furthest, rung) == Getting(front, rung) + {last};
      } else {
        assert Getting(furthest, rung) == Getting(front, rung);
      }
    }
  }

  // The share of all applications that got to a rung, and nothing of none.
  lemma ShareMeans(furthest: seq<Stage>, rung: nat)
    ensures Share(furthest, rung) * |furthest| as real == ReachedAtLeast(furthest, rung) as real
    ensures furthest == [] ==> Share(furthest, rung) == 0.0
  {
    hide ReachedAtLeast;
    FunnelNarrows(furthest, rung);
    RatioTimes(ReachedAtLeast(furthest, rung), |furthest|);
  }

  lemma RatioTimes(a: nat, b: nat)
    requires a <= b
    ensures Ratio(a, b) * b as real == a as real
  {
  }

  lemma RatiosChain(a: nat, b: nat, c: nat)
    requires c <= b <= a
    ensures Ratio(b, a) * Ratio(c, b) == Ratio(c, a)
  {
    if b > 0 {
      assert (b as real / a as real) * (c as real / b as real) == c as real / a as real;
    }
  }

  lemma FunnelNarrows(furthest: seq<Stage>, rung: nat)
    ensures ReachedAtLeast(furthest, rung) <= |furthest|
    ensures rung > 0 ==> ReachedAtLeast(furthest, rung) <= ReachedAtLeast(furthest, rung - 1)
  {
    RungsAddUp(furthest, 0);
    if rung > 0 {
      RungsAddUp(furthest, rung - 1);
      FunnelNarrows(furthest, rung - 1);
    }
  }

  // The funnel only narrows, and its conversions multiply up to the share that got there.
  lemma {:induction false} ConversionsTelescope(furthest: seq<Stage>, rung: nat)
    ensures ReachedAtLeast(furthest, rung) <= |furthest|
    ensures rung > 0 ==> ReachedAtLeast(furthest, rung) <= ReachedAtLeast(furthest, rung - 1)
    ensures Converted(furthest, rung) == Share(furthest, rung)
  {
    hide ReachedAtLeast, Ratio;
    FunnelNarrows(furthest, rung);
    if rung > 0 {
      FunnelNarrows(furthest, rung - 1);
      ConversionsTelescope(furthest, rung - 1);
      RatiosChain(|furthest|, ReachedAtLeast(furthest, rung - 1), ReachedAtLeast(furthest, rung));
    }
  }
}
