/**
  `Idempotency-Key`: any number of requests race on one `(user, endpoint, key)`. The unique
  insert lets one of them run its handler; the others replay its answer or are refused. The
  sweep of expired keys, by these requests or by any other, interleaves with all of it.
*/
module Idempotency {
  import opened Base

  datatype Fingerprint = Fingerprint(digest: Id)
  datatype Response = Response(json: Id)

  datatype Refusal = InFlight409 | Reused422

  // `since` is the `created_at` of the row the request inserted.
  datatype Phase =
    | Arrived
    | Swept
    | Lost                                      // the insert was refused, the row not yet read
    | Running(since: int)                       // the handler runs
    | Returned(since: int, response: Response)  // it returned, the answer is not yet stored
    | Thrown(since: int)                        // it raised, the row is not yet deleted
    | Executed(since: int, response: Response)  // answered with its own handler's response
    | Replayed(response: Response)              // answered with a stored response
    | Refused(refusal: Refusal)
    | Raised(since: int)                        // the handler's exception went to the caller

  datatype Request = Request(fingerprint: Fingerprint, phase: Phase)

  datatype Row = Row(fingerprint: Fingerprint, response: Option<Response>, createdAt: int)

  // `holder` is the request that inserted the row. No step reads it: the source stores no such column.
  datatype State = State(now: int, row: Option<Row>, holder: nat, requests: seq<Request>)

  datatype Act =
    | Sweep(ok: bool)
    | Insert
    | Read
    | Return(response: Response)
    | Throw
    | Store
    | Drop

  datatype Step =
    | Tick(elapsed: nat)
    | Arrive(fingerprint: Fingerprint)
    | SweepByOther
    | Do(r: nat, act: Act)

  const TTL := 86_400_000_000

  // ---------------------------------------------------------------- one step

  function Expire(s: State): State {
    if s.row.Some? && s.row.value.createdAt < s.now - TTL then s.(row := None) else s
  }

  function SetPhase(s: State, r: nat, phase: Phase): State
    requires r < |s.requests|
  {
    s.(requests := s.requests[r := s.requests[r].(phase := phase)])
  }

  // What a request that lost the insert reads: it may be another row than the one it lost to.
  function Verdict(s: State, r: nat): Phase
    requires r < |s.requests|
  {
    if s.row.None? then Refused(InFlight409)
    else if s.row.value.fingerprint != s.requests[r].fingerprint then Refused(Reused422)
    else if s.row.value.response.None? then Refused(InFlight409)
    else Replayed(s.row.value.response.value)
  }

  // The next database operation of request `r`. Storing and deleting look the row up by its
  // key alone, whoever inserted it.
  function Advance(s: State, r: nat, act: Act): State
    requires r < |s.requests|
  {
    var me := s.requests[r];
    match (act, me.phase)
    case (Sweep(ok), Arrived) => SetPhase(if ok then Expire(s) else s, r, Swept)
    case (Insert, Swept) =>
      if s.row.None? then
        SetPhase(s, r, Running(s.now)).(row := Some(Row(me.fingerprint, None, s.now)), holder := r)
      else SetPhase(s, r, Lost)
    case (Read, Lost) => SetPhase(s, r, Verdict(s, r))
    case (Return(response), Running(since)) => SetPhase(s, r, Returned(since, response))
    case (Throw, Running(since)) => SetPhase(s, r, Thrown(since))
    case (Store, Returned(since, response)) =>
      SetPhase(s, r, Executed(since, response)).(
        row := if s.row.None? then None else Some(s.row.value.(response := Some(response))))
    case (Drop, Thrown(since)) => SetPhase(s, r, Raised(since)).(row := None)
    case _ => s
  }

  // A step that is not the request's next one changes nothing.
  function Next(s: State, step: Step): State {
    match step
    case Tick(elapsed) => s.(now := s.now + elapsed)
    case Arrive(fingerprint) => s.(requests := s.requests + [Request(fingerprint, Arrived)])
    case SweepByOther => Expire(s)
    case Do(r, act) => if r < |s.requests| then Advance(s, r, act) else s
  }

  function Initial(now: int): State {
    State(now, None, 0, [])
  }

  function Run(start: int, steps: seq<Step>): State {
    if steps == [] then Initial(start)
    else Next(Run(start, steps[..|steps| - 1]), steps[|steps| - 1])
  }

  // ---------------------------------------------------------------- what is promised

  // The request's handler runs, or ran and its row is not yet filled or deleted.
  predicate Active(q: Request) {
    q.phase.Running? || q.phase.Returned? || q.phase.Thrown?
  }

  // No handler outlives the time its key is kept.
  predicate InTime(s: State) {
    forall q :: q in s.requests && Active(q) ==> s.now <= q.phase.since + TTL
  }

  ghost predicate AlwaysInTime(start: int, steps: seq<Step>) {
    forall n :: 0 <= n <= |steps| ==> InTime(Run(start, steps[..n]))
  }

  // An active request holds the row, which has no answer yet.
  predicate ActiveHolds(s: State) {
    forall r :: 0 <= r < |s.requests| && Active(s.requests[r]) ==>
      s.holder == r && s.row == Some(Row(s.requests[r].fingerprint, None, s.requests[r].phase.since))
  }

  // An answer on the row is what its holder executed, for the holder's body.
  predicate AnswerIsHolders(s: State) {
    s.row.Some? && s.row.value.response.Some? ==>
      && s.holder < |s.requests|
      && s.requests[s.holder]
         == Request(s.row.value.fingerprint, Executed(s.row.value.createdAt, s.row.value.response.value))
  }

  // An executed answer stays on the row until its time is over.
  predicate ExecutedStays(s: State) {
    forall r :: 0 <= r < |s.requests| && s.requests[r].phase.Executed? ==>
      || s.now > s.requests[r].phase.since + TTL
      || (s.holder == r && s.row == Some(Row(s.requests[r].fingerprint, Some(s.requests[r].phase.response),
                                             s.requests[r].phase.since)))
  }

  predicate Started(q: Request) {
    Active(q) || q.phase.Executed?
  }

  // Once one request has executed, no other starts within the lifetime of its key.
  predicate ExecutionsAreApart(s: State) {
    forall a, b :: 0 <= a < |s.requests| && 0 <= b < |s.requests| && a != b
                   && s.requests[a].phase.Executed? && Started(s.requests[b]) ==>
      || s.requests[a].phase.since + TTL < s.requests[b].phase.since
      || s.requests[b].phase.since + TTL < s.requests[a].phase.since
  }

  // Whoever is answered from the store gets what was executed for the same body.
  ghost predicate ReplaysAreExecuted(s: State) {
    forall b :: 0 <= b < |s.requests| && s.requests[b].phase.Replayed? ==>
      exists a :: ReplayOf(s, a, b)
  }

  predicate ReplayOf(s: State, a: int, b: int) {
    && 0 <= a < |s.requests| && 0 <= b < |s.requests|
    && s.requests[a].phase.Executed? && s.requests[b].phase.Replayed?
    && s.requests[a].phase.response == s.requests[b].phase.response
    && s.requests[a].fingerprint == s.requests[b].fingerprint
  }

  predicate NothingFromTheFuture(s: State) {
    && (s.row.Some? ==> s.row.value.createdAt <= s.now)
    && forall q :: q in s.requests && Started(q) ==> q.phase.since <= s.now
  }

  // A row without an answer belongs to a handler that is under way.
  predicate UnansweredIsHeld(s: State) {
    s.row.Some? && s.row.value.response.None? ==> s.holder < |s.requests| && Active(s.requests[s.holder])
  }

  ghost predicate Invariant(s: State) {
    && ActiveHolds(s) && AnswerIsHolders(s) && ExecutedStays(s) && UnansweredIsHeld(s)
    && ExecutionsAreApart(s) && ReplaysAreExecuted(s) && NothingFromTheFuture(s)
  }

  // ---------------------------------------------------------------- what every step keeps

  // While a handler is in time, its row is moved by no one else.
  lemma ActiveRowStays(s: State, step: Step, r: nat)
    requires ActiveHolds(s) && r < |s.requests| && Active(s.requests[r])
    requires s.now <= s.requests[r].phase.since + TTL
    ensures var t := Next(s, step);
            && r < |t.requests|
            && (Active(t.requests[r]) ==>
                  && t.holder == s.holder && t.row == s.row
                  && t.requests[r].fingerprint == s.requests[r].fingerprint
                  && t.requests[r].phase.since == s.requests[r].phase.since)
  {
  }

  lemma BecomesActive(s: State, step: Step, r: nat)
    requires r < |Next(s, step).requests| && Active(Next(s, step).requests[r])
    ensures r < |s.requests|
    ensures Active(s.requests[r]) || (step == Do(r, Insert) && s.row.None?)
  {
  }

  lemma KeepsActiveHolds(s: State, step: Step)
    requires Invariant(s) && InTime(s)
    ensures ActiveHolds(Next(s, step))
  {
    var t := Next(s, step);
    forall r | 0 <= r < |t.requests| && Active(t.requests[r])
      ensures t.holder == r && t.row == Some(Row(t.requests[r].fingerprint, None, t.requests[r].phase.since))
    {
      BecomesActive(s, step, r);
      if Active(s.requests[r]) {
        assert s.requests[r] in s.requests;
        ActiveRowStays(s, step, r);
      }
    }
  }

  lemma KeepsAnswerIsHolders(s: State, step: Step)
    requires Invariant(s) && InTime(s)
    ensures AnswerIsHolders(Next(s, step))
  {
  }

  lemma KeepsUnansweredIsHeld(s: State, step: Step)
    requires Invariant(s) && InTime(s)
    ensures UnansweredIsHeld(Next(s, step))
  {
  }

  // An answer given is final.
  lemma AnswersAreFinal(s: State, step: Step, a: nat)
    requires a < |s.requests| && (s.requests[a].phase.Executed? || s.requests[a].phase.Replayed?)
    ensures a < |Next(s, step).requests| && Next(s, step).requests[a] == s.requests[a]
  {
  }

  lemma BecomesExecuted(s: State, step: Step, r: nat)
    requires Invariant(s) && r < |Next(s, step).requests| && Next(s, step).requests[r].phase.Executed?
    ensures r < |s.requests|
    ensures s.requests[r].phase.Executed? ||
            (step == Do(r, Store) && s.requests[r].phase.Returned? && s.holder == r && s.row.Some?)
  {
  }

  // The row of an executed request is touched by nothing but the sweep of expired keys.
  lemma FilledRowStays(s: State, step: Step, r: nat)
    requires Invariant(s) && r < |s.requests| && s.requests[r].phase.Executed?
    requires s.holder == r && s.row.Some? && s.row.value.response.Some?
    ensures (Next(s, step).row == s.row && Next(s, step).holder == r)
            || s.row.value.createdAt < s.now - TTL
  {
  }

  lemma KeepsExecutedStays(s: State, step: Step)
    requires Invariant(s) && InTime(s)
    ensures ExecutedStays(Next(s, step))
  {
    var t := Next(s, step);
    forall r | 0 <= r < |t.requests| && t.requests[r].phase.Executed?
      ensures t.now > t.requests[r].phase.since + TTL
              || (t.holder == r && t.row == Some(Row(t.requests[r].fingerprint, Some(t.requests[r].phase.response),
                                                     t.requests[r].phase.since)))
    {
      BecomesExecuted(s, step, r);
      if s.requests[r].phase.Executed? {
        AnswersAreFinal(s, step, r);
        if s.now <= s.requests[r].phase.since + TTL {
          FilledRowStays(s, step, r);
        }
      }
    }
  }

  // What a request had before a step in which it is seen to have started.
  lemma StartedBefore(s: State, step: Step, b: nat)
    requires b < |Next(s, step).requests| && Started(Next(s, step).requests[b])
    ensures b < |s.requests|
    ensures var q, q' := s.requests[b], Next(s, step).requests[b];
            || (Started(q) && q.phase.since == q'.phase.since
                && (q'.phase.Executed? ==> q.phase.Executed? || Active(q)))
            || (s.row.None? && q'.phase == Running(s.now) && step == Do(b, Insert))
  {
  }

  lemma KeepsExecutionsApart(s: State, step: Step)
    requires Invariant(s) && InTime(s)
    ensures ExecutionsAreApart(Next(s, step))
  {
    var t := Next(s, step);
    forall a, b | 0 <= a < |t.requests| && 0 <= b < |t.requests| && a != b
                  && t.requests[a].phase.Executed? && Started(t.requests[b])
      ensures t.requests[a].phase.since + TTL < t.requests[b].phase.since
              || t.requests[b].phase.since + TTL < t.requests[a].phase.since
    {
      StartedBefore(s, step, a);
      StartedBefore(s, step, b);
      if s.requests[a].phase.Executed? && step == Do(b, Insert) && s.row.None? {
        assert s.now > s.requests[a].phase.since + TTL;
      } else if Active(s.requests[a]) {
        assert Active(s.requests[a]) && s.holder == a;
        assert s.requests[b].phase.Executed?;
      }
    }
  }

  lemma BecomesReplayed(s: State, step: Step, b: nat)
    requires b < |Next(s, step).requests| && Next(s, step).requests[b].phase.Replayed?
    ensures b < |s.requests|
    ensures s.requests[b].phase.Replayed? ||
            (step == Do(b, Read) && Next(s, step) == SetPhase(s, b, Verdict(s, b)))
  {
  }

  lemma KeepsReplays(s: State, step: Step)
    requires Invariant(s) && InTime(s)
    ensures ReplaysAreExecuted(Next(s, step))
  {
    var t := Next(s, step);
    forall b | 0 <= b < |t.requests| && t.requests[b].phase.Replayed?
      ensures exists a :: ReplayOf(t, a, b)
    {
      BecomesReplayed(s, step, b);
      if s.requests[b].phase.Replayed? {
        var a :| ReplayOf(s, a, b);
        AnswersAreFinal(s, step, a);
        AnswersAreFinal(s, step, b);
        assert ReplayOf(t, a, b);
      } else {
        AnswersAreFinal(s, step, s.holder);
        assert ReplayOf(t, s.holder, b);
      }
    }
  }

  lemma KeepsTime(s: State, step: Step)
    requires Invariant(s) && InTime(s)
    ensures NothingFromTheFuture(Next(s, step))
  {
    var t := Next(s, step);
    forall q | q in t.requests && Started(q) ensures q.phase.since <= t.now {
      var r :| 0 <= r < |t.requests| && t.requests[r] == q;
      StartedBefore(s, step, r);
      assert s.requests[r] in s.requests;
    }
  }

  lemma {:induction false} InvariantHolds(start: int, steps: seq<Step>)
    requires AlwaysInTime(start, steps)
    ensures Invariant(Run(start, steps))
  {
    if steps != [] {
      var last := |steps| - 1;
      var before := steps[..last];
      forall n | 0 <= n <= |before| ensures InTime(Run(start, before[..n])) {
        assert before[..n] == steps[..n];
      }
      InvariantHolds(start, before);
      assert steps[..last] == before;
      var s, step := Run(start, before), steps[last];
      KeepsActiveHolds(s, step);
      KeepsAnswerIsHolders(s, step);
      KeepsUnansweredIsHeld(s, step);
      KeepsExecutedStays(s, step);
      KeepsExecutionsApart(s, step);
      KeepsReplays(s, step);
      KeepsTime(s, step);
    }
  }

  // ---------------------------------------------------------------- the promises

  // In every interleaving in which no handler outlives the key, at most one handler runs.
  lemma OneHandlerAtATime(start: int, steps: seq<Step>, a: nat, b: nat)
    requires AlwaysInTime(start, steps)
    ensures var s := Run(start, steps);
            a < |s.requests| && b < |s.requests| && Active(s.requests[a]) && Active(s.requests[b]) ==> a == b
  {
    InvariantHolds(start, steps);
  }

  // At most one handler succeeds in the lifetime of a key: whichever requests executed did
  // so further apart than a key is kept.
  lemma OneExecutionPerLifetime(start: int, steps: seq<Step>, a: nat, b: nat)
    requires AlwaysInTime(start, steps)
    ensures var s := Run(start, steps);
            a < b < |s.requests| && s.requests[a].phase.Executed? && s.requests[b].phase.Executed? ==>
              || s.requests[a].phase.since + TTL < s.requests[b].phase.since
              || s.requests[b].phase.since + TTL < s.requests[a].phase.since
  {
    InvariantHolds(start, steps);
  }

  // A replay is the executed answer of a request with the same body; one with another body
  // never sees it.
  lemma ReplayIsExecutedAnswer(start: int, steps: seq<Step>, b: nat)
    requires AlwaysInTime(start, steps)
    ensures var s := Run(start, steps);
            b < |s.requests| && s.requests[b].phase.Replayed? ==> exists a :: ReplayOf(s, a, b)
  {
    InvariantHolds(start, steps);
  }

  // One more request, served up to its insert with nothing in between; `swept` says whether
  // its sweep of expired keys succeeds.
  function Retry(s: State, fingerprint: Fingerprint, swept: bool): State {
    var n := |s.requests|;
    Next(Next(Next(s, Arrive(fingerprint)), Do(n, Sweep(swept))), Do(n, Insert))
  }

  lemma FreeKeyLetsIn(s: State, fingerprint: Fingerprint, swept: bool)
    requires s.row.None?
    ensures var t := Retry(s, fingerprint, swept); var n := |s.requests|;
            n < |t.requests| && t.requests[n] == Request(fingerprint, Running(s.now))
  {
    var n := |s.requests|;
    var s1 := Next(s, Arrive(fingerprint));
    assert s1.requests[n] == Request(fingerprint, Arrived);
    var s2 := Next(s1, Do(n, Sweep(swept)));
    assert s2.requests[n] == Request(fingerprint, Swept) && s2.row.None?;
  }

  lemma DropLeavesNoneActive(s: State, r: nat)
    requires ActiveHolds(s) && r < |s.requests| && s.requests[r].phase.Thrown?
    ensures var t := Next(s, Do(r, Drop));
            t.row.None? && forall k :: 0 <= k < |t.requests| ==> !Active(t.requests[k])
  {
    var t := Next(s, Do(r, Drop));
    forall k | 0 <= k < |t.requests| ensures !Active(t.requests[k]) {
      if k != r {
        assert t.requests[k] == s.requests[k];
      }
    }
  }

  // A handler that raises gives its key back: nothing runs, and the next request to come
  // inserts the key anew.
  lemma FailureFreesKey(start: int, steps: seq<Step>, r: nat, fingerprint: Fingerprint, swept: bool)
    requires AlwaysInTime(start, steps)
    requires r < |Run(start, steps).requests| && Run(start, steps).requests[r].phase.Thrown?
    ensures var s := Next(Run(start, steps), Do(r, Drop)); var n := |s.requests|;
            && s.row.None?
            && (forall k :: 0 <= k < n ==> !Active(s.requests[k]))
            && n < |Retry(s, fingerprint, swept).requests|
            && Retry(s, fingerprint, swept).requests[n] == Request(fingerprint, Running(s.now))
  {
    InvariantHolds(start, steps);
    DropLeavesNoneActive(Run(start, steps), r);
    FreeKeyLetsIn(Next(Run(start, steps), Do(r, Drop)), fingerprint, swept);
  }

  // The bound on a handler's life is exact: a request that comes while one handler runs is
  // let in beside it if and only if that handler has outlived its key and the sweep succeeds.
  lemma SecondHandlerStartsIffOutlived(s: State, r: nat, fingerprint: Fingerprint, swept: bool)
    requires ActiveHolds(s) && r < |s.requests| && Active(s.requests[r])
    ensures var t := Retry(s, fingerprint, swept); var n := |s.requests|;
            && n < |t.requests| && t.requests[r] == s.requests[r]
            && (Active(t.requests[n]) <==> swept && s.now > s.requests[r].phase.since + TTL)
  {
    var n := |s.requests|;
    var s1 := Next(s, Arrive(fingerprint));
    assert s1.requests[n].phase == Arrived;
    var s2 := Next(s1, Do(n, Sweep(swept)));
    assert s2.requests[n].phase == Swept && s2.row == if swept then Expire(s).row else s.row;
  }

  // And an outliving handler that then fails deletes the row of the second one, so a third
  // handler starts while the second still runs.
  lemma OutlivingHandlerDropsOthersRow(s: State, r: nat, f: Fingerprint, g: Fingerprint, swept: bool)
    requires ActiveHolds(s) && r < |s.requests| && s.requests[r].phase.Thrown?
    requires s.now > s.requests[r].phase.since + TTL
    ensures var n := |s.requests|;
            var t := Retry(Next(Retry(s, f, true), Do(r, Drop)), g, swept);
            n + 1 < |t.requests| && t.requests[n].phase.Running? && t.requests[n + 1].phase.Running?
  {
    var n := |s.requests|;
    SecondHandlerStartsIffOutlived(s, r, f, true);
    var t := Retry(s, f, true);
    var u := Next(t, Do(r, Drop));
    assert u.row.None? && u.requests[n].phase.Running? && |u.requests| == n + 1;
    var v := Next(u, Arrive(g));
    assert v.requests[n + 1].phase == Arrived && v.requests[n] == u.requests[n];
    var w := Next(v, Do(n + 1, Sweep(swept)));
    assert w.requests[n + 1].phase == Swept && w.row.None? && w.requests[n] == u.requests[n];
  }

  // ---------------------------------------------------------------- what a newcomer is told

  // The key is free for a request whose sweep succeeds or not: there is no row, or it is swept
  // as more than a day old.
  ghost predicate Free(s: State, swept: bool) {
    s.row.None? || (swept && s.now - s.row.value.createdAt > 86_400_000_000)
  }

  // A request that is served with nothing in between runs its handler iff the key is free.
  // Otherwise it is told what the row says, and the row stays.
  lemma NewcomerIs(s: State, g: Fingerprint, swept: bool)
    ensures var n := |s.requests|; var t := Retry(s, g, swept); var u := Next(t, Do(n, Read));
            && |u.requests| == n + 1 && u.requests[..n] == s.requests && u.requests[n].fingerprint == g
            && u.now == s.now
            && if Free(s, swept) then
                 && u.requests[n].phase == Running(s.now) && u.holder == n
                 && u.row.Some? && u.row.value.fingerprint == g && u.row.value.response.None?
                 && u.row.value.createdAt == s.now
               else
                 && u.row == s.row && u.holder == s.holder
                 && u.requests[n].phase ==
                      if s.row.value.fingerprint != g then Refused(Reused422)
                      else if s.row.value.response == None then Refused(InFlight409)
                      else Replayed(s.row.value.response.value)
  {
    var n := |s.requests|;
    var s1 := Next(s, Arrive(g));
    assert s1.requests[n] == Request(g, Arrived);
    var s2 := Next(s1, Do(n, Sweep(swept)));
    assert s2.requests[n] == Request(g, Swept) && s2.row == if Free(s, swept) then None else s.row;
    var s3 := Next(s2, Do(n, Insert));
    assert s3.requests[n] == Request(g, if Free(s, swept) then Running(s.now) else Lost);
  }

  // The answer of request `r` is on offer: it was given within the lifetime of its key.
  ghost predicate Offered(s: State, r: nat) {
    r < |s.requests| && s.requests[r].phase.Executed? && s.now - s.requests[r].phase.since <= 86_400_000_000
  }

  // In every run in which no handler outlives the key, a newcomer is told to wait for a
  // handler with its body, is replayed the answer that was executed for it, is refused if its
  // body is another than either's, and else runs.
  lemma NewcomerIsAnswered(start: int, steps: seq<Step>, g: Fingerprint, swept: bool)
    requires AlwaysInTime(start, steps)
    ensures var s := Run(start, steps); var n := |s.requests|;
            var u := Next(Retry(s, g, swept), Do(n, Read));
            && n < |u.requests|
            && (forall r :: 0 <= r < n && Active(s.requests[r]) ==>
                  u.requests[n].phase == Refused(if s.requests[r].fingerprint == g then InFlight409 else Reused422))
            && (forall r :: 0 <= r < n && Offered(s, r) ==>
                  u.requests[n].phase == if s.requests[r].fingerprint == g then Replayed(s.requests[r].phase.response)
                                         else Refused(Reused422))
            && ((forall r :: 0 <= r < n ==> !Active(s.requests[r]) && !Offered(s, r)) && swept ==>
                  u.requests[n].phase == Running(s.now))
  {
    var s := Run(start, steps);
    InvariantHolds(start, steps);
    assert steps[..|steps|] == steps;
    assert InTime(s);
    NewcomerIs(s, g, swept);
    hide Retry, Next, Run;
    if s.row.Some? && s.row.value.response.Some? && !Free(s, true) {
      assert Offered(s, s.holder);
    }
  }

  // ---------------------------------------------------------------- a handler's own steps

  // A handler that returns has its answer stored on the row that is there, and gives it to its
  // caller; one that raises leaves no row. Neither touches another request.
  lemma HandlerEnds(s: State, r: nat, answer: Response)
    requires r < |s.requests| && s.requests[r].phase.Running?
    ensures var since := s.requests[r].phase.since;
            var t := Next(Next(s, Do(r, Return(answer))), Do(r, Store));
            && t.requests == s.requests[r := s.requests[r].(phase := Executed(since, answer))]
            && t.now == s.now && t.holder == s.holder
            && (s.row.None? <==> t.row.None?)
            && (t.row.Some? ==> && t.row.value.response == Some(answer)
                                && t.row.value.fingerprint == s.row.value.fingerprint
                                && t.row.value.createdAt == s.row.value.createdAt)
    ensures var since := s.requests[r].phase.since;
            var t := Next(Next(s, Do(r, Throw)), Do(r, Drop));
            t.requests == s.requests[r := s.requests[r].(phase := Raised(since))] && t.row == None && t.now == s.now
  {
    var a := Next(s, Do(r, Return(answer)));
    assert a.requests[r].phase == Returned(s.requests[r].phase.since, answer);
    var b := Next(s, Do(r, Throw));
    assert b.requests[r].phase == Thrown(s.requests[r].phase.since);
  }

  // Another request's sweep drops the row exactly when it is more than a day old.
  lemma SweepDropsIff(s: State)
    ensures var t := Next(s, SweepByOther);
            && (t.row.None? <==> s.row.None? || s.now - s.row.value.createdAt > 86_400_000_000)
            && (t.row.Some? ==> t.row == s.row) && t.requests == s.requests && t.now == s.now
  {
  }

  ghost function Elapsed(steps: seq<Step>): nat {
    if steps == [] then 0
    else Elapsed(steps[..|steps| - 1]) + if steps[|steps| - 1].Tick? then steps[|steps| - 1].elapsed else 0
  }

  // Only time itself passes time.
  lemma {:induction false} TimePasses(start: int, steps: seq<Step>)
    ensures Run(start, steps).now == start + Elapsed(steps)
  {
    if steps != [] {
      TimePasses(start, steps[..|steps| - 1]);
    }
  }

  // ---------------------------------------------------------------- one handler late

  // No handler but that of `r` outlives the key.
  predicate OthersInTime(s: State, r: nat) {
    forall b :: 0 <= b < |s.requests| && b != r && Active(s.requests[b]) ==>
      s.now <= s.requests[b].phase.since + TTL
  }

  ghost predicate OthersAlwaysInTime(start: int, steps: seq<Step>, r: nat) {
    forall n :: 0 <= n <= |steps| ==> OthersInTime(Run(start, steps[..n]), r)
  }

  predicate Holds(s: State, r: nat)
    requires r < |s.requests| && Active(s.requests[r])
  {
    s.holder == r && s.row == Some(Row(s.requests[r].fingerprint, None, s.requests[r].phase.since))
  }

  predicate Ended(s: State, r: nat) {
    r < |s.requests| && (s.requests[r].phase.Executed? || s.requests[r].phase.Raised?)
  }

  // Until `r` ends, every other handler holds the row. `r` holds it too, or its time is over
  // and the row, if any, was inserted by another after that.
  predicate LateOrHolds(s: State, r: nat) {
    !Ended(s, r) ==>
      && (forall b :: 0 <= b < |s.requests| && b != r && Active(s.requests[b]) ==> Holds(s, b))
      && (r < |s.requests| && Active(s.requests[r]) && !Holds(s, r) ==>
            var end := s.requests[r].phase.since + TTL;
            s.now > end && (s.row.Some? ==> s.holder != r && s.row.value.createdAt > end))
  }

  lemma EndIsFinal(s: State, step: Step, r: nat)
    requires Ended(s, r)
    ensures Ended(Next(s, step), r)
  {
  }

  lemma OthersKeepRow(s: State, step: Step, r: nat)
    requires LateOrHolds(s, r) && OthersInTime(s, r) && !Ended(Next(s, step), r)
    ensures var t := Next(s, step);
            forall b :: 0 <= b < |t.requests| && b != r && Active(t.requests[b]) ==> Holds(t, b)
  {
    if Ended(s, r) {
      EndIsFinal(s, step, r);
    }
    var t := Next(s, step);
    forall b | 0 <= b < |t.requests| && b != r && Active(t.requests[b]) ensures Holds(t, b) {
      BecomesActive(s, step, b);
    }
  }

  lemma LateKeepsItsState(s: State, step: Step, r: nat)
    requires LateOrHolds(s, r) && OthersInTime(s, r) && !Ended(Next(s, step), r)
    requires r < |Next(s, step).requests| && Active(Next(s, step).requests[r])
    ensures var t := Next(s, step); var end := t.requests[r].phase.since + TTL;
            Holds(t, r) || (t.now > end && (t.row.Some? ==> t.holder != r && t.row.value.createdAt > end))
  {
    if Ended(s, r) {
      EndIsFinal(s, step, r);
    }
    BecomesActive(s, step, r);
  }

  lemma {:induction false} LateOrHoldsAlways(start: int, steps: seq<Step>, r: nat)
    requires OthersAlwaysInTime(start, steps, r)
    ensures LateOrHolds(Run(start, steps), r)
  {
    if steps != [] {
      var last := |steps| - 1;
      var before := steps[..last];
      forall n | 0 <= n <= |before| ensures OthersInTime(Run(start, before[..n]), r) {
        assert before[..n] == steps[..n];
      }
      LateOrHoldsAlways(start, before, r);
      assert steps[..last] == before;
      var s, step := Run(start, before), steps[last];
      if !Ended(Next(s, step), r) {
        OthersKeepRow(s, step, r);
        if r < |Next(s, step).requests| && Active(Next(s, step).requests[r]) {
          LateKeepsItsState(s, step, r);
        }
      }
    }
  }

  // The answer of `r` is put on a row that another request inserted.
  predicate AnswersOthersRow(s: State, r: nat) {
    var t := Next(s, Do(r, Store));
    && r < |s.requests| && s.requests[r].phase.Returned? && t.requests[r].phase.Executed?
    && t.row.Some? && t.holder != r && t.row.value.response == Some(s.requests[r].phase.response)
  }

  // The row of another request is deleted when `r` fails.
  predicate DropsOthersRow(s: State, r: nat) {
    && r < |s.requests| && s.requests[r].phase.Thrown?
    && s.row.Some? && s.holder != r && Next(s, Do(r, Drop)).row.None?
  }

  // When `r` is the one handler that may be late, it fills or deletes another's row exactly
  // if the row was created after the time of its own was over; otherwise it is its own.
  lemma HitsOthersRowIff(start: int, steps: seq<Step>, r: nat)
    requires OthersAlwaysInTime(start, steps, r)
    requires r < |Run(start, steps).requests|
    requires Run(start, steps).requests[r].phase.Returned? || Run(start, steps).requests[r].phase.Thrown?
    ensures var s := Run(start, steps); var end := s.requests[r].phase.since + TTL;
            && (AnswersOthersRow(s, r) || DropsOthersRow(s, r) <==> s.row.Some? && s.row.value.createdAt > end)
            && (s.now <= end ==> Holds(s, r))
  {
    hide Run, OthersAlwaysInTime;
    LateOrHoldsAlways(start, steps, r);
    HitsIffOthers(Run(start, steps), r);
  }

  lemma HitsIffOthers(s: State, r: nat)
    requires r < |s.requests| && (s.requests[r].phase.Returned? || s.requests[r].phase.Thrown?)
    requires LateOrHolds(s, r)
    ensures AnswersOthersRow(s, r) || DropsOthersRow(s, r)
            <==> s.row.Some? && s.row.value.createdAt > s.requests[r].phase.since + TTL
    ensures s.now <= s.requests[r].phase.since + TTL ==> Holds(s, r)
  {
    OwnRowOrLater(s, r);
    hide LateOrHolds;
    if s.requests[r].phase.Returned? {
      assert Next(s, Do(r, Store)).holder == s.holder;
      assert AnswersOthersRow(s, r) <==> s.row.Some? && s.holder != r;
    } else {
      assert DropsOthersRow(s, r) <==> s.row.Some? && s.holder != r;
    }
  }

  lemma OwnRowOrLater(s: State, r: nat)
    requires r < |s.requests| && Active(s.requests[r]) && LateOrHolds(s, r)
    ensures s.now <= s.requests[r].phase.since + TTL ==> Holds(s, r)
    ensures s.row.Some? ==> (s.holder != r <==> s.row.value.createdAt > s.requests[r].phase.since + TTL)
  {
  }

  // A late handler that succeeds answers the request let in beside it, whose body is
  // another: the next request with that body is replayed the wrong answer.
  lemma AnswerReachesOtherBody(s: State, r: nat, g: Fingerprint, answer: Response, swept: bool)
    requires ActiveHolds(s) && r < |s.requests| && s.requests[r].phase.Running?
    requires s.now > s.requests[r].phase.since + TTL && g != s.requests[r].fingerprint
    ensures var n := |s.requests|;
            var t := Next(Next(Retry(s, g, true), Do(r, Return(answer))), Do(r, Store));
            var u := Next(Retry(t, g, swept), Do(n + 1, Read));
            && n + 1 < |u.requests| && u.requests[n + 1] == Request(g, Replayed(answer))
            && u.requests[r] == Request(s.requests[r].fingerprint, Executed(s.requests[r].phase.since, answer))
            && u.requests[n] == Request(g, Running(s.now))
  {
    var n := |s.requests|;
    SecondHandlerStartsIffOutlived(s, r, g, true);
    FreedKeyIsTaken(s, r, g);
    var t0 := Retry(s, g, true);
    var t1 := Next(t0, Do(r, Return(answer)));
    assert t1.requests[r].phase == Returned(s.requests[r].phase.since, answer) && t1.requests[n] == t0.requests[n];
    var t := Next(t1, Do(r, Store));
    assert t.row == Some(Row(g, Some(answer), s.now)) && t.requests[n] == t0.requests[n];
    StoredIsReplayed(t, g, swept, answer);
  }

  lemma FreedKeyIsTaken(s: State, r: nat, g: Fingerprint)
    requires ActiveHolds(s) && r < |s.requests| && Active(s.requests[r])
    requires s.now > s.requests[r].phase.since + TTL
    ensures var t := Retry(s, g, true); var n := |s.requests|;
            && t.now == s.now && |t.requests| == n + 1 && t.requests[r] == s.requests[r]
            && t.requests[n] == Request(g, Running(s.now)) && t.row == Some(Row(g, None, s.now))
  {
    var n := |s.requests|;
    var s1 := Next(s, Arrive(g));
    assert s1.requests[n] == Request(g, Arrived);
    var s2 := Next(s1, Do(n, Sweep(true)));
    assert s2.requests[n] == Request(g, Swept) && s2.row.None?;
  }

  // A request that finds an answered row in its time is replayed the answer iff the row's
  // body is its own, and is refused otherwise.
  lemma StoredIsReplayed(s: State, g: Fingerprint, swept: bool, answer: Response)
    requires s.row.Some? && s.row.value.response == Some(answer) && s.now <= s.row.value.createdAt + TTL
    ensures var n := |s.requests|; var u := Next(Retry(s, g, swept), Do(n, Read));
            && |u.requests| == n + 1 && u.requests[..n] == s.requests && u.requests[n].fingerprint == g
            && u.requests[n].phase == if s.row.value.fingerprint == g then Replayed(answer) else Refused(Reused422)
  {
    NewcomerIs(s, g, swept);
  }

  // ---------------------------------------------------------------- replays, in time or not

  // A step puts no answer on a row of another body.
  predicate StoreMatches(s: State, step: Step) {
    step.Do? && step.act.Store? && step.r < |s.requests| && s.requests[step.r].phase.Returned? && s.row.Some? ==>
      s.row.value.fingerprint == s.requests[step.r].fingerprint
  }

  ghost predicate StoresMatch(start: int, steps: seq<Step>) {
    forall n :: 0 <= n < |steps| ==> StoreMatches(Run(start, steps[..n]), steps[n])
  }

  predicate Gave(q: Request, fingerprint: Fingerprint, response: Response) {
    q.phase.Executed? && q.phase.response == response && q.fingerprint == fingerprint
  }

  ghost predicate AnswerWasExecuted(s: State) {
    s.row.Some? && s.row.value.response.Some? ==>
      exists a :: 0 <= a < |s.requests| && Gave(s.requests[a], s.row.value.fingerprint, s.row.value.response.value)
  }

  lemma KeepsAnswerExecuted(s: State, step: Step)
    requires AnswerWasExecuted(s) && StoreMatches(s, step)
    ensures AnswerWasExecuted(Next(s, step))
  {
    var t := Next(s, step);
    if t.row.Some? && t.row.value.response.Some? {
      var f, answer := t.row.value.fingerprint, t.row.value.response.value;
      if s.row == t.row {
        var a :| 0 <= a < |s.requests| && Gave(s.requests[a], f, answer);
        AnswersAreFinal(s, step, a);
        assert Gave(t.requests[a], f, answer);
      } else {
        assert Gave(t.requests[step.r], f, answer);
      }
    }
  }

  lemma KeepsReplaysExecuted(s: State, step: Step)
    requires AnswerWasExecuted(s) && ReplaysAreExecuted(s)
    ensures ReplaysAreExecuted(Next(s, step))
  {
    var t := Next(s, step);
    forall b | 0 <= b < |t.requests| && t.requests[b].phase.Replayed?
      ensures exists a :: ReplayOf(t, a, b)
    {
      BecomesReplayed(s, step, b);
      if s.requests[b].phase.Replayed? {
        var a :| ReplayOf(s, a, b);
        AnswersAreFinal(s, step, a);
        AnswersAreFinal(s, step, b);
        assert ReplayOf(t, a, b);
      } else {
        var a :| 0 <= a < |s.requests| && Gave(s.requests[a], s.row.value.fingerprint, s.row.value.response.value);
        AnswersAreFinal(s, step, a);
        assert ReplayOf(t, a, b);
      }
    }
  }

  // However late handlers are, every replay is the answer of its own body as long as no store
  // fell on the row of another.
  lemma {:induction false} ReplaysMatchIfStoresDo(start: int, steps: seq<Step>)
    requires StoresMatch(start, steps)
    ensures AnswerWasExecuted(Run(start, steps)) && ReplaysAreExecuted(Run(start, steps))
  {
    if steps != [] {
      var last := |steps| - 1;
      var before := steps[..last];
      forall n | 0 <= n < |before| ensures StoreMatches(Run(start, before[..n]), before[n]) {
        assert before[..n] == steps[..n];
      }
      ReplaysMatchIfStoresDo(start, before);
      assert steps[..last] == before;
      KeepsAnswerExecuted(Run(start, before), steps[last]);
      KeepsReplaysExecuted(Run(start, before), steps[last]);
    }
  }

  // And the first store on a row of another body is replayed to the next request with it.
  lemma MismatchIsReplayed(s: State, r: nat, swept: bool)
    requires !StoreMatches(s, Do(r, Store)) && s.now <= s.row.value.createdAt + TTL
    ensures var t := Next(s, Do(r, Store)); var n := |s.requests|; var g := s.row.value.fingerprint;
            var u := Next(Retry(t, g, swept), Do(n, Read));
            && n < |u.requests| && g != u.requests[r].fingerprint && u.requests[r].phase.Executed?
            && u.requests[n] == Request(g, Replayed(u.requests[r].phase.response))
  {
    var t := Next(s, Do(r, Store));
    StoredIsReplayed(t, s.row.value.fingerprint, swept, s.requests[r].phase.response);
    assert t.requests[r].phase.Executed?;
  }

  // ---------------------------------------------------------------- run_once, undisturbed

  datatype Outcome = Answer(response: Response) | Problem(refusal: Refusal) | Failure

  // The key's row, and `run_once` as one request executes it with no other in between.
  // `handled` is what the handler would do: answer, or raise.
  class KeyTable {
    var now: int
    var row: Option<Row>
    var executions: nat

    constructor (start: int)
      ensures now == start && row == None && executions == 0
    {
      now, row, executions := start, None, 0;
    }

    method ExpireKeys()
      modifies this`row
      ensures row == if old(row).Some? && now - old(row).value.createdAt > 86_400_000_000 then None else old(row)
    {
      var cutoff := now - TTL;
      if row.Some? && row.value.createdAt < cutoff {
        row := None;
      }
    }

    // A key that was answered within its lifetime replays for the same body without running
    // the handler, refuses another body, and a failed handler leaves no row behind.
    method RunOnce(digest: Fingerprint, handled: Option<Response>) returns (outcome: Outcome)
      modifies this`row, this`executions
      ensures var outdated := old(row).Some? && now - old(row).value.createdAt > 86_400_000_000;
              var before := if outdated then None else old(row);
              if before.None? then
                && executions == old(executions) + 1
                && (handled.Some? ==> outcome == Answer(handled.value) && row == Some(Row(digest, handled, now)))
                && (handled.None? ==> outcome == Failure && row == None)
              else
                && executions == old(executions) && row == before
                && outcome == (if before.value.fingerprint != digest then Problem(Reused422)
                               else if before.value.response.None? then Problem(InFlight409)
                               else Answer(before.value.response.value))
    {
      ExpireKeys();
      if row.Some? {
        var existing := row.value;
        if existing.fingerprint != digest {
          return Problem(Reused422);
        }
        if existing.response.None? {
          return Problem(InFlight409);
        }
        return Answer(existing.response.value);
      }
      row := Some(Row(digest, None, now));
      executions := executions + 1;
      if handled.None? {
        row := None;
        return Failure;
      }
      if row.Some? {
        row := Some(row.value.(response := handled));
      }
      return Answer(handled.value);
    }

    method Wait(elapsed: nat)
      modifies this`now
      ensures now == old(now) + elapsed
    {
      now := now + elapsed;
    }

    // A retry of an answered request gets the same answer and runs nothing, if and only if it
    // comes within the lifetime of the key.
    method RetryIsReplayed(digest: Fingerprint, first: Response, elapsed: nat, second: Option<Response>)
      returns (outcome: Outcome)
      requires row.Some? ==> now - row.value.createdAt > 86_400_000_000
      modifies this
      ensures elapsed <= 86_400_000_000 ==> outcome == Answer(first) && executions == old(executions) + 1
      ensures elapsed > 86_400_000_000 ==> executions == old(executions) + 2
    {
      var answered := RunOnce(digest, Some(first));
      Wait(elapsed);
      outcome := RunOnce(digest, second);
    }
  }
}
