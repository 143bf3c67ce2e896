/**
  The LLM budget ledger: `reserve` checks the ceilings and claims room in one step under an
  advisory lock, `settle` replaces the claim by what the call really used, and a claim that
  is never settled lapses after a quarter of an hour.

  A run interleaves the steps of any number of calls. Time is in microseconds.
*/
module Ledger {
  import opened Base

  datatype Status = Reserved | Settled | Failed

  datatype Usage = Usage(input: nat, output: nat, cacheRead: nat, cacheWrite: nat) {
    function Total(): nat { input + output + cacheRead + cacheWrite }
  }

  const NO_USAGE := Usage(0, 0, 0, 0)

  // One row of the ledger; its position is its id.
  datatype Call = Call(
    status: Status, session: Option<Id>, createdAt: int,
    reservedTokens: nat, reservedUsd: real, usage: Usage, costUsd: real)

  datatype Scope = Month | Day | InSession(id: Id)

  datatype Unit = Tokens | Usd

  datatype Refusal = Refusal(scope: Scope, unit: Unit)

  // `monthStart` is the calendar: the first instant of the UTC month an instant lies in.
  datatype Config = Config(
    tokensPerSession: nat, tokensPerDay: nat,
    usdPerSession: real, usdPerDay: real, usdPerMonth: real,
    monthStart: int -> int)

  const DAY := 86_400_000_000
  const RESERVATION_TTL := 900_000_000

  ghost predicate Calendar(cfg: Config) {
    forall s, t :: s <= t ==> cfg.monthStart(s) <= cfg.monthStart(t) <= t
  }

  // ---------------------------------------------------------------- spend

  function StartOfDay(now: int): int {
    now - now % DAY
  }

  predicate Live(call: Call, now: int) {
    call.status == Reserved && call.createdAt >= now - RESERVATION_TTL
  }

  // A call in flight counts what it may cost; any other counts what it did cost.
  function Contribution(call: Call, unit: Unit, now: int): real {
    match unit
    case Tokens => if Live(call, now) then call.reservedTokens as real else call.usage.Total() as real
    case Usd => if Live(call, now) then call.reservedUsd else call.costUsd
  }

  predicate InScope(cfg: Config, call: Call, scope: Scope, now: int) {
    match scope
    case Month => call.createdAt >= cfg.monthStart(now)
    case Day => call.createdAt >= StartOfDay(now)
    case InSession(id) => call.session == Some(id)
  }

  function Counted(cfg: Config, call: Call, scope: Scope, unit: Unit, now: int): real {
    if InScope(cfg, call, scope, now) then Contribution(call, unit, now) else 0.0
  }

  function Spent(cfg: Config, rows: seq<Call>, scope: Scope, unit: Unit, now: int): real {
    if rows == [] then 0.0
    else
      var last := |rows| - 1;
      Spent(cfg, rows[..last], scope, unit, now) + Counted(cfg, rows[last], scope, unit, now)
  }

  // The `WHERE` that both of the status queries share.
  predicate Relevant(cfg: Config, call: Call, session: Option<Id>, now: int) {
    var day, month := StartOfDay(now), cfg.monthStart(now);
    || call.createdAt >= (if month < day then month else day)
    || (session.Some? && call.session == session)
  }

  function RelevantRows(cfg: Config, rows: seq<Call>, session: Option<Id>, now: int): seq<Call> {
    if rows == [] then []
    else
      var last := |rows| - 1;
      RelevantRows(cfg, rows[..last], session, now)
        + if Relevant(cfg, rows[last], session, now) then [rows[last]] else []
  }

  // The sums under `FILTER` over the relevant rows are the sums over the whole table.
  lemma {:induction false} WhereLosesNothing(cfg: Config, rows: seq<Call>, session: Option<Id>,
                                             scope: Scope, unit: Unit, now: int)
    requires scope.InSession? ==> session == Some(scope.id)
    ensures Spent(cfg, RelevantRows(cfg, rows, session, now), scope, unit, now) == Spent(cfg, rows, scope, unit, now)
  {
    if rows != [] {
      var last := |rows| - 1;
      var before := RelevantRows(cfg, rows[..last], session, now);
      WhereLosesNothing(cfg, rows[..last], session, scope, unit, now);
      if Relevant(cfg, rows[last], session, now) {
        assert (before + [rows[last]])[..|before|] == before;
      } else {
        assert before + [] == before;
      }
    }
  }

  // ---------------------------------------------------------------- the check

  function Limit(cfg: Config, scope: Scope, unit: Unit): real {
    match (scope, unit)
    case (Month, _) => cfg.usdPerMonth
    case (Day, Usd) => cfg.usdPerDay
    case (Day, Tokens) => cfg.tokensPerDay as real
    case (InSession(_), Usd) => cfg.usdPerSession
    case (InSession(_), Tokens) => cfg.tokensPerSession as real
  }

  // Five ceilings: no number of tokens is set for the month.
  predicate Governed(scope: Scope, unit: Unit) {
    scope != Month || unit == Usd
  }

  // Python's `round(x, 6)`: to the nearest millionth, ties to the even one.
  function RoundedMillionths(x: real): int {
    var y := x * 1000000.0;
    var f := y.Floor;
    var rest := y - f as real;
    if rest < 0.5 then f else if rest > 0.5 then f + 1 else if f % 2 == 0 then f else f + 1
  }

  predicate Exhausted(cfg: Config, rows: seq<Call>, session: Option<Id>, scope: Scope, unit: Unit, now: int) {
    var remaining := Max(0.0, Limit(cfg, scope, unit)
                              - Spent(cfg, RelevantRows(cfg, rows, session, now), scope, unit, now));
    match unit
    case Tokens => remaining <= 0.0
    case Usd => RoundedMillionths(remaining) <= 0
  }

  // The legs in the order they are checked: dollars first, then tokens.
  function Legs(session: Option<Id>): seq<Refusal> {
    if session.Some? then
      [Refusal(Month, Usd), Refusal(Day, Usd), Refusal(InSession(session.value), Usd),
       Refusal(Day, Tokens), Refusal(InSession(session.value), Tokens)]
    else
      [Refusal(Month, Usd), Refusal(Day, Usd), Refusal(Day, Tokens)]
  }

  function FirstExhausted(cfg: Config, rows: seq<Call>, session: Option<Id>, legs: seq<Refusal>,
      now: int): Option<Refusal> {
    if legs == [] then None
    else if Exhausted(cfg, rows, session, legs[0].scope, legs[0].unit, now) then Some(legs[0])
    else FirstExhausted(cfg, rows, session, legs[1..], now)
  }

  function EnforceBudget(cfg: Config, rows: seq<Call>, session: Option<Id>, now: int): Option<Refusal> {
    FirstExhausted(cfg, rows, session, Legs(session), now)
  }

  lemma {:induction false} FirstExhaustedMeans(cfg: Config, rows: seq<Call>, session: Option<Id>,
      legs: seq<Refusal>, now: int)
    ensures FirstExhausted(cfg, rows, session, legs, now) == None <==>
              forall leg :: leg in legs ==> !Exhausted(cfg, rows, session, leg.scope, leg.unit, now)
    ensures var r := FirstExhausted(cfg, rows, session, legs, now);
            r.Some? ==> r.value in legs && Exhausted(cfg, rows, session, r.value.scope, r.value.unit, now)
  {
    if legs != [] {
      FirstExhaustedMeans(cfg, rows, session, legs[1..], now);
      assert forall leg :: leg in legs <==> leg == legs[0] || leg in legs[1..];
    }
  }

  // The nearest millionth, and of two as near the even one.
  lemma RoundsToNearest(x: real)
    ensures var off := x * 1000000.0 - RoundedMillionths(x) as real;
            -0.5 <= off <= 0.5 && (off == 0.5 || off == -0.5 ==> RoundedMillionths(x) % 2 == 0)
  {
  }

  lemma RoundingMeans(x: real)
    requires x >= 0.0
    ensures x <= 0.0000005 <==> RoundedMillionths(x) <= 0
  {
    var y := x * 1000000.0;
    assert y.Floor >= 0;
    if y.Floor == 0 { assert y < 1.0; } else { assert y >= 1.0; }
  }

  // A ceiling is reached, up to half a millionth of a dollar.
  predicate Reached(cfg: Config, rows: seq<Call>, scope: Scope, unit: Unit, now: int) {
    Spent(cfg, rows, scope, unit, now) >= Limit(cfg, scope, unit) - (if unit == Usd then 0.0000005 else 0.0)
  }

  lemma ExhaustedMeans(cfg: Config, rows: seq<Call>, session: Option<Id>, scope: Scope, unit: Unit, now: int)
    requires scope.InSession? ==> session == Some(scope.id)
    ensures Exhausted(cfg, rows, session, scope, unit, now) <==> Reached(cfg, rows, scope, unit, now)
  {
    WhereLosesNothing(cfg, rows, session, scope, unit, now);
    RoundingMeans(Max(0.0, Limit(cfg, scope, unit) - Spent(cfg, rows, scope, unit, now)));
  }

  // The ceilings that govern a call made in `session`.
  predicate Governs(session: Option<Id>, scope: Scope, unit: Unit) {
    Governed(scope, unit) && (scope.InSession? ==> session == Some(scope.id))
  }

  lemma LegsGovern(session: Option<Id>, scope: Scope, unit: Unit)
    ensures Refusal(scope, unit) in Legs(session) <==> Governs(session, scope, unit)
  {
    match scope {
      case Month =>
      case Day => assert Refusal(Day, Usd) in Legs(session) && Refusal(Day, Tokens) in Legs(session) by {
          assert Legs(session)[1] == Refusal(Day, Usd);
          assert Legs(session)[if session.Some? then 3 else 2] == Refusal(Day, Tokens);
        }
      case InSession(id) =>
        if session == Some(id) {
          assert Legs(session)[2] == Refusal(InSession(id), Usd);
          assert Legs(session)[4] == Refusal(InSession(id), Tokens);
        }
    }
    if scope == Month && unit == Usd {
      assert Legs(session)[0] == Refusal(Month, Usd);
    }
  }

  // A call is refused exactly when a ceiling that governs it is reached, and the refusal
  // names such a ceiling.
  lemma CheckIsExact(cfg: Config, rows: seq<Call>, session: Option<Id>, now: int)
    ensures EnforceBudget(cfg, rows, session, now).None? <==>
              forall scope, unit :: Governs(session, scope, unit) ==> !Reached(cfg, rows, scope, unit, now)
    ensures var r := EnforceBudget(cfg, rows, session, now);
            r.Some? ==> Governs(session, r.value.scope, r.value.unit)
                        && Reached(cfg, rows, r.value.scope, r.value.unit, now)
  {
    var legs := Legs(session);
    FirstExhaustedMeans(cfg, rows, session, legs, now);
    forall scope, unit
      ensures Refusal(scope, unit) in legs <==> Governs(session, scope, unit)
    {
      LegsGovern(session, scope, unit);
    }
    forall scope, unit | Governs(session, scope, unit)
      ensures Exhausted(cfg, rows, session, scope, unit, now) <==> Reached(cfg, rows, scope, unit, now)
    {
      ExhaustedMeans(cfg, rows, session, scope, unit, now);
    }
    forall leg | leg in legs
      ensures Governs(session, leg.scope, leg.unit)
    {
      LegsGovern(session, leg.scope, leg.unit);
    }
    forall scope, unit | Governs(session, scope, unit) && Reached(cfg, rows, scope, unit, now)
      ensures EnforceBudget(cfg, rows, session, now).Some?
    {
      var leg := Refusal(scope, unit);
      assert leg in legs && Exhausted(cfg, rows, session, leg.scope, leg.unit, now);
    }
  }

  // ---------------------------------------------------------------- the ledger as a machine

  datatype State = State(now: int, rows: seq<Call>)

  datatype Step =
    | Tick(elapsed: nat)
    | Reserve(session: Option<Id>, maxTokens: nat, estimatedInput: nat, usd: real)
    | Settle(id: nat, usage: Usage, cost: real, failed: bool)

  function NewCall(step: Step, now: int): Call
    requires step.Reserve?
  {
    Call(Reserved, step.session, now, step.maxTokens + step.estimatedInput, step.usd, NO_USAGE, 0.0)
  }

  function SettledCall(call: Call, step: Step): Call
    requires step.Settle?
  {
    call.(status := if step.failed then Failed else Settled,
          reservedTokens := 0, reservedUsd := 0.0, usage := step.usage, costUsd := step.cost)
  }

  predicate Granted(cfg: Config, s: State, step: Step) {
    step.Reserve? && EnforceBudget(cfg, s.rows, step.session, s.now).None?
  }

  function Next(cfg: Config, s: State, step: Step): State {
    match step
    case Tick(elapsed) => s.(now := s.now + elapsed)
    case Reserve(_, _, _, _) =>
      if Granted(cfg, s, step) then s.(rows := s.rows + [NewCall(step, s.now)]) else s
    case Settle(id, _, _, _) =>
      if id < |s.rows| then s.(rows := s.rows[id := SettledCall(s.rows[id], step)]) else s
  }

  // Prices are never negative.
  predicate Priced(step: Step) {
    match step
    case Tick(_) => true
    case Reserve(_, _, _, usd) => usd >= 0.0
    case Settle(_, _, cost, _) => cost >= 0.0
  }

  // Every interleaving: any sequence of steps of any calls, from an empty ledger.
  function Run(cfg: Config, start: int, steps: seq<Step>): State {
    if steps == [] then State(start, [])
    else Next(cfg, Run(cfg, start, steps[..|steps| - 1]), steps[|steps| - 1])
  }

  function Reservation(step: Step, unit: Unit): real
    requires step.Reserve?
  {
    match unit
    case Tokens => (step.maxTokens + step.estimatedInput) as real
    case Usd => step.usd
  }

  function Actual(step: Step, unit: Unit): real
    requires step.Settle?
  {
    match unit
    case Tokens => step.usage.Total() as real
    case Usd => step.cost
  }

  // By how much settling raises what the row counted the moment before: the excess over its
  // reservation while that was live, and the whole usage once it had lapsed.
  function Raise(s: State, step: Step, unit: Unit): real {
    if step.Settle? && step.id < |s.rows|
    then Max(0.0, Actual(step, unit) - Contribution(s.rows[step.id], unit, s.now))
    else 0.0
  }

  function Overrun(cfg: Config, start: int, steps: seq<Step>, unit: Unit): real {
    if steps == [] then 0.0
    else
      var before := steps[..|steps| - 1];
      Overrun(cfg, start, before, unit) + Raise(Run(cfg, start, before), steps[|steps| - 1], unit)
  }

  function LargestReservation(cfg: Config, start: int, steps: seq<Step>, unit: Unit): real {
    if steps == [] then 0.0
    else
      var before, step := steps[..|steps| - 1], steps[|steps| - 1];
      var largest := LargestReservation(cfg, start, before, unit);
      if Granted(cfg, Run(cfg, start, before), step) then Max(largest, Reservation(step, unit)) else largest
  }

  // ---------------------------------------------------------------- what every step keeps

  // A reservation carries no usage yet, and nothing on the ledger is negative or undated.
  predicate Sane(call: Call, now: int) {
    && call.createdAt <= now && call.reservedUsd >= 0.0 && call.costUsd >= 0.0
    && (call.status == Reserved ==> call.usage == NO_USAGE && call.costUsd == 0.0)
  }

  lemma {:induction false} RowsStaySane(cfg: Config, start: int, steps: seq<Step>)
    requires forall step :: step in steps ==> Priced(step)
    ensures forall call :: call in Run(cfg, start, steps).rows ==> Sane(call, Run(cfg, start, steps).now)
  {
    if steps != [] {
      var before, step := steps[..|steps| - 1], steps[|steps| - 1];
      RowsStaySane(cfg, start, before);
      assert Priced(step);
      var s := Run(cfg, start, before);
      if step.Settle? && step.id < |s.rows| {
        assert s.rows[step.id] in s.rows;
      }
    }
  }

  lemma CountedFalls(cfg: Config, call: Call, scope: Scope, unit: Unit, now: int, later: int)
    requires Calendar(cfg) && Sane(call, now) && now <= later
    ensures 0.0 <= Counted(cfg, call, scope, unit, later) <= Counted(cfg, call, scope, unit, now)
  {
    assert StartOfDay(now) <= StartOfDay(later);
    assert cfg.monthStart(now) <= cfg.monthStart(later);
  }

  // Time alone never raises a total: windows move on and reservations lapse.
  lemma {:induction false} SpentFalls(cfg: Config, rows: seq<Call>, scope: Scope, unit: Unit, now: int, later: int)
    requires Calendar(cfg) && now <= later && forall call :: call in rows ==> Sane(call, now)
    ensures 0.0 <= Spent(cfg, rows, scope, unit, later) <= Spent(cfg, rows, scope, unit, now)
  {
    if rows != [] {
      var last := |rows| - 1;
      assert rows[last] in rows;
      SpentFalls(cfg, rows[..last], scope, unit, now, later);
      CountedFalls(cfg, rows[last], scope, unit, now, later);
    }
  }

  lemma {:induction false} SpentAfterUpdate(cfg: Config, rows: seq<Call>, id: nat, call: Call,
                                            scope: Scope, unit: Unit, now: int)
    requires id < |rows|
    ensures Spent(cfg, rows[id := call], scope, unit, now) ==
            Spent(cfg, rows, scope, unit, now)
            - Counted(cfg, rows[id], scope, unit, now) + Counted(cfg, call, scope, unit, now)
  {
    var last := |rows| - 1;
    if id == last {
      assert rows[id := call][..last] == rows[..last];
    } else {
      assert rows[id := call][..last] == rows[..last][id := call];
      SpentAfterUpdate(cfg, rows[..last], id, call, scope, unit, now);
    }
  }

  // A settled row stays in its scopes, so a total rises by what the settling raised at most.
  lemma SettleRaisesAtMost(cfg: Config, s: State, step: Step, scope: Scope, unit: Unit)
    requires step.Settle?
    ensures Spent(cfg, Next(cfg, s, step).rows, scope, unit, s.now)
            <= Spent(cfg, s.rows, scope, unit, s.now) + Raise(s, step, unit)
  {
    if step.id < |s.rows| {
      SpentAfterUpdate(cfg, s.rows, step.id, SettledCall(s.rows[step.id], step), scope, unit, s.now);
    }
  }

  // A reservation is granted only below every ceiling it counts against.
  lemma GrantIsBelowLimit(cfg: Config, s: State, step: Step, scope: Scope, unit: Unit)
    requires Calendar(cfg) && Granted(cfg, s, step) && Governed(scope, unit)
    ensures var after := Spent(cfg, Next(cfg, s, step).rows, scope, unit, s.now);
            || after == Spent(cfg, s.rows, scope, unit, s.now)
            || after < Limit(cfg, scope, unit) + Reservation(step, unit)
  {
    var call := NewCall(step, s.now);
    assert (s.rows + [call])[..|s.rows|] == s.rows;
    if scope.InSession? && step.session != Some(scope.id) {
      assert Counted(cfg, call, scope, unit, s.now) == 0.0;
    } else {
      CheckIsExact(cfg, s.rows, step.session, s.now);
      assert Governs(step.session, scope, unit);
      assert !Reached(cfg, s.rows, scope, unit, s.now);
      assert Counted(cfg, call, scope, unit, s.now) == Reservation(step, unit);
    }
  }

  lemma {:induction false} OverrunIsPositive(cfg: Config, start: int, steps: seq<Step>, unit: Unit)
    ensures Overrun(cfg, start, steps, unit) >= 0.0 && LargestReservation(cfg, start, steps, unit) >= 0.0
  {
    if steps != [] {
      OverrunIsPositive(cfg, start, steps[..|steps| - 1], unit);
    }
  }

  ghost predicate Within(cfg: Config, s: State, scope: Scope, unit: Unit, largest: real, overrun: real) {
    var spent := Spent(cfg, s.rows, scope, unit, s.now);
    spent < Max(0.0, Limit(cfg, scope, unit)) + largest + overrun || spent <= overrun
  }

  lemma StepStaysWithin(cfg: Config, s: State, step: Step, scope: Scope, unit: Unit, largest: real, overrun: real)
    requires Calendar(cfg) && Governed(scope, unit) && Priced(step) && largest >= 0.0 && overrun >= 0.0
    requires forall call :: call in s.rows ==> Sane(call, s.now)
    requires Within(cfg, s, scope, unit, largest, overrun)
    ensures Within(cfg, Next(cfg, s, step), scope, unit,
                   if Granted(cfg, s, step) then Max(largest, Reservation(step, unit)) else largest,
                   overrun + Raise(s, step, unit))
  {
    match step {
      case Tick(elapsed) => SpentFalls(cfg, s.rows, scope, unit, s.now, s.now + elapsed);
      case Reserve(_, _, _, _) =>
        if Granted(cfg, s, step) { GrantIsBelowLimit(cfg, s, step, scope, unit); }
      case Settle(_, _, _, _) => SettleRaisesAtMost(cfg, s, step, scope, unit);
    }
  }

  // However many calls overlap and however late they settle, a total stays below its
  // ceiling plus one reservation plus what settlings raised; a ceiling of nothing admits
  // nothing.
  lemma {:induction false} SpendIsBounded(cfg: Config, start: int, steps: seq<Step>, scope: Scope, unit: Unit)
    requires Calendar(cfg) && Governed(scope, unit)
    requires forall step :: step in steps ==> Priced(step)
    ensures Within(cfg, Run(cfg, start, steps), scope, unit,
                   LargestReservation(cfg, start, steps, unit), Overrun(cfg, start, steps, unit))
  {
    if steps != [] {
      var before, step := steps[..|steps| - 1], steps[|steps| - 1];
      assert step in steps && forall x :: x in before ==> x in steps;
      SpendIsBounded(cfg, start, before, scope, unit);
      RowsStaySane(cfg, start, before);
      OverrunIsPositive(cfg, start, before, unit);
      StepStaysWithin(cfg, Run(cfg, start, before), step, scope, unit,
                      LargestReservation(cfg, start, before, unit), Overrun(cfg, start, before, unit));
    }
  }

  // ---------------------------------------------------------------- what a total is made of

  // The step at `n` is the reservation that row `id` was made for.
  ghost predicate Opens(cfg: Config, start: int, steps: seq<Step>, n: nat, id: nat) {
    && n < |steps| && Granted(cfg, Run(cfg, start, steps[..n]), steps[n])
    && |Run(cfg, start, steps[..n]).rows| == id
  }

  // The last of these steps that settles row `id`.
  ghost function LastSettling(steps: seq<Step>, id: nat): Option<Step> {
    if steps == [] then None
    else
      var step := steps[|steps| - 1];
      if step.Settle? && step.id == id then Some(step) else LastSettling(steps[..|steps| - 1], id)
  }

  ghost predicate IsReservation(call: Call, reserve: Step)
    requires reserve.Reserve?
  {
    && call.status == Reserved && call.usage == Usage(0, 0, 0, 0) && call.costUsd == 0.0
    && call.reservedTokens == reserve.maxTokens + reserve.estimatedInput && call.reservedUsd == reserve.usd
  }

  ghost predicate IsSettled(call: Call, settle: Step)
    requires settle.Settle?
  {
    && call.usage == settle.usage && call.costUsd == settle.cost && call.reservedTokens == 0 && call.reservedUsd == 0.0
    && call.status == if settle.failed then Failed else Settled
  }

  // Row `id` is what the reservation at `n` and the last settling since make of it.
  ghost predicate IsCallOf(cfg: Config, start: int, steps: seq<Step>, n: nat, id: nat)
    requires Opens(cfg, start, steps, n, id)
  {
    && id < |Run(cfg, start, steps).rows|
    && var call, reserve := Run(cfg, start, steps).rows[id], steps[n];
       && call.createdAt == Run(cfg, start, steps[..n]).now && call.session == reserve.session
       && match LastSettling(steps[n + 1..], id)
          case None => IsReservation(call, reserve)
          case Some(settle) => settle.Settle? && IsSettled(call, settle)
  }

  lemma StepOnRow(cfg: Config, s: State, step: Step, id: nat)
    requires id < |s.rows|
    ensures var t := Next(cfg, s, step);
            && id < |t.rows| && t.rows[id].createdAt == s.rows[id].createdAt && t.rows[id].session == s.rows[id].session
            && if step.Settle? && step.id == id then IsSettled(t.rows[id], step) else t.rows[id] == s.rows[id]
  {
  }

  lemma {:induction false} RowIsItsCall(cfg: Config, start: int, steps: seq<Step>, n: nat, id: nat)
    requires Opens(cfg, start, steps, n, id)
    ensures IsCallOf(cfg, start, steps, n, id)
  {
    hide Granted, Next;
    var last := |steps| - 1;
    var before, step := steps[..last], steps[last];
    if n == last {
      OpenedRow(cfg, Run(cfg, start, before), step);
      assert steps[n + 1..] == [];
    } else {
      assert before[..n] == steps[..n];
      RowIsItsCall(cfg, start, before, n, id);
      StepOnRow(cfg, Run(cfg, start, before), step, id);
      assert steps[n + 1..][..last - n - 1] == before[n + 1..];
    }
  }

  lemma GrantAppends(cfg: Config, s: State, step: Step)
    requires Granted(cfg, s, step)
    ensures Next(cfg, s, step) == State(s.now, s.rows + [NewCall(step, s.now)])
  {
    hide EnforceBudget, NewCall;
  }

  lemma NewCallIsReservation(step: Step, now: int)
    requires step.Reserve?
    ensures var call := NewCall(step, now);
            IsReservation(call, step) && call.createdAt == now && call.session == step.session
  {
  }

  lemma OpenedRow(cfg: Config, s: State, step: Step)
    requires Granted(cfg, s, step)
    ensures var t := Next(cfg, s, step); var id := |s.rows|;
            && |t.rows| == id + 1 && t.now == s.now && IsReservation(t.rows[id], step)
            && t.rows[id].createdAt == s.now && t.rows[id].session == step.session
  {
    GrantAppends(cfg, s, step);
    NewCallIsReservation(step, s.now);
    hide EnforceBudget, Next, NewCall, IsReservation;
  }

  lemma {:induction false} EveryRowIsOpened(cfg: Config, start: int, steps: seq<Step>, id: nat)
    requires id < |Run(cfg, start, steps).rows|
    ensures exists n: nat :: Opens(cfg, start, steps, n, id)
  {
    hide EnforceBudget;
    var last := |steps| - 1;
    var before := steps[..last];
    var s := Run(cfg, start, before);
    if id < |s.rows| {
      EveryRowIsOpened(cfg, start, before, id);
      var n: nat :| Opens(cfg, start, before, n, id);
      assert before[..n] == steps[..n];
      assert Opens(cfg, start, steps, n, id);
    } else {
      assert Opens(cfg, start, steps, last, id);
    }
  }

  // The calendar's months do not overlap.
  ghost predicate Months(cfg: Config) {
    Calendar(cfg) && forall t :: cfg.monthStart(cfg.monthStart(t)) == cfg.monthStart(t)
  }

  ghost predicate SameDay(s: int, t: int) {
    s / 86_400_000_000 == t / 86_400_000_000
  }

  ghost predicate CountsIn(cfg: Config, reserve: Step, born: int, now: int, scope: Scope)
    requires reserve.Reserve?
  {
    match scope
    case Month => cfg.monthStart(born) == cfg.monthStart(now)
    case Day => SameDay(born, now)
    case InSession(id) => reserve.session == Some(id)
  }

  // A settled call counts what its last settling named, failed or not; another counts its
  // reservation for a quarter of an hour.
  ghost function Amount(reserve: Step, settling: Option<Step>, age: int, unit: Unit): real
    requires reserve.Reserve? && (settling.Some? ==> settling.value.Settle?)
  {
    match (settling, unit)
    case (Some(settle), Tokens) =>
      var u := settle.usage; (u.input + u.output + u.cacheRead + u.cacheWrite) as real
    case (Some(settle), Usd) => settle.cost
    case (None, Tokens) => if age <= 900_000_000 then (reserve.maxTokens + reserve.estimatedInput) as real else 0.0
    case (None, Usd) => if age <= 900_000_000 then reserve.usd else 0.0
  }

  lemma {:induction false} LastSettlingSettles(steps: seq<Step>, id: nat)
    ensures LastSettling(steps, id).Some? ==> LastSettling(steps, id).value.Settle?
  {
    if steps != [] {
      LastSettlingSettles(steps[..|steps| - 1], id);
    }
  }

  ghost function OpeningOf(cfg: Config, start: int, steps: seq<Step>, id: nat): (n: nat)
    requires id < |Run(cfg, start, steps).rows|
    ensures Opens(cfg, start, steps, n, id)
  {
    EveryRowIsOpened(cfg, start, steps, id);
    var n: nat :| Opens(cfg, start, steps, n, id);
    n
  }

  // What the steps alone say call `id` counts.
  ghost function CallCounts(cfg: Config, start: int, steps: seq<Step>, id: nat, scope: Scope, unit: Unit): real
    requires id < |Run(cfg, start, steps).rows|
  {
    var n := OpeningOf(cfg, start, steps, id);
    var born, now := Run(cfg, start, steps[..n]).now, Run(cfg, start, steps).now;
    LastSettlingSettles(steps[n + 1..], id);
    if CountsIn(cfg, steps[n], born, now, scope)
    then Amount(steps[n], LastSettling(steps[n + 1..], id), now - born, unit) else 0.0
  }

  ghost function CallsCount(cfg: Config, start: int, steps: seq<Step>, k: nat, scope: Scope, unit: Unit): real
    requires k <= |Run(cfg, start, steps).rows|
  {
    if k == 0 then 0.0
    else CallsCount(cfg, start, steps, k - 1, scope, unit) + CallCounts(cfg, start, steps, k - 1, scope, unit)
  }

  lemma DaysMean(born: int, now: int)
    requires born <= now
    ensures born >= StartOfDay(now) <==> SameDay(born, now)
  {
  }

  lemma ScopeMeans(cfg: Config, call: Call, reserve: Step, now: int, scope: Scope)
    requires Months(cfg) && call.createdAt <= now && reserve.Reserve? && call.session == reserve.session
    ensures InScope(cfg, call, scope, now) <==> CountsIn(cfg, reserve, call.createdAt, now, scope)
  {
    match scope
    case Month => assert cfg.monthStart(cfg.monthStart(now)) == cfg.monthStart(now);
    case Day => DaysMean(call.createdAt, now);
    case InSession(_) =>
  }

  lemma {:induction false} NowRises(cfg: Config, start: int, steps: seq<Step>, n: nat)
    requires n <= |steps|
    ensures Run(cfg, start, steps[..n]).now <= Run(cfg, start, steps).now
  {
    hide EnforceBudget;
    if n == |steps| {
      assert steps[..n] == steps;
    } else {
      var before := steps[..|steps| - 1];
      assert before[..n] == steps[..n];
      NowRises(cfg, start, before, n);
    }
  }

  lemma CallCountsItsRow(cfg: Config, start: int, steps: seq<Step>, id: nat, scope: Scope, unit: Unit)
    requires Months(cfg) && id < |Run(cfg, start, steps).rows|
    ensures var s := Run(cfg, start, steps);
            CallCounts(cfg, start, steps, id, scope, unit) == Counted(cfg, s.rows[id], scope, unit, s.now)
  {
    hide Run, Months, InScope, CountsIn, EnforceBudget;
    var n := OpeningOf(cfg, start, steps, id);
    RowIsItsCall(cfg, start, steps, n, id);
    NowRises(cfg, start, steps, n);
    var s := Run(cfg, start, steps);
    ScopeMeans(cfg, s.rows[id], steps[n], s.now, scope);
  }

  lemma {:induction false} FirstRowsCount(cfg: Config, start: int, steps: seq<Step>, k: nat, scope: Scope, unit: Unit)
    requires Months(cfg) && k <= |Run(cfg, start, steps).rows|
    ensures var s := Run(cfg, start, steps);
            Spent(cfg, s.rows[..k], scope, unit, s.now) == CallsCount(cfg, start, steps, k, scope, unit)
  {
    hide Run, Months, Counted, CallCounts;
    if k > 0 {
      var s := Run(cfg, start, steps);
      assert s.rows[..k][..k - 1] == s.rows[..k - 1];
      FirstRowsCount(cfg, start, steps, k - 1, scope, unit);
      CallCountsItsRow(cfg, start, steps, k - 1, scope, unit);
    }
  }

  // A total is exact: what the calls' own reservations and last settlings add up to.
  lemma SpentIsExact(cfg: Config, start: int, steps: seq<Step>, scope: Scope, unit: Unit)
    requires Months(cfg)
    ensures var s := Run(cfg, start, steps);
            Spent(cfg, s.rows, scope, unit, s.now) == CallsCount(cfg, start, steps, |s.rows|, scope, unit)
  {
    var s := Run(cfg, start, steps);
    assert s.rows[..|s.rows|] == s.rows;
    FirstRowsCount(cfg, start, steps, |s.rows|, scope, unit);
  }

  // Settling puts the reported usage, of a failed call too, in the place of what the row
  // counted before, in every scope the row is in.
  lemma SettlingCountsUsage(cfg: Config, s: State, id: nat, usage: Usage, cost: real, failed: bool,
                            scope: Scope, unit: Unit)
    requires id < |s.rows|
    ensures var t := Next(cfg, s, Settle(id, usage, cost, failed));
            var others := Spent(cfg, s.rows, scope, unit, s.now) - Counted(cfg, s.rows[id], scope, unit, s.now);
            && t.now == s.now
            && Spent(cfg, t.rows, scope, unit, t.now) == others +
                 if !InScope(cfg, s.rows[id], scope, s.now) then 0.0
                 else match unit
                      case Tokens => (usage.input + usage.output + usage.cacheRead + usage.cacheWrite) as real
                      case Usd => cost
  {
    SpentAfterUpdate(cfg, s.rows, id, SettledCall(s.rows[id], Settle(id, usage, cost, failed)), scope, unit, s.now);
  }

  // ---------------------------------------------------------------- when a call is refused

  // The five ceilings, dollars to within half a millionth.
  ghost predicate Full(cfg: Config, rows: seq<Call>, leg: Refusal, now: int) {
    var spent := Spent(cfg, rows, leg.scope, leg.unit, now);
    match leg
    case Refusal(Month, _) => spent + 0.0000005 >= cfg.usdPerMonth
    case Refusal(Day, Usd) => spent + 0.0000005 >= cfg.usdPerDay
    case Refusal(InSession(_), Usd) => spent + 0.0000005 >= cfg.usdPerSession
    case Refusal(Day, Tokens) => spent >= cfg.tokensPerDay as real
    case Refusal(InSession(_), Tokens) => spent >= cfg.tokensPerSession as real
  }

  // The ceilings of a call, in the order in which a full one is named.
  ghost predicate Named(session: Option<Id>, leg: Refusal, place: nat) {
    || (leg == Refusal(Month, Usd) && place == 0)
    || (leg == Refusal(Day, Usd) && place == 1)
    || (session.Some? && leg == Refusal(InSession(session.value), Usd) && place == 2)
    || (leg == Refusal(Day, Tokens) && place == 3)
    || (session.Some? && leg == Refusal(InSession(session.value), Tokens) && place == 4)
  }

  lemma {:induction false} FirstIsFirst(cfg: Config, rows: seq<Call>, session: Option<Id>, legs: seq<Refusal>,
                                        now: int)
    ensures var r := FirstExhausted(cfg, rows, session, legs, now);
            r.Some? ==> exists k :: 0 <= k < |legs| && legs[k] == r.value && forall j :: 0 <= j < k ==>
                          !Exhausted(cfg, rows, session, legs[j].scope, legs[j].unit, now)
  {
    if legs != [] && !Exhausted(cfg, rows, session, legs[0].scope, legs[0].unit, now) {
      FirstIsFirst(cfg, rows, session, legs[1..], now);
      if FirstExhausted(cfg, rows, session, legs, now).Some? {
        var k :| 0 <= k < |legs[1..]| && legs[1..][k] == FirstExhausted(cfg, rows, session, legs, now).value
          && forall j :: 0 <= j < k ==>
               !Exhausted(cfg, rows, session, legs[1..][j].scope, legs[1..][j].unit, now);
        assert legs[k + 1] == legs[1..][k];
        assert forall j :: 0 < j < k + 1 ==> legs[j] == legs[1..][j - 1];
      }
    }
  }

  lemma FullMeans(cfg: Config, rows: seq<Call>, session: Option<Id>, leg: Refusal, place: nat, now: int)
    requires Named(session, leg, place)
    ensures Full(cfg, rows, leg, now) <==> Exhausted(cfg, rows, session, leg.scope, leg.unit, now)
    ensures exists k :: 0 <= k < |Legs(session)| && Legs(session)[k] == leg
  {
    ExhaustedMeans(cfg, rows, session, leg.scope, leg.unit, now);
    var k := if session.Some? || place < 2 then place else 2;
    assert Legs(session)[k] == leg;
  }

  lemma LegAt(session: Option<Id>, k: nat)
    requires k < |Legs(session)|
    ensures Named(session, Legs(session)[k], Place(session, k))
  {
  }

  lemma BeforeLeg(session: Option<Id>, k: nat, leg: Refusal, place: nat)
    requires k < |Legs(session)| && place < Place(session, k) && Named(session, leg, place)
    ensures exists j :: 0 <= j < k && Legs(session)[j] == leg
  {
    var j := if session.Some? || place < 2 then place else 2;
    assert Legs(session)[j] == leg;
  }

  // A call is refused for the first of its ceilings that is full, month before day before
  // session and dollars before tokens, and passes when none is.
  lemma RefusalNamesFirst(cfg: Config, rows: seq<Call>, session: Option<Id>, now: int)
    ensures EnforceBudget(cfg, rows, session, now).None? <==>
              forall leg, place: nat :: Named(session, leg, place) ==> !Full(cfg, rows, leg, now)
    ensures var r := EnforceBudget(cfg, rows, session, now);
            r.Some? ==> exists place: nat :: Named(session, r.value, place) && Full(cfg, rows, r.value, now)
                          && forall leg, before: nat :: before < place && Named(session, leg, before) ==>
                               !Full(cfg, rows, leg, now)
  {
    hide Exhausted, Full, Legs, Named, Place;
    var legs := Legs(session);
    FirstExhaustedMeans(cfg, rows, session, legs, now);
    FirstIsFirst(cfg, rows, session, legs, now);
    forall leg, place: nat | Named(session, leg, place)
      ensures Full(cfg, rows, leg, now) <==> Exhausted(cfg, rows, session, leg.scope, leg.unit, now)
      ensures leg in legs
    {
      FullMeans(cfg, rows, session, leg, place, now);
    }
    forall k | 0 <= k < |legs| ensures Named(session, legs[k], Place(session, k)) {
      LegAt(session, k);
    }
    var r := EnforceBudget(cfg, rows, session, now);
    if r.Some? {
      var k :| 0 <= k < |legs| && legs[k] == r.value
        && forall j :: 0 <= j < k ==> !Exhausted(cfg, rows, session, legs[j].scope, legs[j].unit, now);
      forall leg, before: nat | before < Place(session, k) && Named(session, leg, before)
        ensures !Full(cfg, rows, leg, now)
      {
        BeforeLeg(session, k, leg, before);
      }
    }
  }

  ghost function Place(session: Option<Id>, k: nat): nat {
    if session.Some? || k < 2 then k else 3
  }

  // ---------------------------------------------------------------- reservations settled in time

  // Every settling finds its reservation still live.
  ghost predicate SettledInTime(cfg: Config, start: int, steps: seq<Step>) {
    forall n :: 0 <= n < |steps| && steps[n].Settle? ==>
      var s := Run(cfg, start, steps[..n]);
      steps[n].id < |s.rows| ==> Live(s.rows[steps[n].id], s.now)
  }

  function Held(call: Call, unit: Unit): real {
    match unit
    case Tokens => call.reservedTokens as real
    case Usd => call.reservedUsd
  }

  // What the provider reported beyond what was reserved, over the whole run.
  function ExcessOverReservations(cfg: Config, start: int, steps: seq<Step>, unit: Unit): real {
    if steps == [] then 0.0
    else
      var before, step := steps[..|steps| - 1], steps[|steps| - 1];
      var s := Run(cfg, start, before);
      ExcessOverReservations(cfg, start, before, unit)
        + if step.Settle? && step.id < |s.rows| then Max(0.0, Actual(step, unit) - Held(s.rows[step.id], unit)) else 0.0
  }

  lemma {:induction false} InTimeOverrunIsExcess(cfg: Config, start: int, steps: seq<Step>, unit: Unit)
    requires SettledInTime(cfg, start, steps)
    ensures Overrun(cfg, start, steps, unit) == ExcessOverReservations(cfg, start, steps, unit)
  {
    if steps != [] {
      var last := |steps| - 1;
      var before := steps[..last];
      forall n | 0 <= n < |before| && before[n].Settle?
        ensures var s := Run(cfg, start, before[..n]);
                before[n].id < |s.rows| ==> Live(s.rows[before[n].id], s.now)
      {
        assert before[..n] == steps[..n] && before[n] == steps[n];
      }
      InTimeOverrunIsExcess(cfg, start, before, unit);
    }
  }

  // The promise of the ledger: settled in time and within what they reserved, any number of
  // overlapping calls overshoot a ceiling by less than one reservation.
  lemma OvershootIsOneReservation(cfg: Config, start: int, steps: seq<Step>, scope: Scope, unit: Unit)
    requires Calendar(cfg) && Governed(scope, unit) && Limit(cfg, scope, unit) > 0.0
    requires forall step :: step in steps ==> Priced(step)
    requires SettledInTime(cfg, start, steps) && ExcessOverReservations(cfg, start, steps, unit) == 0.0
    ensures var s := Run(cfg, start, steps);
            Spent(cfg, s.rows, scope, unit, s.now)
            < Limit(cfg, scope, unit) + LargestReservation(cfg, start, steps, unit)
  {
    SpendIsBounded(cfg, start, steps, scope, unit);
    InTimeOverrunIsExcess(cfg, start, steps, unit);
    OverrunIsPositive(cfg, start, steps, unit);
  }

  lemma RunSnoc(cfg: Config, start: int, before: seq<Step>, step: Step)
    ensures Run(cfg, start, before + [step]) == Next(cfg, Run(cfg, start, before), step)
  {
    hide Next;
    assert (before + [step])[..|before|] == before;
  }

  lemma LargestSnoc(cfg: Config, start: int, before: seq<Step>, step: Step, unit: Unit)
    ensures var largest := LargestReservation(cfg, start, before, unit);
            LargestReservation(cfg, start, before + [step], unit) ==
            if Granted(cfg, Run(cfg, start, before), step) then Max(largest, Reservation(step, unit)) else largest
  {
    hide Run, Max, EnforceBudget, Reservation;
    assert (before + [step])[..|before|] == before;
  }

  lemma ExcessSnoc(cfg: Config, start: int, before: seq<Step>, step: Step, unit: Unit)
    ensures var s := Run(cfg, start, before);
            ExcessOverReservations(cfg, start, before + [step], unit) ==
            ExcessOverReservations(cfg, start, before, unit)
            + if step.Settle? && step.id < |s.rows|
              then Max(0.0, Actual(step, unit) - Held(s.rows[step.id], unit)) else 0.0
  {
    hide Run, Max, Actual, Held;
    assert (before + [step])[..|before|] == before;
  }

  lemma OneMoreCall(cfg: Config, rows: seq<Call>, call: Call, scope: Scope, unit: Unit, now: int)
    ensures Spent(cfg, rows + [call], scope, unit, now)
            == Spent(cfg, rows, scope, unit, now) + Counted(cfg, call, scope, unit, now)
  {
    assert (rows + [call])[..|rows|] == rows;
  }

  lemma FirstDay(now: int)
    requires 0 <= now < DAY
    ensures StartOfDay(now) == 0
  {
  }

  // A call without cost on the first day, outside any session.
  predicate Free(call: Call) {
    call.session == None && call.createdAt >= 0 && call.reservedUsd == 0.0 && call.costUsd == 0.0
  }

  // Dollars are no obstacle to a free call; the day's tokens decide.
  lemma {:induction false} FreeCallsCostNothing(cfg: Config, rows: seq<Call>, scope: Scope, now: int)
    requires forall call :: call in rows ==> Free(call)
    ensures Spent(cfg, rows, scope, Usd, now) == 0.0
  {
    if rows != [] {
      var last := |rows| - 1;
      assert rows[last] in rows;
      FreeCallsCostNothing(cfg, rows[..last], scope, now);
    }
  }

  lemma GrantedBelowDay(cfg: Config, s: State, step: Step)
    requires cfg.usdPerDay >= 1.0 && cfg.usdPerMonth >= 1.0 && step.Reserve? && step.session == None
    requires forall call :: call in s.rows ==> Free(call)
    requires Spent(cfg, s.rows, Day, Tokens, s.now) < cfg.tokensPerDay as real
    ensures Granted(cfg, s, step)
  {
    FreeCallsCostNothing(cfg, s.rows, Day, s.now);
    FreeCallsCostNothing(cfg, s.rows, Month, s.now);
    CheckIsExact(cfg, s.rows, None, s.now);
    forall scope, unit | Governs(None, scope, unit) ensures !Reached(cfg, s.rows, scope, unit, s.now) {
      match scope {
        case Month =>
        case Day => match unit { case Usd => case Tokens => }
        case InSession(_) =>
      }
    }
  }

  // The bound is met to the last token: one call just below the ceiling, then another.
  lemma BoundIsTight(cfg: Config, first: nat, second: nat)
    requires cfg.tokensPerDay == first + 1 && first <= second
    requires cfg.usdPerDay >= 1.0 && cfg.usdPerMonth >= 1.0
    ensures var steps := [Reserve(None, first, 0, 0.0)] + [Reserve(None, second, 0, 0.0)];
            var s := Run(cfg, 0, steps);
            Spent(cfg, s.rows, Day, Tokens, s.now)
            == Limit(cfg, Day, Tokens) + LargestReservation(cfg, 0, steps, Tokens) - 1.0
  {
    var a, b := Reserve(None, first, 0, 0.0), Reserve(None, second, 0, 0.0);
    FirstDay(0);
    var s0 := Run(cfg, 0, []);
    RunSnoc(cfg, 0, [], a);
    LargestSnoc(cfg, 0, [], a, Tokens);
    assert [] + [a] == [a];
    GrantedBelowDay(cfg, s0, a);
    var s1 := Run(cfg, 0, [a]);
    OneMoreCall(cfg, [], NewCall(a, 0), Day, Tokens, 0);
    assert s1 == State(0, [NewCall(a, 0)]);
    assert Spent(cfg, s1.rows, Day, Tokens, 0) == first as real by {
      assert [] + [NewCall(a, 0)] == [NewCall(a, 0)];
    }
    GrantedBelowDay(cfg, s1, b);
    RunSnoc(cfg, 0, [a], b);
    LargestSnoc(cfg, 0, [a], b, Tokens);
    OneMoreCall(cfg, s1.rows, NewCall(b, 0), Day, Tokens, 0);
  }

  lemma ThreeRuns(cfg: Config, a: Step, b: Step, c: Step)
    ensures Run(cfg, 0, [a]) == Next(cfg, State(0, []), a)
    ensures Run(cfg, 0, [a] + [b]) == Next(cfg, Run(cfg, 0, [a]), b)
    ensures Run(cfg, 0, [a] + [b] + [c]) == Next(cfg, Run(cfg, 0, [a] + [b]), c)
  {
    hide Next;
    assert [] + [a] == [a];
    RunSnoc(cfg, 0, [], a);
    RunSnoc(cfg, 0, [a], b);
    RunSnoc(cfg, 0, [a] + [b], c);
  }

  lemma ThreeLargest(cfg: Config, a: Step, b: Step, c: Step)
    requires a.Reserve? && b.Tick? && c.Reserve?
    requires Granted(cfg, State(0, []), a) && Granted(cfg, Run(cfg, 0, [a] + [b]), c)
    ensures LargestReservation(cfg, 0, [a] + [b] + [c], Tokens)
            == Max(Max(0.0, Reservation(a, Tokens)), Reservation(c, Tokens))
  {
    assert Run(cfg, 0, []) == State(0, []) && LargestReservation(cfg, 0, [], Tokens) == 0.0;
    assert [] + [a] == [a];
    LargestSnoc(cfg, 0, [], a, Tokens);
    LargestSnoc(cfg, 0, [a], b, Tokens);
    LargestSnoc(cfg, 0, [a] + [b], c, Tokens);
    hide Run, LargestReservation, EnforceBudget, Reservation, Max;
  }

  lemma ThreeExcess(cfg: Config, a: Step, b: Step, c: Step)
    requires a.Reserve? && b.Tick? && c.Reserve?
    ensures ExcessOverReservations(cfg, 0, [a] + [b] + [c], Tokens) == 0.0
  {
    assert ExcessOverReservations(cfg, 0, [], Tokens) == 0.0;
    assert [] + [a] == [a];
    ExcessSnoc(cfg, 0, [], a, Tokens);
    ExcessSnoc(cfg, 0, [a], b, Tokens);
    ExcessSnoc(cfg, 0, [a] + [b], c, Tokens);
    hide Run, ExcessOverReservations, Actual, Held;
  }

  // A claim left to lapse does not keep a second one out, however large it was.
  lemma LapsedClaimLetsIn(cfg: Config, claim: nat, later: nat)
    requires 1 <= cfg.tokensPerDay && cfg.usdPerDay >= 1.0 && cfg.usdPerMonth >= 1.0
    requires later == RESERVATION_TTL + 1
    ensures var reserve := Reserve(None, claim, 0, 0.0); var steps := [reserve] + [Tick(later)] + [reserve];
            && Run(cfg, 0, steps) == State(later, [NewCall(reserve, 0)] + [NewCall(reserve, later)])
            && LargestReservation(cfg, 0, steps, Tokens) == claim as real
            && ExcessOverReservations(cfg, 0, steps, Tokens) == 0.0
  {
    var reserve := Reserve(None, claim, 0, 0.0);
    var c := NewCall(reserve, 0);
    GrantedBelowDay(cfg, State(0, []), reserve);
    assert [] + [c] == [c];
    var s2 := State(later, [c]);
    OneMoreCall(cfg, [], c, Day, Tokens, later);
    GrantedBelowDay(cfg, s2, reserve);
    ThreeRuns(cfg, reserve, Tick(later), reserve);
    ThreeLargest(cfg, reserve, Tick(later), reserve);
    ThreeExcess(cfg, reserve, Tick(later), reserve);
  }

  // Settling late does break the promise, for any ceiling and any reservation that reaches it,
  // with no call beyond its reservation: a lapsed claim lets the next call in, and both then
  // cost what they reserved.
  lemma LateSettleBreaksPromise(cfg: Config, claim: nat)
    requires 1 <= cfg.tokensPerDay <= claim && cfg.usdPerDay >= 1.0 && cfg.usdPerMonth >= 1.0
    ensures var reserve, settle := Reserve(None, claim, 0, 0.0), Settle(0, Usage(claim, 0, 0, 0), 0.0, false);
            var steps := [reserve] + [Tick(RESERVATION_TTL + 1)] + [reserve] + [settle];
            var s := Run(cfg, 0, steps);
            && ExcessOverReservations(cfg, 0, steps, Tokens) == 0.0
            && Spent(cfg, s.rows, Day, Tokens, s.now) == 2.0 * claim as real
            && Spent(cfg, s.rows, Day, Tokens, s.now)
               >= Limit(cfg, Day, Tokens) + LargestReservation(cfg, 0, steps, Tokens)
  {
    var later := RESERVATION_TTL + 1;
    var reserve, settle := Reserve(None, claim, 0, 0.0), Settle(0, Usage(claim, 0, 0, 0), 0.0, false);
    var three := [reserve] + [Tick(later)] + [reserve];
    LapsedClaimLetsIn(cfg, claim, later);
    RunSnoc(cfg, 0, three, settle);
    LargestSnoc(cfg, 0, three, settle, Tokens);
    ExcessSnoc(cfg, 0, three, settle, Tokens);
    var c, d := NewCall(reserve, 0), NewCall(reserve, later);
    var e := SettledCall(c, settle);
    assert ([c] + [d])[0 := e] == [e] + [d];
    FirstDay(later);
    OneMoreCall(cfg, [], e, Day, Tokens, later);
    assert [] + [e] == [e];
    OneMoreCall(cfg, [e], d, Day, Tokens, later);
  }

  // ---------------------------------------------------------------- the table

  class CallLedger {
    const cfg: Config
    var now: int
    var rows: seq<Call>

    function Abstract(): State
      reads this
    {
      State(now, rows)
    }

    constructor (c: Config, start: int)
      ensures cfg == c && Abstract() == State(start, [])
    {
      cfg, now, rows := c, start, [];
    }

    // The legs are checked in order and the first exhausted one refuses the call.
    method Enforce(session: Option<Id>) returns (refusal: Option<Refusal>)
      ensures refusal == EnforceBudget(cfg, rows, session, now)
    {
      var legs := Legs(session);
      var i := 0;
      while i < |legs|
        invariant 0 <= i <= |legs|
        invariant FirstExhausted(cfg, rows, session, legs, now) == FirstExhausted(cfg, rows, session, legs[i..], now)
      {
        if Exhausted(cfg, rows, session, legs[i].scope, legs[i].unit, now) {
          return Some(legs[i]);
        }
        i := i + 1;
      }
      return None;
    }

    method ReserveCall(session: Option<Id>, maxTokens: nat, estimatedInput: nat, usd: real)
      returns (id: nat, refusal: Option<Refusal>)
      modifies this`rows
      ensures Abstract() == Next(cfg, old(Abstract()), Reserve(session, maxTokens, estimatedInput, usd))
      ensures refusal == EnforceBudget(cfg, old(rows), session, now)
      ensures refusal.None? ==> id == |old(rows)| && |rows| == id + 1 && rows[id].status == Reserved
      ensures refusal.Some? ==> rows == old(rows)
    {
      id := |rows|;
      refusal := Enforce(session);
      if refusal.None? {
        rows := rows + [Call(Reserved, session, now, maxTokens + estimatedInput, usd, NO_USAGE, 0.0)];
      }
    }

    method SettleCall(id: nat, usage: Usage, cost: real, failed: bool)
      modifies this`rows
      ensures Abstract() == Next(cfg, old(Abstract()), Settle(id, usage, cost, failed))
    {
      if id >= |rows| {
        return;
      }
      var row := rows[id];
      row := row.(status := if failed then Failed else Settled, reservedTokens := 0, usage := usage);
      row := row.(reservedUsd := 0.0, costUsd := cost);
      rows := rows[id := row];
    }
  }
}
