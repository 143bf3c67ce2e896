/**
  The interviewer's turn: the model speaks, asks for tools, and is answered, a bounded number
  of times. The model is adversarial: every proof is for all replies. What it has already
  used up of an item is counted anew each turn from the rows the session has written.
*/
module TurnLoop {
  import opened Base

  const MAX_ROUNDS := 5
  const MAX_CALLS := 12
  const MAX_ANSWER_CHECKS := 3
  const MAX_OBSERVATIONS := 3

  datatype Item = Item(id: Id, hints: nat, gradedByAnswer: bool)

  datatype Tool = RunCode | RevealHint | CheckAnswer | RecordObservation | EndRound | NoSuchTool

  // A tool call as the model makes it, with what the checks outside this model make of its
  // arguments: an unreadable level is `None`, and `raises` is an answer check that throws.
  datatype Use =
    | Code(runs: bool)
    | Hint(level: Option<int>)
    | Answer(blank: bool, raises: bool)
    | Observe(accepted: bool)
    | Finish
    | Unknown

  datatype Reply = Failure | Text | Uses(first: Use, others: seq<Use>)

  // What a tool row's `tool_calls` holds.
  datatype Record = Record(tool: Tool, item: Id, isError: bool, level: Option<nat>)

  datatype Role = Candidate | Interviewer | ToolResult

  // `number` is the turn's `seq`.
  datatype Turn = Turn(number: nat, role: Role, record: Option<Record>)

  datatype Context = Context(hints: nat, checks: nat, observations: nat, ended: bool)

  // ---------------------------------------------------------------- what the rows say

  predicate Counts(row: Turn, item: Id, tool: Tool) {
    row.record.Some? && row.record.value.tool == tool && row.record.value.item == item && !row.record.value.isError
  }

  // The successful calls of one tool against one item.
  function Calls(rows: seq<Turn>, item: Id, tool: Tool): nat {
    if rows == [] then 0
    else Calls(rows[..|rows| - 1], item, tool) + if Counts(rows[|rows| - 1], item, tool) then 1 else 0
  }

  predicate RevealsLevel(row: Turn, item: Id) {
    && row.record.Some? && row.record.value.tool == RevealHint
    && row.record.value.item == item && row.record.value.level.Some?
  }

  function HintsRevealed(rows: seq<Turn>, item: Id): nat {
    if rows == [] then 0
    else
      var before := HintsRevealed(rows[..|rows| - 1], item);
      var row := rows[|rows| - 1];
      if RevealsLevel(row, item) && row.record.value.level.value > before then row.record.value.level.value else before
  }

  ghost predicate Revealed(rows: seq<Turn>, item: Id, level: nat) {
    exists k :: 0 <= k < |rows| && RevealsLevel(rows[k], item) && rows[k].record.value.level == Some(level)
  }

  // ---------------------------------------------------------------- the tools

  datatype Outcome = Outcome(context: Context, isError: bool, level: Option<nat>)

  function Refused(c: Context): Outcome {
    Outcome(c, true, None)
  }

  function Dispatch(item: Item, use: Use, c: Context): Outcome {
    match use
    case Code(runs) => Outcome(c, !runs, None)
    case Hint(level) =>
      if item.hints == 0 || level.None? || level.value < 1 || level.value > item.hints then Refused(c)
      else if level.value > c.hints + 1 then Refused(c)
      else Outcome(c.(hints := if level.value > c.hints then level.value else c.hints), false, Some(level.value))
    case Answer(blank, raises) =>
      if !item.gradedByAnswer || blank || c.checks >= MAX_ANSWER_CHECKS then Refused(c)
      // The ration is spent before the answer is checked, and stays spent when checking throws.
      else Outcome(c.(checks := c.checks + 1), raises, None)
    case Observe(accepted) =>
      if c.observations >= MAX_OBSERVATIONS || !accepted then Refused(c)
      else Outcome(c.(observations := c.observations + 1), false, None)
    case Finish => Outcome(c.(ended := true), false, None)
    case Unknown => Refused(c)
  }

  function ToolOf(use: Use): Tool {
    match use
    case Code(_) => RunCode
    case Hint(_) => RevealHint
    case Answer(_, _) => CheckAnswer
    case Observe(_) => RecordObservation
    case Finish => EndRound
    case Unknown => NoSuchTool
  }

  // ---------------------------------------------------------------- one turn

  datatype Status = Going | Finished | Died

  // `next` is the number the next row gets, `asked` the transcript at each model call, `done`
  // the authoritative messages published, and `evidence` the item of each observation that
  // was folded into mastery.
  datatype Work = Work(
    rows: seq<Turn>, evidence: seq<Id>, next: nat, context: Context, calls: nat,
    asked: seq<seq<Turn>>, done: nat, status: Status)

  function Write(w: Work, role: Role, record: Option<Record>): Work {
    w.(rows := w.rows + [Turn(w.next, role, record)], next := w.next + 1)
  }

  function DoUse(w: Work, item: Item, use: Use): Work {
    var out := Dispatch(item, use, w.context);
    var w := w.(context := out.context, calls := w.calls + 1,
                evidence := if use.Observe? && !out.isError then w.evidence + [item.id] else w.evidence);
    Write(w, ToolResult, Some(Record(ToolOf(use), item.id, out.isError, out.level)))
  }

  function DoUses(w: Work, item: Item, uses: seq<Use>): (Work, bool)
    decreases |uses|
  {
    if uses == [] then (w, false)
    else if w.calls >= MAX_CALLS then (w, true)
    else DoUses(DoUse(w, item, uses[0]), item, uses[1..])
  }

  // The apology that stands in for an answer when a cap is reached.
  function Cap(w: Work): Work {
    Write(w, Interviewer, None).(done := w.done + 1, status := Finished)
  }

  function Round(w: Work, item: Item, reply: Reply): Work {
    var w := w.(asked := w.asked + [w.rows]);
    match reply
    case Failure => w.(status := Died)
    case Text => Write(w, Interviewer, None).(done := w.done + 1, status := Finished)
    case Uses(first, others) =>
      var (w', truncated) := DoUses(Write(w, Interviewer, None), item, [first] + others);
      if truncated then Cap(w') else w'
  }

  function ReplyAt(replies: seq<Reply>, round: nat): Reply {
    if round < |replies| then replies[round] else Failure
  }

  function Rounds(w: Work, item: Item, replies: seq<Reply>, round: nat): Work
    requires round <= MAX_ROUNDS
    decreases MAX_ROUNDS - round
  {
    if !w.status.Going? then w
    else if round == MAX_ROUNDS then Cap(w)
    else Rounds(Round(w, item, ReplyAt(replies, round)), item, replies, round + 1)
  }

  function NextNumber(rows: seq<Turn>): nat {
    if rows == [] then 1 else rows[|rows| - 1].number + 1
  }

  // The candidate's message is written first, and the rations are read off the rows.
  function Begin(rows: seq<Turn>, evidence: seq<Id>, item: Item): Work {
    var rows' := rows + [Turn(NextNumber(rows), Candidate, None)];
    var context := Context(HintsRevealed(rows', item.id), Calls(rows', item.id, CheckAnswer),
                           Calls(rows', item.id, RecordObservation), false);
    Work(rows', evidence, NextNumber(rows), context, 0, [], 0, Going).(next := NextNumber(rows) + 1)
  }

  function TakeTurn(rows: seq<Turn>, evidence: seq<Id>, item: Item, replies: seq<Reply>): Work {
    Rounds(Begin(rows, evidence, item), item, replies, 0)
  }

  // ---------------------------------------------------------------- rations

  ghost predicate Numbered(rows: seq<Turn>) {
    forall k :: 0 <= k < |rows| ==> rows[k].number == k + 1
  }

  function Times(items: seq<Id>, item: Id): nat {
    if items == [] then 0 else Times(items[..|items| - 1], item) + if items[|items| - 1] == item then 1 else 0
  }

  ghost predicate HintsInOrder(rows: seq<Turn>, item: Id) {
    forall level: nat :: Revealed(rows, item, level) <==> 1 <= level <= HintsRevealed(rows, item)
  }

  // What a whole session keeps for one item, whichever turns it came up in.
  ghost predicate Rationed(rows: seq<Turn>, evidence: seq<Id>, item: Id) {
    && Calls(rows, item, CheckAnswer) <= MAX_ANSWER_CHECKS
    && Calls(rows, item, RecordObservation) <= MAX_OBSERVATIONS
    && Times(evidence, item) == Calls(rows, item, RecordObservation)
    && HintsInOrder(rows, item)
  }

  ghost predicate AllRationed(rows: seq<Turn>, evidence: seq<Id>) {
    forall item: Id :: Rationed(rows, evidence, item)
  }

  // The context the tools see agrees with the rows, except that a check that threw is
  // charged to it alone.
  ghost predicate InStep(w: Work, item: Item) {
    && w.context.hints == HintsRevealed(w.rows, item.id)
    && Calls(w.rows, item.id, CheckAnswer) <= w.context.checks <= MAX_ANSWER_CHECKS
    && w.context.observations == Calls(w.rows, item.id, RecordObservation) <= MAX_OBSERVATIONS
  }

  lemma CallsSnoc(rows: seq<Turn>, row: Turn, item: Id, tool: Tool)
    ensures Calls(rows + [row], item, tool) == Calls(rows, item, tool) + if Counts(row, item, tool) then 1 else 0
  {
    assert (rows + [row])[..|rows|] == rows;
  }

  lemma HintsSnoc(rows: seq<Turn>, row: Turn, item: Id)
    ensures HintsRevealed(rows + [row], item) ==
            var before := HintsRevealed(rows, item);
            if RevealsLevel(row, item) && row.record.value.level.value > before
            then row.record.value.level.value else before
  {
    assert (rows + [row])[..|rows|] == rows;
  }

  lemma RevealedSnoc(rows: seq<Turn>, row: Turn, item: Id, level: nat)
    ensures Revealed(rows + [row], item, level) <==>
            Revealed(rows, item, level) || (RevealsLevel(row, item) && row.record.value.level == Some(level))
  {
    var all := rows + [row];
    assert all[|rows|] == row;
    if Revealed(rows, item, level) {
      var k :| 0 <= k < |rows| && RevealsLevel(rows[k], item) && rows[k].record.value.level == Some(level);
      assert all[k] == rows[k];
    }
  }

  lemma LevelStaysInOrder(rows: seq<Turn>, row: Turn, item: Id, level: nat)
    requires Revealed(rows, item, level) <==> 1 <= level <= HintsRevealed(rows, item)
    requires RevealsLevel(row, item) ==> 1 <= row.record.value.level.value <= HintsRevealed(rows, item) + 1
    ensures Revealed(rows + [row], item, level) <==> 1 <= level <= HintsRevealed(rows + [row], item)
  {
    HintsSnoc(rows, row, item);
    RevealedSnoc(rows, row, item, level);
    hide HintsRevealed, Revealed;
  }

  // A row that reveals no hint of the item, or the next one at most, keeps the hints in order.
  lemma RowKeepsHintsInOrder(rows: seq<Turn>, row: Turn, item: Id)
    requires HintsInOrder(rows, item)
    requires RevealsLevel(row, item) ==> 1 <= row.record.value.level.value <= HintsRevealed(rows, item) + 1
    ensures HintsInOrder(rows + [row], item)
  {
    forall level: nat ensures Revealed(rows + [row], item, level) <==> 1 <= level <= HintsRevealed(rows + [row], item) {
      LevelStaysInOrder(rows, row, item, level);
    }
  }

  // A row without a record is charged to nobody.
  lemma PlainRowKeeps(rows: seq<Turn>, evidence: seq<Id>, row: Turn, item: Id)
    requires Rationed(rows, evidence, item) && row.record.None?
    ensures Rationed(rows + [row], evidence, item)
    ensures Calls(rows + [row], item, CheckAnswer) == Calls(rows, item, CheckAnswer)
    ensures Calls(rows + [row], item, RecordObservation) == Calls(rows, item, RecordObservation)
    ensures HintsRevealed(rows + [row], item) == HintsRevealed(rows, item)
  {
    CallsSnoc(rows, row, item, CheckAnswer);
    CallsSnoc(rows, row, item, RecordObservation);
    HintsSnoc(rows, row, item);
    RowKeepsHintsInOrder(rows, row, item);
  }

  ghost predicate Sound(w: Work, item: Item) {
    AllRationed(w.rows, w.evidence) && InStep(w, item) && Numbered(w.rows) && w.next == |w.rows| + 1
  }

  lemma PlainRowIsSound(w: Work, role: Role, item: Item)
    requires Sound(w, item)
    ensures Sound(Write(w, role, None), item)
  {
    var row := Turn(w.next, role, None);
    forall x: Id ensures Rationed(w.rows + [row], w.evidence, x) {
      PlainRowKeeps(w.rows, w.evidence, row, x);
    }
    PlainRowKeeps(w.rows, w.evidence, row, item.id);
  }

  lemma UseIsInStep(w: Work, item: Item, use: Use)
    requires Sound(w, item)
    ensures InStep(DoUse(w, item, use), item)
  {
    var out := Dispatch(item, use, w.context);
    var row := Turn(w.next, ToolResult, Some(Record(ToolOf(use), item.id, out.isError, out.level)));
    CallsSnoc(w.rows, row, item.id, CheckAnswer);
    CallsSnoc(w.rows, row, item.id, RecordObservation);
    HintsSnoc(w.rows, row, item.id);
  }

  lemma TimesSnoc(items: seq<Id>, last: Id, item: Id)
    ensures Times(items + [last], item) == Times(items, item) + if last == item then 1 else 0
  {
    assert (items + [last])[..|items|] == items;
  }

  lemma UseIsRationed(w: Work, item: Item, use: Use, x: Id)
    requires Sound(w, item)
    ensures Rationed(DoUse(w, item, use).rows, DoUse(w, item, use).evidence, x)
  {
    var out := Dispatch(item, use, w.context);
    var row := Turn(w.next, ToolResult, Some(Record(ToolOf(use), item.id, out.isError, out.level)));
    assert Rationed(w.rows, w.evidence, x);
    CallsSnoc(w.rows, row, x, CheckAnswer);
    CallsSnoc(w.rows, row, x, RecordObservation);
    TimesSnoc(w.evidence, item.id, x);
    RowKeepsHintsInOrder(w.rows, row, x);
    UseIsInStep(w, item, use);
  }

  lemma UseIsSound(w: Work, item: Item, use: Use)
    requires Sound(w, item)
    ensures Sound(DoUse(w, item, use), item)
  {
    UseIsInStep(w, item, use);
    forall x: Id ensures Rationed(DoUse(w, item, use).rows, DoUse(w, item, use).evidence, x) {
      UseIsRationed(w, item, use, x);
    }
  }

  // ---------------------------------------------------------------- caps

  // The model is asked on a transcript that ends with the candidate's side of the talk.
  predicate EndsWithUser(rows: seq<Turn>) {
    rows != [] && !rows[|rows| - 1].role.Interviewer?
  }

  ghost predicate WellAsked(asked: seq<seq<Turn>>) {
    forall k :: 0 <= k < |asked| ==> EndsWithUser(asked[k]) && asked[k][0].role == Candidate
  }

  ghost predicate Bounded(w: Work, round: nat) {
    && w.calls <= MAX_CALLS && |w.asked| == round && WellAsked(w.asked)
    && w.rows != [] && w.rows[0].role == Candidate
    && (w.status.Going? ==> w.done == 0 && EndsWithUser(w.rows))
    && (w.status.Finished? ==> w.done == 1 && w.rows[|w.rows| - 1].role == Interviewer)
    && (w.status.Died? ==> w.done == 0)
  }

  lemma {:induction false} UsesKeep(w: Work, item: Item, uses: seq<Use>)
    requires Sound(w, item) && w.status.Going? && w.calls <= MAX_CALLS && w.rows != []
    ensures var (w', truncated) := DoUses(w, item, uses);
            && Sound(w', item) && w'.calls <= MAX_CALLS && w'.status.Going? && w'.done == w.done && w'.asked == w.asked
            && w.rows <= w'.rows && (!truncated && uses != [] ==> EndsWithUser(w'.rows))
    decreases |uses|
  {
    if uses != [] && w.calls < MAX_CALLS {
      UseIsSound(w, item, uses[0]);
      UsesKeep(DoUse(w, item, uses[0]), item, uses[1..]);
    }
  }

  lemma RoundKeeps(w: Work, item: Item, reply: Reply, round: nat)
    requires Sound(w, item) && w.status.Going? && Bounded(w, round)
    ensures Sound(Round(w, item, reply), item) && Bounded(Round(w, item, reply), round + 1)
    ensures w.rows <= Round(w, item, reply).rows
  {
    var asked := w.(asked := w.asked + [w.rows]);
    PlainRowIsSound(asked, Interviewer, item);
    if reply.Uses? {
      var spoken := Write(asked, Interviewer, None);
      UsesKeep(spoken, item, [reply.first] + reply.others);
      var (w', truncated) := DoUses(spoken, item, [reply.first] + reply.others);
      if truncated {
        PlainRowIsSound(w', Interviewer, item);
      }
    }
  }

  ghost predicate Ended(w: Work, item: Item) {
    Sound(w, item) && !w.status.Going? && |w.asked| <= MAX_ROUNDS && Bounded(w, |w.asked|)
  }

  lemma CapEnds(w: Work, item: Item)
    requires Sound(w, item) && w.status.Going? && Bounded(w, MAX_ROUNDS)
    ensures Ended(Cap(w), item) && w.rows <= Cap(w).rows
  {
    PlainRowIsSound(w, Interviewer, item);
  }

  lemma RoundEndsOrGoesOn(w: Work, item: Item, reply: Reply, round: nat)
    requires round < MAX_ROUNDS && Sound(w, item) && w.status.Going? && Bounded(w, round)
    ensures var w' := Round(w, item, reply);
            && w.rows <= w'.rows
            && if w'.status.Going? then Sound(w', item) && Bounded(w', round + 1) else Ended(w', item)
  {
    RoundKeeps(w, item, reply, round);
  }

  lemma {:induction false} RoundsKeep(w: Work, item: Item, replies: seq<Reply>, round: nat)
    requires round <= MAX_ROUNDS && Sound(w, item) && w.status.Going? && Bounded(w, round)
    ensures Ended(Rounds(w, item, replies, round), item) && w.rows <= Rounds(w, item, replies, round).rows
    decreases MAX_ROUNDS - round
  {
    if round == MAX_ROUNDS {
      CapEnds(w, item);
    } else {
      RoundEndsOrGoesOn(w, item, ReplyAt(replies, round), round);
      var w' := Round(w, item, ReplyAt(replies, round));
      if w'.status.Going? {
        RoundsKeep(w', item, replies, round + 1);
      }
    }
  }

  lemma BeginIsSound(rows: seq<Turn>, evidence: seq<Id>, item: Item)
    requires AllRationed(rows, evidence) && Numbered(rows) && (rows != [] ==> rows[0].role == Candidate)
    ensures Sound(Begin(rows, evidence, item), item) && Bounded(Begin(rows, evidence, item), 0)
  {
    var row := Turn(NextNumber(rows), Candidate, None);
    forall x: Id ensures Rationed(rows + [row], evidence, x) {
      PlainRowKeeps(rows, evidence, row, x);
    }
    assert Rationed(rows + [row], evidence, item.id);
  }

  // ---------------------------------------------------------------- a whole session

  datatype Asked = Asked(item: Item, replies: seq<Reply>)

  datatype Session = Session(rows: seq<Turn>, evidence: seq<Id>)

  function Interview(turns: seq<Asked>): Session {
    if turns == [] then Session([], [])
    else
      var before := Interview(turns[..|turns| - 1]);
      var turn := turns[|turns| - 1];
      var w := TakeTurn(before.rows, before.evidence, turn.item, turn.replies);
      Session(w.rows, w.evidence)
  }

  ghost predicate Kept(s: Session) {
    AllRationed(s.rows, s.evidence) && Numbered(s.rows) && (s.rows != [] ==> s.rows[0].role == Candidate)
  }

  // One turn, whatever the model does: at most five model calls and twelve tool calls, and
  // exactly one authoritative message unless a model call failed.
  lemma TurnIsBounded(s: Session, item: Item, replies: seq<Reply>)
    requires Kept(s)
    ensures var w := TakeTurn(s.rows, s.evidence, item, replies);
            && Kept(Session(w.rows, w.evidence)) && s.rows <= w.rows
            && |w.asked| <= MAX_ROUNDS && w.calls <= MAX_CALLS && WellAsked(w.asked)
            && (w.status.Finished? || w.status.Died?) && w.done == if w.status.Finished? then 1 else 0
  {
    BeginIsSound(s.rows, s.evidence, item);
    RoundsKeep(Begin(s.rows, s.evidence, item), item, replies, 0);
  }

  lemma {:induction false} SessionIsKept(turns: seq<Asked>)
    ensures Kept(Interview(turns))
  {
    if turns == [] {
    } else {
      var front, turn := turns[..|turns| - 1], turns[|turns| - 1];
      SessionIsKept(front);
      TurnIsBounded(Interview(front), turn.item, turn.replies);
    }
  }

  // Over any number of turns, per item: at most three answers checked and three observations
  // folded into mastery, though each turn counts its rations anew.
  lemma RationsHoldOverSession(turns: seq<Asked>, item: Id)
    ensures var s := Interview(turns);
            && Calls(s.rows, item, CheckAnswer) <= 3
            && Times(s.evidence, item) == Calls(s.rows, item, RecordObservation) <= 3
  {
    SessionIsKept(turns);
    assert Rationed(Interview(turns).rows, Interview(turns).evidence, item);
  }

  // The levels revealed of an item are 1 to the number grading counts: none was skipped.
  lemma HintsAreTakenInOrder(turns: seq<Asked>, item: Id, level: nat)
    ensures Revealed(Interview(turns).rows, item, level) <==> 1 <= level <= HintsRevealed(Interview(turns).rows, item)
  {
    SessionIsKept(turns);
    assert Rationed(Interview(turns).rows, Interview(turns).evidence, item);
  }

  lemma RowsAreConsecutive(turns: seq<Asked>, k: nat)
    requires k < |Interview(turns).rows|
    ensures Interview(turns).rows[k].number == k + 1
  {
    SessionIsKept(turns);
  }

  // A check that throws is not charged to the session: the next turn has it back.
  lemma ThrownCheckIsForgiven(s: Session, item: Item)
    requires Kept(s) && item.gradedByAnswer && Calls(s.rows, item.id, CheckAnswer) < MAX_ANSWER_CHECKS
    ensures var w := Begin(s.rows, s.evidence, item);
            var w' := DoUse(w, item, Answer(false, true));
            && w'.context.checks == w.context.checks + 1
            && Begin(w'.rows, w'.evidence, item).context.checks == w.context.checks
  {
    var w := Begin(s.rows, s.evidence, item);
    var w' := DoUse(w, item, Answer(false, true));
    BeginIsSound(s.rows, s.evidence, item);
    CallsSnoc(s.rows, w.rows[|s.rows|], item.id, CheckAnswer);
    CallsSnoc(w.rows, w'.rows[|w.rows|], item.id, CheckAnswer);
    CallsSnoc(w'.rows, Turn(NextNumber(w'.rows), Candidate, None), item.id, CheckAnswer);
  }

  // ---------------------------------------------------------------- what a turn answers

  // The answer checks among these calls that spend a ration, whether or not they throw.
  function Spent(item: Item, uses: seq<Use>): nat {
    if uses == [] then 0
    else
      var last := uses[|uses| - 1];
      Spent(item, uses[..|uses| - 1]) + if item.gradedByAnswer && last.Answer? && !last.blank then 1 else 0
  }

  ghost predicate HintIsGiven(before: seq<Turn>, item: Item, level: Option<int>) {
    level.Some? && 1 <= level.value <= item.hints && level.value <= HintsRevealed(before, item.id) + 1
  }

  // Whether a call succeeds, from the rows before it and the checks spent on the item.
  ghost predicate Succeeds(before: seq<Turn>, item: Item, use: Use, spent: nat) {
    match use
    case Code(runs) => runs
    case Hint(level) => HintIsGiven(before, item, level)
    case Answer(blank, raises) => item.gradedByAnswer && !blank && !raises && spent < 3
    case Observe(accepted) => accepted && Calls(before, item.id, RecordObservation) < 3
    case Finish => true
    case Unknown => false
  }

  ghost predicate NamesTool(use: Use, tool: Tool) {
    match tool
    case RunCode => use.Code?
    case RevealHint => use.Hint?
    case CheckAnswer => use.Answer?
    case RecordObservation => use.Observe?
    case EndRound => use.Finish?
    case NoSuchTool => use.Unknown?
  }

  // The row answers the call: it names tool and item, is an error unless the call succeeds,
  // and carries the level of a hint that was given.
  ghost predicate Answers(before: seq<Turn>, row: Turn, item: Item, use: Use, spent: nat) {
    && row.number == |before| + 1 && row.role == ToolResult && row.record.Some?
    && var record := row.record.value;
       && NamesTool(use, record.tool) && record.item == item.id
       && (record.isError <==> !Succeeds(before, item, use, spent))
       && record.level == if use.Hint? && HintIsGiven(before, item, use.level) then Some(use.level.value) else None
  }

  ghost predicate Plain(before: seq<Turn>, row: Turn) {
    row == Turn(|before| + 1, Interviewer, None)
  }

  // One call: an accepted observation is folded while fewer than three are on the rows, an
  // answer is checked while fewer than three checks are spent, a hint is given if it is the
  // next one at most; anything else is refused, and nothing else changes.
  lemma UseIsAnswered(w: Work, item: Item, use: Use)
    requires Sound(w, item)
    ensures var t := DoUse(w, item, use);
            && |t.rows| == |w.rows| + 1 && w.rows <= t.rows
            && Answers(w.rows, t.rows[|w.rows|], item, use, w.context.checks)
            && t.evidence == w.evidence +
                 (if use.Observe? && Succeeds(w.rows, item, use, w.context.checks) then [item.id] else [])
            && t.context.checks == Smaller(3, w.context.checks + Spent(item, [use]))
            && (t.context.ended <==> w.context.ended || use.Finish?)
            && t.calls == w.calls + 1 && t.asked == w.asked && t.done == w.done && t.status == w.status
  {
    assert [use][..0] == [];
  }

  lemma {:induction false} SpentConcat(item: Item, a: seq<Use>, b: seq<Use>)
    ensures Spent(item, a + b) == Spent(item, a) + Spent(item, b)
  {
    if b == [] {
      assert a + b == a;
    } else {
      assert (a + b)[..|a + b| - 1] == a + b[..|b| - 1];
      SpentConcat(item, a, b[..|b| - 1]);
    }
  }

  // Row by row, the rows from `from` on answer these calls.
  ghost predicate AnswerAll(rows: seq<Turn>, from: nat, item: Item, uses: seq<Use>, spent: nat) {
    && from + |uses| <= |rows|
    && forall j :: 0 <= j < |uses| ==>
         Answers(rows[..from + j], rows[from + j], item, uses[j], Smaller(3, spent + Spent(item, uses[..j])))
  }

  lemma AnswerAllPrefix(rows: seq<Turn>, more: seq<Turn>, from: nat, item: Item, uses: seq<Use>, spent: nat)
    requires AnswerAll(rows, from, item, uses, spent) && rows <= more
    ensures AnswerAll(more, from, item, uses, spent)
  {
    forall j | 0 <= j < |uses|
      ensures Answers(more[..from + j], more[from + j], item, uses[j], Smaller(3, spent + Spent(item, uses[..j])))
    {
      assert more[..from + j] == rows[..from + j];
    }
  }

  lemma AnswerAllCons(rows: seq<Turn>, from: nat, item: Item, uses: seq<Use>, spent: nat)
    requires uses != [] && from < |rows| && Answers(rows[..from], rows[from], item, uses[0], Smaller(3, spent))
    requires AnswerAll(rows, from + 1, item, uses[1..], Smaller(3, spent + Spent(item, [uses[0]])))
    ensures AnswerAll(rows, from, item, uses, spent)
  {
    forall j | 0 <= j < |uses|
      ensures Answers(rows[..from + j], rows[from + j], item, uses[j], Smaller(3, spent + Spent(item, uses[..j])))
    {
      if j == 0 {
        assert uses[..0] == [];
      } else {
        assert uses[1..][j - 1] == uses[j] && uses[..j] == [uses[0]] + uses[1..][..j - 1];
        SpentConcat(item, [uses[0]], uses[1..][..j - 1]);
      }
    }
  }

  // How many of these calls the cap lets through.
  function Allowed(calls: nat, uses: seq<Use>): (n: nat)
    requires calls <= 12
    ensures n <= |uses| && n <= 12 - calls
  {
    Smaller(|uses|, 12 - calls)
  }

  // The rows that the calls of one reply leave.
  ghost predicate Rowed(w: Work, item: Item, uses: seq<Use>, t: Work)
    requires w.calls <= 12
  {
    var n := Allowed(w.calls, uses);
    w.rows <= t.rows && |t.rows| == |w.rows| + n && AnswerAll(t.rows, |w.rows|, item, uses[..n], w.context.checks)
  }

  // What else they leave behind.
  ghost predicate Tallied(w: Work, item: Item, uses: seq<Use>, t: Work)
    requires w.calls <= 12
  {
    var n := Allowed(w.calls, uses);
    && t.calls == w.calls + n && t.context.checks == Smaller(3, w.context.checks + Spent(item, uses[..n]))
    && (t.context.ended <==> w.context.ended || Finish in uses[..n])
    && t.asked == w.asked && t.done == w.done && t.status == w.status
  }

  lemma NoUses(w: Work, item: Item, uses: seq<Use>)
    requires Sound(w, item) && w.calls <= 12 && (uses == [] || w.calls == 12)
    ensures Rowed(w, item, uses, w) && Tallied(w, item, uses, w)
  {
    hide Sound, Answers;
    ChecksWithin(w, item);
    assert Spent(item, []) == 0;
    assert uses[..Allowed(w.calls, uses)] == [];
  }

  lemma FirstAndRest(before: seq<Turn>, mid: seq<Turn>, rows: seq<Turn>, item: Item, uses: seq<Use>, n: nat,
                     checks: nat)
    requires |mid| == |before| + 1 && before <= mid <= rows && 0 < n <= |uses| && checks == Smaller(3, checks)
    requires Answers(before, mid[|before|], item, uses[0], checks)
    requires AnswerAll(rows, |mid|, item, uses[1..][..n - 1], Smaller(3, checks + Spent(item, [uses[0]])))
    ensures before <= rows && AnswerAll(rows, |before|, item, uses[..n], checks)
  {
    hide Answers, AnswerAll, Spent;
    var mine, rest := uses[..n], uses[1..][..n - 1];
    assert mine == [uses[0]] + rest && mine[1..] == rest;
    assert rows[..|before|] == before && rows[|before|] == mid[|before|];
    AnswerAllCons(rows, |before|, item, mine, checks);
  }

  lemma FirstAndRestTally(item: Item, uses: seq<Use>, n: nat, checks: nat)
    requires 0 < n <= |uses|
    ensures Smaller(3, Smaller(3, checks + Spent(item, [uses[0]])) + Spent(item, uses[1..][..n - 1]))
            == Smaller(3, checks + Spent(item, uses[..n]))
    ensures Finish in uses[..n] <==> uses[0] == Finish || Finish in uses[1..][..n - 1]
  {
    hide Spent;
    var mine, rest := uses[..n], uses[1..][..n - 1];
    assert mine == [uses[0]] + rest;
    SpentConcat(item, [uses[0]], rest);
  }

  lemma OneUseMore(w: Work, item: Item, uses: seq<Use>, w1: Work, t: Work)
    requires Sound(w, item) && uses != [] && w.calls < 12 && w1 == DoUse(w, item, uses[0])
    requires w1.calls == w.calls + 1 && Rowed(w1, item, uses[1..], t)
    ensures Rowed(w, item, uses, t)
  {
    UseIsAnswered(w, item, uses[0]);
    ChecksWithin(w, item);
    hide DoUse, Sound, Answers, AnswerAll, Spent, Succeeds;
    FirstAndRest(w.rows, w1.rows, t.rows, item, uses, Allowed(w.calls, uses), w.context.checks);
  }

  lemma OneUseMoreTallied(w: Work, item: Item, uses: seq<Use>, w1: Work, t: Work)
    requires Sound(w, item) && uses != [] && w.calls < 12 && w1 == DoUse(w, item, uses[0])
    requires w1.calls == w.calls + 1 && Tallied(w1, item, uses[1..], t)
    ensures Tallied(w, item, uses, t)
  {
    UseIsAnswered(w, item, uses[0]);
    hide DoUse, Sound, Answers, Spent, Succeeds;
    FirstAndRestTally(item, uses, Allowed(w.calls, uses), w.context.checks);
  }

  // The calls of one reply, as far as the cap lets them.
  lemma {:induction false} UsesAreAnswered(w: Work, item: Item, uses: seq<Use>)
    requires Sound(w, item) && w.calls <= 12
    ensures var (t, truncated) := DoUses(w, item, uses);
            && Sound(t, item) && Rowed(w, item, uses, t) && Tallied(w, item, uses, t)
            && (truncated <==> Allowed(w.calls, uses) < |uses|)
    decreases |uses|
  {
    hide Sound, Rowed, Tallied, DoUse;
    if uses == [] || w.calls == 12 {
      NoUses(w, item, uses);
    } else {
      UseIsSound(w, item, uses[0]);
      var w1 := DoUse(w, item, uses[0]);
      OneCallMore(w, item, uses[0]);
      UsesAreAnswered(w1, item, uses[1..]);
      var t := DoUses(w1, item, uses[1..]).0;
      OneUseMore(w, item, uses, w1, t);
      OneUseMoreTallied(w, item, uses, w1, t);
    }
  }

  lemma OneCallMore(w: Work, item: Item, use: Use)
    ensures DoUse(w, item, use).calls == w.calls + 1
  {
  }

  lemma ChecksWithin(w: Work, item: Item)
    requires Sound(w, item)
    ensures w.context.checks == Smaller(3, w.context.checks)
  {
  }

  // The calls the model made in its first replies.
  function Made(replies: seq<Reply>, n: nat): seq<Use> {
    if n == 0 then []
    else
      var reply := ReplyAt(replies, n - 1);
      Made(replies, n - 1) + if reply.Uses? then [reply.first] + reply.others else []
  }

  // The apology that a cap leaves ends the turn.
  ghost predicate Apologised(t: Work, end: nat) {
    t.status == Finished && |t.rows| == end + 1 && Plain(t.rows[..end], t.rows[end])
  }

  // The model's words and the answers to its calls, on the transcript it was asked on.
  ghost predicate Spoke(t: Work, at: seq<Turn>, item: Item, uses: seq<Use>, spent: nat) {
    && |at| + 1 + |uses| <= |t.rows| && at < t.rows && Plain(at, t.rows[|at|])
    && AnswerAll(t.rows, |at| + 1, item, uses, spent)
  }

  // What round `r` of a turn adds to the transcript it began with, `spent` checks being spent
  // on the item by then. It is the last one if the model fails or says no more than text, if
  // the calls of the turn go over twelve, or if it is the fifth; the caps leave an apology.
  ghost predicate RoundIs(w: Work, item: Item, replies: seq<Reply>, r: nat, spent: nat)
    requires r < |w.asked|
  {
    var at, reply, last := w.asked[r], ReplyAt(replies, r), r + 1 == |w.asked|;
    match reply
    case Failure => last && w.status == Died && w.rows == at
    case Text => last && w.status == Finished && |w.rows| == |at| + 1 && Spoke(w, at, item, [], spent)
    case Uses(first, others) =>
      var uses, before := [first] + others, |Made(replies, r)|;
      && before <= 12
      && var n := Allowed(before, uses); var end := |at| + 1 + n;
         && Spoke(w, at, item, uses[..n], spent) && (last <==> n < |uses| || r == 4)
         && if last then Apologised(w, end) else w.asked[r + 1] == w.rows[..end]
  }

  ghost predicate OnTrack(w: Work, item: Item, replies: seq<Reply>, round: nat, charged: nat) {
    && Sound(w, item) && w.status == Going && |w.asked| == round && w.calls == |Made(replies, round)| <= 12
    && w.context.checks == Smaller(3, charged + Spent(item, Made(replies, round)))
    && (w.context.ended <==> Finish in Made(replies, round))
  }

  ghost predicate AllTold(t: Work, made: seq<Use>) {
    t.calls == Smaller(12, |made|) && (t.context.ended <==> Finish in made[..t.calls])
  }

  // A round that the model makes calls in, and what it leaves for the next.
  lemma RoundOfUses(w: Work, item: Item, replies: seq<Reply>, round: nat, charged: nat)
    requires OnTrack(w, item, replies, round, charged) && ReplyAt(replies, round).Uses?
    ensures var reply := ReplyAt(replies, round); var uses := [reply.first] + reply.others;
            var n := Allowed(w.calls, uses);
            var t := Round(w, item, reply); var end := |w.rows| + 1 + n;
            && t.asked == w.asked + [w.rows] && Spoke(t, w.rows, item, uses[..n], w.context.checks)
            && (if n < |uses| then Apologised(t, end)
                else OnTrack(t, item, replies, round + 1, charged) && |t.rows| == end)
            && AllTold(t, Made(replies, round + 1))
  {
    var reply := ReplyAt(replies, round);
    var uses := [reply.first] + reply.others;
    var asked := w.(asked := w.asked + [w.rows]);
    var spoken := Write(asked, Interviewer, None);
    NextIsNumber(w, item);
    SpokenIsSound(w, item);
    UsesAreAnswered(spoken, item, uses);
    var (t, truncated) := DoUses(spoken, item, uses);
    NextIsNumber(t, item);
    assert Round(w, item, reply) == if truncated then Cap(t) else t;
    SpokeUses(w, item, uses, spoken, t);
    TalliedUses(w, item, replies, round, charged, uses, spoken, t);
    hide DoUses, Rowed, Tallied, Spoke, Spent, Made, Sound, Round, OnTrack, AllTold, Apologised, Write;
    if truncated {
      CapIsSaid(w, item, uses, t);
      CapTells(t, Made(replies, round + 1));
    }
  }

  lemma SpokenIsSound(w: Work, item: Item)
    requires Sound(w, item)
    ensures Sound(Write(w.(asked := w.asked + [w.rows]), Interviewer, None), item)
  {
    PlainRowIsSound(w.(asked := w.asked + [w.rows]), Interviewer, item);
  }

  lemma CapTells(t: Work, made: seq<Use>)
    requires AllTold(t, made)
    ensures AllTold(Cap(t), made) && Cap(t).asked == t.asked
  {
  }

  lemma SpokeUses(w: Work, item: Item, uses: seq<Use>, spoken: Work, t: Work)
    requires w.calls <= 12 && w.next == |w.rows| + 1
    requires spoken == Write(w.(asked := w.asked + [w.rows]), Interviewer, None) && Rowed(spoken, item, uses, t)
    ensures var n := Allowed(w.calls, uses);
            Spoke(t, w.rows, item, uses[..n], w.context.checks) && |t.rows| == |w.rows| + 1 + n
  {
    hide AnswerAll;
    assert spoken.rows[|w.rows|] == t.rows[|w.rows|];
  }

  lemma TalliedUses(w: Work, item: Item, replies: seq<Reply>, round: nat, charged: nat, uses: seq<Use>,
                    spoken: Work, t: Work)
    requires OnTrack(w, item, replies, round, charged)
    requires ReplyAt(replies, round).Uses? && uses == [ReplyAt(replies, round).first] + ReplyAt(replies, round).others
    requires spoken == Write(w.(asked := w.asked + [w.rows]), Interviewer, None) && Tallied(spoken, item, uses, t)
    ensures t.asked == w.asked + [w.rows] && AllTold(t, Made(replies, round + 1))
    ensures Allowed(w.calls, uses) == |uses| && Sound(t, item) ==> OnTrack(t, item, replies, round + 1, charged)
  {
    hide Sound, Spent, Made;
    MadeAfter(item, replies, round, charged, w.context.checks, uses);
  }

  lemma CapIsSaid(w: Work, item: Item, uses: seq<Use>, t: Work)
    requires w.calls <= 12 && t.next == |t.rows| + 1
    requires var n := Allowed(w.calls, uses);
             Spoke(t, w.rows, item, uses[..n], w.context.checks) && |t.rows| == |w.rows| + 1 + n
    ensures var n := Allowed(w.calls, uses);
            Spoke(Cap(t), w.rows, item, uses[..n], w.context.checks) && Apologised(Cap(t), |w.rows| + 1 + n)
  {
    hide Spent;
    var n := Allowed(w.calls, uses);
    AnswerAllPrefix(t.rows, Cap(t).rows, |w.rows| + 1, item, uses[..n], w.context.checks);
    assert Cap(t).rows[..|t.rows|] == t.rows;
  }

  lemma MadeAfter(item: Item, replies: seq<Reply>, round: nat, charged: nat, checks: nat, uses: seq<Use>)
    requires ReplyAt(replies, round).Uses? && uses == [ReplyAt(replies, round).first] + ReplyAt(replies, round).others
    requires |Made(replies, round)| <= 12 && checks == Smaller(3, charged + Spent(item, Made(replies, round)))
    ensures var all := Made(replies, round + 1); var n := Allowed(|Made(replies, round)|, uses);
            && |all| == |Made(replies, round)| + |uses|
            && (Finish in all[..|Made(replies, round)| + n] <==> Finish in Made(replies, round) || Finish in uses[..n])
            && (n == |uses| ==> all[..|Made(replies, round)| + n] == all && uses[..n] == uses)
            && (n == |uses| ==> Smaller(3, checks + Spent(item, uses[..n])) == Smaller(3, charged + Spent(item, all)))
  {
    hide Spent;
    var made := Made(replies, round);
    var n := Allowed(|made|, uses);
    assert Made(replies, round + 1) == made + uses;
    assert (made + uses)[..|made| + n] == made + uses[..n];
    if n == |uses| {
      assert uses[..n] == uses;
      SpentConcat(item, made, uses);
    }
  }

  lemma NextIsNumber(w: Work, item: Item)
    requires Sound(w, item)
    ensures w.next == |w.rows| + 1
  {
  }

  // What the rest of a turn adds, from round `round` on.
  ghost predicate RestIs(w: Work, item: Item, replies: seq<Reply>, round: nat, charged: nat, t: Work) {
    && w.asked <= t.asked && |t.asked| <= 5 && w.rows <= t.rows
    && (if round < 5 then |t.asked| > round && t.asked[round] == w.rows else Apologised(t, |w.rows|))
    && (forall r :: round <= r < |t.asked| ==>
          RoundIs(t, item, replies, r, Smaller(3, charged + Spent(item, Made(replies, r)))))
    && AllTold(t, Made(replies, |t.asked|))
  }

  lemma {:induction false} RoundsAre(w: Work, item: Item, replies: seq<Reply>, round: nat, charged: nat)
    requires round <= 5 && OnTrack(w, item, replies, round, charged)
    ensures RestIs(w, item, replies, round, charged, Rounds(w, item, replies, round))
    decreases 5 - round
  {
    assert w.status == Going;
    if round == 5 {
      CappedIs(w, item, replies, charged);
    } else {
      var reply := ReplyAt(replies, round);
      var w1 := Round(w, item, reply);
      if reply.Uses? {
        RoundOfUses(w, item, replies, round, charged);
        var uses := [reply.first] + reply.others;
        hide Round, OnTrack, Made, RestIs;
        if Allowed(w.calls, uses) == |uses| {
          StillGoing(w1, item, replies, round + 1, charged);
          RoundsAre(w1, item, replies, round + 1, charged);
          RoundThenRest(w, item, replies, round, charged, w1, Rounds(w1, item, replies, round + 1));
        } else {
          CutOffIs(w, item, replies, round, charged, w1);
        }
      } else {
        LastWords(w, item, replies, round, charged);
      }
    }
  }

  lemma StillGoing(w: Work, item: Item, replies: seq<Reply>, round: nat, charged: nat)
    requires OnTrack(w, item, replies, round, charged)
    ensures w.status == Going
  {
  }

  lemma CappedIs(w: Work, item: Item, replies: seq<Reply>, charged: nat)
    requires OnTrack(w, item, replies, 5, charged)
    ensures RestIs(w, item, replies, 5, charged, Cap(w))
  {
    NextIsNumber(w, item);
    hide Sound, Spent, RoundIs;
    assert Made(replies, 5)[..w.calls] == Made(replies, 5);
    assert Cap(w).rows[..|w.rows|] == w.rows;
  }

  lemma LastWords(w: Work, item: Item, replies: seq<Reply>, round: nat, charged: nat)
    requires OnTrack(w, item, replies, round, charged) && round < 5 && !ReplyAt(replies, round).Uses?
    ensures var t := Round(w, item, ReplyAt(replies, round));
            RestIs(w, item, replies, round, charged, t) && t.status != Going
  {
    var t := Round(w, item, ReplyAt(replies, round));
    LastRound(w, item, replies, round, charged);
    LastTally(w, item, replies, round, charged);
    hide Sound, Spent, RoundIs, Made, AllTold, Round;
    assert |t.asked| == round + 1;
  }

  lemma LastRound(w: Work, item: Item, replies: seq<Reply>, round: nat, charged: nat)
    requires OnTrack(w, item, replies, round, charged) && round < 5 && !ReplyAt(replies, round).Uses?
    ensures var t := Round(w, item, ReplyAt(replies, round));
            && t.asked == w.asked + [w.rows] && t.status != Going && w.rows <= t.rows
            && RoundIs(t, item, replies, round, w.context.checks)
  {
    NextIsNumber(w, item);
    hide Sound, Spent, Answers, Made;
    assert Round(w, item, ReplyAt(replies, round)).asked[round] == w.rows;
  }

  lemma LastTally(w: Work, item: Item, replies: seq<Reply>, round: nat, charged: nat)
    requires OnTrack(w, item, replies, round, charged) && !ReplyAt(replies, round).Uses?
    ensures AllTold(Round(w, item, ReplyAt(replies, round)), Made(replies, round + 1))
  {
    hide Sound, Spent;
    var made := Made(replies, round + 1);
    assert made == Made(replies, round) == made[..w.calls];
  }

  lemma CutOffIs(w: Work, item: Item, replies: seq<Reply>, round: nat, charged: nat, t: Work)
    requires OnTrack(w, item, replies, round, charged) && round < 5 && ReplyAt(replies, round).Uses?
    requires t.asked == w.asked + [w.rows] && AllTold(t, Made(replies, round + 1))
    requires var reply := ReplyAt(replies, round); var uses := [reply.first] + reply.others;
             var n := Allowed(w.calls, uses);
             n < |uses| && Spoke(t, w.rows, item, uses[..n], w.context.checks) && Apologised(t, |w.rows| + 1 + n)
    ensures RestIs(w, item, replies, round, charged, t) && t.status != Going
  {
    hide Sound, Spent, AnswerAll, Plain, AllTold;
    assert RoundIs(t, item, replies, round, w.context.checks);
  }

  // A round that is followed by another keeps what it added, whatever is added after it.
  lemma RoundThenRest(w: Work, item: Item, replies: seq<Reply>, round: nat, charged: nat, w1: Work, t: Work)
    requires OnTrack(w, item, replies, round, charged) && round < 5 && ReplyAt(replies, round).Uses?
    requires w1.asked == w.asked + [w.rows] && RestIs(w1, item, replies, round + 1, charged, t)
    requires var reply := ReplyAt(replies, round); var uses := [reply.first] + reply.others;
             var n := Allowed(w.calls, uses);
             n == |uses| && Spoke(w1, w.rows, item, uses[..n], w.context.checks) && |w1.rows| == |w.rows| + 1 + n
    ensures RestIs(w, item, replies, round, charged, t)
  {
    RoundBeforeRest(w, item, replies, round, charged, w1, t);
    hide Sound, Spent, AllTold, RoundIs, Made;
    assert t.asked[round] == w1.asked[round] == w.rows;
    forall r | round <= r < |t.asked|
      ensures RoundIs(t, item, replies, r, Smaller(3, charged + Spent(item, Made(replies, r))))
    {
      assert r == round || round + 1 <= r;
    }
  }

  lemma RoundBeforeRest(w: Work, item: Item, replies: seq<Reply>, round: nat, charged: nat, w1: Work, t: Work)
    requires OnTrack(w, item, replies, round, charged) && round < 5 && ReplyAt(replies, round).Uses?
    requires w1.asked == w.asked + [w.rows] && RestIs(w1, item, replies, round + 1, charged, t)
    requires var reply := ReplyAt(replies, round); var uses := [reply.first] + reply.others;
             var n := Allowed(w.calls, uses);
             n == |uses| && Spoke(w1, w.rows, item, uses[..n], w.context.checks) && |w1.rows| == |w.rows| + 1 + n
    ensures w.rows <= t.rows && round < |t.asked| && RoundIs(t, item, replies, round, w.context.checks)
  {
    var reply := ReplyAt(replies, round);
    var uses := [reply.first] + reply.others;
    SpokeStays(w1, t, w.rows, item, uses[..|uses|], w.context.checks);
    SpokeOn(w1, w.rows, item, uses[..|uses|], w.context.checks);
    hide Sound, Spent, Spoke, Plain, AllTold, AnswerAll;
    assert t.rows[..|w1.rows|] == w1.rows;
    assert t.asked[round] == w1.asked[round] == w.rows;
  }

  lemma SpokeOn(w: Work, at: seq<Turn>, item: Item, uses: seq<Use>, spent: nat)
    requires Spoke(w, at, item, uses, spent)
    ensures at < w.rows
  {
  }

  lemma SpokeStays(w: Work, t: Work, at: seq<Turn>, item: Item, uses: seq<Use>, spent: nat)
    requires Spoke(w, at, item, uses, spent) && w.rows <= t.rows
    ensures Spoke(t, at, item, uses, spent)
  {
    hide Plain;
    AnswerAllPrefix(w.rows, t.rows, |at| + 1, item, uses, spent);
    assert t.rows[|at|] == w.rows[|at|];
  }

  // A turn, whatever the model does: the candidate's message, and then round by round what it
  // said and the answer to each call it made, up to twelve; and the round is over for the item
  // exactly when one of those calls ended it.
  lemma TurnIsScript(turns: seq<Asked>, item: Item, replies: seq<Reply>)
    ensures var s := Interview(turns); var t := TakeTurn(s.rows, s.evidence, item, replies);
            var charged, made := Calls(s.rows, item.id, CheckAnswer), Made(replies, |t.asked|);
            && 1 <= |t.asked| <= 5 && t.asked[0] == s.rows + [Turn(|s.rows| + 1, Candidate, None)]
            && t.asked[0] <= t.rows
            && (forall r :: 0 <= r < |t.asked| ==>
                  RoundIs(t, item, replies, r, Smaller(3, charged + Spent(item, Made(replies, r)))))
            && t.calls == Smaller(12, |made|) && (t.context.ended <==> Finish in made[..t.calls])
  {
    var s := Interview(turns);
    SessionIsKept(turns);
    var w := Begin(s.rows, s.evidence, item);
    BeginIsOnTrack(s, item, replies);
    hide OnTrack, Rounds, RoundIs, Spent, Made, Calls;
    RoundsAre(w, item, replies, 0, Calls(s.rows, item.id, CheckAnswer));
  }

  lemma BeginIsOnTrack(s: Session, item: Item, replies: seq<Reply>)
    requires Kept(s)
    ensures var w := Begin(s.rows, s.evidence, item);
            && OnTrack(w, item, replies, 0, Calls(s.rows, item.id, CheckAnswer))
            && w.rows == s.rows + [Turn(|s.rows| + 1, Candidate, None)] && w.asked == []
  {
    BeginIsSound(s.rows, s.evidence, item);
    assert Rationed(s.rows, s.evidence, item.id);
    CallsSnoc(s.rows, Turn(|s.rows| + 1, Candidate, None), item.id, CheckAnswer);
    hide Sound, Rationed, Calls;
    assert Made(replies, 0) == [] && Spent(item, []) == 0;
  }

  // ---------------------------------------------------------------- the transcript as messages

  // A message is the run of rows it was put together from; tool results speak for the user.
  datatype Message = Message(fromUser: bool, parts: seq<Turn>)

  predicate IsUser(row: Turn) {
    !row.role.Interviewer?
  }

  function Extended(messages: seq<Message>, row: Turn): seq<Message> {
    var n := |messages|;
    if n > 0 && messages[n - 1].fromUser == IsUser(row) then
      messages[n - 1 := Message(IsUser(row), messages[n - 1].parts + [row])]
    else
      messages + [Message(IsUser(row), [row])]
  }

  function Messages(rows: seq<Turn>): seq<Message> {
    if rows == [] then [] else Extended(Messages(rows[..|rows| - 1]), rows[|rows| - 1])
  }

  method AsMessages(rows: seq<Turn>) returns (messages: seq<Message>)
    ensures messages == Messages(rows)
  {
    messages := [];
    var i := 0;
    while i < |rows|
      invariant 0 <= i <= |rows| && messages == Messages(rows[..i])
    {
      var n, row := |messages|, rows[i];
      if n > 0 && messages[n - 1].fromUser == IsUser(row) {
        messages := messages[n - 1 := Message(IsUser(row), messages[n - 1].parts + [row])];
      } else {
        messages := messages + [Message(IsUser(row), [row])];
      }
      assert rows[..i + 1][..i] == rows[..i];
      i := i + 1;
    }
    assert rows[..i] == rows;
  }

  function Flatten(messages: seq<Message>): seq<Turn> {
    if messages == [] then [] else Flatten(messages[..|messages| - 1]) + messages[|messages| - 1].parts
  }

  ghost predicate OneSided(m: Message) {
    m.parts != [] && forall row :: row in m.parts ==> IsUser(row) == m.fromUser
  }

  ghost predicate Alternates(messages: seq<Message>) {
    && (forall k :: 0 <= k < |messages| ==> OneSided(messages[k]))
    && (forall k :: 0 < k < |messages| ==> messages[k].fromUser != messages[k - 1].fromUser)
  }

  lemma ExtendedAlternates(messages: seq<Message>, row: Turn)
    requires Alternates(messages)
    ensures Alternates(Extended(messages, row))
  {
    var after, n := Extended(messages, row), |messages|;
    assert forall k :: 0 <= k < n ==> after[k].fromUser == messages[k].fromUser;
    if |after| == n {
      assert OneSided(messages[n - 1]);
      assert OneSided(after[n - 1]);
    } else {
      assert OneSided(after[n]);
    }
  }

  lemma ExtendedFlattens(messages: seq<Message>, row: Turn)
    ensures Flatten(Extended(messages, row)) == Flatten(messages) + [row]
  {
    var after, n := Extended(messages, row), |messages|;
    if |after| == n {
      assert after[..n - 1] == messages[..n - 1];
    } else {
      assert after[..n] == messages;
    }
  }

  lemma {:induction false} SidesOfEnds(rows: seq<Turn>)
    requires rows != []
    ensures Messages(rows) != [] && Messages(rows)[0].fromUser == IsUser(rows[0])
    ensures Messages(rows)[|Messages(rows)| - 1].fromUser == IsUser(rows[|rows| - 1])
  {
    if |rows| > 1 {
      SidesOfEnds(rows[..|rows| - 1]);
    }
  }

  // No row is lost, moved or given to the other side, and the two sides take turns.
  lemma {:induction false} MessagesAlternate(rows: seq<Turn>)
    ensures Alternates(Messages(rows)) && Flatten(Messages(rows)) == rows
  {
    if rows != [] {
      var front, row := rows[..|rows| - 1], rows[|rows| - 1];
      MessagesAlternate(front);
      ExtendedAlternates(Messages(front), row);
      ExtendedFlattens(Messages(front), row);
    }
  }

  // Each time the model is called, in any session, the messages start and end with the user.
  lemma PromptsAlternate(turns: seq<Asked>, item: Item, replies: seq<Reply>, k: nat)
    requires var s := Interview(turns); k < |TakeTurn(s.rows, s.evidence, item, replies).asked|
    ensures var s := Interview(turns);
            var messages := Messages(TakeTurn(s.rows, s.evidence, item, replies).asked[k]);
            && Alternates(messages) && messages != []
            && messages[0].fromUser && messages[|messages| - 1].fromUser
  {
    var s := Interview(turns);
    SessionIsKept(turns);
    TurnIsBounded(s, item, replies);
    MessagesAlternate(TakeTurn(s.rows, s.evidence, item, replies).asked[k]);
    SidesOfEnds(TakeTurn(s.rows, s.evidence, item, replies).asked[k]);
  }

  // ---------------------------------------------------------------- the loop itself

  class Interviewer {
    var rows: seq<Turn>
    var evidence: seq<Id>
    // The authoritative messages published so far.
    var published: nat

    constructor ()
      ensures rows == [] && evidence == [] && published == 0
    {
      rows, evidence, published := [], [], 0;
    }

    method Write(number: nat, role: Role, record: Option<Record>)
      modifies this`rows
      ensures rows == old(rows) + [Turn(number, role, record)]
    {
      rows := rows + [Turn(number, role, record)];
    }

    method AnswerUse(item: Item, use: Use, next: nat, context: Context, ghost w: Work) returns (context': Context)
      requires w == w.(rows := rows, evidence := evidence, next := next, context := context)
      modifies this`rows, this`evidence
      ensures DoUse(w, item, use) ==
              w.(rows := rows, evidence := evidence, next := next + 1, context := context', calls := w.calls + 1)
    {
      var out := Dispatch(item, use, context);
      context' := out.context;
      if use.Observe? && !out.isError {
        evidence := evidence + [item.id];
      }
      Write(next, ToolResult, Some(Record(ToolOf(use), item.id, out.isError, out.level)));
    }

    // The tool calls of one reply, up to the cap.
    method AnswerUses(item: Item, uses: seq<Use>, next: nat, context: Context, calls: nat, ghost w: Work)
      returns (next': nat, context': Context, calls': nat, truncated: bool)
      requires w == w.(rows := rows, evidence := evidence, next := next, context := context, calls := calls)
      modifies this`rows, this`evidence
      ensures DoUses(w, item, uses) ==
              (w.(rows := rows, evidence := evidence, next := next', context := context', calls := calls'), truncated)
    {
      next', context', calls', truncated := next, context, calls, false;
      var i := 0;
      ghost var w' := w;
      while i < |uses|
        invariant 0 <= i <= |uses|
        invariant w' == w.(rows := rows, evidence := evidence, next := next', context := context', calls := calls')
        invariant DoUses(w, item, uses) == DoUses(w', item, uses[i..])
      {
        if calls' >= MAX_CALLS {
          truncated := true;
          return;
        }
        context' := AnswerUse(item, uses[i], next', context', w');
        assert uses[i..][1..] == uses[i + 1..];
        w' := DoUse(w', item, uses[i]);
        next', calls', i := next' + 1, calls' + 1, i + 1;
      }
    }

    method RunTurn(item: Item, replies: seq<Reply>) returns (finished: bool)
      modifies this
      ensures var w := TakeTurn(old(rows), old(evidence), item, replies);
              && rows == w.rows && evidence == w.evidence && finished == w.status.Finished?
              && published == old(published) + w.done
    {
      hide Dispatch, DoUses, HintsRevealed, Calls;
      ghost var end := TakeTurn(rows, evidence, item, replies);
      var next := NextNumber(rows);
      Write(next, Candidate, None);
      next := next + 1;
      var context := Context(HintsRevealed(rows, item.id), Calls(rows, item.id, CheckAnswer),
                             Calls(rows, item.id, RecordObservation), false);
      var calls, truncated, round := 0, false, 0;
      ghost var asked: seq<seq<Turn>> := [];
      while round < MAX_ROUNDS && !truncated
        invariant round <= MAX_ROUNDS && published == old(published)
        invariant var w := Work(rows, evidence, next, context, calls, asked, 0, Going);
                  end == if truncated then Cap(w) else Rounds(w, item, replies, round)
      {
        asked := asked + [rows];
        var reply := ReplyAt(replies, round);
        if reply.Failure? {
          return false;
        }
        Write(next, Interviewer, None);
        next := next + 1;
        if reply.Text? {
          published := published + 1;
          return true;
        }
        next, context, calls, truncated :=
          AnswerUses(item, [reply.first] + reply.others, next, context, calls,
                     Work(rows, evidence, next, context, calls, asked, 0, Going));
        round := round + 1;
      }
      Write(next, Interviewer, None);
      published := published + 1;
      return true;
    }
  }
}
