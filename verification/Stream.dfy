/**
  One client of a session's event stream: the server's polling generator, the connection it
  writes to, and the reducer that folds what arrives. Publishing, polling, sending and
  receiving interleave freely. The channel is the one its log leaves behind: it is neither
  evicted nor forgotten.
*/
module Stream {
  import opened Base
  import opened EventBus

  // The two control frames carry no `seq` and no id of their own.
  datatype Frame =
    | Published(event: Event)
    | StreamGap(requestedAfter: nat, oldestAvailable: nat)
    | StreamTimeout(after: nat)

  datatype Source = Server | Client

  datatype Gap = Gap(after: nat, resumedAt: nat, source: Source)

  datatype Entry =
    | Candidate(id: Id, text: string)
    | Agent(id: Id, text: string)
    | Tool(id: Id, tool: Id, failed: Option<bool>)

  // `lastSeq` is `None` where the number is NaN.
  datatype View = View(
    state: Option<Id>, item: Option<Id>, entries: seq<Entry>, streaming: string,
    hints: seq<(Id, nat)>, observations: seq<Id>, gradings: map<Id, Option<bool>>,
    budgetWarning: Option<Id>, error: Option<Id>, gaps: seq<Gap>, lastSeq: Option<nat>, finished: bool)

  function Initial(lastSeq: nat): View {
    View(None, None, [], "", [], [], map[], None, None, [], Some(lastSeq), false)
  }

  // ---------------------------------------------------------------- the reducer

  function SeqOf(f: Frame): Option<nat> {
    if f.Published? then Some(f.event.number) else None
  }

  // `Math.max`, where anything that is not a number makes the result NaN.
  function Later(a: Option<nat>, b: Option<nat>): Option<nat> {
    if a.None? || b.None? then None
    else if a.value < b.value then b
    else a
  }

  // A comparison with NaN is false, so it notices no jump.
  function NoteJump(gaps: seq<Gap>, lastSeq: Option<nat>, number: Option<nat>): seq<Gap> {
    if lastSeq.Some? && number.Some? && lastSeq.value > 0 && number.value > lastSeq.value + 1 then
      gaps + [Gap(lastSeq.value, number.value, Client)]
    else
      gaps
  }

  function Answered(entries: seq<Entry>, use: Id, isError: bool): seq<Entry> {
    seq(|entries|, i requires 0 <= i < |entries| =>
      if entries[i].Tool? && entries[i].id == use then entries[i].(failed := Some(isError)) else entries[i])
  }

  function Fold(v: View, payload: Payload): View {
    match payload
    case SessionState(state, terminal) => v.(state := Some(state), finished := terminal)
    case ItemPresented(item) => v.(item := Some(item), streaming := "")
    case MessageDelta(text) => v.(streaming := v.streaming + text)
    case MessageDone(message, text) => v.(streaming := "", entries := v.entries + [Agent(message, text)])
    case ToolUse(use, tool) => v.(entries := v.entries + [Tool(use, tool, None)])
    case ToolResult(use, isError) => v.(entries := Answered(v.entries, use, isError))
    case HintRevealed(item, level) => v.(hints := v.hints + [(item, level)])
    case ObservationRecorded(concept) => v.(observations := v.observations + [concept])
    case GradingStarted(item) => v.(gradings := v.gradings[item := None])
    case GradingResult(item, graded) => v.(gradings := v.gradings[item := Some(graded)])
    case BudgetWarning(scope) => v.(budgetWarning := Some(scope))
    case SessionError(code) => v.(error := Some(code))
  }

  function Reduce(v: View, f: Frame): View {
    var next := v.(gaps := NoteJump(v.gaps, v.lastSeq, SeqOf(f)), lastSeq := Later(v.lastSeq, SeqOf(f)));
    match f
    case Published(event) => Fold(next, event.payload)
    case StreamGap(requested, oldest) => next.(gaps := next.gaps + [Gap(requested, oldest, Server)])
    case StreamTimeout(_) => next
  }

  // The candidate's own words are the one entry no event brings.
  function Say(v: View, id: Id, text: string): View {
    v.(entries := v.entries + [Candidate(id, text)])
  }

  lemma FoldKeepsAccount(v: View, payload: Payload)
    ensures Fold(v, payload).gaps == v.gaps && Fold(v, payload).lastSeq == v.lastSeq
  {
  }

  lemma ReduceAccounts(v: View, event: Event)
    ensures Reduce(v, Published(event)).gaps == NoteJump(v.gaps, v.lastSeq, Some(event.number))
    ensures Reduce(v, Published(event)).lastSeq == Later(v.lastSeq, Some(event.number))
  {
    var noted := v.(gaps := NoteJump(v.gaps, v.lastSeq, Some(event.number)),
                    lastSeq := Later(v.lastSeq, Some(event.number)));
    FoldKeepsAccount(noted, event.payload);
  }

  function ReduceAll(v: View, frames: seq<Frame>): View
    decreases |frames|
  {
    if frames == [] then v else ReduceAll(Reduce(v, frames[0]), frames[1..])
  }

  // ---------------------------------------------------------------- deltas are a convenience

  function WithoutDeltas(frames: seq<Frame>): seq<Frame> {
    if frames == [] then []
    else (if IsDelta(frames[0]) then [] else [frames[0]]) + WithoutDeltas(frames[1..])
  }

  predicate IsDelta(f: Frame) {
    f.Published? && f.event.payload.MessageDelta?
  }

  // Everything but the text being streamed and the account of what was lost.
  function Settled(v: View): View {
    v.(streaming := "", gaps := [], lastSeq := None)
  }

  lemma DeltaSettlesNothing(v: View, f: Frame)
    requires IsDelta(f)
    ensures Settled(Reduce(v, f)) == Settled(v)
  {
  }

  lemma SameFrameSettlesAlike(v: View, w: View, f: Frame)
    requires Settled(v) == Settled(w)
    ensures Settled(Reduce(v, f)) == Settled(Reduce(w, f))
  {
    if f.Published? {
      match f.event.payload
      case ToolResult(use, isError) => assert v.entries == w.entries;
      case _ =>
    }
  }

  lemma {:induction false} DeltasSettleNothing(v: View, w: View, frames: seq<Frame>)
    requires Settled(v) == Settled(w)
    ensures Settled(ReduceAll(v, frames)) == Settled(ReduceAll(w, WithoutDeltas(frames)))
    decreases |frames|
  {
    if frames != [] {
      if IsDelta(frames[0]) {
        DeltaSettlesNothing(v, frames[0]);
        DeltasSettleNothing(Reduce(v, frames[0]), w, frames[1..]);
        assert WithoutDeltas(frames) == WithoutDeltas(frames[1..]);
      } else {
        var rest := WithoutDeltas(frames[1..]);
        assert ([frames[0]] + rest)[1..] == rest;
        SameFrameSettlesAlike(v, w, frames[0]);
        DeltasSettleNothing(Reduce(v, frames[0]), Reduce(w, frames[0]), frames[1..]);
      }
    }
  }

  // Two clients that got the same events up to deltas, however many of those each one lost,
  // settle on the same session: the finished message replaces what was streamed.
  lemma DroppedDeltasLeaveNoTrace(v: View, frames: seq<Frame>, others: seq<Frame>, done: Event)
    requires WithoutDeltas(frames) == WithoutDeltas(others)
    requires done.payload.MessageDone? || done.payload.ItemPresented?
    ensures var a, b := Reduce(ReduceAll(v, frames), Published(done)), Reduce(ReduceAll(v, others), Published(done));
            Settled(a) == Settled(b) && a.streaming == b.streaming == ""
  {
    DeltasSettleNothing(v, v, frames);
    DeltasSettleNothing(v, v, others);
    SameFrameSettlesAlike(ReduceAll(v, frames), ReduceAll(v, others), Published(done));
  }

  // ---------------------------------------------------------------- what a client shows

  function PayloadsOf(frames: seq<Frame>): seq<Payload> {
    if frames == [] then []
    else
      var last := frames[|frames| - 1];
      PayloadsOf(frames[..|frames| - 1]) + if last.Published? then [last.event.payload] else []
  }

  // The last of what the events are asked for, and all of it in order.
  ghost function Last<T>(events: seq<Payload>, pick: Payload -> Option<T>): Option<T> {
    if events == [] then None
    else if pick(events[|events| - 1]).Some? then pick(events[|events| - 1])
    else Last(events[..|events| - 1], pick)
  }

  ghost function All<T>(events: seq<Payload>, pick: Payload -> Option<T>): seq<T> {
    if events == [] then []
    else
      var last := pick(events[|events| - 1]);
      All(events[..|events| - 1], pick) + if last.Some? then [last.value] else []
  }

  // What became of a tool call, by the results that came after it.
  ghost function ResultOf(later: seq<Payload>, use: Id): Option<bool> {
    Last(later, (p: Payload) => if p.ToolResult? && p.use == use then Some(p.isError) else None)
  }

  ghost function Listed(event: Payload, later: seq<Payload>): seq<Entry> {
    match event
    case MessageDone(message, text) => [Agent(message, text)]
    case ToolUse(use, tool) => [Tool(use, tool, ResultOf(later, use))]
    case _ => []
  }

  // Finished messages and tool calls in the order they began, each call with its last result.
  ghost function Transcript(events: seq<Payload>): seq<Entry> {
    if events == [] then [] else Listed(events[0], events[1..]) + Transcript(events[1..])
  }

  ghost function GradingOf(events: seq<Payload>, item: Id): Option<Option<bool>> {
    Last(events, (p: Payload) => if p.GradingStarted? && p.item == item then Some(None)
                                 else if p.GradingResult? && p.item == item then Some(Some(p.graded)) else None)
  }

  predicate Clears(event: Payload) {
    event.MessageDone? || event.ItemPresented?
  }

  ghost function DeltaOf(event: Payload): Option<string> {
    if event.MessageDelta? then Some(event.text) else None
  }

  ghost function Words(texts: seq<string>): string {
    if texts == [] then "" else Words(texts[..|texts| - 1]) + texts[|texts| - 1]
  }

  // Half a message is what was streamed since the last one was done or a problem presented.
  ghost predicate Streams(streaming: string, events: seq<Payload>) {
    forall k :: GoesOnFrom(events, k) ==> streaming == Words(All(events[k..], DeltaOf))
  }

  ghost predicate ShowsFacts(v: View, events: seq<Payload>) {
    && v.state == Last(events, (p: Payload) => if p.SessionState? then Some(p.state) else None)
    && (v.finished <==>
          Last(events, (p: Payload) => if p.SessionState? then Some(p.terminal) else None) == Some(true))
    && v.item == Last(events, (p: Payload) => if p.ItemPresented? then Some(p.item) else None)
    && v.hints == All(events, (p: Payload) => if p.HintRevealed? then Some((p.item, p.level)) else None)
    && v.observations == All(events, (p: Payload) => if p.ObservationRecorded? then Some(p.concept) else None)
    && v.budgetWarning == Last(events, (p: Payload) => if p.BudgetWarning? then Some(p.scope) else None)
    && v.error == Last(events, (p: Payload) => if p.SessionError? then Some(p.code) else None)
  }

  ghost predicate ShowsGradings(v: View, events: seq<Payload>) {
    forall item :: (if item in v.gradings then Some(v.gradings[item]) else None) == GradingOf(events, item)
  }

  lemma LastSnoc<T>(events: seq<Payload>, p: Payload, pick: Payload -> Option<T>)
    ensures Last(events + [p], pick) == if pick(p).Some? then pick(p) else Last(events, pick)
    ensures All(events + [p], pick) == All(events, pick) + if pick(p).Some? then [pick(p).value] else []
  {
    assert (events + [p])[..|events|] == events;
  }

  lemma FactsFold(v: View, events: seq<Payload>, p: Payload)
    requires ShowsFacts(v, events)
    ensures ShowsFacts(Fold(v, p), events + [p])
  {
    assert (events + [p])[..|events|] == events;
  }

  lemma GradingsFold(v: View, events: seq<Payload>, p: Payload)
    requires ShowsGradings(v, events)
    ensures ShowsGradings(Fold(v, p), events + [p])
  {
    assert (events + [p])[..|events|] == events;
  }

  lemma WordsSnoc(texts: seq<string>, text: string)
    ensures Words(texts + [text]) == Words(texts) + text
  {
    assert (texts + [text])[..|texts|] == texts;
  }

  // The message goes on from `k`: it was cleared there, and not since.
  ghost predicate GoesOnFrom(events: seq<Payload>, k: int) {
    && 0 <= k <= |events| && (k > 0 ==> Clears(events[k - 1]))
    && forall j :: k <= j < |events| ==> !Clears(events[j])
  }

  lemma GoesOnSnoc(events: seq<Payload>, p: Payload, k: int)
    requires GoesOnFrom(events + [p], k) && k <= |events|
    ensures GoesOnFrom(events, k) && !Clears(p) && (events + [p])[k..] == events[k..] + [p]
  {
    var all := events + [p];
    assert all[|events|] == p;
    assert k > 0 ==> all[k - 1] == events[k - 1];
    assert forall j :: k <= j < |events| ==> all[j] == events[j] && !Clears(all[j]);
  }

  lemma StreamsFold(v: View, events: seq<Payload>, p: Payload)
    requires Streams(v.streaming, events)
    ensures Streams(Fold(v, p).streaming, events + [p])
  {
    var all := events + [p];
    forall k | GoesOnFrom(all, k) ensures Fold(v, p).streaming == Words(All(all[k..], DeltaOf)) {
      if k == |all| {
        assert all[k..] == [] && all[k - 1] == p;
        assert All(all[k..], DeltaOf) == [];
      } else {
        GoesOnSnoc(events, p, k);
        var texts := All(events[k..], DeltaOf);
        assert v.streaming == Words(texts);
        LastSnoc(events[k..], p, DeltaOf);
        hide All, Words, GoesOnFrom, Streams;
        if p.MessageDelta? {
          WordsSnoc(texts, p.text);
        } else {
          assert texts + [] == texts;
        }
      }
    }
  }

  // How a result that comes in changes the entries listed so far.
  ghost predicate Told(before: seq<Entry>, after: seq<Entry>, p: Payload) {
    && |after| == |before|
    && forall i :: 0 <= i < |before| ==>
         after[i] == if p.ToolResult? && before[i].Tool? && before[i].id == p.use
                     then before[i].(failed := Some(p.isError)) else before[i]
  }

  lemma ToldSplits(mine: seq<Entry>, rest: seq<Entry>, told: seq<Entry>, p: Payload)
    requires Told(mine + rest, told, p)
    ensures Told(mine, told[..|mine|], p) && Told(rest, told[|mine|..], p)
    ensures told == told[..|mine|] + told[|mine|..]
  {
    forall i | 0 <= i < |mine|
      ensures told[i] == if p.ToolResult? && mine[i].Tool? && mine[i].id == p.use
                         then mine[i].(failed := Some(p.isError)) else mine[i]
    {
      assert (mine + rest)[i] == mine[i];
    }
    forall i | 0 <= i < |rest|
      ensures told[|mine| + i] == if p.ToolResult? && rest[i].Tool? && rest[i].id == p.use
                                  then rest[i].(failed := Some(p.isError)) else rest[i]
    {
      assert (mine + rest)[|mine| + i] == rest[i];
    }
  }

  lemma TranscriptCons(e: Payload, rest: seq<Payload>)
    ensures Transcript([e] + rest) == Listed(e, rest) + Transcript(rest)
  {
    assert ([e] + rest)[1..] == rest;
  }

  lemma {:induction false} TranscriptSnoc(events: seq<Payload>, p: Payload, told: seq<Entry>)
    requires Told(Transcript(events), told, p)
    ensures Transcript(events + [p]) == told + Listed(p, [])
    decreases |events|
  {
    if events == [] {
      TranscriptCons(p, []);
      assert [] + [p] == [p] + [] && told == [];
    } else {
      hide *;
      var e, rest := events[0], events[1..];
      var mine := Listed(e, rest);
      assert events == [e] + rest && events + [p] == [e] + (rest + [p]);
      TranscriptCons(e, rest);
      TranscriptCons(e, rest + [p]);
      ToldSplits(mine, Transcript(rest), told, p);
      TranscriptSnoc(rest, p, told[|mine|..]);
      ListedIsTold(e, rest, p, told[..|mine|]);
      Regroup(told[..|mine|], told[|mine|..], Listed(p, []));
    }
  }

  lemma Regroup(a: seq<Entry>, b: seq<Entry>, c: seq<Entry>)
    ensures a + (b + c) == (a + b) + c
  {
  }

  lemma ListedIsTold(e: Payload, rest: seq<Payload>, p: Payload, told: seq<Entry>)
    requires Told(Listed(e, rest), told, p)
    ensures Listed(e, rest + [p]) == told
  {
    if e.ToolUse? {
      var pick := (q: Payload) => if q.ToolResult? && q.use == e.use then Some(q.isError) else None;
      LastSnoc(rest, p, pick);
      assert ResultOf(rest + [p], e.use) == if p.ToolResult? && p.use == e.use then Some(p.isError)
                                            else ResultOf(rest, e.use);
    }
  }

  // What came from the server, and what the candidate typed.
  function Heard(entries: seq<Entry>): seq<Entry> {
    if entries == [] then []
    else Heard(entries[..|entries| - 1]) + if entries[|entries| - 1].Candidate? then [] else [entries[|entries| - 1]]
  }

  function Typed(entries: seq<Entry>): seq<Entry> {
    if entries == [] then []
    else Typed(entries[..|entries| - 1]) + if entries[|entries| - 1].Candidate? then [entries[|entries| - 1]] else []
  }

  lemma HeardSnoc(entries: seq<Entry>, e: Entry)
    ensures Heard(entries + [e]) == Heard(entries) + if e.Candidate? then [] else [e]
    ensures Typed(entries + [e]) == Typed(entries) + if e.Candidate? then [e] else []
  {
    assert (entries + [e])[..|entries|] == entries;
  }

  lemma {:induction false} HeardIsTold(entries: seq<Entry>, use: Id, isError: bool)
    ensures Told(Heard(entries), Heard(Answered(entries, use, isError)), ToolResult(use, isError))
    ensures Typed(Answered(entries, use, isError)) == Typed(entries)
  {
    if entries != [] {
      var front := entries[..|entries| - 1];
      HeardIsTold(front, use, isError);
      assert Answered(entries, use, isError)[..|front|] == Answered(front, use, isError);
    }
  }

  lemma TranscriptFolds(v: View, events: seq<Payload>, p: Payload)
    requires Heard(v.entries) == Transcript(events)
    ensures Heard(Fold(v, p).entries) == Transcript(events + [p]) && Typed(Fold(v, p).entries) == Typed(v.entries)
  {
    if p.ToolResult? {
      HeardIsTold(v.entries, p.use, p.isError);
      TranscriptSnoc(events, p, Heard(Answered(v.entries, p.use, p.isError)));
    } else {
      TranscriptSnoc(events, p, Heard(v.entries));
      if p.MessageDone? {
        HeardSnoc(v.entries, Agent(p.message, p.text));
      } else if p.ToolUse? {
        HeardSnoc(v.entries, Tool(p.use, p.tool, None));
      }
    }
  }

  // What a client shows that has received these events.
  ghost predicate Shows(v: View, events: seq<Payload>) {
    && ShowsFacts(v, events) && ShowsGradings(v, events) && Streams(v.streaming, events)
    && Heard(v.entries) == Transcript(events)
  }

  lemma ShowsFold(v: View, events: seq<Payload>, p: Payload)
    requires Shows(v, events)
    ensures Shows(Fold(v, p), events + [p]) && Typed(Fold(v, p).entries) == Typed(v.entries)
  {
    FactsFold(v, events, p);
    GradingsFold(v, events, p);
    StreamsFold(v, events, p);
    TranscriptFolds(v, events, p);
  }

  lemma ShowsSame(v: View, w: View, events: seq<Payload>)
    requires Shows(v, events) && w == v.(gaps := w.gaps, lastSeq := w.lastSeq)
    ensures Shows(w, events)
  {
  }

  lemma NothingShown(lastSeq: nat)
    ensures Shows(Initial(lastSeq), []) && Typed(Initial(lastSeq).entries) == []
  {
  }

  lemma ReduceShows(v: View, events: seq<Payload>, f: Frame)
    requires Shows(v, events)
    ensures Shows(Reduce(v, f), if f.Published? then events + [f.event.payload] else events)
    ensures Typed(Reduce(v, f).entries) == Typed(v.entries)
  {
    var noted := v.(gaps := NoteJump(v.gaps, v.lastSeq, SeqOf(f)), lastSeq := Later(v.lastSeq, SeqOf(f)));
    ShowsSame(v, noted, events);
    if f.Published? {
      ShowsFold(noted, events, f.event.payload);
    } else {
      ShowsSame(v, Reduce(v, f), events);
    }
  }

  lemma SayShows(v: View, events: seq<Payload>, id: Id, text: string)
    requires Shows(v, events)
    ensures Shows(Say(v, id, text), events)
    ensures Typed(Say(v, id, text).entries) == Typed(v.entries) + [Candidate(id, text)]
  {
    HeardSnoc(v.entries, Candidate(id, text));
  }

  // ---------------------------------------------------------------- what a client can account for

  function LastNumber(events: seq<Event>, start: nat): nat {
    if events == [] then start else events[|events| - 1].number
  }

  // The number from which on a jump is noticed: a client that starts at 0 takes the first
  // number it sees on trust.
  function AccountStart(delivered: seq<Event>, start: nat): nat {
    if start > 0 || delivered == [] || delivered[0].number == 0 then start else delivered[0].number - 1
  }

  function Lost(gaps: seq<Gap>): int {
    if gaps == [] then 0
    else Lost(gaps[..|gaps| - 1]) + gaps[|gaps| - 1].resumedAt - gaps[|gaps| - 1].after - 1
  }

  // How many recorded gaps a number lies strictly inside.
  function Covers(gaps: seq<Gap>, n: nat): nat {
    if gaps == [] then 0
    else Covers(gaps[..|gaps| - 1], n) + if gaps[|gaps| - 1].after < n < gaps[|gaps| - 1].resumedAt then 1 else 0
  }

  ghost predicate HasNumber(events: seq<Event>, n: nat) {
    exists k :: 0 <= k < |events| && events[k].number == n
  }

  ghost predicate Missing(delivered: seq<Event>, start: nat, last: nat, n: nat) {
    AccountStart(delivered, start) < n <= last && !HasNumber(delivered, n)
  }

  ghost predicate CoversMissing(delivered: seq<Event>, start: nat, gaps: seq<Gap>, last: nat) {
    forall n: nat :: Covers(gaps, n) == if Missing(delivered, start, last, n) then 1 else 0
  }

  ghost predicate Rising(events: seq<Event>, floor: nat) {
    && (forall k :: 0 <= k < |events| ==> floor < events[k].number)
    && (forall j, k :: 0 <= j < k < |events| ==> events[j].number < events[k].number)
  }

  // The gaps account for every number since `AccountStart`: each is delivered or lies in
  // exactly one gap.
  ghost predicate Accounted(delivered: seq<Event>, start: nat, gaps: seq<Gap>, last: nat) {
    && last == LastNumber(delivered, start)
    && Lost(gaps) + |delivered| == last - AccountStart(delivered, start)
    && CoversMissing(delivered, start, gaps, last)
  }

  lemma LostSnoc(gaps: seq<Gap>, gap: Gap)
    ensures Lost(gaps + [gap]) == Lost(gaps) + gap.resumedAt - gap.after - 1
  {
    assert (gaps + [gap])[..|gaps|] == gaps;
  }

  lemma CoversSnoc(gaps: seq<Gap>, gap: Gap, n: nat)
    ensures Covers(gaps + [gap], n) == Covers(gaps, n) + if gap.after < n < gap.resumedAt then 1 else 0
  {
    assert (gaps + [gap])[..|gaps|] == gaps;
  }

  lemma HasNumberSnoc(events: seq<Event>, event: Event, n: nat)
    ensures HasNumber(events + [event], n) <==> HasNumber(events, n) || event.number == n
  {
    var all := events + [event];
    assert all[|events|] == event;
    if HasNumber(events, n) {
      var k :| 0 <= k < |events| && events[k].number == n;
      assert all[k].number == n;
    }
  }

  lemma NoneAhead(delivered: seq<Event>, start: nat, n: nat)
    requires Rising(delivered, start) && n > LastNumber(delivered, start)
    ensures !HasNumber(delivered, n)
  {
  }

  lemma JumpCoversMissing(delivered: seq<Event>, start: nat, gaps: seq<Gap>, event: Event)
    requires Rising(delivered, start) && Accounted(delivered, start, gaps, LastNumber(delivered, start))
    requires event.number > LastNumber(delivered, start)
    ensures CoversMissing(delivered + [event], start,
              NoteJump(gaps, Some(LastNumber(delivered, start)), Some(event.number)), event.number)
  {
    var last := LastNumber(delivered, start);
    var gaps' := NoteJump(gaps, Some(last), Some(event.number));
    forall n: nat ensures Covers(gaps', n) == if Missing(delivered + [event], start, event.number, n) then 1 else 0 {
      HasNumberSnoc(delivered, event, n);
      CoversSnoc(gaps, Gap(last, event.number, Client), n);
      if n > last {
        NoneAhead(delivered, start, n);
      }
    }
  }

  lemma JumpIsAccounted(delivered: seq<Event>, start: nat, gaps: seq<Gap>, event: Event)
    requires Rising(delivered, start) && Accounted(delivered, start, gaps, LastNumber(delivered, start))
    requires event.number > LastNumber(delivered, start)
    ensures Accounted(delivered + [event], start,
              NoteJump(gaps, Some(LastNumber(delivered, start)), Some(event.number)), event.number)
  {
    JumpCoversMissing(delivered, start, gaps, event);
    LostSnoc(gaps, Gap(LastNumber(delivered, start), event.number, Client));
  }

  lemma RisingSnoc(events: seq<Event>, floor: nat, event: Event)
    requires Rising(events, floor) && event.number > LastNumber(events, floor)
    ensures Rising(events + [event], floor) && LastNumber(events + [event], floor) == event.number
  {
  }

  lemma RisingTail(events: seq<Event>, floor: nat)
    requires Rising(events, floor) && events != []
    ensures Rising(events[1..], events[0].number) && floor < events[0].number
    ensures LastNumber(events[1..], events[0].number) == LastNumber(events, floor)
  {
  }

  // ---------------------------------------------------------------- the server's side

  // The header a browser resends, if it is there and a number, and else the query parameter.
  function ResumeFrom(lastEventId: Option<Option<int>>, after: Option<int>): nat {
    match (lastEventId, after)
    case (Some(Some(id)), _) => if id < 0 then 0 else id
    case (_, Some(n)) => if n < 0 then 0 else n
    case _ => 0
  }

  // A browser that reconnects goes on from the number it sends, whatever the URL asks for; a
  // page without one is served from where the URL says, and else from the start.
  lemma ResumesWhere(header: Option<Option<int>>, after: Option<int>)
    ensures forall id: nat :: header == Some(Some(id)) ==> ResumeFrom(header, after) == id
    ensures forall n: nat :: header in {None, Some(None)} && after == Some(n) ==> ResumeFrom(header, after) == n
    ensures forall id :: header == Some(Some(id)) && id < 0 ==> ResumeFrom(header, after) == 0
    ensures header in {None, Some(None)} && (after.None? || after.value < 0) ==> ResumeFrom(header, after) == 0
  {
  }

  // Where a stream opens, and what it says first.
  function OpenAt(c: Channel, resume: nat): (nat, seq<Frame>) {
    if resume > 0 && Oldest(c) > 0 && resume + 1 < Oldest(c) then
      (Oldest(c) - 1, [StreamGap(resume, Oldest(c))])
    else
      (resume, [])
  }

  // A stream that opens with a gap names exactly the numbers the log had and the buffer has
  // not; one that opens without loses some only when the client asks from 0.
  lemma OpenIsHonest(c: Channel, log: seq<Payload>, resume: nat)
    requires Refines(c, log)
    ensures OpenAt(c, resume).1 != [] <==> resume > 0 && |log| - resume > BUFFER_SIZE
    ensures OpenAt(c, resume).1 != [] ==>
              OpenAt(c, resume) == (|log| - BUFFER_SIZE, [StreamGap(resume, |log| - BUFFER_SIZE + 1)])
    ensures Since(c, OpenAt(c, resume).0) == Since(c, resume)
  {
    if log != [] {
      assert c.events[0] == At(log, |log| - |c.events|);
      if OpenAt(c, resume).1 != [] {
        SinceSkipsEvicted(c, log, resume);
        SinceIsLogSuffix(c, log, Oldest(c) - 1);
        BufferIsTail(c, log);
      }
    }
  }

  function Larger(a: nat, b: nat): nat {
    if a < b then b else a
  }

  // How far back a poll reaches: to the cursor, or to where the buffer starts.
  function Reach(size: nat, after: nat): nat {
    Larger(after, size - Smaller(size, BUFFER_SIZE))
  }

  lemma SinceAt(c: Channel, log: seq<Payload>, after: nat)
    requires Refines(c, log)
    ensures |log| <= after ==> Since(c, after) == []
    ensures after < |log| ==> Since(c, after) == Numbered(log)[Reach(|log|, after)..]
  {
    var start := |log| - |c.events|;
    assert log != [] ==> c.events[0] == At(log, start);
    if c.events == [] || after + 1 >= Oldest(c) {
      SinceIsLogSuffix(c, log, after);
    } else {
      SinceSkipsEvicted(c, log, after);
      assert c.events == Numbered(log)[start..];
    }
  }

  lemma TailIsRising(log: seq<Payload>, from: nat, floor: nat)
    requires floor <= from <= |log|
    ensures Rising(Numbered(log)[from..], floor) && InLog(Numbered(log)[from..], log)
  {
    var tail := Numbered(log)[from..];
    forall k | 0 <= k < |tail| ensures tail[k] == At(log, from + k) && tail[k].number == from + k + 1 {
    }
  }

  // What a poll is given: the rest of the log, as much of it as the buffer still has.
  lemma SinceIsRising(c: Channel, log: seq<Payload>, after: nat)
    requires Refines(c, log)
    ensures var events := Since(c, after); Rising(events, after) && InLog(events, log)
    ensures Since(c, after) == [] <==> |log| <= after
    ensures |log| > after ==> LastNumber(Since(c, after), after) == |log|
  {
    SinceAt(c, log, after);
    if after < |log| {
      TailIsRising(log, Reach(|log|, after), after);
    }
  }

  // A poll skips numbers just when more were published than the buffer holds.
  lemma PollSkipsIff(c: Channel, log: seq<Payload>, after: nat)
    requires Refines(c, log) && after < |log|
    ensures Since(c, after) != []
    ensures Since(c, after)[0].number == after + 1 <==> |log| - after <= BUFFER_SIZE
  {
    SinceAt(c, log, after);
    assert Numbered(log)[Reach(|log|, after)] == At(log, Reach(|log|, after));
  }

  ghost predicate InLog(events: seq<Event>, log: seq<Payload>) {
    forall k :: 0 <= k < |events| ==> 1 <= events[k].number <= |log| && events[k] == At(log, events[k].number - 1)
  }

  // ---------------------------------------------------------------- the composed machine

  // `cursor` and `batch` are the generator's, `wire` is written and not yet read, `lastId` is
  // what the browser sends back as `Last-Event-ID`, and `received` all it was ever sent.
  datatype State = State(
    log: seq<Payload>, connected: bool, cursor: nat, batch: seq<Event>, wire: seq<Frame>,
    view: View, delivered: seq<Event>, lastId: nat, received: seq<Frame>)

  datatype Step =
    | Publish(payload: Payload)
    | Poll
    | Send
    | TimeOut
    | Receive
    | Reconnect
    | Said(id: Id, text: string)

  function Connect(s: State): State {
    var (cursor, frames) := OpenAt(ChannelOf(s.log), s.lastId);
    s.(connected := true, cursor := cursor, batch := [], wire := frames)
  }

  // A client whose reducer has folded the events up to `resume` and now connects.
  function Start(log: seq<Payload>, resume: nat): State {
    Connect(State(log, false, resume, [], [], Initial(resume), [], resume, []))
  }

  function ReceiveFrame(s: State, f: Frame): State
    requires s.wire != []
  {
    var s' := s.(wire := s.wire[1..], view := Reduce(s.view, f), received := s.received + [f]);
    if f.Published? then s'.(delivered := s.delivered + [f.event], lastId := f.event.number) else s'
  }

  function SendFirst(s: State): State
    requires s.batch != []
  {
    s.(cursor := s.batch[0].number, batch := s.batch[1..], wire := s.wire + [Published(s.batch[0])])
  }

  // A step that is not enabled changes nothing.
  function Next(s: State, step: Step): State
  {
    match step
    case Publish(payload) => s.(log := s.log + [payload])
    case Poll => if s.connected && s.batch == [] then s.(batch := Since(ChannelOf(s.log), s.cursor)) else s
    case Send => if s.connected && s.batch != [] then SendFirst(s) else s
    case TimeOut =>
      if s.connected && s.batch == [] then s.(connected := false, wire := s.wire + [StreamTimeout(s.cursor)]) else s
    case Receive => if s.wire != [] then ReceiveFrame(s, s.wire[0]) else s
    // What was written but not read is lost, and the browser asks again from `lastId`.
    case Reconnect => Connect(s)
    case Said(id, text) => s.(view := Say(s.view, id, text))
  }

  function Run(s: State, steps: seq<Step>): State {
    if steps == [] then s else Next(Run(s, steps[..|steps| - 1]), steps[|steps| - 1])
  }

  function EventsOf(wire: seq<Frame>): seq<Event> {
    if wire == [] then []
    else EventsOf(wire[..|wire| - 1]) + if wire[|wire| - 1].Published? then [wire[|wire| - 1].event] else []
  }

  predicate NoControl(wire: seq<Frame>) {
    forall f :: f in wire ==> f.Published?
  }

  // What is under way: everything ahead of what was delivered, in the order of the log.
  ghost predicate UnderWay(s: State) {
    && Rising(EventsOf(s.wire), s.lastId) && InLog(EventsOf(s.wire), s.log)
    && LastNumber(EventsOf(s.wire), s.lastId) <= s.cursor
    && Rising(s.batch, s.cursor) && InLog(s.batch, s.log)
  }

  ghost predicate Ordered(s: State, resume: nat) {
    && Rising(s.delivered, resume) && InLog(s.delivered, s.log)
    && s.lastId == LastNumber(s.delivered, resume)
  }

  // As long as no control frame came in, the reducer's account is complete.
  ghost predicate Account(s: State, resume: nat) {
    s.view.lastSeq.Some? ==>
      && s.view.lastSeq == Some(s.lastId)
      && Accounted(s.delivered, resume, s.view.gaps, s.lastId)
      && (NoControl(s.wire) ==> s.cursor == LastNumber(EventsOf(s.wire), s.lastId))
  }

  ghost predicate Inv(s: State, resume: nat) {
    UnderWay(s) && Ordered(s, resume) && Account(s, resume)
  }

  lemma InLogGrows(events: seq<Event>, log: seq<Payload>, payload: Payload)
    requires InLog(events, log)
    ensures InLog(events, log + [payload])
  {
    forall k | 0 <= k < |events| ensures events[k] == At(log + [payload], events[k].number - 1) {
      assert events[k] == At(log, events[k].number - 1);
    }
  }

  lemma {:induction false} EventsOfSnoc(wire: seq<Frame>, f: Frame)
    ensures EventsOf(wire + [f]) == EventsOf(wire) + if f.Published? then [f.event] else []
  {
    assert (wire + [f])[..|wire|] == wire;
  }

  lemma {:induction false} EventsOfHead(wire: seq<Frame>)
    requires wire != []
    ensures EventsOf(wire) == (if wire[0].Published? then [wire[0].event] else []) + EventsOf(wire[1..])
  {
    if |wire| == 1 {
      assert wire[..0] == [] && wire[1..] == [];
    } else {
      var front := wire[..|wire| - 1];
      EventsOfHead(front);
      assert front[1..] == wire[1..][..|wire| - 2];
    }
  }

  lemma PublishKeeps(s: State, resume: nat, payload: Payload)
    requires Inv(s, resume)
    ensures Inv(Next(s, Publish(payload)), resume)
  {
    InLogGrows(EventsOf(s.wire), s.log, payload);
    InLogGrows(s.batch, s.log, payload);
    InLogGrows(s.delivered, s.log, payload);
  }

  lemma PollKeeps(s: State, resume: nat)
    requires Inv(s, resume)
    ensures Inv(Next(s, Poll), resume)
  {
    ChannelRefinesLog(s.log);
    SinceIsRising(ChannelOf(s.log), s.log, s.cursor);
  }

  lemma InLogSnoc(events: seq<Event>, log: seq<Payload>, event: Event)
    requires InLog(events, log) && InLog([event], log)
    ensures InLog(events + [event], log)
  {
    assert [event][0] == event;
  }

  lemma InLogSplit(events: seq<Event>, log: seq<Payload>)
    requires InLog(events, log) && events != []
    ensures InLog([events[0]], log) && InLog(events[1..], log)
  {
  }

  lemma SendIsUnderWay(s: State)
    requires UnderWay(s) && s.batch != []
    ensures UnderWay(SendFirst(s))
  {
    var event := s.batch[0];
    var sent := EventsOf(s.wire);
    RisingTail(s.batch, s.cursor);
    InLogSplit(s.batch, s.log);
    RisingSnoc(sent, s.lastId, event);
    InLogSnoc(sent, s.log, event);
    EventsOfSnoc(s.wire, Published(event));
  }

  lemma SendKeeps(s: State, resume: nat)
    requires Inv(s, resume) && s.batch != []
    ensures Inv(SendFirst(s), resume)
  {
    SendIsUnderWay(s);
    var f := Published(s.batch[0]);
    EventsOfSnoc(s.wire, f);
    assert NoControl(s.wire + [f]) ==> forall g :: g in s.wire ==> g in s.wire + [f];
  }

  lemma TimeOutKeeps(s: State, resume: nat)
    requires Inv(s, resume)
    ensures Inv(Next(s, TimeOut), resume)
  {
    var wire := s.wire + [StreamTimeout(s.cursor)];
    EventsOfSnoc(s.wire, StreamTimeout(s.cursor));
    assert EventsOf(wire) == EventsOf(s.wire);
    assert wire[|s.wire|] in wire;
    assert !NoControl(wire);
  }

  lemma ReceivedIsUnderWay(s: State)
    requires UnderWay(s) && s.wire != [] && s.wire[0].Published?
    ensures UnderWay(ReceiveFrame(s, s.wire[0])) && s.wire[0].event.number > s.lastId
    ensures InLog([s.wire[0].event], s.log)
    ensures LastNumber(EventsOf(s.wire[1..]), s.wire[0].event.number) == LastNumber(EventsOf(s.wire), s.lastId)
  {
    var event := s.wire[0].event;
    EventsOfHead(s.wire);
    var pending := EventsOf(s.wire);
    assert pending[0] == event && pending[1..] == EventsOf(s.wire[1..]);
    RisingTail(pending, s.lastId);
    InLogSplit(pending, s.log);
  }

  lemma ReceivedIsOrdered(s: State, resume: nat)
    requires UnderWay(s) && Ordered(s, resume) && s.wire != [] && s.wire[0].Published?
    ensures Ordered(ReceiveFrame(s, s.wire[0]), resume)
  {
    ReceivedIsUnderWay(s);
    var event := s.wire[0].event;
    RisingSnoc(s.delivered, resume, event);
    InLogSnoc(s.delivered, s.log, event);
  }

  lemma ReceivedCursor(s: State)
    requires UnderWay(s) && s.wire != [] && s.wire[0].Published?
    requires NoControl(s.wire) ==> s.cursor == LastNumber(EventsOf(s.wire), s.lastId)
    ensures NoControl(s.wire[1..]) ==> s.cursor == LastNumber(EventsOf(s.wire[1..]), s.wire[0].event.number)
  {
    ReceivedIsUnderWay(s);
    assert s.wire == [s.wire[0]] + s.wire[1..];
  }

  lemma ReduceIsAccounted(delivered: seq<Event>, start: nat, v: View, event: Event)
    requires Rising(delivered, start) && event.number > LastNumber(delivered, start)
    requires v.lastSeq == Some(LastNumber(delivered, start))
    requires Accounted(delivered, start, v.gaps, LastNumber(delivered, start))
    ensures Reduce(v, Published(event)).lastSeq == Some(event.number)
    ensures Accounted(delivered + [event], start, Reduce(v, Published(event)).gaps, event.number)
  {
    ReduceAccounts(v, event);
    JumpIsAccounted(delivered, start, v.gaps, event);
  }

  lemma ReceivedIsAccounted(s: State, resume: nat)
    requires UnderWay(s) && s.wire != [] && s.wire[0].Published?
    requires Rising(s.delivered, resume) && s.lastId == LastNumber(s.delivered, resume)
    requires Account(s, resume)
    ensures Account(ReceiveFrame(s, s.wire[0]), resume)
  {
    var event := s.wire[0].event;
    if s.view.lastSeq.Some? {
      ReceivedIsUnderWay(s);
      ReceivedCursor(s);
      ReduceIsAccounted(s.delivered, resume, s.view, event);
    } else {
      ReduceAccounts(s.view, event);
    }
  }

  lemma ReceiveEventKeeps(s: State, resume: nat)
    requires Inv(s, resume) && s.wire != [] && s.wire[0].Published?
    ensures Inv(ReceiveFrame(s, s.wire[0]), resume)
  {
    ReceivedIsUnderWay(s);
    ReceivedIsOrdered(s, resume);
    ReceivedIsAccounted(s, resume);
  }

  lemma ReceiveControlKeeps(s: State, resume: nat)
    requires Inv(s, resume) && s.wire != [] && !s.wire[0].Published?
    ensures Inv(ReceiveFrame(s, s.wire[0]), resume) && ReceiveFrame(s, s.wire[0]).view.lastSeq.None?
  {
    EventsOfHead(s.wire);
    assert EventsOf(s.wire) == EventsOf(s.wire[1..]);
  }

  lemma OpenWire(c: Channel, resume: nat)
    ensures var (cursor, frames) := OpenAt(c, resume);
            EventsOf(frames) == [] && resume <= cursor && (NoControl(frames) ==> cursor == resume)
  {
    var frames := OpenAt(c, resume).1;
    if frames != [] {
      assert frames[0] in frames;
      EventsOfHead(frames);
    }
  }

  lemma ConnectKeeps(s: State, resume: nat)
    requires Ordered(s, resume)
    requires s.view.lastSeq.Some? ==>
              s.view.lastSeq == Some(s.lastId) && Accounted(s.delivered, resume, s.view.gaps, s.lastId)
    ensures Inv(Connect(s), resume)
  {
    OpenWire(ChannelOf(s.log), s.lastId);
  }

  lemma NextKeeps(s: State, resume: nat, step: Step)
    requires Inv(s, resume)
    ensures Inv(Next(s, step), resume)
  {
    match step
    case Publish(payload) => PublishKeeps(s, resume, payload);
    case Poll => PollKeeps(s, resume);
    case Send => if s.batch != [] { SendKeeps(s, resume); }
    case TimeOut => TimeOutKeeps(s, resume);
    case Receive =>
      if s.wire != [] {
        if s.wire[0].Published? { ReceiveEventKeeps(s, resume); } else { ReceiveControlKeeps(s, resume); }
      }
    case Reconnect => ConnectKeeps(s, resume);
    case Said(_, _) =>
  }

  lemma StartEstablishes(log: seq<Payload>, resume: nat)
    ensures Inv(Start(log, resume), resume)
  {
    var s := State(log, false, resume, [], [], Initial(resume), [], resume, []);
    ConnectKeeps(s, resume);
  }

  lemma {:induction false} InvHolds(log: seq<Payload>, resume: nat, steps: seq<Step>)
    ensures Inv(Run(Start(log, resume), steps), resume)
  {
    if steps == [] {
      StartEstablishes(log, resume);
    } else {
      var front := steps[..|steps| - 1];
      InvHolds(log, resume, front);
      NextKeeps(Run(Start(log, resume), front), resume, steps[|steps| - 1]);
    }
  }

  // ---------------------------------------------------------------- what every run keeps

  // Whatever is lost, nothing is delivered twice, out of order or altered.
  lemma DeliveredIsSubsequence(log: seq<Payload>, resume: nat, steps: seq<Step>)
    ensures var s := Run(Start(log, resume), steps); Rising(s.delivered, resume) && InLog(s.delivered, s.log)
  {
    InvHolds(log, resume, steps);
  }

  // Until a control frame arrives, each number the client accounts for was delivered or lies
  // strictly inside exactly one recorded gap, and no other number lies in one.
  lemma EveryLossIsRecordedOnce(log: seq<Payload>, resume: nat, steps: seq<Step>, n: nat)
    requires Run(Start(log, resume), steps).view.lastSeq.Some?
    ensures var s := Run(Start(log, resume), steps);
            Covers(s.view.gaps, n) ==
            if AccountStart(s.delivered, resume) < n <= s.lastId && !HasNumber(s.delivered, n) then 1 else 0
  {
    InvHolds(log, resume, steps);
  }

  // Nothing is lost unrecorded exactly when the client did not start blind.
  lemma LossIsVisibleIff(log: seq<Payload>, resume: nat, steps: seq<Step>)
    requires Run(Start(log, resume), steps).view.lastSeq.Some?
    ensures var s := Run(Start(log, resume), steps);
            |s.delivered| + Lost(s.view.gaps) == s.lastId - resume
            <==> resume > 0 || s.delivered == [] || s.delivered[0].number == 1
  {
    InvHolds(log, resume, steps);
  }

  // A client that has caught up knows how many events it never saw.
  lemma CaughtUpAccountsForLog(log: seq<Payload>, resume: nat, steps: seq<Step>)
    requires resume <= |log|
    requires var s := Run(Start(log, resume), steps);
             s.view.lastSeq.Some? && s.wire == [] && s.batch == [] && Since(ChannelOf(s.log), s.cursor) == []
    ensures var s := Run(Start(log, resume), steps);
            |s.delivered| + Lost(s.view.gaps) == |s.log| - AccountStart(s.delivered, resume)
  {
    var s := Run(Start(log, resume), steps);
    InvHolds(log, resume, steps);
    LogGrows(log, resume, steps);
    ChannelRefinesLog(s.log);
    SinceIsRising(ChannelOf(s.log), s.log, s.cursor);
    assert s.lastId <= |s.log| by {
      if s.delivered != [] {
        assert s.delivered[|s.delivered| - 1].number <= |s.log|;
      }
    }
  }

  lemma {:induction false} LogGrows(log: seq<Payload>, resume: nat, steps: seq<Step>)
    ensures |log| <= |Run(Start(log, resume), steps).log|
  {
    if steps != [] {
      LogGrows(log, resume, steps[..|steps| - 1]);
    }
  }

  lemma ReduceKeepsNumber(v: View, f: Frame)
    ensures Reduce(v, f).lastSeq.Some? <==> v.lastSeq.Some? && f.Published?
  {
    if f.Published? {
      ReduceAccounts(v, f.event);
    }
  }

  // The client can still notice a jump exactly as long as it was sent no control frame.
  lemma {:induction false} NoticesJumpsIff(log: seq<Payload>, resume: nat, steps: seq<Step>)
    ensures var s := Run(Start(log, resume), steps); s.view.lastSeq.Some? <==> NoControl(s.received)
  {
    hide Reduce, OpenAt, Since;
    if steps != [] {
      var before, step := Run(Start(log, resume), steps[..|steps| - 1]), steps[|steps| - 1];
      NoticesJumpsIff(log, resume, steps[..|steps| - 1]);
      if step.Receive? && before.wire != [] {
        ReduceKeepsNumber(before.view, before.wire[0]);
        assert forall f :: f in before.received + [before.wire[0]] <==> f in before.received || f == before.wire[0];
      }
    }
  }

  // ---------------------------------------------------------------- what the page shows

  ghost function SaidIn(steps: seq<Step>): seq<Entry> {
    if steps == [] then []
    else
      var last := steps[|steps| - 1];
      SaidIn(steps[..|steps| - 1]) + if last.Said? then [Candidate(last.id, last.text)] else []
  }

  lemma StepShows(s: State, step: Step)
    requires Shows(s.view, PayloadsOf(s.received))
    ensures Shows(Next(s, step).view, PayloadsOf(Next(s, step).received))
    ensures Typed(Next(s, step).view.entries) ==
            Typed(s.view.entries) + if step.Said? then [Candidate(step.id, step.text)] else []
  {
    hide Shows, Reduce, Typed, OpenAt, Since;
    match step
    case Said(id, text) => SayShows(s.view, PayloadsOf(s.received), id, text);
    case Receive =>
      if s.wire != [] {
        var f := s.wire[0];
        ReduceShows(s.view, PayloadsOf(s.received), f);
        assert (s.received + [f])[..|s.received|] == s.received;
        assert PayloadsOf(s.received) + [] == PayloadsOf(s.received);
      }
    case _ =>
  }

  // After any run the page shows what it received: the latest state, problem, warning and
  // error, every hint and observation, the last word on each grading, the finished messages and
  // tool calls in their order with each call's last result, the message half done, and what the
  // candidate typed, in order.
  lemma {:induction false} ViewShowsReceived(log: seq<Payload>, resume: nat, steps: seq<Step>)
    ensures var s := Run(Start(log, resume), steps);
            && ShowsFacts(s.view, PayloadsOf(s.received)) && ShowsGradings(s.view, PayloadsOf(s.received))
            && Streams(s.view.streaming, PayloadsOf(s.received))
            && Heard(s.view.entries) == Transcript(PayloadsOf(s.received))
            && Typed(s.view.entries) == SaidIn(steps)
  {
    if steps == [] {
      NothingShown(resume);
    } else {
      var front := steps[..|steps| - 1];
      ViewShowsReceived(log, resume, front);
      StepShows(Run(Start(log, resume), front), steps[|steps| - 1]);
    }
  }

  // What is received are the frames that were delivered, in their order, and control frames.
  lemma StepDelivers(s: State, step: Step)
    requires EventsOf(s.received) == s.delivered
    ensures EventsOf(Next(s, step).received) == Next(s, step).delivered
  {
    hide Reduce, OpenAt, Since, EventsOf;
    if step.Receive? && s.wire != [] {
      EventsOfSnoc(s.received, s.wire[0]);
    }
  }

  lemma {:induction false} ReceivedIsDelivered(log: seq<Payload>, resume: nat, steps: seq<Step>)
    ensures var s := Run(Start(log, resume), steps); EventsOf(s.received) == s.delivered
  {
    if steps != [] {
      var front := steps[..|steps| - 1];
      ReceivedIsDelivered(log, resume, front);
      StepDelivers(Run(Start(log, resume), front), steps[|steps| - 1]);
    }
  }

  // ---------------------------------------------------------------- every gap is real

  ghost predicate Real(gap: Gap) {
    gap.after + 1 < gap.resumedAt
  }

  ghost predicate RealFrame(f: Frame) {
    f.StreamGap? ==> f.requestedAfter + 1 < f.oldestAvailable
  }

  ghost predicate OnlyReal(s: State) {
    (forall g :: g in s.view.gaps ==> Real(g)) && forall f :: f in s.wire ==> RealFrame(f)
  }

  lemma ReduceIsReal(v: View, f: Frame)
    requires (forall g :: g in v.gaps ==> Real(g)) && RealFrame(f)
    ensures forall g :: g in Reduce(v, f).gaps ==> Real(g)
    ensures f.StreamGap? ==> Gap(f.requestedAfter, f.oldestAvailable, Server) in Reduce(v, f).gaps
    ensures v.gaps <= Reduce(v, f).gaps
  {
    if f.Published? {
      ReduceAccounts(v, f.event);
    }
  }

  lemma StepIsReal(s: State, step: Step)
    requires OnlyReal(s)
    ensures OnlyReal(Next(s, step))
  {
    hide Reduce, Since;
    if step.Receive? && s.wire != [] {
      ReduceIsReal(s.view, s.wire[0]);
    }
  }

  // No gap is recorded where nothing is lost, by the client or by the server, and what the
  // server reports is kept.
  lemma {:induction false} GapsAreReal(log: seq<Payload>, resume: nat, steps: seq<Step>)
    ensures OnlyReal(Run(Start(log, resume), steps))
    ensures forall g :: g in Run(Start(log, resume), steps).view.gaps ==> g.after + 1 < g.resumedAt
    ensures forall f :: f in Run(Start(log, resume), steps).received && f.StreamGap? ==>
              Gap(f.requestedAfter, f.oldestAvailable, Server) in Run(Start(log, resume), steps).view.gaps
  {
    if steps != [] {
      var s, step := Run(Start(log, resume), steps[..|steps| - 1]), steps[|steps| - 1];
      GapsAreReal(log, resume, steps[..|steps| - 1]);
      StepIsReal(s, step);
      hide Reduce, Since, OpenAt;
      if step.Receive? && s.wire != [] {
        ReduceIsReal(s.view, s.wire[0]);
      }
    }
  }

  // ---------------------------------------------------------------- catching up

  // Nothing is sent that is not on its way, or still ahead in the log.
  ghost predicate Chased(s: State) {
    && (s.cursor == LastNumber(EventsOf(s.wire), s.lastId) || s.cursor < |s.log|)
    && s.lastId <= |s.log|
  }

  lemma StepIsChased(s: State, resume: nat, step: Step)
    requires Inv(s, resume) && Chased(s)
    ensures Chased(Next(s, step))
  {
    hide Reduce, Since, Refines, ChannelOf, OpenAt, Inv, EventsOf;
    match step
    case Send => if s.connected && s.batch != [] { SendIsChased(s, resume); }
    case TimeOut => EventsOfSnoc(s.wire, StreamTimeout(s.cursor));
    case Receive => if s.wire != [] { ReceiveIsChased(s, resume); }
    case Reconnect => ConnectIsChased(s);
    case _ =>
  }

  lemma SendIsChased(s: State, resume: nat)
    requires Inv(s, resume) && Chased(s) && s.batch != []
    ensures Chased(SendFirst(s))
  {
    EventsOfSnoc(s.wire, Published(s.batch[0]));
    LastOfSnoc(EventsOf(s.wire), s.batch[0], s.lastId);
    hide EventsOf, Inv, LastNumber;
  }

  lemma LastOfSnoc(events: seq<Event>, event: Event, before: nat)
    ensures LastNumber(events + [event], before) == event.number
  {
  }

  lemma ReceiveIsChased(s: State, resume: nat)
    requires Inv(s, resume) && Chased(s) && s.wire != []
    ensures Chased(ReceiveFrame(s, s.wire[0]))
  {
    EventsOfHead(s.wire);
    if s.wire[0].Published? {
      ReceivedIsUnderWay(s);
      ReceivedInLog(s);
    } else {
      assert [] + EventsOf(s.wire[1..]) == EventsOf(s.wire[1..]);
    }
    hide EventsOf, Inv, Reduce;
  }

  lemma ReceivedInLog(s: State)
    requires UnderWay(s) && s.wire != [] && s.wire[0].Published?
    ensures s.wire[0].event.number <= |s.log|
  {
    ReceivedIsUnderWay(s);
    assert [s.wire[0].event][0].number <= |s.log|;
  }

  lemma ConnectIsChased(s: State)
    requires s.lastId <= |s.log|
    ensures Chased(Connect(s))
  {
    var c := ChannelOf(s.log);
    ChannelRefinesLog(s.log);
    OpenWire(c, s.lastId);
    OpenIsHonest(c, s.log, s.lastId);
  }

  lemma {:induction false} AlwaysChased(log: seq<Payload>, resume: nat, steps: seq<Step>)
    requires resume <= |log|
    ensures Chased(Run(Start(log, resume), steps))
  {
    if steps == [] {
      ConnectIsChased(State(log, false, resume, [], [], Initial(resume), [], resume, []));
    } else {
      var front := steps[..|steps| - 1];
      AlwaysChased(log, resume, front);
      InvHolds(log, resume, front);
      StepIsChased(Run(Start(log, resume), front), resume, steps[|steps| - 1]);
    }
  }

  function Times(step: Step, n: nat): (steps: seq<Step>)
    ensures |steps| == n && forall k :: 0 <= k < n ==> steps[k] == step
  {
    seq(n, _ => step)
  }

  lemma RunFirst(s: State, step: Step, n: nat)
    requires n > 0
    ensures Run(s, Times(step, n)) == Run(Next(s, step), Times(step, n - 1))
  {
    hide Next;
    assert Times(step, n) == [step] + Times(step, n - 1);
    RunConcat(s, [step], Times(step, n - 1));
    assert [step][..0] == [];
    assert Run(s, [step]) == Next(s, step);
  }

  lemma LastOfRest(events: seq<Event>, before: nat)
    requires events != []
    ensures LastNumber(events[1..], events[0].number) == LastNumber(events, before)
    ensures forall front: seq<Event> :: (front + [events[0]]) + events[1..] == front + events
  {
    forall front: seq<Event> ensures (front + [events[0]]) + events[1..] == front + events {
      assert events == [events[0]] + events[1..];
    }
  }

  lemma SentOne(s: State)
    requires s.connected && s.batch != []
    ensures var t := Next(s, Send);
            && t.connected && t.batch == s.batch[1..] && t.log == s.log && t.lastId == s.lastId
            && t.cursor == s.batch[0].number && |t.wire| == |s.wire| + 1
            && EventsOf(t.wire) == EventsOf(s.wire) + [s.batch[0]]
  {
    EventsOfSnoc(s.wire, Published(s.batch[0]));
  }

  // Sending a batch and reading what is on the wire leaves neither.
  lemma {:induction false} SendsAll(s: State)
    requires s.connected
    ensures var t := Run(s, Times(Send, |s.batch|));
            && t.connected && t.batch == [] && t.log == s.log && t.lastId == s.lastId
            && t.cursor == LastNumber(s.batch, s.cursor) && |t.wire| == |s.wire| + |s.batch|
            && EventsOf(t.wire) == EventsOf(s.wire) + s.batch
    decreases |s.batch|
  {
    if s.batch == [] {
      assert Times(Send, 0) == [];
    } else {
      hide *;
      RunFirst(s, Send, |s.batch|);
      SentOne(s);
      SendsAll(Next(s, Send));
      LastOfRest(s.batch, s.cursor);
    }
  }

  lemma ReadOne(s: State)
    requires s.wire != []
    ensures var t := Next(s, Receive); var events := if s.wire[0].Published? then [s.wire[0].event] else [];
            && t.wire == s.wire[1..] && t.batch == s.batch && t.log == s.log && t.cursor == s.cursor
            && t.connected == s.connected && t.delivered == s.delivered + events
            && t.lastId == LastNumber(events, s.lastId)
  {
    hide Reduce;
  }

  lemma LastOfConcat(front: seq<Event>, first: seq<Event>, second: seq<Event>, before: nat)
    ensures LastNumber(second, LastNumber(first, before)) == LastNumber(first + second, before)
    ensures (front + first) + second == front + (first + second)
  {
  }

  lemma NothingToRead(s: State)
    requires s.wire == []
    ensures Run(s, Times(Receive, 0)) == s && EventsOf(s.wire) == [] && s.delivered + [] == s.delivered
    ensures LastNumber([], s.lastId) == s.lastId
  {
    assert Times(Receive, 0) == [];
  }

  lemma {:induction false} ReadsAll(s: State)
    ensures var t := Run(s, Times(Receive, |s.wire|));
            && t.wire == [] && t.batch == s.batch && t.log == s.log && t.cursor == s.cursor
            && t.connected == s.connected
            && t.lastId == LastNumber(EventsOf(s.wire), s.lastId) && t.delivered == s.delivered + EventsOf(s.wire)
    decreases |s.wire|
  {
    hide *;
    if s.wire == [] {
      NothingToRead(s);
    } else {
      RunFirst(s, Receive, |s.wire|);
      ReadOne(s);
      ReadsAll(Next(s, Receive));
      EventsOfHead(s.wire);
      var events := if s.wire[0].Published? then [s.wire[0].event] else [];
      LastOfConcat(s.delivered, events, EventsOf(s.wire[1..]), s.lastId);
    }
  }

  // What a connected client that nothing else happens to does next.
  function CatchUp(s: State): seq<Step> {
    var wire := |s.wire| + |s.batch|;
    var sent := Run(s, Times(Send, |s.batch|) + Times(Receive, wire));
    var more := |Next(sent, Poll).batch|;
    Times(Send, |s.batch|) + Times(Receive, wire) + [Poll] + Times(Send, more) + Times(Receive, more)
  }

  lemma FlushRuns(s: State)
    requires s.connected
    ensures var t := Run(s, Times(Send, |s.batch|) + Times(Receive, |s.wire| + |s.batch|));
            && t.wire == [] && t.batch == [] && t.connected && t.log == s.log
            && t.cursor == LastNumber(s.batch, s.cursor)
            && t.lastId == LastNumber(EventsOf(s.wire) + s.batch, s.lastId)
  {
    hide Run, Times, EventsOf, Next;
    SendsAll(s);
    RunConcat(s, Times(Send, |s.batch|), Times(Receive, |s.wire| + |s.batch|));
    ReadsAll(Run(s, Times(Send, |s.batch|)));
  }

  lemma FiveParts(s: State, a: seq<Step>, b: seq<Step>, p: Step, c: seq<Step>, d: seq<Step>)
    ensures Run(s, a + b + [p] + c + d) == Run(Run(Next(Run(s, a + b), p), c), d)
  {
    hide *;
    RunSnoc(s, a + b, p);
    RunConcat(s, a + b + [p], c);
    RunConcat(s, a + b + [p] + c, d);
  }

  // From wherever it is, a connected client that is left to it gets to the end of the log.
  lemma ConnectedCatchesUp(log: seq<Payload>, resume: nat, steps: seq<Step>)
    requires resume <= |log| && Run(Start(log, resume), steps).connected
    ensures var s := Run(Start(log, resume), steps); var t := Run(s, CatchUp(s));
            t.log == s.log && t.lastId == |s.log| && t.wire == [] && t.batch == []
  {
    var s := Run(Start(log, resume), steps);
    AlwaysChased(log, resume, steps);
    InvHolds(log, resume, steps);
    FlushRuns(s);
    CatchUpRuns(s);
    CursorIsBehind(s);
    hide *;
    PollsRest(Run(s, Times(Send, |s.batch|) + Times(Receive, |s.wire| + |s.batch|)));
  }

  lemma CatchUpRuns(s: State)
    ensures var polled := Next(Run(s, Times(Send, |s.batch|) + Times(Receive, |s.wire| + |s.batch|)), Poll);
            Run(s, CatchUp(s)) == Run(Run(polled, Times(Send, |polled.batch|)), Times(Receive, |polled.batch|))
  {
    hide Run, Next, Times;
    var first, second := Times(Send, |s.batch|), Times(Receive, |s.wire| + |s.batch|);
    var more := |Next(Run(s, first + second), Poll).batch|;
    FiveParts(s, first, second, Poll, Times(Send, more), Times(Receive, more));
  }

  lemma PollsRest(s: State)
    requires s.connected && s.wire == [] && s.batch == [] && (s.cursor >= |s.log| ==> s.lastId == |s.log|)
    ensures var p := Next(s, Poll); var t := Run(Run(p, Times(Send, |p.batch|)), Times(Receive, |p.batch|));
            t.log == s.log && t.lastId == |s.log| && t.wire == [] && t.batch == []
  {
    var p := Next(s, Poll);
    ChannelRefinesLog(s.log);
    SinceIsRising(ChannelOf(s.log), s.log, s.cursor);
    hide Run, Times, Next, Since, ChannelOf, Refines;
    SendsAll(p);
    ReadsAll(Run(p, Times(Send, |p.batch|)));
  }

  lemma CursorIsBehind(s: State)
    requires UnderWay(s) && Chased(s)
    ensures LastNumber(s.batch, s.cursor) >= |s.log| ==> LastNumber(EventsOf(s.wire) + s.batch, s.lastId) == |s.log|
  {
    if s.batch != [] {
      var last := s.batch[|s.batch| - 1];
      assert last.number <= |s.log|;
    } else {
      assert EventsOf(s.wire) + s.batch == EventsOf(s.wire);
      if EventsOf(s.wire) != [] {
        assert EventsOf(s.wire)[|EventsOf(s.wire)| - 1].number <= |s.log|;
      }
    }
  }

  // ---------------------------------------------------------------- where loss goes unseen

  lemma RunSnoc(s: State, before: seq<Step>, step: Step)
    ensures Run(s, before + [step]) == Next(Run(s, before), step)
  {
    hide Next;
    assert (before + [step])[..|before|] == before;
  }

  lemma ThreeSteps(s: State, a: Step, b: Step, c: Step)
    ensures Run(s, [a, b, c]) == Next(Next(Next(s, a), b), c)
  {
    assert Run(s, []) == s;
    hide Next, Run;
    RunSnoc(s, [], a);
    RunSnoc(s, [a], b);
    RunSnoc(s, [a, b], c);
    assert [] + [a] == [a] && [a] + [b] == [a, b] && [a, b] + [c] == [a, b, c];
  }

  // A page opened after more events than the buffer holds is told of no gap and notices none.
  lemma FreshClientLosesSilently(log: seq<Payload>)
    requires |log| > BUFFER_SIZE
    ensures var s := Run(Start(log, 0), [Poll, Send, Receive]);
            && s.view.gaps == [] && s.view.lastSeq == Some(s.lastId) && |s.delivered| == 1
            && s.lastId - |s.delivered| == |log| - BUFFER_SIZE
  {
    ThreeSteps(Start(log, 0), Poll, Send, Receive);
    var c := ChannelOf(log);
    ChannelRefinesLog(log);
    SinceAt(c, log, 0);
    var first := Since(c, 0)[0];
    assert first == At(log, |log| - BUFFER_SIZE);
    var s1 := Next(Start(log, 0), Poll);
    assert s1.batch == Since(c, 0) && s1.wire == [] && s1.view == Initial(0);
    var s2 := SendFirst(s1);
    assert s2.wire == [Published(first)];
    ReduceAccounts(s1.view, first);
  }

  function FromClient(gaps: seq<Gap>): seq<Gap> {
    if gaps == [] then []
    else FromClient(gaps[..|gaps| - 1]) + if gaps[|gaps| - 1].source.Client? then [gaps[|gaps| - 1]] else []
  }

  lemma BlindReduce(v: View, f: Frame)
    requires v.lastSeq.None?
    ensures Reduce(v, f).lastSeq.None? && FromClient(Reduce(v, f).gaps) == FromClient(v.gaps)
  {
    match f
    case Published(event) => FoldKeepsAccount(v, event.payload);
    case StreamGap(requested, oldest) => assert (v.gaps + [Gap(requested, oldest, Server)])[..|v.gaps|] == v.gaps;
    case StreamTimeout(_) =>
  }

  lemma {:induction false} BlindReduceAll(v: View, frames: seq<Frame>)
    requires v.lastSeq.None?
    ensures ReduceAll(v, frames).lastSeq.None? && FromClient(ReduceAll(v, frames).gaps) == FromClient(v.gaps)
    decreases |frames|
  {
    if frames != [] {
      BlindReduce(v, frames[0]);
      BlindReduceAll(Reduce(v, frames[0]), frames[1..]);
    }
  }

  // Once a control frame has come in, whose missing `seq` turns `lastSeq` into NaN, the client
  // notices no jump again, whatever it receives.
  lemma ControlFrameBlindsClient(v: View, control: Frame, frames: seq<Frame>)
    requires !control.Published?
    ensures FromClient(ReduceAll(Reduce(v, control), frames).gaps) == FromClient(v.gaps)
  {
    if control.StreamGap? {
      assert (v.gaps + [Gap(control.requestedAfter, control.oldestAvailable, Server)])[..|v.gaps|] == v.gaps;
    }
    BlindReduceAll(Reduce(v, control), frames);
  }

  lemma {:induction false} RunConcat(s: State, a: seq<Step>, b: seq<Step>)
    ensures Run(s, a + b) == Run(Run(s, a), b)
  {
    hide Next;
    if b == [] {
      assert a + b == a;
    } else {
      assert (a + b)[..|a + b| - 1] == a + b[..|b| - 1];
      RunConcat(s, a, b[..|b| - 1]);
    }
  }

  function Publishing(payloads: seq<Payload>): seq<Step> {
    seq(|payloads|, i requires 0 <= i < |payloads| => Publish(payloads[i]))
  }

  lemma {:induction false} PublishingRuns(s: State, payloads: seq<Payload>)
    ensures Run(s, Publishing(payloads)) == s.(log := s.log + payloads)
  {
    if payloads == [] {
      assert s.log + [] == s.log;
    } else {
      var front, last := payloads[..|payloads| - 1], payloads[|payloads| - 1];
      PublishingRuns(s, front);
      assert Publishing(payloads)[..|payloads| - 1] == Publishing(front);
      assert s.log + payloads == (s.log + front) + [last];
    }
  }

  // A client that is up to date, after its connection timed out and came back.
  lemma TimedOutClient(log: seq<Payload>)
    requires log != []
    ensures var s := Run(Start(log, |log|), [TimeOut, Receive, Reconnect]);
            && s == s.(log := log, connected := true, cursor := |log|, batch := [], wire := [],
                      delivered := [], lastId := |log|)
            && s.view.lastSeq.None? && s.view.gaps == []
  {
    var c := ChannelOf(log);
    ChannelRefinesLog(log);
    OpenIsHonest(c, log, |log|);
    assert OpenAt(c, |log|) == (|log|, []);
    ThreeSteps(Start(log, |log|), TimeOut, Receive, Reconnect);
  }

  lemma FirstOfPoll(c: Channel, log: seq<Payload>, after: nat)
    requires Refines(c, log) && |log| - after > BUFFER_SIZE
    ensures Since(c, after) != [] && Since(c, after)[0].number == |log| - BUFFER_SIZE + 1
  {
    SinceAt(c, log, after);
    assert Numbered(log)[Reach(|log|, after)] == At(log, Reach(|log|, after));
  }

  lemma BlindPoll(s: State)
    requires s.connected && s.batch == [] && s.wire == [] && s.view.lastSeq.None?
    requires |s.log| - s.cursor > BUFFER_SIZE
    ensures var t := Run(s, [Poll, Send, Receive]);
            && t.view.gaps == s.view.gaps && |t.delivered| == |s.delivered| + 1
            && t.lastId == |s.log| - BUFFER_SIZE + 1
  {
    ThreeSteps(s, Poll, Send, Receive);
    ChannelRefinesLog(s.log);
    FirstOfPoll(ChannelOf(s.log), s.log, s.cursor);
    var first := Since(ChannelOf(s.log), s.cursor)[0];
    var sent := SendFirst(Next(s, Poll));
    assert sent.wire == [Published(first)];
    ReduceAccounts(s.view, first);
  }

  // After one connection timed out, a client that was up to date loses events between two
  // polls and records no gap, neither then nor when it reconnects.
  lemma TimedOutClientLosesSilently(log: seq<Payload>, more: seq<Payload>)
    requires log != [] && |more| > BUFFER_SIZE
    ensures var s := Run(Start(log, |log|), [TimeOut, Receive, Reconnect] + Publishing(more) + [Poll, Send, Receive]);
            && s.view.gaps == [] && |s.delivered| == 1
            && s.lastId - |log| - |s.delivered| == |more| - BUFFER_SIZE
  {
    var start := Start(log, |log|);
    var s := Run(start, [TimeOut, Receive, Reconnect]);
    TimedOutClient(log);
    RunConcat(start, [TimeOut, Receive, Reconnect], Publishing(more));
    PublishingRuns(s, more);
    RunConcat(start, [TimeOut, Receive, Reconnect] + Publishing(more), [Poll, Send, Receive]);
    BlindPoll(s.(log := log + more));
  }

  // ---------------------------------------------------------------- the generator

  function Frames(events: seq<Event>): seq<Frame> {
    seq(|events|, k requires 0 <= k < |events| => Published(events[k]))
  }

  predicate IsTerminal(event: Event) {
    event.payload.SessionState? && event.payload.terminal
  }

  class Subscription {
    var cursor: nat
    var finished: bool

    constructor (finishedAtOpen: bool)
      ensures finished == finishedAtOpen && cursor == 0
    {
      cursor, finished := 0, finishedAtOpen;
    }

    method Open(c: Channel, lastEventId: Option<Option<int>>, after: Option<int>) returns (frames: seq<Frame>)
      modifies this`cursor
      ensures (cursor, frames) == OpenAt(c, ResumeFrom(lastEventId, after))
    {
      var resume := ResumeFrom(lastEventId, after);
      cursor, frames := resume, [];
      var oldest := Oldest(c);
      if resume > 0 && oldest > 0 && resume < oldest - 1 {
        frames := [StreamGap(resume, oldest)];
        cursor := oldest - 1;
      }
    }

    // One turn of the loop. `c` and `later` are the channel at its two reads, `due` says the
    // status is asked for again and `reportable` what it then is, and `expired` that the
    // connection has reached its ceiling.
    method Turn(c: Channel, due: bool, reportable: bool, later: Channel, expired: bool)
      returns (frames: seq<Frame>, ended: bool)
      modifies this
      ensures var events := Since(c, old(cursor));
              && cursor == LastNumber(events, old(cursor))
              && finished == (old(finished) || (exists e :: e in events && IsTerminal(e)) || (due && reportable))
              && var drained := finished && Since(later, cursor) == [];
                 frames == Frames(events) + if ended && !drained then [StreamTimeout(cursor)] else []
      ensures ended <==> (finished && Since(later, cursor) == []) || expired
    {
      var events, i := Since(c, cursor), 0;
      frames := [];
      while i < |events|
        invariant 0 <= i <= |events|
        invariant cursor == LastNumber(events[..i], old(cursor))
        invariant frames == Frames(events[..i])
        invariant finished == (old(finished) || exists e :: e in events[..i] && IsTerminal(e))
      {
        var event := events[i];
        assert events[..i + 1] == events[..i] + [event];
        cursor := event.number;
        frames := frames + [Published(event)];
        if IsTerminal(event) {
          finished := true;
        }
        i := i + 1;
      }
      assert events[..i] == events;
      if !finished && due {
        finished := reportable;
      }
      if finished && Since(later, cursor) == [] {
        return frames, true;
      }
      if expired {
        frames := frames + [StreamTimeout(cursor)];
      }
      return frames, expired;
    }
  }
}
