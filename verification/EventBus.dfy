/**
  The in-process event bus: one bounded channel a session, the least recently published
  channels evicted beyond a cap. A channel's reference is the unbounded log of everything
  published on it since it was opened.
*/
module EventBus {
  import opened Base

  // What a publisher hands over; the bus looks into none of it.
  datatype Payload =
    | SessionState(state: Id, terminal: bool)
    | ItemPresented(item: Id)
    | MessageDelta(text: string)
    | MessageDone(message: Id, text: string)
    | ToolUse(use: Id, tool: Id)
    | ToolResult(use: Id, isError: bool)
    | HintRevealed(item: Id, level: nat)
    | ObservationRecorded(concept: Id)
    | GradingStarted(item: Id)
    | GradingResult(item: Id, graded: bool)
    | BudgetWarning(scope: Id)
    | SessionError(code: Id)

  // `number` is the event's `seq`, counted from 1.
  datatype Event = Event(number: nat, payload: Payload)

  datatype Channel = Channel(last: nat, events: seq<Event>)

  const BUFFER_SIZE := 256
  const MAX_CHANNELS := 128

  const EMPTY := Channel(0, [])

  // ---------------------------------------------------------------- one channel

  // Appending to a `deque(maxlen=BUFFER_SIZE)` drops from the other end.
  function Append(c: Channel, payload: Payload): Channel {
    var events := c.events + [Event(c.last + 1, payload)];
    Channel(c.last + 1, if |events| > BUFFER_SIZE then events[1..] else events)
  }

  function Newer(events: seq<Event>, after: nat): seq<Event> {
    if events == [] then []
    else (if events[0].number > after then [events[0]] else []) + Newer(events[1..], after)
  }

  function Since(c: Channel, after: nat): seq<Event> {
    Newer(c.events, after)
  }

  function Oldest(c: Channel): nat {
    if c.events == [] then 0 else c.events[0].number
  }

  function At(log: seq<Payload>, k: nat): Event
    requires k < |log|
  {
    Event(k + 1, log[k])
  }

  // The log as the events a bus without a bound would hold.
  function Numbered(log: seq<Payload>): (events: seq<Event>)
    ensures |events| == |log|
    ensures forall k :: 0 <= k < |log| ==> events[k] == At(log, k)
  {
    seq(|log|, k requires 0 <= k < |log| => At(log, k))
  }

  // The channel holds exactly the newest events of its log, up to the size of the buffer.
  ghost predicate Refines(c: Channel, log: seq<Payload>) {
    && c.last == |log|
    && |c.events| == Smaller(|log|, 256)
    && forall k :: 0 <= k < |c.events| ==> c.events[k] == At(log, |log| - |c.events| + k)
  }

  lemma EmptyRefines()
    ensures Refines(EMPTY, [])
  {
  }

  lemma AppendRefines(c: Channel, log: seq<Payload>, payload: Payload)
    requires Refines(c, log)
    ensures Refines(Append(c, payload), log + [payload])
  {
    var log', c' := log + [payload], Append(c, payload);
    var dropped, dropped' := |log| - |c.events|, |log'| - |c'.events|;
    forall k | 0 <= k < |c'.events| ensures c'.events[k] == At(log', dropped' + k) {
      if dropped' + k < |log| {
        assert c'.events[k] == c.events[dropped' + k - dropped] == At(log, dropped' + k);
      }
    }
  }

  // The channel a log leaves behind, from the first event on.
  function ChannelOf(log: seq<Payload>): Channel {
    if log == [] then EMPTY else Append(ChannelOf(log[..|log| - 1]), log[|log| - 1])
  }

  lemma {:induction false} ChannelRefinesLog(log: seq<Payload>)
    ensures Refines(ChannelOf(log), log)
  {
    if log == [] {
      EmptyRefines();
    } else {
      var before, payload := log[..|log| - 1], log[|log| - 1];
      ChannelRefinesLog(before);
      AppendRefines(ChannelOf(before), before, payload);
      assert before + [payload] == log;
    }
  }

  lemma {:induction false} NewerOfConsecutive(events: seq<Event>, first: nat, after: nat)
    requires forall k :: 0 <= k < |events| ==> events[k].number == first + k
    ensures Newer(events, after) ==
            if after < first then events
            else if after - first + 1 <= |events| then events[after - first + 1..]
            else []
  {
    if events != [] {
      NewerOfConsecutive(events[1..], first + 1, after);
    }
  }

  // A resume point inside the buffer, or right before it, is served as from the whole log.
  lemma SinceIsLogSuffix(c: Channel, log: seq<Payload>, after: nat)
    requires Refines(c, log) && (c.events != [] ==> after + 1 >= Oldest(c))
    ensures Since(c, after) == if after <= |log| then Numbered(log)[after..] else []
  {
    var start := |log| - |c.events|;
    NewerOfConsecutive(c.events, start + 1, after);
    if after <= |log| {
      assert c.events[after - start..] == Numbered(log)[after..];
    }
  }

  lemma BufferIsTail(c: Channel, log: seq<Payload>)
    requires Refines(c, log)
    ensures c.events == Numbered(log)[|log| - |c.events|..]
  {
  }

  // From further back the oldest events are lost, and just those.
  lemma SinceSkipsEvicted(c: Channel, log: seq<Payload>, after: nat)
    requires Refines(c, log) && c.events != [] && after + 1 < Oldest(c)
    ensures Since(c, after) == c.events && Oldest(c) == |log| - BUFFER_SIZE + 1 && |log| > BUFFER_SIZE
  {
    NewerOfConsecutive(c.events, |log| - Smaller(|log|, BUFFER_SIZE) + 1, after);
  }

  // ---------------------------------------------------------------- which channels stay

  function Without(order: seq<Id>, id: Id): seq<Id> {
    if order == [] then []
    else if order[0] == id then Without(order[1..], id)
    else [order[0]] + Without(order[1..], id)
  }

  function Touch(order: seq<Id>, id: Id): seq<Id> {
    Without(order, id) + [id]
  }

  function LastOf(order: seq<Id>, cap: nat): seq<Id> {
    if |order| <= cap then order else order[|order| - cap..]
  }

  ghost predicate IsSuffix(s: seq<Id>, t: seq<Id>) {
    |s| <= |t| && forall k :: 0 <= k < |s| ==> s[k] == t[|t| - |s| + k]
  }

  lemma {:induction false} WithoutMembers(order: seq<Id>, id: Id)
    ensures forall x :: x in Without(order, id) <==> x in order && x != id
    ensures id !in order ==> Without(order, id) == order
  {
    if order != [] {
      WithoutMembers(order[1..], id);
      assert order == [order[0]] + order[1..];
    }
  }

  lemma {:induction false} WithoutConcat(a: seq<Id>, b: seq<Id>, id: Id)
    ensures Without(a + b, id) == Without(a, id) + Without(b, id)
  {
    if a == [] {
      assert a + b == b;
    } else {
      assert (a + b)[1..] == a[1..] + b;
      WithoutConcat(a[1..], b, id);
    }
  }

  lemma {:induction false} WithoutShrinks(order: seq<Id>, id: Id)
    requires Distinct(order)
    ensures Distinct(Without(order, id))
    ensures |Without(order, id)| == |order| - if id in order then 1 else 0
  {
    if order != [] {
      WithoutShrinks(order[1..], id);
      WithoutMembers(order[1..], id);
      assert order[0] !in order[1..];
    }
  }

  // Forgetting a session takes it out of both orders alike.
  lemma ForgetKeepsSuffix(order: seq<Id>, recent: seq<Id>, id: Id)
    requires IsSuffix(order, recent)
    ensures IsSuffix(Without(order, id), Without(recent, id))
  {
    var front := recent[..|recent| - |order|];
    assert recent == front + order;
    WithoutConcat(front, order, id);
    var a, b := Without(front, id), Without(order, id);
    assert (a + b)[|a + b| - |b|..] == b;
  }

  lemma SuffixOfSuffix(s: seq<Id>, t: seq<Id>, cap: nat)
    requires IsSuffix(s, t)
    ensures IsSuffix(LastOf(s, cap), t)
  {
    if |s| > cap {
      assert s[|s| - cap..] == t[|t| - cap..];
    }
  }

  // Publishing moves a session to the end of both, and evicts only from the front.
  lemma PublishKeepsSuffix(order: seq<Id>, recent: seq<Id>, id: Id, cap: nat)
    requires IsSuffix(order, recent)
    ensures IsSuffix(LastOf(Touch(order, id), cap), Touch(recent, id))
  {
    ForgetKeepsSuffix(order, recent, id);
    var a, b := Without(order, id), Without(recent, id);
    assert a + [id] == (b + [id])[|b| - |a|..];
    SuffixOfSuffix(a + [id], b + [id], cap);
  }

  lemma PublishKeepsMost(order: seq<Id>, recent: seq<Id>, id: Id, cap: nat)
    requires IsSuffix(order, recent) && Distinct(recent) && Distinct(order)
    requires |order| == Smaller(|recent|, cap) && cap > 0
    ensures |LastOf(Touch(order, id), cap)| == Smaller(|Touch(recent, id)|, cap)
  {
    WithoutShrinks(order, id);
    WithoutShrinks(recent, id);
    if |order| == |recent| {
      assert order == recent;
    }
  }

  // ---------------------------------------------------------------- the bus

  // What insertion, eviction and the move to the end together make of the order.
  function NextOrder(order: seq<Id>, id: Id, cap: nat): seq<Id> {
    LastOf(Touch(order, id), cap)
  }

  lemma LastOfKeeps(order: seq<Id>, cap: nat)
    requires Distinct(order) && 0 < cap && order != []
    ensures var kept := LastOf(order, cap);
            && Distinct(kept) && |kept| <= cap && kept != [] && kept[|kept| - 1] == order[|order| - 1]
            && forall x :: x in kept ==> x in order
  {
    var kept := LastOf(order, cap);
    forall i, j | 0 <= i < j < |kept| ensures kept[i] != kept[j] {
      assert kept[i] == order[|order| - |kept| + i] && kept[j] == order[|order| - |kept| + j];
    }
    forall x | x in kept ensures x in order {
      var i :| 0 <= i < |kept| && kept[i] == x;
      assert kept[i] == order[|order| - |kept| + i];
    }
  }

  lemma NextOrderIsSound(order: seq<Id>, id: Id, cap: nat)
    requires Distinct(order) && 0 < cap
    ensures var next := NextOrder(order, id, cap);
            && Distinct(next) && |next| <= cap && id in next
            && forall x :: x in next ==> x == id || x in order
  {
    WithoutShrinks(order, id);
    WithoutMembers(order, id);
    LastOfKeeps(Touch(order, id), cap);
  }

  // A resident session only moves to the end: nothing is evicted.
  lemma ResidentMoves(order: seq<Id>, id: Id, cap: nat)
    requires Distinct(order) && |order| <= cap && id in order
    ensures NextOrder(order, id, cap) == Without(order, id) + [id]
    ensures forall x :: x in order ==> x in NextOrder(order, id, cap)
  {
    WithoutShrinks(order, id);
    WithoutMembers(order, id);
  }

  // A new one enters at the end, and the first leaves if the bus was full.
  lemma NewcomerEvicts(order: seq<Id>, id: Id, cap: nat)
    requires Distinct(order) && |order| <= cap && 0 < cap && id !in order
    ensures NextOrder(order, id, cap) == if |order| < cap then order + [id] else order[1..] + [id]
  {
    WithoutMembers(order, id);
  }

  // The order after a publish, against `recent`: all sessions ever published and not forgotten
  // since, the most recent last.
  lemma PublishKeepsOrder(order: seq<Id>, recent: seq<Id>, id: Id, cap: nat)
    requires 0 < cap && Distinct(order) && Distinct(recent) && |order| <= cap && IsSuffix(order, recent)
    ensures var next := NextOrder(order, id, cap);
            && Distinct(next) && |next| <= cap && id in next
            && IsSuffix(next, Touch(recent, id)) && Distinct(Touch(recent, id))
            && (|order| == Smaller(|recent|, cap) ==> |next| == Smaller(|Touch(recent, id)|, cap))
  {
    NextOrderIsSound(order, id, cap);
    WithoutShrinks(recent, id);
    WithoutMembers(recent, id);
    PublishKeepsSuffix(order, recent, id, cap);
    if |order| == Smaller(|recent|, cap) {
      PublishKeepsMost(order, recent, id, cap);
    }
  }

  // Every resident channel holds the newest events of its log.
  ghost predicate Contents(channels: map<Id, Channel>, logs: map<Id, seq<Payload>>, order: seq<Id>) {
    && channels.Keys == logs.Keys
    && (forall id :: id in channels <==> id in order)
    && (forall id :: id in channels ==> Refines(channels[id], logs[id]))
  }

  lemma AppendKeepsContents(channels: map<Id, Channel>, logs: map<Id, seq<Payload>>, order: seq<Id>, id: Id,
      payload: Payload)
    requires Contents(channels, logs, order) && id in channels
    ensures Contents(channels[id := Append(channels[id], payload)], logs[id := logs[id] + [payload]], order)
    ensures channels[id].last == |logs[id]|
  {
    AppendRefines(channels[id], logs[id], payload);
  }

  lemma EvictKeepsContents(channels: map<Id, Channel>, logs: map<Id, seq<Payload>>, order: seq<Id>)
    requires Contents(channels, logs, order) && Distinct(order) && order != []
    ensures Contents(channels - {order[0]}, logs - {order[0]}, order[1..])
  {
    assert order == [order[0]] + order[1..];
  }

  lemma OpenKeepsContents(channels: map<Id, Channel>, logs: map<Id, seq<Payload>>, order: seq<Id>, id: Id)
    requires Contents(channels, logs, order) && id !in channels
    ensures Contents(channels[id := EMPTY], logs[id := []], order + [id])
  {
  }

  // A full bus drops its first channel for a new one.
  function Evicting<T>(m: map<Id, T>, order: seq<Id>, cap: nat): map<Id, T> {
    if |order| < cap || order == [] then m else m - {order[0]}
  }

  lemma NewcomerKeepsContents(channels: map<Id, Channel>, logs: map<Id, seq<Payload>>, order: seq<Id>, id: Id, cap: nat)
    requires Contents(channels, logs, order) && id !in channels
    requires Distinct(order) && |order| <= cap && 0 < cap
    ensures Contents(Evicting(channels, order, cap)[id := EMPTY], Evicting(logs, order, cap)[id := []],
                     NextOrder(order, id, cap))
  {
    NewcomerEvicts(order, id, cap);
    if |order| < cap {
      OpenKeepsContents(channels, logs, order, id);
    } else {
      EvictKeepsContents(channels, logs, order);
      OpenKeepsContents(channels - {order[0]}, logs - {order[0]}, order[1..], id);
    }
  }

  lemma RemoveCommutes<T>(m: map<Id, T>, id: Id, value: T, first: Id)
    requires first != id
    ensures m[id := value] - {first} == (m - {first})[id := value]
  {
  }

  // The logs of the sessions that are still resident, one of them perhaps newly opened.
  function Admitted(logs: map<Id, seq<Payload>>, id: Id, order: seq<Id>): map<Id, seq<Payload>> {
    (map x | x in logs && x in order :: logs[x])[id := if id in logs then logs[id] else []]
  }

  // The logs after a publish: the event is added to its session's.
  function Logged(logs: map<Id, seq<Payload>>, id: Id, payload: Payload, order: seq<Id>): map<Id, seq<Payload>> {
    var admitted := Admitted(logs, id, order);
    admitted[id := admitted[id] + [payload]]
  }

  lemma DropFirst<T>(m: map<Id, T>, order: seq<Id>)
    requires forall x :: x in m <==> x in order
    requires order != [] && Distinct(order)
    ensures (map x | x in m && x in order[1..] :: m[x]) == m - {order[0]}
  {
    forall x | x in m ensures x in order[1..] <==> x != order[0] {
      var k :| 0 <= k < |order| && order[k] == x;
      assert k > 0 ==> order[1..][k - 1] == x;
    }
  }

  lemma StillResident<T>(m: map<Id, T>, order: seq<Id>, id: Id, cap: nat)
    requires forall x :: x in m <==> x in order
    requires id !in order && Distinct(order) && |order| <= cap && 0 < cap
    ensures (map x | x in m && x in NextOrder(order, id, cap) :: m[x]) == Evicting(m, order, cap)
  {
    NewcomerEvicts(order, id, cap);
    var kept := if |order| < cap then order else order[1..];
    assert NextOrder(order, id, cap) == kept + [id];
    assert (map x | x in m && x in kept + [id] :: m[x]) == (map x | x in m && x in kept :: m[x]);
    if |order| == cap {
      DropFirst(m, order);
    }
  }

  lemma NewcomerAdmitted(logs: map<Id, seq<Payload>>, order: seq<Id>, id: Id, cap: nat)
    requires forall x :: x in logs <==> x in order
    requires id !in order && Distinct(order) && |order| <= cap && 0 < cap
    ensures Evicting(logs, order, cap)[id := []] == Admitted(logs, id, NextOrder(order, id, cap))
  {
    StillResident(logs, order, id, cap);
  }

  lemma ResidentAdmitted(logs: map<Id, seq<Payload>>, order: seq<Id>, id: Id, cap: nat)
    requires forall x :: x in logs <==> x in order
    requires id in order && Distinct(order) && |order| <= cap && 0 < cap
    ensures logs == Admitted(logs, id, NextOrder(order, id, cap))
  {
    ResidentMoves(order, id, cap);
  }

  lemma MoveKeepsContents(channels: map<Id, Channel>, logs: map<Id, seq<Payload>>, order: seq<Id>, id: Id)
    requires Contents(channels, logs, order) && id in channels
    ensures Contents(channels, logs, Without(order, id) + [id])
  {
    WithoutMembers(order, id);
  }

  lemma ForgetKeepsContents(channels: map<Id, Channel>, logs: map<Id, seq<Payload>>, order: seq<Id>, id: Id)
    requires Contents(channels, logs, order)
    ensures Contents(channels - {id}, logs - {id}, Without(order, id))
  {
    WithoutMembers(order, id);
  }

  class Bus {
    const maxChannels: nat
    var channels: map<Id, Channel>
    // The insertion order of the `OrderedDict`, least recently published first.
    var order: seq<Id>
    ghost var logs: map<Id, seq<Payload>>
    ghost var recent: seq<Id>

    ghost predicate Valid()
      reads this
    {
      && 0 < maxChannels && Distinct(order) && Distinct(recent) && |order| <= maxChannels
      && IsSuffix(order, recent)
      && Contents(channels, logs, order)
    }

    // The resident channels are exactly the most recently published sessions.
    ghost predicate HoldsMostRecent()
      reads this
    {
      |order| == Smaller(|recent|, maxChannels)
    }

    constructor (cap: nat := MAX_CHANNELS)
      requires 0 < cap
      ensures Valid() && maxChannels == cap && recent == [] && HoldsMostRecent()
    {
      maxChannels, channels, order, logs, recent := cap, map[], [], map[], [];
    }

    // A new channel enters at the end of the order, and the first leaves while the bus is
    // over its cap.
    method Open(id: Id)
      requires Valid() && id !in channels
      modifies this`channels, this`order, this`logs
      ensures order == NextOrder(old(order), id, maxChannels)
      ensures channels == Evicting(old(channels), old(order), maxChannels)[id := EMPTY]
      ensures logs == Evicting(old(logs), old(order), maxChannels)[id := []]
    {
      ghost var before := order;
      NewcomerEvicts(order, id, maxChannels);
      assert order != [] ==> order[0] != id;
      channels, order := channels[id := EMPTY], order + [id];
      logs := logs[id := []];
      while |order| > maxChannels
        invariant |order| > maxChannels ==>
                  channels == old(channels)[id := EMPTY] && logs == old(logs)[id := []] && order == before + [id]
        invariant |order| <= maxChannels ==> channels == Evicting(old(channels), before, maxChannels)[id := EMPTY]
        invariant |order| <= maxChannels ==> logs == Evicting(old(logs), before, maxChannels)[id := []]
        invariant |order| <= maxChannels ==> order == NextOrder(before, id, maxChannels)
      {
        assert order[0] == before[0] != id;
        RemoveCommutes(old(channels), id, EMPTY, order[0]);
        RemoveCommutes(old(logs), id, [], order[0]);
        channels, logs, order := channels - {order[0]}, logs - {order[0]}, order[1..];
      }
    }

    method MoveToEnd(id: Id)
      requires Valid() && id in channels
      modifies this`order
      ensures order == NextOrder(old(order), id, maxChannels)
      ensures Contents(channels, logs, order)
    {
      ResidentMoves(order, id, maxChannels);
      MoveKeepsContents(channels, logs, order, id);
      order := Without(order, id) + [id];
    }

    // Makes room for the session at the end of the order.
    method Admit(id: Id)
      requires Valid()
      modifies this`channels, this`order, this`logs
      ensures order == NextOrder(old(order), id, maxChannels)
      ensures Contents(channels, logs, order) && id in channels
      ensures logs == Admitted(old(logs), id, order)
    {
      if id !in channels {
        NewcomerKeepsContents(channels, logs, order, id, maxChannels);
        NewcomerAdmitted(logs, order, id, maxChannels);
        Open(id);
      } else {
        ResidentAdmitted(logs, order, id, maxChannels);
        MoveToEnd(id);
      }
    }

    method Record(id: Id, payload: Payload) returns (event: Event)
      requires Contents(channels, logs, order) && id in channels
      modifies this`channels, this`logs
      ensures Contents(channels, logs, order) && logs == old(logs)[id := old(logs)[id] + [payload]]
      ensures event == Event(|logs[id]|, payload)
    {
      var channel := channels[id];
      event := Event(channel.last + 1, payload);
      AppendKeepsContents(channels, logs, order, id, payload);
      channels := channels[id := Append(channel, payload)];
      logs := logs[id := logs[id] + [payload]];
    }

    // The event gets the next number of its session's log; a session that was not resident
    // opens a new one. Channels leave only from the front of the order, and the logs of the
    // others stay as they are.
    method Publish(id: Id, payload: Payload) returns (event: Event)
      requires Valid()
      modifies this
      ensures Valid() && recent == Touch(old(recent), id)
      ensures old(HoldsMostRecent()) ==> HoldsMostRecent()
      ensures logs == Logged(old(logs), id, payload, order)
      ensures event == Event(|logs[id]|, payload)
    {
      PublishKeepsOrder(order, recent, id, maxChannels);
      Admit(id);
      event := Record(id, payload);
      recent := Touch(recent, id);
    }

    method Forget(id: Id)
      requires Valid()
      modifies this
      ensures Valid() && recent == Without(old(recent), id)
      ensures channels == old(channels) - {id} && logs == old(logs) - {id}
    {
      ForgetKeepsSuffix(order, recent, id);
      ForgetKeepsContents(channels, logs, order, id);
      WithoutShrinks(order, id);
      WithoutShrinks(recent, id);
      channels, order := channels - {id}, Without(order, id);
      logs, recent := logs - {id}, Without(recent, id);
    }

    // What a subscriber is given: for a resident channel, the suffix of its log after a
    // resume point the buffer still reaches, or all the buffer has; for any other, nothing.
    method EventsSince(id: Id, after: nat) returns (events: seq<Event>, oldest: nat)
      requires Valid()
      ensures id !in channels ==> events == [] && oldest == 0
      ensures id in channels && after + 1 >= oldest ==>
                events == if after <= |logs[id]| then Numbered(logs[id])[after..] else []
      ensures id in channels && after + 1 < oldest ==>
                && oldest == |logs[id]| - BUFFER_SIZE + 1 && |logs[id]| > BUFFER_SIZE
                && events == Numbered(logs[id])[|logs[id]| - BUFFER_SIZE..]
    {
      if id !in channels {
        return [], 0;
      }
      events, oldest := Since(channels[id], after), Oldest(channels[id]);
      if after + 1 >= oldest {
        SinceIsLogSuffix(channels[id], logs[id], after);
      } else {
        SinceSkipsEvicted(channels[id], logs[id], after);
        BufferIsTail(channels[id], logs[id]);
      }
    }
  }
}
