/**
  The prerequisite-graph checker: the walk with an explicit `(node, leaving)` stack, three
  colours and a separate path that `check_concept_graph` runs over the corpus.
*/
module ConceptGraph {
  import opened Base

  // An entry of the explicit stack: a node to enter, or one to leave.
  datatype Entry = Entry(node: Id, leaving: bool)

  // A missing `topic` is modelled as the empty string: the source tests only its truth value.
  datatype Concept = Concept(id: Id, domain: string, topic: string, prereqs: seq<Id>)

  datatype Finding =
    | DuplicateId(id: Id)
    | NoTopic(id: Id)
    | MissingPrereq(id: Id, prereq: Id)
    | OwnPrereq(id: Id)
    | Cycle(walk: seq<Id>)

  datatype Colour = White | Grey | Black

  type Graph = map<Id, Concept>

  // ---------------------------------------------------------------- what the findings mean

  // A prerequisite edge between two concepts that both exist.
  ghost predicate Edge(g: Graph, a: Id, b: Id) {
    a in g && b in g && b in g[a].prereqs
  }

  ghost predicate ClosedWalk(g: Graph, w: seq<Id>) {
    && 2 <= |w|
    && w[0] == w[|w| - 1]
    && forall i :: 0 <= i < |w| - 1 ==> Edge(g, w[i], w[i + 1])
  }

  // A closed walk that repeats no node but its end.
  ghost predicate SimpleCycle(g: Graph, w: seq<Id>) {
    ClosedWalk(g, w) && Distinct(w[..|w| - 1])
  }

  // Every node comes after all of its prerequisites.
  ghost predicate Topological(g: Graph, order: seq<Id>) {
    forall i, m :: 0 <= i < |order| && Edge(g, order[i], m) ==> m in order[..i]
  }

  ghost predicate LastWithId(concepts: seq<Concept>, i: int) {
    0 <= i < |concepts| && forall j :: i < j < |concepts| ==> concepts[j].id != concepts[i].id
  }

  // The dictionary built from the records: the last record of an id wins.
  function ById(concepts: seq<Concept>): Graph {
    if concepts == [] then map[]
    else
      var c := concepts[|concepts| - 1];
      ById(concepts[..|concepts| - 1])[c.id := c]
  }

  lemma {:induction false} LastRecordWins(concepts: seq<Concept>, i: int)
    requires LastWithId(concepts, i)
    ensures concepts[i].id in ById(concepts) && ById(concepts)[concepts[i].id] == concepts[i]
  {
    var last := |concepts| - 1;
    if i < last {
      assert concepts[last].id != concepts[i].id;
      LastRecordWins(concepts[..last], i);
    }
  }

  lemma {:induction false} KeysAreRecorded(concepts: seq<Concept>, id: Id)
    ensures id in ById(concepts) <==> exists i :: 0 <= i < |concepts| && concepts[i].id == id
  {
    if concepts != [] {
      var last := |concepts| - 1;
      KeysAreRecorded(concepts[..last], id);
      if id in ById(concepts[..last]) {
        var i :| 0 <= i < last && concepts[..last][i].id == id;
        assert concepts[i].id == id;
      }
      if i :| 0 <= i < |concepts| && concepts[i].id == id {
        assert i < last ==> concepts[..last][i].id == id;
      }
    }
  }

  ghost predicate OccursTwice(concepts: seq<Concept>, id: Id) {
    exists i, j :: 0 <= i < j < |concepts| && concepts[i].id == concepts[j].id == id
  }

  // What each finding other than a cycle says about the records.
  ghost predicate Fault(concepts: seq<Concept>, g: Graph, f: Finding) {
    match f
    case DuplicateId(id) => OccursTwice(concepts, id)
    case NoTopic(id) => id in g && g[id].domain == "coding" && g[id].topic == ""
    case MissingPrereq(id, prereq) => id in g && prereq in g[id].prereqs && prereq !in g
    case OwnPrereq(id) => Edge(g, id, id)
    case Cycle(_) => false
  }

  // The first position of `n` in `s`, as Python's `list.index` finds it.
  function IndexOf(s: seq<Id>, n: Id): (i: nat)
    requires n in s
    ensures i < |s| && s[i] == n && n !in s[..i]
  {
    if s[0] == n then 0
    else
      var rest := IndexOf(s[1..], n);
      assert s[..1 + rest] == [s[0]] + s[1..][..rest];
      1 + rest
  }

  // Along a walk the position in a topological order falls at every step.
  lemma {:induction false} PositionFalls(g: Graph, order: seq<Id>, w: seq<Id>, k: nat)
    requires Topological(g, order) && ClosedWalk(g, w) && k < |w|
    requires forall n :: n in g ==> n in order
    ensures w[k] in order && w[0] in order && IndexOf(order, w[k]) + k <= IndexOf(order, w[0])
  {
    if k == 0 {
      assert Edge(g, w[0], w[1]);
    } else {
      PositionFalls(g, order, w, k - 1);
      assert Edge(g, w[k - 1], w[k]);
      var p := IndexOf(order, w[k - 1]);
      assert w[k] in order[..p];
    }
  }

  lemma {:induction false} TopologicalMeansAcyclic(g: Graph, order: seq<Id>)
    requires Topological(g, order) && forall n :: n in g ==> n in order
    ensures forall w :: !ClosedWalk(g, w)
  {
    forall w ensures !ClosedWalk(g, w) {
      if ClosedWalk(g, w) {
        PositionFalls(g, order, w, |w| - 1);
      }
    }
  }

  // ---------------------------------------------------------------- the walk's invariant

  // Stack position `k` lies above the leaving entry of path node `j` and below the next one.
  ghost predicate InSegment(pos: seq<nat>, n: nat, j: int, k: int) {
    0 <= j < |pos| && pos[j] < k < (if j + 1 < |pos| then pos[j + 1] else n)
  }

  // The stack holds one leaving entry for each path node, in path order, and between two of
  // them only entries that the lower one pushed. `pos` says where the leaving entries are.
  ghost predicate StackMatchesPath(g: Graph, stack: seq<Entry>, path: seq<Id>, pos: seq<nat>) {
    && |pos| == |path|
    && (forall j :: 0 <= j < |pos| ==> pos[j] < |stack| && stack[pos[j]] == Entry(path[j], true))
    && (forall i, j :: 0 <= i < j < |pos| ==> pos[i] < pos[j])
    && (path == [] ==> |stack| <= 1 && (stack != [] ==> !stack[0].leaving && stack[0].node in g))
    && (path != [] ==> pos[0] == 0)
    && (forall j, k :: InSegment(pos, |stack|, j, k) ==>
              k < |stack| && !stack[k].leaving && Edge(g, path[j], stack[k].node))
  }

  ghost predicate PathIsGrey(g: Graph, colour: map<Id, Colour>, path: seq<Id>) {
    && colour.Keys == g.Keys
    && Distinct(path)
    && (forall n :: n in path ==> n in g)
    && (forall n :: n in g ==> (colour[n] == Grey <==> n in path))
    && (forall i :: 0 <= i < |path| - 1 ==> Edge(g, path[i], path[i + 1]))
  }

  ghost predicate Pending(stack: seq<Entry>, pos: seq<nat>, j: int, m: Id) {
    exists k :: InSegment(pos, |stack|, j, k) && k < |stack| && stack[k].node == m
  }

  // `m` was entered from path node `j`.
  ghost predicate BeingWalked(path: seq<Id>, j: int, m: Id) {
    0 <= j < |path| - 1 && path[j + 1] == m
  }

  // A prerequisite of an unfinished node is finished, still to be popped, or being walked.
  ghost predicate Covered(g: Graph, colour: map<Id, Colour>, stack: seq<Entry>, path: seq<Id>, pos: seq<nat>)
    requires colour.Keys == g.Keys
  {
    forall j, m :: 0 <= j < |path| && Edge(g, path[j], m) ==>
      colour[m] == Black || Pending(stack, pos, j, m) || BeingWalked(path, j, m)
  }

  ghost predicate OrderIsBlack(g: Graph, colour: map<Id, Colour>, order: seq<Id>)
    requires colour.Keys == g.Keys
  {
    forall n :: n in g ==> (colour[n] == Black <==> n in order)
  }

  ghost predicate NoCycleReported(findings: seq<Finding>) {
    forall f :: f in findings ==> !f.Cycle?
  }

  ghost predicate ReportsAreCycles(g: Graph, findings: seq<Finding>) {
    forall f :: f in findings && f.Cycle? ==> SimpleCycle(g, f.walk)
  }

  ghost predicate WalkInvariant(g: Graph, colour: map<Id, Colour>, stack: seq<Entry>,
                                path: seq<Id>, pos: seq<nat>, order: seq<Id>, findings: seq<Finding>)
  {
    && StackMatchesPath(g, stack, path, pos)
    && PathIsGrey(g, colour, path)
    && OrderIsBlack(g, colour, order)
    && ReportsAreCycles(g, findings)
    && (NoCycleReported(findings) ==> Covered(g, colour, stack, path, pos) && Topological(g, order))
  }

  ghost function WhiteNodes(g: Graph, colour: map<Id, Colour>): set<Id>
    requires colour.Keys == g.Keys
  {
    set n | n in g && colour[n] == White
  }

  // Entering a node is what makes the walk terminate: it leaves the white nodes for good.
  lemma ColouringShrinksWhite(g: Graph, colour: map<Id, Colour>, n: Id, c: Colour)
    requires colour.Keys == g.Keys && n in g && c != White
    ensures colour[n] == White ==> WhiteNodes(g, colour[n := c]) < WhiteNodes(g, colour)
    ensures colour[n] != White ==> WhiteNodes(g, colour[n := c]) == WhiteNodes(g, colour)
  {
    assert n !in WhiteNodes(g, colour[n := c]);
    if colour[n] == White {
      assert n in WhiteNodes(g, colour);
    }
  }

  // ---------------------------------------------------------------- one lemma for each branch

  // A leaving entry on top belongs to the last path node.
  lemma LeaveKeepsShape(g: Graph, stack: seq<Entry>, path: seq<Id>, pos: seq<nat>)
    requires stack != [] && stack[|stack| - 1].leaving
    requires StackMatchesPath(g, stack, path, pos)
    ensures path != [] && path[|path| - 1] == stack[|stack| - 1].node && pos[|pos| - 1] == |stack| - 1
    ensures StackMatchesPath(g, stack[..|stack| - 1], path[..|path| - 1], pos[..|pos| - 1])
  {
    var top, last := |stack| - 1, |pos| - 1;
    assert !InSegment(pos, |stack|, last, top);
    var stack', path', pos' := stack[..top], path[..last], pos[..last];
    forall j, k | InSegment(pos', |stack'|, j, k)
      ensures k < |stack'| && !stack'[k].leaving && Edge(g, path'[j], stack'[k].node)
    {
      assert InSegment(pos, |stack|, j, k);
    }
  }

  // Nothing is pending above a leaving entry on top: what it needs is finished already.
  lemma LeaveIsTopological(g: Graph, colour: map<Id, Colour>, stack: seq<Entry>,
                           path: seq<Id>, pos: seq<nat>, order: seq<Id>)
    requires StackMatchesPath(g, stack, path, pos) && PathIsGrey(g, colour, path)
    requires path != [] && pos[|pos| - 1] == |stack| - 1
    requires OrderIsBlack(g, colour, order)
    requires Covered(g, colour, stack, path, pos) && Topological(g, order)
    ensures Topological(g, order + [path[|path| - 1]])
  {
    var last := |path| - 1;
    forall m | Edge(g, path[last], m) ensures m in order {
      assert !Pending(stack, pos, last, m);
    }
    var order' := order + [path[last]];
    forall i, m | 0 <= i < |order'| && Edge(g, order'[i], m) ensures m in order'[..i] {
      assert order'[..i] == order[..i];
    }
  }

  lemma LeaveKeepsCover(g: Graph, colour: map<Id, Colour>, stack: seq<Entry>, path: seq<Id>, pos: seq<nat>)
    requires StackMatchesPath(g, stack, path, pos) && PathIsGrey(g, colour, path)
    requires path != [] && pos[|pos| - 1] == |stack| - 1
    requires Covered(g, colour, stack, path, pos)
    ensures Covered(g, colour[path[|path| - 1] := Black], stack[..|stack| - 1],
                    path[..|path| - 1], pos[..|pos| - 1])
  {
    var last := |path| - 1;
    var node := path[last];
    var stack', path', pos', colour' :=
      stack[..|stack| - 1], path[..last], pos[..last], colour[node := Black];
    forall j, m | 0 <= j < |path'| && Edge(g, path'[j], m)
      ensures colour'[m] == Black || Pending(stack', pos', j, m) || BeingWalked(path', j, m)
    {
      assert path'[j] == path[j];
      if colour[m] != Black && m != node && Pending(stack, pos, j, m) {
        var k :| InSegment(pos, |stack|, j, k) && k < |stack| && stack[k].node == m;
        assert InSegment(pos', |stack'|, j, k);
      }
    }
  }

  lemma LeaveKeeps(g: Graph, colour: map<Id, Colour>, stack: seq<Entry>,
                   path: seq<Id>, pos: seq<nat>, order: seq<Id>, findings: seq<Finding>)
    requires stack != [] && stack[|stack| - 1].leaving
    requires WalkInvariant(g, colour, stack, path, pos, order, findings)
    ensures path != [] && path[|path| - 1] == stack[|stack| - 1].node && stack[|stack| - 1].node in g
    ensures WalkInvariant(g, colour[stack[|stack| - 1].node := Black], stack[..|stack| - 1],
                          path[..|path| - 1], pos[..|pos| - 1],
                          order + [stack[|stack| - 1].node], findings)
  {
    LeaveKeepsShape(g, stack, path, pos);
    if NoCycleReported(findings) {
      LeaveIsTopological(g, colour, stack, path, pos, order);
      LeaveKeepsCover(g, colour, stack, path, pos);
    }
    var path' := path[..|path| - 1];
    assert forall n :: n in path' <==> n in path && n != path[|path| - 1];
    assert forall i :: 0 <= i < |path'| ==> path'[i] == path[i];
  }

  // The entry on top is dropped; only its own node loses a pending entry.
  lemma DropKeepsShape(g: Graph, stack: seq<Entry>, path: seq<Id>, pos: seq<nat>)
    requires stack != [] && !stack[|stack| - 1].leaving
    requires StackMatchesPath(g, stack, path, pos)
    ensures stack[|stack| - 1].node in g
    ensures path != [] ==> Edge(g, path[|path| - 1], stack[|stack| - 1].node)
    ensures StackMatchesPath(g, stack[..|stack| - 1], path, pos)
  {
    var top, last := |stack| - 1, |pos| - 1;
    var stack' := stack[..top];
    if path != [] {
      assert InSegment(pos, |stack|, last, top);
    }
    forall j, k | InSegment(pos, |stack'|, j, k)
      ensures k < |stack'| && !stack'[k].leaving && Edge(g, path[j], stack'[k].node)
    {
      assert InSegment(pos, |stack|, j, k);
    }
  }

  lemma SkipKeeps(g: Graph, colour: map<Id, Colour>, stack: seq<Entry>,
                  path: seq<Id>, pos: seq<nat>, order: seq<Id>, findings: seq<Finding>)
    requires stack != [] && !stack[|stack| - 1].leaving
    requires WalkInvariant(g, colour, stack, path, pos, order, findings)
    requires stack[|stack| - 1].node in g && colour[stack[|stack| - 1].node] == Black
    ensures WalkInvariant(g, colour, stack[..|stack| - 1], path, pos, order, findings)
  {
    DropKeepsShape(g, stack, path, pos);
    var stack' := stack[..|stack| - 1];
    if NoCycleReported(findings) {
      forall j, m | 0 <= j < |path| && Edge(g, path[j], m)
        ensures colour[m] == Black || Pending(stack', pos, j, m) || BeingWalked(path, j, m)
      {
        if Pending(stack, pos, j, m) && colour[m] != Black {
          var k :| InSegment(pos, |stack|, j, k) && k < |stack| && stack[k].node == m;
          assert InSegment(pos, |stack'|, j, k);
        }
      }
    }
  }

  // The entry on top names a node on the path: what is reported is a simple cycle.
  lemma GreyIsCycle(g: Graph, colour: map<Id, Colour>, stack: seq<Entry>, path: seq<Id>, pos: seq<nat>)
    requires stack != [] && !stack[|stack| - 1].leaving
    requires StackMatchesPath(g, stack, path, pos) && PathIsGrey(g, colour, path)
    requires stack[|stack| - 1].node in g && colour[stack[|stack| - 1].node] == Grey
    ensures var node := stack[|stack| - 1].node;
            node in path && SimpleCycle(g, path[IndexOf(path, node)..] + [node])
  {
    DropKeepsShape(g, stack, path, pos);
    var node := stack[|stack| - 1].node;
    var i := IndexOf(path, node);
    var w := path[i..] + [node];
    assert w[0] == path[i];
    forall k | 0 <= k < |w| - 1 ensures Edge(g, w[k], w[k + 1]) {
      assert w[k] == path[i + k];
      if k < |w| - 2 {
        assert w[k + 1] == path[i + k + 1];
      }
    }
    SuffixIsDistinct(path, i);
    assert w[..|w| - 1] == path[i..];
  }

  lemma SuffixIsDistinct(s: seq<Id>, i: nat)
    requires Distinct(s) && i <= |s|
    ensures Distinct(s[i..])
  {
    forall a, b | 0 <= a < b < |s[i..]| ensures s[i..][a] != s[i..][b] {
      assert s[i..][a] == s[i + a] && s[i..][b] == s[i + b];
    }
  }

  lemma ReportKeeps(g: Graph, colour: map<Id, Colour>, stack: seq<Entry>, path: seq<Id>, pos: seq<nat>,
                    order: seq<Id>, findings: seq<Finding>)
    requires stack != [] && !stack[|stack| - 1].leaving
    requires WalkInvariant(g, colour, stack, path, pos, order, findings)
    requires stack[|stack| - 1].node in g && colour[stack[|stack| - 1].node] == Grey
    ensures stack[|stack| - 1].node in path
    ensures var node := stack[|stack| - 1].node;
            WalkInvariant(g, colour, stack[..|stack| - 1], path, pos, order,
                          findings + [Cycle(path[IndexOf(path, node)..] + [node])])
  {
    DropKeepsShape(g, stack, path, pos);
    GreyIsCycle(g, colour, stack, path, pos);
    var node := stack[|stack| - 1].node;
    var findings' := findings + [Cycle(path[IndexOf(path, node)..] + [node])];
    assert findings'[|findings|].Cycle? && findings'[|findings|] in findings';
  }

  // The entry on top is entered: its node becomes the last path node, and the entries
  // `pushed` for those of its prerequisites that are not finished go above it.
  lemma EnterKeepsShape(g: Graph, stack: seq<Entry>, path: seq<Id>, pos: seq<nat>, pushed: seq<Entry>)
    requires stack != [] && !stack[|stack| - 1].leaving
    requires StackMatchesPath(g, stack, path, pos)
    requires forall k :: 0 <= k < |pushed| ==> !pushed[k].leaving && Edge(g, stack[|stack| - 1].node, pushed[k].node)
    ensures path != [] ==> pos[|pos| - 1] < |stack| - 1 && Edge(g, path[|path| - 1], stack[|stack| - 1].node)
    ensures var top := |stack| - 1; var node := stack[top].node;
            StackMatchesPath(g, stack[..top] + [Entry(node, true)] + pushed, path + [node], pos + [top])
  {
    var top, last := |stack| - 1, |pos| - 1;
    var node := stack[top].node;
    var stack', path', pos' := stack[..top] + [Entry(node, true)] + pushed, path + [node], pos + [top];
    if path != [] {
      assert InSegment(pos, |stack|, last, top);
    }
    forall j, k | InSegment(pos', |stack'|, j, k)
      ensures k < |stack'| && !stack'[k].leaving && Edge(g, path'[j], stack'[k].node)
    {
      if j < |pos| {
        assert InSegment(pos, |stack|, j, k);
        assert stack'[k] == stack[k];
      } else {
        assert stack'[k] == pushed[k - top - 1];
      }
    }
  }

  lemma EnterKeepsPending(stack: seq<Entry>, pos: seq<nat>, pushed: seq<Entry>, j: int, m: Id)
    requires stack != [] && (pos != [] ==> pos[|pos| - 1] < |stack| - 1) && Pending(stack, pos, j, m)
    requires forall a, b :: 0 <= a < b < |pos| ==> pos[a] < pos[b]
    requires !(j == |pos| - 1 && m == stack[|stack| - 1].node)
    ensures var top := |stack| - 1;
            Pending(stack[..top] + [Entry(stack[top].node, true)] + pushed, pos + [top], j, m)
  {
    var top := |stack| - 1;
    var stack', pos' := stack[..top] + [Entry(stack[top].node, true)] + pushed, pos + [top];
    var k :| InSegment(pos, |stack|, j, k) && k < |stack| && stack[k].node == m;
    assert k < top;
    assert InSegment(pos', |stack'|, j, k) && stack'[k] == stack[k];
  }

  lemma PushedArePending(stack: seq<Entry>, pos: seq<nat>, top: nat, node: Id, pushed: seq<Entry>, m: Id)
    requires top <= |stack| && Entry(m, false) in pushed
    ensures Pending(stack[..top] + [Entry(node, true)] + pushed, pos + [top], |pos|, m)
  {
    var stack', pos' := stack[..top] + [Entry(node, true)] + pushed, pos + [top];
    var k :| 0 <= k < |pushed| && pushed[k] == Entry(m, false);
    assert stack'[top + 1 + k] == pushed[k];
    assert InSegment(pos', |stack'|, |pos|, top + 1 + k);
  }

  lemma EnterKeepsCover(g: Graph, colour: map<Id, Colour>, stack: seq<Entry>, path: seq<Id>, pos: seq<nat>,
                        pushed: seq<Entry>)
    requires |pos| == |path| && colour.Keys == g.Keys
    requires forall a, b :: 0 <= a < b < |pos| ==> pos[a] < pos[b]
    requires stack != [] && (pos != [] ==> pos[|pos| - 1] < |stack| - 1)
    requires stack[|stack| - 1].node in g && colour[stack[|stack| - 1].node] == White
    requires Covered(g, colour, stack, path, pos)
    requires forall m :: Edge(g, stack[|stack| - 1].node, m) && colour[m] != Black ==> Entry(m, false) in pushed
    ensures var top := |stack| - 1; var node := stack[top].node;
            Covered(g, colour[node := Grey], stack[..top] + [Entry(node, true)] + pushed, path + [node], pos + [top])
  {
    var top := |stack| - 1;
    var node := stack[top].node;
    var stack', path', pos', colour' :=
      stack[..top] + [Entry(node, true)] + pushed, path + [node], pos + [top], colour[node := Grey];
    forall j, m | 0 <= j < |path'| && Edge(g, path'[j], m)
      ensures colour'[m] == Black || Pending(stack', pos', j, m) || BeingWalked(path', j, m)
    {
      if j == |path| {
        if colour[m] != Black { PushedArePending(stack, pos, top, node, pushed, m); }
      } else {
        assert path'[j] == path[j] && Edge(g, path[j], m);
        if j == |path| - 1 && m == node {
          assert BeingWalked(path', j, m);
        } else if Pending(stack, pos, j, m) {
          EnterKeepsPending(stack, pos, pushed, j, m);
        } else if BeingWalked(path, j, m) {
          assert BeingWalked(path', j, m);
        }
      }
    }
  }

  lemma EnterKeeps(g: Graph, colour: map<Id, Colour>, stack: seq<Entry>, path: seq<Id>, pos: seq<nat>,
                   order: seq<Id>, findings: seq<Finding>, pushed: seq<Entry>)
    requires stack != [] && !stack[|stack| - 1].leaving
    requires WalkInvariant(g, colour, stack, path, pos, order, findings)
    requires stack[|stack| - 1].node in g && colour[stack[|stack| - 1].node] == White
    requires forall k :: 0 <= k < |pushed| ==> !pushed[k].leaving && Edge(g, stack[|stack| - 1].node, pushed[k].node)
    requires forall m :: Edge(g, stack[|stack| - 1].node, m) && colour[m] != Black ==> Entry(m, false) in pushed
    ensures var top := |stack| - 1; var node := stack[top].node;
            WalkInvariant(g, colour[node := Grey], stack[..top] + [Entry(node, true)] + pushed,
                          path + [node], pos + [top], order, findings)
  {
    EnterKeepsShape(g, stack, path, pos, pushed);
    if NoCycleReported(findings) {
      EnterKeepsCover(g, colour, stack, path, pos, pushed);
    }
    var node := stack[|stack| - 1].node;
    var path' := path + [node];
    assert forall n :: n in path' <==> n in path || n == node;
  }

  lemma StartKeeps(g: Graph, colour: map<Id, Colour>, start: Id, order: seq<Id>, findings: seq<Finding>)
    requires WalkInvariant(g, colour, [], [], [], order, findings) && start in g
    ensures WalkInvariant(g, colour, [Entry(start, false)], [], [], order, findings)
  {
  }

  // With nothing left on the stack there is nothing left on the path.
  lemma WalkShape(g: Graph, colour: map<Id, Colour>, stack: seq<Entry>, path: seq<Id>, pos: seq<nat>,
                  order: seq<Id>, findings: seq<Finding>)
    requires WalkInvariant(g, colour, stack, path, pos, order, findings)
    ensures colour.Keys == g.Keys && (stack == [] ==> path == [] && pos == [])
  {
  }

  // The node the walk started from is left last.
  lemma StartLeavesLast(g: Graph, colour: map<Id, Colour>, stack: seq<Entry>, path: seq<Id>, pos: seq<nat>,
                        order: seq<Id>, findings: seq<Finding>)
    requires WalkInvariant(g, colour, stack, path, pos, order, findings)
    requires stack != [] && stack[|stack| - 1].leaving
    ensures path != [] && (|path| == 1 ==> |stack| == 1)
  {
    LeaveKeepsShape(g, stack, path, pos);
  }

  // ---------------------------------------------------------------- the checker

  // The inner loop of the walk: the entries to push above a node just entered.
  method UnfinishedPrereqs(g: Graph, node: Id, colour: map<Id, Colour>) returns (pushed: seq<Entry>)
    requires node in g && colour.Keys == g.Keys
    ensures forall k :: 0 <= k < |pushed| ==> !pushed[k].leaving && Edge(g, node, pushed[k].node)
    ensures forall m :: Edge(g, node, m) && colour[m] != Black ==> Entry(m, false) in pushed
  {
    var prereqs := g[node].prereqs;
    pushed := [];
    for i := 0 to |prereqs|
      invariant forall k :: 0 <= k < |pushed| ==> !pushed[k].leaving && Edge(g, node, pushed[k].node)
      invariant forall m :: m in g && m in prereqs[..i] && colour[m] != Black ==> Entry(m, false) in pushed
    {
      var pre := prereqs[i];
      if pre in g && colour[pre] != Black {
        pushed := pushed + [Entry(pre, false)];
      }
    }
    assert prereqs[..|prereqs|] == prereqs;
  }

  // `colour` and `findings` are what the inner function `walk` shares with the function
  // around it, `stack` and `path` its own variables; `finished` lists the nodes in the
  // order they were blackened, and `pos` where the path's leaving entries are.
  class Checker {
    const graph: Graph
    var colour: map<Id, Colour>
    var findings: seq<Finding>
    var stack: seq<Entry>
    var path: seq<Id>
    ghost var pos: seq<nat>
    ghost var finished: seq<Id>

    ghost predicate Walking()
      reads this
    {
      WalkInvariant(graph, colour, stack, path, pos, finished, findings)
    }

    ghost predicate Valid()
      reads this
    {
      Walking() && stack == [] && path == []
    }

    constructor (g: Graph, found: seq<Finding>)
      requires NoCycleReported(found)
      ensures Valid() && graph == g && findings == found
      ensures forall n :: n in graph ==> colour[n] == White
    {
      graph, findings, finished, stack, path, pos := g, found, [], [], [], [];
      colour := map n | n in g :: White;
    }

    // The branch for an entry that leaves its node.
    method Leave()
      requires Walking() && stack != [] && stack[|stack| - 1].leaving
      modifies this
      ensures Walking() && findings == old(findings)
      ensures stack == old(stack[..|stack| - 1]) && old(path) == path + [old(stack[|stack| - 1].node)]
      ensures finished == old(finished) + [old(stack[|stack| - 1].node)]
      ensures WhiteNodes(graph, colour) == old(WhiteNodes(graph, colour))
    {
      var top := |stack| - 1;
      var node := stack[top].node;
      LeaveKeeps(graph, colour, stack, path, pos, finished, findings);
      ColouringShrinksWhite(graph, colour, node, Black);
      stack, colour := stack[..top], colour[node := Black];
      path, pos := path[..|path| - 1], pos[..|pos| - 1];
      finished := finished + [node];
    }

    // The branches for an entry that is to be entered: its node is finished, on the path, or new.
    method Skip()
      requires Walking() && stack != [] && !stack[|stack| - 1].leaving
      requires stack[|stack| - 1].node in graph && colour[stack[|stack| - 1].node] == Black
      modifies this`stack
      ensures Walking() && stack == old(stack[..|stack| - 1])
    {
      SkipKeeps(graph, colour, stack, path, pos, finished, findings);
      stack := stack[..|stack| - 1];
    }

    method Report()
      requires Walking() && stack != [] && !stack[|stack| - 1].leaving
      requires stack[|stack| - 1].node in graph && colour[stack[|stack| - 1].node] == Grey
      modifies this`stack, this`findings
      ensures Walking() && stack == old(stack[..|stack| - 1])
      ensures |findings| == |old(findings)| + 1 && old(findings) <= findings && findings[|old(findings)|].Cycle?
    {
      var top := |stack| - 1;
      var node := stack[top].node;
      ReportKeeps(graph, colour, stack, path, pos, finished, findings);
      findings := findings + [Cycle(path[IndexOf(path, node)..] + [node])];
      stack := stack[..top];
    }

    method Visit()
      requires Walking() && stack != [] && !stack[|stack| - 1].leaving
      modifies this
      ensures Walking() && finished == old(finished)
      ensures old(findings) <= findings
      ensures forall i :: |old(findings)| <= i < |findings| ==> findings[i].Cycle?
      ensures path == old(path) || path == old(path) + [old(stack[|stack| - 1].node)]
      ensures old(stack[|stack| - 1].node in colour && colour[stack[|stack| - 1].node] == White) ==>
                path == old(path) + [old(stack[|stack| - 1].node)]
      ensures WhiteNodes(graph, colour) < old(WhiteNodes(graph, colour))
              || (WhiteNodes(graph, colour) == old(WhiteNodes(graph, colour)) && |stack| < |old(stack)|)
    {
      hide StackMatchesPath, OrderIsBlack, ReportsAreCycles, NoCycleReported, Covered, Topological, WhiteNodes;
      var node := stack[|stack| - 1].node;
      DropKeepsShape(graph, stack, path, pos);
      if colour[node] == Black {
        Skip();
      } else if colour[node] == Grey {
        Report();
      } else {
        Enter(node);
      }
    }

    method Enter(node: Id)
      requires Walking() && stack != [] && stack[|stack| - 1] == Entry(node, false)
      requires node in graph && colour[node] == White
      modifies this
      ensures Walking() && finished == old(finished) && findings == old(findings)
      ensures path == old(path) + [node]
      ensures WhiteNodes(graph, colour) < old(WhiteNodes(graph, colour))
    {
      var top := |stack| - 1;
      var colour' := colour[node := Grey];
      var pushed := UnfinishedPrereqs(graph, node, colour');
      EnterKeeps(graph, colour, stack, path, pos, finished, findings, pushed);
      ColouringShrinksWhite(graph, colour, node, Grey);
      colour := colour';
      path, pos := path + [node], pos + [top];
      stack := stack[..top] + [Entry(node, true)] + pushed;
    }

    method Walk(start: Id)
      requires Valid() && start in graph && colour[start] == White
      modifies this
      ensures Valid()
      ensures old(findings) <= findings
      ensures forall i :: |old(findings)| <= i < |findings| ==> findings[i].Cycle?
      ensures old(finished) <= finished && start in finished
    {
      hide WalkInvariant, WhiteNodes;
      WalkShape(graph, colour, stack, path, pos, finished, findings);
      StartKeeps(graph, colour, start, finished, findings);
      stack, path, pos := [Entry(start, false)], [], [];
      WalkShape(graph, colour, stack, path, pos, finished, findings);
      while stack != []
        invariant Walking() && colour.Keys == graph.Keys
        invariant old(findings) <= findings
        invariant forall i :: |old(findings)| <= i < |findings| ==> findings[i].Cycle?
        invariant old(finished) <= finished
        invariant if path != [] then path[0] == start
                  else (stack == [] && start in finished) ||
                       (stack == [Entry(start, false)] && start in colour && colour[start] == White)
        decreases WhiteNodes(graph, colour), |stack|
      {
        if stack[|stack| - 1].leaving {
          StartLeavesLast(graph, colour, stack, path, pos, finished, findings);
          Leave();
        } else {
          Visit();
        }
        WalkShape(graph, colour, stack, path, pos, finished, findings);
      }
      WalkShape(graph, colour, stack, path, pos, finished, findings);
    }
  }

  // ---------------------------------------------------------------- check_concept_graph

  lemma DuplicatesGrow(before: seq<Concept>, c: Concept, id: Id)
    ensures OccursTwice(before + [c], id) <==> OccursTwice(before, id) || (id == c.id && id in ById(before))
  {
    var after := before + [c];
    KeysAreRecorded(before, id);
    if OccursTwice(before, id) {
      var i, j :| 0 <= i < j < |before| && before[i].id == before[j].id == id;
      assert after[i].id == after[j].id == id;
    } else if id == c.id && id in ById(before) {
      var i :| 0 <= i < |before| && before[i].id == id;
      assert after[i].id == after[|before|].id == id;
    }
  }

  // The first loop: the dictionary, its keys in insertion order, and the duplicates.
  method LoadConcepts(concepts: seq<Concept>) returns (keys: seq<Id>, byId: Graph, findings: seq<Finding>)
    ensures byId == ById(concepts)
    ensures forall id :: id in keys <==> id in byId
    ensures forall f :: f in findings <==> f.DuplicateId? && OccursTwice(concepts, f.id)
  {
    keys, byId, findings := [], map[], [];
    for n := 0 to |concepts|
      invariant byId == ById(concepts[..n])
      invariant forall id :: id in keys <==> id in byId
      invariant forall f :: f in findings <==> f.DuplicateId? && OccursTwice(concepts[..n], f.id)
    {
      var c := concepts[n];
      ghost var before, after := concepts[..n], concepts[..n + 1];
      assert after == before + [c] && after[..n] == before;
      forall id {
        DuplicatesGrow(before, c, id);
      }
      if c.id in byId {
        findings := findings + [DuplicateId(c.id)];
      } else {
        keys := keys + [c.id];
      }
      byId := byId[c.id := c];
    }
    assert concepts[..|concepts|] == concepts;
  }

  // The second loop, over one concept's own attributes and prerequisites.
  method CheckAttributes(g: Graph, id: Id) returns (findings: seq<Finding>)
    requires id in g
    ensures forall f :: f in findings <==>
              !f.DuplicateId? && !f.Cycle? && f.id == id && Fault([], g, f)
  {
    findings := [];
    var c := g[id];
    if c.domain == "coding" && c.topic == "" {
      findings := [NoTopic(id)];
    }
    for i := 0 to |c.prereqs|
      invariant forall f :: f in findings <==>
                  match f
                  case NoTopic(x) => x == id && c.domain == "coding" && c.topic == ""
                  case MissingPrereq(x, p) => x == id && p in c.prereqs[..i] && p !in g
                  case OwnPrereq(x) => x == id && id in c.prereqs[..i]
                  case _ => false
    {
      var pre := c.prereqs[i];
      assert c.prereqs[..i + 1] == c.prereqs[..i] + [pre];
      if pre !in g {
        findings := findings + [MissingPrereq(id, pre)];
      } else if pre == id {
        findings := findings + [OwnPrereq(id)];
      }
    }
    assert c.prereqs[..|c.prereqs|] == c.prereqs;
  }

  // Both loops that come before the walk.
  method StructuralFindings(concepts: seq<Concept>) returns (keys: seq<Id>, g: Graph, found: seq<Finding>)
    ensures g == ById(concepts)
    ensures forall id :: id in keys <==> id in g
    ensures forall f :: f in found <==> Fault(concepts, g, f)
  {
    keys, g, found := LoadConcepts(concepts);
    for i := 0 to |keys|
      invariant forall f :: f in found <==>
                  !f.Cycle? && Fault(concepts, g, f) && (f.DuplicateId? || f.id in keys[..i])
    {
      assert keys[..i + 1] == keys[..i] + [keys[i]];
      assert keys[i] in keys;
      var more := CheckAttributes(g, keys[i]);
      found := found + more;
    }
    assert keys[..|keys|] == keys;
  }

  // The third loop: every node still white starts a walk.
  method CycleFindings(keys: seq<Id>, g: Graph, found: seq<Finding>)
    returns (findings: seq<Finding>, ghost order: seq<Id>)
    requires NoCycleReported(found)
    requires forall id :: id in keys <==> id in g
    ensures forall f :: f in findings && !f.Cycle? <==> f in found
    ensures ReportsAreCycles(g, findings)
    ensures NoCycleReported(findings) ==> Topological(g, order) && forall n :: n in g ==> n in order
  {
    hide SimpleCycle, Covered, StackMatchesPath, Topological;
    var checker := new Checker(g, found);
    for i := 0 to |keys|
      invariant checker.Valid() && checker.graph == g && fresh(checker)
      invariant found <= checker.findings
      invariant forall j :: |found| <= j < |checker.findings| ==> checker.findings[j].Cycle?
      invariant forall n :: n in keys[..i] ==> n in checker.finished
    {
      assert keys[..i + 1] == keys[..i] + [keys[i]];
      assert keys[i] in keys;
      if checker.colour[keys[i]] == White {
        checker.Walk(keys[i]);
      } else {
        assert checker.colour[keys[i]] == Black;
      }
    }
    findings, order := checker.findings, checker.finished;
  }

  // Everything the checker promises: every structural fault is reported and nothing else is;
  // a cycle is reported exactly when the existing-node subgraph has one; every reported
  // cycle is a simple closed walk; and with none reported `order` sorts the graph.
  method CheckConceptGraph(concepts: seq<Concept>) returns (findings: seq<Finding>, ghost order: seq<Id>)
    ensures forall f :: f in findings && !f.Cycle? <==> Fault(concepts, ById(concepts), f)
    ensures forall f :: f in findings && f.Cycle? ==> SimpleCycle(ById(concepts), f.walk)
    ensures (exists f :: f in findings && f.Cycle?) <==> (exists w :: ClosedWalk(ById(concepts), w))
    ensures NoCycleReported(findings) ==>
              Topological(ById(concepts), order) && forall n :: n in ById(concepts) ==> n in order
  {
    var keys, g, found := StructuralFindings(concepts);
    findings, order := CycleFindings(keys, g, found);
    if NoCycleReported(findings) {
      TopologicalMeansAcyclic(g, order);
    } else {
      var f :| f in findings && f.Cycle?;
      assert ClosedWalk(g, f.walk);
    }
  }
}
