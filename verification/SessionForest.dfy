/** Session trees: the worklist walks that collect a subtree and a stop set, and the boot pass
    that finishes interrupted stops over the whole forest. */
module SessionForest {

  datatype Status = Active | Suspended | Completed | Stopping | Stopped | Terminating | Killed | Errored

  /** `parent` and `root` are 0 for a root session, as stored. */
  datatype Session = Session(parent: int, root: int, killed: bool, status: Status)

  type Sessions = map<int, Session>

  datatype Tree = Tree(byId: Sessions, children: map<int, seq<int>>)

  function RootOf(all: Sessions, id: int): int
    requires id in all
  {
    if all[id].root != 0 then all[id].root else id
  }

  predicate StopActive(s: Status) { s == Active || s == Suspended || s == Stopping || s == Stopped }

  function Kids(t: Tree, id: int): seq<int> { if id in t.children then t.children[id] else [] }

  predicate ValidTree(t: Tree) {
    forall id | id in t.children :: forall i | 0 <= i < |t.children[id]| :: t.children[id][i] in t.byId
  }

  predicate Distinct(s: seq<int>) { forall i, j | 0 <= i < j < |s| :: s[i] != s[j] }

  /** A step down the tree; with `live` set it may not enter a killed session. */
  predicate Edge(t: Tree, live: bool, a: int, b: int) {
    b in Kids(t, a) && b in t.byId && (live ==> !t.byId[b].killed)
  }

  ghost predicate Walk(t: Tree, live: bool, p: seq<int>, a: int, b: int) {
    && |p| > 0 && p[0] == a && p[|p| - 1] == b
    && forall i | 0 <= i < |p| - 1 :: Edge(t, live, p[i], p[i + 1])
  }

  ghost predicate Reaches(t: Tree, live: bool, a: int, b: int) { exists p: seq<int> :: Walk(t, live, p, a, b) }

  lemma ReachesSelf(t: Tree, live: bool, a: int)
    ensures Reaches(t, live, a, a)
  {
    assert Walk(t, live, [a], a, a);
  }

  lemma ReachesStep(t: Tree, live: bool, a: int, b: int, c: int)
    requires Reaches(t, live, a, b) && Edge(t, live, b, c)
    ensures Reaches(t, live, a, c)
  {
    var p :| Walk(t, live, p, a, b);
    var q := p + [c];
    forall i | 0 <= i < |q| - 1 ensures Edge(t, live, q[i], q[i + 1]) {
      if i < |p| - 1 { assert Edge(t, live, p[i], p[i + 1]); }
    }
    assert Walk(t, live, q, a, c);
  }

  /** Every reachable session other than the start is entered by a last edge. */
  lemma LastEdge(t: Tree, live: bool, a: int, c: int) returns (b: int)
    requires Reaches(t, live, a, c) && a != c
    ensures Reaches(t, live, a, b) && Edge(t, live, b, c)
  {
    var p :| Walk(t, live, p, a, c);
    b := p[|p| - 2];
    assert Edge(t, live, p[|p| - 2], p[|p| - 1]);
    var q := p[..|p| - 1];
    forall i | 0 <= i < |q| - 1 ensures Edge(t, live, q[i], q[i + 1]) { assert Edge(t, live, p[i], p[i + 1]); }
    assert Walk(t, live, q, a, b);
  }

  lemma ReachesInside(t: Tree, live: bool, a: int, x: int)
    requires Reaches(t, live, a, x) && a in t.byId
    ensures x in t.byId
  {
    if x != a { var b := LastEdge(t, live, a, x); }
  }

  predicate ClosedUnder(t: Tree, live: bool, s: set<int>) {
    forall a | a in s :: forall b | b in Kids(t, a) :: Edge(t, live, a, b) ==> b in s
  }

  lemma ClosedContainsReachable(t: Tree, live: bool, s: set<int>, a: int, c: int)
    requires ClosedUnder(t, live, s) && a in s && Reaches(t, live, a, c)
    ensures c in s
  {
    var p :| Walk(t, live, p, a, c);
    var i := 0;
    while i < |p| - 1
      invariant 0 <= i <= |p| - 1 && p[i] in s
    {
      assert Edge(t, live, p[i], p[i + 1]);
      i := i + 1;
    }
  }

  function Elements(s: seq<int>): set<int> { set i | 0 <= i < |s| :: s[i] }

  lemma {:induction false} DistinctFits(s: seq<int>, universe: set<int>)
    requires Distinct(s) && Elements(s) <= universe
    ensures |s| <= |universe|
  {
    if s != [] {
      var last := s[|s| - 1];
      var front := s[..|s| - 1];
      assert last in Elements(s);
      assert last !in Elements(front);
      assert Elements(front) <= universe - {last} by {
        forall x | x in Elements(front) ensures x in universe - {last} {
          var i :| 0 <= i < |front| && front[i] == x;
          assert s[i] == x;
        }
      }
      DistinctFits(front, universe - {last});
    }
  }

  lemma PushElements(s: seq<int>, x: int)
    ensures Elements(s + [x]) == Elements(s) + {x}
  {
    var t := s + [x];
    forall y | y in Elements(t) ensures y in Elements(s) + {x} {}
    forall i | 0 <= i < |s| ensures s[i] in Elements(t) { assert t[i] == s[i]; }
    assert t[|s|] == x;
  }

  /** A worklist holds reachable ids, once each, and `seen` is its set. */
  ghost predicate Worklist(t: Tree, live: bool, root: int, walk: seq<int>, seen: set<int>) {
    && Distinct(walk) && seen == Elements(walk) && root in seen && seen <= t.byId.Keys
    && forall x | x in seen :: Reaches(t, live, root, x)
  }

  lemma WorklistStarts(t: Tree, live: bool, root: int)
    requires root in t.byId
    ensures Worklist(t, live, root, [root], {root})
  {
    ReachesSelf(t, live, root);
    PushElements([], root);
  }

  lemma WorklistGrows(t: Tree, live: bool, root: int, walk: seq<int>, seen: set<int>, pos: nat, child: int)
    requires Worklist(t, live, root, walk, seen) && pos < |walk| && Edge(t, live, walk[pos], child) && child !in seen
    ensures Worklist(t, live, root, walk + [child], seen + {child})
  {
    assert walk[pos] in seen;
    ReachesStep(t, live, root, walk[pos], child);
    PushElements(walk, child);
  }

  /** Every edge out of the part of the worklist already passed stays inside. */
  predicate Passed(t: Tree, live: bool, walk: seq<int>, pos: nat, seen: set<int>)
    requires pos <= |walk|
  {
    forall k, y | 0 <= k < pos && y in Kids(t, walk[k]) && Edge(t, live, walk[k], y) :: y in seen
  }

  lemma FinishedWorklist(t: Tree, live: bool, root: int, walk: seq<int>, seen: set<int>, x: int)
    requires Worklist(t, live, root, walk, seen) && Passed(t, live, walk, |walk|, seen)
    ensures x in seen <==> Reaches(t, live, root, x)
  {
    assert ClosedUnder(t, live, seen) by {
      forall a, b | a in seen && b in Kids(t, a) && Edge(t, live, a, b) ensures b in seen {
        var k :| 0 <= k < |walk| && walk[k] == a;
      }
    }
    if Reaches(t, live, root, x) { ClosedContainsReachable(t, live, seen, root, x); }
  }

  /** The reachable ids, once each; it ends on a cyclic parent relation too. */
  method Subtree(t: Tree, id: int) returns (found: bool, ids: seq<int>)
    requires ValidTree(t)
    ensures found <==> id in t.byId
    ensures found ==> Distinct(ids) && forall x :: x in Elements(ids) <==> Reaches(t, false, id, x)
  {
    if id !in t.byId { return false, []; }
    found, ids := true, [id];
    var seen := {id};
    WorklistStarts(t, false, id);
    var pos := 0;
    while pos < |ids|
      invariant 0 <= pos <= |ids| && Worklist(t, false, id, ids, seen) && Passed(t, false, ids, pos, seen)
      decreases |t.byId| - pos
    {
      DistinctFits(ids, t.byId.Keys);
      var kids := Kids(t, ids[pos]);
      var j := 0;
      ghost var before := ids;
      while j < |kids|
        invariant 0 <= j <= |kids| && before <= ids
        invariant Worklist(t, false, id, ids, seen) && Passed(t, false, ids, pos, seen)
        invariant forall i | 0 <= i < j :: kids[i] in seen
      {
        var child := kids[j];
        if child !in seen {
          WorklistGrows(t, false, id, ids, seen, pos, child);
          seen := seen + {child};
          ids := ids + [child];
        }
        j := j + 1;
      }
      pos := pos + 1;
    }
    forall x ensures x in Elements(ids) <==> Reaches(t, false, id, x) { FinishedWorklist(t, false, id, ids, seen, x); }
  }

  /** The root and every stop-active session reachable without entering a killed one. */
  method StopIds(t: Tree, root: int) returns (ids: seq<int>)
    requires ValidTree(t) && root in t.byId
    ensures Distinct(ids)
    ensures forall x :: x in Elements(ids) <==>
      x == root || (Reaches(t, true, root, x) && x in t.byId && StopActive(t.byId[x].status))
  {
    ids := [root];
    var walk, seen := [root], {root};
    WorklistStarts(t, true, root);
    var pos := 0;
    while pos < |walk|
      invariant 0 <= pos <= |walk| && Worklist(t, true, root, walk, seen) && Passed(t, true, walk, pos, seen)
      invariant Distinct(ids)
      invariant forall x :: x in Elements(ids) <==> x == root || (x in seen && StopActive(t.byId[x].status))
      decreases |t.byId| - pos
    {
      DistinctFits(walk, t.byId.Keys);
      var kids := Kids(t, walk[pos]);
      var j := 0;
      ghost var before := walk;
      while j < |kids|
        invariant 0 <= j <= |kids| && before <= walk
        invariant Worklist(t, true, root, walk, seen) && Passed(t, true, walk, pos, seen)
        invariant forall i | 0 <= i < j && Edge(t, true, walk[pos], kids[i]) :: kids[i] in seen
        invariant Distinct(ids)
        invariant forall x :: x in Elements(ids) <==> x == root || (x in seen && StopActive(t.byId[x].status))
      {
        var child := kids[j];
        if child !in seen && !t.byId[child].killed {
          WorklistGrows(t, true, root, walk, seen, pos, child);
          seen := seen + {child};
          walk := walk + [child];
          if StopActive(t.byId[child].status) {
            assert child !in Elements(ids);
            PushElements(ids, child);
            ids := ids + [child];
          }
        }
        j := j + 1;
      }
      pos := pos + 1;
    }
    forall x ensures x in seen <==> Reaches(t, true, root, x) { FinishedWorklist(t, true, root, walk, seen, x); }
  }

  // ----- trees of a stored forest -----

  predicate InTree(all: Sessions, root: int, id: int) { id in all && RootOf(all, id) == root }

  /** What a loaded tree contains: the sessions of one root, and their parent links. */
  ghost predicate IsTree(t: Tree, all: Sessions, root: int) {
    && ValidTree(t)
    && (forall id :: id in t.byId <==> InTree(all, root, id))
    && (forall id | id in t.byId :: t.byId[id] == all[id])
    && (forall p, y :: y in Kids(t, p) <==> p != 0 && y in t.byId && t.byId[y].parent == p)
  }

  /** `records` is the query's answer: the ids stored under `root`, each once. */
  method LoadTree(all: Sessions, root: int, records: seq<int>) returns (t: Tree)
    requires Distinct(records) && forall id :: id in Elements(records) <==> InTree(all, root, id)
    ensures IsTree(t, all, root)
  {
    var byId: Sessions, children: map<int, seq<int>> := map[], map[];
    var i := 0;
    while i < |records|
      invariant 0 <= i <= |records|
      invariant forall id :: id in byId <==> id in Elements(records[..i])
      invariant forall id | id in byId :: id in all && byId[id] == all[id]
      invariant ValidTree(Tree(byId, children))
      invariant forall p, y :: y in Kids(Tree(byId, children), p) <==> p != 0 && y in byId && byId[y].parent == p
    {
      var id := records[i];
      assert id in Elements(records);
      PushElements(records[..i], id);
      assert records[..i + 1] == records[..i] + [id];
      assert id !in byId by { assert forall k | 0 <= k < i :: records[k] != records[i]; }
      ghost var was := Tree(byId, children);
      byId := byId[id := all[id]];
      var parent := all[id].parent;
      if parent != 0 {
        var kids := (if parent in children then children[parent] else []) + [id];
        children := children[parent := kids];
        assert forall p | p != parent :: Kids(Tree(byId, children), p) == Kids(was, p);
        assert Kids(Tree(byId, children), parent) == Kids(was, parent) + [id];
      }
      forall p, y ensures y in Kids(Tree(byId, children), p) <==> p != 0 && y in byId && byId[y].parent == p {
        assert y in Kids(was, p) <==> p != 0 && y in was.byId && was.byId[y].parent == p;
        if p == parent != 0 { assert y in Kids(was, p) + [id] <==> y in Kids(was, p) || y == id; }
      }
      i := i + 1;
    }
    assert records[..i] == records;
    t := Tree(byId, children);
  }

  /** Parents are stored, belong to the same tree, and never loop (`rank` falls towards the root). */
  ghost predicate Forest(all: Sessions, rank: map<int, nat>) {
    && 0 !in all
    && (forall id | id in all :: id in rank)
    && (forall id | id in all && all[id].parent != 0 ::
          all[id].parent in all && rank[all[id].parent] < rank[id] && RootOf(all, all[id].parent) == RootOf(all, id))
  }

  /** Reachability read off the parent links: from `a` down to `x`. */
  ghost predicate Descends(all: Sessions, rank: map<int, nat>, live: bool, a: int, x: int)
    requires Forest(all, rank)
    decreases if x in rank then rank[x] else 0
  {
    x == a || (x in all && all[x].parent != 0 && (live ==> !all[x].killed)
      && Descends(all, rank, live, a, all[x].parent))
  }

  lemma {:induction false} ReachesIsDescends(t: Tree, all: Sessions, rank: map<int, nat>, root: int, live: bool,
      a: int, x: int)
    requires Forest(all, rank) && IsTree(t, all, root) && a in t.byId
    ensures Reaches(t, live, a, x) <==> Descends(all, rank, live, a, x)
    ensures Reaches(t, live, a, x) ==> x in t.byId
    decreases if x in rank then rank[x] else 0
  {
    if x == a {
      ReachesSelf(t, live, a);
    } else {
      if Reaches(t, live, a, x) {
        var b := LastEdge(t, live, a, x);
        ReachesIsDescends(t, all, rank, root, live, a, b);
      }
      if Descends(all, rank, live, a, x) {
        var b := all[x].parent;
        ReachesIsDescends(t, all, rank, root, live, a, b);
        assert x in Kids(t, b);
        ReachesStep(t, live, a, b, x);
      }
    }
  }

  predicate SameShape(all: Sessions, all': Sessions) {
    && all.Keys == all'.Keys
    && (forall id | id in all ::
      all[id].parent == all'[id].parent && all[id].root == all'[id].root && all[id].killed == all'[id].killed)
  }

  lemma {:induction false} ShapeDecidesDescent(all: Sessions, all': Sessions, rank: map<int, nat>, live: bool, a: int,
      x: int)
    requires Forest(all, rank) && Forest(all', rank) && SameShape(all, all')
    ensures Descends(all, rank, live, a, x) <==> Descends(all', rank, live, a, x)
    decreases if x in rank then rank[x] else 0
  {
    if x != a && x in all && all[x].parent != 0 { ShapeDecidesDescent(all, all', rank, live, a, all[x].parent); }
  }

  // ----- stopping one tree -----

  /** Who a stop of `root` covers: the stop set, live runners of the root, and completed
      children whose link is still open. */
  ghost predicate InPlan(t: Tree, root: int, running: set<int>, open: set<int>, x: int) {
    && x in t.byId
    && (|| x == root
        || (Reaches(t, true, root, x) && StopActive(t.byId[x].status))
        || (x in running && !t.byId[x].killed && t.byId[x].root == root)
        || (Reaches(t, false, root, x) && !t.byId[x].killed && t.byId[x].status == Completed && x in open))
  }

  /** `runners` lists the ids of the tree that have a live runner, in order. */
  method StopPlan(t: Tree, root: int, runners: seq<int>, open: set<int>) returns (ids: seq<int>)
    requires ValidTree(t) && root in t.byId && Elements(runners) <= t.byId.Keys
    ensures Distinct(ids)
    ensures forall x :: x in Elements(ids) <==> InPlan(t, root, Elements(runners), open, x)
  {
    ids := StopIds(t, root);
    ghost var stops := ids;
    var included := set i | 0 <= i < |ids| :: ids[i];
    assert included == Elements(ids);
    var i := 0;
    while i < |runners|
      invariant 0 <= i <= |runners| && Distinct(ids) && included == Elements(ids)
      invariant forall x :: x in included <==>
        x in Elements(stops)
        || (x in Elements(runners[..i]) && !t.byId[x].killed && (x == root || t.byId[x].root == root))
    {
      var id := runners[i];
      assert id in Elements(runners);
      PushElements(runners[..i], id);
      assert runners[..i + 1] == runners[..i] + [id];
      if !t.byId[id].killed && id !in included && (id == root || t.byId[id].root == root) {
        PushElements(ids, id);
        ids, included := ids + [id], included + {id};
      }
      i := i + 1;
    }
    assert runners[..i] == runners;
    ghost var withRunners := included;
    var found, below := Subtree(t, root);
    forall k | 0 <= k < |below| ensures below[k] in t.byId {
      assert below[k] in Elements(below);
      ReachesInside(t, false, root, below[k]);
    }
    var j := 0;
    while j < |below|
      invariant 0 <= j <= |below| && Distinct(ids) && included == Elements(ids)
      invariant forall x :: x in included <==>
        x in withRunners
        || (x in Elements(below[..j]) && !t.byId[x].killed && t.byId[x].status == Completed && x in open)
    {
      var id := below[j];
      PushElements(below[..j], id);
      assert below[..j + 1] == below[..j] + [id];
      if id !in included && !t.byId[id].killed && t.byId[id].status == Completed && id in open {
        PushElements(ids, id);
        ids, included := ids + [id], included + {id};
      }
      j := j + 1;
    }
    assert below[..j] == below;
  }

  /** The same coverage, read off the stored parent links. */
  ghost predicate Covered(all: Sessions, rank: map<int, nat>, root: int, running: set<int>, open: set<int>, x: int)
    requires Forest(all, rank) && root in all
  {
    && InTree(all, RootOf(all, root), x)
    && (|| x == root
        || (Descends(all, rank, true, root, x) && StopActive(all[x].status))
        || (x in running && !all[x].killed && all[x].root == root)
        || (Descends(all, rank, false, root, x) && !all[x].killed && all[x].status == Completed && x in open))
  }

  lemma CoveredIsPlan(t: Tree, all: Sessions, rank: map<int, nat>, root: int, running: set<int>, open: set<int>, x: int)
    requires Forest(all, rank) && root in all && IsTree(t, all, RootOf(all, root))
    ensures Covered(all, rank, root, running, open, x) <==> InPlan(t, root, running, open, x)
  {
    ReachesIsDescends(t, all, rank, RootOf(all, root), true, root, x);
    ReachesIsDescends(t, all, rank, RootOf(all, root), false, root, x);
  }

  function Marked(all: Sessions, ids: set<int>, st: Status): Sessions {
    map x | x in all :: if x in ids then all[x].(status := st) else all[x]
  }

  lemma DescendsStaysInTree(all: Sessions, rank: map<int, nat>, live: bool, a: int, x: int)
    requires Forest(all, rank) && a in all && Descends(all, rank, live, a, x)
    ensures InTree(all, RootOf(all, a), x)
    decreases if x in rank then rank[x] else 0
  {
    if x != a { DescendsStaysInTree(all, rank, live, a, all[x].parent); }
  }

  // ----- boot recovery -----

  predicate IsStopping(all: Sessions, x: int) { x in all && all[x].status == Stopping }

  /** Boot cleans only these: stopping sessions whose parent is not stopping. */
  predicate Topmost(all: Sessions, x: int) { IsStopping(all, x) && !IsStopping(all, all[x].parent) }

  /** A live stopping session hidden behind a killed stopping parent that is not topmost itself. */
  predicate Hidden(all: Sessions, x: int) {
    && IsStopping(all, x) && !all[x].killed
    && IsStopping(all, all[x].parent) && all[all[x].parent].killed
    && IsStopping(all, all[all[x].parent].parent)
  }

  predicate NoHiddenStop(all: Sessions) { forall x | x in all :: !Hidden(all, x) }

  /** Not every forest is without one: a live stopping grandchild under a killed stopping child of a
      stopping root. `StoredStops` shows that the daemon never stores such a table. */
  lemma StopsCanBeHidden()
    ensures exists all: Sessions, rank: map<int, nat> :: Forest(all, rank) && !NoHiddenStop(all)
  {
    var all: Sessions := map[
      1 := Session(0, 0, false, Stopping), 2 := Session(1, 1, true, Stopping), 3 := Session(2, 1, false, Stopping)];
    var rank: map<int, nat> := map[1 := 0, 2 := 1, 3 := 2];
    assert Forest(all, rank) && Hidden(all, 3);
  }

  /** What a stop may be asked for: a session that lives, or a root, whose budget may be parked late. */
  predicate StopTarget(all: Sessions, x: int) { x in all && (all[x].killed ==> all[x].parent == 0) }

  /** What the daemon's table always satisfies: below the roots no killed session is stopping. */
  predicate Storable(all: Sessions) { forall x | x in all && IsStopping(all, x) :: StopTarget(all, x) }

  lemma StorableHidesNothing(all: Sessions, rank: map<int, nat>)
    requires Forest(all, rank) && Storable(all)
    ensures NoHiddenStop(all)
  {
    forall x | x in all && IsStopping(all, all[x].parent) ensures !Hidden(all, x) {
      assert StopTarget(all, all[x].parent);
    }
  }

  /** Some of the listed sessions were marked and nothing else changed. */
  predicate Partly(before: Sessions, after: Sessions, ids: set<int>, st: Status) {
    && before.Keys == after.Keys
    && (forall x | x in before :: after[x] == before[x] || (x in ids && after[x] == before[x].(status := st)))
  }

  /** A stop, even one cut short, never marks a killed session below the roots. */
  lemma StopKeepsStorable(before: Sessions, after: Sessions, rank: map<int, nat>, root: int, running: set<int>,
      open: set<int>, ids: set<int>)
    requires Forest(before, rank) && Storable(before) && StopTarget(before, root)
    requires forall x | x in ids :: Covered(before, rank, root, running, open, x)
    requires Partly(before, after, ids, Stopping)
    ensures Storable(after)
  {
    forall x | IsStopping(after, x) ensures StopTarget(after, x) {
      assert after[x] == before[x] || x in ids;
    }
  }

  /** Nor does a write of any other status. */
  lemma OtherStatusKeepsStorable(before: Sessions, after: Sessions, ids: set<int>, st: Status)
    requires Storable(before) && st != Stopping && Partly(before, after, ids, st)
    ensures Storable(after)
  {
    forall x | IsStopping(after, x) ensures StopTarget(after, x) { assert after[x] == before[x]; }
  }

  /** Without hidden ones, every live stopping session descends from a topmost one without
      passing through a killed session. */
  lemma {:induction false} TopmostAbove(all: Sessions, rank: map<int, nat>, x: int) returns (top: int)
    requires Forest(all, rank) && NoHiddenStop(all) && IsStopping(all, x) && !all[x].killed
    ensures Topmost(all, top) && Descends(all, rank, true, top, x)
    decreases rank[x]
  {
    var p := all[x].parent;
    if !IsStopping(all, p) {
      top := x;
    } else if all[p].killed {
      assert !Hidden(all, x);
      top := p;
    } else {
      top := TopmostAbove(all, rank, p);
    }
  }

  /** No cleanup of a topmost session covers a hidden one. */
  lemma HiddenIsNeverCovered(start: Sessions, all: Sessions, rank: map<int, nat>, top: int, open: set<int>, x: int)
    requires Forest(start, rank) && Forest(all, rank) && SameShape(start, all)
    requires Topmost(start, top) && Hidden(start, x) && IsStopping(all, x)
    ensures !Covered(all, rank, top, {}, open, x)
  {
    var y := all[x].parent;
    assert y != top && x != top;
    assert !Descends(all, rank, true, top, y);
  }

  /** One topmost session was cleaned and, if owed, its explicit stop completed. */
  ghost predicate CleanedBy(before: Sessions, after: Sessions, rank: map<int, nat>, top: int, open: set<int>)
    requires Forest(before, rank) && top in before
  {
    && SameShape(before, after)
    && (forall x | x in before && !Covered(before, rank, top, {}, open, x) :: after[x] == before[x])
    && (forall x | x in before && Covered(before, rank, top, {}, open, x) :: after[x].status != Stopping)
  }

  /** Cleaning reaches everything below the topmost session and nothing hidden. */
  lemma CleaningReachesBelow(start: Sessions, before: Sessions, after: Sessions, rank: map<int, nat>, top: int,
      open: set<int>, x: int)
    requires Forest(start, rank) && Forest(before, rank) && SameShape(start, before) && Topmost(start, top)
    requires CleanedBy(before, after, rank, top, open) && x in start
    ensures after[x].status == Stopping ==> before[x].status == Stopping
    ensures Hidden(start, x) && before[x].status == Stopping ==> after[x].status == Stopping
    ensures Descends(start, rank, true, top, x) ==> after[x].status != Stopping
  {
    if Hidden(start, x) && before[x].status == Stopping { HiddenIsNeverCovered(start, before, rank, top, open, x); }
    if Descends(start, rank, true, top, x) {
      ShapeDecidesDescent(start, before, rank, true, top, x);
      DescendsStaysInTree(before, rank, true, top, x);
    }
  }

  /** What a tree stop leaves: everything covered stopped and nothing else moved, or, when the store
      failed, some of the covered sessions still stopping. */
  ghost predicate StopOutcome(
    before: Sessions, after: Sessions, rank: map<int, nat>, root: int, running: set<int>, open: set<int>,
      keepRoot: bool, ok: bool)
    requires Forest(before, rank) && root in before
  {
    && SameShape(before, after)
    && forall x | x in before ::
         if !Covered(before, rank, root, running, open, x) then after[x] == before[x]
         else if ok then after[x].status == (if keepRoot && x == root then Stopping else Stopped)
         else after[x].status in {before[x].status, Stopping, Stopped}
  }

  /** What that means for a stop that met no error, written out: below the root, through live
      sessions, nobody is active, suspended or stopping any more; nor is a session with a live runner
      of this root, nor a completed one still owed to its parent; and a session that is none of
      these is as it was. */
  ghost predicate StopReaches(
    before: Sessions, after: Sessions, rank: map<int, nat>, root: int, running: set<int>, open: set<int>)
    requires Forest(before, rank) && root in before
  {
    && before.Keys == after.Keys && after[root].status == Stopped
    && (forall x | x in before && Descends(before, rank, true, root, x) ::
          before[x].status in {Active, Suspended, Stopping, Stopped} ==> after[x].status == Stopped)
    && (forall x | x in before && x in running && before[x].root == root && !before[x].killed
      && RootOf(before, root) == root ::
          after[x].status == Stopped)
    && (forall x | x in before && x in open && Descends(before, rank, false, root, x) && !before[x].killed ::
          before[x].status == Completed ==> after[x].status == Stopped)
    && (forall x | x in before && x != root && after[x] != before[x] ::
          && !before[x].killed && after[x] == before[x].(status := Stopped)
          && (Descends(before, rank, false, root, x) || x in running)
          && (before[x].status in {Completed, Errored, Terminating, Killed}
            ==> x in running || (x in open && before[x].status == Completed)))
  }

  lemma LiveDescentIsDescent(all: Sessions, rank: map<int, nat>, a: int, x: int)
    requires Forest(all, rank) && Descends(all, rank, true, a, x)
    ensures Descends(all, rank, false, a, x)
    decreases if x in rank then rank[x] else 0
  {
    if x != a { LiveDescentIsDescent(all, rank, a, all[x].parent); }
  }

  lemma OutcomeReaches(
    before: Sessions, after: Sessions, rank: map<int, nat>, root: int, running: set<int>, open: set<int>)
    requires Forest(before, rank) && root in before
    requires StopOutcome(before, after, rank, root, running, open, false, true)
    requires forall x | x in before && Covered(before, rank, root, running, open, x) ::
      after[x] == before[x].(status := Stopped)
    ensures StopReaches(before, after, rank, root, running, open)
  {
    assert Covered(before, rank, root, running, open, root);
    forall x | x in before
      ensures Descends(before, rank, true, root, x) || Descends(before, rank, false, root, x) ==>
        InTree(before, RootOf(before, root), x)
      ensures Descends(before, rank, true, root, x) ==> Descends(before, rank, false, root, x)
    {
      if Descends(before, rank, true, root, x) { LiveDescentIsDescent(before, rank, root, x); }
      if Descends(before, rank, false, root, x) { DescendsStaysInTree(before, rank, false, root, x); }
    }
    forall x | x in before && x != root && after[x] != before[x]
      ensures Covered(before, rank, root, running, open, x) {}
  }

  lemma MarksGiveOutcome(
    before: Sessions, middle: Sessions, after: Sessions, rank: map<int, nat>, root: int, running: set<int>,
      open: set<int>,
    keepRoot: bool, ids: set<int>, ok: bool)
    requires Forest(before, rank) && root in before
    requires forall x :: x in ids <==> Covered(before, rank, root, running, open, x)
    requires middle == Marked(before, ids, Stopping)
    requires if ok then after == Marked(middle, ids - (if keepRoot then {root} else {}), Stopped)
      else Partly(middle, after, ids, Stopped)
    ensures StopOutcome(before, after, rank, root, running, open, keepRoot, ok)
    ensures ok && !keepRoot ==> StopReaches(before, after, rank, root, running, open)
  {
    if ok && !keepRoot { OutcomeReaches(before, after, rank, root, running, open); }
  }

  /** A cleaned session is no longer stopping, once its explicit stop is completed too. */
  lemma OutcomeCleans(before: Sessions, middle: Sessions, after: Sessions, rank: map<int, nat>, top: int,
      open: set<int>, owed: bool)
    requires Forest(before, rank) && top in before
    requires StopOutcome(before, middle, rank, top, {}, open, owed, true)
    requires if owed then after.Keys == middle.Keys && after == middle[top := after[top]]
      && after[top].status != Stopping
                          && SameShape(middle, after) else after == middle
    ensures CleanedBy(before, after, rank, top, open)
  {
    assert Covered(before, rank, top, {}, open, top);
  }

  /** Where the boot pass stands after the first `i` records. */
  ghost predicate Recovering(start: Sessions, all: Sessions, listing: seq<int>, i: nat, rank: map<int, nat>)
    requires Forest(start, rank) && i <= |listing|
  {
    && SameShape(start, all)
    && (forall x | x in all && all[x].status == Stopping :: start[x].status == Stopping)
    && (forall x | x in all && Hidden(start, x) :: all[x].status == Stopping)
    && (forall k, x | 0 <= k < i && Topmost(start, listing[k]) && x in all
      && Descends(start, rank, true, listing[k], x) ::
          all[x].status != Stopping)
  }

  lemma CleaningGoesOn(start: Sessions, before: Sessions, after: Sessions, listing: seq<int>, i: nat, rank: map<int,
      nat>, open: set<int>)
    requires i < |listing| && Forest(start, rank) && Recovering(start, before, listing, i, rank) && Forest(before, rank)
    requires Topmost(start, listing[i]) && CleanedBy(before, after, rank, listing[i], open)
    ensures Recovering(start, after, listing, i + 1, rank)
  {
    forall x | x in start
      ensures after[x].status == Stopping ==> before[x].status == Stopping
      ensures Hidden(start, x) && before[x].status == Stopping ==> after[x].status == Stopping
      ensures Descends(start, rank, true, listing[i], x) ==> after[x].status != Stopping
    {
      CleaningReachesBelow(start, before, after, rank, listing[i], open, x);
    }
  }

  /** Once everything below each topmost session left stopping, no live session is stopping unless
      it is hidden, and in a storable table none is at all. */
  lemma RecoveryIsComplete(start: Sessions, after: Sessions, listing: seq<int>, rank: map<int, nat>)
    requires Forest(start, rank) && Elements(listing) == start.Keys
      && Recovering(start, after, listing, |listing|, rank)
    ensures NoHiddenStop(start) <==> forall x | x in after && !after[x].killed :: after[x].status != Stopping
    ensures Storable(start) ==> forall x | x in after :: after[x].status != Stopping
  {
    if Storable(start) { StorableHidesNothing(start, rank); }
    if NoHiddenStop(start) {
      forall x | x in after && (!after[x].killed || Storable(start)) ensures after[x].status != Stopping {
        if start[x].status == Stopping {
          var top := x;
          if start[x].killed { assert StopTarget(start, x); } else { top := TopmostAbove(start, rank, x); }
          assert top in Elements(listing);
        }
      }
    }
  }

  class SessionStore {
    var all: Sessions
    /** How many more writes the store accepts; the first one after that fails. */
    var accepts: nat

    method UpdateStatus(id: int, st: Status) returns (ok: bool)
      requires id in all
      modifies this
      ensures ok <==> old(accepts) > 0
      ensures ok ==> all == old(all)[id := old(all)[id].(status := st)]
      ensures !ok ==> all == old(all) && accepts == 0
    {
      if accepts == 0 { return false; }
      all, accepts := all[id := all[id].(status := st)], accepts - 1;
      return true;
    }

    /** Marks each listed session, in order, but for `skipped`; the first failure ends it. */
    method MarkAll(ids: seq<int>, skipped: set<int>, st: Status) returns (ok: bool)
      requires Elements(ids) <= all.Keys
      modifies this
      ensures ok ==> all == Marked(old(all), Elements(ids) - skipped, st)
      ensures !ok ==> accepts == 0 && Partly(old(all), all, Elements(ids), st)
    {
      var i := 0;
      while i < |ids|
        invariant 0 <= i <= |ids| && all == Marked(old(all), Elements(ids[..i]) - skipped, st)
      {
        var id := ids[i];
        assert id in Elements(ids);
        PushElements(ids[..i], id);
        assert ids[..i + 1] == ids[..i] + [id];
        if id !in skipped {
          ok := UpdateStatus(id, st);
          if !ok {
            assert Elements(ids[..i]) <= Elements(ids);
            return;
          }
        }
        i := i + 1;
      }
      assert ids[..i] == ids;
      return true;
    }

    method ListTree(listing: seq<int>, root: int) returns (records: seq<int>)
      requires Distinct(listing) && Elements(listing) == all.Keys
      ensures Distinct(records) && forall id :: id in Elements(records) <==> InTree(all, root, id)
    {
      records := [];
      var i := 0;
      while i < |listing|
        invariant 0 <= i <= |listing| && Distinct(records)
        invariant forall id :: id in Elements(records) <==> id in Elements(listing[..i]) && InTree(all, root, id)
      {
        var id := listing[i];
        assert id in Elements(listing);
        assert id !in Elements(listing[..i]);
        PushElements(listing[..i], id);
        assert listing[..i + 1] == listing[..i] + [id];
        if RootOf(all, id) == root {
          PushElements(records, id);
          records := records + [id];
        }
        i := i + 1;
      }
      assert listing[..i] == listing;
    }

    /** Plan the stop from the stored tree and mark every planned session stopping. */
    method BeginStop(root: int, listing: seq<int>, runners: seq<int>, open: set<int>, ghost rank: map<int, nat>)
      returns (ok: bool, ids: seq<int>)
      requires Forest(all, rank) && root in all
      requires Distinct(listing) && Elements(listing) == all.Keys
      requires forall x | x in Elements(runners) :: InTree(all, RootOf(all, root), x)
      modifies this
      ensures Distinct(ids)
      ensures forall x :: x in Elements(ids) <==> Covered(old(all), rank, root, Elements(runners), open, x)
      ensures ok ==> all == Marked(old(all), Elements(ids), Stopping)
      ensures !ok ==> accepts == 0 && Partly(old(all), all, Elements(ids), Stopping)
      ensures Storable(old(all)) && StopTarget(old(all), root) ==> Storable(all)
    {
      var treeRoot := RootOf(all, root);
      var records := ListTree(listing, treeRoot);
      var t := LoadTree(all, treeRoot, records);
      forall x | x in Elements(runners) ensures x in t.byId { assert InTree(all, treeRoot, x); }
      ids := StopPlan(t, root, runners, open);
      forall x ensures x in Elements(ids) <==> Covered(all, rank, root, Elements(runners), open, x) {
        CoveredIsPlan(t, all, rank, root, Elements(runners), open, x);
      }
      forall x | x in Elements(ids) ensures x in all { assert InTree(all, treeRoot, x); }
      ghost var before := all;
      ok := MarkAll(ids, {}, Stopping);
      if Storable(before) && StopTarget(before, root) {
        StopKeepsStorable(before, all, rank, root, Elements(runners), open, Elements(ids));
      }
    }

    /** `keepRoot` leaves the root to the caller's terminal transaction. */
    method FinishStop(ids: seq<int>, root: int, keepRoot: bool) returns (ok: bool)
      requires Elements(ids) <= all.Keys
      modifies this
      ensures ok ==> all == Marked(old(all), Elements(ids) - (if keepRoot then {root} else {}), Stopped)
      ensures !ok ==> accepts == 0 && Partly(old(all), all, Elements(ids), Stopped)
      ensures Storable(old(all)) ==> Storable(all)
    {
      ghost var before := all;
      ok := MarkAll(ids, if keepRoot then {root} else {}, Stopped);
      if Storable(before) { OtherStatusKeepsStorable(before, all, Elements(ids), Stopped); }
    }

    /** The status part of a tree stop: everything covered ends stopped, nothing else moves. A failing
        store leaves some of the covered sessions stopping, for boot to finish. */
    method StopTreeCleanup(root: int, listing: seq<int>, runners: seq<int>, open: set<int>, keepRoot: bool,
        ghost rank: map<int, nat>)
      returns (ok: bool)
      requires Forest(all, rank) && root in all
      requires Distinct(listing) && Elements(listing) == all.Keys
      requires forall x | x in Elements(runners) :: InTree(all, RootOf(all, root), x)
      modifies this
      ensures StopOutcome(old(all), all, rank, root, Elements(runners), open, keepRoot, ok) && (!ok ==> accepts == 0)
      ensures ok && !keepRoot ==> StopReaches(old(all), all, rank, root, Elements(runners), open)
      ensures Storable(old(all)) && StopTarget(old(all), root) ==> Storable(all)
    {
      ghost var before := all;
      var ids;
      ok, ids := BeginStop(root, listing, runners, open, rank);
      if !ok { return; }
      assert forall x | x in Elements(ids) :: x in before;
      ghost var middle := all;
      ok := FinishStop(ids, root, keepRoot);
      MarksGiveOutcome(before, middle, all, rank, root, Elements(runners), open, keepRoot, Elements(ids), ok);
    }

    /** The terminal transaction of an explicit stop, then the schedule reactivation. */
    method CompleteExplicitStop(root: int, scheduled: bool) returns (ok: bool)
      requires root in all
      modifies this
      ensures SameShape(old(all), all)
      ensures !ok ==> accepts == 0 || (old(all)[root].status != Stopping && old(all)[root].status != Stopped)
      ensures !ok ==> all in {old(all), old(all)[root := old(all)[root].(status := Stopped)]}
      ensures ok ==> old(all)[root].status == Stopping || old(all)[root].status == Stopped
      ensures ok ==> all == old(all)[root := old(all)[root].(
        status := if scheduled && old(all)[root].parent == 0 && !old(all)[root].killed then Active else Stopped)]
      ensures Storable(old(all)) ==> Storable(all)
    {
      ghost var before := all;
      var s := all[root];
      if s.status != Stopping && s.status != Stopped { return false; }
      ok := UpdateStatus(root, Stopped);
      if Storable(before) { OtherStatusKeepsStorable(before, all, {root}, Stopped); }
      if ok && s.parent == 0 && !s.killed && scheduled { ok := UpdateStatus(root, Active); }
    }

    /** Boot recovery that meets no store error leaves no live session stopping exactly when none was
        hidden, and no session at all in a table the daemon can store. One cut short leaves such a
        table behind, so a later boot finishes it. */
    method RecoverStoppingSessions(
      listing: seq<int>, owed: set<int>, scheduled: set<int>, open: set<int>, ghost rank: map<int, nat>)
      returns (ok: bool)
      requires Forest(all, rank) && Distinct(listing) && Elements(listing) == all.Keys
      modifies this
      ensures SameShape(old(all), all) && (!ok ==> accepts == 0)
      ensures ok ==> (NoHiddenStop(old(all)) <==> forall x | x in all && !all[x].killed :: all[x].status != Stopping)
      ensures Storable(old(all)) ==> Storable(all)
      ensures ok && Storable(old(all)) ==> forall x | x in all :: all[x].status != Stopping
    {
      ghost var start := all;
      var stopping := set x | x in all && all[x].status == Stopping;
      var i := 0;
      while i < |listing|
        invariant 0 <= i <= |listing| && Forest(all, rank) && Recovering(start, all, listing, i, rank)
        invariant Storable(start) ==> Storable(all)
      {
        var id := listing[i];
        assert id in Elements(listing);
        if id in stopping && all[id].parent !in stopping {
          ghost var before := all;
          assert Storable(start) ==> StopTarget(start, id) && StopTarget(all, id);
          ok := RecoverOne(id, listing, id in owed, id in scheduled, open, rank);
          if !ok { return; }
          CleaningGoesOn(start, before, all, listing, i, rank, open);
        }
        i := i + 1;
      }
      ok := true;
      RecoveryIsComplete(start, all, listing, rank);
    }

    method RecoverOne(top: int, listing: seq<int>, owed: bool, scheduled: bool, open: set<int>, ghost rank: map<int,
        nat>)
      returns (ok: bool)
      requires Forest(all, rank) && top in all
      requires Distinct(listing) && Elements(listing) == all.Keys
      modifies this
      ensures Forest(all, rank) && SameShape(old(all), all) && (!ok ==> accepts == 0)
      ensures ok ==> CleanedBy(old(all), all, rank, top, open)
      ensures Storable(old(all)) && StopTarget(old(all), top) ==> Storable(all)
    {
      assert Elements([]) == {};
      ghost var before := all;
      ok := StopTreeCleanup(top, listing, [], open, owed, rank);
      assert Covered(before, rank, top, {}, open, top);
      ghost var middle := all;
      if ok && owed { ok := CompleteExplicitStop(top, scheduled); }
      if ok { OutcomeCleans(before, middle, all, rank, top, open, owed); }
    }
  }
}
