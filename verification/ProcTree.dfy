/** The process table and the searches over it (internal/daemon/discover.go). */
module ProcTree {
  import opened Common

  type Pid = nat

  datatype Tree = Tree(cmd: map<Pid, string>, children: map<Pid, seq<Pid>>) {
    function Children(p: Pid): seq<Pid> {
      if p in children then children[p] else []
    }

    /** Pids that occur as somebody's child. */
    ghost function ChildPids(): set<Pid> {
      set p, c | p in children && c in children[p] :: c
    }
  }

  // ---------------------------------------------------------------- reachability

  /** Each pid on the path is a child of the one before it. */
  ghost predicate Path(t: Tree, path: seq<Pid>) {
    path != [] && forall i, j :: 0 <= i && j == i + 1 && j < |path| ==> path[j] in t.Children(path[i])
  }

  /** A walk of exactly n parent-to-child steps leads from root to p. */
  ghost predicate Walk(t: Tree, root: Pid, p: Pid, n: nat) {
    exists path :: Path(t, path) && |path| == n + 1 && path[0] == root && path[n] == p
  }

  lemma WalkHere(t: Tree, root: Pid)
    ensures forall p :: Walk(t, root, p, 0) <==> p == root
  {
    assert Path(t, [root]);
  }

  lemma WalkOn(t: Tree, root: Pid, p: Pid, n: nat, c: Pid)
    requires Walk(t, root, p, n) && c in t.Children(p)
    ensures Walk(t, root, c, n + 1)
  {
    var path :| Path(t, path) && |path| == n + 1 && path[0] == root && path[n] == p;
    assert Path(t, path + [c]);
  }

  lemma WalkBack(t: Tree, root: Pid, p: Pid, n: nat) returns (q: Pid)
    requires n > 0 && Walk(t, root, p, n)
    ensures Walk(t, root, q, n - 1) && p in t.Children(q)
  {
    var path :| Path(t, path) && |path| == n + 1 && path[0] == root && path[n] == p;
    q := path[n - 1];
    assert Path(t, path[..n]);
  }

  ghost predicate Reachable(t: Tree, root: Pid, p: Pid) {
    exists n: nat :: Walk(t, root, p, n)
  }

  /** n is the length of a shortest walk. */
  ghost predicate Distance(t: Tree, root: Pid, p: Pid, n: nat) {
    Walk(t, root, p, n) && forall k: nat :: k < n ==> !Walk(t, root, p, k)
  }

  // ---------------------------------------------------------------- breadth-first search

  /** n entries of the same depth. */
  ghost function Depths(n: nat, d: nat): (ds: seq<nat>)
    ensures |ds| == n && forall i :: 0 <= i < n ==> ds[i] == d
  {
    seq(n, _ => d)
  }

  ghost predicate Sorted(ds: seq<nat>) {
    forall i, j :: 0 <= i <= j < |ds| ==> ds[i] <= ds[j]
  }

  /** Every entry is reached by a walk of its recorded length. */
  ghost predicate Walked(t: Tree, root: Pid, ps: seq<Pid>, ds: seq<nat>) {
    |ps| == |ds| && forall i :: 0 <= i < |ps| ==> Walk(t, root, ps[i], ds[i])
  }

  /** p waits in the queue at depth at most n. */
  ghost predicate Queued(queue: seq<Pid>, qd: seq<nat>, p: Pid, n: nat)
    requires |queue| == |qd|
  {
    exists i :: 0 <= i < |queue| && queue[i] == p && qd[i] <= n
  }

  /** Every child of a pid visited at depth d is visited, or waits at depth at most d + 1. */
  ghost predicate Expanded(t: Tree, p: Pid, d: nat, seen: set<Pid>, queue: seq<Pid>, qd: seq<nat>)
    requires |queue| == |qd|
  {
    forall c :: c in t.Children(p) ==> c in seen || Queued(queue, qd, c, d + 1)
  }

  /** The state of the search: `dist` holds the visited pids, root included, with their distances. */
  ghost predicate Searching(t: Tree, root: Pid, dist: map<Pid, nat>, queue: seq<Pid>, qd: seq<nat>) {
    && root in dist
    && Walked(t, root, queue, qd)
    && Sorted(qd)
    && (forall p :: p in dist ==> Distance(t, root, p, dist[p]))
    && (forall p :: p in dist ==> Expanded(t, p, dist[p], dist.Keys, queue, qd))
    && (queue != [] ==> qd[|qd| - 1] <= qd[0] + 1 && forall p :: p in dist ==> dist[p] <= qd[0])
  }

  /** The output so far: every visited pid but root, once, in order of distance. */
  ghost predicate Listed(root: Pid, out: seq<Pid>, depth: seq<nat>, dist: map<Pid, nat>) {
    && |depth| == |out|
    && Sorted(depth)
    && (forall i :: 0 <= i < |out| ==> out[i] in dist && out[i] != root && depth[i] == dist[out[i]])
    && (forall i, j :: 0 <= i < j < |out| ==> out[i] != out[j])
    && (forall p :: p in dist && p != root ==> p in out)
  }

  /** Whatever can be reached and is not yet visited is announced by the queue, at no greater depth. */
  lemma {:induction false} NoShortcut(t: Tree, root: Pid, dist: map<Pid, nat>, queue: seq<Pid>,
                                     qd: seq<nat>, x: Pid, n: nat)
    requires Searching(t, root, dist, queue, qd)
    requires Walk(t, root, x, n) && x !in dist
    ensures queue != [] && qd[0] <= n
    decreases n
  {
    WalkHere(t, root);
    if n > 0 {
      var q := WalkBack(t, root, x, n);
      if q in dist {
        assert Expanded(t, q, dist[q], dist.Keys, queue, qd);
        assert Queued(queue, qd, x, dist[q] + 1);
      } else {
        NoShortcut(t, root, dist, queue, qd, q, n - 1);
      }
    }
  }

  /** The queued depth of an unvisited head is its distance. */
  lemma HeadDistance(t: Tree, root: Pid, dist: map<Pid, nat>, queue: seq<Pid>, qd: seq<nat>)
    requires Searching(t, root, dist, queue, qd)
    requires queue != [] && queue[0] !in dist
    ensures Distance(t, root, queue[0], qd[0])
  {
    forall k: nat | k < qd[0]
      ensures !Walk(t, root, queue[0], k)
    {
      if Walk(t, root, queue[0], k) {
        NoShortcut(t, root, dist, queue, qd, queue[0], k);
      }
    }
  }

  /** Entries other than the head survive a dequeue and an enqueue. */
  lemma QueueShift(queue: seq<Pid>, qd: seq<nat>, more: seq<Pid>, md: seq<nat>)
    requires |queue| == |qd| > 0 && |more| == |md|
    ensures forall p, n :: p != queue[0] && Queued(queue, qd, p, n) ==> Queued(queue[1..] + more, qd[1..] + md, p, n)
  {
    forall p, n | p != queue[0] && Queued(queue, qd, p, n)
      ensures Queued(queue[1..] + more, qd[1..] + md, p, n)
    {
      var i :| 0 <= i < |queue| && queue[i] == p && qd[i] <= n;
      assert (queue[1..] + more)[i - 1] == p;
    }
  }

  /** Dropping a visited entry. */
  lemma SkipVisited(t: Tree, root: Pid, dist: map<Pid, nat>, queue: seq<Pid>, qd: seq<nat>)
    requires Searching(t, root, dist, queue, qd)
    requires queue != [] && queue[0] in dist
    ensures Searching(t, root, dist, queue[1..], qd[1..])
  {
    QueueShift(queue, qd, [], []);
    AppendNothing(queue[1..]);
    AppendNothing(qd[1..]);
    forall p | p in dist
      ensures Expanded(t, p, dist[p], dist.Keys, queue[1..], qd[1..])
    {
      assert Expanded(t, p, dist[p], dist.Keys, queue, qd);
    }
  }

  lemma KidsWalked(t: Tree, root: Pid, p: Pid, d: nat, queue: seq<Pid>, qd: seq<nat>)
    requires Walked(t, root, queue, qd) && Walk(t, root, p, d)
    ensures Walked(t, root, queue + t.Children(p), qd + Depths(|t.Children(p)|, d + 1))
  {
    var kids := t.Children(p);
    forall i | 0 <= i < |kids|
      ensures Walk(t, root, kids[i], d + 1)
    {
      WalkOn(t, root, p, d, kids[i]);
    }
  }

  lemma KidsQueued(queue: seq<Pid>, qd: seq<nat>, kids: seq<Pid>, d: nat)
    requires |queue| == |qd|
    ensures forall c :: c in kids ==> Queued(queue + kids, qd + Depths(|kids|, d), c, d)
  {
    forall c | c in kids
      ensures Queued(queue + kids, qd + Depths(|kids|, d), c, d)
    {
      var k :| 0 <= k < |kids| && kids[k] == c;
      assert (queue + kids)[|queue| + k] == c;
    }
  }

  lemma VisitExpands(t: Tree, dist: map<Pid, nat>, queue: seq<Pid>, qd: seq<nat>)
    requires |queue| == |qd| > 0 && queue[0] !in dist
    requires forall p :: p in dist ==> Expanded(t, p, dist[p], dist.Keys, queue, qd)
    ensures var dist' := dist[queue[0] := qd[0]];
            var kids := t.Children(queue[0]);
            forall p :: p in dist' ==>
              Expanded(t, p, dist'[p], dist'.Keys, queue[1..] + kids, qd[1..] + Depths(|kids|, qd[0] + 1))
  {
    var kids := t.Children(queue[0]);
    QueueShift(queue, qd, kids, Depths(|kids|, qd[0] + 1));
    KidsQueued(queue[1..], qd[1..], kids, qd[0] + 1);
    forall p | p in dist
      ensures Expanded(t, p, dist[p], dist.Keys + {queue[0]}, queue[1..] + kids, qd[1..] + Depths(|kids|, qd[0] + 1))
    {
      assert Expanded(t, p, dist[p], dist.Keys, queue, qd);
    }
    assert dist[queue[0] := qd[0]].Keys == dist.Keys + {queue[0]};
  }

  /** Visiting an unvisited head: its children join at the back. */
  lemma Visit(t: Tree, root: Pid, dist: map<Pid, nat>, queue: seq<Pid>, qd: seq<nat>)
    requires Searching(t, root, dist, queue, qd)
    requires queue != [] && queue[0] !in dist
    ensures var kids := t.Children(queue[0]);
            Searching(t, root, dist[queue[0] := qd[0]], queue[1..] + kids, qd[1..] + Depths(|kids|, qd[0] + 1))
  {
    HeadDistance(t, root, dist, queue, qd);
    KidsWalked(t, root, queue[0], qd[0], queue[1..], qd[1..]);
    VisitExpands(t, dist, queue, qd);
  }

  lemma ListVisit(root: Pid, out: seq<Pid>, depth: seq<nat>, dist: map<Pid, nat>, p: Pid, d: nat)
    requires Listed(root, out, depth, dist) && root in dist && p !in dist
    requires forall q :: q in dist ==> dist[q] <= d
    ensures Listed(root, out + [p], depth + [d], dist[p := d])
  {
  }

  lemma FirstQueue(t: Tree, root: Pid)
    ensures var kids := t.Children(root);
            Searching(t, root, map[root := 0], kids, Depths(|kids|, 1))
  {
    var kids := t.Children(root);
    WalkHere(t, root);
    FirstWalked(t, root, kids, Depths(|kids|, 1));
    FirstExpanded(t, root, kids, Depths(|kids|, 1));
  }

  lemma FirstWalked(t: Tree, root: Pid, kids: seq<Pid>, kd: seq<nat>)
    requires kids == t.Children(root) && kd == Depths(|kids|, 1)
    ensures Walked(t, root, kids, kd)
  {
    WalkHere(t, root);
    KidsWalked(t, root, root, 0, [], []);
    AppendNothing(kids);
    AppendNothing(kd);
  }

  lemma FirstExpanded(t: Tree, root: Pid, kids: seq<Pid>, kd: seq<nat>)
    requires kids == t.Children(root) && kd == Depths(|kids|, 1)
    ensures Expanded(t, root, 0, {root}, kids, kd)
  {
    KidsQueued([], [], kids, 1);
    AppendNothing(kids);
    AppendNothing(kd);
  }

  /** With the queue empty, what was listed is what can be reached. */
  lemma Finished(t: Tree, root: Pid, out: seq<Pid>, depth: seq<nat>, dist: map<Pid, nat>)
    requires Searching(t, root, dist, [], []) && Listed(root, out, depth, dist)
    ensures forall p :: p in out <==> p != root && Reachable(t, root, p)
    ensures forall i :: 0 <= i < |out| ==> Distance(t, root, out[i], depth[i])
  {
    forall p | p != root && Reachable(t, root, p)
      ensures p in out
    {
      var n: nat :| Walk(t, root, p, n);
      if p !in dist {
        NoShortcut(t, root, dist, [], [], p, n);
      }
    }
  }

  ghost predicate Within(ps: seq<Pid>, all: set<Pid>) {
    forall i :: 0 <= i < |ps| ==> ps[i] in all
  }

  lemma WithinTail(ps: seq<Pid>, more: seq<Pid>, all: set<Pid>)
    requires ps != [] && Within(ps, all)
    ensures ps[0] in all && Within(ps[1..], all)
    ensures Within(more, all) ==> Within(ps[1..] + more, all)
  {
  }

  lemma KidsAreChildren(t: Tree, p: Pid)
    ensures Within(t.Children(p), t.ChildPids())
  {
    forall i | 0 <= i < |t.Children(p)|
      ensures t.Children(p)[i] in t.ChildPids()
    {
      assert p in t.children && t.Children(p)[i] in t.children[p];
    }
  }

  /** What a search lists from here on: the queue's pids in turn, each new one followed up behind the others. */
  ghost function SearchOrder(t: Tree, seen: set<Pid>, queue: seq<Pid>): seq<Pid>
    requires Within(queue, t.ChildPids())
    decreases t.ChildPids() - seen, |queue|
  {
    if queue == [] then []
    else
      WithinTail(queue, t.Children(queue[0]), t.ChildPids());
      KidsAreChildren(t, queue[0]);
      if queue[0] in seen then SearchOrder(t, seen, queue[1..])
      else [queue[0]] + SearchOrder(t, seen + {queue[0]}, queue[1..] + t.Children(queue[0]))
  }

  ghost function Listing(t: Tree, root: Pid): seq<Pid> {
    KidsAreChildren(t, root);
    SearchOrder(t, {root}, t.Children(root))
  }

  /** What was listed, and what the search lists from here on, is the whole listing. */
  ghost predicate Resumes(t: Tree, root: Pid, out: seq<Pid>, seen: set<Pid>, queue: seq<Pid>) {
    Within(queue, t.ChildPids()) && out + SearchOrder(t, seen, queue) == Listing(t, root)
  }

  lemma ResumeNext(t: Tree, root: Pid, out: seq<Pid>, seen: set<Pid>, queue: seq<Pid>)
    requires Resumes(t, root, out, seen, queue) && queue != []
    ensures if queue[0] in seen then Resumes(t, root, out, seen, queue[1..])
            else Resumes(t, root, out + [queue[0]], seen + {queue[0]}, queue[1..] + t.Children(queue[0]))
  {
    WithinTail(queue, t.Children(queue[0]), t.ChildPids());
    KidsAreChildren(t, queue[0]);
    if queue[0] !in seen {
      AppendAssoc(out, [queue[0]], SearchOrder(t, seen + {queue[0]}, queue[1..] + t.Children(queue[0])));
    }
  }

  /** Between two turns of the loop. */
  ghost predicate Ongoing(t: Tree, root: Pid, seen: set<Pid>, queue: seq<Pid>, out: seq<Pid>,
                          qd: seq<nat>, depth: seq<nat>, dist: map<Pid, nat>) {
    && seen == dist.Keys
    && Searching(t, root, dist, queue, qd)
    && Listed(root, out, depth, dist)
    && Resumes(t, root, out, seen, queue)
  }

  lemma SkipTurn(t: Tree, root: Pid, seen: set<Pid>, queue: seq<Pid>, out: seq<Pid>,
                 qd: seq<nat>, depth: seq<nat>, dist: map<Pid, nat>)
    requires Ongoing(t, root, seen, queue, out, qd, depth, dist) && queue != [] && queue[0] in seen
    ensures Ongoing(t, root, seen, queue[1..], out, qd[1..], depth, dist)
  {
    SkipVisited(t, root, dist, queue, qd);
    ResumeNext(t, root, out, seen, queue);
  }

  lemma VisitTurn(t: Tree, root: Pid, seen: set<Pid>, queue: seq<Pid>, out: seq<Pid>,
                  qd: seq<nat>, depth: seq<nat>, dist: map<Pid, nat>)
    requires Ongoing(t, root, seen, queue, out, qd, depth, dist) && queue != [] && queue[0] !in seen
    ensures var p, kids := queue[0], t.Children(queue[0]);
            && p in t.ChildPids()
            && Ongoing(t, root, seen + {p}, queue[1..] + kids, out + [p],
                       qd[1..] + Depths(|kids|, qd[0] + 1), depth + [qd[0]], dist[p := qd[0]])
  {
    Visit(t, root, dist, queue, qd);
    ListVisit(root, out, depth, dist, queue[0], qd[0]);
    ResumeNext(t, root, out, seen, queue);
  }

  /** Pids at the front of the queue that were not visited are listed next, in their order. */
  lemma {:induction false} FrontIsNext(t: Tree, seen: set<Pid>, front: seq<Pid>, queue: seq<Pid>)
    requires Within(front + queue, t.ChildPids())
    requires forall i :: 0 <= i < |front| ==> front[i] !in seen
    requires forall i, j :: 0 <= i < j < |front| ==> front[i] != front[j]
    ensures front <= SearchOrder(t, seen, front + queue)
    decreases |front|
  {
    if front != [] {
      var kids := t.Children(front[0]);
      TailOfAppend(front, queue);
      WithinTail(front + queue, kids, t.ChildPids());
      KidsAreChildren(t, front[0]);
      AppendAssoc(front[1..], queue, kids);
      FrontIsNext(t, seen + {front[0]}, front[1..], queue + kids);
    }
  }

  /** The root's children come first, in the order they have in the table. */
  lemma ChildrenFirst(t: Tree, root: Pid)
    requires root in t.children && root !in t.children[root]
    requires forall i, j :: 0 <= i < j < |t.children[root]| ==> t.children[root][i] != t.children[root][j]
    ensures t.children[root] <= Listing(t, root)
  {
    KidsAreChildren(t, root);
    AppendNothing(t.Children(root));
    FrontIsNext(t, {root}, t.Children(root), []);
  }

  lemma FirstTurn(t: Tree, root: Pid)
    ensures var kids := t.Children(root);
            Ongoing(t, root, {root}, kids, [], Depths(|kids|, 1), [], map[root := 0])
  {
    FirstQueue(t, root);
    KidsAreChildren(t, root);
    AppendNothing(SearchOrder(t, {root}, t.Children(root)));
  }

  lemma LastTurn(t: Tree, root: Pid, seen: set<Pid>, out: seq<Pid>, depth: seq<nat>, dist: map<Pid, nat>)
    requires Ongoing(t, root, seen, [], out, [], depth, dist)
    ensures out == Listing(t, root)
    ensures forall p :: p in out <==> p != root && Reachable(t, root, p)
    ensures forall i, j :: 0 <= i < j < |out| ==> out[i] != out[j]
    ensures |depth| == |out| && Sorted(depth)
    ensures forall i :: 0 <= i < |out| ==> Distance(t, root, out[i], depth[i])
  {
    Finished(t, root, out, depth, dist);
    AppendNothing(out);
  }

  /** Every pid under root, shallowest first, siblings in the order of their parents' lists. */
  method Descendants(t: Tree, root: Pid) returns (out: seq<Pid>, ghost depth: seq<nat>)
    ensures out == Listing(t, root)
    ensures forall p :: p in out <==> p != root && Reachable(t, root, p)
    ensures forall i, j :: 0 <= i < j < |out| ==> out[i] != out[j]
    ensures |depth| == |out| && Sorted(depth)
    ensures forall i :: 0 <= i < |out| ==> Distance(t, root, out[i], depth[i])
  {
    out := [];
    depth := [];
    var seen := {root};
    var queue := t.Children(root);
    ghost var qd := Depths(|queue|, 1);
    ghost var dist: map<Pid, nat> := map[root := 0];
    FirstTurn(t, root);
    while |queue| > 0
      invariant Ongoing(t, root, seen, queue, out, qd, depth, dist)
      decreases t.ChildPids() - seen, |queue|
    {
      var pid := queue[0];
      if pid in seen {
        SkipTurn(t, root, seen, queue, out, qd, depth, dist);
        queue, qd := queue[1..], qd[1..];
        continue;
      }
      VisitTurn(t, root, seen, queue, out, qd, depth, dist);
      depth, dist := depth + [qd[0]], dist[pid := qd[0]];
      qd := qd[1..] + Depths(|t.Children(pid)|, qd[0] + 1);
      seen := seen + {pid};
      out := out + [pid];
      queue := queue[1..] + t.Children(pid);
    }
    LastTurn(t, root, seen, out, depth, dist);
  }
}
