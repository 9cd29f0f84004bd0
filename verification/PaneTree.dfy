/**
 Does a pane run a botmux `--remote` viewer? A breadth-first search of the
 pane's process tree, bounded in depth, that probes each process once.
 */
module PaneTree {
  import opened Options

  const MAX_DEPTH := 4

  /** A fixed snapshot: the children of each pid, and whether a pid is a
      codex-family process with `--remote` in its argv. */
  datatype Snapshot = Snapshot(children: int -> seq<int>, isRemote: int -> bool)

  /** A path of child edges from `root`. */
  ghost predicate Path(s: Snapshot, root: int, path: seq<int>) {
    && path != [] && path[0] == root
    && forall k :: 0 <= k < |path| - 1 ==> path[k + 1] in s.children(path[k])
  }

  /** `pid` is at most `edges` child edges below `root`. */
  ghost predicate Within(s: Snapshot, root: int, pid: int, edges: int) {
    exists path :: Path(s, root, path) && |path| <= edges + 1 && path[|path| - 1] == pid
  }

  lemma OneStep(s: Snapshot, root: int, parent: int, child: int, edges: nat)
    requires Within(s, root, parent, edges) && child in s.children(parent)
    ensures Within(s, root, child, edges + 1)
  {
    var path :| Path(s, root, path) && |path| <= edges + 1 && path[|path| - 1] == parent;
    assert Path(s, root, path + [child]);
    assert (path + [child])[|path|] == child;
  }

  lemma LastStep(s: Snapshot, root: int, pid: int, edges: nat)
    requires Within(s, root, pid, edges)
    ensures pid == root || exists parent :: Within(s, root, parent, edges - 1) && pid in s.children(parent)
  {
    var path :| Path(s, root, path) && |path| <= edges + 1 && path[|path| - 1] == pid;
    if |path| > 1 {
      var before := path[..|path| - 1];
      assert Path(s, root, before);
      assert Within(s, root, before[|before| - 1], edges - 1);
    }
  }

  /** Once nothing is left to visit, whatever is reachable was seen. */
  lemma {:induction false} Exhausted(s: Snapshot, root: int, seen: set<int>, pid: int, edges: nat)
    requires root in seen && Within(s, root, pid, edges)
    requires forall parent, child :: parent in seen && child in s.children(parent) ==> child in seen
    ensures pid in seen
    decreases edges
  {
    LastStep(s, root, pid, edges);
    if pid != root && edges > 0 {
      var parent :| Within(s, root, parent, edges - 1) && pid in s.children(parent);
      Exhausted(s, root, seen, parent, edges - 1);
    }
  }

  /** Everything at most `depth` edges down is seen or in the frontier. */
  ghost predicate Covers(s: Snapshot, root: int, depth: int, seen: set<int>, frontier: seq<int>) {
    forall pid :: Within(s, root, pid, depth) ==> pid in seen || pid in frontier
  }

  ghost predicate Closed(s: Snapshot, seen: set<int>, frontier: seq<int>) {
    forall parent, child :: parent in seen && child in s.children(parent) ==> child in seen || child in frontier
  }

  lemma NextLevelCovers(s: Snapshot, root: int, depth: nat, seen: set<int>, next: seq<int>)
    requires Covers(s, root, depth, seen, []) && Closed(s, seen, next) && root in seen
    ensures Covers(s, root, depth + 1, seen, next)
  {
    forall pid | Within(s, root, pid, depth + 1) ensures pid in seen || pid in next {
      LastStep(s, root, pid, depth + 1);
    }
  }

  ghost predicate Distinct(pids: seq<int>) {
    forall j, k :: 0 <= j < k < |pids| ==> pids[j] != pids[k]
  }

  /** One level: visit the unseen of the frontier, collecting their children. */
  method VisitLevel(s: Snapshot, ghost root: int, ghost depth: nat, frontier: seq<int>, seen: set<int>, ghost probed: seq<int>)
    returns (found: bool, seen': set<int>, next: seq<int>, ghost probed': seq<int>)
    requires forall pid :: pid in frontier ==> Within(s, root, pid, depth)
    requires Closed(s, seen, frontier) && Distinct(probed) && (forall pid :: pid in seen <==> pid in probed)
    ensures Distinct(probed') && (forall pid :: pid in seen' <==> pid in probed')
    ensures forall pid :: pid in seen' ==> pid in seen || pid in frontier
    ensures found ==> exists pid :: Within(s, root, pid, depth) && s.isRemote(pid)
    ensures !found ==> seen' == seen + (set pid | pid in frontier) && Closed(s, seen', next)
    ensures !found ==> forall pid :: pid in seen' && pid !in seen ==> !s.isRemote(pid)
    ensures !found ==> forall pid :: pid in next ==> Within(s, root, pid, depth + 1)
  {
    found, seen', next, probed' := false, seen, [], probed;
    for index := 0 to |frontier|
      invariant seen' == seen + (set pid | pid in frontier[..index])
      invariant Distinct(probed') && forall pid :: pid in seen' <==> pid in probed'
      invariant forall pid :: pid in seen' && pid !in seen ==> !s.isRemote(pid)
      invariant forall pid :: pid in next ==> Within(s, root, pid, depth + 1)
      invariant forall parent, child :: parent in seen' && child in s.children(parent) ==> child in seen || child in frontier || child in next
    {
      var pid := frontier[index];
      assert frontier[..index + 1] == frontier[..index] + [pid];
      assert pid in frontier;
      if pid !in seen' {
        seen', probed' := seen' + {pid}, probed' + [pid];
        if s.isRemote(pid) {
          found := true;
          return;
        }
        forall child | child in s.children(pid) ensures Within(s, root, child, depth + 1) {
          OneStep(s, root, pid, child, depth);
        }
        next := next + s.children(pid);
      }
    }
    assert frontier[..|frontier|] == frontier;
  }

  /** Sound and complete over the snapshot: true exactly when a remote viewer lies
      at most four child edges below the pane's process. Each pid is probed at
      most once, whatever sharing or cycles the children have. */
  method PaneRunsRemoteTui(panePid: Option<int>, s: Snapshot) returns (owned: bool, ghost probed: seq<int>)
    ensures owned <==> panePid.Some? && panePid.value > 0
                       && exists pid :: Within(s, panePid.value, pid, 4) && s.isRemote(pid)
    ensures Distinct(probed)
  {
    owned, probed := false, [];
    if panePid.None? || panePid.value <= 0 {
      return;
    }
    var root := panePid.value;
    var frontier := [root];
    var seen: set<int> := {};
    var depth := 0;
    assert Path(s, root, [root]);
    forall pid | Within(s, root, pid, 0) ensures pid in frontier {
      LastStep(s, root, pid, 0);
      assert !(exists parent :: Within(s, root, parent, -1));
    }
    while depth <= MAX_DEPTH && |frontier| > 0
      invariant 0 <= depth <= MAX_DEPTH + 1
      invariant depth == 0 ==> frontier == [root]
      invariant depth > 0 ==> root in seen && Covers(s, root, depth - 1, seen, [])
      invariant Covers(s, root, depth, seen, frontier)
      invariant Closed(s, seen, frontier) && Distinct(probed)
      invariant forall pid :: pid in seen <==> pid in probed
      invariant forall pid :: pid in frontier ==> Within(s, root, pid, depth)
      invariant forall pid :: pid in seen ==> !s.isRemote(pid)
    {
      var found, seen', next;
      found, seen', next, probed := VisitLevel(s, root, depth, frontier, seen, probed);
      if found {
        ghost var pid :| Within(s, root, pid, depth) && s.isRemote(pid);
        WithinMore(s, root, pid, depth, MAX_DEPTH);
        owned := true;
        return;
      }
      assert root in seen' by {
        assert depth == 0 ==> root in frontier;
      }
      NextLevelCovers(s, root, depth, seen', next);
      seen, frontier, depth := seen', next, depth + 1;
    }
    forall pid | Within(s, root, pid, MAX_DEPTH) ensures !s.isRemote(pid) {
      if depth <= MAX_DEPTH {
        Exhausted(s, root, seen, pid, MAX_DEPTH);
      }
    }
  }

  lemma WithinMore(s: Snapshot, root: int, pid: int, edges: int, more: int)
    requires Within(s, root, pid, edges) && edges <= more
    ensures Within(s, root, pid, more)
  {
    var path :| Path(s, root, path) && |path| <= edges + 1 && path[|path| - 1] == pid;
  }
}
