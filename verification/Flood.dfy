// The worklist flood fill shared by despeckle and by the contour tracer: what a partly
// expanded queue means, and why an exhausted queue is exactly one connected region.
module Flood {
  import opened Wrappers
  import opened Grid

  function Members(queue: seq<nat>): set<nat>
  {
    set i | i in queue
  }

  lemma {:induction false} DistinctSize(queue: seq<nat>)
    requires forall a, b :: 0 <= a < b < |queue| ==> queue[a] != queue[b]
    ensures |Members(queue)| == |queue|
  {
    if queue != [] {
      var init, last := queue[..|queue| - 1], queue[|queue| - 1];
      DistinctSize(init);
      assert queue == init + [last];
      assert Members(queue) == Members(init) + {last};
    }
  }

  // The visited marks form a union of whole components.
  ghost predicate Settled(labels: seq<nat>, edges: set<(nat, nat)>, visited: seq<bool>)
  {
    && |visited| == |labels|
    && forall i: nat, j: nat :: Step(labels, edges, i, j) ==> visited[i] == visited[j]
  }

  // queue holds distinct pixels of the component of start, and visited marks them on top of
  // what was marked before this fill began.
  ghost predicate Flooding(labels: seq<nat>, edges: set<(nat, nat)>, start: nat, before: seq<bool>,
                           visited: seq<bool>, queue: seq<nat>)
  {
    && |before| == |visited| == |labels|
    && start in queue
    && (forall k :: 0 <= k < |queue| ==>
          queue[k] < |labels| && !before[queue[k]] && Connected(labels, edges, start, queue[k]))
    && (forall a, b :: 0 <= a < b < |queue| ==> queue[a] != queue[b])
    && (forall i :: 0 <= i < |labels| ==> visited[i] == (before[i] || i in queue))
  }

  // The first `done` queued pixels have had all their moves queued.
  ghost predicate Expanded(labels: seq<nat>, edges: set<(nat, nat)>, queue: seq<nat>, done: nat)
  {
    && done <= |queue|
    && forall k: nat, j: nat :: k < done && Step(labels, edges, queue[k], j) ==> j in queue
  }

  lemma FloodStart(labels: seq<nat>, edges: set<(nat, nat)>, start: nat, before: seq<bool>)
    requires |before| == |labels| && start < |labels| && !before[start]
    ensures Flooding(labels, edges, start, before, before[start := true], [start])
    ensures Expanded(labels, edges, [start], 0)
  {
    ConnectedSelf(labels, edges, start);
  }

  lemma FloodDiscover(labels: seq<nat>, edges: set<(nat, nat)>, start: nat, before: seq<bool>, visited: seq<bool>,
                      queue: seq<nat>, p: nat, j: nat)
    requires Flooding(labels, edges, start, before, visited, queue)
    requires p in queue && Step(labels, edges, p, j) && !visited[j]
    ensures Flooding(labels, edges, start, before, visited[j := true], queue + [j])
  {
    ConnectedStep(labels, edges, start, p, j);
    var longer, marked := queue + [j], visited[j := true];
    forall i | 0 <= i < |labels| ensures marked[i] == (before[i] || i in longer) {
      assert i in longer <==> i in queue || i == j;
    }
    assert start in longer;
  }

  // A queue of distinct pixels is no longer than the image.
  lemma QueueFits(labels: seq<nat>, edges: set<(nat, nat)>, start: nat, before: seq<bool>, visited: seq<bool>,
                  queue: seq<nat>)
    requires Flooding(labels, edges, start, before, visited, queue)
    ensures |queue| <= |labels|
  {
    DistinctSize(queue);
    SubsetSize(Members(queue), Range(|labels|));
  }

  // An exhausted queue is the whole component, each pixel once.
  lemma FloodComplete(labels: seq<nat>, edges: set<(nat, nat)>, start: nat, before: seq<bool>, visited: seq<bool>,
                      queue: seq<nat>)
    requires Flooding(labels, edges, start, before, visited, queue)
    requires Expanded(labels, edges, queue, |queue|)
    requires Settled(labels, edges, before) && Symmetric(edges, |labels|)
    ensures Members(queue) == Component(labels, edges, start)
    ensures |queue| == |Component(labels, edges, start)|
    ensures Settled(labels, edges, visited)
    ensures forall i :: 0 <= i < |labels| ==> visited[i] == (before[i] || i in Component(labels, edges, start))
  {
    DistinctSize(queue);
    var closed := Members(queue);
    forall a: nat, b: nat | a in closed && Step(labels, edges, a, b) ensures b in closed {
      var k :| 0 <= k < |queue| && queue[k] == a;
      assert b in queue;
    }
    forall j | j in Component(labels, edges, start) ensures j in closed {
      ConnectedReach(labels, edges, closed, start, j);
    }
    forall i: nat, j: nat | Step(labels, edges, i, j) ensures visited[i] == visited[j] {
      assert Step(labels, edges, j, i);
      assert before[i] == before[j];
      assert i in closed <==> j in closed;
    }
  }

  // The region of an unvisited pixel is unvisited.
  lemma UnmarkedRegion(labels: seq<nat>, edges: set<(nat, nat)>, visited: seq<bool>, start: nat, i: nat)
    requires Settled(labels, edges, visited) && start < |labels| && !visited[start]
    requires i in Component(labels, edges, start)
    ensures !visited[i]
  {
    var unmarked := set k: nat | k < |labels| && !visited[k];
    ConnectedReach(labels, edges, unmarked, start, i);
  }

  lemma NeighborsAdjacent(labels: seq<nat>, edges: set<(nat, nat)>, index: nat, nbs: seq<Option<nat>>)
    requires TableOf(edges, index, nbs) && forall q: nat :: (index, q) in edges ==> q < |labels|
    ensures forall k :: 0 <= k < |nbs| && nbs[k].Some? ==> nbs[k].value < |labels| && (index, nbs[k].value) in edges
  {
    forall k | 0 <= k < |nbs| && nbs[k].Some?
      ensures nbs[k].value < |labels| && (index, nbs[k].value) in edges
    {
      assert Some(nbs[k].value) in nbs;
    }
  }

  // Once the neighbours of the dequeued pixel that bear its label are queued, it is expanded too.
  lemma ExpandedNext(labels: seq<nat>, edges: set<(nat, nat)>, queue0: seq<nat>, queue: seq<nat>, cursor: nat,
                     nbs: seq<Option<nat>>)
    requires cursor < |queue0| && queue0 <= queue && Expanded(labels, edges, queue0, cursor)
    requires queue0[cursor] < |labels| && TableOf(edges, queue0[cursor], nbs)
    requires forall m :: 0 <= m < |nbs| && nbs[m].Some? ==>
               nbs[m].value < |labels| && (labels[nbs[m].value] == labels[queue0[cursor]] ==> nbs[m].value in queue)
    ensures Expanded(labels, edges, queue, cursor + 1)
  {
    forall k: nat, j: nat | k < cursor + 1 && Step(labels, edges, queue[k], j) ensures j in queue {
      assert queue[k] == queue0[k];
      if k == cursor {
        assert Some(j) in nbs;
        var m :| 0 <= m < |nbs| && nbs[m] == Some(j);
        assert nbs[m].Some? && nbs[m].value == j;
      } else {
        assert k < cursor && Step(labels, edges, queue0[k], j);
        assert j in queue0;
        var m :| 0 <= m < |queue0| && queue0[m] == j;
        assert queue[m] == j;
      }
    }
  }
}
